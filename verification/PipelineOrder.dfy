/** Order: what is sent, and what is still on its way, was handed out by the decoder in that order. */
module PipelineOrder {
  import opened Queues
  import opened Decoding
  import opened Pipeline
  import opened PipelineSafety
  import PipelineFlow

  /** `a` is `b` with some elements left out. */
  predicate IsSubsequence<T(==)>(a: seq<T>, b: seq<T>) {
    if a == [] then true
    else if b == [] then false
    else
      || IsSubsequence(a, b[..|b| - 1])
      || (a[|a| - 1] == b[|b| - 1] && IsSubsequence(a[..|a| - 1], b[..|b| - 1]))
  }

  lemma OneMoreAtTheEnd<T>(a: seq<T>, b: seq<T>, x: T)
    requires IsSubsequence(a, b)
    ensures IsSubsequence(a, b + [x]) && IsSubsequence(a + [x], b + [x])
  {
    assert (b + [x])[..|b|] == b && (a + [x])[..|a|] == a;
  }

  lemma {:induction false} LeaveOut<T>(x: seq<T>, y: seq<T>, z: seq<T>, b: seq<T>)
    requires IsSubsequence(x + y + z, b)
    ensures IsSubsequence(x + z, b)
    decreases |b|, |y|
  {
    var a := x + y + z;
    if y == [] {
      assert a == x + z;
    } else if IsSubsequence(a, b[..|b| - 1]) {
      LeaveOut(x, y, z, b[..|b| - 1]);
    } else if z != [] {
      var z' := z[..|z| - 1];
      assert a[..|a| - 1] == x + y + z';
      LeaveOut(x, y, z', b[..|b| - 1]);
      assert (x + z)[..|x + z| - 1] == x + z';
    } else {
      var y' := y[..|y| - 1];
      assert a[..|a| - 1] == x + y' + z;
      LeaveOut(x, y', z, b[..|b| - 1]);
    }
  }

  /** The frames the decoder handed out in the first `n` steps, as its processor turned them into frames or blocks. */
  ghost function HandedOut(steps: seq<Step>, k: Kind, n: nat): seq<Frame>
    requires n <= |steps|
  {
    if n == 0 then []
    else
      var before := HandedOut(steps, k, n - 1);
      match steps[n - 1]
      case DecodeStep(kind, ReceiveFrame(frame, _)) => if kind == k then before + [frame] else before
      case _ => before
  }

  /** Dealt with by the presenter, in its hands, queued, about to be queued, held back. */
  function WholeLine(st: Stream): seq<Frame> {
    PipelineFlow.FramesOf(st.log.outcomes) + (Hand(st.show) + st.frames.items + OutOf(st.stage)) + st.held
  }

  // ---------------------------------------------------------------- steps

  /** A frame handed out joins the line at its end, unless it is dropped; the block held back may be trimmed away. */
  lemma TakeFrameBehind(st: Stream, kind: Kind, sh: Shared, frame: Frame, keep: bool)
    requires st.stage.Draining? && st.decoder.buffer != [] && DecodeShape(st, kind)
    ensures var st' := TakeFrame(st, kind, sh, frame, keep);
            var behind := OutOf(st'.stage) + st'.held;
            behind == st.held || behind == st.held + [frame] || behind == [frame]
  {
    hide OnFrame, Lateness;
  }

  lemma ReceiveKeepsOrder(st: Stream, kind: Kind, sh: Shared, frame: Frame, keep: bool, b: seq<Frame>)
    requires st.stage.Draining? && st.decoder.buffer != [] && DecodeShape(st, kind) && IsSubsequence(WholeLine(st), b)
    ensures IsSubsequence(WholeLine(TakeFrame(st, kind, sh, frame, keep)), b + [frame])
  {
    hide TakeFrame, IsSubsequence, DecodeShape, PipelineFlow.FramesOf;
    TakeFrameBehind(st, kind, sh, frame, keep);
    var st' := TakeFrame(st, kind, sh, frame, keep);
    var front := PipelineFlow.FramesOf(st.log.outcomes) + (Hand(st.show) + st.frames.items);
    var behind := OutOf(st'.stage) + st'.held;
    assert WholeLine(st) == front + st.held && front + st.held == front + st.held + [] && WholeLine(st') == front + behind;
    OneMoreAtTheEnd(front + st.held, b, frame);
    assert front + (st.held + [frame]) == front + st.held + [frame];
    if behind == [frame] {
      LeaveOut(front, st.held, [], b);
      assert front + [] == front;
      OneMoreAtTheEnd(front, b, frame);
    }
  }

  lemma PushKeepsOrder(st: Stream, kind: Kind, sh: Shared, b: seq<Frame>)
    requires DecodeEnabled(st, sh, PushFrame) && IsSubsequence(WholeLine(st), b)
    ensures IsSubsequence(WholeLine(DecodeNext(st, kind, sh, PushFrame)), b)
  {
    hide IsSubsequence;
    var front, out := PipelineFlow.FramesOf(st.log.outcomes) + (Hand(st.show) + st.frames.items), st.stage.out;
    var st' := DecodeNext(st, kind, sh, PushFrame);
    assert WholeLine(st) == front + [out[0]] + (out[1..] + st.held);
    if Push(st.frames, out[0], sh.stop).1.Pushed? {
      assert WholeLine(st') == WholeLine(st);
    } else {
      LeaveOut(front, [out[0]], out[1..] + st.held, b);
      assert WholeLine(st') == front + (out[1..] + st.held);
    }
  }

  lemma DecodeKeepsOrder(st: Stream, kind: Kind, sh: Shared, act: DecodeAct, b: seq<Frame>)
    requires DecodeEnabled(st, sh, act) && !act.ReceiveFrame? && IsSubsequence(WholeLine(st), b)
    ensures IsSubsequence(WholeLine(DecodeNext(st, kind, sh, act)), b)
  {
    hide IsSubsequence;
    var st' := DecodeNext(st, kind, sh, act);
    match act
    case PopItem => assert WholeLine(st') == WholeLine(st) by { PopKeepsLine(st, kind, sh); }
    case PushFrame => PushKeepsOrder(st, kind, sh, b);
    case DecodeThrows =>
      var front := PipelineFlow.FramesOf(st.log.outcomes) + (Hand(st.show) + st.frames.items);
      assert WholeLine(st) == front + OutOf(st.stage) + st.held;
      LeaveOut(front, OutOf(st.stage), st.held, b);
      assert WholeLine(st') == front + st.held;
    case _ => OtherKeepsLine(st, kind, sh, act);
  }

  lemma OtherKeepsLine(st: Stream, kind: Kind, sh: Shared, act: DecodeAct)
    requires DecodeEnabled(st, sh, act)
    requires act.SendPacket? || act.ReceiveNothing? || act.EndEmit? || act.EndInput? || act.FlushProcessor? || act.CloseQueue?
    ensures WholeLine(DecodeNext(st, kind, sh, act)) == WholeLine(st)
  {
    var st' := DecodeNext(st, kind, sh, act);
    assert OutOf(st.stage) + st.held == OutOf(st'.stage) + st'.held;
    LineByParts(st, st');
  }

  lemma PopKeepsLine(st: Stream, kind: Kind, sh: Shared)
    requires st.stage.Popping?
    ensures WholeLine(TakeItem(st, kind, sh)) == WholeLine(st)
  {
    hide Shed, ShouldSkip;
  }

  lemma LineByParts(st: Stream, st': Stream)
    requires st.log.outcomes == st'.log.outcomes && st.show == st'.show && st.frames.items == st'.frames.items
    requires OutOf(st.stage) + st.held == OutOf(st'.stage) + st'.held
    ensures WholeLine(st') == WholeLine(st)
  {
    var front := PipelineFlow.FramesOf(st.log.outcomes) + (Hand(st.show) + st.frames.items);
    assert WholeLine(st) == front + (OutOf(st.stage) + st.held) && WholeLine(st') == front + (OutOf(st'.stage) + st'.held);
  }

  /** The presenter takes a frame into its hands, deals with it, or leaves it. */
  ghost predicate Handles(st: Stream, st': Stream) {
    var outcomes, outcomes' := st.log.outcomes, st'.log.outcomes;
    && st'.stage == st.stage && st'.held == st.held
    && (|| (outcomes' == outcomes && Hand(st'.show) + st'.frames.items == Hand(st.show) + st.frames.items)
        || (st'.frames == st.frames && Hand(st'.show) == [] &&
            (|| outcomes' == outcomes
             || (exists o :: outcomes' == outcomes + [o] && Hand(st.show) == [o.frame]))))
  }

  lemma TakeNextHandles(st: Stream, kind: Kind, sh: Shared, sh': Shared)
    requires PresentEnabled(st, kind, sh, TakeNext)
    ensures Handles(st, PresentStream(st, kind, sh, TakeNext, sh'))
  {
  }

  lemma DisposeHandles(st: Stream, kind: Kind, sh: Shared, act: PresentAct, sh': Shared)
    requires PresentEnabled(st, kind, sh, act) && (act.Decide? || act.SendFrame?)
    ensures Handles(st, PresentStream(st, kind, sh, act, sh'))
  {
    var st' := PresentStream(st, kind, sh, act, sh');
    if st'.show.Taking? {
      var o := st'.log.outcomes[|st.log.outcomes|];
      assert st'.log.outcomes == st.log.outcomes + [o] && Hand(st.show) == [o.frame];
    }
  }

  lemma OtherHandles(st: Stream, kind: Kind, sh: Shared, act: PresentAct, sh': Shared)
    requires PresentEnabled(st, kind, sh, act) && !act.TakeNext? && !act.Decide? && !act.SendFrame?
    ensures Handles(st, PresentStream(st, kind, sh, act, sh'))
  {
  }

  lemma Regroup(done: seq<Frame>, hand: seq<Frame>, queue: seq<Frame>, out: seq<Frame>, held: seq<Frame>)
    ensures done + (hand + queue + out) + held == done + hand + (queue + out + held)
    ensures done + (hand + queue + out) + held == done + (hand + queue) + (out + held)
  {
  }

  lemma HandlingKeepsOrder(st: Stream, st': Stream, b: seq<Frame>)
    requires Handles(st, st') && IsSubsequence(WholeLine(st), b)
    ensures IsSubsequence(WholeLine(st'), b)
  {
    hide IsSubsequence, PipelineFlow.FramesOf;
    var done, done' := PipelineFlow.FramesOf(st.log.outcomes), PipelineFlow.FramesOf(st'.log.outcomes);
    var hand, hand', out, held := Hand(st.show), Hand(st'.show), OutOf(st.stage), st.held;
    Regroup(done, hand, st.frames.items, out, held);
    Regroup(done', hand', st'.frames.items, out, held);
    if st'.log.outcomes != st.log.outcomes {
      PipelineFlow.OneMore(st.log.outcomes, st'.log.outcomes[|st.log.outcomes|]);
      assert done' + [] == done + hand;
    } else if hand' + st'.frames.items != hand + st.frames.items {
      LeaveOut(done, hand, st.frames.items + out + held, b);
      assert done + [] == done;
    }
  }

  lemma PresentKeepsOrder(st: Stream, kind: Kind, sh: Shared, act: PresentAct, sh': Shared, b: seq<Frame>)
    requires PresentEnabled(st, kind, sh, act) && IsSubsequence(WholeLine(st), b)
    ensures IsSubsequence(WholeLine(PresentStream(st, kind, sh, act, sh')), b)
  {
    hide IsSubsequence, PresentEnabled, PresentStream, Handles, WholeLine;
    match act {
      case TakeNext => TakeNextHandles(st, kind, sh, sh');
      case Decide => DisposeHandles(st, kind, sh, act, sh');
      case SendFrame => DisposeHandles(st, kind, sh, act, sh');
      case _ => OtherHandles(st, kind, sh, act, sh');
    }
    HandlingKeepsOrder(st, PresentStream(st, kind, sh, act, sh'), b);
  }

  lemma DemuxKeepsLine(s: State, act: DemuxAct, k: Kind)
    requires DemuxEnabled(s, act)
    ensures WholeLine(Get(DemuxNext(s, act), k)) == WholeLine(Get(s, k))
  {
    PipelineFlow.DemuxFrames(s, act, k);
  }

  lemma StepKeepsOrder(s: State, step: Step, k: Kind, b: seq<Frame>)
    requires Shape(s) && Enabled(s, step) && IsSubsequence(WholeLine(Get(s, k)), b)
    ensures var received := step.DecodeStep? && step.kind == k && step.decode.ReceiveFrame?;
            IsSubsequence(WholeLine(Get(Next(s, step), k)), if received then b + [step.decode.frame] else b)
  {
    hide IsSubsequence, WholeLine;
    match step
    case DemuxStep(act) => DemuxKeepsLine(s, act, k);
    case DecodeStep(kind, act) =>
      if kind == k {
        match act {
          case ReceiveFrame(frame, keep) => ReceiveKeepsOrder(Get(s, k), k, s.shared, frame, keep, b);
          case _ => DecodeKeepsOrder(Get(s, k), k, s.shared, act, b);
        }
      }
    case PresentStep(kind, act) =>
      if kind == k {
        var sh := PresentShared(Get(s, k), k, s.shared, act);
        PresentKeepsOrder(Get(s, k), k, s.shared, act, sh, b);
      }
    case _ =>
  }

  /**
   In every run, stopped, failing or not: the frames the presenter has dealt with, the one in its hands, those queued,
   those about to be pushed and the block held back are, in this order, some of the frames the decoder handed out, in
   the order in which it did. Nothing overtakes, and nothing is sent twice.
   */
  lemma {:induction false} SentInDecodingOrder(states: seq<State>, steps: seq<Step>, n: nat, k: Kind)
    requires IsRun(states, steps) && n < |states|
    ensures IsSubsequence(WholeLine(Get(states[n], k)), HandedOut(steps, k, n))
    ensures IsSubsequence(PipelineFlow.FramesOf(Get(states[n], k).log.outcomes), HandedOut(steps, k, n))
  {
    hide Next, Enabled;
    if n > 0 {
      SentInDecodingOrder(states, steps, n - 1, k);
      RunShape(states, steps, n - 1);
      StepKeepsOrder(states[n - 1], steps[n - 1], k, HandedOut(steps, k, n - 1));
    }
    LineBegins(Get(states[n], k), HandedOut(steps, k, n));
  }

  lemma LineBegins(st: Stream, b: seq<Frame>)
    requires IsSubsequence(WholeLine(st), b)
    ensures IsSubsequence(PipelineFlow.FramesOf(st.log.outcomes), b)
  {
    hide IsSubsequence;
    var done := PipelineFlow.FramesOf(st.log.outcomes);
    var rest := Hand(st.show) + st.frames.items + OutOf(st.stage) + st.held;
    assert WholeLine(st) == done + rest + [] && done + [] == done;
    LeaveOut(done, rest, [], b);
  }

  lemma {:induction false} FromTheRest<T>(a: seq<T>, b: seq<T>, x: T)
    requires IsSubsequence(a, b) && x in a
    ensures x in b
  {
    if IsSubsequence(a, b[..|b| - 1]) {
      FromTheRest(a, b[..|b| - 1], x);
    } else if x != a[|a| - 1] {
      assert x in a[..|a| - 1];
      FromTheRest(a[..|a| - 1], b[..|b| - 1], x);
    }
  }

  /** In this state, by this step, the decoder hands out what becomes this frame, with its timestamp and pass. */
  predicate HandsOut(s: State, step: Step, k: Kind, frame: Frame) {
    && step.DecodeStep? && step.kind == k && step.decode.ReceiveFrame? && step.decode.frame == frame
    && Get(s, k).decoder.buffer != []
    && var raw := Get(s, k).decoder.buffer[0]; frame.pass == raw.pass && (raw.ts.Some? ==> frame.pts == raw.ts.value)
  }

  lemma {:induction false} HandedOutByTheDecoder(states: seq<State>, steps: seq<Step>, n: nat, k: Kind, frame: Frame)
    requires IsRun(states, steps) && n <= |steps| && frame in HandedOut(steps, k, n)
    ensures exists i :: 0 <= i < n && HandsOut(states[i], steps[i], k, frame)
  {
    hide Next, Init;
    if frame in HandedOut(steps, k, n - 1) {
      HandedOutByTheDecoder(states, steps, n - 1, k, frame);
    } else {
      assert HandsOut(states[n - 1], steps[n - 1], k, frame);
    }
  }

  /** In every run, each frame sent or dropped by a presenter was handed out by the decoder, with that timestamp. */
  lemma FramesKeepTheirTimestamps(states: seq<State>, steps: seq<Step>, k: Kind, o: Outcome)
    requires IsRun(states, steps) && o in Get(states[|steps|], k).log.outcomes
    ensures exists i :: 0 <= i < |steps| && HandsOut(states[i], steps[i], k, o.frame)
  {
    hide Next, Enabled, Init, IsSubsequence, WholeLine, HandsOut;
    var frames := PipelineFlow.FramesOf(Get(states[|steps|], k).log.outcomes);
    assert o.frame in frames by {
      var i :| 0 <= i < |frames| && Get(states[|steps|], k).log.outcomes[i] == o;
      assert frames[i] == o.frame;
    }
    SentInDecodingOrder(states, steps, |steps|, k);
    FromTheRest(frames, HandedOut(steps, k, |steps|), o.frame);
    HandedOutByTheDecoder(states, steps, |steps|, k, o.frame);
  }
}
