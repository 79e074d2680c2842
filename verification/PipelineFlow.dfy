/** Conservation: what enters each stage of an undisturbed run comes out of it, in order, exactly once. */
module PipelineFlow {
  import opened Queues
  import opened Decoding
  import opened Pipeline
  import opened PipelineSafety

  function FramesOf(outcomes: seq<Outcome>): (r: seq<Frame>)
    ensures |r| == |outcomes| && forall i :: 0 <= i < |r| ==> r[i] == outcomes[i].frame
  {
    seq(|outcomes|, i requires 0 <= i < |outcomes| => outcomes[i].frame)
  }

  function CountSent(outcomes: seq<Outcome>): nat {
    if outcomes == [] then 0
    else CountSent(outcomes[..|outcomes| - 1]) + if outcomes[|outcomes| - 1].Sent? then 1 else 0
  }

  function CountData(items: seq<Item>): nat {
    if items == [] then 0
    else CountData(items[..|items| - 1]) + if items[|items| - 1].Data? then 1 else 0
  }

  /** A packet taken from the queue and not yet accepted, discarded or given up on. */
  function InHand(stage: DecodeStage): nat {
    if stage.Sending? || (InDrain(stage) && stage.after.Retry?) then 1 else 0
  }

  /** What the demuxer still holds for a stream. */
  function Undelivered(demux: DemuxStage, k: Kind): seq<Item> {
    match demux
    case Delivering(kind, item) => if kind == k then [item] else []
    case Marking(kind) => if k == Audio || kind == Video then [Marker] else []
    case _ => []
  }

  ghost predicate ItemFlow(st: Stream, pending: seq<Item>) {
    && st.log.wanted == st.log.taken + st.packets.items + pending
    && st.log.popped == CountData(st.log.taken)
    && st.log.popped == st.log.fed + st.log.skipped + st.log.refused + InHand(st.stage)
  }

  ghost predicate FrameCount(st: Stream, kind: Kind) {
    && st.log.made == st.log.received + st.log.lost + |st.decoder.buffer|
    && st.log.received == st.log.dropped + st.log.sent + st.log.trimmed
                          + |st.held| + |OutOf(st.stage)| + |st.frames.items| + |Hand(st.show)|
    && (kind == Video ==> st.log.trimmed == 0)
    && (st.stage.Closing? || st.stage.DecodeEnded? || (InDrain(st.stage) && st.stage.after.CloseFrames?) ==> st.held == [])
    && (kind == Audio ==> st.log.dropped == 0 && st.log.skipped == 0 && !st.skipping)
  }

  ghost predicate FrameOrder(st: Stream, kind: Kind) {
    && st.log.pushed == FramesOf(st.log.outcomes) + Hand(st.show) + st.frames.items
    && st.log.sent == CountSent(st.log.outcomes)
    && (kind == Audio ==> (forall o <- st.log.outcomes :: o.Sent?) && !st.show.Examining? && !st.show.Deciding?)
  }

  ghost predicate Flow(s: State, k: Kind) {
    !s.shared.stop && Get(s, k).present ==>
      ItemFlow(Get(s, k), Undelivered(s.demux, k)) && FrameCount(Get(s, k), k) && FrameOrder(Get(s, k), k)
  }

  // ---------------------------------------------------------------- decode

  lemma TakeItemFlow(st: Stream, kind: Kind, sh: Shared, pending: seq<Item>)
    requires st.stage.Popping? && PopEnabled(st.packets, sh.stop) && !sh.stop && ItemFlow(st, pending)
    ensures ItemFlow(TakeItem(st, kind, sh), pending)
  {
    hide ShouldSkip, Shed, CountData;
    if st.packets.items != [] { CountOneMore(st.log.taken, st.packets.items, pending); }
  }

  /** Taking the first of `items` keeps the order, and counts it if it is a packet. */
  lemma CountOneMore(taken: seq<Item>, items: seq<Item>, pending: seq<Item>)
    requires items != []
    ensures taken + items + pending == taken + [items[0]] + items[1..] + pending
    ensures CountData(taken + [items[0]]) == CountData(taken) + if items[0].Data? then 1 else 0
  {
    assert (taken + [items[0]])[..|taken|] == taken;
  }

  lemma TakeItemCount(st: Stream, kind: Kind, sh: Shared)
    requires st.stage.Popping? && FrameCount(st, kind)
    ensures FrameCount(TakeItem(st, kind, sh), kind)
  {
    hide ShouldSkip;
  }

  /** The presenter's record depends only on what it and the pushes touch. */
  lemma OrderStays(st: Stream, st': Stream, kind: Kind)
    requires PresenterUntouched(st, st') && FramesUntouched(st, st') && FrameOrder(st, kind)
    ensures FrameOrder(st', kind)
  {
  }

  lemma TakeFrameCount(st: Stream, kind: Kind, sh: Shared, frame: Frame, keep: bool)
    requires st.stage.Draining? && st.decoder.buffer != [] && DecodeShape(st, kind) && FrameCount(st, kind)
    ensures FrameCount(TakeFrame(st, kind, sh, frame, keep), kind)
  {
  }

  lemma TakeFrameItems(st: Stream, kind: Kind, sh: Shared, frame: Frame, keep: bool, pending: seq<Item>)
    requires st.stage.Draining? && st.decoder.buffer != [] && ItemFlow(st, pending)
    ensures ItemFlow(TakeFrame(st, kind, sh, frame, keep), pending)
  {
  }

  lemma AfterDrainCount(st: Stream, kind: Kind)
    requires st.stage.Draining? && FrameCount(st, kind)
    ensures FrameCount(AfterDrain(st), kind)
  {
  }

  lemma AfterDrainItems(st: Stream, pending: seq<Item>)
    requires st.stage.Draining? && ItemFlow(st, pending)
    ensures ItemFlow(AfterDrain(st), pending)
  {
  }

  lemma PushFlow(st: Stream, kind: Kind, sh: Shared, pending: seq<Item>)
    requires DecodeEnabled(st, sh, PushFrame) && !sh.stop && DecodeShape(st, kind)
    ensures FrameCount(st, kind) ==> FrameCount(DecodeNext(st, kind, sh, PushFrame), kind)
    ensures FrameOrder(st, kind) ==> FrameOrder(DecodeNext(st, kind, sh, PushFrame), kind)
    ensures ItemFlow(st, pending) ==> ItemFlow(DecodeNext(st, kind, sh, PushFrame), pending)
  {
    assert FramesOf(st.log.outcomes) + Hand(st.show) + (st.frames.items + [st.stage.out[0]])
        == FramesOf(st.log.outcomes) + Hand(st.show) + st.frames.items + [st.stage.out[0]];
  }

  lemma OtherFlow(st: Stream, kind: Kind, sh: Shared, act: DecodeAct, pending: seq<Item>)
    requires DecodeEnabled(st, sh, act) && !sh.stop && DecodeShape(st, kind)
    requires act.SendPacket? || act.EndEmit? || act.EndInput? || act.FlushProcessor? || act.CloseQueue?
    requires FrameCount(st, kind) && FrameOrder(st, kind) && ItemFlow(st, pending)
    ensures var st' := DecodeNext(st, kind, sh, act);
            FrameCount(st', kind) && FrameOrder(st', kind) && ItemFlow(st', pending)
  {
    hide CountData, CountSent, FramesOf;
    var st' := DecodeNext(st, kind, sh, act);
    assert st'.log.(fed := st.log.fed, made := st.log.made) == st.log && st'.frames.items == st.frames.items;
  }

  lemma DecodeFlow(st: Stream, kind: Kind, sh: Shared, act: DecodeAct, pending: seq<Item>)
    requires DecodeEnabled(st, sh, act) && !sh.stop && !act.DecodeThrows? && DecodeShape(st, kind)
    requires ItemFlow(st, pending) && FrameCount(st, kind) && FrameOrder(st, kind)
    ensures var st' := DecodeNext(st, kind, sh, act);
            ItemFlow(st', pending) && FrameCount(st', kind) && FrameOrder(st', kind)
  {
    match act
    case PopItem =>
      TakeItemFlow(st, kind, sh, pending);
      TakeItemCount(st, kind, sh);
      OrderStays(st, TakeItem(st, kind, sh), kind);
    case PushFrame => PushFlow(st, kind, sh, pending);
    case ReceiveFrame(frame, keep) =>
      TakeFrameCount(st, kind, sh, frame, keep);
      TakeFrameItems(st, kind, sh, frame, keep, pending);
      OrderStays(st, TakeFrame(st, kind, sh, frame, keep), kind);
    case ReceiveNothing(_) =>
      AfterDrainCount(st, kind);
      AfterDrainItems(st, pending);
      OrderStays(st, AfterDrain(st), kind);
    case _ => OtherFlow(st, kind, sh, act, pending);
  }

  // ---------------------------------------------------------------- present

  lemma OneMore(outcomes: seq<Outcome>, o: Outcome)
    ensures FramesOf(outcomes + [o]) == FramesOf(outcomes) + [o.frame]
    ensures CountSent(outcomes + [o]) == CountSent(outcomes) + if o.Sent? then 1 else 0
  {
    assert (outcomes + [o])[..|outcomes|] == outcomes;
  }

  lemma TakeNextFlow(st: Stream, kind: Kind, sh: Shared, sh': Shared)
    requires PresentEnabled(st, kind, sh, TakeNext)
    requires FrameCount(st, kind) && FrameOrder(st, kind)
    ensures var st' := PresentStream(st, kind, sh, TakeNext, sh'); FrameCount(st', kind) && FrameOrder(st', kind)
  {
    hide CountSent, FramesOf;
    if st.frames.items != [] {
      assert st.frames.items == [st.frames.items[0]] + st.frames.items[1..];
    }
  }

  /** The presenter disposes of the frame in its hands: sent or dropped. */
  lemma DisposeFlow(st: Stream, kind: Kind, st': Stream, o: Outcome)
    requires FrameCount(st, kind) && FrameOrder(st, kind) && DecodeUntouched(st, st')
    requires Hand(st.show) == [o.frame] && st'.show.Taking? && st'.frames == st.frames && (kind == Audio ==> o.Sent?)
    requires st'.log.outcomes == st.log.outcomes + [o]
    requires st'.log.sent == st.log.sent + (if o.Sent? then 1 else 0)
    requires st'.log.dropped == st.log.dropped + (if o.Sent? then 0 else 1)
    ensures FrameCount(st', kind) && FrameOrder(st', kind)
  {
    OneMore(st.log.outcomes, o);
  }

  lemma SendFlow(st: Stream, kind: Kind, sh: Shared, sh': Shared)
    requires PresentEnabled(st, kind, sh, SendFrame) && FrameCount(st, kind) && FrameOrder(st, kind)
    ensures var st' := PresentStream(st, kind, sh, SendFrame, sh'); FrameCount(st', kind) && FrameOrder(st', kind)
  {
    var st' := PresentStream(st, kind, sh, SendFrame, sh');
    DisposeFlow(st, kind, st', st'.log.outcomes[|st.log.outcomes|]);
  }

  lemma DecideFlow(st: Stream, kind: Kind, sh: Shared, sh': Shared)
    requires PresentEnabled(st, kind, sh, Decide) && FrameCount(st, kind) && FrameOrder(st, kind)
    ensures var st' := PresentStream(st, kind, sh, Decide, sh'); FrameCount(st', kind) && FrameOrder(st', kind)
  {
    var st' := PresentStream(st, kind, sh, Decide, sh');
    if st'.show.Taking? { DisposeFlow(st, kind, st', st'.log.outcomes[|st.log.outcomes|]); }
  }

  lemma PresentFlow(st: Stream, kind: Kind, sh: Shared, act: PresentAct, sh': Shared)
    requires PresentEnabled(st, kind, sh, act) && !sh.stop && !act.PresentThrows?
    requires FrameCount(st, kind) && FrameOrder(st, kind)
    ensures var st' := PresentStream(st, kind, sh, act, sh'); FrameCount(st', kind) && FrameOrder(st', kind)
  {
    match act
    case TakeNext => TakeNextFlow(st, kind, sh, sh');
    case Decide => DecideFlow(st, kind, sh, sh');
    case SendFrame => SendFlow(st, kind, sh, sh');
    case _ => HandStays(st, kind, sh, act, sh');
  }

  /** Steps on which the frame stays in the presenter's hands. */
  lemma HandStays(st: Stream, kind: Kind, sh: Shared, act: PresentAct, sh': Shared)
    requires PresentEnabled(st, kind, sh, act) && !sh.stop && !act.PresentThrows?
    requires !act.TakeNext? && !act.Decide? && !act.SendFrame?
    requires FrameCount(st, kind) && FrameOrder(st, kind)
    ensures var st' := PresentStream(st, kind, sh, act, sh'); FrameCount(st', kind) && FrameOrder(st', kind)
  {
    hide CountSent, FramesOf;
  }

  // ---------------------------------------------------------------- demux, and whole runs

  lemma OfferFlow(st: Stream, item: Item, pending: seq<Item>)
    requires st.packets.Valid() && !st.packets.closed && PushEnabled(st.packets, false)
    requires ItemFlow(st, [item] + pending)
    ensures Offer(st, item, false).1 && ItemFlow(Offer(st, item, false).0, pending)
  {
    assert st.log.taken + st.packets.items + ([item] + pending) == st.log.taken + (st.packets.items + [item]) + pending;
  }

  lemma AnnounceFlow(st: Stream, item: Item)
    requires ItemFlow(st, [])
    ensures ItemFlow(st.(log := st.log.(wanted := st.log.wanted + [item])), [item])
  {
  }

  lemma DemuxFlow(s: State, act: DemuxAct, k: Kind)
    requires Shape(s) && DemuxEnabled(s, act) && !act.DemuxThrows? && !s.shared.stop
    requires Get(s, k).present && ItemFlow(Get(s, k), Undelivered(s.demux, k))
    ensures ItemFlow(Get(DemuxNext(s, act), k), Undelivered(DemuxNext(s, act).demux, k))
  {
    var st := Get(s, k);
    match act
    case ReadPacket(kind, key) => if kind == k { AnnounceFlow(st, Data(Packet(key, s.pass))); }
    case Restart(_) => AnnounceFlow(st, Marker);
    case Deliver => if s.demux.kind == k { OfferFlow(st, s.demux.item, []); }
    case Mark => if s.demux.kind == k { OfferFlow(st, Marker, []); }
    case _ =>
  }

  /** The demuxer touches a stream's packets only. */
  lemma DemuxFrames(s: State, act: DemuxAct, k: Kind)
    requires DemuxEnabled(s, act)
    ensures var st, st' := Get(s, k), Get(DemuxNext(s, act), k);
            && st' == st.(packets := st'.packets, log := st.log.(wanted := st'.log.wanted))
            && DemuxNext(s, act).shared.stop == (s.shared.stop || act.DemuxThrows?)
  {
    match act
    case ReadPacket(kind, key) => AnnounceFrames(s.(demux := DemuxNext(s, act).demux, left := s.left - 1), kind,
                                                 Data(Packet(key, s.pass)), k);
    case _ =>
  }

  lemma AnnounceFrames(s: State, kind: Kind, item: Item, k: Kind)
    ensures var st, st' := Get(s, k), Get(Announce(s, kind, item), k);
            st' == st.(log := st.log.(wanted := st'.log.wanted))
  {
  }

  lemma DemuxStepFlow(s: State, act: DemuxAct, k: Kind)
    requires Shape(s) && Flow(s, k) && Enabled(s, DemuxStep(act))
    ensures Flow(DemuxNext(s, act), k)
  {
    DemuxFrames(s, act, k);
    if !s.shared.stop && !act.DemuxThrows? && Get(s, k).present { DemuxFlow(s, act, k); }
  }

  lemma DecodeStepFlow(s: State, kind: Kind, act: DecodeAct, k: Kind)
    requires Shape(s) && Flow(s, k) && Enabled(s, DecodeStep(kind, act))
    ensures Flow(Next(s, DecodeStep(kind, act)), k)
  {
    if kind == k && !s.shared.stop && !act.DecodeThrows? && Get(s, k).present {
      DecodeFlow(Get(s, k), k, s.shared, act, Undelivered(s.demux, k));
    }
  }

  lemma PresentStepFlow(s: State, kind: Kind, act: PresentAct, k: Kind)
    requires Flow(s, k) && Enabled(s, PresentStep(kind, act))
    ensures Flow(Next(s, PresentStep(kind, act)), k)
  {
    var st, sh := Get(s, kind), PresentShared(Get(s, kind), kind, s.shared, act);
    if kind == k && !s.shared.stop && !act.PresentThrows? && st.present {
      PresentFlow(st, k, s.shared, act, sh);
      assert DecodeUntouched(st, PresentStream(st, k, s.shared, act, sh));
    }
  }

  lemma StepFlow(s: State, step: Step, k: Kind)
    requires Shape(s) && Flow(s, k) && Enabled(s, step)
    ensures Flow(Next(s, step), k)
  {
    match step
    case DemuxStep(act) => DemuxStepFlow(s, act, k);
    case DecodeStep(kind, act) => DecodeStepFlow(s, kind, act, k);
    case PresentStep(kind, act) => PresentStepFlow(s, kind, act, k);
    case _ =>
  }

  lemma {:induction false} RunFlow(states: seq<State>, steps: seq<Step>, n: nat, k: Kind)
    requires IsRun(states, steps) && n < |states|
    ensures Flow(states[n], k)
  {
    if n > 0 {
      RunFlow(states, steps, n - 1, k);
      RunShape(states, steps, n - 1);
      StepFlow(states[n - 1], steps[n - 1], k);
    }
  }

  // ---------------------------------------------------------------- the end of the input

  /** The decode thread is done with the decoder. */
  predicate PastDrain(stage: DecodeStage) {
    stage.Flushing? || stage.Closing? || stage.DecodeEnded? || (InDrain(stage) && stage.after.CloseFrames?)
  }

  /** In this state, by this step, the drain at the end of the input ends for a decoding error, with frames left. */
  ghost predicate LosesTail(s: State, step: Step, k: Kind) {
    var st := Get(s, k);
    && step == DecodeStep(k, ReceiveNothing(true))
    && st.stage.Draining? && st.stage.after.FinishInput? && st.decoder.buffer != []
  }

  ghost predicate TailDrained(states: seq<State>, steps: seq<Step>, n: nat, k: Kind)
    requires n < |states| && n <= |steps|
  {
    var st := Get(states[n], k);
    (exists i :: 0 <= i < n && LosesTail(states[i], steps[i], k)) <==> PastDrain(st.stage) && st.decoder.buffer != []
  }

  /** What a step of the decode thread may do about it. */
  ghost predicate TailStep(st: Stream, act: DecodeAct, st': Stream) {
    var ends := act.ReceiveNothing? && st.stage.Draining? && st.stage.after.FinishInput?;
    && (PastDrain(st.stage) ==> PastDrain(st'.stage) && st'.decoder.buffer == st.decoder.buffer)
    && (PastDrain(st'.stage) ==> PastDrain(st.stage) || ends)
    && (ends ==> PastDrain(st'.stage) && st'.decoder.buffer == st.decoder.buffer && (st.decoder.buffer != [] ==> act.failed))
  }

  lemma DecodeTail(st: Stream, kind: Kind, sh: Shared, act: DecodeAct)
    requires DecodeEnabled(st, sh, act) && !sh.stop && !act.DecodeThrows? && DrainShape(st) && DecodeShape(st, kind)
    ensures TailStep(st, act, DecodeNext(st, kind, sh, act))
  {
    match act
    case PopItem => TakeItemTail(st, kind, sh);
    case ReceiveFrame(frame, keep) => TakeFrameTail(st, kind, sh, frame, keep);
    case ReceiveNothing(_) => AfterDrainTail(st);
    case _ => OtherTail(st, kind, sh, act);
  }

  lemma TakeItemTail(st: Stream, kind: Kind, sh: Shared)
    requires st.stage.Popping?
    ensures !PastDrain(TakeItem(st, kind, sh).stage)
  {
    hide ShouldSkip, Shed;
  }

  lemma TakeFrameTail(st: Stream, kind: Kind, sh: Shared, frame: Frame, keep: bool)
    requires st.stage.Draining? && st.decoder.buffer != [] && DecodeShape(st, kind)
    ensures !PastDrain(st.stage) && !PastDrain(TakeFrame(st, kind, sh, frame, keep).stage)
  {
    hide OnFrame, Lateness;
  }

  lemma AfterDrainTail(st: Stream)
    requires st.stage.Draining? && !st.stage.after.CloseFrames?
    ensures PastDrain(AfterDrain(st).stage) <==> st.stage.after.FinishInput?
    ensures st.stage.after.FinishInput? ==> AfterDrain(st).decoder == st.decoder
  {
  }

  lemma OtherTail(st: Stream, kind: Kind, sh: Shared, act: DecodeAct)
    requires DecodeEnabled(st, sh, act) && !sh.stop && !act.DecodeThrows?
    requires !act.PopItem? && !act.ReceiveFrame? && !act.ReceiveNothing?
    ensures TailStep(st, act, DecodeNext(st, kind, sh, act))
  {
  }

  lemma StepTail(s: State, step: Step, k: Kind)
    requires Shape(s) && Enabled(s, step) && Get(s, k).present && !Next(s, step).shared.stop && !s.shared.stop
    ensures var st, st' := Get(s, k), Get(Next(s, step), k);
            && (PastDrain(st'.stage) && st'.decoder.buffer != [] <==>
                  LosesTail(s, step, k) || (PastDrain(st.stage) && st.decoder.buffer != []))
  {
    match step
    case DemuxStep(act) => DemuxFrames(s, act, k);
    case DecodeStep(kind, act) => if kind == k { DecodeTail(Get(s, k), k, s.shared, act); }
    case _ =>
  }

  lemma StepKeepsStop(s: State, step: Step, k: Kind)
    requires Enabled(s, step)
    ensures s.shared.stop ==> Next(s, step).shared.stop
    ensures Get(Next(s, step), k).present == Get(s, k).present
  {
    if step.DemuxStep? { DemuxFrames(s, step.demux, k); }
  }

  /**
   In every unstopped run: once the decode thread is done with the decoder at the end of the input, frames are left
   in it if and only if the drain ended for a decoding error.
   */
  lemma {:induction false} TailIsDrained(states: seq<State>, steps: seq<Step>, n: nat, k: Kind)
    requires IsRun(states, steps) && n <= |steps| && Get(states[n], k).present && !states[n].shared.stop
    ensures TailDrained(states, steps, n, k)
  {
    hide Next, Enabled;
    if n > 0 {
      StepKeepsStop(states[n - 1], steps[n - 1], k);
      TailIsDrained(states, steps, n - 1, k);
      RunShape(states, steps, n - 1);
      StepTail(states[n - 1], steps[n - 1], k);
    }
  }

  /**
   Conservation at the end of any run that was not stopped and in which no thread failed: the queues are
   closed and empty; every packet the demuxer wanted to deliver was taken, in order, and was fed to the
   decoder, skipped, or refused by it; every frame the decoder made was handed out, unless a decoding error ended
   the drain before a reset or at the end; every frame handed out was sent or counted as dropped (audio: sent, or
   trimmed away whole); and the presenter dealt with exactly the frames the processor pushed, in order.
   */
  lemma EverythingIsAccountedFor(states: seq<State>, steps: seq<Step>, k: Kind)
    requires IsRun(states, steps) && Final(states[|steps|]) && !states[|steps|].shared.stop
    requires Get(states[|steps|], k).present
    ensures var st := Get(states[|steps|], k);
            && st.packets.closed && st.packets.items == [] && st.frames.closed && st.frames.items == []
            && st.log.taken == st.log.wanted
            && CountData(st.log.wanted) == st.log.popped == st.log.fed + st.log.skipped + st.log.refused
            && st.log.made == st.log.received + st.log.lost + |st.decoder.buffer|
            && (st.decoder.buffer != [] <==> exists i :: 0 <= i < |steps| && LosesTail(states[i], steps[i], k))
            && st.log.received == st.log.sent + st.log.dropped + st.log.trimmed
            && (k == Video ==> st.log.trimmed == 0)
            && (k == Audio ==> st.log.dropped == 0 && st.log.skipped == 0)
            && st.log.pushed == FramesOf(st.log.outcomes)
            && st.log.sent == CountSent(st.log.outcomes)
  {
    RunShape(states, steps, |steps|);
    RunFlow(states, steps, |steps|, k);
    TailIsDrained(states, steps, |steps|, k);
  }

  // ---------------------------------------------------------------- pushes after a stop

  /** As long as a queue is open and has room, what is pushed arrives there, whether or not a stop was requested. */
  lemma PushesArrive(s: State)
    requires Shape(s)
    ensures s.demux.Delivering? && Accepts(Get(s, s.demux.kind).packets) ==>
              && DemuxEnabled(s, Deliver)
              && var t := DemuxNext(s, Deliver);
                 && Get(t, s.demux.kind).packets.items == Get(s, s.demux.kind).packets.items + [s.demux.item]
                 && t.demux.LoopHead?
    ensures s.demux.Marking? && Get(s, s.demux.kind).present && Accepts(Get(s, s.demux.kind).packets) ==>
              && DemuxEnabled(s, Mark)
              && var t := DemuxNext(s, Mark);
                 && Get(t, s.demux.kind).packets.items == Get(s, s.demux.kind).packets.items + [Marker]
                 && t.demux == if s.demux.kind == Video then Marking(Audio) else LoopHead
  {
  }

  predicate Accepts<T>(q: Queue<T>) {
    !q.closed && |q.items| < q.capacity
  }

  lemma FramePushesArrive(st: Stream, kind: Kind, sh: Shared)
    requires st.stage.Emitting? && st.stage.out != [] && Accepts(st.frames)
    ensures DecodeEnabled(st, sh, PushFrame)
    ensures var st' := DecodeNext(st, kind, sh, PushFrame);
            && st'.frames.items == st.frames.items + [st.stage.out[0]] && st'.stage.out == st.stage.out[1..]
            && st'.log.pushed == st.log.pushed + [st.stage.out[0]]
  {
  }

  /** Audio is delivered exactly once, in order, and complete: the presenter sent just what was pushed. */
  lemma AudioDeliveredExactlyOnce(states: seq<State>, steps: seq<Step>)
    requires IsRun(states, steps) && Final(states[|steps|]) && !states[|steps|].shared.stop
    requires states[|steps|].audio.present
    ensures var log := states[|steps|].audio.log;
            && (forall o <- log.outcomes :: o.Sent?)
            && |log.outcomes| == |log.pushed|
            && forall i :: 0 <= i < |log.pushed| ==> log.outcomes[i].frame == log.pushed[i]
  {
    EverythingIsAccountedFor(states, steps, Audio);
    RunFlow(states, steps, |steps|, Audio);
  }
}
