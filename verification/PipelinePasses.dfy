/** Loop markers keep the passes of a looping input apart, all the way to the output. */
module PipelinePasses {
  import opened Decoding
  import opened Pipeline
  import opened PipelineSafety
  import opened PipelineFlow

  /** Whether the packets of `items` carry the right pass, when the first of them belongs to pass `p`. */
  predicate Tagged(items: seq<Item>, p: nat) {
    items == [] ||
    match items[0]
    case Marker => Tagged(items[1..], p + 1)
    case Data(packet) => packet.pass == p && Tagged(items[1..], p)
  }

  /** The pass in which whatever follows `items` lies. */
  function PassAfter(items: seq<Item>, p: nat): nat {
    if items == [] then p else PassAfter(items[1..], if items[0].Marker? then p + 1 else p)
  }

  lemma {:induction false} Append(items: seq<Item>, item: Item, p: nat)
    ensures Tagged(items + [item], p) <==>
            Tagged(items, p) && (item.Data? ==> item.packet.pass == PassAfter(items, p))
    ensures PassAfter(items + [item], p) == PassAfter(items, p) + if item.Marker? then 1 else 0
  {
    if items != [] {
      assert (items + [item])[1..] == items[1..] + [item];
      Append(items[1..], item, if items[0].Marker? then p + 1 else p);
    } else {
      assert (items + [item])[1..] == [];
    }
  }

  /** The pass of the next packet the decode thread will take: a marker being handled counts. */
  function NextPass(st: Stream): nat {
    st.log.resets + if InDrain(st.stage) && st.stage.after.ResetDecoder? then 1 else 0
  }

  ghost predicate ItemPasses(st: Stream, pending: seq<Item>, pass: nat) {
    && Tagged(st.packets.items + pending, NextPass(st))
    && PassAfter(st.packets.items + pending, NextPass(st)) == pass
  }

  /** The frames a stream's processor has let go of or still holds, oldest first. */
  function Line(st: Stream): seq<Frame> {
    st.log.pushed + OutOf(st.stage) + st.held
  }

  ghost predicate InPassOrder(frames: seq<Frame>) {
    forall i, j :: 0 <= i < j < |frames| ==> frames[i].pass <= frames[j].pass
  }

  /** In pass order, up to the current pass. */
  ghost predicate GoodLine(frames: seq<Frame>, pass: nat) {
    InPassOrder(frames) && forall f <- frames :: f.pass <= pass
  }

  lemma GoodPrefix(frames: seq<Frame>, rest: seq<Frame>, pass: nat)
    requires GoodLine(frames + rest, pass)
    ensures GoodLine(frames, pass)
  {
    assert forall i :: 0 <= i < |frames| ==> (frames + rest)[i] == frames[i];
  }

  lemma GoodAppend(frames: seq<Frame>, frame: Frame, pass: nat)
    requires GoodLine(frames, pass) && frame.pass == pass
    ensures GoodLine(frames + [frame], pass)
  {
    assert forall i :: 0 <= i < |frames| ==> frames[i] in frames;
  }

  /** The decoder and the packet offered to it belong to the current pass; frames let go to it or earlier. */
  ghost predicate DecoderPasses(st: Stream) {
    && (forall f <- st.decoder.buffer :: f.pass == st.log.resets)
    && (st.stage.Sending? ==> st.stage.packet.pass == st.log.resets)
    && (InDrain(st.stage) && st.stage.after.Retry? ==> st.stage.after.packet.pass == st.log.resets)
    && GoodLine(Line(st), st.log.resets)
  }

  ghost predicate Passes(s: State, k: Kind) {
    !s.shared.stop && Get(s, k).present ==>
      ItemPasses(Get(s, k), Undelivered(s.demux, k), s.pass) && DecoderPasses(Get(s, k))
  }

  lemma TakeItemPasses(st: Stream, kind: Kind, sh: Shared, pending: seq<Item>, pass: nat)
    requires st.stage.Popping? && ItemPasses(st, pending, pass) && DecoderPasses(st)
    ensures ItemPasses(TakeItem(st, kind, sh), pending, pass)
    ensures var st' := TakeItem(st, kind, sh); st'.stage.Sending? ==> st'.stage.packet.pass == st.log.resets
  {
    hide ShouldSkip, Shed, Tagged, PassAfter;
    if st.packets.items != [] { TakeHead(st.packets.items, pending, NextPass(st)); }
  }

  /** The first item of the queue is of the pass expected; a marker begins the next. */
  lemma TakeHead(items: seq<Item>, pending: seq<Item>, p: nat)
    requires items != [] && Tagged(items + pending, p)
    ensures items[0].Data? ==> items[0].packet.pass == p
    ensures var next := if items[0].Marker? then p + 1 else p;
            Tagged(items[1..] + pending, next) && PassAfter(items[1..] + pending, next) == PassAfter(items + pending, p)
  {
    assert (items + pending)[1..] == items[1..] + pending;
  }

  lemma TakeItemLine(st: Stream, kind: Kind, sh: Shared)
    requires st.stage.Popping?
    ensures var st' := TakeItem(st, kind, sh);
            Line(st') == Line(st) && st'.decoder.buffer == st.decoder.buffer && st'.log.resets == st.log.resets
            && (InDrain(st'.stage) ==> !st'.stage.after.Retry?)
  {
  }

  lemma TakeFrameLine(st: Stream, kind: Kind, sh: Shared, frame: Frame, keep: bool)
    requires st.stage.Draining? && st.decoder.buffer != [] && DecodeShape(st, kind)
    ensures var st' := TakeFrame(st, kind, sh, frame, keep);
            && (Line(st') == Line(st) || Line(st') == Line(st) + [frame] || Line(st') == st.log.pushed + [frame])
            && st'.log.resets == st.log.resets && st'.decoder.buffer == st.decoder.buffer[1..]
            && st'.stage.Emitting? && st'.stage.after == st.stage.after && st'.packets == st.packets
  {
    var st' := TakeFrame(st, kind, sh, frame, keep);
    assert Line(st) == st.log.pushed + st.held;
    if kind == Audio {
      assert keep ==> Line(st') == Line(st) + [frame];
      assert !keep ==> Line(st') == st.log.pushed + [frame];
    }
  }

  lemma TakeFramePasses(st: Stream, kind: Kind, sh: Shared, frame: Frame, keep: bool, pending: seq<Item>, pass: nat)
    requires st.stage.Draining? && st.decoder.buffer != [] && DecodeShape(st, kind)
    requires frame.pass == st.decoder.buffer[0].pass && DecoderPasses(st) && ItemPasses(st, pending, pass)
    ensures var st' := TakeFrame(st, kind, sh, frame, keep); DecoderPasses(st') && ItemPasses(st', pending, pass)
  {
    TakeFrameLine(st, kind, sh, frame, keep);
    assert Line(st) == st.log.pushed + st.held;
    GoodPrefix(st.log.pushed, st.held, st.log.resets);
    GoodAppend(st.log.pushed, frame, st.log.resets);
    GoodAppend(Line(st), frame, st.log.resets);
  }

  lemma AfterDrainPasses(st: Stream, pending: seq<Item>, pass: nat)
    requires st.stage.Draining? && DecoderPasses(st) && ItemPasses(st, pending, pass)
    ensures DecoderPasses(AfterDrain(st)) && ItemPasses(AfterDrain(st), pending, pass)
  {
    hide GoodLine, Line, Tagged, PassAfter;
    var st' := AfterDrain(st);
    AfterDrainKeeps(st);
    GoodLater(Line(st), st.log.resets);
  }

  lemma AfterDrainKeeps(st: Stream)
    requires st.stage.Draining?
    ensures var st' := AfterDrain(st);
            Line(st') == Line(st) && NextPass(st') == NextPass(st) && st'.packets == st.packets
  {
  }

  lemma GoodLater(frames: seq<Frame>, pass: nat)
    requires GoodLine(frames, pass)
    ensures GoodLine(frames, pass + 1)
  {
  }

  lemma OtherPasses(st: Stream, kind: Kind, sh: Shared, act: DecodeAct, pending: seq<Item>, pass: nat)
    requires DecodeEnabled(st, sh, act) && !sh.stop && DecodeShape(st, kind)
    requires act.EndEmit? || act.EndInput? || act.FlushProcessor? || act.CloseQueue? || act.PushFrame? || act.SendPacket?
    requires DecoderPasses(st) && ItemPasses(st, pending, pass)
    ensures var st' := DecodeNext(st, kind, sh, act); DecoderPasses(st') && ItemPasses(st', pending, pass)
  {
    hide GoodLine, Tagged, PassAfter;
    var st' := DecodeNext(st, kind, sh, act);
    assert Line(st') == Line(st);
    assert st'.log.resets == st.log.resets && st'.packets == st.packets;
  }

  lemma DecodePasses(st: Stream, kind: Kind, sh: Shared, act: DecodeAct, pending: seq<Item>, pass: nat)
    requires DecodeEnabled(st, sh, act) && !sh.stop && !act.DecodeThrows? && DecodeShape(st, kind)
    requires DecoderPasses(st) && ItemPasses(st, pending, pass)
    ensures var st' := DecodeNext(st, kind, sh, act); DecoderPasses(st') && ItemPasses(st', pending, pass)
  {
    match act
    case PopItem =>
      TakeItemPasses(st, kind, sh, pending, pass);
      TakeItemLine(st, kind, sh);
    case ReceiveFrame(frame, keep) => TakeFramePasses(st, kind, sh, frame, keep, pending, pass);
    case ReceiveNothing(_) => AfterDrainPasses(st, pending, pass);
    case _ => OtherPasses(st, kind, sh, act, pending, pass);
  }

  /** Passes depend only on what the decode thread and the demuxer touch. */
  lemma PresentPasses(st: Stream, st': Stream, pending: seq<Item>, pass: nat)
    requires DecodeUntouched(st, st') && DecoderPasses(st) && ItemPasses(st, pending, pass)
    ensures DecoderPasses(st') && ItemPasses(st', pending, pass)
  {
    assert Line(st') == Line(st);
  }

  /** The items between the demuxer and the decode stage of stream `k`, oldest first. */
  function InTransit(s: State, k: Kind): seq<Item> {
    Get(s, k).packets.items + Undelivered(s.demux, k)
  }

  /** What the demuxer adds for stream `k`. */
  function Announced(s: State, act: DemuxAct, k: Kind): seq<Item> {
    match act
    case ReadPacket(kind, key) => if kind == k then [Data(Packet(key, s.pass))] else []
    case Restart(_) => [Marker]
    case _ => []
  }

  lemma DemuxItems(s: State, act: DemuxAct, k: Kind)
    requires Shape(s) && DemuxEnabled(s, act) && !act.DemuxThrows? && !s.shared.stop && Get(s, k).present
    ensures var s' := DemuxNext(s, act);
            InTransit(s', k) == InTransit(s, k) + Announced(s, act, k) && s'.pass == s.pass + if act.Restart? then 1 else 0
  {
    assert InTransit(DemuxNext(s, act), k) == InTransit(s, k) + Announced(s, act, k);
  }

  lemma DemuxPasses(s: State, act: DemuxAct, k: Kind)
    requires Shape(s) && DemuxEnabled(s, act) && !act.DemuxThrows? && !s.shared.stop && Get(s, k).present
    requires DecoderPasses(Get(s, k)) && ItemPasses(Get(s, k), Undelivered(s.demux, k), s.pass)
    ensures var s' := DemuxNext(s, act);
            DecoderPasses(Get(s', k)) && ItemPasses(Get(s', k), Undelivered(s'.demux, k), s'.pass)
  {
    var st, st' := Get(s, k), Get(DemuxNext(s, act), k);
    DemuxFrames(s, act, k);
    DemuxItems(s, act, k);
    assert Line(st') == Line(st);
    assert NextPass(st') == NextPass(st);
    var added := Announced(s, act, k);
    if added == [] {
      assert InTransit(s, k) + added == InTransit(s, k);
    } else {
      Append(InTransit(s, k), added[0], NextPass(st));
      assert InTransit(s, k) + added == InTransit(s, k) + [added[0]];
    }
  }

  lemma PresentStepPasses(s: State, kind: Kind, act: PresentAct, k: Kind)
    requires Passes(s, k) && Enabled(s, PresentStep(kind, act))
    ensures Passes(Next(s, PresentStep(kind, act)), k)
  {
    var st := Get(s, kind);
    if kind == k && !s.shared.stop && st.present {
      PresentPasses(st, PresentStream(st, k, s.shared, act, PresentShared(st, k, s.shared, act)),
                    Undelivered(s.demux, k), s.pass);
    }
  }

  lemma DecodeStepPasses(s: State, kind: Kind, act: DecodeAct, k: Kind)
    requires Shape(s) && Passes(s, k) && Enabled(s, DecodeStep(kind, act))
    ensures Passes(Next(s, DecodeStep(kind, act)), k)
  {
    if kind == k && !s.shared.stop && !act.DecodeThrows? && Get(s, k).present {
      DecodePasses(Get(s, k), k, s.shared, act, Undelivered(s.demux, k), s.pass);
    }
  }

  lemma StepPasses(s: State, step: Step, k: Kind)
    requires Shape(s) && Passes(s, k) && Enabled(s, step)
    ensures Passes(Next(s, step), k)
  {
    match step
    case DemuxStep(act) =>
      DemuxFrames(s, act, k);
      if !s.shared.stop && !act.DemuxThrows? && Get(s, k).present { DemuxPasses(s, act, k); }
    case DecodeStep(kind, act) => DecodeStepPasses(s, kind, act, k);
    case PresentStep(kind, act) => PresentStepPasses(s, kind, act, k);
    case _ =>
  }

  lemma {:induction false} RunPasses(states: seq<State>, steps: seq<Step>, n: nat, k: Kind)
    requires IsRun(states, steps) && n < |states|
    ensures Passes(states[n], k)
  {
    if n > 0 {
      RunPasses(states, steps, n - 1, k);
      RunShape(states, steps, n - 1);
      StepPasses(states[n - 1], steps[n - 1], k);
    }
  }

  /**
   In any undisturbed run of a looping input, all output of one pass precedes all output of the next: what
   the presenter has dealt with so far is in pass order, and so is everything still to come.
   */
  lemma PassesNeverMix(states: seq<State>, steps: seq<Step>, k: Kind)
    requires IsRun(states, steps) && !states[|steps|].shared.stop && Get(states[|steps|], k).present
    ensures var st := Get(states[|steps|], k);
            && FramesOf(st.log.outcomes) <= st.log.pushed
            && InPassOrder(Line(st))
            && (forall f <- Line(st) :: f.pass <= st.log.resets)
            && (forall f <- st.decoder.buffer :: f.pass == st.log.resets)
            && Tagged(st.packets.items, NextPass(st))
  {
    var s := states[|steps|];
    RunPasses(states, steps, |steps|, k);
    RunFlow(states, steps, |steps|, k);
    TaggedPrefix(Get(s, k).packets.items, Undelivered(s.demux, k), NextPass(Get(s, k)));
  }

  lemma {:induction false} TaggedPrefix(items: seq<Item>, rest: seq<Item>, p: nat)
    requires Tagged(items + rest, p)
    ensures Tagged(items, p)
  {
    if items != [] {
      assert (items + rest)[1..] == items[1..] + rest;
      TaggedPrefix(items[1..], rest, if items[0].Marker? then p + 1 else p);
    }
  }

  /** Whenever a loop marker leads to Decoder::Reset, the decoder has handed out every frame, unless decoding failed. */
  lemma ResetLosesNothing(states: seq<State>, steps: seq<Step>, k: Kind)
    requires IsRun(states, steps)
    requires var st := Get(states[|steps|], k);
             && st.stage.Draining? && st.stage.after.ResetDecoder?
             && DecodeEnabled(st, states[|steps|].shared, ReceiveNothing(false))
    ensures Get(states[|steps|], k).decoder.buffer == []
  {
    RunShape(states, steps, |steps|);
  }

  /** In this state, by this step, a drain before a reset ends for a decoding error, with frames left. */
  ghost predicate LosesFrames(s: State, step: Step, k: Kind) {
    var st := Get(s, k);
    && step == DecodeStep(k, ReceiveNothing(true))
    && st.stage.Draining? && st.stage.after.ResetDecoder? && st.decoder.buffer != []
  }

  lemma StepLoses(s: State, step: Step, k: Kind)
    requires Shape(s) && Enabled(s, step) && Get(s, k).present
    ensures var lost, lost' := Get(s, k).log.lost, Get(Next(s, step), k).log.lost;
            lost' >= lost && (lost' > lost <==> LosesFrames(s, step, k))
  {
    match step
    case DemuxStep(act) => DemuxFrames(s, act, k);
    case DecodeStep(kind, act) => if kind == k { DecodeLoses(Get(s, k), k, s.shared, act); }
    case _ =>
  }

  lemma DecodeLoses(st: Stream, kind: Kind, sh: Shared, act: DecodeAct)
    requires DecodeEnabled(st, sh, act) && DrainShape(st)
    ensures var lost := DecodeNext(st, kind, sh, act).log.lost;
            lost == st.log.lost + if st.stage.Draining? && st.stage.after.ResetDecoder? && act.ReceiveNothing?
                                  then |st.decoder.buffer| else 0
    ensures st.stage.Draining? && st.stage.after.ResetDecoder? && act == ReceiveNothing(false) ==> st.decoder.buffer == []
  {
  }

  /**
   The decoder resets of a run have discarded frames if and only if some drain before one ended for a decoding
   error, with frames left.
   */
  lemma {:induction false} ResetsLoseFramesOnlyByError(states: seq<State>, steps: seq<Step>, n: nat, k: Kind)
    requires IsRun(states, steps) && n <= |steps| && Get(states[0], k).present
    ensures Get(states[n], k).present
    ensures Get(states[n], k).log.lost > 0 <==> exists i :: 0 <= i < n && LosesFrames(states[i], steps[i], k)
  {
    if n > 0 {
      ResetsLoseFramesOnlyByError(states, steps, n - 1, k);
      RunShape(states, steps, n - 1);
      StepLoses(states[n - 1], steps[n - 1], k);
      StaysPresent(states[n - 1], steps[n - 1], k);
    }
  }

  lemma StaysPresent(s: State, step: Step, k: Kind)
    requires Enabled(s, step)
    ensures Get(Next(s, step), k).present == Get(s, k).present
  {
    if step.DemuxStep? { DemuxFrames(s, step.demux, k); }
  }
}
