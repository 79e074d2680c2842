/** After a stop request every thread ends within a number of steps that the queues at the stop determine. */
module PipelineShutdown {
  import opened Decoding
  import opened Pipeline
  import opened PipelineSafety
  import opened PipelineLiveness

  // ---------------------------------------------------------------- steps left

  /** Steps the demuxer can still take, counting what a delivered item costs the decode stage. */
  function DemuxLeft(demux: DemuxStage): nat {
    match demux
    case DemuxEnded => 0
    case ClosingAudio => 1
    case ClosingVideo => 2
    case LoopHead => 3
    case AtEnd => 3
    case Delivering(_, _) => 24
    case Reading => 25
    case Marking(k) => if k == Video then 45 else 24
  }

  /** Steps the decode thread can still take once it has popped its last item. */
  function StageLeft(stage: DecodeStage): nat {
    match stage
    case DecodeEnded => 0
    case Closing => 1
    case InputEnded => 2
    case Flushing => 2
    case Emitting(out, _, _) => 2 + |out|
    case Popping => 4
    case Draining(after) => AfterLeft(after)
    case Sending(_, attempts) => 7 + 2 * (if attempts <= 8 then 8 - attempts else 0)
  }

  function AfterLeft(after: After): nat {
    match after
    case Retry(_, attempts) => 6 + 2 * (if attempts <= 8 then 8 - attempts else 0)
    case _ => 5
  }

  /** Frames the decode thread can still push: what it is emitting, or one more that it receives. */
  function FramesToCome(stage: DecodeStage): nat {
    match stage
    case Popping => 1
    case Sending(_, _) => 1
    case Draining(_) => 1
    case Emitting(out, _, _) => |out|
    case _ => 0
  }

  function StreamLeft(st: Stream): nat {
    20 * |st.packets.items| + StageLeft(st.stage) + 9 * (|st.frames.items| + FramesToCome(st.stage)) + ShowWeight(st.show)
  }

  function StepsLeft(s: State): nat {
    DemuxLeft(s.demux) + StreamLeft(s.video) + StreamLeft(s.audio)
  }

  lemma DecodeStopping(st: Stream, kind: Kind, sh: Shared, act: DecodeAct)
    requires DecodeShape(st, kind) && DecodeEnabled(st, sh, act) && sh.stop
    ensures StreamLeft(DecodeNext(st, kind, sh, act)) < StreamLeft(st)
  {
    match act
    case PopItem => PopStopping(st, kind, sh);
    case ReceiveFrame(frame, keep) => FrameStopping(st, kind, sh, frame, keep);
    case ReceiveNothing(_) => DrainStopping(st, kind);
    case _ => OtherStopping(st, kind, sh, act);
  }

  lemma PopStopping(st: Stream, kind: Kind, sh: Shared)
    requires st.stage.Popping? && sh.stop
    ensures StreamLeft(TakeItem(st, kind, sh)) < StreamLeft(st)
  {
  }

  lemma FrameStopping(st: Stream, kind: Kind, sh: Shared, frame: Frame, keep: bool)
    requires DecodeShape(st, kind) && st.stage.Draining? && st.decoder.buffer != []
    ensures StreamLeft(TakeFrame(st, kind, sh, frame, keep)) < StreamLeft(st)
  {
  }

  lemma DrainStopping(st: Stream, kind: Kind)
    requires DecodeShape(st, kind) && st.stage.Draining?
    ensures StreamLeft(AfterDrain(st)) < StreamLeft(st)
  {
  }

  lemma OtherStopping(st: Stream, kind: Kind, sh: Shared, act: DecodeAct)
    requires DecodeShape(st, kind) && DecodeEnabled(st, sh, act) && sh.stop
    requires !act.PopItem? && !act.ReceiveFrame? && !act.ReceiveNothing?
    ensures StreamLeft(DecodeNext(st, kind, sh, act)) < StreamLeft(st)
  {
  }

  lemma PresentStopping(st: Stream, kind: Kind, sh: Shared, act: PresentAct, sh': Shared)
    requires PresentEnabled(st, kind, sh, act)
    ensures StreamLeft(PresentStream(st, kind, sh, act, sh')) < StreamLeft(st)
  {
    PresentDescends(st, kind, sh, act, sh');
  }

  lemma DemuxStopping(s: State, act: DemuxAct)
    requires DemuxEnabled(s, act) && s.shared.stop
    ensures StepsLeft(DemuxNext(s, act)) < StepsLeft(s)
  {
  }

  lemma StepStopping(s: State, step: Step)
    requires Shape(s) && Enabled(s, step) && s.shared.stop
    ensures step.TimeStep? || StepsLeft(Next(s, step)) < StepsLeft(s)
    ensures step.TimeStep? ==> StepsLeft(Next(s, step)) == StepsLeft(s)
    ensures Next(s, step).shared.stop
  {
    match step
    case DemuxStep(act) => DemuxStopping(s, act);
    case DecodeStep(k, act) => DecodeStopping(Get(s, k), k, s.shared, act);
    case PresentStep(k, act) =>
      PresentStopping(Get(s, k), k, s.shared, act, PresentShared(Get(s, k), k, s.shared, act));
    case _ =>
  }

  // ---------------------------------------------------------------- whole runs

  function ThreadSteps(steps: seq<Step>): nat {
    if steps == [] then 0
    else ThreadSteps(steps[..|steps| - 1]) + if steps[|steps| - 1].TimeStep? then 0 else 1
  }

  lemma NoSteps(steps: seq<Step>)
    ensures steps == [] ==> ThreadSteps(steps) == 0
  {
  }

  lemma OneMoreStep(steps: seq<Step>, from: nat, end: nat)
    requires from < end <= |steps|
    ensures ThreadSteps(steps[from..end]) ==
            ThreadSteps(steps[from..end - 1]) + if steps[end - 1].TimeStep? then 0 else 1
  {
    assert steps[from..end][..end - from - 1] == steps[from..end - 1];
  }

  lemma {:induction false} StepsRunOut(states: seq<State>, steps: seq<Step>, from: nat, end: nat)
    requires IsRun(states, steps) && from <= end <= |steps| && states[from].shared.stop
    ensures states[end].shared.stop
    ensures ThreadSteps(steps[from..end]) + StepsLeft(states[end]) <= StepsLeft(states[from])
    decreases end
  {
    hide StepsLeft, Shape, Next, Enabled, Init, ThreadSteps;
    assert steps[from..from] == [] && ThreadSteps(steps[from..from]) == 0 by { NoSteps(steps[from..from]); }
    if from < end {
      StepsRunOut(states, steps, from, end - 1);
      RunShape(states, steps, end - 1);
      StepStopping(states[end - 1], steps[end - 1]);
      OneMoreStep(steps, from, end);
    }
  }

  lemma StepsLeftBound(s: State)
    requires Shape(s)
    ensures StepsLeft(s) <= 20 * (|s.video.packets.items| + |s.audio.packets.items|)
                            + 9 * (|s.video.frames.items| + |s.audio.frames.items|) + 129
  {
    StreamLeftBound(s.video, Video);
    StreamLeftBound(s.audio, Audio);
  }

  lemma StreamLeftBound(st: Stream, kind: Kind)
    requires DecodeShape(st, kind)
    ensures StreamLeft(st) <= 20 * |st.packets.items| + 9 * |st.frames.items| + 42
  {
    assert StageLeft(st.stage) <= 23 && FramesToCome(st.stage) <= 1 && ShowWeight(st.show) <= 10;
  }

  /**
   Bounded shutdown: from a stop on, however it came about and although pushes and pops may still succeed,
   the threads together take at most 20 steps per queued packet, 9 per queued frame, and 129 more; and none
   of them ever waits, so as long as one has not ended there is a step to take.
   */
  lemma ShutdownIsBounded(states: seq<State>, steps: seq<Step>, n: nat)
    requires IsRun(states, steps) && n <= |steps| && states[n].shared.stop
    ensures ThreadSteps(steps[n..]) <=
            20 * (|states[n].video.packets.items| + |states[n].audio.packets.items|)
            + 9 * (|states[n].video.frames.items| + |states[n].audio.frames.items|) + 129
    ensures Final(states[|steps|]) || CanStep(states[|steps|])
  {
    StepsRunOut(states, steps, n, |steps|);
    assert steps[n..|steps|] == steps[n..];
    RunShape(states, steps, n);
    StepsLeftBound(states[n]);
    if !Final(states[|steps|]) { NeverStuck(states, steps); }
  }

  // ---------------------------------------------------------------- what the demuxer still adds

  /** Items put into a stream's packet queue so far. */
  function Offered(st: Stream): nat {
    |st.log.taken| + |st.packets.items|
  }

  /** Items the demuxer may still put there once a stop was requested. */
  function ToOffer(demux: DemuxStage, k: Kind): nat {
    match demux
    case Reading => 1
    case Delivering(kind, _) => if kind == k then 1 else 0
    case Marking(kind) => if k == Audio || kind == Video then 1 else 0
    case _ => 0
  }

  lemma OfferStopping(s: State, step: Step, k: Kind)
    requires Enabled(s, step) && s.shared.stop
    ensures Offered(Get(Next(s, step), k)) + ToOffer(Next(s, step).demux, k) <= Offered(Get(s, k)) + ToOffer(s.demux, k)
  {
    match step
    case DemuxStep(act) => DemuxOffers(s, act, k);
    case DecodeStep(kind, act) => if kind == k { DecodeOffers(Get(s, k), k, s.shared, act); }
    case PresentStep(kind, act) =>
    case _ =>
  }

  lemma DemuxOffers(s: State, act: DemuxAct, k: Kind)
    requires DemuxEnabled(s, act) && s.shared.stop
    ensures Offered(Get(DemuxNext(s, act), k)) + ToOffer(DemuxNext(s, act).demux, k)
            <= Offered(Get(s, k)) + ToOffer(s.demux, k)
  {
  }

  lemma DecodeOffers(st: Stream, kind: Kind, sh: Shared, act: DecodeAct)
    requires DecodeEnabled(st, sh, act)
    ensures Offered(DecodeNext(st, kind, sh, act)) == Offered(st)
  {
    match act
    case PopItem => TakeItemOffers(st, kind, sh);
    case ReceiveFrame(frame, keep) => TakeFrameOffers(st, kind, sh, frame, keep);
    case ReceiveNothing(_) => AfterDrainOffers(st);
    case _ => assert DecodeNext(st, kind, sh, act).packets == st.packets;
  }

  lemma TakeItemOffers(st: Stream, kind: Kind, sh: Shared)
    ensures Offered(TakeItem(st, kind, sh)) == Offered(st)
  {
    hide ShouldSkip, Shed;
  }

  lemma TakeFrameOffers(st: Stream, kind: Kind, sh: Shared, frame: Frame, keep: bool)
    requires st.stage.Draining? && st.decoder.buffer != []
    ensures Offered(TakeFrame(st, kind, sh, frame, keep)) == Offered(st)
  {
    hide OnFrame, Lateness;
  }

  lemma AfterDrainOffers(st: Stream)
    requires st.stage.Draining?
    ensures Offered(AfterDrain(st)) == Offered(st)
  {
  }

  lemma {:induction false} OffersRunOut(states: seq<State>, steps: seq<Step>, from: nat, end: nat, k: Kind)
    requires IsRun(states, steps) && from <= end <= |steps| && states[from].shared.stop
    ensures Offered(Get(states[end], k)) + ToOffer(states[end].demux, k)
            <= Offered(Get(states[from], k)) + ToOffer(states[from].demux, k)
    decreases end
  {
    if from < end {
      OffersRunOut(states, steps, from, end - 1, k);
      StepsRunOut(states, steps, from, end - 1);
      OfferStopping(states[end - 1], steps[end - 1], k);
    }
  }

  /** After a stop the demuxer adds at most one more item to each packet queue. */
  lemma AtMostOneMoreItem(states: seq<State>, steps: seq<Step>, n: nat, k: Kind)
    requires IsRun(states, steps) && n <= |steps| && states[n].shared.stop
    ensures Offered(Get(states[|steps|], k)) <= Offered(Get(states[n], k)) + 1
  {
    OffersRunOut(states, steps, n, |steps|, k);
  }
}
