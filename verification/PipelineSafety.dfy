/** What every step of the pipeline keeps: its structure, and the flow of packets and frames. */
module PipelineSafety {
  import opened Queues
  import opened Clock
  import opened Decoding
  import opened Pipeline

  // ---------------------------------------------------------------- structure

  /** Handing out the decoder's frames; `after` says why. */
  predicate InDrain(stage: DecodeStage) {
    stage.Draining? || stage.Emitting?
  }

  /** Frames the decode thread has processed but not pushed yet. */
  function OutOf(stage: DecodeStage): seq<Frame> {
    if stage.Emitting? then stage.out else []
  }

  /** The frame in the presenter's hands. */
  function Hand(show: PresentStage): seq<Frame> {
    match show
    case Taking => []
    case Leaving => []
    case PresentEnded => []
    case _ => [show.frame]
  }

  /** The packet queue was closed and drained before the decode thread got here. */
  predicate PastInput(stage: DecodeStage) {
    || stage.InputEnded? || stage.Flushing? || stage.Closing? || stage.DecodeEnded?
    || (InDrain(stage) && (stage.after.FinishInput? || stage.after.CloseFrames?))
  }

  ghost predicate DecodeShape(st: Stream, kind: Kind) {
    && st.packets.Valid() && st.frames.Valid()
    && |st.held| <= 1 && (kind == Video ==> st.held == [])
    && |OutOf(st.stage)| <= 1
    && (st.stage.Draining? ==> !st.stage.after.CloseFrames?)
    && (st.stage.Sending? ==> st.stage.attempts <= GIVE_UP_AFTER)
    && (InDrain(st.stage) && st.stage.after.Retry? ==> st.stage.after.attempts <= GIVE_UP_AFTER)
    && (st.frames.closed ==> st.stage.DecodeEnded?)
  }

  /** The decoder drains exactly while the end of a pass or of the input is handled. */
  ghost predicate DrainShape(st: Stream) {
    && (st.stage.Popping? || st.stage.Sending? ==> !st.decoder.draining)
    && (InDrain(st.stage) && !st.stage.after.CloseFrames? ==>
          (st.decoder.draining <==> st.stage.after.ResetDecoder? || st.stage.after.FinishInput?))
  }

  ghost predicate Ended(st: Stream) {
    && (PastInput(st.stage) ==> st.packets.closed && st.packets.items == [])
    && (st.stage.DecodeEnded? ==> st.frames.closed)
    && (st.show.Leaving? || st.show.PresentEnded? ==> st.frames.closed && st.frames.items == [])
  }

  ghost predicate StreamShape(st: Stream, kind: Kind, stop: bool) {
    && DecodeShape(st, kind)
    && (if !st.present then st.stage.DecodeEnded? && st.show.PresentEnded?
        else DrainShape(st) && (!stop ==> Ended(st)))
  }

  lemma TakeItemShape(st: Stream, kind: Kind, sh: Shared)
    requires StreamShape(st, kind, sh.stop) && st.stage.Popping? && PopEnabled(st.packets, sh.stop)
    ensures StreamShape(TakeItem(st, kind, sh), kind, sh.stop)
  {
    var (queue, r) := Pop(st.packets, sh.stop);
    if r.Popped? {
      match r.item
      case Marker =>
      case Data(p) =>
    }
  }

  lemma TakeFrameShape(st: Stream, kind: Kind, sh: Shared, frame: Frame, keep: bool)
    requires StreamShape(st, kind, sh.stop) && st.stage.Draining? && st.decoder.buffer != []
    ensures StreamShape(TakeFrame(st, kind, sh, frame, keep), kind, sh.stop)
  {
  }

  lemma AfterDrainShape(st: Stream, kind: Kind, sh: Shared)
    requires StreamShape(st, kind, sh.stop) && st.stage.Draining?
    ensures StreamShape(AfterDrain(st), kind, sh.stop)
  {
  }

  lemma PushShape(st: Stream, kind: Kind, sh: Shared)
    requires StreamShape(st, kind, sh.stop) && DecodeEnabled(st, sh, PushFrame)
    ensures StreamShape(DecodeNext(st, kind, sh, PushFrame), kind, sh.stop)
  {
  }

  lemma SendShape(st: Stream, kind: Kind, sh: Shared, act: DecodeAct)
    requires StreamShape(st, kind, sh.stop) && DecodeEnabled(st, sh, act) && act.SendPacket?
    ensures StreamShape(DecodeNext(st, kind, sh, act), kind, sh.stop)
  {
  }

  lemma EndShape(st: Stream, kind: Kind, sh: Shared, act: DecodeAct)
    requires StreamShape(st, kind, sh.stop) && DecodeEnabled(st, sh, act)
    requires act.EndEmit? || act.EndInput? || act.FlushProcessor? || act.CloseQueue? || act.DecodeThrows?
    ensures StreamShape(DecodeNext(st, kind, sh, act), kind, sh.stop || act.DecodeThrows?)
  {
  }

  lemma DecodeKeepsShape(st: Stream, kind: Kind, sh: Shared, act: DecodeAct)
    requires StreamShape(st, kind, sh.stop) && DecodeEnabled(st, sh, act)
    ensures StreamShape(DecodeNext(st, kind, sh, act), kind, sh.stop || act.DecodeThrows?)
  {
    match act
    case PopItem => TakeItemShape(st, kind, sh);
    case SendPacket(_, _) => SendShape(st, kind, sh, act);
    case ReceiveFrame(frame, keep) => TakeFrameShape(st, kind, sh, frame, keep);
    case ReceiveNothing(_) => AfterDrainShape(st, kind, sh);
    case PushFrame => PushShape(st, kind, sh);
    case _ => EndShape(st, kind, sh, act);
  }

  /** How the demuxer and its queues fit together. */
  ghost predicate DemuxShape(s: State) {
    && (s.video.packets.closed ==> s.demux.ClosingAudio? || s.demux.DemuxEnded?)
    && (s.audio.packets.closed ==> s.demux.DemuxEnded?)
    && (!s.shared.stop && (s.demux.ClosingAudio? || s.demux.DemuxEnded?) ==> s.video.packets.closed)
    && (!s.shared.stop && s.demux.DemuxEnded? ==> s.audio.packets.closed)
    && (s.demux.Delivering? ==> Get(s, s.demux.kind).present)
  }

  predicate PastStart(show: PresentStage) {
    show.Examining? || show.Deciding? || show.WaitingUntilDue? || show.Moving? || show.Stamping? || show.Stamped?
  }

  /** How a presenter and the clock fit together. */
  ghost predicate ClockShape(st: Stream, c: Clock) {
    && (st.started ==> c.started)
    && (PastStart(st.show) ==> st.started)
    && (st.show.Arriving? || st.show.WaitingForStart? ==> !st.started)
    && (st.show.WaitingForStart? || c.started ==> c.firstReady.Some?)
  }

  ghost predicate Shape(s: State) {
    && StreamShape(s.video, Video, s.shared.stop) && StreamShape(s.audio, Audio, s.shared.stop)
    && DemuxShape(s) && ClockShape(s.video, s.shared.clock) && ClockShape(s.audio, s.shared.clock)
  }

  lemma PresentKeepsClock(st: Stream, kind: Kind, sh: Shared, act: PresentAct)
    requires PresentEnabled(st, kind, sh, act) && ClockShape(st, sh.clock)
    ensures var sh' := PresentShared(st, kind, sh, act);
            && (sh.clock.started ==> sh'.clock.started)
            && (sh.clock.firstReady.Some? ==> sh'.clock.firstReady.Some?)
            && (sh'.clock.started ==> sh'.clock.firstReady.Some?)
            && (act.ArriveFirst? ==> sh'.clock.firstReady.Some?)
            && (act.ResumeStart? && !sh.stop ==> sh'.clock.started)
            && sh'.stop == (sh.stop || act.PresentThrows?) && sh'.now == sh.now && sh'.config == sh.config
  {
  }

  /** StreamShape speaks of the presenter only through `show`, `started` and the frame queue. */
  lemma ShowKeepsShape(st: Stream, kind: Kind, stop: bool, st': Stream, stop': bool)
    requires StreamShape(st, kind, stop) && st.present && (stop ==> stop')
    requires st' == st.(show := st'.show, started := st'.started, frames := st'.frames,
                        lastSent := st'.lastSent, log := st'.log)
    requires st'.frames.Valid() && st'.frames.closed == st.frames.closed
    requires st.frames.closed && st.frames.items == [] ==> st'.frames.items == []
    requires !stop' && (st'.show.Leaving? || st'.show.PresentEnded?) ==> st'.frames.closed && st'.frames.items == []
    ensures StreamShape(st', kind, stop')
  {
  }

  lemma PresentKeepsShape(st: Stream, kind: Kind, sh: Shared, act: PresentAct, sh': Shared)
    requires StreamShape(st, kind, sh.stop) && ClockShape(st, sh.clock) && PresentEnabled(st, kind, sh, act)
    requires sh' == PresentShared(st, kind, sh, act)
    ensures var st' := PresentStream(st, kind, sh, act, sh');
            && StreamShape(st', kind, sh'.stop) && ClockShape(st', sh'.clock)
            && st'.packets == st.packets && st'.present == st.present
  {
    PresentKeepsClock(st, kind, sh, act);
    ShowKeepsShape(st, kind, sh.stop, PresentStream(st, kind, sh, act, sh'), sh'.stop);
  }

  lemma OfferShape(st: Stream, kind: Kind, item: Item, stop: bool)
    requires StreamShape(st, kind, stop) && PushEnabled(st.packets, stop) && (!stop ==> !st.packets.closed)
    ensures StreamShape(Offer(st, item, stop).0, kind, stop)
  {
  }

  lemma OfferKeepsShape(s: State, k: Kind, item: Item, next: DemuxStage)
    requires Shape(s) && Get(s, k).present && PushEnabled(Get(s, k).packets, s.shared.stop)
    requires !s.demux.ClosingVideo? && !s.demux.ClosingAudio? && !s.demux.DemuxEnded?
    requires next.LoopHead? || next.Marking?
    ensures var (st, accepted) := Offer(Get(s, k), item, s.shared.stop);
            Shape(Put(s, k, st).(demux := if accepted then next else ClosingVideo))
  {
    OfferShape(Get(s, k), k, item, s.shared.stop);
  }

  lemma DemuxKeepsShape(s: State, act: DemuxAct)
    requires Shape(s) && DemuxEnabled(s, act)
    ensures Shape(DemuxNext(s, act))
  {
    match act
    case ReadPacket(_, _) => AnnounceShape(s, act);
    case Restart(_) => AnnounceShape(s, act);
    case Deliver => OfferKeepsShape(s, s.demux.kind, s.demux.item, LoopHead);
    case Mark => if Get(s, s.demux.kind).present {
      OfferKeepsShape(s, s.demux.kind, Marker, if s.demux.kind == Video then Marking(Audio) else LoopHead);
    }
    case CloseVideo => CloseShape(s.video, Video, s.shared.stop);
    case CloseAudio => CloseShape(s.audio, Audio, s.shared.stop);
    case _ =>
  }

  lemma AnnounceShape(s: State, act: DemuxAct)
    requires Shape(s) && DemuxEnabled(s, act) && (act.ReadPacket? || act.Restart?)
    ensures Shape(DemuxNext(s, act))
  {
    hide StreamShape;
    var t := DemuxNext(s, act);
    LogShape(s.video, Video, s.shared.stop, t.video.log);
    LogShape(s.audio, Audio, s.shared.stop, t.audio.log);
    assert t.video == s.video.(log := t.video.log) && t.audio == s.audio.(log := t.audio.log);
  }

  /** The record of what happened has no part in the structure. */
  lemma LogShape(st: Stream, kind: Kind, stop: bool, log: Log)
    requires StreamShape(st, kind, stop)
    ensures StreamShape(st.(log := log), kind, stop)
  {
  }

  lemma CloseShape(st: Stream, kind: Kind, stop: bool)
    requires StreamShape(st, kind, stop)
    ensures StreamShape(st.(packets := Close(st.packets)), kind, stop)
  {
  }

  lemma DecodeStepKeepsShape(s: State, k: Kind, act: DecodeAct)
    requires Shape(s) && Enabled(s, DecodeStep(k, act))
    ensures Shape(Next(s, DecodeStep(k, act)))
  {
    hide DecodeShape, DrainShape, Ended;
    DecodeKeepsShape(Get(s, k), k, s.shared, act);
    var other := Other(k);
    OtherKeepsShape(Get(s, other), other, s.shared, Next(s, DecodeStep(k, act)).shared);
  }

  lemma PresentStepKeepsShape(s: State, k: Kind, act: PresentAct)
    requires Shape(s) && Enabled(s, PresentStep(k, act))
    ensures Shape(Next(s, PresentStep(k, act)))
  {
    hide DecodeShape, DrainShape, Ended;
    var st, sh' := Get(s, k), PresentShared(Get(s, k), k, s.shared, act);
    PresentKeepsClock(st, k, s.shared, act);
    PresentKeepsShape(st, k, s.shared, act, sh');
    var other := Other(k);
    OtherKeepsShape(Get(s, other), other, s.shared, sh');
  }

  lemma OtherKeepsShape(st: Stream, kind: Kind, sh: Shared, sh': Shared)
    requires StreamShape(st, kind, sh.stop) && ClockShape(st, sh.clock) && (sh.stop ==> sh'.stop)
    requires (sh.clock.started ==> sh'.clock.started) && (sh.clock.firstReady.Some? ==> sh'.clock.firstReady.Some?)
    requires sh'.clock.started ==> sh'.clock.firstReady.Some?
    ensures StreamShape(st, kind, sh'.stop) && ClockShape(st, sh'.clock)
  {
  }

  lemma StepKeepsShape(s: State, step: Step)
    requires Shape(s) && Enabled(s, step)
    ensures Shape(Next(s, step))
  {
    match step
    case DemuxStep(act) => DemuxKeepsShape(s, act);
    case DecodeStep(k, act) => DecodeStepKeepsShape(s, k, act);
    case PresentStep(k, act) => PresentStepKeepsShape(s, k, act);
    case StopStep =>
    case TimeStep(_) =>
  }

  lemma {:induction false} RunShape(states: seq<State>, steps: seq<Step>, n: nat)
    requires IsRun(states, steps) && n < |states|
    ensures Shape(states[n])
  {
    if n > 0 {
      RunShape(states, steps, n - 1);
      StepKeepsShape(states[n - 1], steps[n - 1]);
    }
  }
}
