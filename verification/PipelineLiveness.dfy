/** The pipeline never gets stuck, and every run on a finite input ends. */
module PipelineLiveness {
  import opened Clock
  import opened Decoding
  import opened Pipeline
  import opened PipelineSafety

  // ---------------------------------------------------------------- deadlock-freedom

  /** A step some thread takes in its normal course: no stop request, no exception, no passing of time. */
  predicate Ordinary(step: Step) {
    match step
    case DemuxStep(act) => !act.DemuxThrows?
    case DecodeStep(_, act) => !act.DecodeThrows?
    case PresentStep(_, act) => !act.PresentThrows?
    case _ => false
  }

  ghost predicate CanStep(s: State) {
    exists step :: Ordinary(step) && Enabled(s, step)
  }

  /** When a presenter that waits for time goes on at the latest. */
  function WakeTime(st: Stream, kind: Kind, sh: Shared): int
    requires ClockShape(st, sh.clock)
  {
    match st.show
    case WaitingForStart(_) => sh.clock.firstReady.value + sh.clock.startTimeout
    case WaitingUntilDue(frame) => DueTime(sh.clock, frame.pts)
    case _ => sh.now
  }

  /** A presenter waiting for time alone. */
  predicate WaitsForTime(st: Stream, kind: Kind, sh: Shared) {
    && (st.show.WaitingForStart? || st.show.WaitingUntilDue?)
    && !PresentEnabled(st, kind, sh, ResumeStart) && !PresentEnabled(st, kind, sh, TestDue)
    && !PresentEnabled(st, kind, sh, Interrupted)
  }

  predicate DecodeStuck(st: Stream, sh: Shared) {
    || st.stage.DecodeEnded?
    || (st.stage.Popping? && !PopEnabled(st.packets, sh.stop))
    || (st.stage.Emitting? && st.stage.out != [] && !PushEnabled(st.frames, sh.stop))
  }

  lemma DecodeMoves(s: State, k: Kind)
    ensures DecodeStuck(Get(s, k), s.shared) || CanStep(s)
  {
    var st := Get(s, k);
    if !DecodeStuck(st, s.shared) {
      var act := match st.stage
        case Popping => PopItem
        case Sending(p, _) => SendPacket(true, st.decoder.buffer)
        case Draining(_) =>
          if st.decoder.buffer == [] then ReceiveNothing(false)
          else
            var raw := st.decoder.buffer[0];
            ReceiveFrame(Frame(if raw.ts.Some? then raw.ts.value else 0, 0, raw.pass), true)
        case Emitting(out, _, _) => if out == [] then EndEmit else PushFrame
        case InputEnded => EndInput
        case Flushing => FlushProcessor
        case Closing => CloseQueue
        case DecodeEnded => PopItem;
      assert Enabled(s, DecodeStep(k, act)) && Ordinary(DecodeStep(k, act));
    }
  }

  lemma PresentMoves(s: State, k: Kind)
    ensures var st := Get(s, k);
            || st.show.PresentEnded?
            || (st.show.Taking? && !PopEnabled(st.frames, s.shared.stop))
            || WaitsForTime(st, k, s.shared)
            || CanStep(s)
  {
    var st := Get(s, k);
    var act := match st.show
      case Taking => TakeNext
      case Arriving(_) => ArriveFirst
      case WaitingForStart(_) => ResumeStart
      case Examining(_) => Examine
      case Deciding(_, _) => Decide
      case WaitingUntilDue(_) => if PresentEnabled(st, k, s.shared, TestDue) then TestDue else Interrupted
      case Moving(_, _) => MoveClock
      case Stamping(_) => StampFrame
      case Stamped(_, _, _) => SendFrame
      case Leaving => Leave
      case PresentEnded => TakeNext;
    if PresentEnabled(st, k, s.shared, act) {
      assert Enabled(s, PresentStep(k, act)) && Ordinary(PresentStep(k, act));
    }
  }

  lemma DemuxMoves(s: State)
    requires s.video.present || s.audio.present
    ensures || s.demux.DemuxEnded?
            || (s.demux.Delivering? && !PushEnabled(Get(s, s.demux.kind).packets, s.shared.stop))
            || (s.demux.Marking? && Get(s, s.demux.kind).present && !PushEnabled(Get(s, s.demux.kind).packets, s.shared.stop))
            || CanStep(s)
  {
    var act := match s.demux
      case LoopHead => CheckStop
      case Reading => if s.left == 0 then ReadEnd else ReadPacket(if s.video.present then Video else Audio, false)
      case AtEnd => NoRestart
      case Delivering(_, _) => Deliver
      case Marking(_) => Mark
      case ClosingVideo => CloseVideo
      case ClosingAudio => CloseAudio
      case DemuxEnded => CheckStop;
    if DemuxEnabled(s, act) {
      assert Enabled(s, DemuxStep(act)) && Ordinary(DemuxStep(act));
    }
  }

  /** If no thread of a stream can move, its presenter waits for time, unless both have ended. */
  lemma StreamMoves(s: State, k: Kind)
    requires Shape(s)
    requires Get(s, k).packets.closed || !PushEnabled(Get(s, k).packets, s.shared.stop) || s.shared.stop
    ensures CanStep(s) || WaitsForTime(Get(s, k), k, s.shared)
            || (Get(s, k).stage.DecodeEnded? && Get(s, k).show.PresentEnded? &&
                (Get(s, k).present && !s.shared.stop ==> Get(s, k).packets.closed))
  {
    DecodeMoves(s, k);
    PresentMoves(s, k);
  }

  /** Time lets such a presenter go on: at its wake time at the latest. */
  lemma TimeHelps(s: State, k: Kind, to: int)
    requires Shape(s) && WaitsForTime(Get(s, k), k, s.shared)
    ensures WakeTime(Get(s, k), k, s.shared) > s.shared.now
    ensures to >= WakeTime(Get(s, k), k, s.shared) ==> CanStep(Next(s, TimeStep(to)))
  {
    if to >= WakeTime(Get(s, k), k, s.shared) {
      var act := if Get(s, k).show.WaitingForStart? then ResumeStart else TestDue;
      assert Enabled(Next(s, TimeStep(to)), PresentStep(k, act)) && Ordinary(PresentStep(k, act));
    }
  }

  /**
   Deadlock-freedom: in every reachable state that is not final some thread can go on, or can once some
   time has passed. Start-up waits, full queues, a stop and stages that have failed are all covered. After
   a stop nobody needs to wait for time.
   */
  lemma NeverStuck(states: seq<State>, steps: seq<Step>)
    requires IsRun(states, steps) && !Final(states[|steps|])
    ensures var s := states[|steps|];
            CanStep(s) || (!s.shared.stop && exists to :: to > s.shared.now && CanStep(Next(s, TimeStep(to))))
  {
    var s := states[|steps|];
    RunShape(states, steps, |steps|);
    RunPresent(states, steps, |steps|);
    SomeoneMoves(s);
    if !CanStep(s) {
      var k := if WaitsForTime(s.video, Video, s.shared) then Video else Audio;
      TimeHelps(s, k, WakeTime(Get(s, k), k, s.shared));
    }
  }

  lemma {:induction false} RunPresent(states: seq<State>, steps: seq<Step>, n: nat)
    requires IsRun(states, steps) && n < |states|
    ensures states[n].video.present || states[n].audio.present
  {
    hide Next, Enabled;
    if n > 0 {
      RunPresent(states, steps, n - 1);
      StepPresent(states[n - 1], steps[n - 1]);
    }
  }

  /** No step changes which streams there are, or the options. */
  lemma StepPresent(s: State, step: Step)
    requires Enabled(s, step)
    ensures Next(s, step).video.present == s.video.present && Next(s, step).audio.present == s.audio.present
    ensures Next(s, step).shared.config == s.shared.config
  {
    hide DecodeEnabled, Wait, OnFrame, Shed;
    match step
    case DemuxStep(act) => DemuxPresent(s, act);
    case _ =>
  }

  lemma DemuxPresent(s: State, act: DemuxAct)
    requires DemuxEnabled(s, act)
    ensures var t := DemuxNext(s, act);
            t.video.present == s.video.present && t.audio.present == s.audio.present && t.shared.config == s.shared.config
  {
  }

  lemma SomeoneMoves(s: State)
    requires Shape(s) && (s.video.present || s.audio.present) && !Final(s)
    ensures || CanStep(s)
            || WaitsForTime(s.video, Video, s.shared) || WaitsForTime(s.audio, Audio, s.shared)
    ensures s.shared.stop ==> CanStep(s)
  {
    DemuxMoves(s);
    if !CanStep(s) {
      if s.demux.DemuxEnded? {
        StreamMoves(s, Video);
        StreamMoves(s, Audio);
      } else {
        StreamMoves(s, s.demux.kind);
      }
    }
  }

  // ---------------------------------------------------------------- termination

  function DemuxWeight(s: State): nat {
    4 * s.left + match s.demux
      case DemuxEnded => 0
      case ClosingAudio => 1
      case ClosingVideo => 2
      case AtEnd => 3
      case Reading => 4
      case LoopHead => 5
      case Delivering(_, _) => 6
      case Marking(k) => if k == Video then 7 else 6
  }

  function StageWeight(stage: DecodeStage): nat {
    match stage
    case DecodeEnded => 0
    case Closing => 1
    case Flushing => 3
    case InputEnded => 5
    case Popping => 6
    case Sending(_, attempts) => 6 + 2 * (if attempts <= 8 then 9 - attempts else 0)
    case Draining(after) => AfterWeight(after)
    case Emitting(_, _, after) => AfterWeight(after)
  }

  function AfterWeight(after: After): nat {
    match after
    case CloseFrames => 2
    case FinishInput => 4
    case Retry(_, attempts) => if attempts <= 8 then 5 + 2 * (9 - attempts) else 6
    case _ => 6
  }

  function PacketWeight(st: Stream): nat {
    24 * |st.packets.items| + StageWeight(st.stage)
  }

  function ShowWeight(show: PresentStage): nat {
    match show
    case PresentEnded => 0
    case Leaving => 1
    case Taking => 2
    case Stamped(_, _, _) => 3
    case Stamping(_) => 4
    case Moving(_, _) => 5
    case WaitingUntilDue(_) => 6
    case Deciding(_, _) => 7
    case Examining(_) => 8
    case WaitingForStart(_) => 9
    case Arriving(_) => 10
  }

  function FrameWeight(st: Stream): nat {
    12 * (|st.held| + |OutOf(st.stage)|) + 10 * |st.frames.items| + ShowWeight(st.show)
  }

  function DrainWeight(stage: DecodeStage): nat {
    match stage
    case Emitting(_, _, _) => 2
    case Draining(_) => 1
    case _ => 0
  }

  /** Compared lexicographically. */
  datatype Rank = Rank(stop: nat, demux: nat, packets: nat, buffered: nat, frames: nat, drain: nat)

  function RankOf(s: State): Rank {
    Rank(if s.shared.stop then 0 else 1,
         DemuxWeight(s),
         PacketWeight(s.video) + PacketWeight(s.audio),
         |s.video.decoder.buffer| + |s.audio.decoder.buffer|,
         FrameWeight(s.video) + FrameWeight(s.audio),
         DrainWeight(s.video.stage) + DrainWeight(s.audio.stage))
  }

  ghost predicate Below(a: Rank, b: Rank) {
    || a.stop < b.stop
    || (a.stop == b.stop && a.demux < b.demux)
    || (a.stop == b.stop && a.demux == b.demux && a.packets < b.packets)
    || (a.stop == b.stop && a.demux == b.demux && a.packets == b.packets && a.buffered < b.buffered)
    || (a.stop == b.stop && a.demux == b.demux && a.packets == b.packets && a.buffered == b.buffered
        && a.frames < b.frames)
    || (a.stop == b.stop && a.demux == b.demux && a.packets == b.packets && a.buffered == b.buffered
        && a.frames == b.frames && a.drain < b.drain)
  }

  /** What a step of a decode thread does to its stream's share of the rank. */
  ghost predicate StreamBelow(st: Stream, was: Stream) {
    || PacketWeight(st) < PacketWeight(was)
    || (PacketWeight(st) == PacketWeight(was) && |st.decoder.buffer| < |was.decoder.buffer|)
    || (PacketWeight(st) == PacketWeight(was) && |st.decoder.buffer| == |was.decoder.buffer|
        && FrameWeight(st) < FrameWeight(was))
    || (PacketWeight(st) == PacketWeight(was) && |st.decoder.buffer| == |was.decoder.buffer|
        && FrameWeight(st) == FrameWeight(was) && DrainWeight(st.stage) < DrainWeight(was.stage))
  }

  lemma TakeItemDescends(st: Stream, kind: Kind, sh: Shared)
    requires st.stage.Popping? && PopEnabled(st.packets, sh.stop)
    ensures PacketWeight(TakeItem(st, kind, sh)) < PacketWeight(st)
  {
  }

  lemma TakeFrameDescends(st: Stream, kind: Kind, sh: Shared, frame: Frame, keep: bool)
    requires st.stage.Draining? && st.decoder.buffer != []
    ensures StreamBelow(TakeFrame(st, kind, sh, frame, keep), st)
  {
    var st' := TakeFrame(st, kind, sh, frame, keep);
    assert PacketWeight(st') == PacketWeight(st) && |st'.decoder.buffer| < |st.decoder.buffer|;
  }

  lemma OtherDescends(st: Stream, kind: Kind, sh: Shared, act: DecodeAct)
    requires DecodeShape(st, kind) && DecodeEnabled(st, sh, act)
    requires !act.PopItem? && !act.ReceiveFrame? && !act.ReceiveNothing?
    ensures StreamBelow(DecodeNext(st, kind, sh, act), st)
  {
  }

  lemma DecodeDescends(st: Stream, kind: Kind, sh: Shared, act: DecodeAct)
    requires DecodeShape(st, kind) && DecodeEnabled(st, sh, act)
    ensures StreamBelow(DecodeNext(st, kind, sh, act), st)
  {
    match act
    case PopItem => TakeItemDescends(st, kind, sh);
    case ReceiveFrame(frame, keep) => TakeFrameDescends(st, kind, sh, frame, keep);
    case ReceiveNothing(_) => AfterDrainDescends(st);
    case _ => OtherDescends(st, kind, sh, act);
  }

  lemma AfterDrainDescends(st: Stream)
    requires st.stage.Draining? && !st.stage.after.CloseFrames?
    requires st.stage.after.Retry? ==> st.stage.after.attempts <= GIVE_UP_AFTER
    ensures StreamBelow(AfterDrain(st), st)
  {
  }

  lemma PresentDescends(st: Stream, kind: Kind, sh: Shared, act: PresentAct, sh': Shared)
    requires PresentEnabled(st, kind, sh, act)
    ensures var st' := PresentStream(st, kind, sh, act, sh');
            FrameWeight(st') < FrameWeight(st)
  {
  }

  predicate IsRestart(step: Step) {
    step.DemuxStep? && step.demux.Restart?
  }

  lemma DemuxDescends(s: State, act: DemuxAct)
    requires DemuxEnabled(s, act) && !act.Restart?
    ensures RankOf(DemuxNext(s, act)).stop < RankOf(s).stop ||
            (RankOf(DemuxNext(s, act)).stop == RankOf(s).stop && DemuxWeight(DemuxNext(s, act)) < DemuxWeight(s))
  {
  }

  lemma DecodeStepDescends(s: State, k: Kind, act: DecodeAct)
    requires Shape(s) && Enabled(s, DecodeStep(k, act))
    ensures Below(RankOf(Next(s, DecodeStep(k, act))), RankOf(s))
  {
    var st, st' := Get(s, k), DecodeNext(Get(s, k), k, s.shared, act);
    DecodeDescends(st, k, s.shared, act);
    var s' := Next(s, DecodeStep(k, act));
    assert s' == Put(s, k, st').(shared := s'.shared);
    assert DemuxWeight(s') == DemuxWeight(s);
  }

  lemma PresentStepDescends(s: State, k: Kind, act: PresentAct)
    requires Enabled(s, PresentStep(k, act))
    ensures Below(RankOf(Next(s, PresentStep(k, act))), RankOf(s))
  {
    var st := Get(s, k);
    var sh := PresentShared(st, k, s.shared, act);
    PresentDescends(st, k, s.shared, act, sh);
    var s' := Next(s, PresentStep(k, act));
    assert s' == Put(s, k, PresentStream(st, k, s.shared, act, sh)).(shared := sh);
    assert DemuxWeight(s') == DemuxWeight(s);
  }

  /** Every step a thread takes, failing ones included, lowers the rank; only a restart of the input does not. */
  lemma ThreadStepDescends(s: State, step: Step)
    requires Shape(s) && Enabled(s, step) && !step.TimeStep? && !IsRestart(step)
    ensures Below(RankOf(Next(s, step)), RankOf(s))
  {
    match step
    case DemuxStep(act) => DemuxDescends(s, act);
    case DecodeStep(k, act) => DecodeStepDescends(s, k, act);
    case PresentStep(k, act) => PresentStepDescends(s, k, act);
    case _ =>
  }

  // ---------------------------------------------------------------- infinite runs

  /** An infinite schedule; nothing changes once every thread has ended. */
  ghost predicate IsSchedule(run: nat -> State, steps: nat -> Step) {
    Init(run(0)) && forall i: nat :: Follows(run, steps, i)
  }

  ghost predicate Follows(run: nat -> State, steps: nat -> Step, i: nat) {
    if Final(run(i)) then run(i + 1) == run(i)
    else Enabled(run(i), steps(i)) && run(i + 1) == Next(run(i), steps(i))
  }

  lemma {:induction false} ScheduleShape(run: nat -> State, steps: nat -> Step, n: nat)
    requires IsSchedule(run, steps)
    ensures Shape(run(n)) && (run(n).video.present || run(n).audio.present)
    ensures run(n).shared.config == run(0).shared.config
  {
    hide Next, Enabled;
    if n > 0 {
      ScheduleShape(run, steps, n - 1);
      assert Follows(run, steps, n - 1);
      if !Final(run(n - 1)) {
        StepKeepsShape(run(n - 1), steps(n - 1));
        StepPresent(run(n - 1), steps(n - 1));
      }
    }
  }

  /** The input is not restarted any more. */
  ghost predicate NoRestartFrom(run: nat -> State, steps: nat -> Step, n: nat) {
    forall i: nat :: i >= n ==> !RestartAt(run, steps, i)
  }

  ghost predicate RestartAt(run: nat -> State, steps: nat -> Step, i: nat) {
    !Final(run(i)) && IsRestart(steps(i))
  }

  ghost predicate ThreadStepAt(run: nat -> State, steps: nat -> Step, j: nat) {
    !Final(run(j)) && !steps(j).TimeStep?
  }

  ghost predicate ThreadsDoneAt(run: nat -> State, steps: nat -> Step, m: nat) {
    forall i: nat :: i >= m ==> !ThreadStepAt(run, steps, i)
  }

  lemma TimeStepKeepsRank(s: State, to: int)
    requires to > s.shared.now
    ensures RankOf(Next(s, TimeStep(to))) == RankOf(s)
  {
  }

  lemma StepRank(run: nat -> State, steps: nat -> Step, n: nat)
    requires IsSchedule(run, steps) && !Final(run(n)) && !RestartAt(run, steps, n)
    ensures if steps(n).TimeStep? then RankOf(run(n + 1)) == RankOf(run(n))
            else Below(RankOf(run(n + 1)), RankOf(run(n)))
  {
    ScheduleShape(run, steps, n);
    assert Follows(run, steps, n);
    if steps(n).TimeStep? {
      TimeStepKeepsRank(run(n), steps(n).to);
    } else {
      ThreadStepDescends(run(n), steps(n));
    }
  }

  lemma {:induction false} ThreadStepsRunOut(run: nat -> State, steps: nat -> Step, n: nat, j: nat)
    requires IsSchedule(run, steps) && NoRestartFrom(run, steps, n) && n <= j && ThreadStepAt(run, steps, j)
    ensures exists m: nat :: m >= n && ThreadsDoneAt(run, steps, m)
    decreases RankOf(run(n)).stop, RankOf(run(n)).demux, RankOf(run(n)).packets, RankOf(run(n)).buffered,
              RankOf(run(n)).frames, RankOf(run(n)).drain, j - n
  {
    hide RankOf;
    assert !RestartAt(run, steps, n);
    if Final(run(n)) {
      StaysFinal(run, steps, n, j);
    } else if steps(n).TimeStep? {
      StepRank(run, steps, n);
      ThreadStepsRunOut(run, steps, n + 1, j);
    } else {
      StepRank(run, steps, n);
      if k: nat :| k >= n + 1 && ThreadStepAt(run, steps, k) {
        ThreadStepsRunOut(run, steps, n + 1, k);
      } else {
        assert ThreadsDoneAt(run, steps, n + 1);
      }
    }
  }

  lemma {:induction false} StaysFinal(run: nat -> State, steps: nat -> Step, n: nat, j: nat)
    requires IsSchedule(run, steps) && n <= j && Final(run(n))
    ensures Final(run(j))
    decreases j - n
  {
    if n < j {
      assert Follows(run, steps, n);
      StaysFinal(run, steps, n + 1, j);
    }
  }

  /**
   Under any schedule at all, however time passes, the threads take only finitely many steps from the moment the
   input is not restarted any more; so between two restarts, too, it is only time that can go on.
   */
  lemma FinitelyManyThreadSteps(run: nat -> State, steps: nat -> Step, n: nat)
    requires IsSchedule(run, steps) && NoRestartFrom(run, steps, n)
    ensures exists m: nat :: m >= n && ThreadsDoneAt(run, steps, m)
  {
    if j: nat :| j >= n && ThreadStepAt(run, steps, j) {
      ThreadStepsRunOut(run, steps, n, j);
    } else {
      assert ThreadsDoneAt(run, steps, n);
    }
  }

  // ---------------------------------------------------------------- fairness

  /** Either no thread could move here, or one does. */
  ghost predicate Yields(run: nat -> State, steps: nat -> Step, i: nat) {
    Final(run(i)) || !steps(i).TimeStep? || !CanStep(run(i))
  }

  /** Time never passes forever while at every moment some thread could move. */
  ghost predicate Fair(run: nat -> State, steps: nat -> Step) {
    forall n: nat :: YieldsFrom(run, steps, n)
  }

  ghost predicate YieldsFrom(run: nat -> State, steps: nat -> Step, n: nat) {
    exists i: nat :: i >= n && Yields(run, steps, i)
  }

  /** Once only time passes, nothing but the time changes, and it grows without bound. */
  lemma {:induction false} OnlyTime(run: nat -> State, steps: nat -> Step, m: nat, i: nat)
    requires IsSchedule(run, steps) && ThreadsDoneAt(run, steps, m) && m <= i
    requires forall j: nat :: !Final(run(j))
    ensures run(i) == run(m).(shared := run(m).shared.(now := run(i).shared.now))
    ensures run(i).shared.now >= run(m).shared.now + (i - m)
  {
    if i > m {
      OnlyTime(run, steps, m, i - 1);
      assert Follows(run, steps, i - 1) && !ThreadStepAt(run, steps, i - 1);
    }
  }

  /** When the last presenter that waits for time goes on. */
  function LastWake(s: State): int
    requires Shape(s)
  {
    var v, a := WakeTime(s.video, Video, s.shared), WakeTime(s.audio, Audio, s.shared);
    if v >= a then v else a
  }

  lemma WokenCanStep(s: State, later: State)
    requires Shape(s) && Shape(later) && (later.video.present || later.audio.present) && !Final(later)
    requires later == s.(shared := s.shared.(now := later.shared.now)) && later.shared.now >= LastWake(s)
    ensures CanStep(later)
  {
    SomeoneMoves(later);
    if !CanStep(later) {
      var k := if WaitsForTime(later.video, Video, later.shared) then Video else Audio;
      WakeTimeStays(s, later, k);
      TimeHelps(later, k, later.shared.now + 1);
    }
  }

  lemma WakeTimeStays(s: State, later: State, k: Kind)
    requires Shape(s) && Shape(later) && later == s.(shared := s.shared.(now := later.shared.now))
    requires WaitsForTime(Get(later, k), k, later.shared)
    ensures WakeTime(Get(later, k), k, later.shared) == WakeTime(Get(s, k), k, s.shared)
  {
  }

  lemma QuietScheduleEnds(run: nat -> State, steps: nat -> Step, m: nat)
    requires IsSchedule(run, steps) && Fair(run, steps) && ThreadsDoneAt(run, steps, m)
    ensures exists i: nat :: Final(run(i))
  {
    if forall j: nat :: !Final(run(j)) {
      ScheduleShape(run, steps, m);
      var wait := LastWake(run(m)) - run(m).shared.now;
      var n := m + if wait > 0 then wait else 0;
      assert YieldsFrom(run, steps, n);
      var i: nat :| i >= n && Yields(run, steps, i);
      OnlyTime(run, steps, m, i);
      ScheduleShape(run, steps, i);
      assert !ThreadStepAt(run, steps, i);
      WokenCanStep(run(m), run(i));
    }
  }

  /**
   Under any fair schedule, whatever fails or stops on the way, either every thread ends or the input is
   restarted again and again: nothing else can keep the pipeline going.
   */
  lemma EndsOrKeepsRestarting(run: nat -> State, steps: nat -> Step, n: nat)
    requires IsSchedule(run, steps) && Fair(run, steps)
    ensures (exists m: nat :: Final(run(m))) || exists i: nat :: i >= n && RestartAt(run, steps, i)
  {
    if forall i: nat :: i >= n ==> !RestartAt(run, steps, i) {
      FinitelyManyThreadSteps(run, steps, n);
      var m: nat :| m >= n && ThreadsDoneAt(run, steps, m);
      QuietScheduleEnds(run, steps, m);
    }
  }

  /**
   Termination: on a finite input that does not loop every thread ends under every fair schedule, whatever the
   interleaving, however time passes, and whatever fails on the way.
   */
  lemma EveryThreadEnds(run: nat -> State, steps: nat -> Step)
    requires IsSchedule(run, steps) && Fair(run, steps) && !run(0).shared.config.loop
    ensures exists m: nat :: Final(run(m))
  {
    EndsOrKeepsRestarting(run, steps, 0);
    if i: nat :| RestartAt(run, steps, i) {
      ScheduleShape(run, steps, i);
      assert Follows(run, steps, i);
    }
  }

  lemma StopStays(s: State, step: Step)
    requires Enabled(s, step) && s.shared.stop
    ensures Next(s, step).shared.stop
  {
    if step.DemuxStep? { DemuxPresent(s, step.demux); }
  }

  lemma {:induction false} StaysStopped(run: nat -> State, steps: nat -> Step, n: nat, i: nat)
    requires IsSchedule(run, steps) && run(n).shared.stop && n <= i
    ensures run(i).shared.stop
  {
    hide Next, Enabled;
    if n < i {
      StaysStopped(run, steps, n, i - 1);
      assert Follows(run, steps, i - 1);
      if !Final(run(i - 1)) { StopStays(run(i - 1), steps(i - 1)); }
    }
  }

  /** And after a stop every thread ends under every fair schedule, of a looping input too. */
  lemma EveryThreadEndsOnceStopped(run: nat -> State, steps: nat -> Step, n: nat)
    requires IsSchedule(run, steps) && Fair(run, steps) && run(n).shared.stop
    ensures exists m: nat :: Final(run(m))
  {
    EndsOrKeepsRestarting(run, steps, n);
    if i: nat :| i >= n && RestartAt(run, steps, i) {
      StaysStopped(run, steps, n, i);
      assert Follows(run, steps, i);
    }
  }
}
