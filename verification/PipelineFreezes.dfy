/** What the video presenter drops, and what it never drops. */
module PipelineFreezes {
  import opened Clock
  import opened Decoding
  import opened Pipeline
  import opened PipelineSafety
  import opened PipelineFlow
  import opened PipelineTiming

  /** When the presenter last sent a frame; 0 before the first. */
  function LastSentAt(outcomes: seq<Outcome>): int {
    var o := LastSent(outcomes);
    if o.None? then 0 else o.value.at
  }

  /** The frame was late, a newer one was queued, and the picture had been fresh 200 ms before. */
  ghost predicate JustifiedDrop(outcomes: seq<Outcome>, i: nat)
    requires i < |outcomes| && outcomes[i].Dropped?
  {
    var Dropped(frame, exam, lastSent, newer) := outcomes[i];
    && lastSent == LastSentAt(outcomes[..i])
    && exam.at - lastSent < 200 * MS
    && exam.lateness > 2 * frame.duration * US && exam.lateness > 40 * MS
    && !exam.resyncPending
    && newer > 0
  }

  ghost predicate Freezes(st: Stream, stop: bool) {
    var outcomes := st.log.outcomes;
    && st.lastSent == LastSentAt(outcomes)
    && (forall i :: 0 <= i < |outcomes| && outcomes[i].Dropped? ==> JustifiedDrop(outcomes, i))
    && (!stop && outcomes != [] && outcomes[|outcomes| - 1].Dropped? ==> Hand(st.show) != [] || st.frames.items != [])
  }

  lemma OutcomeFreezes(st: Stream, stop: bool, o: Outcome, st': Stream, stop': bool)
    requires Freezes(st, stop) && st'.log.outcomes == st.log.outcomes + [o]
    requires st'.lastSent == if o.Sent? then o.at else st.lastSent
    requires o.Dropped? ==>
      && o.lastSent == st.lastSent && o.exam.at - o.lastSent < MAX_FREEZE && o.newer > 0 && !o.exam.resyncPending
      && o.exam.lateness > DropThreshold(o.frame.duration) && st'.frames.items != []
    ensures Freezes(st', stop')
  {
    var before, after := st.log.outcomes, st'.log.outcomes;
    Append(before, o);
    assert after[..|after| - 1] == before;
    forall i | 0 <= i < |after| && after[i].Dropped? ensures JustifiedDrop(after, i) {
      assert after[..i] == before[..i];
      if i < |before| { assert JustifiedDrop(before, i); }
    }
  }

  /** Steps that dispose of no frame lose none either, unless a stop has been requested. */
  lemma NoOutcomeFreezes(st: Stream, stop: bool, st': Stream, stop': bool)
    requires Freezes(st, stop) && st'.log.outcomes == st.log.outcomes && st'.lastSent == st.lastSent
    requires stop ==> stop'
    requires !stop' && (Hand(st.show) != [] || st.frames.items != []) ==> Hand(st'.show) != [] || st'.frames.items != []
    ensures Freezes(st', stop')
  {
  }

  lemma DecideFreezes(st: Stream, kind: Kind, sh: Shared, sh': Shared)
    requires Freezes(st, sh.stop) && PresentEnabled(st, kind, sh, Decide) && sh'.stop == sh.stop
    ensures Freezes(PresentStream(st, kind, sh, Decide, sh'), sh'.stop)
  {
    var st' := PresentStream(st, kind, sh, Decide, sh');
    if st'.show.Taking? {
      OutcomeFreezes(st, sh.stop, st'.log.outcomes[|st.log.outcomes|], st', sh'.stop);
    } else {
      NoOutcomeFreezes(st, sh.stop, st', sh'.stop);
    }
  }

  lemma PresentFreezes(st: Stream, kind: Kind, sh: Shared, act: PresentAct, sh': Shared)
    requires Freezes(st, sh.stop) && PresentEnabled(st, kind, sh, act)
    requires sh'.stop == (sh.stop || act.PresentThrows?) && StreamShape(st, kind, sh.stop)
    ensures Freezes(PresentStream(st, kind, sh, act, sh'), sh'.stop)
  {
    hide JustifiedDrop, LastSentAt;
    var st' := PresentStream(st, kind, sh, act, sh');
    match act
    case Decide => DecideFreezes(st, kind, sh, sh');
    case SendFrame => OutcomeFreezes(st, sh.stop, st'.log.outcomes[|st.log.outcomes|], st', sh'.stop);
    case _ => NoOutcomeFreezes(st, sh.stop, st', sh'.stop);
  }

  /** The decode stage only ever adds to the frame queue. */
  lemma DecodeFreezes(st: Stream, kind: Kind, sh: Shared, act: DecodeAct)
    requires DecodeEnabled(st, sh, act) && Freezes(st, sh.stop)
    ensures Freezes(DecodeNext(st, kind, sh, act), sh.stop || act.DecodeThrows?)
  {
    assert |DecodeNext(st, kind, sh, act).frames.items| >= |st.frames.items|;
  }

  lemma StepFreezes(s: State, step: Step, k: Kind)
    requires Shape(s) && Freezes(Get(s, k), s.shared.stop) && Enabled(s, step)
    ensures Freezes(Get(Next(s, step), k), Next(s, step).shared.stop)
  {
    hide JustifiedDrop, LastSentAt, LastSent;
    match step
    case DemuxStep(act) => DemuxFrames(s, act, k);
    case DecodeStep(kind, act) => if kind == k { DecodeFreezes(Get(s, k), k, s.shared, act); }
    case PresentStep(kind, act) =>
      PresentKeepsClock(Get(s, kind), kind, s.shared, act);
      if kind == k { PresentFreezes(Get(s, k), k, s.shared, act, PresentShared(Get(s, k), k, s.shared, act)); }
    case _ =>
  }

  lemma {:induction false} RunFreezes(states: seq<State>, steps: seq<Step>, n: nat, k: Kind)
    requires IsRun(states, steps) && n < |states|
    ensures Freezes(Get(states[n], k), states[n].shared.stop)
  {
    if n > 0 {
      RunFreezes(states, steps, n - 1, k);
      RunShape(states, steps, n - 1);
      StepFreezes(states[n - 1], steps[n - 1], k);
    }
  }

  // ---------------------------------------------------------------- what was examined, and when

  /** In this state the presenter examines `frame`, and the clock gives it the lateness in `exam`. */
  ghost predicate ExaminedAt(s: State, k: Kind, frame: Frame, exam: Exam) {
    && Get(s, k).show == Examining(frame)
    && exam.at == s.shared.now && exam.lateness == s.shared.now - DueTime(s.shared.clock, frame.pts)
    && exam.resyncPending == (!AudioIsMaster(s.shared) && exam.lateness > SECOND)
  }

  /** In this state it decides to drop the frame, with `newer` frames queued behind it. */
  ghost predicate DroppedAt(s: State, k: Kind, o: Outcome)
    requires o.Dropped?
  {
    && Get(s, k).show == Deciding(o.frame, o.exam)
    && |Get(s, k).frames.items| == o.newer && Get(s, k).lastSent == o.lastSent
  }

  ghost predicate Examined(states: seq<State>, n: nat, k: Kind, frame: Frame, exam: Exam)
    requires n <= |states|
  {
    exists i :: 0 <= i < n && ExaminedAt(states[i], k, frame, exam)
  }

  ghost predicate Traced(states: seq<State>, n: nat, k: Kind, o: Outcome)
    requires n <= |states| && o.Dropped?
  {
    && Examined(states, n, k, o.frame, o.exam)
    && exists i :: 0 <= i < n && DroppedAt(states[i], k, o)
  }

  /** Whatever the presenter has measured or dropped by state n goes back to earlier states of the run. */
  ghost predicate History(states: seq<State>, n: nat, k: Kind)
    requires n < |states|
  {
    var st := Get(states[n], k);
    && (st.show.Deciding? ==> Examined(states, n, k, st.show.frame, st.show.exam))
    && forall o <- st.log.outcomes :: o.Dropped? ==> Traced(states, n, k, o)
  }

  /** What a step adds: a measurement made in the state before, or a drop decided there. */
  lemma StepHistory(s: State, step: Step, k: Kind)
    requires Enabled(s, step)
    ensures var st, st' := Get(s, k), Get(Next(s, step), k);
            && (st'.show.Deciding? ==> st'.show == st.show || ExaminedAt(s, k, st'.show.frame, st'.show.exam))
            && forall o <- st'.log.outcomes :: o.Dropped? ==>
                 o in st.log.outcomes || (st.show.Deciding? && DroppedAt(s, k, o))
  {
    match step
    case PresentStep(kind, act) =>
      if kind == k { PresentHistory(s, k, act, PresentShared(Get(s, k), k, s.shared, act)); }
    case _ => QuietStep(s, step);
  }

  lemma PresentHistory(s: State, k: Kind, act: PresentAct, sh': Shared)
    requires PresentEnabled(Get(s, k), k, s.shared, act)
    ensures var st, st' := Get(s, k), PresentStream(Get(s, k), k, s.shared, act, sh');
            && (st'.show.Deciding? ==> st'.show == st.show || ExaminedAt(s, k, st'.show.frame, st'.show.exam))
            && forall o <- st'.log.outcomes :: o.Dropped? ==>
                 o in st.log.outcomes || (st.show.Deciding? && DroppedAt(s, k, o))
  {
  }

  lemma {:induction false} RunHistory(states: seq<State>, steps: seq<Step>, n: nat, k: Kind)
    requires IsRun(states, steps) && n < |states|
    ensures History(states, n, k)
  {
    if n > 0 {
      RunHistory(states, steps, n - 1, k);
      HistoryGrows(states, steps, n - 1, k);
    }
  }

  lemma HistoryGrows(states: seq<State>, steps: seq<Step>, n: nat, k: Kind)
    requires IsRun(states, steps) && n < |steps| && History(states, n, k)
    ensures History(states, n + 1, k)
  {
    hide Next, Enabled, ExaminedAt;
    var st, st' := Get(states[n], k), Get(states[n + 1], k);
    StepHistory(states[n], steps[n], k);
    if st.show.Deciding? { StillExamined(states, n, k, st.show.frame, st.show.exam); }
    forall o | o in st'.log.outcomes && o.Dropped? ensures Traced(states, n + 1, k, o) {
      if o in st.log.outcomes { StillExamined(states, n, k, o.frame, o.exam); }
    }
  }

  lemma StillExamined(states: seq<State>, n: nat, k: Kind, frame: Frame, exam: Exam)
    requires n < |states| && Examined(states, n, k, frame, exam)
    ensures Examined(states, n + 1, k, frame, exam)
  {
  }

  /**
   In any run, the presenter drops a frame only for good reason, and never 200 ms or more after a send. What the
   reason speaks of was so: the lateness is that of the frame's deadline on the clock at the instant it was
   examined, and the newer frames were queued when the decision fell.
   */
  lemma DropsAreJustified(states: seq<State>, steps: seq<Step>, i: nat)
    requires IsRun(states, steps)
    requires i < |states[|steps|].video.log.outcomes| && states[|steps|].video.log.outcomes[i].Dropped?
    ensures JustifiedDrop(states[|steps|].video.log.outcomes, i)
    ensures Traced(states, |steps|, Video, states[|steps|].video.log.outcomes[i])
  {
    RunFreezes(states, steps, |steps|, Video);
    RunHistory(states, steps, |steps|, Video);
    assert states[|steps|].video.log.outcomes[i] in states[|steps|].video.log.outcomes;
  }

  /** At the end of any undisturbed run, the last frame that reached the presenter's queue was sent. */
  lemma LastFrameIsSent(states: seq<State>, steps: seq<Step>, k: Kind)
    requires IsRun(states, steps) && Final(states[|steps|]) && !states[|steps|].shared.stop
    requires var st := Get(states[|steps|], k); st.present && st.log.pushed != []
    ensures var log := Get(states[|steps|], k).log;
            && log.outcomes != [] && log.outcomes[|log.outcomes| - 1].Sent?
            && log.outcomes[|log.outcomes| - 1].frame == log.pushed[|log.pushed| - 1]
  {
    RunFreezes(states, steps, |steps|, k);
    EverythingIsAccountedFor(states, steps, k);
  }

  // ---------------------------------------------------------------- and nothing else goes another way

  /** What Decide does with an examined frame. */
  lemma DecideIsExact(st: Stream, kind: Kind, sh: Shared, sh': Shared)
    requires PresentEnabled(st, kind, sh, Decide)
    ensures var exam, frame := st.show.exam, st.show.frame;
            var st' := PresentStream(st, kind, sh, Decide, sh');
            if && exam.lateness > 2 * frame.duration * US && exam.lateness > 40 * MS && !exam.resyncPending
               && st.frames.items != [] && exam.at - st.lastSent < 200 * MS
            then st'.show.Taking? && st'.log.dropped == st.log.dropped + 1
                 && st'.log.outcomes == st.log.outcomes + [Dropped(frame, exam, st.lastSent, |st.frames.items|)]
            else st'.show == WaitingUntilDue(frame) && st'.log == st.log
  {
  }

  /**
   In every run the presenter drops a frame if and only if, when it was examined, it was late by more than 40 ms and
   twice its duration, no resync was pending, and the last frame had been sent less than 200 ms before; and
   when it decides, a newer one is queued.
   */
  lemma DropsAreExact(states: seq<State>, steps: seq<Step>, i: nat, k: Kind)
    requires IsRun(states, steps) && i < |steps| && steps[i] == PresentStep(k, Decide)
    ensures var st, st' := Get(states[i], k), Get(states[i + 1], k);
            && st.show.Deciding? && Examined(states, i, k, st.show.frame, st.show.exam)
            && (st'.log.dropped > st.log.dropped <==>
                  && st.show.exam.lateness > 2 * st.show.frame.duration * US && st.show.exam.lateness > 40 * MS
                  && !st.show.exam.resyncPending && st.frames.items != []
                  && st.show.exam.at - LastSentAt(st.log.outcomes) < 200 * MS)
            && (st'.log.dropped == st.log.dropped ==> st'.show == WaitingUntilDue(st.show.frame))
  {
    hide LastSentAt, Examined, JustifiedDrop;
    RunHistory(states, steps, i, k);
    RunFreezes(states, steps, i, k);
    DecideIsExact(Get(states[i], k), k, states[i].shared, states[i].shared);
    DecideStep(states[i], k);
  }

  lemma DecideStep(s: State, k: Kind)
    requires Enabled(s, PresentStep(k, Decide))
    ensures Get(Next(s, PresentStep(k, Decide)), k) == PresentStream(Get(s, k), k, s.shared, Decide, s.shared)
  {
  }

  /** The presenter has tested whether the frame is due, and it was, or was made so. */
  ghost predicate Tested(states: seq<State>, steps: seq<Step>, n: nat, k: Kind, frame: Frame)
    requires n <= |states| && n <= |steps|
  {
    exists i :: 0 <= i < n && steps[i] == PresentStep(k, TestDue) && Get(states[i], k).show == WaitingUntilDue(frame)
  }

  /** It has decided not to drop the frame. */
  ghost predicate Spared(states: seq<State>, steps: seq<Step>, n: nat, k: Kind, frame: Frame)
    requires n <= |states| && n <= |steps|
  {
    exists i :: 0 <= i < n && steps[i] == PresentStep(k, Decide) && DecidedOn(states[i], k, frame)
  }

  predicate DecidedOn(s: State, k: Kind, frame: Frame) {
    Get(s, k).show.Deciding? && Get(s, k).show.frame == frame
  }

  predicate BeyondTest(show: PresentStage, frame: Frame) {
    (show.Moving? || show.Stamping? || show.Stamped?) && show.frame == frame
  }

  /** A frame on its way to being sent, or sent, has taken the way it should. */
  ghost predicate Path(states: seq<State>, steps: seq<Step>, n: nat, k: Kind)
    requires n < |states| && n <= |steps|
  {
    var st := Get(states[n], k);
    && (forall f :: BeyondTest(st.show, f) ==> Tested(states, steps, n, k, f))
    && (forall f :: k == Video && (BeyondTest(st.show, f) || st.show == WaitingUntilDue(f)) ==> Spared(states, steps, n, k, f))
    && forall o <- st.log.outcomes :: o.Sent? ==>
         Tested(states, steps, n, k, o.frame) && (k == Video ==> Spared(states, steps, n, k, o.frame))
  }

  /** How a frame gets on with pacing: only by a test, and video's only after a decision. */
  lemma StepPath(s: State, step: Step, k: Kind)
    requires Enabled(s, step) && s.shared.config.pacing
    ensures var st, st' := Get(s, k), Get(Next(s, step), k);
            && (forall f :: BeyondTest(st'.show, f) ==>
                  BeyondTest(st.show, f) || (step == PresentStep(k, TestDue) && st.show == WaitingUntilDue(f)))
            && (forall f :: k == Video && st'.show == WaitingUntilDue(f) ==>
                  st.show == WaitingUntilDue(f) || (step == PresentStep(k, Decide) && DecidedOn(s, k, f)))
            && forall o <- st'.log.outcomes :: o.Sent? ==> o in st.log.outcomes || BeyondTest(st.show, o.frame)
  {
    match step
    case PresentStep(kind, act) => if kind == k { PresentPath(s, k, act, PresentShared(Get(s, k), k, s.shared, act)); }
    case _ => QuietStep(s, step);
  }

  lemma PresentPath(s: State, k: Kind, act: PresentAct, sh': Shared)
    requires PresentEnabled(Get(s, k), k, s.shared, act) && s.shared.config.pacing
    ensures var st, st' := Get(s, k), PresentStream(Get(s, k), k, s.shared, act, sh');
            && (forall f :: BeyondTest(st'.show, f) ==>
                  BeyondTest(st.show, f) || (act.TestDue? && st.show == WaitingUntilDue(f)))
            && (forall f :: k == Video && st'.show == WaitingUntilDue(f) ==>
                  st.show == WaitingUntilDue(f) || (act.Decide? && DecidedOn(s, k, f)))
            && forall o <- st'.log.outcomes :: o.Sent? ==> o in st.log.outcomes || BeyondTest(st.show, o.frame)
  {
  }

  lemma StillOnPath(states: seq<State>, steps: seq<Step>, n: nat, k: Kind, frame: Frame)
    requires n < |states| && n < |steps|
    ensures Tested(states, steps, n, k, frame) ==> Tested(states, steps, n + 1, k, frame)
    ensures Spared(states, steps, n, k, frame) ==> Spared(states, steps, n + 1, k, frame)
  {
  }

  lemma PathGrows(states: seq<State>, steps: seq<Step>, n: nat, k: Kind)
    requires IsRun(states, steps) && n < |steps| && states[n].shared.config.pacing && Path(states, steps, n, k)
    ensures Path(states, steps, n + 1, k)
  {
    hide Next, Enabled, Init, DecidedOn;
    StepPath(states[n], steps[n], k);
    forall f ensures Tested(states, steps, n, k, f) ==> Tested(states, steps, n + 1, k, f)
             ensures Spared(states, steps, n, k, f) ==> Spared(states, steps, n + 1, k, f)
    {
      StillOnPath(states, steps, n, k, f);
    }
  }

  /**
   With pacing, in every run, each frame sent had been found due by a test of the presenter, and each frame of video
   had been examined and spared before that.
   */
  lemma {:induction false} PacedFramesAreTested(states: seq<State>, steps: seq<Step>, n: nat, k: Kind)
    requires IsRun(states, steps) && n <= |steps| && states[0].shared.config.pacing
    ensures states[n].shared.config == states[0].shared.config && Path(states, steps, n, k)
  {
    hide Next, Enabled, Path;
    if n > 0 {
      PacedFramesAreTested(states, steps, n - 1, k);
      PathGrows(states, steps, n - 1, k);
      SameConfig(states[n - 1], steps[n - 1]);
    } else {
      EmptyPath(states, steps, k);
    }
  }

  lemma EmptyPath(states: seq<State>, steps: seq<Step>, k: Kind)
    requires IsRun(states, steps)
    ensures Path(states, steps, 0, k)
  {
  }

  lemma SameConfig(s: State, step: Step)
    requires Enabled(s, step)
    ensures Next(s, step).shared.config == s.shared.config
  {
    if !step.PresentStep? { QuietStep(s, step); }
  }

  /** Without pacing: nothing has been held against a deadline. */
  ghost predicate Unhurried(s: State) {
    && s.shared.resyncs == 0 && s.video.log.dropped == 0 && s.audio.log.dropped == 0
    && StreamUnhurried(s.video) && StreamUnhurried(s.audio)
  }

  ghost predicate StreamUnhurried(st: Stream) {
    && !st.show.Examining? && !st.show.Deciding? && !st.show.WaitingUntilDue? && !st.show.Moving?
    && forall o <- st.log.outcomes :: o.Sent?
  }

  lemma PresentUnhurried(st: Stream, kind: Kind, sh: Shared, act: PresentAct)
    requires PresentEnabled(st, kind, sh, act) && StreamUnhurried(st) && !sh.config.pacing
    ensures var sh' := PresentShared(st, kind, sh, act); var st' := PresentStream(st, kind, sh, act, sh');
            StreamUnhurried(st') && sh'.resyncs == sh.resyncs && st'.log.dropped == st.log.dropped
  {
  }

  lemma DecodeUnhurried(st: Stream, kind: Kind, sh: Shared, act: DecodeAct)
    requires DecodeEnabled(st, sh, act) && !sh.config.pacing
    ensures DecodeNext(st, kind, sh, act).log.dropped == st.log.dropped
  {
  }

  lemma StepUnhurried(s: State, step: Step)
    requires Enabled(s, step) && Unhurried(s) && !s.shared.config.pacing
    ensures Unhurried(Next(s, step))
  {
    match step
    case DemuxStep(act) =>
      DemuxFrames(s, act, Video);
      DemuxFrames(s, act, Audio);
      QuietStep(s, step);
    case DecodeStep(k, act) => DecodeUnhurried(Get(s, k), k, s.shared, act);
    case PresentStep(k, act) => PresentUnhurried(Get(s, k), k, s.shared, act);
    case _ =>
  }

  /**
   Without pacing, in every run: no frame is dropped, by the decode stage or by a presenter, no presenter waits for a
   deadline, and the clock is never moved.
   */
  lemma {:induction false} UnpacedRunsDropNothing(states: seq<State>, steps: seq<Step>, n: nat)
    requires IsRun(states, steps) && n <= |steps| && !states[0].shared.config.pacing
    ensures states[n].shared.config == states[0].shared.config && Unhurried(states[n])
  {
    hide Next, Enabled, Unhurried, Init;
    if n > 0 {
      UnpacedRunsDropNothing(states, steps, n - 1);
      SameConfig(states[n - 1], steps[n - 1]);
      StepUnhurried(states[n - 1], steps[n - 1]);
    } else {
      UnhurriedAtFirst(states[0]);
    }
  }

  lemma UnhurriedAtFirst(s: State)
    requires Init(s)
    ensures Unhurried(s)
  {
  }
}
