/** What every timecode says, in any run: the UTC time of the deadline its frame had when it got it. */
module PipelineTimecodes {
  import opened Clock
  import opened Pipeline
  import opened PipelineSafety
  import opened PipelineTiming

  /** The clock is anchored to UTC, and a resync that is pending will leave it so. */
  ghost predicate StaysAnchored(s: State) {
    ClockSane(s.shared) && MoveSane(s.video.show, s.shared) && MoveSane(s.audio.show, s.shared)
  }

  lemma PresentAnchored(st: Stream, kind: Kind, sh: Shared, act: PresentAct, other: PresentStage)
    requires ClockSane(sh) && MoveSane(st.show, sh) && MoveSane(other, sh) && PresentEnabled(st, kind, sh, act)
    ensures var sh' := PresentShared(st, kind, sh, act);
            ClockSane(sh') && MoveSane(PresentStream(st, kind, sh, act, sh').show, sh') && MoveSane(other, sh')
  {
    if act.MoveClock? {
      ResyncAnchored(sh.clock, st.show.frame.pts, st.show.when);
    } else {
      QuietPresent(st, kind, sh, act);
    }
  }

  lemma StepAnchored(s: State, step: Step)
    requires StaysAnchored(s) && Enabled(s, step)
    ensures StaysAnchored(Next(s, step))
  {
    hide PresentEnabled, PresentShared, PresentStream;
    match step
    case PresentStep(k, act) => PresentAnchored(Get(s, k), k, s.shared, act, Get(s, Other(k)).show);
    case _ => QuietStep(s, step);
  }

  lemma {:induction false} RunAnchoring(states: seq<State>, steps: seq<Step>, n: nat)
    requires IsRun(states, steps) && n < |states|
    ensures StaysAnchored(states[n])
  {
    hide Next, Enabled;
    if n > 0 {
      RunAnchoring(states, steps, n - 1);
      StepAnchored(states[n - 1], steps[n - 1]);
    }
  }

  // ---------------------------------------------------------------- where a timecode comes from

  /** In this state, by this step, the frame gets the UTC time of the deadline it has now as its timecode. */
  ghost predicate Stamps(s: State, step: Step, k: Kind, frame: Frame, timecode: int, due: int) {
    && step == PresentStep(k, StampFrame) && Get(s, k).show == Stamping(frame) && s.shared.clock.started
    && due == DueTime(s.shared.clock, frame.pts) && timecode == UtcNs(s.shared.clock, due) / 100
  }

  predicate Sends(s: State, step: Step, k: Kind, o: SentFrame) {
    step == PresentStep(k, SendFrame) && Get(s, k).show == Stamped(o.frame, o.timecode, o.due) && o.at == s.shared.now
  }

  ghost predicate StampedBefore(states: seq<State>, steps: seq<Step>, n: nat, k: Kind, frame: Frame, timecode: int, due: int)
    requires n <= |states| && n <= |steps|
  {
    exists i :: 0 <= i < n && Stamps(states[i], steps[i], k, frame, timecode, due)
  }

  ghost predicate SentBefore(states: seq<State>, steps: seq<Step>, n: nat, k: Kind, o: SentFrame)
    requires n <= |states| && n <= |steps|
  {
    exists j :: 0 <= j < n && Sends(states[j], steps[j], k, o) && StampedBefore(states, steps, j, k, o.frame, o.timecode, o.due)
  }

  ghost predicate Origins(states: seq<State>, steps: seq<Step>, n: nat, k: Kind)
    requires n < |states| && n <= |steps|
  {
    var st := Get(states[n], k);
    && (st.show.Stamped? ==> StampedBefore(states, steps, n, k, st.show.frame, st.show.timecode, st.show.due))
    && forall o <- st.log.outcomes :: o.Sent? ==> SentBefore(states, steps, n, k, o)
  }

  lemma StepOrigins(s: State, step: Step, k: Kind)
    requires Enabled(s, step) && Shape(s) && StaysAnchored(s)
    ensures var st, st' := Get(s, k), Get(Next(s, step), k);
            && (st'.show.Stamped? ==>
                  st'.show == st.show || Stamps(s, step, k, st'.show.frame, st'.show.timecode, st'.show.due))
            && forall o <- st'.log.outcomes :: o.Sent? ==> o in st.log.outcomes || Sends(s, step, k, o)
  {
    match step
    case PresentStep(kind, act) => if kind == k { PresentOrigins(s, k, act, PresentShared(Get(s, k), k, s.shared, act)); }
    case _ => QuietStep(s, step);
  }

  lemma PresentOrigins(s: State, k: Kind, act: PresentAct, sh': Shared)
    requires PresentEnabled(Get(s, k), k, s.shared, act) && ClockShape(Get(s, k), s.shared.clock) && ClockSane(s.shared)
    ensures var st, st' := Get(s, k), PresentStream(Get(s, k), k, s.shared, act, sh');
            && (st'.show.Stamped? ==>
                  st'.show == st.show || Stamps(s, PresentStep(k, act), k, st'.show.frame, st'.show.timecode, st'.show.due))
            && forall o <- st'.log.outcomes :: o.Sent? ==> o in st.log.outcomes || Sends(s, PresentStep(k, act), k, o)
  {
    if act.StampFrame? { TimecodeOfDue(s.shared.clock, Get(s, k).show.frame.pts); }
  }

  lemma StillStamped(states: seq<State>, steps: seq<Step>, n: nat, k: Kind, frame: Frame, timecode: int, due: int)
    requires n < |states| && n < |steps| && StampedBefore(states, steps, n, k, frame, timecode, due)
    ensures StampedBefore(states, steps, n + 1, k, frame, timecode, due)
  {
  }

  lemma OriginsGrow(states: seq<State>, steps: seq<Step>, n: nat, k: Kind)
    requires IsRun(states, steps) && n < |steps| && Origins(states, steps, n, k)
    requires Shape(states[n]) && StaysAnchored(states[n])
    ensures Origins(states, steps, n + 1, k)
  {
    hide Next, Enabled, Init, Shape, StaysAnchored, Stamps, StampedBefore;
    var st, st' := Get(states[n], k), Get(states[n + 1], k);
    StepOrigins(states[n], steps[n], k);
    if st'.show.Stamped? {
      if st'.show == st.show {
        StillStamped(states, steps, n, k, st.show.frame, st.show.timecode, st.show.due);
      } else {
        JustStamped(states, steps, n, k, st'.show.frame, st'.show.timecode, st'.show.due);
      }
    }
  }

  lemma JustStamped(states: seq<State>, steps: seq<Step>, n: nat, k: Kind, frame: Frame, timecode: int, due: int)
    requires n < |states| && n < |steps| && Stamps(states[n], steps[n], k, frame, timecode, due)
    ensures StampedBefore(states, steps, n + 1, k, frame, timecode, due)
  {
  }

  /**
   In every run of every configuration, overlaps and failures included: each frame sent has as its timecode the UTC
   time, in whole 100 ns, of the deadline the clock gave it in the state in which it got that timecode.
   */
  lemma {:induction false} TimecodesAreUtcOfDeadlines(states: seq<State>, steps: seq<Step>, n: nat, k: Kind)
    requires IsRun(states, steps) && n <= |steps|
    ensures Origins(states, steps, n, k)
  {
    hide Next, Enabled, Origins, Shape, StaysAnchored;
    if n > 0 {
      TimecodesAreUtcOfDeadlines(states, steps, n - 1, k);
      RunShape(states, steps, n - 1);
      RunAnchoring(states, steps, n - 1);
      OriginsGrow(states, steps, n - 1, k);
    } else {
      NoOrigins(states, steps, k);
    }
  }

  lemma NoOrigins(states: seq<State>, steps: seq<Step>, k: Kind)
    requires IsRun(states, steps)
    ensures Origins(states, steps, 0, k)
  {
  }
}
