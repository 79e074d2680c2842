/**
 The start barrier of the presentation clock (src/util/clock.cpp, WaitForStart and StreamFinished) for
 any number of streams, in any interleaving of arrivals, early finishes, timeouts and stops.

 All notifications of the clock are issued under its mutex, so a section and its notify_all are one step.
 */
module StartBarrier {
  import opened Counting
  import opened Options
  import opened Clock

  datatype Stream =
    | Absent               // its presenter has no frame yet
    | Asleep(first: int)   // waiting in WaitForStart
    | Woken(first: int)    // woken, and about to take the mutex again
    | Released(first: int) // WaitForStart returned true
    | Stopped(first: int)  // WaitForStart returned false
    | Finished             // StreamFinished was called

  /** What was decided when playback started; the clock is the one set by StartLocked. */
  datatype StartRecord = StartRecord(at: int, streams: seq<Stream>, clock: Clock)

  datatype State = State(clock: Clock, streams: seq<Stream>, now: int, stop: bool, starts: seq<StartRecord>)

  datatype Step =
    | ArriveStep(stream: nat, first: int)
    | ResumeStep(stream: nat)   // a woken stream takes the mutex
    | WakeStep(stream: nat)     // its deadline passed, or spuriously
    | FinishStep(stream: nat)
    | StopStep
    | TimeStep(elapsed: nat)

  predicate HasArrived(w: Stream) {
    w.Asleep? || w.Woken? || w.Released? || w.Stopped?
  }

  predicate Enabled(s: State, step: Step) {
    match step
    case ArriveStep(i, first) => i < |s.streams| && s.streams[i].Absent?
    case ResumeStep(i) => i < |s.streams| && s.streams[i].Woken?
    case WakeStep(i) => i < |s.streams| && s.streams[i].Asleep?
    case FinishStep(i) => i < |s.streams| && (s.streams[i].Absent? || s.streams[i].Stopped?)
    case StopStep => !s.stop
    case TimeStep(_) => true
  }

  function Wake(w: Stream): Stream {
    if w.Asleep? then Woken(w.first) else w
  }

  function NotifyAll(streams: seq<Stream>): (r: seq<Stream>)
    ensures |r| == |streams|
    ensures forall i :: 0 <= i < |r| ==> r[i] == Wake(streams[i])
  {
    seq(|streams|, i requires 0 <= i < |streams| => Wake(streams[i]))
  }

  /** One turn of WaitForStart's loop by stream `i`: start, go on, or wait. After a stop the wait returns at once. */
  function Turn(s: State, i: nat, first: int): State
    requires i < |s.streams|
  {
    var c := Poll(s.clock, s.now);
    if MayStart(s.clock, s.now) then
      s.(clock := c, streams := NotifyAll(s.streams)[i := Released(first)],
         starts := s.starts + [StartRecord(s.now, s.streams, c)])
    else
      s.(streams := s.streams[i := if c.started then Released(first)
                                   else if s.stop then Woken(first) else Asleep(first)])
  }

  function Next(s: State, step: Step): State
    requires Enabled(s, step)
  {
    match step
    case ArriveStep(i, first) =>
      Turn(s.(clock := Arrive(s.clock, first, s.now), streams := NotifyAll(s.streams)[i := Woken(first)]), i, first)
    case ResumeStep(i) =>
      if s.stop then s.(streams := s.streams[i := Stopped(s.streams[i].first)])
      else Turn(s, i, s.streams[i].first)
    case WakeStep(i) => s.(streams := s.streams[i := Wake(s.streams[i])])
    case FinishStep(i) =>
      s.(clock := StreamFinished(s.clock), streams := NotifyAll(s.streams)[i := Finished])
    case StopStep => s.(stop := true, streams := NotifyAll(s.streams))
    case TimeStep(elapsed) => s.(now := s.now + elapsed)
  }

  predicate Init(s: State) {
    && s.clock == NewClock(|s.streams|, s.clock.preroll, s.clock.startTimeout, s.clock.utcOffset)
    && (forall i :: 0 <= i < |s.streams| ==> s.streams[i].Absent?)
    && !s.stop && s.starts == []
  }

  // ---------------------------------------------------------------- the invariant

  /** Arrived or finished. */
  function Settled(w: Stream): nat {
    if w.Absent? then 0 else 1
  }

  ghost predicate IsMinFirst(streams: seq<Stream>, m: Option<int>) {
    && (m.None? <==> !Any(streams, HasArrived))
    && (m.Some? ==> exists i :: 0 <= i < |streams| && HasArrived(streams[i]) && streams[i].first == m.value)
    && (m.Some? ==> forall i :: 0 <= i < |streams| && HasArrived(streams[i]) ==> m.value <= streams[i].first)
  }

  ghost predicate AllSettled(streams: seq<Stream>) {
    forall i :: 0 <= i < |streams| ==> !streams[i].Absent?
  }

  /** What a start must have looked like. */
  ghost predicate GoodStart(r: StartRecord) {
    && IsMinFirst(r.streams, Some(r.clock.originUs))
    && (AllSettled(r.streams) ||
        (r.clock.firstReady.Some? && r.at >= r.clock.firstReady.value + r.clock.startTimeout))
    && (forall i :: 0 <= i < |r.streams| && HasArrived(r.streams[i]) ==>
          DueTime(r.clock, r.streams[i].first) >= r.at + r.clock.preroll)
    && (exists i :: 0 <= i < |r.streams| && HasArrived(r.streams[i]) &&
          DueTime(r.clock, r.streams[i].first) == r.at + r.clock.preroll)
  }

  ghost predicate Counted(s: State) {
    && s.clock.ready - s.clock.expected == Sum(s.streams, Settled) - |s.streams|
    && IsMinFirst(s.streams, s.clock.minFirstPts)
    && (s.clock.minFirstPts.Some? <==> s.clock.firstReady.Some?)
  }

  ghost predicate Starts(s: State) {
    && |s.starts| == (if s.clock.started then 1 else 0)
    && (s.clock.started ==> GoodStart(s.starts[0]))
    && (s.clock.started ==> s.clock.originUs == s.starts[0].clock.originUs && s.clock.epoch == s.starts[0].clock.epoch)
  }

  ghost predicate Inv(s: State) {
    !s.stop ==>
      && Counted(s)
      && Starts(s)
      && (forall i :: 0 <= i < |s.streams| && s.streams[i].Asleep? ==>
            !s.clock.started && s.clock.ready < s.clock.expected)
      && (forall i :: 0 <= i < |s.streams| && s.streams[i].Released? ==> s.clock.started)
      && (forall i :: 0 <= i < |s.streams| ==> !s.streams[i].Stopped?)
  }

  lemma InitInv(s: State)
    requires Init(s)
    ensures Inv(s)
  {
    SumZero(s.streams, Settled);
  }

  lemma {:induction false} SettledBound(streams: seq<Stream>)
    ensures Sum(streams, Settled) <= |streams|
    ensures Sum(streams, Settled) == |streams| <==> AllSettled(streams)
  {
    if streams != [] { SettledBound(streams[..|streams| - 1]); }
  }

  lemma StartIsGood(s: State)
    requires Counted(s) && MayStart(s.clock, s.now) && Any(s.streams, HasArrived)
    ensures GoodStart(StartRecord(s.now, s.streams, Start(s.clock, s.now)))
  {
    SettledBound(s.streams);
  }

  /** Waking streams changes neither who has arrived nor their first timestamps. */
  lemma NotifyKeeps(streams: seq<Stream>, m: Option<int>)
    requires IsMinFirst(streams, m)
    ensures IsMinFirst(NotifyAll(streams), m)
    ensures Sum(NotifyAll(streams), Settled) == Sum(streams, Settled)
  {
    var u := NotifyAll(streams);
    SumEqual(streams, u, Settled);
    if m.Some? {
      var i :| 0 <= i < |streams| && HasArrived(streams[i]) && streams[i].first == m.value;
      assert HasArrived(u[i]) && u[i].first == m.value;
    }
  }

  /** Nor does a stream going on from one arrived phase to another. */
  lemma PhaseKeeps(streams: seq<Stream>, i: nat, w: Stream, m: Option<int>)
    requires i < |streams| && IsMinFirst(streams, m)
    requires HasArrived(streams[i]) && HasArrived(w) && w.first == streams[i].first
    ensures IsMinFirst(streams[i := w], m)
    ensures Sum(streams[i := w], Settled) == Sum(streams, Settled)
  {
    var u := streams[i := w];
    SumUpdate(streams, i, w, Settled);
    assert HasArrived(u[i]);
    if m.Some? {
      var j :| 0 <= j < |streams| && HasArrived(streams[j]) && streams[j].first == m.value;
      assert HasArrived(u[j]) && u[j].first == m.value;
    }
  }

  lemma StartingTurnInv(s: State, i: nat)
    requires Inv(s) && !s.stop && i < |s.streams| && s.streams[i].Woken? && MayStart(s.clock, s.now)
    ensures Inv(Turn(s, i, s.streams[i].first))
  {
    hide GoodStart, IsMinFirst;
    assert HasArrived(s.streams[i]);
    StartIsGood(s);
    NotifyKeeps(s.streams, s.clock.minFirstPts);
    PhaseKeeps(NotifyAll(s.streams), i, Released(s.streams[i].first), s.clock.minFirstPts);
  }

  lemma TurnInv(s: State, i: nat)
    requires Inv(s) && !s.stop && i < |s.streams| && s.streams[i].Woken?
    ensures Inv(Turn(s, i, s.streams[i].first))
  {
    hide GoodStart, IsMinFirst;
    if MayStart(s.clock, s.now) {
      StartingTurnInv(s, i);
    } else {
      var first := s.streams[i].first;
      PhaseKeeps(s.streams, i, if s.clock.started then Released(first) else Asleep(first), s.clock.minFirstPts);
    }
  }

  lemma ArriveKeeps(streams: seq<Stream>, i: nat, first: int, m: Option<int>)
    requires i < |streams| && streams[i].Absent? && IsMinFirst(streams, m)
    ensures IsMinFirst(streams[i := Woken(first)], Some(if m.None? then first else Min(m.value, first)))
    ensures Sum(streams[i := Woken(first)], Settled) == Sum(streams, Settled) + 1
  {
    var u := streams[i := Woken(first)];
    SumUpdate(streams, i, Woken(first), Settled);
    assert HasArrived(u[i]) && u[i].first == first;
    if m.Some? {
      var j :| 0 <= j < |streams| && HasArrived(streams[j]) && streams[j].first == m.value;
      assert HasArrived(u[j]) && u[j].first == m.value;
    }
  }

  lemma ArriveInv(s: State, i: nat, first: int)
    requires Inv(s) && Enabled(s, ArriveStep(i, first))
    ensures Inv(Next(s, ArriveStep(i, first)))
  {
    hide GoodStart, IsMinFirst;
    if !s.stop {
      NotifyKeeps(s.streams, s.clock.minFirstPts);
      ArriveKeeps(NotifyAll(s.streams), i, first, s.clock.minFirstPts);
      TurnInv(s.(clock := Arrive(s.clock, first, s.now), streams := NotifyAll(s.streams)[i := Woken(first)]), i);
    }
  }

  lemma FinishKeeps(streams: seq<Stream>, i: nat, m: Option<int>)
    requires i < |streams| && streams[i].Absent? && IsMinFirst(streams, m)
    ensures IsMinFirst(streams[i := Finished], m)
    ensures Sum(streams[i := Finished], Settled) == Sum(streams, Settled) + 1
  {
    var u := streams[i := Finished];
    SumUpdate(streams, i, Finished, Settled);
    if m.Some? {
      var j :| 0 <= j < |streams| && HasArrived(streams[j]) && streams[j].first == m.value;
      assert HasArrived(u[j]) && u[j].first == m.value;
    }
  }

  lemma FinishInv(s: State, i: nat)
    requires Inv(s) && Enabled(s, FinishStep(i))
    ensures Inv(Next(s, FinishStep(i)))
  {
    hide GoodStart, IsMinFirst;
    if !s.stop {
      NotifyKeeps(s.streams, s.clock.minFirstPts);
      FinishKeeps(NotifyAll(s.streams), i, s.clock.minFirstPts);
    }
  }

  lemma StepInv(s: State, step: Step)
    requires Inv(s) && Enabled(s, step)
    ensures Inv(Next(s, step))
  {
    match step
    case ArriveStep(i, first) => ArriveInv(s, i, first);
    case ResumeStep(i) => if !s.stop { TurnInv(s, i); }
    case WakeStep(i) => if !s.stop { PhaseKeeps(s.streams, i, Wake(s.streams[i]), s.clock.minFirstPts); }
    case FinishStep(i) => FinishInv(s, i);
    case StopStep =>
    case TimeStep(_) =>
  }

  // ---------------------------------------------------------------- whole runs

  ghost predicate IsRun(states: seq<State>, steps: seq<Step>) {
    && |states| == |steps| + 1 && Init(states[0])
    && forall i :: 0 <= i < |steps| ==> Enabled(states[i], steps[i]) && states[i + 1] == Next(states[i], steps[i])
  }

  lemma {:induction false} RunInv(states: seq<State>, steps: seq<Step>, n: nat)
    requires IsRun(states, steps) && n < |states|
    ensures Inv(states[n])
  {
    if n == 0 {
      InitInv(states[0]);
    } else {
      RunInv(states, steps, n - 1);
      StepInv(states[n - 1], steps[n - 1]);
    }
  }

  /**
   In any unstopped run playback starts at most once. The origin is the smallest first timestamp of
   exactly the streams that had arrived by then; none of their first deadlines precedes the start plus the
   preroll, and the earliest meets it. It starts because nobody is left to wait for, or because the timeout
   has passed since the first arrival of the run. Later arrivals do not move the origin.
   */
  lemma StartsOnceAtTheEarliestTimestamp(states: seq<State>, steps: seq<Step>)
    requires IsRun(states, steps) && !states[|steps|].stop
    ensures var s := states[|steps|];
            && |s.starts| <= 1
            && (s.clock.started <==> |s.starts| == 1)
            && (s.clock.started ==>
                  && GoodStart(s.starts[0])
                  && s.clock.originUs == s.starts[0].clock.originUs
                  && s.clock.epoch == s.starts[0].at + s.clock.preroll
                  && (AllSettled(s.starts[0].streams) ||
                      exists k :: IsFirstArrival(steps, k) &&
                        s.starts[0].at >= states[k].now + s.clock.startTimeout))
  {
    RunInv(states, steps, |steps|);
    StartInv(states, steps, |steps|);
    ReadySinceFirstArrival(states, steps, |steps|);
  }

  /** What a start keeps of the clock it began with. */
  lemma {:induction false} StartInv(states: seq<State>, steps: seq<Step>, n: nat)
    requires IsRun(states, steps) && n < |states|
    ensures forall r <- states[n].starts ::
              && r.clock.epoch == r.at + states[n].clock.preroll
              && r.clock.startTimeout == states[n].clock.startTimeout
              && (r.clock.firstReady.Some? ==> r.clock.firstReady == states[n].clock.firstReady)
    ensures states[n].clock.preroll == states[0].clock.preroll
  {
    if n > 0 { StartInv(states, steps, n - 1); }
  }

  /** Step `k` is the first by which a stream arrives. */
  ghost predicate IsFirstArrival(steps: seq<Step>, k: int) {
    && 0 <= k < |steps| && steps[k].ArriveStep?
    && forall j :: 0 <= j < k ==> !steps[j].ArriveStep?
  }

  lemma InitReady(s: State)
    requires Init(s)
    ensures s.clock.firstReady.None?
  {
  }

  lemma StepKeepsReady(s: State, step: Step)
    requires Enabled(s, step)
    ensures Next(s, step).clock.firstReady ==
            if step.ArriveStep? && s.clock.firstReady.None? then Some(s.now) else s.clock.firstReady
  {
  }

  /** In every run the clock's time of the first arrival is the time at which the first stream arrived. */
  lemma {:induction false} ReadySinceFirstArrival(states: seq<State>, steps: seq<Step>, n: nat)
    requires IsRun(states, steps) && n < |states|
    ensures var ready := states[n].clock.firstReady;
            && (ready.None? <==> forall j :: 0 <= j < n ==> !steps[j].ArriveStep?)
            && (ready.Some? ==> exists k :: 0 <= k < n && IsFirstArrival(steps, k) && ready.value == states[k].now)
  {
    hide Next, Enabled, Init;
    if n == 0 {
      InitReady(states[0]);
    } else {
      ReadySinceFirstArrival(states, steps, n - 1);
      StepKeepsReady(states[n - 1], steps[n - 1]);
      if states[n - 1].clock.firstReady.None? && steps[n - 1].ArriveStep? {
        assert IsFirstArrival(steps, n - 1);
      }
    }
  }

  /**
   A stop releases every waiter: from then on no stream is asleep, and whoever has not yet left WaitForStart
   leaves it with false on its next turn.
   */
  lemma {:induction false} StopReleases(states: seq<State>, steps: seq<Step>, n: nat, i: nat)
    requires IsRun(states, steps) && n < |states| && states[n].stop && i < |states[n].streams|
    ensures !states[n].streams[i].Asleep?
    ensures states[n].streams[i].Woken? ==>
              Enabled(states[n], ResumeStep(i)) && Next(states[n], ResumeStep(i)).streams[i].Stopped?
  {
    if n > 0 && states[n - 1].stop { StopReleases(states, steps, n - 1, i); }
  }

  /**
   Once every stream has arrived or finished, or playback has started, no waiter stays blocked: each is
   awake, and its next turn returns true.
   */
  lemma NoWaiterStaysBlocked(states: seq<State>, steps: seq<Step>, i: nat)
    requires IsRun(states, steps) && !states[|steps|].stop
    requires var s := states[|steps|];
             && (AllSettled(s.streams) || s.clock.started)
             && i < |s.streams| && HasArrived(s.streams[i])
    ensures var s := states[|steps|];
            && !s.streams[i].Asleep?
            && (s.streams[i].Woken? ==> Next(s, ResumeStep(i)).streams[i].Released?)
  {
    RunInv(states, steps, |steps|);
    SettledBound(states[|steps|].streams);
  }

  lemma OneMoreStep(states: seq<State>, steps: seq<Step>, step: Step)
    requires IsRun(states, steps) && Enabled(states[|steps|], step)
    ensures IsRun(states + [Next(states[|steps|], step)], steps + [step])
  {
    hide Next, Enabled, Init;
    var longer, more := states + [Next(states[|steps|], step)], steps + [step];
    forall j | 0 <= j < |more| ensures Enabled(longer[j], more[j]) && longer[j + 1] == Next(longer[j], more[j]) {
      if j < |steps| { assert longer[j] == states[j] && longer[j + 1] == states[j + 1] && more[j] == steps[j]; }
    }
  }

  /**
   Whatever the other streams do, once the timeout after the first arrival has passed every waiter can go on by
   itself: the run continues, with steps of that stream alone, to a state in which WaitForStart has returned true.
   */
  lemma TimeoutReleases(states: seq<State>, steps: seq<Step>, i: nat) returns (states': seq<State>, steps': seq<Step>)
    requires IsRun(states, steps) && !states[|steps|].stop
    requires i < |states[|steps|].streams| && HasArrived(states[|steps|].streams[i])
    requires forall k :: IsFirstArrival(steps, k) ==>
               states[|steps|].now >= states[k].now + states[|steps|].clock.startTimeout
    ensures IsRun(states', steps') && states <= states' && steps <= steps'
    ensures forall j :: |steps| <= j < |steps'| ==> steps'[j] == WakeStep(i) || steps'[j] == ResumeStep(i)
    ensures var s := states'[|steps'|]; |s.streams| > i && s.streams[i].Released? && s.clock.started
  {
    states', steps' := states, steps;
    RunInv(states, steps, |steps|);
    ReadySinceFirstArrival(states, steps, |steps|);
    var s := states[|steps|];
    assert Any(s.streams, HasArrived);
    if s.streams[i].Asleep? {
      OneMoreStep(states', steps', WakeStep(i));
      s := Next(s, WakeStep(i));
      states', steps' := states' + [s], steps' + [WakeStep(i)];
    }
    if s.streams[i].Woken? {
      OneMoreStep(states', steps', ResumeStep(i));
      states', steps' := states' + [Next(s, ResumeStep(i))], steps' + [ResumeStep(i)];
    }
  }
}
