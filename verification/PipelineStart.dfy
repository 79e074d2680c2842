/** How the presenters use the presentation clock: who is waited for at the start, and who leads afterwards. */
module PipelineStart {
  import opened Options
  import opened Clock
  import opened Pipeline
  import opened PipelineSafety
  import PipelineFlow

  /** The stream's presenter has called WaitForStart. */
  predicate Arrived(st: Stream) {
    st.present && (st.started || st.show.WaitingForStart?)
  }

  /** The stream ended without a single frame, and called StreamFinished instead. */
  predicate EndedEmpty(st: Stream) {
    st.present && st.show.PresentEnded? && !st.started
  }

  function One(b: bool): nat {
    if b then 1 else 0
  }

  /** The clock waits for exactly the streams that are still to come, and its leader is audio as long as that lasts. */
  ghost predicate Waits(s: State) {
    var c := s.shared.clock;
    && c.ready == One(Arrived(s.video)) + One(Arrived(s.audio))
    && c.expected == One(s.video.present && !EndedEmpty(s.video)) + One(s.audio.present && !EndedEmpty(s.audio))
    && (s.shared.audioPresenting <==> s.audio.present && !s.audio.show.PresentEnded?)
    && s.shared.audioLastSent == s.audio.lastSent
  }

  // ---------------------------------------------------------------- every step keeps it

  lemma PresentStepWaits(s: State, k: Kind, act: PresentAct)
    requires Waits(s) && Shape(s) && !s.shared.stop && !act.PresentThrows?
    requires PresentEnabled(Get(s, k), k, s.shared, act)
    ensures Waits(Next(s, PresentStep(k, act)))
  {
  }

  lemma DemuxStepWaits(s: State, act: DemuxAct)
    requires Waits(s) && DemuxEnabled(s, act)
    ensures Waits(DemuxNext(s, act))
  {
    PipelineFlow.DemuxFrames(s, act, Video);
    PipelineFlow.DemuxFrames(s, act, Audio);
    DemuxKeepsClock(s, act);
  }

  lemma DemuxKeepsClock(s: State, act: DemuxAct)
    requires DemuxEnabled(s, act)
    ensures DemuxNext(s, act).shared == s.shared.(stop := s.shared.stop || act.DemuxThrows?)
  {
  }

  lemma StepWaits(s: State, step: Step)
    requires Waits(s) && Shape(s) && Enabled(s, step) && !Next(s, step).shared.stop && !s.shared.stop
    ensures Waits(Next(s, step))
  {
    match step
    case DemuxStep(act) => DemuxStepWaits(s, act);
    case DecodeStep(k, act) =>
    case PresentStep(k, act) => PresentStepWaits(s, k, act);
    case _ =>
  }

  lemma {:induction false} RunWaits(states: seq<State>, steps: seq<Step>, n: nat)
    requires IsRun(states, steps) && n < |states| && !states[n].shared.stop
    ensures Waits(states[n])
  {
    hide Next, Enabled;
    if n > 0 {
      PipelineFlow.StepKeepsStop(states[n - 1], steps[n - 1], Video);
      RunWaits(states, steps, n - 1);
      RunShape(states, steps, n - 1);
      StepWaits(states[n - 1], steps[n - 1]);
    }
  }

  // ---------------------------------------------------------------- what that means

  /**
   In every unstopped run, a presenter that waits for the start waits for the other stream and for nothing else:
   it may go on if and only if playback has started, the other stream does not exist, has arrived or has ended, or
   half a second has passed since the first arrival. What it goes on to is its first frame, with playback started.
   */
  lemma WaitsOnlyForTheOtherStream(states: seq<State>, steps: seq<Step>, k: Kind)
    requires IsRun(states, steps) && !states[|steps|].shared.stop && Get(states[|steps|], k).show.WaitingForStart?
    ensures var s := states[|steps|];
            var st, other, c := Get(s, k), Get(s, Other(k)), s.shared.clock;
            && c.firstReady.Some?
            && (PresentEnabled(st, k, s.shared, ResumeStart) <==>
                  || c.started || !other.present || other.show.WaitingForStart? || other.show.PresentEnded?
                  || s.shared.now >= c.firstReady.value + c.startTimeout)
            && (PresentEnabled(st, k, s.shared, ResumeStart) ==>
                  var t := Next(s, PresentStep(k, ResumeStart));
                  && t.shared.clock.started && Get(t, k).started && Hand(Get(t, k).show) == [st.show.frame])
  {
    RunWaits(states, steps, |steps|);
    RunShape(states, steps, |steps|);
  }

  /** After a stop it may go on at once, and leaves without touching the clock. */
  lemma StoppedWaiterLeaves(s: State, k: Kind)
    requires s.shared.stop && Get(s, k).show.WaitingForStart?
    ensures PresentEnabled(Get(s, k), k, s.shared, ResumeStart)
    ensures var t := Next(s, PresentStep(k, ResumeStart));
            Get(t, k) == Get(s, k).(show := Leaving) && t.shared == s.shared
  {
  }

  /**
   In every unstopped run, video may move the clock if and only if there is no audio, audio's presenter has ended, it
   has sent nothing yet, or its last block went out a second ago or earlier.
   */
  lemma VideoLeads(states: seq<State>, steps: seq<Step>)
    requires IsRun(states, steps) && !states[|steps|].shared.stop
    ensures var s := states[|steps|];
            !AudioIsMaster(s.shared) <==>
              || !s.audio.present || s.audio.show.PresentEnded?
              || s.audio.lastSent == 0 || s.shared.now - s.audio.lastSent >= SECOND
  {
    RunWaits(states, steps, |steps|);
  }
}
