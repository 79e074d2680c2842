/** Timecodes: the clock as the two presenters use it, over whole runs. */
module PipelineTiming {
  import opened Options
  import opened Clock
  import opened Pipeline
  import opened PipelineSafety
  import opened PipelineFlow

  // ---------------------------------------------------------------- the record of what was sent

  type SentFrame = o: Outcome | o.Sent? witness Sent(Frame(0, 0, 0), 0, 0, 0)

  /** The latest frame that was sent, frames dropped since left aside. */
  function LastSent(outcomes: seq<Outcome>): Option<SentFrame> {
    if outcomes == [] then None
    else if outcomes[|outcomes| - 1].Sent? then Some(outcomes[|outcomes| - 1])
    else LastSent(outcomes[..|outcomes| - 1])
  }

  /** From one frame sent to the next, timecodes do not go back unless timestamps do. */
  ghost predicate Ordered(outcomes: seq<Outcome>) {
    outcomes != [] ==>
      var n := |outcomes| - 1;
      var before := LastSent(outcomes[..n]);
      && Ordered(outcomes[..n])
      && (outcomes[n].Sent? && before.Some? && before.value.frame.pts <= outcomes[n].frame.pts ==>
            before.value.timecode <= outcomes[n].timecode)
  }

  lemma {:induction false} LastSentBefore(outcomes: seq<Outcome>, i: nat, j: nat)
    requires i < j <= |outcomes| && outcomes[i].Sent? && forall k :: i < k < j ==> outcomes[k].Dropped?
    ensures LastSent(outcomes[..j]) == Some(outcomes[i])
  {
    assert outcomes[..j][..j - 1] == outcomes[..j - 1];
    if i + 1 < j { LastSentBefore(outcomes, i, j - 1); }
  }

  lemma {:induction false} OrderedAt(outcomes: seq<Outcome>, n: nat, i: nat, j: nat)
    requires n <= |outcomes| && Ordered(outcomes[..n])
    requires i < j < n && outcomes[i].Sent? && outcomes[j].Sent? && forall k :: i < k < j ==> outcomes[k].Dropped?
    requires outcomes[i].frame.pts <= outcomes[j].frame.pts
    ensures outcomes[i].timecode <= outcomes[j].timecode
  {
    assert outcomes[..n][..n - 1] == outcomes[..n - 1];
    if j < n - 1 { OrderedAt(outcomes, n - 1, i, j); } else { LastSentBefore(outcomes, i, j); }
  }

  lemma Append(outcomes: seq<Outcome>, o: Outcome)
    ensures LastSent(outcomes + [o]) == if o.Sent? then Some(o) else LastSent(outcomes)
    ensures Ordered(outcomes) &&
            (o.Sent? && LastSent(outcomes).Some? && LastSent(outcomes).value.frame.pts <= o.frame.pts ==>
               LastSent(outcomes).value.timecode <= o.timecode)
            ==> Ordered(outcomes + [o])
  {
    assert (outcomes + [o])[..|outcomes|] == outcomes;
  }

  // ---------------------------------------------------------------- the invariant of one stream

  /** The clock is anchored to UTC, and time is after 1970. */
  ghost predicate ClockSane(sh: Shared) {
    && Anchored(sh.clock) && sh.clock.preroll >= 0
    && sh.now > 0 && UtcNs(sh.clock, sh.now) >= 0
  }

  /** What is known of the last frame sent: its timecode is the UTC time of the deadline it had. */
  ghost predicate SentProperly(o: SentFrame, sh: Shared) {
    && o.timecode == UtcNs(sh.clock, o.due) / 100
    && 0 < o.at <= sh.now
    && (sh.config.pacing ==> o.due <= o.at)
  }

  /** The clock has not moved back past that deadline since, unless so long ago that others may be master. */
  ghost predicate Held(o: Option<SentFrame>, sh: Shared) {
    o.Some? ==>
      || DueTime(sh.clock, o.value.frame.pts) >= o.value.due
      || (sh.config.pacing && sh.now - o.value.at >= AUDIO_MASTER_IDLE)
  }

  /** A frame with deadline `due` may be sent after `o`. */
  ghost predicate After(o: Option<SentFrame>, frame: Frame, due: int) {
    o.Some? && o.value.frame.pts <= frame.pts ==> o.value.due <= due
  }

  /** Between finding a frame due, or the clock in need of a resync, and recording that it was sent. */
  predicate Underway(show: PresentStage) {
    show.Moving? || show.Stamping? || show.Stamped?
  }

  ghost predicate ShowTiming(show: PresentStage, sh: Shared, o: Option<SentFrame>) {
    match show
    case Moving(_, when) => sh.config.pacing && (o.Some? ==> o.value.at <= when)
    case Stamping(frame) =>
      var due := DueTime(sh.clock, frame.pts);
      (sh.config.pacing ==> due <= sh.now) && After(o, frame, due)
    case Stamped(frame, timecode, due) =>
      && due == DueTime(sh.clock, frame.pts) && timecode == UtcNs(sh.clock, due) / 100
      && (sh.config.pacing ==> due <= sh.now) && After(o, frame, due)
    case PresentEnded => true
    case _ => Held(o, sh) && (show.Examining? || show.Deciding? || show.WaitingUntilDue? ==> sh.config.pacing)
  }

  /** The instant of a resync yet to be carried out lies in the past, but after 1970. */
  ghost predicate MoveSane(show: PresentStage, sh: Shared) {
    show.Moving? ==> show.when <= sh.now && UtcNs(sh.clock, show.when) >= 0
  }

  ghost predicate Timing(st: Stream, sh: Shared) {
    var o := LastSent(st.log.outcomes);
    && ClockSane(sh) && MoveSane(st.show, sh)
    && Ordered(st.log.outcomes)
    && (o.Some? ==> sh.clock.started && SentProperly(o.value, sh))
    && ShowTiming(st.show, sh, o)
  }

  /** This stream is a master whenever it wants to be: it is audio, or there is no audio. */
  predicate Leads(kind: Kind, sh: Shared) {
    kind == Audio || !sh.audioPresenting
  }

  lemma TimecodeOfDue(c: Clock, pts: int)
    requires Anchored(c) && c.started
    ensures Timecode(c, pts) == UtcNs(c, DueTime(c, pts)) / 100
  {
    var offset := pts - c.originUs;
    assert (UtcNs(c, c.epoch) + offset * 1000) / 100 == UtcNs(c, c.epoch) / 100 + offset * 10;
  }

  // ---------------------------------------------------------------- its own steps

  /**
   The heart of it: when a leading stream finds a frame due, its deadline is not before that of the last one
   sent, whoever moved the clock in between. The idle limit has to be at least the late limit for that.
   */
  lemma DueGrows(o: SentFrame, sh: Shared, pts: int)
    requires o.frame.pts <= pts && SentProperly(o, sh) && Held(Some(o), sh)
    requires sh.config.pacing ==> sh.now - RESYNC_LATE <= DueTime(sh.clock, pts)
    ensures o.due <= DueTime(sh.clock, pts)
  {
    TimecodeMonotone(sh.clock, o.frame.pts, pts);
  }

  lemma TestTiming(st: Stream, kind: Kind, sh: Shared)
    requires Timing(st, sh) && Leads(kind, sh) && PresentEnabled(st, kind, sh, TestDue)
    ensures var sh' := PresentShared(st, kind, sh, TestDue); Timing(PresentStream(st, kind, sh, TestDue, sh'), sh')
  {
    var o, pts := LastSent(st.log.outcomes), st.show.frame.pts;
    if !MustResync(st, kind, sh) && o.Some? && o.value.frame.pts <= pts { DueGrows(o.value, sh, pts); }
  }

  lemma MoveTiming(st: Stream, kind: Kind, sh: Shared)
    requires Timing(st, sh) && PresentEnabled(st, kind, sh, MoveClock)
    ensures var sh' := PresentShared(st, kind, sh, MoveClock); Timing(PresentStream(st, kind, sh, MoveClock, sh'), sh')
  {
    ResyncAnchored(sh.clock, st.show.frame.pts, st.show.when);
  }

  lemma StampTiming(st: Stream, kind: Kind, sh: Shared)
    requires Timing(st, sh) && ClockShape(st, sh.clock) && PresentEnabled(st, kind, sh, StampFrame)
    ensures Timing(PresentStream(st, kind, sh, StampFrame, sh), sh)
  {
    TimecodeOfDue(sh.clock, st.show.frame.pts);
  }

  lemma SendTiming(st: Stream, kind: Kind, sh: Shared)
    requires Timing(st, sh) && ClockShape(st, sh.clock) && PresentEnabled(st, kind, sh, SendFrame)
    ensures var sh' := PresentShared(st, kind, sh, SendFrame); Timing(PresentStream(st, kind, sh, SendFrame, sh'), sh')
  {
    hide Ordered, LastSent;
    var Stamped(frame, timecode, due) := st.show;
    Append(st.log.outcomes, Sent(frame, timecode, sh.now, due));
  }

  lemma DecideTiming(st: Stream, kind: Kind, sh: Shared)
    requires Timing(st, sh) && PresentEnabled(st, kind, sh, Decide)
    ensures Timing(PresentStream(st, kind, sh, Decide, sh), sh)
  {
    hide Ordered, LastSent;
    Append(st.log.outcomes, Dropped(st.show.frame, st.show.exam, st.lastSent, |st.frames.items|));
  }

  /** Neither arrivals nor finishes move a started clock, and a start anchors it. */
  lemma QuietPresent(st: Stream, kind: Kind, sh: Shared, act: PresentAct)
    requires ClockSane(sh) && PresentEnabled(st, kind, sh, act) && !act.MoveClock?
    ensures var sh' := PresentShared(st, kind, sh, act);
            && Anchored(sh'.clock) && SameButForStart(sh, sh')
            && ((act.SendFrame? && kind == Audio) || sh'.audioLastSent == sh.audioLastSent)
            && (!sh'.audioPresenting ==> !sh.audioPresenting || (kind == Audio && act.Leave?))
  {
  }

  /** Only the start moves the clock. */
  ghost predicate SameButForStart(sh: Shared, sh': Shared) {
    && sh'.config == sh.config && sh'.now >= sh.now
    && sh'.clock.utcOffset == sh.clock.utcOffset && sh'.clock.preroll == sh.clock.preroll
    && (sh.clock.started ==> sh'.clock.started && sh'.clock.epoch == sh.clock.epoch
                             && sh'.clock.originUs == sh.clock.originUs)
  }

  lemma LeaveTiming(st: Stream, kind: Kind, sh: Shared, act: PresentAct)
    requires Timing(st, sh) && PresentEnabled(st, kind, sh, act)
    requires act.Examine? || act.Interrupted? || act.Leave? || act.PresentThrows?
    ensures var sh' := PresentShared(st, kind, sh, act); Timing(PresentStream(st, kind, sh, act, sh'), sh')
  {
    hide Ordered, LastSent;
    QuietPresent(st, kind, sh, act);
  }

  /** A start moves no clock that a frame was sent by. */
  lemma HeldStays(o: Option<SentFrame>, sh: Shared, sh': Shared)
    requires SameButForStart(sh, sh') && (o.Some? ==> sh.clock.started && SentProperly(o.value, sh)) && Held(o, sh)
    ensures Held(o, sh') && (o.Some? ==> SentProperly(o.value, sh'))
  {
  }

  lemma HeldAllowsNext(o: Option<SentFrame>, sh: Shared, frame: Frame)
    requires Held(o, sh) && !sh.config.pacing
    ensures After(o, frame, DueTime(sh.clock, frame.pts))
  {
    if o.Some? && o.value.frame.pts <= frame.pts { TimecodeMonotone(sh.clock, o.value.frame.pts, frame.pts); }
  }

  /** Taking a frame and starting; without pacing the frame goes on to its timecode at once. */
  lemma TakeTiming(st: Stream, kind: Kind, sh: Shared, act: PresentAct)
    requires Timing(st, sh) && PresentEnabled(st, kind, sh, act)
    requires act.TakeNext? || act.ArriveFirst? || act.ResumeStart?
    ensures var sh' := PresentShared(st, kind, sh, act); Timing(PresentStream(st, kind, sh, act, sh'), sh')
  {
    QuietPresent(st, kind, sh, act);
    hide Ordered, LastSent, SentProperly, Held, After, DueTime, Poll, Arrive;
    var sh' := PresentShared(st, kind, sh, act);
    var show' := PresentStream(st, kind, sh, act, sh').show;
    var o := LastSent(st.log.outcomes);
    HeldStays(o, sh, sh');
    if show'.Stamping? { HeldAllowsNext(o, sh', show'.frame); }
  }

  lemma OwnTiming(st: Stream, kind: Kind, sh: Shared, act: PresentAct)
    requires Timing(st, sh) && ClockShape(st, sh.clock) && Leads(kind, sh) && PresentEnabled(st, kind, sh, act)
    ensures var sh' := PresentShared(st, kind, sh, act); Timing(PresentStream(st, kind, sh, act, sh'), sh')
  {
    match act
    case TestDue => TestTiming(st, kind, sh);
    case MoveClock => MoveTiming(st, kind, sh);
    case StampFrame => StampTiming(st, kind, sh);
    case SendFrame => SendTiming(st, kind, sh);
    case Decide => DecideTiming(st, kind, sh);
    case TakeNext => TakeTiming(st, kind, sh, act);
    case ArriveFirst => TakeTiming(st, kind, sh, act);
    case ResumeStart => TakeTiming(st, kind, sh, act);
    case _ => LeaveTiming(st, kind, sh, act);
  }

  // ---------------------------------------------------------------- steps of others

  /** A step that moves the clock only by starting it does not disturb the stream. */
  lemma QuietTiming(st: Stream, sh: Shared, st': Stream, sh': Shared)
    requires Timing(st, sh) && ClockShape(st, sh.clock) && SameButForStart(sh, sh') && Anchored(sh'.clock)
    requires st'.show == st.show && st'.log.outcomes == st.log.outcomes
    ensures Timing(st', sh')
  {
  }

  /** Nor does a resync by another stream, if this one has been idle and is not sending. */
  lemma MovedTiming(st: Stream, sh: Shared, pts: int, when: int)
    requires Timing(st, sh) && !Underway(st.show) && UtcNs(sh.clock, when) >= 0
    requires var o := LastSent(st.log.outcomes);
             st.show.PresentEnded? || o.None? || (sh.config.pacing && sh.now - o.value.at >= AUDIO_MASTER_IDLE)
    ensures Timing(st, sh.(clock := Resync(sh.clock, pts, when)))
  {
    ResyncAnchored(sh.clock, pts, when);
  }

  // ---------------------------------------------------------------- audio next to video

  /** What video's steps look at: the time of the last audio send, and whether audio is still presenting. */
  ghost predicate AudioShared(audio: Stream, sh: Shared) {
    var o := LastSent(audio.log.outcomes);
    && (forall p <- audio.log.outcomes :: p.Sent?) && !audio.show.Examining? && !audio.show.Deciding?
    && sh.audioLastSent == (if o.None? then 0 else o.value.at)
    && (!sh.audioPresenting ==> audio.show.PresentEnded?)
  }

  /** Video is about to move the clock because it found audio not to be the master. */
  ghost predicate VideoMoves(video: Stream, sh: Shared) {
    && MoveSane(video.show, sh)
    && (video.show.WaitingUntilDue? || video.show.Examining? || video.show.Deciding? || video.show.Moving? ==>
          sh.config.pacing)
    && (video.show.Moving? ==>
          !sh.audioPresenting || sh.audioLastSent == 0 || sh.now - sh.audioLastSent >= AUDIO_MASTER_IDLE)
  }

  ghost predicate AudioTiming(s: State) {
    Timing(s.audio, s.shared) && AudioShared(s.audio, s.shared) && VideoMoves(s.video, s.shared)
  }

  /** No resync by video is pending, from its test to its Resync, while audio is sending a block. */
  predicate Separate(s: State) {
    !(s.video.show.Moving? && Underway(s.audio.show))
  }

  lemma AudioStepShared(audio: Stream, sh: Shared, act: PresentAct)
    requires ClockSane(sh) && AudioShared(audio, sh) && PresentEnabled(audio, Audio, sh, act)
    ensures var sh' := PresentShared(audio, Audio, sh, act); AudioShared(PresentStream(audio, Audio, sh, act, sh'), sh')
  {
    hide Ordered, LastSent;
    if act.SendFrame? {
      var Stamped(frame, timecode, due) := audio.show;
      Append(audio.log.outcomes, Sent(frame, timecode, sh.now, due));
    }
  }

  lemma AudioStepVideo(audio: Stream, video: Stream, sh: Shared, act: PresentAct)
    requires VideoMoves(video, sh) && PresentEnabled(audio, Audio, sh, act)
    requires !(video.show.Moving? && Underway(audio.show))
    ensures VideoMoves(video, PresentShared(audio, Audio, sh, act))
  {
  }

  lemma VideoStepVideo(video: Stream, sh: Shared, act: PresentAct)
    requires ClockSane(sh) && VideoMoves(video, sh) && PresentEnabled(video, Video, sh, act)
    ensures var sh' := PresentShared(video, Video, sh, act); VideoMoves(PresentStream(video, Video, sh, act, sh'), sh')
  {
  }

  lemma VideoStepAudio(audio: Stream, video: Stream, sh: Shared, act: PresentAct)
    requires Timing(audio, sh) && AudioShared(audio, sh) && VideoMoves(video, sh) && ClockShape(audio, sh.clock)
    requires PresentEnabled(video, Video, sh, act) && !(video.show.Moving? && Underway(audio.show))
    ensures var sh' := PresentShared(video, Video, sh, act); Timing(audio, sh') && AudioShared(audio, sh')
  {
    if act.MoveClock? {
      MovedTiming(audio, sh, video.show.frame.pts, video.show.when);
    } else {
      QuietPresent(video, Video, sh, act);
      QuietTiming(audio, sh, audio, PresentShared(video, Video, sh, act));
    }
  }

  /** A step that is no presenter's leaves the clock and the presenters alone. */
  lemma QuietStep(s: State, step: Step)
    requires Enabled(s, step) && !step.PresentStep?
    ensures var s' := Next(s, step);
            && s'.video.show == s.video.show && s'.video.log.outcomes == s.video.log.outcomes
            && s'.audio.show == s.audio.show && s'.audio.log.outcomes == s.audio.log.outcomes
            && s'.shared == s.shared.(now := s'.shared.now, stop := s'.shared.stop) && s'.shared.now >= s.shared.now
  {
    if step.DemuxStep? {
      DemuxFrames(s, step.demux, Audio);
      DemuxFrames(s, step.demux, Video);
    }
  }

  lemma StepTiming(s: State, step: Step)
    requires Shape(s) && Enabled(s, step) && AudioTiming(s) && Separate(s)
    ensures AudioTiming(Next(s, step))
  {
    hide Timing, AudioShared, VideoMoves, Shape;
    match step
    case PresentStep(k, act) => PresentStepTiming(s, k, act);
    case _ => QuietStepTiming(s, step);
  }

  lemma PresentStepTiming(s: State, k: Kind, act: PresentAct)
    requires Shape(s) && Enabled(s, PresentStep(k, act)) && AudioTiming(s) && Separate(s)
    ensures AudioTiming(Next(s, PresentStep(k, act)))
  {
    assert ClockSane(s.shared);
    if k == Audio {
      OwnTiming(s.audio, Audio, s.shared, act);
      AudioStepShared(s.audio, s.shared, act);
      AudioStepVideo(s.audio, s.video, s.shared, act);
    } else {
      VideoStepAudio(s.audio, s.video, s.shared, act);
      VideoStepVideo(s.video, s.shared, act);
    }
  }

  lemma QuietStepTiming(s: State, step: Step)
    requires Shape(s) && Enabled(s, step) && AudioTiming(s) && !step.PresentStep?
    ensures AudioTiming(Next(s, step))
  {
    hide Next, Enabled;
    QuietStep(s, step);
    QuietTiming(s.audio, s.shared, Next(s, step).audio, Next(s, step).shared);
  }

  lemma {:induction false} RunTiming(states: seq<State>, steps: seq<Step>, n: nat)
    requires IsRun(states, steps) && n < |states| && forall i :: 0 <= i < n ==> Separate(states[i])
    ensures AudioTiming(states[n])
  {
    if n > 0 {
      RunTiming(states, steps, n - 1);
      RunShape(states, steps, n - 1);
      StepTiming(states[n - 1], steps[n - 1]);
    }
  }

  /**
   Audio timecodes never go backward: in any run in which no resync by video is pending while audio sends a
   block, a block whose timestamp is not less than its predecessor's has no lesser timecode either; across
   audio resyncs, and across video taking over as master and moving the clock either way. PipelineRaces shows
   runs that do overlap, and do go backward.
   */
  lemma AudioTimecodesNeverGoBackward(states: seq<State>, steps: seq<Step>, i: nat)
    requires IsRun(states, steps) && forall n :: 0 <= n < |steps| ==> Separate(states[n])
    requires i + 1 < |states[|steps|].audio.log.outcomes|
    requires var o := states[|steps|].audio.log.outcomes; o[i].frame.pts <= o[i + 1].frame.pts
    ensures var o := states[|steps|].audio.log.outcomes;
            o[i].Sent? && o[i + 1].Sent? && o[i].timecode <= o[i + 1].timecode
  {
    RunTiming(states, steps, |steps|);
    var o := states[|steps|].audio.log.outcomes;
    assert o[..|o|] == o && o[i] in o && o[i + 1] in o;
    OrderedAt(o, |o|, i, i + 1);
  }

  /** The least timestamp, from that of `o` on, that audio would not resync for if it tested it now. */
  function Earliest(o: SentFrame, sh: Shared): int {
    var pts := sh.clock.originUs - (sh.clock.epoch - (sh.now - RESYNC_LATE)) / US;
    if pts >= o.frame.pts then pts else o.frame.pts
  }

  lemma EarliestIsLeast(o: SentFrame, sh: Shared, pts: int)
    requires pts >= o.frame.pts && sh.now - DueTime(sh.clock, pts) <= RESYNC_LATE
    ensures pts >= Earliest(o, sh) && sh.now - DueTime(sh.clock, Earliest(o, sh)) <= RESYNC_LATE
  {
  }

  /**
   In any state, runs that overlap included, some next block would go backward if audio tested and sent it now, if
   and only if the clock gives the least timestamp audio accepts a lesser timecode than the last block had. A
   block that makes audio resync never goes back.
   */
  lemma NextBlockCanGoBack(o: SentFrame, sh: Shared)
    requires ClockSane(sh) && sh.clock.started && sh.config.pacing && SentProperly(o, sh)
    ensures (exists pts :: pts >= o.frame.pts && Wait(sh, pts, true) == DueNow && Timecode(sh.clock, pts) < o.timecode)
            <==> Timecode(sh.clock, Earliest(o, sh)) < o.timecode
    ensures forall pts :: Timecode(Resync(sh.clock, pts, sh.now), pts) >= o.timecode
  {
    if pts :| pts >= o.frame.pts && Wait(sh, pts, true) == DueNow && Timecode(sh.clock, pts) < o.timecode {
      EarliestIsLeast(o, sh, pts);
      TimecodeMonotone(sh.clock, Earliest(o, sh), pts);
    }
    if Timecode(sh.clock, Earliest(o, sh)) < o.timecode {
      TimecodeOfDue(sh.clock, Earliest(o, sh));
      assert Wait(sh, Earliest(o, sh), true) == DueNow;
    }
    forall pts ensures Timecode(Resync(sh.clock, pts, sh.now), pts) >= o.timecode {
      ResyncAnchored(sh.clock, pts, sh.now);
      TimecodeOfDue(Resync(sh.clock, pts, sh.now), pts);
    }
  }

  // ---------------------------------------------------------------- a stream on its own

  ghost predicate SoloTiming(s: State, k: Kind) {
    Timing(Get(s, k), s.shared) && !Get(s, Other(k)).present && Leads(k, s.shared)
  }

  lemma StepSoloTiming(s: State, step: Step, k: Kind)
    requires Shape(s) && Enabled(s, step) && SoloTiming(s, k)
    ensures SoloTiming(Next(s, step), k)
  {
    hide Ordered, LastSent, ShowTiming, SentProperly, MoveSane;
    match step
    case PresentStep(kind, act) => if kind == k { OwnTiming(Get(s, k), k, s.shared, act); }
    case _ => QuietStepSoloTiming(s, step, k);
  }

  lemma QuietStepSoloTiming(s: State, step: Step, k: Kind)
    requires Shape(s) && Enabled(s, step) && SoloTiming(s, k) && !step.PresentStep?
    ensures SoloTiming(Next(s, step), k)
  {
    QuietStep(s, step);
    QuietTiming(Get(s, k), s.shared, Get(Next(s, step), k), Next(s, step).shared);
    if step.DemuxStep? { DemuxFrames(s, step.demux, Other(k)); }
  }

  lemma {:induction false} RunSoloTiming(states: seq<State>, steps: seq<Step>, n: nat, k: Kind)
    requires IsRun(states, steps) && n < |states| && !Get(states[0], Other(k)).present
    ensures SoloTiming(states[n], k)
  {
    hide Next, Enabled;
    if n > 0 {
      RunSoloTiming(states, steps, n - 1, k);
      RunShape(states, steps, n - 1);
      StepSoloTiming(states[n - 1], steps[n - 1], k);
    }
  }

  /**
   Without audio, video's own timecodes never go backward either, in any run: from each frame sent to the next
   one sent, dropped frames between them left aside.
   */
  lemma VideoTimecodesNeverGoBackward(states: seq<State>, steps: seq<Step>, i: nat, j: nat)
    requires IsRun(states, steps) && !states[0].audio.present
    requires i < j < |states[|steps|].video.log.outcomes|
    requires var o := states[|steps|].video.log.outcomes;
             && o[i].Sent? && o[j].Sent? && (forall k :: i < k < j ==> o[k].Dropped?)
             && o[i].frame.pts <= o[j].frame.pts
    ensures var o := states[|steps|].video.log.outcomes; o[i].timecode <= o[j].timecode
  {
    RunSoloTiming(states, steps, |steps|, Video);
    var o := states[|steps|].video.log.outcomes;
    assert o[..|o|] == o;
    OrderedAt(o, |o|, i, j);
  }

  // ---------------------------------------------------------------- what a resync does

  /** Every resync, however stale, shifts all timecodes alike: by UTC at `when` less UTC at the old deadline. */
  lemma ResyncShiftsTimecodes(c: Clock, moved: int, when: int, pts: int)
    requires Anchored(c) && c.started && UtcNs(c, when) >= 0
    ensures Timecode(Resync(c, moved, when), pts) - Timecode(c, pts)
            == UtcNs(c, when) / 100 - UtcNs(c, DueTime(c, moved)) / 100
  {
    TimecodeOfDue(c, moved);
  }

  /**
   So a resync moves timecodes backward exactly when it was decided for a live input that ran far ahead, and
   then by five seconds or more, given that nothing else moved the clock since the decision. Video, as slave,
   follows.
   */
  lemma EarlyResyncMovesTimecodesBack(st: Stream, kind: Kind, sh: Shared, moving: Stream, later: Shared, pts: int)
    requires ClockSane(sh) && sh.clock.started && PresentEnabled(st, kind, sh, TestDue) && MustResync(st, kind, sh)
    requires moving == PresentStream(st, kind, sh, TestDue, sh) && later.clock == sh.clock
    ensures var c, c' := sh.clock, PresentShared(moving, kind, later, MoveClock).clock;
            var early := DueTime(c, st.show.frame.pts) > sh.now;
            && (Timecode(c', pts) < Timecode(c, pts) <==> early)
            && (early ==> sh.config.live && Timecode(c', pts) <= Timecode(c, pts) - RESYNC_EARLY / 100)
  {
    ResyncShiftsTimecodes(sh.clock, st.show.frame.pts, sh.now, pts);
  }

  // ---------------------------------------------------------------- what the test finds

  /**
   The test of a waiting presenter, in the clock's terms. It calls for a resync if and only if the stream is the
   master (audio is, and video while audio is not presenting, has sent nothing yet, or nothing for a second) and the
   frame is more than a second late, or more than five seconds early on a live input. Otherwise the frame goes
   out if it is due, and else the presenter waits.
   */
  lemma DueTestIsExact(st: Stream, kind: Kind, sh: Shared)
    requires st.show.WaitingUntilDue?
    ensures var frame, late := st.show.frame, sh.now - DueTime(sh.clock, st.show.frame.pts);
            var master := || kind == Audio || !sh.audioPresenting || sh.audioLastSent == 0
                          || sh.now - sh.audioLastSent >= SECOND;
            var resync := master && (late > SECOND || (sh.config.live && -late > 5 * SECOND));
            && (PresentEnabled(st, kind, sh, TestDue) <==> resync || late >= 0)
            && (PresentEnabled(st, kind, sh, TestDue) ==>
                  var sh' := PresentShared(st, kind, sh, TestDue);
                  && sh' == sh.(resyncs := if resync then sh.resyncs + 1 else sh.resyncs)
                  && PresentStream(st, kind, sh, TestDue, sh').show
                     == if resync then Moving(frame, sh.now) else Stamping(frame))
  {
  }

  /** A resync that is pending will move the clock forward, by more than a second. */
  ghost predicate MovesForward(st: Stream, sh: Shared) {
    st.show.Moving? ==> st.show.when - DueTime(sh.clock, st.show.frame.pts) > SECOND
  }

  ghost predicate FileTiming(s: State, k: Kind) {
    SoloTiming(s, k) && !s.shared.config.live && MovesForward(Get(s, k), s.shared)
  }

  lemma PresentForward(st: Stream, kind: Kind, sh: Shared, act: PresentAct)
    requires PresentEnabled(st, kind, sh, act) && !sh.config.live && ClockShape(st, sh.clock)
    ensures var sh' := PresentShared(st, kind, sh, act);
            sh'.config == sh.config && MovesForward(PresentStream(st, kind, sh, act, sh'), sh')
  {
    hide AudioIsMaster, Poll, Arrive;
  }

  lemma StepFileTiming(s: State, step: Step, k: Kind)
    requires Shape(s) && Enabled(s, step) && FileTiming(s, k)
    ensures FileTiming(Next(s, step), k)
  {
    hide Timing, SoloTiming;
    StepSoloTiming(s, step, k);
    match step
    case PresentStep(kind, act) => if kind == k { PresentForward(Get(s, k), k, s.shared, act); } else { Absent(s, k); }
    case _ => QuietStep(s, step);
  }

  lemma Absent(s: State, k: Kind)
    requires Shape(s) && SoloTiming(s, k)
    ensures Get(s, Other(k)).show.PresentEnded?
  {
  }

  lemma {:induction false} RunFileTiming(states: seq<State>, steps: seq<Step>, n: nat, k: Kind)
    requires IsRun(states, steps) && n < |states|
    requires !Get(states[0], Other(k)).present && !states[0].shared.config.live
    ensures FileTiming(states[n], k)
  {
    hide Next, Enabled;
    if n > 0 {
      RunFileTiming(states, steps, n - 1, k);
      RunShape(states, steps, n - 1);
      StepFileTiming(states[n - 1], steps[n - 1], k);
    } else {
      RunSoloTiming(states, steps, 0, k);
    }
  }

  /**
   With an input that is not live and has one stream, no step of any run, once playback has started, lowers the
   timecode of any timestamp.
   */
  lemma FileTimecodesOnlyGrow(states: seq<State>, steps: seq<Step>, i: nat, k: Kind, pts: int)
    requires IsRun(states, steps) && i < |steps| && states[i].shared.clock.started
    requires !Get(states[0], Other(k)).present && !states[0].shared.config.live
    ensures Timecode(states[i + 1].shared.clock, pts) >= Timecode(states[i].shared.clock, pts)
  {
    RunFileTiming(states, steps, i, k);
    RunFileTiming(states, steps, i + 1, k);
    RunShape(states, steps, i);
    StepGrows(states[i], steps[i], k, pts);
  }

  lemma StepGrows(s: State, step: Step, k: Kind, pts: int)
    requires Shape(s) && Enabled(s, step) && FileTiming(s, k) && FileTiming(Next(s, step), k) && s.shared.clock.started
    ensures Timecode(Next(s, step).shared.clock, pts) >= Timecode(s.shared.clock, pts)
  {
    hide Timecode;
    match step
    case PresentStep(kind, act) =>
      Absent(s, k);
      PresentGrows(Get(s, k), k, s.shared, act, pts);
    case _ => QuietStep(s, step);
  }

  lemma PresentGrows(st: Stream, kind: Kind, sh: Shared, act: PresentAct, pts: int)
    requires Timing(st, sh) && MovesForward(st, sh) && sh.clock.started && PresentEnabled(st, kind, sh, act)
    ensures Timecode(PresentShared(st, kind, sh, act).clock, pts) >= Timecode(sh.clock, pts)
  {
    hide Ordered, LastSent, ShowTiming, SentProperly;
    if act.MoveClock? {
      ResyncShiftsTimecodes(sh.clock, st.show.frame.pts, st.show.when, pts);
    } else {
      QuietPresent(st, kind, sh, act);
    }
  }
}
