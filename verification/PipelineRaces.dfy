/**
 When audio timecodes can go backward: exactly in the configurations that pace two streams. Whatever the other
 options and the input, such a pipeline has a run in which a resync that video decided on while audio was not the
 master overlaps the sending of an audio block; PipelineTiming shows that nothing else can cause it.
 */
module PipelineRaces {
  import opened Options
  import opened Clock
  import opened Decoding
  import opened Pipeline
  import opened PipelineSafety
  import opened PipelineLiveness
  import opened PipelineTiming

  // ---------------------------------------------------------------- reaching a state, step by step

  const KEY := Data(Packet(true, 0))
  const EPOCH := 1 + 100 * MS

  function Picture(pts: int): Frame {
    Frame(pts, 40000, 0)
  }

  function Block(pts: int): Frame {
    Frame(pts, 20000, 0)
  }

  function RawAt(pts: int): Raw {
    Raw(Some(pts), 0)
  }

  /** Both streams present, options `c`, and an input with two packets. */
  ghost function Begin(c: Config): State {
    State(Shared(c, 1, false, NewClock(2, 100 * MS, 500 * MS, 0), true, 0, 0), LoopHead, 2, 0,
          NewStream(true, VIDEO_PACKET_QUEUE, VIDEO_FRAME_QUEUE), NewStream(true, AUDIO_PACKET_QUEUE, AUDIO_FRAME_QUEUE))
  }

  ghost predicate Reachable(c: Config, s: State) {
    exists states: seq<State>, steps: seq<Step> :: IsRun(states, steps) && states[0] == Begin(c) && states[|steps|] == s
  }

  lemma Reach(c: Config, s: State, step: Step)
    requires Reachable(c, s) && Enabled(s, step)
    ensures Reachable(c, Next(s, step))
  {
    hide Next, Enabled, Init;
    var states, steps := RunTo(c, s);
    var longer, more := states + [Next(s, step)], steps + [step];
    forall i | 0 <= i < |more| ensures Enabled(longer[i], more[i]) && longer[i + 1] == Next(longer[i], more[i]) {
      if i < |steps| { assert longer[i] == states[i] && longer[i + 1] == states[i + 1] && more[i] == steps[i]; }
    }
    assert IsRun(longer, more);
  }

  lemma RunTo(c: Config, s: State) returns (states: seq<State>, steps: seq<Step>)
    requires Reachable(c, s)
    ensures IsRun(states, steps) && states[0] == Begin(c) && states[|steps|] == s
  {
    states, steps :| IsRun(states, steps) && states[0] == Begin(c) && states[|steps|] == s;
  }

  lemma Demux(c: Config, s: State, act: DemuxAct) returns (t: State)
    requires Reachable(c, s) && DemuxEnabled(s, act)
    ensures Reachable(c, t) && t == DemuxNext(s, act)
  {
    Reach(c, s, DemuxStep(act));
    t := DemuxNext(s, act);
  }

  lemma Decode(c: Config, s: State, k: Kind, act: DecodeAct) returns (t: State)
    requires Reachable(c, s) && DecodeEnabled(Get(s, k), s.shared, act) && !act.DecodeThrows?
    ensures Reachable(c, t) && t == Put(s, k, DecodeNext(Get(s, k), k, s.shared, act))
  {
    Reach(c, s, DecodeStep(k, act));
    t := Put(s, k, DecodeNext(Get(s, k), k, s.shared, act));
  }

  lemma Present(c: Config, s: State, k: Kind, act: PresentAct) returns (t: State)
    requires Reachable(c, s) && PresentEnabled(Get(s, k), k, s.shared, act)
    ensures Reachable(c, t)
    ensures var sh := PresentShared(Get(s, k), k, s.shared, act);
            t == Put(s, k, PresentStream(Get(s, k), k, s.shared, act, sh)).(shared := sh)
  {
    Reach(c, s, PresentStep(k, act));
    t := Next(s, PresentStep(k, act));
  }

  lemma Pass(c: Config, s: State, now: int) returns (t: State)
    requires Reachable(c, s) && now > s.shared.now
    ensures Reachable(c, t) && t == s.(shared := s.shared.(now := now))
  {
    Reach(c, s, TimeStep(now));
    t := Next(s, TimeStep(now));
  }

  // ---------------------------------------------------------------- up to the first due time

  /** A stream that has one packet to decode and has done nothing else. */
  ghost predicate Loaded(st: Stream, initial: Stream) {
    st == initial.(packets := initial.packets.(items := [KEY]), log := initial.log.(wanted := [KEY]))
  }

  lemma Deliveries(c: Config) returns (s: State)
    ensures Reachable(c, s) && s == Begin(c).(left := 0, video := s.video, audio := s.audio)
    ensures Loaded(s.video, Begin(c).video) && Loaded(s.audio, Begin(c).audio)
  {
    hide Reachable;
    BeginsThere(c);
    s := Begin(c);
    s := Deliver(c, s, Video);
    s := Deliver(c, s, Audio);
  }

  lemma BeginsThere(c: Config)
    ensures Reachable(c, Begin(c))
  {
    assert Init(Begin(c));
    Alone(Begin(c));
    var states, steps: seq<Step> := [Begin(c)], [];
    assert IsRun(states, steps) && states[0] == Begin(c) && states[|steps|] == Begin(c);
  }

  lemma Alone(s: State)
    requires Init(s)
    ensures IsRun([s], [])
  {
    hide Init, Next, Enabled;
  }

  lemma Deliver(c: Config, s: State, k: Kind) returns (t: State)
    requires Reachable(c, s) && s.demux.LoopHead? && s.left > 0 && s.pass == 0 && !s.shared.stop
    requires Get(s, k) == Get(Begin(c), k)
    ensures Reachable(c, t) && Loaded(Get(t, k), Get(Begin(c), k)) && t == Put(s, k, Get(t, k)).(left := s.left - 1)
  {
    hide Reachable;
    t := Demux(c, s, CheckStop);
    t := Demux(c, t, ReadPacket(k, true));
    t := Demux(c, t, DemuxAct.Deliver);
  }

  /** The presenter has nothing sent, and `frames` waiting for it. */
  ghost predicate Waiting(st: Stream, frames: seq<Frame>) {
    st.show.Taking? && !st.started && !st.frames.closed && st.frames.items == frames && st.log.outcomes == []
  }

  lemma DecodeVideo(c: Config, s: State, pts: int) returns (t: State)
    requires Reachable(c, s) && Loaded(s.video, Begin(c).video) && s.shared == Begin(c).shared
    ensures Reachable(c, t) && t == s.(video := t.video) && Waiting(t.video, [Picture(pts)])
  {
    hide Reachable;
    t := Decode(c, s, Video, PopItem);
    t := Decode(c, t, Video, SendPacket(true, [RawAt(pts)]));
    t := Decode(c, t, Video, ReceiveFrame(Picture(pts), true));
    t := Decode(c, t, Video, PushFrame);
  }

  /** Three blocks are decoded, at 0, at `pts`, and right after that; the last one is held back. */
  lemma DecodeAudio(c: Config, s: State, pts: int) returns (t: State)
    requires Reachable(c, s) && Loaded(s.audio, Begin(c).audio) && s.shared == Begin(c).shared
    ensures Reachable(c, t) && t == s.(audio := t.audio) && Waiting(t.audio, [Block(0), Block(pts)])
  {
    hide Reachable;
    t := Decode(c, s, Audio, PopItem);
    t := Decode(c, t, Audio, SendPacket(true, [RawAt(0), RawAt(pts), RawAt(pts + 20000)]));
    t := Decode(c, t, Audio, ReceiveFrame(Block(0), true));
    t := Decode(c, t, Audio, EndEmit);
    t := DecodeBlock(c, t, Block(0), [], pts, [RawAt(pts), RawAt(pts + 20000)]);
    t := Decode(c, t, Audio, EndEmit);
    t := DecodeBlock(c, t, Block(pts), [Block(0)], pts + 20000, [RawAt(pts + 20000)]);
  }

  /** One more block is decoded, and the one held back is pushed. */
  lemma DecodeBlock(c: Config, s: State, held: Frame, queued: seq<Frame>, pts: int, buffer: seq<Raw>) returns (t: State)
    requires Reachable(c, s) && !s.shared.stop && s.audio.stage == Draining(NextPacket) && s.audio.held == [held]
    requires s.audio.decoder.buffer == buffer && buffer != [] && buffer[0] == RawAt(pts)
    requires Waiting(s.audio, queued) && |queued| < s.audio.frames.capacity
    ensures Reachable(c, t) && t == s.(audio := t.audio)
    ensures t.audio.stage.Emitting? && t.audio.stage.out == [] && t.audio.stage.after == NextPacket
    ensures t.audio.held == [Block(pts)] && Waiting(t.audio, queued + [held])
    ensures t.audio.decoder.buffer == buffer[1..] && t.audio.frames.capacity == s.audio.frames.capacity
  {
    hide Reachable;
    t := Decode(c, s, Audio, ReceiveFrame(Block(pts), true));
    t := Decode(c, t, Audio, PushFrame);
  }

  /** Both streams wait for their first frames to become due, audio's at this moment. */
  ghost predicate Poised(c: Config, s: State, video: int, pts: int) {
    && s.shared.config == c && !s.shared.stop && s.shared.audioPresenting && s.shared.audioLastSent == 0
    && s.shared.clock.started && s.shared.clock.originUs == 0 && s.shared.clock.utcOffset == 0
    && s.shared.clock.epoch == s.shared.now == EPOCH && s.shared.clock.utcEpoch == EPOCH / 100
    && s.video.show == WaitingUntilDue(Picture(video)) && s.video.started
    && s.audio.show == WaitingUntilDue(Block(0)) && s.audio.started
    && s.audio.frames.items == [Block(pts)] && s.audio.log.outcomes == []
  }

  lemma Presenters(c: Config, s: State, video: int, pts: int) returns (t: State)
    requires c.pacing && video >= 0 && Reachable(c, s) && s.shared == Begin(c).shared
    requires Waiting(s.video, [Picture(video)]) && Waiting(s.audio, [Block(0), Block(pts)])
    ensures Reachable(c, t) && Poised(c, t, video, pts)
  {
    hide Reachable;
    t := Present(c, s, Video, TakeNext);
    t := Present(c, t, Video, ArriveFirst);
    t := Present(c, t, Audio, TakeNext);
    t := Present(c, t, Audio, ArriveFirst);
    t := Present(c, t, Video, ResumeStart);
    t := Present(c, t, Video, Examine);
    t := Present(c, t, Video, Decide);
    t := Pass(c, t, EPOCH);
  }

  lemma Poise(c: Config, video: int, pts: int) returns (s: State)
    requires c.pacing && video >= 0
    ensures Reachable(c, s) && Poised(c, s, video, pts)
  {
    hide Reachable, Poised, Waiting, Loaded;
    s := Deliveries(c);
    s := DecodeVideo(c, s, video);
    s := DecodeAudio(c, s, pts);
    s := Presenters(c, s, video, pts);
  }

  // ---------------------------------------------------------------- the presenters' steps

  lemma VideoTests(c: Config, s: State) returns (t: State)
    requires Reachable(c, s) && s.video.show.WaitingUntilDue?
    requires Wait(s.shared, s.video.show.frame.pts, false) == ResyncNow
    ensures Reachable(c, t) && t.video.show == Moving(s.video.show.frame, s.shared.now) && t.audio == s.audio
    ensures t.shared == s.shared.(resyncs := t.shared.resyncs)
  {
    hide Reachable;
    t := Present(c, s, Video, TestDue);
  }

  lemma VideoMoves(c: Config, s: State) returns (t: State)
    requires Reachable(c, s) && s.video.show.Moving?
    ensures Reachable(c, t) && t.audio == s.audio
    ensures t.shared == s.shared.(clock := Resync(s.shared.clock, s.video.show.frame.pts, s.video.show.when))
  {
    hide Reachable;
    t := Present(c, s, Video, MoveClock);
  }

  lemma AudioTakes(c: Config, s: State, block: Frame) returns (t: State)
    requires Reachable(c, s) && s.audio.show.Taking? && s.audio.frames.items == [block] && s.audio.started
    requires s.shared.config.pacing
    ensures Reachable(c, t) && t.audio.show == WaitingUntilDue(block) && t.audio.log == s.audio.log
    ensures t.video == s.video && t.shared == s.shared
  {
    hide Reachable;
    t := Present(c, s, Audio, TakeNext);
  }

  /** Audio finds its block due, or resyncs to make it so. */
  lemma AudioTests(c: Config, s: State) returns (t: State)
    requires Reachable(c, s) && s.audio.show.WaitingUntilDue?
    requires Wait(s.shared, s.audio.show.frame.pts, true) != NotYet
    ensures var frame := s.audio.show.frame;
            && Reachable(c, t) && t.video == s.video && t.audio == s.audio.(show := Stamping(frame))
            && t.shared.(resyncs := s.shared.resyncs)
               == if Wait(s.shared, frame.pts, true) == DueNow then s.shared
                  else s.shared.(clock := Resync(s.shared.clock, frame.pts, s.shared.now))
  {
    hide Reachable;
    t := Present(c, s, Audio, TestDue);
    if t.audio.show.Moving? { t := Present(c, t, Audio, MoveClock); }
  }

  lemma AudioStamps(c: Config, s: State) returns (t: State)
    requires Reachable(c, s) && s.audio.show.Stamping?
    ensures Reachable(c, t) && t.video == s.video && t.shared == s.shared
    ensures var frame, clock := s.audio.show.frame, s.shared.clock;
            t.audio == s.audio.(show := Stamped(frame, Timecode(clock, frame.pts), DueTime(clock, frame.pts)))
  {
    hide Reachable;
    t := Present(c, s, Audio, StampFrame);
  }

  lemma AudioSends(c: Config, s: State) returns (t: State)
    requires Reachable(c, s) && s.audio.show.Stamped?
    ensures Reachable(c, t) && t.video == s.video && t.shared == s.shared.(audioLastSent := s.shared.now)
    ensures t.audio.show.Taking? && t.audio.frames == s.audio.frames && t.audio.started == s.audio.started
    ensures var Stamped(frame, timecode, due) := s.audio.show;
            t.audio.log.outcomes == s.audio.log.outcomes + [Sent(frame, timecode, s.shared.now, due)]
  {
    hide Reachable;
    t := Present(c, s, Audio, SendFrame);
  }

  // ---------------------------------------------------------------- three ways to overlap

  /** Audio block i + 1 of the run follows block i in timestamp, but not in timecode. */
  ghost predicate BackwardAt(outcomes: seq<Outcome>, i: nat) {
    && i + 1 < |outcomes| && outcomes[i].Sent? && outcomes[i + 1].Sent?
    && outcomes[i].frame.pts <= outcomes[i + 1].frame.pts && outcomes[i + 1].timecode < outcomes[i].timecode
  }

  /** A run of the pipeline in which audio timecodes go backward. */
  ghost predicate Reorders(states: seq<State>, steps: seq<Step>) {
    IsRun(states, steps) && exists i: nat :: BackwardAt(states[|steps|].audio.log.outcomes, i)
  }

  /** The run has these options and streams. */
  ghost predicate RunsWith(s: State, c: Config, video: bool, audio: bool) {
    s.shared.config == c && s.video.present == video && s.audio.present == audio
  }

  lemma ItReorders(c: Config, s: State) returns (states: seq<State>, steps: seq<Step>)
    requires Reachable(c, s) && BackwardAt(s.audio.log.outcomes, 0)
    ensures Reorders(states, steps) && RunsWith(states[0], c, true, true)
  {
    hide IsRun;
    states, steps := RunTo(c, s);
  }

  /**
   Whatever the options and the input, as long as sending is paced: the presenters get to run two seconds late.
   Video tests first and decides to move the clock to that moment; audio, half a second later, moves it further and
   sends; then video carries out what it decided. The next block is half a second late, thus due, and gets an
   earlier timecode.
   */
  lemma StaleResyncReordersAudio(c: Config) returns (states: seq<State>, steps: seq<Step>)
    requires c.pacing
    ensures Reorders(states, steps) && RunsWith(states[0], c, true, true)
  {
    hide Reachable;
    var s := Poise(c, 0, 20000);
    s := Pass(c, s, EPOCH + 2 * SECOND);
    s := VideoTests(c, s);
    s := Pass(c, s, EPOCH + 2 * SECOND + 500 * MS);
    s := AudioTests(c, s);
    s := AudioStamps(c, s);
    s := AudioSends(c, s);
    s := VideoMoves(c, s);
    s := AudioTakes(c, s, Block(20000));
    s := AudioTests(c, s);
    s := AudioStamps(c, s);
    s := AudioSends(c, s);
    states, steps := ItReorders(c, s);
  }

  /**
   With a live input whose video jumps seven seconds ahead, and audio idle for a second: video moves the clock
   between audio's test and its timecode.
   */
  lemma ResyncBeforeTimecodeReordersAudio(c: Config) returns (states: seq<State>, steps: seq<Step>)
    requires c.pacing && c.live
    ensures Reorders(states, steps) && RunsWith(states[0], c, true, true)
  {
    hide Reachable;
    var s := Poise(c, 7000000, 1000000);
    s := AudioTests(c, s);
    s := AudioStamps(c, s);
    s := AudioSends(c, s);
    s := Pass(c, s, EPOCH + SECOND);
    s := AudioTakes(c, s, Block(1000000));
    s := VideoTests(c, s);
    s := AudioTests(c, s);
    s := VideoMoves(c, s);
    s := AudioStamps(c, s);
    s := AudioSends(c, s);
    states, steps := ItReorders(c, s);
  }

  /** With such an input: audio has its timecode, but has not recorded that it sends; video takes it for idle. */
  lemma UnrecordedSendReordersAudio(c: Config) returns (states: seq<State>, steps: seq<Step>)
    requires c.pacing && c.live
    ensures Reorders(states, steps) && RunsWith(states[0], c, true, true)
  {
    hide Reachable;
    var s := Poise(c, 7000000, 6000000);
    s := AudioTests(c, s);
    s := AudioStamps(c, s);
    s := VideoTests(c, s);
    s := VideoMoves(c, s);
    s := AudioSends(c, s);
    s := AudioTakes(c, s, Block(6000000));
    s := AudioTests(c, s);
    s := AudioStamps(c, s);
    s := AudioSends(c, s);
    states, steps := ItReorders(c, s);
  }

  /** Any such run overlaps: some state of it has a resync by video pending while audio is sending. */
  lemma ReorderingOverlaps(states: seq<State>, steps: seq<Step>)
    requires Reorders(states, steps)
    ensures exists n :: 0 <= n < |steps| && !Separate(states[n])
  {
    if forall n :: 0 <= n < |steps| ==> Separate(states[n]) {
      var i: nat :| BackwardAt(states[|steps|].audio.log.outcomes, i);
      AudioTimecodesNeverGoBackward(states, steps, i);
    }
  }

  // ---------------------------------------------------------------- exactly when

  lemma {:induction false} OptionsStay(states: seq<State>, steps: seq<Step>, n: nat)
    requires IsRun(states, steps) && n < |states|
    ensures RunsWith(states[n], states[0].shared.config, states[0].video.present, states[0].audio.present)
  {
    hide Next, Enabled, Init;
    if n > 0 {
      OptionsStay(states, steps, n - 1);
      StepPresent(states[n - 1], steps[n - 1]);
    }
  }

  /** Without pacing, or without video, no resync by video is ever pending. */
  lemma {:induction false} AlwaysSeparate(states: seq<State>, steps: seq<Step>, n: nat)
    requires IsRun(states, steps) && n < |states| && !(states[0].shared.config.pacing && states[0].video.present)
    ensures AudioTiming(states[n]) && Separate(states[n])
  {
    RunShape(states, steps, n);
    OptionsStay(states, steps, n);
    if n > 0 {
      AlwaysSeparate(states, steps, n - 1);
      RunShape(states, steps, n - 1);
      StepTiming(states[n - 1], steps[n - 1]);
    }
  }

  /** Without audio, none is sent. */
  lemma {:induction false} NoAudio(states: seq<State>, steps: seq<Step>, n: nat)
    requires IsRun(states, steps) && n < |states| && !states[0].audio.present
    ensures states[n].audio.log.outcomes == []
  {
    if n > 0 {
      NoAudio(states, steps, n - 1);
      RunShape(states, steps, n - 1);
      OptionsStay(states, steps, n - 1);
      SilentStep(states[n - 1], steps[n - 1]);
    }
  }

  lemma SilentStep(s: State, step: Step)
    requires Shape(s) && Enabled(s, step) && !s.audio.present
    ensures Next(s, step).audio.log.outcomes == s.audio.log.outcomes
  {
    if !step.PresentStep? { QuietStep(s, step); }
  }

  lemma NeverReorders(states: seq<State>, steps: seq<Step>)
    requires IsRun(states, steps)
    requires !(states[0].shared.config.pacing && states[0].video.present && states[0].audio.present)
    ensures !Reorders(states, steps)
  {
    hide Next, Enabled, Init;
    if i: nat :| BackwardAt(states[|steps|].audio.log.outcomes, i) {
      if states[0].audio.present {
        forall n | 0 <= n < |steps| ensures Separate(states[n]) { AlwaysSeparate(states, steps, n); }
        AudioTimecodesNeverGoBackward(states, steps, i);
      } else {
        NoAudio(states, steps, |steps|);
      }
    }
  }

  /** A run with these options and streams in which audio timecodes go backward. */
  ghost predicate GoesBack(states: seq<State>, steps: seq<Step>, c: Config, video: bool, audio: bool) {
    Reorders(states, steps) && RunsWith(states[0], c, video, audio)
  }

  /**
   Audio timecodes can go backward, though timestamps do not, if and only if sending is paced and there are both
   streams. Nothing else in the options matters, nor whether the input is live.
   */
  lemma AudioCanGoBack(c: Config, video: bool, audio: bool)
    ensures (exists states: seq<State>, steps: seq<Step> :: GoesBack(states, steps, c, video, audio))
            <==> c.pacing && video && audio
  {
    hide Next, Enabled, Init;
    if c.pacing && video && audio {
      var states, steps := StaleResyncReordersAudio(c);
      assert GoesBack(states, steps, c, video, audio);
    } else if states: seq<State>, steps: seq<Step> :| GoesBack(states, steps, c, video, audio) {
      NeverReorders(states, steps);
    }
  }
}
