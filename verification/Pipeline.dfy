/**
 The streaming pipeline (src/streamer.cpp): five threads joined by four bounded queues, sharing a stop
 flag and the presentation clock.

   demux --> packets --> decode --> frames --> present      (once for video, once for audio)

 Every section under a mutex is one step, and so is each test a thread makes between two of them. A step
 that would make its thread wait is not enabled: WakeUps shows that a thread waiting on a queue wakes once
 its condition is true, and StartBarrier does so for the clock. Time moves in steps of its own.

 The processors are modelled without a filter graph and without a resampler: video hands on each frame,
 audio holds one block back and may trim it away altogether (see AudioProcessor).
 */
module Pipeline {
  import opened Options
  import opened Queues
  import opened Clock
  import opened Decoding

  const VIDEO_PACKET_QUEUE := 120
  const AUDIO_PACKET_QUEUE := 256
  const VIDEO_FRAME_QUEUE := 8
  const AUDIO_FRAME_QUEUE := 64

  const RESYNC_LATE := SECOND
  const RESYNC_EARLY := 5 * SECOND
  const AUDIO_MASTER_IDLE := SECOND
  const MAX_FREEZE := 200 * MS

  // ---------------------------------------------------------------- one stream

  /** A processed frame or audio block on its way to the presenter. */
  datatype Frame = Frame(pts: int, duration: int, pass: nat)

  /** What Decode does once the decoder has no more frames to hand out. */
  datatype After =
    | ResetDecoder                           // at a loop marker
    | Retry(packet: Packet, attempts: nat)   // the packet was refused
    | NextPacket
    | FinishInput                            // at the end of the input
    | CloseFrames                            // after flushing the processor

  datatype DecodeStage =
    | Popping
    | Sending(packet: Packet, attempts: nat)
    | Draining(after: After)
    | Emitting(out: seq<Frame>, processed: bool, after: After)
    | InputEnded
    | Flushing
    | Closing
    | DecodeEnded

  /** What the presenter measured before it decides whether to drop a frame. */
  datatype Exam = Exam(at: int, lateness: int, resyncPending: bool)

  datatype PresentStage =
    | Taking
    | Arriving(frame: Frame)
    | WaitingForStart(frame: Frame)
    | Examining(frame: Frame)
    | Deciding(frame: Frame, exam: Exam)
    | WaitingUntilDue(frame: Frame)
    | Moving(frame: Frame, when: int)   // found to need a resync at `when`, which Resync has yet to carry out
    | Stamping(frame: Frame)            // due: its timecode is next
    | Stamped(frame: Frame, timecode: int, due: int) // to be sent; `due` was its deadline when it got its timecode
    | Leaving
    | PresentEnded

  /** What became of a frame at its presenter. `newer` counts the frames queued behind a dropped one. */
  datatype Outcome =
    | Sent(frame: Frame, timecode: int, at: int, due: int)
    | Dropped(frame: Frame, exam: Exam, lastSent: int, newer: nat)

  datatype DecoderState = DecoderState(buffer: seq<Raw>, draining: bool)

  datatype Stream = Stream(
    present: bool,              // the input has such a stream
    packets: Queue<Item>,
    decoder: DecoderState,
    stage: DecodeStage,
    skipping: bool,
    timing: Timing,
    held: seq<Frame>,           // the block the audio processor holds back
    frames: Queue<Frame>,
    show: PresentStage,
    started: bool,
    lastSent: int,
    log: Log
  )

  /** The counters, and the history the properties are about. */
  datatype Log = Log(
    popped: nat, fed: nat, skipped: nat, refused: nat, // packets
    received: nat, trimmed: nat,                       // decoded frames
    made: nat, lost: nat,     // frames the decoder made of packets, and those a reset discarded
    dropped: nat,             // shared by the decode stage and the presenter
    sent: nat,
    wanted: seq<Item>,        // what the demuxer wants to deliver, in order
    taken: seq<Item>,         // what the decode stage took from the packet queue
    resets: nat,              // loop markers completely handled
    pushed: seq<Frame>,       // what the processor pushed
    outcomes: seq<Outcome>    // what the presenter did, frame by frame
  )

  datatype Kind = Video | Audio

  datatype DemuxStage =
    | LoopHead
    | Reading
    | AtEnd                       // Read returned null
    | Delivering(kind: Kind, item: Item)
    | Marking(kind: Kind)         // after a restart: the loop marker for this stream is next
    | ClosingVideo
    | ClosingAudio
    | DemuxEnded

  datatype Config = Config(loop: bool, pacing: bool, live: bool, decodeThreshold: int)

  /** What all threads share besides the queues. */
  datatype Shared = Shared(
    config: Config,
    now: int,
    stop: bool,
    clock: Clock,
    audioPresenting: bool,
    audioLastSent: int,           // 0 before the first block
    resyncs: nat
  )

  datatype State = State(
    shared: Shared,
    demux: DemuxStage,
    left: nat,                    // packets left in this pass of the input
    pass: nat,
    video: Stream,
    audio: Stream
  )

  function Other(k: Kind): Kind {
    if k == Video then Audio else Video
  }

  function Get(s: State, k: Kind): Stream {
    if k == Video then s.video else s.audio
  }

  function Put(s: State, k: Kind, st: Stream): State {
    if k == Video then s.(video := st) else s.(audio := st)
  }

  // ---------------------------------------------------------------- demux

  datatype DemuxAct =
    | CheckStop                         // the loop condition
    | ReadPacket(kind: Kind, key: bool)
    | ReadEnd                           // end of input, or stopped
    | Restart(packets: nat)
    | NoRestart
    | Deliver
    | Mark
    | CloseVideo
    | CloseAudio
    | DemuxThrows

  predicate PushEnabled<T>(q: Queue<T>, stop: bool) {
    q.CanPush() || stop
  }

  predicate PopEnabled<T>(q: Queue<T>, stop: bool) {
    q.CanPop() || stop
  }

  predicate DemuxEnabled(s: State, act: DemuxAct) {
    match act
    case CheckStop => s.demux.LoopHead?
    case ReadPacket(k, _) => s.demux.Reading? && s.left > 0 && Get(s, k).present
    case ReadEnd => s.demux.Reading? && (s.left == 0 || s.shared.stop)
    case Restart(_) => s.demux.AtEnd? && !s.shared.stop && s.shared.config.loop
    case NoRestart => s.demux.AtEnd?
    case Deliver => s.demux.Delivering? && PushEnabled(Get(s, s.demux.kind).packets, s.shared.stop)
    case Mark => s.demux.Marking? && (Get(s, s.demux.kind).present ==>
                                        PushEnabled(Get(s, s.demux.kind).packets, s.shared.stop))
    case CloseVideo => s.demux.ClosingVideo?
    case CloseAudio => s.demux.ClosingAudio?
    case DemuxThrows => !s.demux.DemuxEnded?
  }

  /** The packet queue after a push, and whether it was accepted. */
  function Offer(st: Stream, item: Item, stop: bool): (Stream, bool) {
    var (queue, r) := Push(st.packets, item, stop);
    (st.(packets := queue), r.Pushed?)
  }

  function Announce(s: State, k: Kind, item: Item): State {
    var st := Get(s, k);
    if st.present then Put(s, k, st.(log := st.log.(wanted := st.log.wanted + [item]))) else s
  }

  function DemuxNext(s: State, act: DemuxAct): State
    requires DemuxEnabled(s, act)
  {
    match act
    case CheckStop => s.(demux := if s.shared.stop then ClosingVideo else Reading)
    case ReadPacket(k, key) =>
      var item := Data(Packet(key, s.pass));
      Announce(s.(demux := Delivering(k, item), left := s.left - 1), k, item)
    case ReadEnd => s.(demux := AtEnd)
    case Restart(packets) =>
      Announce(Announce(s.(demux := Marking(Video), left := packets, pass := s.pass + 1), Video, Marker), Audio, Marker)
    case NoRestart => s.(demux := ClosingVideo)
    case Deliver =>
      var (st, accepted) := Offer(Get(s, s.demux.kind), s.demux.item, s.shared.stop);
      Put(s, s.demux.kind, st).(demux := if accepted then LoopHead else ClosingVideo)
    case Mark =>
      var k := s.demux.kind;
      var next := if k == Video then Marking(Audio) else LoopHead;
      if !Get(s, k).present then s.(demux := next)
      else
        var (st, accepted) := Offer(Get(s, k), Marker, s.shared.stop);
        Put(s, k, st).(demux := if accepted then next else ClosingVideo)
    case CloseVideo =>
      s.(video := s.video.(packets := Close(s.video.packets)), demux := ClosingAudio)
    case CloseAudio =>
      s.(audio := s.audio.(packets := Close(s.audio.packets)), demux := DemuxEnded)
    case DemuxThrows => s.(demux := DemuxEnded, shared := s.shared.(stop := true))
  }

  // ---------------------------------------------------------------- decode

  datatype DecodeAct =
    | PopItem
    | SendPacket(accepted: bool, buffer: seq<Raw>)
    | ReceiveFrame(frame: Frame, keep: bool) // keep: some of the held block is left after trimming
    | ReceiveNothing(failed: bool) // no frame to give, or a decoding error
    | PushFrame
    | EndEmit
    | EndInput
    | FlushProcessor
    | CloseQueue
    | DecodeThrows

  /** The send contract: a refusal changes nothing, and what is new comes from the packet. */
  ghost predicate SendContract(d: DecoderState, p: Packet, accepted: bool, buffer: seq<Raw>) {
    && (d.draining ==> accepted)
    && (!accepted || d.draining ==> buffer == d.buffer)
    && |d.buffer| <= |buffer| && (forall f <- buffer :: f in d.buffer || f.pass == p.pass)
  }

  /** How late a decoded frame is, if on_frame tests it. */
  function Lateness(kind: Kind, sh: Shared, raw: Raw): Option<int> {
    if kind == Video && sh.config.pacing && raw.ts.Some? && sh.clock.started
    then Some(sh.now - DueTime(sh.clock, raw.ts.value))
    else None
  }

  /** A processor hands on the timestamp a frame has, and otherwise makes one up. */
  predicate MadeFrom(frame: Frame, raw: Raw) {
    frame.pass == raw.pass && (raw.ts.Some? ==> frame.pts == raw.ts.value)
  }

  ghost predicate DecodeEnabled(st: Stream, sh: Shared, act: DecodeAct) {
    match act
    case PopItem => st.stage.Popping? && PopEnabled(st.packets, sh.stop)
    case SendPacket(accepted, buffer) => st.stage.Sending? && SendContract(st.decoder, st.stage.packet, accepted, buffer)
    case ReceiveFrame(frame, _) => st.stage.Draining? && st.decoder.buffer != [] && MadeFrom(frame, st.decoder.buffer[0])
    case ReceiveNothing(failed) => st.stage.Draining? && (failed || st.decoder.buffer == [] || !st.decoder.draining)
    case PushFrame => st.stage.Emitting? && st.stage.out != [] && PushEnabled(st.frames, sh.stop)
    case EndEmit => st.stage.Emitting? && st.stage.out == []
    case EndInput => st.stage.InputEnded?
    case FlushProcessor => st.stage.Flushing?
    case CloseQueue => st.stage.Closing?
    case DecodeThrows => !st.stage.DecodeEnded?
  }

  /** The decode thread closes no packet queue and leaves the presenter's variables alone. */
  predicate PresenterUntouched(st: Stream, st': Stream) {
    && st'.show == st.show && st'.started == st.started && st'.lastSent == st.lastSent
    && st'.present == st.present && st'.packets.closed == st.packets.closed
    && st'.log.sent == st.log.sent && st'.log.outcomes == st.log.outcomes && st'.log.wanted == st.log.wanted
  }

  /** Only a push, and closing the queue, touch the frame queue. */
  predicate FramesUntouched(st: Stream, st': Stream) {
    st'.frames == st.frames && st'.log.pushed == st.log.pushed
  }

  function TakeItem(st: Stream, kind: Kind, sh: Shared): (r: Stream)
    ensures PresenterUntouched(st, r) && FramesUntouched(st, r)
  {
    var (queue, r) := Pop(st.packets, sh.stop);
    if !r.Popped? then st.(stage := InputEnded)
    else match r.item
      case Marker =>
        st.(packets := queue, decoder := st.decoder.(draining := true), stage := Draining(ResetDecoder),
            log := st.log.(taken := st.log.taken + [Marker]))
      case Data(p) =>
        var (skipping, discard) := Shed(st.skipping, kind == Video && ShouldSkip(st.timing, sh.now), p.key);
        var log := st.log.(taken := st.log.taken + [Data(p)], popped := st.log.popped + 1);
        if discard then st.(packets := queue, skipping := skipping, log := log.(skipped := log.skipped + 1))
        else st.(packets := queue, skipping := skipping, log := log, stage := Sending(p, 0))
  }

  function TakeFrame(st: Stream, kind: Kind, sh: Shared, frame: Frame, keep: bool): (r: Stream)
    requires st.stage.Draining? && st.decoder.buffer != []
    ensures PresenterUntouched(st, r) && FramesUntouched(st, r)
  {
    var raw := st.decoder.buffer[0];
    var decoder := st.decoder.(buffer := st.decoder.buffer[1..]);
    var log := st.log.(received := st.log.received + 1);
    if kind == Video then
      var backlog := st.packets.items != [];
      var (timing, drop) := OnFrame(st.timing, sh.now, Lateness(kind, sh, raw), sh.config.decodeThreshold, backlog);
      if drop then
        st.(decoder := decoder, timing := timing, stage := Emitting([], false, st.stage.after),
            log := log.(dropped := log.dropped + 1))
      else
        st.(decoder := decoder, timing := timing, stage := Emitting([frame], true, st.stage.after), log := log)
    else
      st.(decoder := decoder, held := [frame], stage := Emitting(if keep then st.held else [], true, st.stage.after),
          log := if keep then log else log.(trimmed := log.trimmed + |st.held|))
  }

  function AfterDrain(st: Stream): (r: Stream)
    requires st.stage.Draining?
    ensures PresenterUntouched(st, r) && FramesUntouched(st, r)
  {
    match st.stage.after
    case ResetDecoder =>
      st.(decoder := DecoderState([], false), stage := Popping,
          log := st.log.(resets := st.log.resets + 1, lost := st.log.lost + |st.decoder.buffer|))
    case Retry(p, attempts) =>
      if attempts + 1 > GIVE_UP_AFTER
      then st.(stage := Draining(NextPacket), log := st.log.(refused := st.log.refused + 1))
      else st.(stage := Sending(p, attempts + 1))
    case NextPacket => st.(stage := Popping)
    case FinishInput => st.(stage := Flushing)
    case CloseFrames => st.(stage := Closing)
  }

  ghost function DecodeNext(st: Stream, kind: Kind, sh: Shared, act: DecodeAct): (r: Stream)
    requires DecodeEnabled(st, sh, act)
    ensures PresenterUntouched(st, r)
  {
    match act
    case PopItem => TakeItem(st, kind, sh)
    case SendPacket(accepted, buffer) =>
      if accepted then
        st.(decoder := st.decoder.(buffer := buffer), stage := Draining(NextPacket),
            log := st.log.(fed := st.log.fed + 1, made := st.log.made + (|buffer| - |st.decoder.buffer|)))
      else st.(stage := Draining(Retry(st.stage.packet, st.stage.attempts)))
    case ReceiveFrame(frame, keep) => TakeFrame(st, kind, sh, frame, keep)
    case ReceiveNothing(_) => AfterDrain(st)
    case PushFrame =>
      var (queue, r) := Push(st.frames, st.stage.out[0], sh.stop);
      st.(frames := queue, stage := st.stage.(out := st.stage.out[1..]),
          log := if r.Pushed? then st.log.(pushed := st.log.pushed + [st.stage.out[0]]) else st.log)
    case EndEmit =>
      st.(timing := if st.stage.processed then st.timing.(lastEmitted := sh.now) else st.timing,
          stage := if sh.stop || st.stage.after.CloseFrames? then Closing else Draining(st.stage.after))
    case EndInput =>
      if sh.stop then st.(stage := Closing)
      else st.(decoder := st.decoder.(draining := true), stage := Draining(FinishInput))
    case FlushProcessor =>
      if sh.stop then st.(stage := Closing)
      else st.(held := [], stage := Emitting(st.held, false, CloseFrames))
    case CloseQueue => st.(frames := Close(st.frames), stage := DecodeEnded)
    case DecodeThrows => st.(stage := DecodeEnded)
  }

  // ---------------------------------------------------------------- present

  datatype PresentAct =
    | TakeNext
    | ArriveFirst
    | ResumeStart
    | Examine
    | Decide
    | TestDue
    | MoveClock
    | StampFrame
    | SendFrame
    | Interrupted
    | Leave
    | PresentThrows

  predicate AudioIsMaster(sh: Shared) {
    sh.audioPresenting && sh.audioLastSent != 0 && sh.now - sh.audioLastSent < AUDIO_MASTER_IDLE
  }

  datatype Verdict = ResyncNow | DueNow | NotYet

  /** What one turn of WaitUntilDue's loop finds. */
  function Wait(sh: Shared, pts: int, isAudio: bool): Verdict {
    var due := DueTime(sh.clock, pts);
    var master := isAudio || !AudioIsMaster(sh);
    var farBehind := sh.now - due > RESYNC_LATE;
    var farAhead := sh.config.live && due - sh.now > RESYNC_EARLY;
    if master && (farBehind || farAhead) then ResyncNow else if sh.now >= due then DueNow else NotYet
  }

  function DropThreshold(duration: int): int {
    var twice := 2 * duration * US;
    if twice > MIN_DROP_THRESHOLD then twice else MIN_DROP_THRESHOLD
  }

  predicate PresentEnabled(st: Stream, kind: Kind, sh: Shared, act: PresentAct) {
    match act
    case TakeNext => st.show.Taking? && PopEnabled(st.frames, sh.stop)
    case ArriveFirst => st.show.Arriving?
    case ResumeStart => st.show.WaitingForStart? && (sh.clock.started || MayStart(sh.clock, sh.now) || sh.stop)
    case Examine => st.show.Examining?
    case Decide => st.show.Deciding?
    case TestDue => st.show.WaitingUntilDue? && Wait(sh, st.show.frame.pts, kind == Audio) != NotYet
    case MoveClock => st.show.Moving?
    case StampFrame => st.show.Stamping?
    case SendFrame => st.show.Stamped?
    case Interrupted => st.show.WaitingUntilDue? && sh.stop // after a sleep, however long that was
    case Leave => st.show.Leaving?
    case PresentThrows => !st.show.PresentEnded?
  }

  /** Where a presenter goes with a frame once playback has started. */
  function Ready(kind: Kind, sh: Shared, frame: Frame): PresentStage {
    if !sh.config.pacing then Stamping(frame) else if kind == Video then Examining(frame) else WaitingUntilDue(frame)
  }

  predicate MustResync(st: Stream, kind: Kind, sh: Shared)
    requires st.show.WaitingUntilDue?
  {
    Wait(sh, st.show.frame.pts, kind == Audio) == ResyncNow
  }

  /** What a presenter does to the clock and the other shared variables. */
  function PresentShared(st: Stream, kind: Kind, sh: Shared, act: PresentAct): Shared
    requires PresentEnabled(st, kind, sh, act)
  {
    match act
    case ArriveFirst => sh.(clock := Poll(Arrive(sh.clock, st.show.frame.pts, sh.now), sh.now))
    case ResumeStart => if sh.stop then sh else sh.(clock := Poll(sh.clock, sh.now))
    case TestDue => sh.(resyncs := if MustResync(st, kind, sh) then sh.resyncs + 1 else sh.resyncs)
    case MoveClock => sh.(clock := Resync(sh.clock, st.show.frame.pts, st.show.when))
    case SendFrame => sh.(audioLastSent := if kind == Audio then sh.now else sh.audioLastSent)
    case Leave =>
      sh.(clock := if st.started then sh.clock else StreamFinished(sh.clock),
          audioPresenting := sh.audioPresenting && kind == Video)
    case PresentThrows => sh.(stop := true)
    case _ => sh
  }

  /** The presenter takes frames from its queue and leaves the decode thread's variables alone. */
  predicate DecodeUntouched(st: Stream, st': Stream) {
    && st'.present == st.present && st'.packets == st.packets && st'.decoder == st.decoder && st'.stage == st.stage
    && st'.skipping == st.skipping && st'.timing == st.timing && st'.held == st.held
    && st'.frames.closed == st.frames.closed && st'.frames.capacity == st.frames.capacity
    && st'.log == st.log.(dropped := st'.log.dropped, sent := st'.log.sent, outcomes := st'.log.outcomes)
  }

  /** What it does to its own stream; `sh'` is the shared state afterwards. */
  function PresentStream(st: Stream, kind: Kind, sh: Shared, act: PresentAct, sh': Shared): (r: Stream)
    requires PresentEnabled(st, kind, sh, act)
    ensures DecodeUntouched(st, r)
  {
    match act
    case TakeNext =>
      var (queue, r) := Pop(st.frames, sh.stop);
      if !r.Popped? then st.(show := Leaving)
      else st.(frames := queue, show := if st.started then Ready(kind, sh, r.item) else Arriving(r.item))
    case ArriveFirst =>
      if sh'.clock.started then st.(started := true, show := Ready(kind, sh, st.show.frame))
      else st.(show := WaitingForStart(st.show.frame))
    case ResumeStart =>
      if sh.stop then st.(show := Leaving) else st.(started := true, show := Ready(kind, sh, st.show.frame))
    case Examine =>
      var lateness := sh.now - DueTime(sh.clock, st.show.frame.pts);
      st.(show := Deciding(st.show.frame, Exam(sh.now, lateness, !AudioIsMaster(sh) && lateness > RESYNC_LATE)))
    case Decide =>
      var Deciding(frame, exam) := st.show;
      if && exam.lateness > DropThreshold(frame.duration) && !exam.resyncPending
         && |st.frames.items| > 0 && exam.at - st.lastSent < MAX_FREEZE
      then
        st.(show := Taking,
            log := st.log.(dropped := st.log.dropped + 1,
                           outcomes := st.log.outcomes + [Dropped(frame, exam, st.lastSent, |st.frames.items|)]))
      else st.(show := WaitingUntilDue(frame))
    case TestDue =>
      var frame := st.show.frame;
      st.(show := if MustResync(st, kind, sh) then Moving(frame, sh.now) else Stamping(frame))
    case MoveClock => st.(show := Stamping(st.show.frame))
    case StampFrame =>
      var frame := st.show.frame;
      st.(show := Stamped(frame, Timecode(sh.clock, frame.pts), DueTime(sh.clock, frame.pts)))
    case SendFrame =>
      var Stamped(frame, timecode, due) := st.show;
      st.(show := Taking, lastSent := sh.now,
          log := st.log.(sent := st.log.sent + 1,
                         outcomes := st.log.outcomes + [Sent(frame, timecode, sh.now, due)]))
    case Interrupted => st.(show := Leaving)
    case Leave => st.(show := PresentEnded)
    case PresentThrows => st.(show := PresentEnded)
  }

  // ---------------------------------------------------------------- the whole system

  datatype Step =
    | DemuxStep(demux: DemuxAct)
    | DecodeStep(kind: Kind, decode: DecodeAct)
    | PresentStep(kind: Kind, present: PresentAct)
    | StopStep            // someone requests a stop
    | TimeStep(to: int)

  ghost predicate Enabled(s: State, step: Step) {
    match step
    case DemuxStep(act) => DemuxEnabled(s, act)
    case DecodeStep(k, act) => DecodeEnabled(Get(s, k), s.shared, act)
    case PresentStep(k, act) => PresentEnabled(Get(s, k), k, s.shared, act)
    case StopStep => !s.shared.stop
    case TimeStep(to) => to > s.shared.now
  }

  ghost function Next(s: State, step: Step): State
    requires Enabled(s, step)
  {
    match step
    case DemuxStep(act) => DemuxNext(s, act)
    case DecodeStep(k, act) =>
      Put(s, k, DecodeNext(Get(s, k), k, s.shared, act)).(
        shared := if act.DecodeThrows? then s.shared.(stop := true) else s.shared)
    case PresentStep(k, act) =>
      var sh := PresentShared(Get(s, k), k, s.shared, act);
      Put(s, k, PresentStream(Get(s, k), k, s.shared, act, sh)).(shared := sh)
    case StopStep => s.(shared := s.shared.(stop := true))
    case TimeStep(to) => s.(shared := s.shared.(now := to))
  }

  function NewStream(present: bool, packetCapacity: nat, frameCapacity: nat): Stream {
    Stream(present, Empty(packetCapacity), DecoderState([], false), if present then Popping else DecodeEnded,
           false, Timing(None, 0), [], Empty(frameCapacity), if present then Taking else PresentEnded, false, 0,
           Log(0, 0, 0, 0, 0, 0, 0, 0, 0, 0, [], [], 0, [], []))
  }

  ghost predicate Init(s: State) {
    && (s.video.present || s.audio.present)
    && s.video == NewStream(s.video.present, VIDEO_PACKET_QUEUE, VIDEO_FRAME_QUEUE)
    && s.audio == NewStream(s.audio.present, AUDIO_PACKET_QUEUE, AUDIO_FRAME_QUEUE)
    && s.shared.clock == NewClock((if s.video.present then 1 else 0) + (if s.audio.present then 1 else 0),
                                  100 * MS, 500 * MS, s.shared.clock.utcOffset)
    && s.shared.now > 0 && s.shared.now + s.shared.clock.utcOffset >= 0
    && !s.shared.stop && s.demux == LoopHead && s.pass == 0
    && s.shared.audioPresenting == s.audio.present && s.shared.audioLastSent == 0 && s.shared.resyncs == 0
  }

  /** Every thread has ended. */
  predicate Final(s: State) {
    && s.demux.DemuxEnded?
    && s.video.stage.DecodeEnded? && s.video.show.PresentEnded?
    && s.audio.stage.DecodeEnded? && s.audio.show.PresentEnded?
  }

  ghost predicate IsRun(states: seq<State>, steps: seq<Step>) {
    && |states| == |steps| + 1 && Init(states[0])
    && forall i :: 0 <= i < |steps| ==> Enabled(states[i], steps[i]) && states[i + 1] == Next(states[i], steps[i])
  }
}
