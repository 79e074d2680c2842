/** What the video decode stage sheds under overload: decoded frames that are late, then packets. */
module PipelineShedding {
  import opened Options
  import opened Clock
  import opened Decoding
  import opened Pipeline
  import opened PipelineSafety
  import opened PipelineFlow

  // ---------------------------------------------------------------- what happened, read off the run

  /** The decode stage is handed the next frame of the decoder in this state, and it is late while packets back up. */
  ghost predicate LateAt(s: State) {
    && s.video.decoder.buffer != [] && s.video.packets.items != []
    && var raw := s.video.decoder.buffer[0];
       && raw.ts.Some? && s.shared.config.pacing && s.shared.clock.started
       && s.shared.now - DueTime(s.shared.clock, raw.ts.value) > s.shared.config.decodeThreshold
  }

  /** It is not, although the test applies to it. */
  ghost predicate OnTimeAt(s: State) {
    && s.video.decoder.buffer != [] && s.video.decoder.buffer[0].ts.Some? && s.shared.config.pacing
    && s.shared.clock.started && !LateAt(s)
  }

  predicate Receives(step: Step) {
    step.DecodeStep? && step.kind == Video && step.decode.ReceiveFrame?
  }

  /** The processor is done with a frame. */
  predicate Emits(s: State, step: Step) {
    step == DecodeStep(Video, EndEmit) && s.video.stage.Emitting? && s.video.stage.processed
  }

  /** When the processor was last done with a frame; 0 before the first. */
  function LastEmission(states: seq<State>, steps: seq<Step>, n: nat): int
    requires n <= |states| && n <= |steps|
  {
    if n == 0 then 0
    else if Emits(states[n - 1], steps[n - 1]) then states[n - 1].shared.now
    else LastEmission(states, steps, n - 1)
  }

  /** At time t a frame was late, and no frame received since then, up to state n, was on time. */
  ghost predicate BehindSince(states: seq<State>, steps: seq<Step>, n: nat, t: int)
    requires n <= |states| && n <= |steps|
  {
    exists i :: 0 <= i < n && BehindFrom(states, steps, i, n, t)
  }

  ghost predicate BehindFrom(states: seq<State>, steps: seq<Step>, i: nat, n: nat, t: int)
    requires i < n <= |states| && n <= |steps|
  {
    && Receives(steps[i]) && LateAt(states[i]) && states[i].shared.now == t
    && forall j :: i < j < n && Receives(steps[j]) ==> !OnTimeAt(states[j])
  }

  /** The thread's own variables say just that; `behindSince` is the earliest such time. */
  ghost predicate TimingTrue(states: seq<State>, steps: seq<Step>, n: nat)
    requires n < |states| && n <= |steps|
  {
    var timing := states[n].video.timing;
    && timing.lastEmitted == LastEmission(states, steps, n)
    && (timing.behindSince.Some? ==>
          timing.behindSince.value <= states[n].shared.now && BehindSince(states, steps, n, timing.behindSince.value))
    && forall t :: BehindSince(states, steps, n, t) ==> timing.behindSince.Some? && timing.behindSince.value <= t
  }

  // ---------------------------------------------------------------- every step keeps it true

  lemma StepTimes(s: State, step: Step)
    requires Enabled(s, step)
    ensures Next(s, step).shared.now >= s.shared.now
    ensures var timing, timing' := s.video.timing, Next(s, step).video.timing;
            && timing'.lastEmitted == (if Emits(s, step) then s.shared.now else timing.lastEmitted)
            && timing'.behindSince ==
               if !Receives(step) then timing.behindSince
               else if OnTimeAt(s) then None
               else if LateAt(s) && timing.behindSince.None? then Some(s.shared.now)
               else timing.behindSince
  {
    match step
    case DemuxStep(act) => DemuxFrames(s, act, Video);
    case DecodeStep(kind, act) => if kind == Video { DecodeTimes(s, act); }
    case _ =>
  }

  lemma DecodeTimes(s: State, act: DecodeAct)
    requires DecodeEnabled(s.video, s.shared, act)
    ensures var timing, timing' := s.video.timing, DecodeNext(s.video, Video, s.shared, act).timing;
            && timing'.lastEmitted == (if Emits(s, DecodeStep(Video, act)) then s.shared.now else timing.lastEmitted)
            && timing'.behindSince ==
               if !act.ReceiveFrame? then timing.behindSince
               else if OnTimeAt(s) then None
               else if LateAt(s) && timing.behindSince.None? then Some(s.shared.now)
               else timing.behindSince
  {
  }

  lemma StillBehind(states: seq<State>, steps: seq<Step>, n: nat, t: int)
    requires n < |states| && n < |steps| && BehindSince(states, steps, n, t)
    requires !(Receives(steps[n]) && OnTimeAt(states[n]))
    ensures BehindSince(states, steps, n + 1, t)
  {
    hide LateAt, OnTimeAt;
    var i :| 0 <= i < n && BehindFrom(states, steps, i, n, t);
    assert BehindFrom(states, steps, i, n + 1, t);
  }

  /** Conversely, being behind in state n + 1 began before state n, or begins there. */
  lemma WasBehind(states: seq<State>, steps: seq<Step>, n: nat, t: int)
    requires n < |states| && n < |steps| && BehindSince(states, steps, n + 1, t)
    ensures || (BehindSince(states, steps, n, t) && !(Receives(steps[n]) && OnTimeAt(states[n])))
            || (Receives(steps[n]) && LateAt(states[n]) && t == states[n].shared.now)
  {
    hide LateAt, OnTimeAt;
    var i :| 0 <= i < n + 1 && BehindFrom(states, steps, i, n + 1, t);
    if i < n { assert BehindFrom(states, steps, i, n, t); }
  }

  lemma {:induction false} RunTimes(states: seq<State>, steps: seq<Step>, n: nat)
    requires IsRun(states, steps) && n <= |steps|
    ensures TimingTrue(states, steps, n)
  {
    hide Next, Enabled, LateAt, OnTimeAt;
    if n > 0 {
      var s, step := states[n - 1], steps[n - 1];
      RunTimes(states, steps, n - 1);
      StepTimes(s, step);
      NotBoth(s);
      var before, after := s.video.timing.behindSince, states[n].video.timing.behindSince;
      if after.Some? {
        if before == after && before.Some? && !(Receives(step) && OnTimeAt(s)) {
          StillBehind(states, steps, n - 1, after.value);
        } else {
          assert BehindFrom(states, steps, n - 1, n, after.value);
        }
      }
      forall t | BehindSince(states, steps, n, t) ensures after.Some? && after.value <= t {
        WasBehind(states, steps, n - 1, t);
      }
    }
  }

  lemma NotBoth(s: State)
    ensures !(LateAt(s) && OnTimeAt(s))
  {
  }

  // ---------------------------------------------------------------- what is shed

  /** In any run, in this step the decode stage drops a frame. */
  ghost predicate DropsFrame(s: State, step: Step)
    requires Enabled(s, step)
  {
    step.DecodeStep? && step.kind == Video && Next(s, step).video.log.dropped > s.video.log.dropped
  }

  /** In this step the decode stage of stream `k` takes a packet. */
  predicate TakesPacket(s: State, step: Step, k: Kind) {
    && step == DecodeStep(k, PopItem) && Get(s, k).packets.items != [] && Get(s, k).packets.items[0].Data?
  }

  /** And discards it. */
  ghost predicate DiscardsPacket(s: State, step: Step, k: Kind)
    requires Enabled(s, step)
  {
    TakesPacket(s, step, k) && Get(Next(s, step), k).log.skipped > Get(s, k).log.skipped
  }

  /** The last packet taken before state n was discarded. */
  ghost predicate Discarding(states: seq<State>, steps: seq<Step>, n: nat, k: Kind)
    requires IsRun(states, steps) && n <= |steps|
  {
    n > 0 &&
    if TakesPacket(states[n - 1], steps[n - 1], k) then DiscardsPacket(states[n - 1], steps[n - 1], k)
    else Discarding(states, steps, n - 1, k)
  }

  lemma DecodeDrops(st: Stream, sh: Shared, act: DecodeAct)
    requires DecodeEnabled(st, sh, act)
    ensures var st' := DecodeNext(st, Video, sh, act);
            st'.log.dropped > st.log.dropped <==>
              act.ReceiveFrame? && sh.now - st.timing.lastEmitted < MAX_DECODE_FREEZE && st.packets.items != []
              && var late := Lateness(Video, sh, st.decoder.buffer[0]); late.Some? && late.value > sh.config.decodeThreshold
  {
  }

  /**
   In every run the decode stage drops a frame if and only if it receives one that is later than the threshold,
   with packets backing up, less than one second after the processor was last done with a frame. So one frame a
   second gets through, however late.
   */
  lemma DecodeDropsAreJustified(states: seq<State>, steps: seq<Step>, i: nat)
    requires IsRun(states, steps) && i < |steps|
    ensures DropsFrame(states[i], steps[i]) <==>
              Receives(steps[i]) && LateAt(states[i])
              && states[i].shared.now - LastEmission(states, steps, i) < SECOND
  {
    RunTimes(states, steps, i);
    if steps[i].DecodeStep? && steps[i].kind == Video { DecodeDrops(states[i].video, states[i].shared, steps[i].decode); }
  }

  lemma DecodeDiscards(st: Stream, kind: Kind, sh: Shared, act: DecodeAct)
    requires DecodeEnabled(st, sh, act)
    ensures var st' := DecodeNext(st, kind, sh, act);
            if act.PopItem? && st.packets.items != [] && st.packets.items[0].Data? then
              var key := st.packets.items[0].packet.key;
              var discard := !key && (st.skipping || (kind == Video && ShouldSkip(st.timing, sh.now)));
              && st'.log.skipped == (if discard then st.log.skipped + 1 else st.log.skipped) && st'.skipping == discard
            else st'.log.skipped == st.log.skipped && st'.skipping == st.skipping
  {
  }

  lemma StepDiscards(s: State, step: Step, k: Kind)
    requires Enabled(s, step)
    ensures var st, st' := Get(s, k), Get(Next(s, step), k);
            if TakesPacket(s, step, k) then
              && (DiscardsPacket(s, step, k) <==>
                    !st.packets.items[0].packet.key && (st.skipping || (k == Video && ShouldSkip(st.timing, s.shared.now))))
              && (st'.skipping <==> DiscardsPacket(s, step, k))
            else st'.log.skipped == st.log.skipped && st'.skipping == st.skipping
  {
    match step
    case DemuxStep(act) => DemuxFrames(s, act, k);
    case DecodeStep(kind, act) => if kind == k { DecodeDiscards(Get(s, k), k, s.shared, act); }
    case _ =>
  }

  lemma {:induction false} RunDiscards(states: seq<State>, steps: seq<Step>, n: nat, k: Kind)
    requires IsRun(states, steps) && n <= |steps|
    ensures Get(states[n], k).skipping <==> Discarding(states, steps, n, k)
  {
    hide Next, Enabled, DiscardsPacket, Init;
    if n > 0 {
      RunDiscards(states, steps, n - 1, k);
      StepDiscards(states[n - 1], steps[n - 1], k);
    } else {
      NotSkippingYet(states[0], k);
    }
  }

  lemma NotSkippingYet(s: State, k: Kind)
    requires Init(s)
    ensures !Get(s, k).skipping
  {
  }

  /** A frame was late a second ago or earlier, and no frame received since then was on time. */
  ghost predicate BehindTooLong(states: seq<State>, steps: seq<Step>, n: nat)
    requires n < |states| && n <= |steps|
  {
    exists t :: t <= states[n].shared.now - SECOND && BehindSince(states, steps, n, t)
  }

  /**
   In every run, a packet is discarded if and only if it is no keyframe and either the packet before it was
   discarded too, or it is video's and video has been behind for a whole second: a frame was late that long
   ago, and no frame received since then was on time.
   */
  lemma DiscardingIsExact(states: seq<State>, steps: seq<Step>, i: nat, k: Kind)
    requires IsRun(states, steps) && i < |steps| && TakesPacket(states[i], steps[i], k)
    ensures DiscardsPacket(states[i], steps[i], k) <==>
              && !Get(states[i], k).packets.items[0].packet.key
              && (Discarding(states, steps, i, k) || (k == Video && BehindTooLong(states, steps, i)))
  {
    hide Next, Enabled, DiscardsPacket, LateAt, OnTimeAt, Init;
    RunTimes(states, steps, i);
    RunDiscards(states, steps, i, k);
    StepDiscards(states[i], steps[i], k);
  }

  // ---------------------------------------------------------------- packets given up on

  /** How often in a row the decoder has refused the packet that stream `k` last took. */
  function Refusals(steps: seq<Step>, k: Kind, n: nat): nat
    requires n <= |steps|
  {
    if n == 0 then 0
    else if !steps[n - 1].DecodeStep? || steps[n - 1].kind != k then Refusals(steps, k, n - 1)
    else match steps[n - 1].decode
      case PopItem => 0
      case SendPacket(accepted, _) => if accepted then 0 else Refusals(steps, k, n - 1) + 1
      case _ => Refusals(steps, k, n - 1)
  }

  /** The packet being offered to the decoder is the one taken last, and its attempts are the refusals so far. */
  ghost predicate Offers(st: Stream, refusals: nat) {
    var retrying := InDrain(st.stage) && st.stage.after.Retry?;
    && (st.stage.Sending? ==> st.stage.attempts == refusals <= 8 && LastTaken(st, st.stage.packet))
    && (retrying ==> st.stage.after.attempts + 1 == refusals <= 9 && LastTaken(st, st.stage.after.packet))
  }

  predicate LastTaken(st: Stream, p: Packet) {
    st.log.taken != [] && st.log.taken[|st.log.taken| - 1] == Data(p)
  }

  lemma DecodeOffers(st: Stream, kind: Kind, sh: Shared, act: DecodeAct, refusals: nat)
    requires DecodeEnabled(st, sh, act) && Offers(st, refusals)
    ensures Offers(DecodeNext(st, kind, sh, act),
                   if act.PopItem? then 0 else if act.SendPacket? then (if act.accepted then 0 else refusals + 1) else refusals)
  {
    hide ShouldSkip, OnFrame, Lateness, MadeFrom, SendContract;
  }

  lemma {:induction false} RunOffers(states: seq<State>, steps: seq<Step>, n: nat, k: Kind)
    requires IsRun(states, steps) && n <= |steps|
    ensures Offers(Get(states[n], k), Refusals(steps, k, n))
  {
    hide PresentEnabled, DemuxEnabled, DecodeNext;
    if n > 0 {
      var s, step := states[n - 1], steps[n - 1];
      RunOffers(states, steps, n - 1, k);
      match step
      case DemuxStep(act) => DemuxFrames(s, act, k);
      case DecodeStep(kind, act) => if kind == k { DecodeOffers(Get(s, k), k, s.shared, act, Refusals(steps, k, n - 1)); }
      case _ =>
    }
  }

  lemma DecodeGivesUp(st: Stream, kind: Kind, sh: Shared, act: DecodeAct)
    requires DecodeEnabled(st, sh, act)
    ensures DecodeNext(st, kind, sh, act).log.refused > st.log.refused <==>
              act.ReceiveNothing? && st.stage.after.Retry? && st.stage.after.attempts >= 8
  {
  }

  /**
   In every run, stream `k` gives up on a packet if and only if the decoder has refused it nine times in a row and the
   drain after the ninth refusal ends; after fewer refusals the drain is followed by another attempt with that packet.
   */
  lemma GivesUpAfterNineRefusals(states: seq<State>, steps: seq<Step>, i: nat, k: Kind)
    requires IsRun(states, steps) && i < |steps|
    ensures var st, st' := Get(states[i], k), Get(states[i + 1], k);
            var drained := steps[i].DecodeStep? && steps[i].kind == k && steps[i].decode.ReceiveNothing? && st.stage.after.Retry?;
            && (st'.log.refused > st.log.refused <==> drained && Refusals(steps, k, i) == 9)
            && (drained && Refusals(steps, k, i) != 9 ==>
                  Refusals(steps, k, i) < 9 && st'.stage.Sending? && LastTaken(st', st'.stage.packet)
                  && st'.log.taken == st.log.taken)
  {
    RunOffers(states, steps, i, k);
    RunOffers(states, steps, i + 1, k);
    match steps[i]
    case DemuxStep(act) => DemuxFrames(states[i], act, k);
    case DecodeStep(kind, act) => if kind == k { DecodeGivesUp(Get(states[i], k), k, states[i].shared, act); }
    case _ =>
  }
}
