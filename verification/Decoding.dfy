/**
 Packets, frames, and the decode stage shared by both streams (src/streamer.cpp, Decode, and the
 callbacks of VideoDecodeLoop).
 */
module Decoding {
  import opened Options
  import opened Clock

  datatype Packet = Packet(key: bool, pass: nat)

  /** What travels in a packet queue; Marker says that the input looped. */
  datatype Item = Marker | Data(packet: Packet)

  /** A decoded frame: its timestamp in microseconds if it has one, and the pass it belongs to. */
  datatype Raw = Raw(ts: Option<int>, pass: nat)

  // ---------------------------------------------------------------- shedding packets

  const GIVE_UP_AFTER := 8

  /** The skip decision for one packet: the next value of `skipping`, and whether to discard. */
  function Shed(skipping: bool, shouldSkip: bool, key: bool): (r: (bool, bool))
    ensures r.1 ==> !key && r.0
    ensures skipping && !r.1 ==> key
  {
    var skip := skipping || shouldSkip;
    if skip && !key then (true, true) else (false, false)
  }

  // ---------------------------------------------------------------- shedding decoded frames

  const MIN_DROP_THRESHOLD := 40 * MS
  const MAX_DECODE_FREEZE := SECOND
  const VIDEO_BEHIND_GRACE := SECOND

  datatype Timing = Timing(behindSince: Option<int>, lastEmitted: int)

  /**
   The late-frame test of VideoDecodeLoop's on_frame. `lateness` is None when the test does not apply: no
   pacing, no timestamp, or playback has not started.
   */
  function OnFrame(t: Timing, now: int, lateness: Option<int>, threshold: int, backlog: bool): (Timing, bool) {
    match lateness
    case None => (t, false)
    case Some(late) =>
      var behind := late > threshold && backlog;
      (t.(behindSince := if !behind then None else if t.behindSince.None? then Some(now) else t.behindSince),
       behind && now - t.lastEmitted < MAX_DECODE_FREEZE)
  }

  predicate ShouldSkip(t: Timing, now: int) {
    t.behindSince.Some? && now - t.behindSince.value >= VIDEO_BEHIND_GRACE
  }

  // ---------------------------------------------------------------- the decoder contract

  /**
   FFmpeg's decoder, by contract only: it holds some frames it will hand out, drains completely once it
   was sent null, and (when `polite`) takes input again after it gave no frame. Any Receive may fail with a
   decoding error; the program sees no frame then either.
   */
  class Decoder {
    const polite: bool
    var buffer: seq<Raw>
    var draining: bool
    var hungry: bool // the last call was a Receive that gave nothing
    var failed: bool // and that was for an error

    constructor (polite: bool)
      ensures this.polite == polite && buffer == [] && !draining
    {
      this.polite := polite;
      buffer, draining, hungry, failed := [], false, false, false;
    }

    method SendNull()
      modifies this
      ensures draining && buffer == old(buffer)
    {
      draining, hungry := true, false;
    }

    method Send(packet: Packet) returns (accepted: bool)
      modifies this
      ensures draining == old(draining) && !hungry
      ensures old(draining) ==> accepted
      ensures polite && old(hungry) ==> accepted
      ensures !accepted || old(draining) ==> buffer == old(buffer)
      ensures |old(buffer)| <= |buffer|
      ensures forall f <- buffer :: f in old(buffer) || f.pass == packet.pass
    {
      accepted := *;
      if draining || (polite && hungry) { accepted := true; }
      var frames: int := *;
      if accepted && !draining && frames > 0 {
        buffer := buffer + seq(frames, _ => Raw(None, packet.pass));
      }
      hungry := false;
    }

    method Receive() returns (frame: Option<Raw>)
      modifies this
      ensures draining == old(draining)
      ensures frame.Some? ==> old(buffer) == [frame.value] + buffer
      ensures frame.None? ==> buffer == old(buffer) && hungry && (draining && !failed ==> buffer == [])
    {
      var ready: bool, error: bool := *, *;
      if !error && buffer != [] && (draining || ready) {
        frame, hungry, failed := Some(buffer[0]), false, false;
        buffer := buffer[1..];
      } else {
        frame, hungry, failed := None, true, error;
      }
    }

    method Reset()
      modifies this
      ensures buffer == [] && !draining
    {
      buffer, draining, hungry := [], false, false;
    }
  }

  // ---------------------------------------------------------------- what the loop does, as a trace

  datatype Event =
    | Discarded(packet: Packet)
    | Offered(packet: Packet)
    | Refused(packet: Packet)
    | Accepted(packet: Packet)
    | GaveUp(packet: Packet)
    | MarkerTaken
    | ResetAt(left: nat, failed: bool) // frames left in the decoder, and whether the Receive before failed
    | FrameOut(frame: Raw)

  /** Whether the latest decision about a packet was to discard it; loop markers do not count. */
  function Skipping(trace: seq<Event>): bool {
    if trace == [] then false
    else match trace[|trace| - 1]
      case Discarded(_) => true
      case Offered(_) => false
      case _ => Skipping(trace[..|trace| - 1])
  }

  /** After discarded packets, the next one handed to the decoder is a keyframe. */
  ghost predicate KeyframeSafe(trace: seq<Event>) {
    forall i :: 0 <= i < |trace| && trace[i].Offered? && Skipping(trace[..i]) ==> trace[i].packet.key
  }

  /** In other words: from a discarded packet to the next offered one, that one is a keyframe. */
  lemma {:induction false} DiscardedRunEndsWithKeyframe(trace: seq<Event>, i: nat, j: nat)
    requires KeyframeSafe(trace)
    requires i < j < |trace| && trace[i].Discarded? && trace[j].Offered?
    requires forall k :: i < k < j ==> !trace[k].Offered?
    ensures trace[j].packet.key
  {
    StillSkipping(trace, i, j);
  }

  lemma {:induction false} StillSkipping(trace: seq<Event>, i: nat, j: nat)
    requires i < j <= |trace| && trace[i].Discarded?
    requires forall k :: i < k < j ==> !trace[k].Offered?
    ensures Skipping(trace[..j])
  {
    var t := trace[..j];
    assert t[..j - 1] == trace[..j - 1];
    if j > i + 1 { StillSkipping(trace, i, j - 1); }
  }

  /** The items the trace accounts for, in order. */
  function Taken(trace: seq<Event>): seq<Item> {
    if trace == [] then []
    else
      var before := Taken(trace[..|trace| - 1]);
      match trace[|trace| - 1]
      case Discarded(p) => before + [Data(p)]
      case Offered(p) => before + [Data(p)]
      case MarkerTaken => before + [Marker]
      case _ => before
  }

  /** How many packets were offered to the decoder and not yet accepted or given up on. */
  function Undecided(trace: seq<Event>): int {
    if trace == [] then 0
    else Undecided(trace[..|trace| - 1]) +
         match trace[|trace| - 1]
         case Offered(_) => 1
         case Accepted(_) => -1
         case GaveUp(_) => -1
         case _ => 0
  }

  /** Only after a decoding error does a reset find frames left in the decoder. */
  ghost predicate ResetsDrained(trace: seq<Event>) {
    forall e <- trace :: e.ResetAt? && e.left > 0 ==> e.failed
  }

  /** How often the packet offered last has been refused. */
  function Refusals(trace: seq<Event>): nat {
    if trace == [] then 0
    else match trace[|trace| - 1]
      case Offered(_) => 0
      case Refused(_) => Refusals(trace[..|trace| - 1]) + 1
      case _ => Refusals(trace[..|trace| - 1])
  }

  /** A packet is given up on after its ninth refusal, and not offered again then. */
  ghost predicate GivesUpAtNine(trace: seq<Event>) {
    forall i :: 0 <= i < |trace| ==> RightTry(trace[i], Refusals(trace[..i]))
  }

  predicate RightTry(e: Event, refusals: nat) {
    && (e.GaveUp? ==> refusals == 9)
    && (e.Refused? || e.Accepted? ==> refusals < 9)
  }

  ghost predicate NeverGaveUp(trace: seq<Event>) {
    forall e <- trace :: !e.GaveUp?
  }

  lemma Extend(trace: seq<Event>, e: Event)
    ensures (trace + [e])[..|trace|] == trace
    ensures KeyframeSafe(trace) && (e.Offered? && Skipping(trace) ==> e.packet.key) ==> KeyframeSafe(trace + [e])
    ensures ResetsDrained(trace) && (e.ResetAt? && e.left > 0 ==> e.failed) ==> ResetsDrained(trace + [e])
    ensures NeverGaveUp(trace) && !e.GaveUp? ==> NeverGaveUp(trace + [e])
    ensures GivesUpAtNine(trace) && RightTry(e, Refusals(trace)) ==> GivesUpAtNine(trace + [e])
  {
    var u := trace + [e];
    assert u[..|trace|] == trace;
    forall i | 0 <= i < |trace| ensures u[..i] == trace[..i] { }
  }

  /** The decode thread's own variables. */
  class DecodeLoop {
    const decoder: Decoder
    var stop: bool
    ghost var trace: seq<Event>

    constructor (decoder: Decoder)
      ensures this.decoder == decoder && trace == []
    {
      this.decoder := decoder;
      stop, trace := false, [];
    }

    ghost predicate Sane()
      reads this
    {
      && KeyframeSafe(trace) && ResetsDrained(trace) && GivesUpAtNine(trace)
      && (decoder.polite ==> NeverGaveUp(trace))
    }

    /** A stop can be requested at any time, and is never withdrawn. */
    method StopRequested() returns (r: bool)
      modifies this`stop
      ensures r == stop && (old(stop) ==> stop)
    {
      var requested: bool := *;
      stop := stop || requested;
      r := stop;
    }

    ghost method Log(e: Event)
      requires Sane()
      requires e.Offered? && Skipping(trace) ==> e.packet.key
      requires e.ResetAt? && e.left > 0 ==> e.failed
      requires decoder.polite ==> !e.GaveUp?
      requires RightTry(e, Refusals(trace))
      modifies this`trace
      ensures Sane() && trace == old(trace) + [e]
      ensures trace[..|trace| - 1] == old(trace)
    {
      Extend(trace, e);
      trace := trace + [e];
    }

    /** Hand out every frame the decoder has, up to an error; false if a stop was seen. */
    method Drain() returns (ok: bool)
      requires Sane()
      modifies this`stop, this`trace, decoder
      ensures Sane() && decoder.draining == old(decoder.draining)
      ensures ok ==> decoder.hungry && (decoder.draining && !decoder.failed ==> decoder.buffer == [])
      ensures !ok ==> stop
      ensures old(stop) ==> stop
      ensures Taken(trace) == old(Taken(trace)) && Undecided(trace) == old(Undecided(trace))
      ensures Skipping(trace) == old(Skipping(trace)) && Refusals(trace) == old(Refusals(trace))
    {
      var frame := decoder.Receive();
      while frame.Some?
        invariant Sane() && decoder.draining == old(decoder.draining)
        invariant frame.None? ==> decoder.hungry && (decoder.draining && !decoder.failed ==> decoder.buffer == [])
        invariant old(stop) ==> stop
        invariant Taken(trace) == old(Taken(trace)) && Undecided(trace) == old(Undecided(trace))
        invariant Skipping(trace) == old(Skipping(trace)) && Refusals(trace) == old(Refusals(trace))
        decreases |decoder.buffer|, frame.Some?
      {
        Log(FrameOut(frame.value));
        var stopped := StopRequested();
        if stopped { return false; }
        frame := decoder.Receive();
      }
      ok := true;
    }

    /** Offer one packet until the decoder takes it, draining in between; false if a stop was seen. */
    method Feed(packet: Packet) returns (ok: bool)
      requires Sane() && !decoder.draining && Undecided(trace) == 0
      requires Skipping(trace) ==> packet.key
      modifies this`stop, this`trace, decoder
      ensures Sane() && !decoder.draining
      ensures ok ==> Undecided(trace) == 0
      ensures !ok ==> stop
      ensures old(stop) ==> stop
      ensures Taken(trace) == old(Taken(trace)) + [Data(packet)]
      ensures !Skipping(trace)
    {
      Log(Offered(packet));
      var attempts := 0;
      var accepted := decoder.Send(packet);
      while !accepted
        invariant 0 <= attempts <= GIVE_UP_AFTER
        invariant decoder.polite && attempts > 0 ==> accepted
        invariant Sane() && !decoder.draining && Undecided(trace) == 1
        invariant Taken(trace) == old(Taken(trace)) + [Data(packet)]
        invariant !Skipping(trace) && Refusals(trace) == attempts
        invariant old(stop) ==> stop
        decreases GIVE_UP_AFTER - attempts, !accepted
      {
        Log(Refused(packet));
        ok := Drain();
        if !ok { return; }
        attempts := attempts + 1;
        if attempts > GIVE_UP_AFTER { break; }
        accepted := decoder.Send(packet);
      }
      Log(if accepted then Accepted(packet) else GaveUp(packet));
      ok := Drain();
    }

    /** A marker: drain the decoder, then reset it; false if a stop was seen. */
    method TakeMarker() returns (ok: bool)
      requires Sane() && !decoder.draining && Undecided(trace) == 0
      modifies this`stop, this`trace, decoder
      ensures Sane() && (ok ==> !decoder.draining && Undecided(trace) == 0)
      ensures !ok ==> stop
      ensures Taken(trace) == old(Taken(trace)) + [Marker] && Skipping(trace) == old(Skipping(trace))
    {
      Log(MarkerTaken);
      decoder.SendNull();
      ok := Drain();
      if !ok { return; }
      Log(ResetAt(|decoder.buffer|, decoder.failed));
      decoder.Reset();
    }

    /** A packet: discard it or feed it; false if a stop was seen. `next` is the new value of skipping. */
    method TakePacket(packet: Packet, skipping: bool) returns (ok: bool, next: bool)
      requires Sane() && !decoder.draining && Undecided(trace) == 0 && skipping == Skipping(trace)
      modifies this`stop, this`trace, decoder
      ensures Sane() && !decoder.draining && (ok ==> Undecided(trace) == 0)
      ensures !ok ==> stop
      ensures Taken(trace) == old(Taken(trace)) + [Data(packet)] && next == Skipping(trace)
    {
      var shouldSkip: bool := *;
      var decision := Shed(skipping, shouldSkip, packet.key);
      next := decision.0;
      if decision.1 {
        Log(Discarded(packet));
        ok := true;
      } else {
        ok := Feed(packet);
      }
    }

    /**
     The loop of Decode over the items its queue delivers. Pop gives the next one, or nothing when the
     queue is closed and drained (or empty after a stop). Every choice of should_skip is covered.
     */
    method Decode(packets: seq<Item>) returns (taken: nat, finished: bool)
      requires trace == [] && !decoder.draining
      modifies this, decoder
      ensures taken <= |packets| && Taken(trace) == packets[..taken]
      ensures KeyframeSafe(trace)
      ensures ResetsDrained(trace)
      ensures GivesUpAtNine(trace) && (decoder.polite ==> NeverGaveUp(trace))
      ensures finished ==> taken == |packets| && Undecided(trace) == 0 && (decoder.failed || decoder.buffer == [])
      ensures !finished ==> stop
    {
      taken, finished := 0, false;
      var skipping := false;
      while taken < |packets|
        invariant taken <= |packets| && Taken(trace) == packets[..taken]
        invariant Sane() && !decoder.draining && Undecided(trace) == 0
        invariant skipping == Skipping(trace)
      {
        var stopped := StopRequested();
        var empty: bool := *;
        if stopped && empty { return; }
        var item := packets[taken];
        taken := taken + 1;
        assert packets[..taken] == packets[..taken - 1] + [item];
        var ok;
        match item {
          case Marker => ok := TakeMarker();
          case Data(packet) => ok, skipping := TakePacket(packet, skipping);
        }
        if !ok { return; }
      }
      var stopped := StopRequested();
      if stopped { return; }
      decoder.SendNull();
      finished := Drain();
    }
  }
}
