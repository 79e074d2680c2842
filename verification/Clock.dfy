/**
 The presentation clock (src/util/clock.cpp): media timestamps in microseconds are mapped to send
 deadlines (steady clock, nanoseconds) and NDI timecodes (UTC, units of 100 ns).

 The steady clock and UTC differ by the fixed `utcOffset`.
 */
module Clock {
  import opened Options

  const US := 1000
  const MS := 1000 * US
  const SECOND := 1000 * MS

  datatype Clock = Clock(
    expected: int,
    ready: nat,
    started: bool,
    firstReady: Option<int>,  // when the first stream arrived
    minFirstPts: Option<int>, // None is the source's INT64_MAX
    originUs: int,
    epoch: int,               // when originUs is due
    utcEpoch: int,            // the timecode of originUs
    preroll: int,
    startTimeout: int,
    utcOffset: int
  )

  function NewClock(streams: int, preroll: int, startTimeout: int, utcOffset: int): Clock {
    Clock(streams, 0, false, None, None, 0, 0, 0, preroll, startTimeout, utcOffset)
  }

  function Min(a: int, b: int): int {
    if a <= b then a else b
  }

  /** Integer division as C++ does it: towards zero. */
  function TruncDiv(n: int, d: int): int
    requires d > 0
  {
    if n >= 0 then n / d else -(-n / d)
  }

  function UtcNs(c: Clock, at: int): int {
    at + c.utcOffset
  }

  /** UtcNow100ns: the UTC time of a steady-clock instant, in whole units of 100 ns. */
  function Utc100ns(c: Clock, at: int): int {
    TruncDiv(UtcNs(c, at), 100)
  }

  /** The first section of WaitForStart, up to its loop. */
  function Arrive(c: Clock, pts: int, now: int): Clock {
    c.(ready := c.ready + 1,
       minFirstPts := Some(if c.minFirstPts.None? then pts else Min(c.minFirstPts.value, pts)),
       firstReady := if c.firstReady.None? then Some(now) else c.firstReady)
  }

  /** The condition under which the loop of WaitForStart starts playback. */
  predicate MayStart(c: Clock, now: int) {
    !c.started && (c.ready >= c.expected || (c.firstReady.Some? && now >= c.firstReady.value + c.startTimeout))
  }

  /** StartLocked. */
  function Start(c: Clock, now: int): Clock {
    var epoch := now + c.preroll;
    c.(originUs := if c.minFirstPts.Some? then c.minFirstPts.value else c.originUs,
       epoch := epoch, utcEpoch := Utc100ns(c, epoch), started := true)
  }

  /** One turn of the loop of WaitForStart. */
  function Poll(c: Clock, now: int): Clock {
    if MayStart(c, now) then Start(c, now) else c
  }

  function StreamFinished(c: Clock): Clock {
    c.(expected := c.expected - 1)
  }

  function DueTime(c: Clock, pts: int): int {
    c.epoch + (pts - c.originUs) * US
  }

  function Timecode(c: Clock, pts: int): int {
    c.utcEpoch + (pts - c.originUs) * 10
  }

  function Resync(c: Clock, pts: int, when: int): Clock {
    var offset := pts - c.originUs;
    c.(epoch := when - offset * US, utcEpoch := Utc100ns(c, when) - offset * 10)
  }

  // ---------------------------------------------------------------- the clock object

  class PresentationClock {
    var expected: int
    var ready: nat
    var started: bool
    var firstReady: Option<int>
    var minFirstPts: Option<int>
    var originUs: int
    var epoch: int
    var utcEpoch: int
    const preroll: int
    const startTimeout: int
    const utcOffset: int

    function State(): Clock
      reads this
    {
      Clock(expected, ready, started, firstReady, minFirstPts, originUs, epoch, utcEpoch,
            preroll, startTimeout, utcOffset)
    }

    constructor (streams: int, preroll: int, startTimeout: int, utcOffset: int)
      ensures State() == NewClock(streams, preroll, startTimeout, utcOffset)
    {
      expected, ready, started := streams, 0, false;
      firstReady, minFirstPts := None, None;
      originUs, epoch, utcEpoch := 0, 0, 0;
      this.preroll, this.startTimeout, this.utcOffset := preroll, startTimeout, utcOffset;
    }

    /** WaitForStart up to the point where it returns or sleeps; `done` means it returns true. */
    method EnterWaitForStart(firstPts: int, now: int) returns (done: bool)
      modifies this
      ensures State() == Poll(Arrive(old(State()), firstPts, now), now)
      ensures done == started
      ensures old(started) ==> DueTime(State(), firstPts) == old(DueTime(State(), firstPts))
    {
      ready := ready + 1;
      minFirstPts := Some(if minFirstPts.None? then firstPts else Min(minFirstPts.value, firstPts));
      if firstReady.None? { firstReady := Some(now); }
      done := CheckStart(now);
    }

    /** A woken waiter: false from the wait when stopped, otherwise another turn of the loop. */
    method ResumeWaitForStart(now: int, stop: bool) returns (done: bool)
      modifies this
      ensures State() == if stop then old(State()) else Poll(old(State()), now)
      ensures done == (!stop && started)
    {
      if stop { return false; }
      done := CheckStart(now);
    }

    method CheckStart(now: int) returns (done: bool)
      modifies this
      ensures State() == Poll(old(State()), now) && done == started
    {
      if !started {
        if ready >= expected || (firstReady.Some? && now >= firstReady.value + startTimeout) {
          StartLocked(now);
        }
      }
      done := started;
    }

    method StartLocked(now: int)
      modifies this
      ensures State() == Start(old(State()), now)
    {
      if minFirstPts.Some? { originUs := minFirstPts.value; }
      epoch := now + preroll;
      utcEpoch := Utc100ns(State(), epoch);
      started := true;
    }

    method FinishStream()
      modifies this
      ensures State() == StreamFinished(old(State()))
    {
      expected := expected - 1;
    }

    method DoResync(ptsUs: int, when: int)
      modifies this
      ensures State() == Resync(old(State()), ptsUs, when)
      ensures DueTime(State(), ptsUs) == when
    {
      var offset := ptsUs - originUs;
      epoch := when - offset * US;
      utcEpoch := Utc100ns(State(), when) - offset * 10;
    }
  }

  // ---------------------------------------------------------------- timecodes and deadlines agree

  /** The timecode of the origin is the UTC time of its deadline, rounded down to 100 ns. */
  ghost predicate Anchored(c: Clock) {
    c.started ==> c.utcEpoch == UtcNs(c, c.epoch) / 100
  }

  datatype Op = ArriveOp(pts: int) | PollOp | FinishOp | ResyncOp(pts: int)

  /** One operation on the clock at steady time `now`. */
  function Apply(c: Clock, op: Op, now: int): Clock {
    match op
    case ArriveOp(pts) => Poll(Arrive(c, pts, now), now)
    case PollOp => Poll(c, now)
    case FinishOp => StreamFinished(c)
    case ResyncOp(pts) => Resync(c, pts, now)
  }

  function ApplyAll(c: Clock, ops: seq<(Op, int)>): Clock {
    if ops == [] then c
    else Apply(ApplyAll(c, ops[..|ops| - 1]), ops[|ops| - 1].0, ops[|ops| - 1].1)
  }

  lemma ResyncAnchored(c: Clock, pts: int, when: int)
    requires UtcNs(c, when) >= 0
    ensures Anchored(Resync(c, pts, when))
  {
    var offset := pts - c.originUs;
    assert (UtcNs(c, when) - offset * 1000) / 100 == UtcNs(c, when) / 100 - offset * 10;
  }

  lemma {:induction false} RunAnchored(c: Clock, ops: seq<(Op, int)>)
    requires Anchored(c) && c.preroll >= 0
    requires forall i :: 0 <= i < |ops| ==> UtcNs(c, ops[i].1) >= 0
    ensures var d := ApplyAll(c, ops);
            Anchored(d) && d.utcOffset == c.utcOffset && d.preroll == c.preroll && (c.started ==> d.started)
  {
    if ops != [] {
      var n := |ops| - 1;
      RunAnchored(c, ops[..n]);
      var before := ApplyAll(c, ops[..n]);
      match ops[n].0
      case ResyncOp(pts) => ResyncAnchored(before, pts, ops[n].1);
      case _ =>
    }
  }

  /**
   After any sequence of arrivals, starts, finishes and resyncs, a started clock gives every timestamp
   the timecode that UTC shows at its deadline: no drift accumulates. The only exception is the one
   truncation towards zero causes for deadlines before 1970 that are not whole units of 100 ns.
   */
  lemma TimecodeIsUtcOfDueTime(streams: int, preroll: nat, startTimeout: int, utcOffset: int,
                               ops: seq<(Op, int)>, pts: int)
    requires forall i :: 0 <= i < |ops| ==> ops[i].1 + utcOffset >= 0
    requires ApplyAll(NewClock(streams, preroll, startTimeout, utcOffset), ops).started
    ensures
      var c := ApplyAll(NewClock(streams, preroll, startTimeout, utcOffset), ops);
      var due := UtcNs(c, DueTime(c, pts));
      && Timecode(c, pts) == due / 100
      && (Timecode(c, pts) == Utc100ns(c, DueTime(c, pts)) <==> due >= 0 || due % 100 == 0)
  {
    var c0 := NewClock(streams, preroll, startTimeout, utcOffset);
    RunAnchored(c0, ops);
    var c := ApplyAll(c0, ops);
    var offset := pts - c.originUs;
    assert (UtcNs(c, c.epoch) + offset * 1000) / 100 == UtcNs(c, c.epoch) / 100 + offset * 10;
  }

  /** Deadlines and timecodes of two timestamps differ by exactly the difference of the timestamps. */
  lemma MapIsAffine(c: Clock, p: int, q: int)
    ensures DueTime(c, q) - DueTime(c, p) == (q - p) * US
    ensures Timecode(c, q) - Timecode(c, p) == (q - p) * 10
  {
  }

  lemma TimecodeMonotone(c: Clock, p: int, q: int)
    requires p <= q
    ensures Timecode(c, p) <= Timecode(c, q) && DueTime(c, p) <= DueTime(c, q)
  {
  }
}
