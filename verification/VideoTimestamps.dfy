/** How decoded video frames get their timestamps (src/av/video_processor.cpp, Process and Emit without a filter). */
module VideoTimestamps {
  import opened Options
  import opened Products
  import opened Rescale

  /** The timing fields of a decoded frame, in ticks of its time base. */
  datatype Decoded = Decoded(bestEffort: Option<int>, pts: Option<int>, duration: int)

  /** Ticks given by Process, and the microseconds Emit makes of them. */
  datatype Stamp = Stamp(ticks: int, ptsUs: int, durationUs: int)

  datatype Config = Config(timeBase: TimeBase, frameRate: TimeBase)

  /** One frame lasts this many ticks, nominally. */
  function NominalTicks(c: Config): int {
    ScaleQ(1, Rational(c.frameRate.den, c.frameRate.num), c.timeBase)
  }

  function TicksOf(f: Decoded, next: Option<int>): int {
    if f.bestEffort.Some? then f.bestEffort.value
    else if f.pts.Some? then f.pts.value
    else if next.Some? then next.value else 0
  }

  function Length(f: Decoded, c: Config): int {
    if f.duration > 0 then f.duration else NominalTicks(c)
  }

  function LengthUs(f: Decoded, c: Config): int {
    if f.duration > 0 then ToMicros(f.duration, c.timeBase) else Scale(1000000, c.frameRate.den, c.frameRate.num)
  }

  function StampOf(f: Decoded, next: Option<int>, c: Config): Stamp {
    var ticks := TicksOf(f, next);
    Stamp(ticks, ToMicros(ticks, c.timeBase), LengthUs(f, c))
  }

  class VideoProcessor {
    const config: Config
    var nextInPts: Option<int>
    var nextOutUs: int

    constructor (config: Config)
      ensures this.config == config && nextInPts == None
    {
      this.config := config;
      nextInPts, nextOutUs := None, 0;
    }

    method Process(f: Decoded) returns (out: Stamp)
      modifies this
      ensures out == StampOf(f, old(nextInPts), config)
      ensures nextInPts == Some(out.ticks + Length(f, config)) && nextOutUs == out.ptsUs + out.durationUs
    {
      var pts := if f.bestEffort.Some? then f.bestEffort else f.pts;
      if pts.None? { pts := if nextInPts.Some? then nextInPts else Some(0); }
      var duration := if f.duration > 0 then f.duration else NominalTicks(config);
      nextInPts := Some(pts.value + duration);
      out := Emit(pts, f.duration);
    }

    method Emit(pts: Option<int>, duration: int) returns (out: Stamp)
      modifies this`nextOutUs
      ensures pts.Some? ==> out.ticks == pts.value && out.ptsUs == ToMicros(pts.value, config.timeBase)
      ensures pts.None? ==> out.ptsUs == old(nextOutUs)
      ensures out.durationUs == LengthUs(Decoded(None, None, duration), config)
      ensures nextOutUs == out.ptsUs + out.durationUs
    {
      var frameUs := Scale(1000000, config.frameRate.den, config.frameRate.num);
      var ptsUs := if pts.Some? then ToMicros(pts.value, config.timeBase) else nextOutUs;
      var durationUs := if duration > 0 then ToMicros(duration, config.timeBase) else frameUs;
      nextOutUs := ptsUs + durationUs;
      out := Stamp(if pts.Some? then pts.value else 0, ptsUs, durationUs);
    }
  }

  /**
   A frame with a best-effort timestamp, or else with a plain one, is stamped with it, within half a microsecond. It
   lasts its duration, or else the period of the nominal frame rate, within half a microsecond too.
   */
  lemma StampIsTrue(f: Decoded, next: Option<int>, c: Config)
    ensures var out, tick := StampOf(f, next, c), Tick(c.timeBase);
            && (f.bestEffort.Some? ==> out.ticks == f.bestEffort.value)
            && (f.bestEffort.None? && f.pts.Some? ==> out.ticks == f.pts.value)
            && -0.5 <= out.ptsUs as real - out.ticks as real * tick <= 0.5
            && (f.duration > 0 ==> -0.5 <= out.durationUs as real - f.duration as real * tick <= 0.5)
            && (f.duration <= 0 ==>
                  -c.frameRate.num <= 2 * (out.durationUs * c.frameRate.num - 1000000 * c.frameRate.den) <= c.frameRate.num)
  {
    hide ToMicros, Tick;
    ToMicrosNear(TicksOf(f, next), c.timeBase);
    ToMicrosNear(f.duration, c.timeBase);
  }

  // ---------------------------------------------------------------- streams without timestamps

  function Next(frames: seq<Decoded>, c: Config): Option<int> {
    if frames == [] then None
    else
      var n := |frames| - 1;
      Some(TicksOf(frames[n], Next(frames[..n], c)) + Length(frames[n], c))
  }

  /** A frame without a timestamp starts where the frame before it ends, whatever that one had. */
  lemma TimelessFrameFollowsOn(frames: seq<Decoded>, g: Decoded, f: Decoded, c: Config)
    requires f.bestEffort.None? && f.pts.None?
    ensures var before, out := StampOf(g, Next(frames, c), c), StampOf(f, Next(frames + [g], c), c);
            && (g.duration > 0 ==> out.ticks == before.ticks + g.duration)
            && (g.duration <= 0 ==> out.ticks == before.ticks + NominalTicks(c))
    ensures StampOf(f, Next([], c), c).ticks == 0
  {
    assert (frames + [g])[..|frames|] == frames;
  }

  function TotalLength(frames: seq<Decoded>, c: Config): int {
    if frames == [] then 0 else TotalLength(frames[..|frames| - 1], c) + Length(frames[|frames| - 1], c)
  }

  ghost predicate Timeless(frames: seq<Decoded>) {
    forall i :: 0 <= i < |frames| ==> frames[i].bestEffort.None? && frames[i].pts.None?
  }

  lemma {:induction false} NextIsTotal(frames: seq<Decoded>, c: Config)
    requires Timeless(frames)
    ensures Next(frames, c) == if frames == [] then None else Some(TotalLength(frames, c))
  {
    if frames != [] { NextIsTotal(frames[..|frames| - 1], c); }
  }

  /**
   Positions are kept in ticks, so conversion to microseconds adds no drift: each frame without a timestamp
   is stamped within half a microsecond of the exact sum of the durations before it.
   */
  lemma TimelessVideoDoesNotDrift(frames: seq<Decoded>, f: Decoded, c: Config)
    requires Timeless(frames + [f])
    ensures var out := StampOf(f, Next(frames, c), c);
            && out.ticks == TotalLength(frames, c)
            && -0.5 <= out.ptsUs as real - TotalLength(frames, c) as real * Tick(c.timeBase) <= 0.5
  {
    hide ToMicros, Tick, NominalTicks;
    assert (frames + [f])[..|frames|] == frames && (frames + [f])[|frames|] == f;
    assert forall i :: 0 <= i < |frames| ==> frames[i] == (frames + [f])[i];
    NextIsTotal(frames, c);
    ToMicrosNear(TotalLength(frames, c), c.timeBase);
  }

  /** Ticks of one frame period, times this, is exact. */
  function TicksTimes(c: Config): (d: int)
    ensures d > 0
  {
    Positive(c.timeBase.num, c.frameRate.num);
    c.timeBase.num * c.frameRate.num
  }

  function PeriodTimes(c: Config): int {
    c.frameRate.den * c.timeBase.den
  }

  lemma {:induction false} NominalTotal(frames: seq<Decoded>, c: Config)
    requires forall i :: 0 <= i < |frames| ==> frames[i].duration <= 0
    ensures TotalLength(frames, c) == |frames| * NominalTicks(c)
  {
    if frames != [] { NominalTotal(frames[..|frames| - 1], c); }
  }

  /**
   The nominal duration is rounded to ticks, and that does accumulate: after n frames without timestamp or
   duration the position is off by at most n half ticks, and it is exact for n > 0 just when a frame period
   is a whole number of ticks.
   */
  lemma NominalDurationDrift(frames: seq<Decoded>, c: Config)
    requires forall i :: 0 <= i < |frames| ==> frames[i].duration <= 0
    ensures var error := TotalLength(frames, c) * TicksTimes(c) - |frames| * PeriodTimes(c);
            && -(|frames| * TicksTimes(c)) <= 2 * error <= |frames| * TicksTimes(c)
            && (frames != [] ==> (error == 0 <==> PeriodTimes(c) % TicksTimes(c) == 0))
  {
    hide TotalLength, NominalTicks, TicksTimes, PeriodTimes;
    NominalTotal(frames, c);
    NominalError(c);
    var n, e := |frames|, NominalTicks(c) * TicksTimes(c) - PeriodTimes(c);
    Regroup(n, NominalTicks(c), TicksTimes(c), PeriodTimes(c));
    Bound(n, 2 * e, TicksTimes(c));
    if n > 0 && n * e == 0 { NoZeroDivisors(n, e); }
  }

  /** The same for a single frame. */
  lemma NominalError(c: Config)
    ensures var error := NominalTicks(c) * TicksTimes(c) - PeriodTimes(c);
            && -TicksTimes(c) <= 2 * error <= TicksTimes(c)
            && (error == 0 <==> PeriodTimes(c) % TicksTimes(c) == 0)
  {
    hide NominalTicks, TicksTimes, PeriodTimes;
    NominalIsRounded(c);
    ExactIfWhole(PeriodTimes(c), TicksTimes(c));
  }

  lemma ExactIfWhole(p: int, d: int)
    requires d > 0
    ensures RoundDiv(p, d) * d == p <==> p % d == 0
  {
    hide RoundDiv;
    if RoundDiv(p, d) * d == p { WholeMultiple(RoundDiv(p, d), d); }
    if p % d == 0 {
      RoundDivExact(p / d, d);
      assert p / d * d == p;
    }
  }

  lemma NominalIsRounded(c: Config)
    ensures NominalTicks(c) == RoundDiv(PeriodTimes(c), TicksTimes(c))
  {
  }

  lemma Regroup(n: int, q: int, d: int, p: int)
    ensures n * q * d - n * p == n * (q * d - p) && 2 * (n * (q * d - p)) == n * (2 * (q * d - p))
  {
  }

  lemma Bound(n: nat, x: int, d: int)
    requires -d <= x <= d
    ensures -(n * d) <= n * x <= n * d
  {
    Grows(x, d, n);
    Grows(-d, x, n);
  }

  lemma NoZeroDivisors(n: int, e: int)
    requires n > 0 && n * e == 0
    ensures e == 0
  {
    if e > 0 { Positive(n, e); } else if e < 0 { Positive(n, -e); }
  }

  lemma WholeMultiple(q: int, d: int)
    requires d > 0
    ensures q * d % d == 0
  {
    var r := q * d % d;
    assert q * d == q * d / d * d + r;
    if q != q * d / d { Gap(if q < q * d / d then q else q * d / d, if q < q * d / d then q * d / d else q, d); }
  }
}
