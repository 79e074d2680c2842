/**
 Rational rescaling of timestamps (src/av/ffmpeg.hpp).

 FFmpeg's av_rescale and av_rescale_q compute a*b/c exactly and round to the nearest integer, halves
 away from zero. The model uses mathematical integers, so only the rounding remains.
 */
module Rescale {
  import opened Products

  /** A time base or frame rate; both parts are positive wherever the program uses one. */
  datatype Rational = Rational(num: int, den: int)

  type TimeBase = r: Rational | r.num > 0 && r.den > 0 witness Rational(1, 1)

  const MICROS: TimeBase := Rational(1, 1000000)

  /** n/d rounded to nearest, halves away from zero. The two bounds determine the result uniquely. */
  function RoundDiv(n: int, d: int): (r: int)
    requires d > 0
    ensures n >= 0 ==> -d < 2 * (r * d - n) <= d
    ensures n <= 0 ==> -d <= 2 * (r * d - n) < d
    ensures n == 0 ==> r == 0
  {
    if n >= 0 then (HalfUp(n, d); (2 * n + d) / (2 * d))
    else (HalfUp(-n, d); NegateProduct((-2 * n + d) / (2 * d), d); -((-2 * n + d) / (2 * d)))
  }

  lemma HalfUp(x: int, d: int)
    requires x >= 0 && d > 0
    ensures -d < 2 * ((2 * x + d) / (2 * d) * d - x) <= d
    ensures x == 0 ==> (2 * x + d) / (2 * d) == 0
  {
    var q := (2 * x + d) / (2 * d);
    assert 2 * x + d == q * (2 * d) + (2 * x + d) % (2 * d);
    assert q * (2 * d) == 2 * (q * d);
    if x == 0 && q != 0 { Gap(0, q, d); }
  }

  lemma NegateProduct(q: int, d: int)
    ensures -q * d == -(q * d)
  {
  }

  /** Any integer meeting RoundDiv's bounds is RoundDiv. */
  lemma RoundDivUnique(n: int, d: int, r: int)
    requires d > 0
    requires n >= 0 ==> -d < 2 * (r * d - n) <= d
    requires n <= 0 ==> -d <= 2 * (r * d - n) < d
    ensures r == RoundDiv(n, d)
  {
    var q := RoundDiv(n, d);
    if r < q { Gap(r, q, d); }
    if q < r { Gap(q, r, d); }
  }

  lemma RoundDivMonotone(m: int, n: int, d: int)
    requires d > 0 && m <= n
    ensures RoundDiv(m, d) <= RoundDiv(n, d)
  {
    var p, q := RoundDiv(m, d), RoundDiv(n, d);
    if q < p { Gap(q, p, d); }
  }

  /** A whole number of units rescales without error. */
  lemma RoundDivExact(k: int, d: int)
    requires d > 0
    ensures RoundDiv(k * d, d) == k
  {
    RoundDivUnique(k * d, d, k);
  }

  /** The rounding error is at most half a unit. */
  lemma RoundDivNear(n: int, d: int)
    requires d > 0
    ensures -0.5 <= RoundDiv(n, d) as real - n as real / d as real <= 0.5
  {
    var r := RoundDiv(n, d);
    var x := n as real / d as real;
    assert x * d as real == n as real;
    var e := r as real - x;
    assert (r * d) as real == r as real * d as real;
    HalfBound(e, d as real, (r * d - n) as real);
  }

  lemma HalfBound(e: real, d: real, p: real)
    requires d > 0.0 && p == e * d
    requires -d <= p + p <= d
    ensures -0.5 <= e <= 0.5
  {
    if e > 0.5 { MulLess(0.5, e, d); }
    if e < -0.5 { MulLess(e, -0.5, d); }
  }

  lemma MulLess(a: real, b: real, d: real)
    requires a < b && d > 0.0
    ensures a * d < b * d
  {
    assert (b - a) * d > 0.0;
  }

  /** av_rescale(a, b, c). */
  function Scale(a: int, b: int, c: int): int
    requires c > 0
  {
    RoundDiv(a * b, c)
  }

  /** av_rescale_q(a, from, to): a ticks of one time base counted in ticks of the other. */
  function ScaleQ(a: int, from: TimeBase, to: TimeBase): int {
    Positive(from.den, to.num);
    RoundDiv(a * (from.num * to.den), to.num * from.den)
  }

  lemma Positive(a: int, b: int)
    requires a > 0 && b > 0
    ensures a * b > 0 && b * a > 0
  {
  }

  function ToMicros(ts: int, timeBase: TimeBase): int {
    ScaleQ(ts, timeBase, MICROS)
  }

  function FromMicros(us: int, timeBase: TimeBase): int {
    ScaleQ(us, MICROS, timeBase)
  }

  /** The length of one tick, in microseconds. */
  ghost function Tick(timeBase: TimeBase): (t: real)
    ensures t > 0.0
  {
    timeBase.num as real * 1000000.0 / timeBase.den as real
  }

  lemma ToMicrosNear(ts: int, timeBase: TimeBase)
    ensures -0.5 <= ToMicros(ts, timeBase) as real - ts as real * Tick(timeBase) <= 0.5
  {
    var n := ts * (timeBase.num * 1000000);
    assert ToMicros(ts, timeBase) == RoundDiv(n, timeBase.den);
    RoundDivNear(n, timeBase.den);
    MicrosOfTicks(ts, timeBase);
  }

  lemma MicrosOfTicks(ts: int, timeBase: TimeBase)
    ensures (ts * (timeBase.num * 1000000)) as real / timeBase.den as real == ts as real * Tick(timeBase)
  {
    assert (ts * (timeBase.num * 1000000)) as real == ts as real * (timeBase.num as real * 1000000.0);
  }

  lemma FromMicrosNear(us: int, timeBase: TimeBase)
    ensures -0.5 * Tick(timeBase) <= FromMicros(us, timeBase) as real * Tick(timeBase) - us as real
                                  <= 0.5 * Tick(timeBase)
  {
    var n, d := us * timeBase.den, timeBase.num * 1000000;
    var r := RoundDiv(n, d);
    assert r == FromMicros(us, timeBase);
    RoundDivNear(n, d);
    TicksNear(us, timeBase, r);
  }

  lemma TicksNear(us: int, timeBase: TimeBase, r: int)
    requires var n, d := us * timeBase.den, timeBase.num * 1000000;
             -0.5 <= r as real - n as real / d as real <= 0.5
    ensures -0.5 * Tick(timeBase) <= r as real * Tick(timeBase) - us as real <= 0.5 * Tick(timeBase)
  {
    var x := (us * timeBase.den) as real / (timeBase.num * 1000000) as real;
    ExactTicks(us, timeBase);
    ScaleError(r as real, x, Tick(timeBase));
  }

  lemma ExactTicks(us: int, timeBase: TimeBase)
    ensures (us * timeBase.den) as real / (timeBase.num * 1000000) as real * Tick(timeBase) == us as real
  {
    var n, d := us * timeBase.den, timeBase.num * 1000000;
    assert n as real == us as real * timeBase.den as real;
    assert d as real == timeBase.num as real * 1000000.0;
    Quotient(us as real, timeBase.den as real, d as real);
  }

  lemma Quotient(u: real, den: real, d: real)
    requires den > 0.0 && d > 0.0
    ensures (u * den) / d * (d / den) == u
  {
    assert (u * den) / d == u * (den / d);
    assert (den / d) * (d / den) == 1.0;
  }

  lemma ScaleError(r: real, x: real, t: real)
    requires -0.5 <= r - x <= 0.5 && t > 0.0
    ensures -0.5 * t <= r * t - x * t <= 0.5 * t
  {
    assert r * t - x * t == (r - x) * t;
  }

  lemma ToMicrosMonotone(a: int, b: int, timeBase: TimeBase)
    requires a <= b
    ensures ToMicros(a, timeBase) <= ToMicros(b, timeBase)
  {
    var f := timeBase.num * 1000000;
    Grows(a, b, f);
    RoundDivMonotone(a * f, b * f, timeBase.den);
  }
}
