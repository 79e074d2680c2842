/**
 The timeline of a looping input over any number of passes (src/av/input.cpp, Account and Restart): passes
 tile it, and rounding does not accumulate.
 */
module LoopTimeline {
  import opened Options
  import opened Rescale
  import opened Input

  /** The selected packets of one pass, as read, each with the description of its stream. */
  type Pass = seq<(RawPacket, StreamInfo)>

  function ReadPass(t: Timeline, pass: Pass): Timeline {
    if pass == [] then t
    else Extend(ReadPass(t, pass[..|pass| - 1]), pass[|pass| - 1].0, pass[|pass| - 1].1)
  }

  /** The timeline when pass number k begins, if every restart up to then was possible. */
  function Begin(passes: seq<Pass>, k: nat): Option<Timeline>
    requires k <= |passes|
  {
    if k == 0 then Some(FRESH)
    else
      var before := Begin(passes, k - 1);
      if before.None? then None
      else
        var t := ReadPass(before.value, passes[k - 1]);
        if CanRestart(t) then Some(Restarted(t)) else None
  }

  function StartUs(x: (RawPacket, StreamInfo)): int
    requires Presented(x.0, x.1).Some?
  {
    ToMicros(Presented(x.0, x.1).value.start, x.1.timeBase)
  }

  function EndUs(x: (RawPacket, StreamInfo)): int
    requires Presented(x.0, x.1).Some?
  {
    ToMicros(Presented(x.0, x.1).value.end, x.1.timeBase)
  }

  predicate Shows(x: (RawPacket, StreamInfo)) {
    Presented(x.0, x.1).Some?
  }

  /** `us` is the latest presented end of the pass. */
  ghost predicate IsEnd(pass: Pass, us: int) {
    && (exists x :: x in pass && Shows(x) && EndUs(x) == us)
    && (forall x :: x in pass && Shows(x) ==> EndUs(x) <= us)
  }

  /** `us` is the earliest presented start of the pass. */
  ghost predicate IsStart(pass: Pass, us: int) {
    && (exists x :: x in pass && Shows(x) && StartUs(x) == us)
    && (forall x :: x in pass && Shows(x) ==> us <= StartUs(x))
  }

  ghost predicate ShowsNothing(pass: Pass) {
    forall x :: x in pass ==> !Shows(x)
  }

  ghost predicate EndsAt(pass: Pass, us: Option<int>) {
    if us.None? then ShowsNothing(pass) else IsEnd(pass, us.value)
  }

  ghost predicate StartsAt(pass: Pass, us: Option<int>) {
    if us.None? then ShowsNothing(pass) else IsStart(pass, us.value)
  }

  lemma EndExtends(pass: Pass, x: (RawPacket, StreamInfo), us: Option<int>)
    requires EndsAt(pass, us)
    ensures EndsAt(pass + [x], if Shows(x) then Some(MaxOf(us, EndUs(x))) else us)
  {
    assert forall y :: y in pass + [x] <==> y in pass || y == x;
    if us.Some? {
      var w :| w in pass && Shows(w) && EndUs(w) == us.value;
      assert w in pass + [x];
    }
  }

  lemma StartExtends(pass: Pass, x: (RawPacket, StreamInfo), us: Option<int>)
    requires StartsAt(pass, us)
    ensures StartsAt(pass + [x], if Shows(x) then Some(MinOf(us, StartUs(x))) else us)
  {
    assert forall y :: y in pass + [x] <==> y in pass || y == x;
    if us.Some? {
      var w :| w in pass && Shows(w) && StartUs(w) == us.value;
      assert w in pass + [x];
    }
  }

  /** What reading a pass measures. */
  lemma {:induction false} ReadPassMeasures(t: Timeline, pass: Pass)
    requires t.passEnd.None? && (t.firstPass ==> t.passStart.None?)
    ensures var u := ReadPass(t, pass);
            && u.firstPass == t.firstPass && u.offsetUs == t.offsetUs
            && EndsAt(pass, u.passEnd)
            && (if t.firstPass then StartsAt(pass, u.passStart) else u.passStart == t.passStart)
  {
    if pass != [] {
      var n := |pass| - 1;
      ReadPassMeasures(t, pass[..n]);
      assert pass == pass[..n] + [pass[n]];
      EndExtends(pass[..n], pass[n], ReadPass(t, pass[..n]).passEnd);
      if t.firstPass { StartExtends(pass[..n], pass[n], ReadPass(t, pass[..n]).passStart); }
    }
  }

  // ---------------------------------------------------------------- offsets

  function SumTo(lengths: seq<int>, k: nat): int
    requires k <= |lengths|
  {
    if k == 0 then 0 else SumTo(lengths, k - 1) + lengths[k - 1]
  }

  /** `start` and `ends` are what the first k passes measure: the first start, and each pass's end. */
  ghost predicate Measured(passes: seq<Pass>, k: nat, start: int, ends: seq<int>) {
    && |ends| == k <= |passes|
    && (k > 0 ==> IsStart(passes[0], start))
    && forall j :: 0 <= j < k ==> IsEnd(passes[j], ends[j]) && ends[j] > start
  }

  function Lengths(start: int, ends: seq<int>): (r: seq<int>)
    ensures |r| == |ends| && forall j :: 0 <= j < |ends| ==> r[j] == ends[j] - start
  {
    seq(|ends|, j requires 0 <= j < |ends| => ends[j] - start)
  }

  lemma {:induction false} SumPrefix(a: seq<int>, b: seq<int>, k: nat)
    requires k <= |a| && k <= |b| && forall j :: 0 <= j < k ==> a[j] == b[j]
    ensures SumTo(a, k) == SumTo(b, k)
  {
    if k > 0 { SumPrefix(a, b, k - 1); }
  }

  /** What the state says at the beginning of pass k. */
  ghost predicate At(t: Timeline, k: nat, start: int) {
    && t.passEnd.None? && t.firstPass == (k == 0)
    && t.passStart == if k == 0 then None else Some(start)
  }

  /** One more pass: what it measures, and what the restart after it makes of that. */
  lemma OneMorePass(passes: seq<Pass>, k: nat, s: int) returns (start: int, end: int)
    requires k < |passes| && Begin(passes, k + 1).Some? && At(Begin(passes, k).value, k, s)
    requires k > 0 ==> IsStart(passes[0], s)
    ensures k > 0 ==> start == s
    ensures IsStart(passes[0], start) && IsEnd(passes[k], end) && end > start
    ensures At(Begin(passes, k + 1).value, k + 1, start)
    ensures Begin(passes, k + 1).value.offsetUs == Begin(passes, k).value.offsetUs + (end - start)
  {
    var t := Begin(passes, k).value;
    var u := ReadPass(t, passes[k]);
    ReadPassMeasures(t, passes[k]);
    start, end := u.passStart.value, u.passEnd.value;
  }

  /**
   After k restarts the offset is the exact sum, in microseconds, of the lengths of the passes before:
   from the earliest start of the first pass to the latest end of each.
   */
  lemma {:induction false} OffsetIsSumOfLengths(passes: seq<Pass>, k: nat) returns (start: int, ends: seq<int>)
    requires k <= |passes| && Begin(passes, k).Some?
    ensures Measured(passes, k, start, ends) && At(Begin(passes, k).value, k, start)
    ensures Begin(passes, k).value.offsetUs == SumTo(Lengths(start, ends), k)
  {
    hide IsStart, IsEnd, Lengths, CanRestart, Restarted, ReadPass;
    if k == 0 {
      start, ends := 0, [];
    } else {
      var s, earlier := OffsetIsSumOfLengths(passes, k - 1);
      var end;
      start, end := OneMorePass(passes, k - 1, s);
      MeasureOneMore(passes, k - 1, s, earlier, start, end);
      ends := earlier + [end];
    }
  }

  lemma MeasureOneMore(passes: seq<Pass>, k: nat, s: int, earlier: seq<int>, start: int, end: int)
    requires k < |passes| && Measured(passes, k, s, earlier) && (k > 0 ==> start == s)
    requires IsStart(passes[0], start) && IsEnd(passes[k], end) && end > start
    ensures Measured(passes, k + 1, start, earlier + [end])
    ensures SumTo(Lengths(start, earlier + [end]), k + 1) == SumTo(Lengths(s, earlier), k) + (end - start)
  {
    hide IsStart, IsEnd;
    SumPrefix(Lengths(start, earlier + [end]), Lengths(s, earlier), k);
  }

  // ---------------------------------------------------------------- tiling

  /** `pts` is the timestamp with which Read returns the packet in a pass with this offset. */
  ghost predicate ReturnedWith(x: (RawPacket, StreamInfo), offsetUs: int, pts: int) {
    Shift(x.0.pts, FromMicros(offsetUs, x.1.timeBase)) == Some(pts)
  }

  /** Where the extent of a packet begins, in microseconds, when it is returned with timestamp `pts`. */
  function PlacedStart(x: (RawPacket, StreamInfo), pts: int): int
    requires Shows(x)
  {
    ToMicros(pts + (Presented(x.0, x.1).value.start - x.0.pts.value), x.1.timeBase)
  }

  function PlacedEnd(x: (RawPacket, StreamInfo), pts: int): int
    requires Shows(x)
  {
    ToMicros(pts + (Presented(x.0, x.1).value.end - x.0.pts.value), x.1.timeBase)
  }

  /** Half a tick of the stream for its offset, and half a microsecond for each of two conversions. */
  ghost function Slack(x: (RawPacket, StreamInfo)): real {
    Tick(x.1.timeBase) / 2.0 + 1.0
  }

  lemma PlacedNear(ts: int, offsetUs: int, timeBase: TimeBase)
    ensures var placed := ToMicros(ts + FromMicros(offsetUs, timeBase), timeBase) as real;
            var exact := (ToMicros(ts, timeBase) + offsetUs) as real;
            exact - (Tick(timeBase) / 2.0 + 1.0) <= placed <= exact + (Tick(timeBase) / 2.0 + 1.0)
  {
    hide *;
    var offset, t := FromMicros(offsetUs, timeBase), Tick(timeBase);
    ToMicrosNear(ts, timeBase);
    ToMicrosNear(ts + offset, timeBase);
    FromMicrosNear(offsetUs, timeBase);
    Distribute(ts, offset, t);
    var a, b := ToMicros(ts, timeBase), ToMicros(ts + offset, timeBase);
    assert (a + offsetUs) as real == a as real + offsetUs as real;
    AddErrors(ts as real * t, offset as real * t, (ts + offset) as real * t, a as real, offsetUs as real, b as real, t);
  }

  /** Half a unit of error at each of two conversions, and half a tick at the third. */
  lemma AddErrors(exact: real, shift: real, moved: real, a: real, us: real, b: real, tick: real)
    requires moved == exact + shift && -0.5 <= a - exact <= 0.5 && -0.5 <= b - moved <= 0.5
    requires -0.5 * tick <= shift - us <= 0.5 * tick
    ensures a + us - (tick / 2.0 + 1.0) <= b <= a + us + (tick / 2.0 + 1.0)
  {
  }

  lemma Distribute(a: int, b: int, t: real)
    ensures (a + b) as real * t == a as real * t + b as real * t
  {
    assert (a + b) as real == a as real + b as real;
  }

  /**
   Passes tile the timeline. However many passes there have been, a packet of pass k+1 that presents nothing
   from before the first pass's start is placed, by the timestamp Read returns it with, no earlier than any end in
   pass k, up to half a tick of each packet's time base plus 2 microseconds; and the packet at the start meets the packet at the end within
   the same bound, so there is no gap either.
   */
  lemma PassesTile(passes: seq<Pass>, k: nat, x: (RawPacket, StreamInfo), y: (RawPacket, StreamInfo),
                   start: int, end: int, ptsX: int, ptsY: int)
    requires k + 1 < |passes| && Begin(passes, k + 1).Some?
    requires IsStart(passes[0], start) && IsEnd(passes[k], end)
    requires x in passes[k] && Shows(x)
    requires y in passes[k + 1] && Shows(y) && StartUs(y) >= start
    requires ReturnedWith(x, Begin(passes, k).value.offsetUs, ptsX)
    requires ReturnedWith(y, Begin(passes, k + 1).value.offsetUs, ptsY)
    ensures PlacedEnd(x, ptsX) as real - PlacedStart(y, ptsY) as real <= Slack(x) + Slack(y)
    ensures EndUs(x) == end && StartUs(y) == start ==>
              PlacedStart(y, ptsY) as real - PlacedEnd(x, ptsX) as real <= Slack(x) + Slack(y)
  {
    var before, after := Begin(passes, k).value.offsetUs, Begin(passes, k + 1).value.offsetUs;
    BeginAdds(passes, k, start, end);
    TileGap(x, y, before, after, ptsX, ptsY);
  }

  lemma BeginAdds(passes: seq<Pass>, k: nat, start: int, end: int)
    requires k < |passes| && Begin(passes, k + 1).Some?
    requires IsStart(passes[0], start) && IsEnd(passes[k], end)
    ensures Begin(passes, k + 1).value.offsetUs == Begin(passes, k).value.offsetUs + end - start
  {
    var s, ends := OffsetIsSumOfLengths(passes, k);
    var s', end' := OneMorePass(passes, k, s);
  }

  lemma TileGap(x: (RawPacket, StreamInfo), y: (RawPacket, StreamInfo), before: int, after: int, ptsX: int, ptsY: int)
    requires Shows(x) && Shows(y) && EndUs(x) + before <= StartUs(y) + after
    requires ReturnedWith(x, before, ptsX) && ReturnedWith(y, after, ptsY)
    ensures PlacedEnd(x, ptsX) as real - PlacedStart(y, ptsY) as real <= Slack(x) + Slack(y)
    ensures EndUs(x) + before == StartUs(y) + after ==>
              PlacedStart(y, ptsY) as real - PlacedEnd(x, ptsX) as real <= Slack(x) + Slack(y)
  {
    PlacedNear(Presented(x.0, x.1).value.end, before, x.1.timeBase);
    PlacedNear(Presented(y.0, y.1).value.start, after, y.1.timeBase);
    assert ((EndUs(x) + before) as real) <= (StartUs(y) + after) as real;
  }

  /** Each track's offset stays within half a tick of the exact one: rounding does not accumulate. */
  lemma TrackOffsetNear(passes: seq<Pass>, k: nat, timeBase: TimeBase)
    requires k <= |passes| && Begin(passes, k).Some?
    ensures var us := Begin(passes, k).value.offsetUs;
            -0.5 * Tick(timeBase) <= FromMicros(us, timeBase) as real * Tick(timeBase) - us as real <= 0.5 * Tick(timeBase)
  {
    hide FromMicros, Tick, Begin;
    FromMicrosNear(Begin(passes, k).value.offsetUs, timeBase);
  }

  /**
   Looping makes progress: a restart is possible exactly when the pass presented something that ends after
   the first pass's start, and then the offset grows. So the demux loop cannot spin through empty passes.
   */
  lemma RestartNeedsAPresentedPacket(passes: seq<Pass>, k: nat, start: int)
    requires k < |passes| && Begin(passes, k).Some?
    requires !ShowsNothing(passes[0]) ==> IsStart(passes[0], start)
    ensures Begin(passes, k + 1).Some? <==>
            !ShowsNothing(passes[0]) && exists x :: x in passes[k] && Shows(x) && EndUs(x) > start
    ensures Begin(passes, k + 1).Some? ==> Begin(passes, k + 1).value.offsetUs > Begin(passes, k).value.offsetUs
  {
    var s, ends := OffsetIsSumOfLengths(passes, k);
    var t := Begin(passes, k).value;
    ReadPassMeasures(t, passes[k]);
  }
}
