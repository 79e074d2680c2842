/** What holding back and trimming achieve over whole sequences of audio blocks (src/av/audio_processor.cpp). */
module AudioTrimming {
  import opened Options
  import opened Products
  import opened Rescale
  import opened AudioProcessor

  ghost predicate AllValid(blocks: seq<Block>) {
    forall i :: 0 <= i < |blocks| ==> blocks[i].Valid()
  }

  /** The held block and everything let go of, after `blocks` have been emitted one by one. */
  function EmitAll(blocks: seq<Block>): (r: (Option<Block>, seq<Block>))
    requires AllValid(blocks)
    ensures r.0 == if blocks == [] then None else Some(blocks[|blocks| - 1])
  {
    if blocks == [] then (None, [])
    else
      var n := |blocks| - 1;
      var (held, out) := EmitAll(blocks[..n]);
      var (held', more) := Emit(held, blocks[n]);
      (held', out + more)
  }

  /** All blocks the sink receives, the flushed one included. */
  function Output(blocks: seq<Block>): seq<Block>
    requires AllValid(blocks)
  {
    EmitAll(blocks).1 + if blocks == [] then [] else [blocks[|blocks| - 1]]
  }

  // ---------------------------------------------------------------- the delay line, in closed form

  /** Block i as it is let go of: trimmed against its successor; the last one is flushed whole. */
  function Kept(blocks: seq<Block>, i: nat): (b: Block)
    requires AllValid(blocks) && i < |blocks|
    ensures b.Valid() && b == blocks[i].(samplesPerChannel := b.samplesPerChannel)
    ensures b.samplesPerChannel <= blocks[i].samplesPerChannel
  {
    if i + 1 < |blocks| then Trim(blocks[i], blocks[i + 1].pts) else blocks[i]
  }

  /** The first k blocks, each cut as Kept says, without those of which nothing is left. */
  function Survivors(blocks: seq<Block>, k: nat): seq<Block>
    requires AllValid(blocks) && k <= |blocks|
  {
    if k == 0 then []
    else Survivors(blocks, k - 1) + if Kept(blocks, k - 1).samplesPerChannel > 0 then [Kept(blocks, k - 1)] else []
  }

  lemma {:induction false} SurvivorsOfPrefix(blocks: seq<Block>, k: nat)
    requires AllValid(blocks) && k + 1 < |blocks|
    ensures Survivors(blocks[..|blocks| - 1], k) == Survivors(blocks, k)
  {
    if k > 0 { SurvivorsOfPrefix(blocks, k - 1); }
  }

  lemma EmitOne(blocks: seq<Block>)
    requires AllValid(blocks) && |blocks| == 1
    ensures EmitAll(blocks).1 == []
  {
    assert blocks[..0] == [];
    assert EmitAll(blocks[..0]).1 == [];
  }

  lemma {:induction false} EmitAllIsSurvivors(blocks: seq<Block>)
    requires AllValid(blocks) && blocks != []
    ensures EmitAll(blocks).1 == Survivors(blocks, |blocks| - 1)
  {
    var n := |blocks| - 1;
    if n > 0 {
      EmitAllIsSurvivors(blocks[..n]);
      SurvivorsOfPrefix(blocks, n - 1);
      assert blocks[..n][n - 1] == blocks[n - 1];
    } else {
      EmitOne(blocks);
    }
  }

  /**
   The one-block delay line refines trimming each block against its successor: the sink receives, in input
   order, a prefix of every input block, except blocks that would be left without a sample.
   */
  lemma OutputIsTrimmedInput(blocks: seq<Block>)
    requires AllValid(blocks) && forall i :: 0 <= i < |blocks| ==> blocks[i].samplesPerChannel > 0
    ensures Output(blocks) == Survivors(blocks, |blocks|)
  {
    if blocks != [] {
      EmitAllIsSurvivors(blocks);
    }
  }

  // ---------------------------------------------------------------- samples are conserved

  function SamplesIn(blocks: seq<Block>): int {
    if blocks == [] then 0 else SamplesIn(blocks[..|blocks| - 1]) + blocks[|blocks| - 1].samplesPerChannel
  }

  /** Samples cut off the first k blocks. */
  function TrimmedOff(blocks: seq<Block>, k: nat): nat
    requires AllValid(blocks) && k <= |blocks|
  {
    if k == 0 then 0
    else TrimmedOff(blocks, k - 1) + (blocks[k - 1].samplesPerChannel - Kept(blocks, k - 1).samplesPerChannel)
  }

  lemma AppendSamples(blocks: seq<Block>, b: Block)
    ensures SamplesIn(blocks + [b]) == SamplesIn(blocks) + b.samplesPerChannel
  {
    assert (blocks + [b])[..|blocks|] == blocks;
  }

  lemma {:induction false} SurvivorsConserve(blocks: seq<Block>, k: nat)
    requires AllValid(blocks) && k <= |blocks|
    ensures SamplesIn(blocks[..k]) == SamplesIn(Survivors(blocks, k)) + TrimmedOff(blocks, k)
  {
    if k > 0 {
      SurvivorsConserve(blocks, k - 1);
      assert blocks[..k] == blocks[..k - 1] + [blocks[k - 1]];
      AppendSamples(blocks[..k - 1], blocks[k - 1]);
      AppendSamples(Survivors(blocks, k - 1), Kept(blocks, k - 1));
      assert Survivors(blocks, k - 1) + [] == Survivors(blocks, k - 1);
    }
  }

  /** After a flush every input sample was either emitted or trimmed. */
  lemma SamplesAreConserved(blocks: seq<Block>)
    requires AllValid(blocks) && forall i :: 0 <= i < |blocks| ==> blocks[i].samplesPerChannel > 0
    ensures SamplesIn(blocks) == SamplesIn(Output(blocks)) + TrimmedOff(blocks, |blocks|)
  {
    OutputIsTrimmedInput(blocks);
    SurvivorsConserve(blocks, |blocks|);
    assert blocks[..|blocks|] == blocks;
  }

  // ---------------------------------------------------------------- how well trimming works

  /** For a block that starts in time, the trim is never clamped. */
  lemma TrimKeepsTheGap(b: Block, next: int)
    requires b.Valid() && b.pts <= next && InTrimWindow(Overlap(b, next))
    ensures 0 <= Scale(next - b.pts, b.rate, 1000000) <= b.samplesPerChannel
    ensures Trim(b, next).samplesPerChannel == Scale(next - b.pts, b.rate, 1000000)
  {
    var gap, n, rate := next - b.pts, b.samplesPerChannel, b.rate;
    var length := RoundDiv(n * 1000000, rate);
    var keep := RoundDiv(gap * rate, 1000000);
    assert gap + 1000 < length;
    Gap(gap + 1000, length, rate);
    Distribute(gap, 1000, rate);
    assert gap * rate < n * 1000000;
    NotNegative(gap, rate);
  }

  /**
   A trimmed block ends within half a sample and half a microsecond of the next block's start, on either
   side: 2 * |end - next| * rate <= 1000000 + rate. An untrimmed one overlaps by at most 1 ms, or by 100 ms
   and more, which is a discontinuity and none of the trimmer's business.
   */
  lemma TrimBound(b: Block, next: int)
    requires b.Valid() && b.pts <= next
    ensures var rest := Overlap(Trim(b, next), next);
            if InTrimWindow(Overlap(b, next))
            then -(1000000 + b.rate) <= 2 * (rest * b.rate) <= 1000000 + b.rate
            else rest == Overlap(b, next) && (rest <= OVERLAP_TOLERANCE_US || rest >= MAX_OVERLAP_TRIM_US)
  {
    if InTrimWindow(Overlap(b, next)) {
      TrimKeepsTheGap(b, next);
      var gap, rate := next - b.pts, b.rate;
      var keep := RoundDiv(gap * rate, 1000000);
      var length := RoundDiv(keep * 1000000, rate);
      assert Overlap(Trim(b, next), next) == length - gap;
      Distribute(length, -gap, rate);
      assert -gap * rate == -(gap * rate);
    }
  }

  ghost predicate NonDecreasing(blocks: seq<Block>) {
    forall i, j :: 0 <= i < j < |blocks| ==> blocks[i].pts <= blocks[j].pts
  }

  /**
   No overlap in the output: with non-decreasing timestamps a surviving block reaches past the start of any
   later block by no more than 1 ms or half a sample and half a microsecond, unless its successor started
   100 ms or more before its end.
   */
  lemma OutputDoesNotOverlap(blocks: seq<Block>, i: nat, j: nat)
    requires AllValid(blocks) && NonDecreasing(blocks) && i < j < |blocks|
    ensures var rest := Overlap(Kept(blocks, i), blocks[j].pts);
            || rest <= OVERLAP_TOLERANCE_US
            || 2 * (rest * blocks[i].rate) <= 1000000 + blocks[i].rate
            || Overlap(blocks[i], blocks[i + 1].pts) >= MAX_OVERLAP_TRIM_US
  {
    var next := blocks[i + 1].pts;
    TrimBound(blocks[i], next);
    Grows(Overlap(Kept(blocks, i), blocks[j].pts), Overlap(Kept(blocks, i), next), blocks[i].rate);
  }

  /**
   And exactly how far a surviving block reaches past a later one, whatever the timestamps: if it was trimmed,
   as far as that later block starts before its successor, up to the same rounding; if not, as far as ever.
   So it is a block starting before its predecessor, and nothing else, that brings overlap back.
   */
  lemma OverlapIsTheBackwardJump(blocks: seq<Block>, i: nat, j: nat)
    requires AllValid(blocks) && i < j < |blocks| && Kept(blocks, i).samplesPerChannel > 0
    ensures var rest := Overlap(Kept(blocks, i), blocks[j].pts);
            var back, rate := blocks[i + 1].pts - blocks[j].pts, blocks[i].rate;
            if InTrimWindow(Overlap(blocks[i], blocks[i + 1].pts))
            then -(1000000 + rate) <= 2 * ((rest - back) * rate) <= 1000000 + rate
            else rest == Overlap(blocks[i], blocks[j].pts)
  {
    var b, next := blocks[i], blocks[i + 1].pts;
    if InTrimWindow(Overlap(b, next)) {
      if next <= b.pts { TrimmedToNothing(b, next); }
      TrimBound(b, next);
      assert Overlap(Kept(blocks, i), blocks[j].pts) - (next - blocks[j].pts) == Overlap(Trim(b, next), next);
    }
  }

  /** A block whose successor starts no later than itself is dropped. */
  lemma TrimmedToNothing(b: Block, next: int)
    requires b.Valid() && InTrimWindow(Overlap(b, next)) && next <= b.pts
    ensures Trim(b, next).samplesPerChannel == 0
  {
    var gap := next - b.pts;
    assert gap * b.rate <= 0;
    NotPositive(gap * b.rate, 1000000);
  }

  lemma NotPositive(n: int, d: int)
    requires d > 0 && n <= 0
    ensures RoundDiv(n, d) <= 0
  {
    RoundDivMonotone(n, 0, d);
  }

  /**
   Without that order the claim fails: a block that starts before its predecessor removes the predecessor
   whole, and then overlaps the block before it by more than the tolerance.
   */
  lemma BackwardTimestampsCanOverlap(a: Block, b: Block, c: Block)
    requires a.Valid() && b.Valid() && c.Valid()
    requires a.rate == b.rate == 48000 && a.samplesPerChannel == b.samplesPerChannel == 960
    requires c.samplesPerChannel > 0 && a.pts == 0 && b.pts == 15000 && c.pts == 10000
    ensures var kept := a.(samplesPerChannel := 720);
            Output([a, b, c]) == [kept, c] && OVERLAP_TOLERANCE_US < Overlap(kept, c.pts) < MAX_OVERLAP_TRIM_US
  {
    var blocks := [a, b, c];
    EmitAllIsSurvivors(blocks);
    assert Survivors(blocks, 1) == [a.(samplesPerChannel := 720)];
    assert Survivors(blocks, 2) == Survivors(blocks, 1) + [];
  }

  // ---------------------------------------------------------------- audio without timestamps

  /** The running position after the first k frames. */
  function Position(start: int, frames: seq<InFrame>, rate: int, k: nat): int
    requires k <= |frames| && rate > 0
  {
    if k == 0 then start else Position(start, frames, rate, k - 1) + Scale(frames[k - 1].samples, 1000000, rate)
  }

  function CountTo(frames: seq<InFrame>, k: nat): int
    requires k <= |frames|
  {
    if k == 0 then 0 else CountTo(frames, k - 1) + frames[k - 1].samples
  }

  ghost predicate Timeless(frames: seq<InFrame>, rate: int, layout: int) {
    forall f <- frames :: f.Usable() && f.Valid() && f.ts.None? && f.rate == rate && f.layout == layout
  }

  function ProcessAll(s: State, frames: seq<InFrame>, timeBase: TimeBase): (r: (State, seq<Block>))
    requires (forall f <- frames :: f.Valid()) && (s.held.Some? ==> s.held.value.rate > 0)
    ensures r.0.held.Some? ==> r.0.held.value.rate > 0
  {
    if frames == [] then (s, [])
    else
      var n := |frames| - 1;
      var (s1, out) := ProcessAll(s, frames[..n], timeBase);
      var (s2, more) := Process(s1, frames[n], timeBase);
      (s2, out + more)
  }

  lemma {:induction false} PositionOfPrefix(start: int, frames: seq<InFrame>, rate: int, n: nat, k: nat)
    requires k <= n <= |frames| && rate > 0
    ensures Position(start, frames[..n], rate, k) == Position(start, frames, rate, k)
  {
    if k > 0 { PositionOfPrefix(start, frames, rate, n, k - 1); }
  }

  /** The blocks of timestamp-less frames, whole, each at the running position. */
  function BlocksAt(start: int, frames: seq<InFrame>, rate: int, k: nat): (r: seq<Block>)
    requires k <= |frames| && rate > 0 && forall f <- frames :: f.Usable() && f.Valid()
    ensures |r| == k
  {
    if k == 0 then []
    else BlocksAt(start, frames, rate, k - 1) + [BlockOf(frames[k - 1], Position(start, frames, rate, k - 1))]
  }

  lemma {:induction false} BlocksOfPrefix(start: int, frames: seq<InFrame>, rate: int, n: nat, k: nat)
    requires k <= n <= |frames| && rate > 0 && forall f <- frames :: f.Usable() && f.Valid()
    ensures BlocksAt(start, frames[..n], rate, k) == BlocksAt(start, frames, rate, k)
  {
    if k > 0 {
      BlocksOfPrefix(start, frames, rate, n, k - 1);
      PositionOfPrefix(start, frames, rate, n, k - 1);
    }
  }

  /** One more timestamp-less frame lets the held block go whole, and starts where that one ends. */
  lemma TimelessStep(s: State, f: InFrame, timeBase: TimeBase)
    requires f.Usable() && f.Valid() && f.ts.None? && (s.held.Some? ==> s.format == Some((f.rate, f.layout)))
    requires s.held.Some? ==>
      s.held.value.rate > 0 && s.held.value.samplesPerChannel > 0 && EndUs(s.held.value) == s.nextInUs
    ensures Process(s, f, timeBase).0 ==
            State(Some(BlockOf(f, s.nextInUs)), s.nextInUs + Scale(f.samples, 1000000, f.rate), Some((f.rate, f.layout)))
    ensures Process(s, f, timeBase).1 == if s.held.Some? then [s.held.value] else []
  {
    var next := BlockOf(f, s.nextInUs);
    if s.held.Some? {
      assert !InTrimWindow(Overlap(s.held.value, next.pts));
      assert Emit(s.held, next) == (Some(next), [s.held.value]);
    } else {
      assert Flush(s) == (s, []) && Emit(s.held, next) == (Some(next), []);
    }
  }

  /** The state and the output TimelessAudioIsUntouched promises. */
  ghost predicate PlayedWhole(blocks: seq<Block>, end: int, format: (int, int), r: (State, seq<Block>)) {
    && blocks != [] && r.0 == State(Some(blocks[|blocks| - 1]), end, Some(format)) && r.1 == blocks[..|blocks| - 1]
    && r.0.held.value.rate > 0 && r.0.held.value.samplesPerChannel > 0 && EndUs(r.0.held.value) == end
  }

  lemma TimelessFirst(s: State, f: InFrame, timeBase: TimeBase)
    requires f.Usable() && f.Valid() && f.ts.None? && s.held.None?
    ensures PlayedWhole([BlockOf(f, s.nextInUs)], s.nextInUs + Scale(f.samples, 1000000, f.rate), (f.rate, f.layout),
                        Process(s, f, timeBase))
  {
    TimelessStep(s, f, timeBase);
  }

  lemma TimelessNext(blocks: seq<Block>, end: int, r: (State, seq<Block>), f: InFrame, timeBase: TimeBase)
    requires f.Usable() && f.Valid() && f.ts.None? && PlayedWhole(blocks, end, (f.rate, f.layout), r)
    ensures var p := Process(r.0, f, timeBase);
            PlayedWhole(blocks + [BlockOf(f, end)], end + Scale(f.samples, 1000000, f.rate), (f.rate, f.layout),
                        (p.0, r.1 + p.1))
  {
    TimelessStep(r.0, f, timeBase);
    var n := |blocks|;
    assert (blocks + [BlockOf(f, end)])[..n] == blocks == blocks[..n - 1] + [blocks[n - 1]];
  }

  /**
   Timestamp-less audio is gapless: every block is let go of whole, and ends exactly where the next one
   starts, for any number of frames of one format.
   */
  lemma {:induction false} TimelessAudioIsUntouched(s: State, frames: seq<InFrame>, rate: int, layout: int,
                                                    timeBase: TimeBase)
    requires rate > 0 && Timeless(frames, rate, layout) && frames != []
    requires s.held.None?
    ensures var n := |frames|;
            PlayedWhole(BlocksAt(s.nextInUs, frames, rate, n), Position(s.nextInUs, frames, rate, n), (rate, layout),
                        ProcessAll(s, frames, timeBase))
  {
    hide PlayedWhole, Process;
    var n := |frames| - 1;
    var start, front, f := s.nextInUs, frames[..n], frames[n];
    assert f in frames;
    if n == 0 {
      assert ProcessAll(s, front, timeBase) == (s, []);
      TimelessFirst(s, f, timeBase);
      assert Position(start, frames, rate, 0) == start && BlocksAt(start, frames, rate, 0) == [];
      assert BlocksAt(start, frames, rate, 1) == [BlockOf(f, start)];
      var p := Process(s, f, timeBase);
      assert [] + p.1 == p.1;
      assert ProcessAll(s, frames, timeBase) == (p.0, p.1);
    } else {
      TimelessAudioIsUntouched(s, front, rate, layout, timeBase);
      PositionOfPrefix(start, frames, rate, n, n);
      BlocksOfPrefix(start, frames, rate, n, n);
      TimelessNext(BlocksAt(start, frames, rate, n), Position(start, frames, rate, n),
                   ProcessAll(s, front, timeBase), f, timeBase);
    }
  }

  /** In the blocks of timestamp-less frames, each ends exactly where the next one starts. */
  lemma {:induction false} BlocksAreAdjacent(start: int, frames: seq<InFrame>, rate: int, layout: int, k: nat, i: nat)
    requires rate > 0 && Timeless(frames, rate, layout) && i + 1 < k <= |frames|
    ensures var blocks := BlocksAt(start, frames, rate, k);
            blocks[i].rate == rate && EndUs(blocks[i]) == blocks[i + 1].pts
  {
    var front := BlocksAt(start, frames, rate, k - 1);
    if i + 2 < k {
      BlocksAreAdjacent(start, frames, rate, layout, k - 1, i);
      assert BlocksAt(start, frames, rate, k)[i] == front[i] && BlocksAt(start, frames, rate, k)[i + 1] == front[i + 1];
    } else {
      var pts := Position(start, frames, rate, i);
      assert frames[i] in frames && BlocksAt(start, frames, rate, k)[i] == front[i] == BlockOf(frames[i], pts);
      assert BlocksAt(start, frames, rate, k)[i + 1] == BlockOf(frames[i + 1], Position(start, frames, rate, i + 1));
    }
  }

  /** After k frames the running position is within k/2 microseconds of the exact sum of their durations. */
  lemma {:induction false} PositionDrift(start: int, frames: seq<InFrame>, rate: int, k: nat)
    requires k <= |frames| && rate > 0
    ensures -(k * rate) <= 2 * ((Position(start, frames, rate, k) - start) * rate - CountTo(frames, k) * 1000000) <= k * rate
  {
    if k > 0 {
      PositionDrift(start, frames, rate, k - 1);
      var step := Scale(frames[k - 1].samples, 1000000, rate);
      Distribute(Position(start, frames, rate, k - 1) - start, step, rate);
      Distribute(k - 1, 1, rate);
    }
  }
}
