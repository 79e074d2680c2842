/**
 The audio processor's passthrough path (src/av/audio_processor.cpp): planes are packed into one block, one
 block is held back, and its tail is trimmed when the next block starts slightly before it ends.
 */
module AudioProcessor {
  import opened Options
  import opened Products
  import opened Rescale

  const OVERLAP_TOLERANCE_US := 1000
  const MAX_OVERLAP_TRIM_US := 100000

  type Sample = real

  /** An AudioFrame: channel c starts at samples[c * channelStride]. */
  datatype Block = Block(samples: seq<Sample>, rate: int, channels: nat, samplesPerChannel: int, channelStride: nat,
                         pts: int)
  {
    ghost predicate Valid() {
      && rate > 0 && 0 <= samplesPerChannel <= channelStride
      && |samples| == channels * channelStride
    }
  }

  function EndUs(b: Block): int
    requires b.rate > 0
  {
    b.pts + Scale(b.samplesPerChannel, 1000000, b.rate)
  }

  /** Distance by which `b` reaches past `next`; positive when they overlap. */
  function Overlap(b: Block, next: int): int
    requires b.rate > 0
  {
    EndUs(b) - next
  }

  predicate InTrimWindow(overlap: int) {
    OVERLAP_TOLERANCE_US < overlap < MAX_OVERLAP_TRIM_US
  }

  function Clamp(x: int, low: int, high: int): int {
    if x < low then low else if x > high then high else x
  }

  /** What is left of the held block when the next one starts at `next`. */
  function Trim(b: Block, next: int): Block
    requires b.rate > 0
  {
    if InTrimWindow(Overlap(b, next))
    then b.(samplesPerChannel := Clamp(Scale(next - b.pts, b.rate, 1000000), 0, b.samplesPerChannel))
    else b
  }

  /** Emit: hold `block` back, and let go of the one held before unless nothing of it is left. */
  function Emit(held: Option<Block>, block: Block): (Option<Block>, seq<Block>)
    requires held.Some? ==> held.value.rate > 0
  {
    (Some(block),
     if held.None? then []
     else
       var kept := Trim(held.value, block.pts);
       if kept.samplesPerChannel <= 0 then [] else [kept])
  }

  // ---------------------------------------------------------------- frames

  /** A decoded frame of planar floats; `layout` stands for its sample format and channel layout. */
  datatype InFrame = InFrame(planes: seq<seq<Sample>>, samples: int, rate: int, layout: int, ts: Option<int>)
  {
    predicate Usable() {
      samples > 0 && rate > 0 && |planes| > 0
    }

    ghost predicate Valid() {
      forall c :: 0 <= c < |planes| ==> |planes[c]| >= samples
    }
  }

  datatype State = State(held: Option<Block>, nextInUs: int, format: Option<(int, int)>)

  function Flush(s: State): (State, seq<Block>) {
    (s.(held := None), if s.held.Some? then [s.held.value] else [])
  }

  function PtsOf(f: InFrame, timeBase: TimeBase, nextInUs: int): int {
    if f.ts.Some? then ToMicros(f.ts.value, timeBase) else nextInUs
  }

  /** Channel after channel, each one plane. */
  function Pack(planes: seq<seq<Sample>>, n: nat): (r: seq<Sample>)
    requires forall c :: 0 <= c < |planes| ==> |planes[c]| >= n
    ensures |r| == |planes| * n
  {
    if planes == [] then [] else Pack(planes[..|planes| - 1], n) + planes[|planes| - 1][..n]
  }

  function BlockOf(f: InFrame, pts: int): Block
    requires f.Usable() && f.Valid()
  {
    Block(Pack(f.planes, f.samples), f.rate, |f.planes|, f.samples, f.samples, pts)
  }

  /** Process, with everything it passes to the sink. */
  function Process(s: State, f: InFrame, timeBase: TimeBase): (State, seq<Block>)
    requires f.Valid() && (s.held.Some? ==> s.held.value.rate > 0)
  {
    if !f.Usable() then (s, [])
    else
      var changed := s.format != Some((f.rate, f.layout));
      var (s1, first) := if changed then Flush(s) else (s, []);
      var pts := PtsOf(f, timeBase, s.nextInUs);
      var (held, rest) := Emit(s1.held, BlockOf(f, pts));
      (State(held, pts + Scale(f.samples, 1000000, f.rate), Some((f.rate, f.layout))), first + rest)
  }

  // ---------------------------------------------------------------- the processor object

  class Processor {
    const timeBase: TimeBase
    var held: Option<Block>
    var nextInUs: int
    var format: Option<(int, int)>

    function View(): State
      reads this
    {
      State(held, nextInUs, format)
    }

    ghost predicate Valid()
      reads this
    {
      held.Some? ==> held.value.Valid()
    }

    constructor (timeBase: TimeBase)
      ensures Valid() && View() == State(None, 0, None) && this.timeBase == timeBase
    {
      this.timeBase := timeBase;
      held, nextInUs, format := None, 0, None;
    }

    method DoProcess(f: InFrame) returns (sent: seq<Block>)
      requires Valid() && f.Valid()
      modifies this
      ensures Valid() && (View(), sent) == Process(old(View()), f, timeBase)
    {
      sent := [];
      if f.samples <= 0 || f.rate <= 0 || |f.planes| == 0 { return; }
      if format != Some((f.rate, f.layout)) {
        sent := DoFlush();
        format := Some((f.rate, f.layout));
      }
      var pts := if f.ts.Some? then ToMicros(f.ts.value, timeBase) else nextInUs;
      nextInUs := pts + Scale(f.samples, 1000000, f.rate);
      var samples := CopyPlanes(f.planes, f.samples);
      var rest := DoEmit(Block(samples, f.rate, |f.planes|, f.samples, f.samples, pts));
      sent := sent + rest;
    }

    method CopyPlanes(planes: seq<seq<Sample>>, n: nat) returns (samples: seq<Sample>)
      requires forall c :: 0 <= c < |planes| ==> |planes[c]| >= n
      ensures samples == Pack(planes, n)
    {
      samples := [];
      for c := 0 to |planes|
        invariant samples == Pack(planes[..c], n)
      {
        assert planes[..c + 1][..c] == planes[..c];
        samples := samples + planes[c][..n];
      }
      assert planes[..|planes|] == planes;
    }

    method DoEmit(block: Block) returns (sent: seq<Block>)
      requires Valid() && block.Valid()
      modifies this`held
      ensures Valid() && (held, sent) == Emit(old(held), block)
    {
      sent := [];
      var previous := held;
      held := Some(block);
      if previous.None? { return; }
      var b := previous.value;
      var overlap := EndUs(b) - block.pts;
      if overlap > OVERLAP_TOLERANCE_US && overlap < MAX_OVERLAP_TRIM_US {
        var keep := Scale(block.pts - b.pts, b.rate, 1000000);
        b := b.(samplesPerChannel := Clamp(keep, 0, b.samplesPerChannel));
      }
      if b.samplesPerChannel <= 0 { return; }
      sent := [b];
    }

    method DoFlush() returns (sent: seq<Block>)
      requires Valid()
      modifies this`held
      ensures Valid() && (View(), sent) == Flush(old(View()))
    {
      sent := [];
      if held.Some? {
        sent := [held.value];
        held := None;
      }
    }
  }

  // ---------------------------------------------------------------- samples

  function Channel(b: Block, c: nat): seq<Sample>
    requires b.Valid() && c < b.channels
  {
    InBounds(c, b.channels, b.channelStride);
    b.samples[c * b.channelStride..c * b.channelStride + b.samplesPerChannel]
  }

  lemma InBounds(c: nat, channels: nat, stride: nat)
    requires c < channels
    ensures c * stride + stride <= channels * stride
  {
    Gap(c, channels, stride);
  }

  lemma {:induction false} PackedChannel(planes: seq<seq<Sample>>, n: nat, c: nat)
    requires forall k :: 0 <= k < |planes| ==> |planes[k]| >= n
    requires c < |planes|
    ensures c * n + n <= |planes| * n && Pack(planes, n)[c * n..c * n + n] == planes[c][..n]
  {
    InBounds(c, |planes|, n);
    var last := |planes| - 1;
    var front := Pack(planes[..last], n);
    assert |front| == last * n;
    if c < last {
      PackedChannel(planes[..last], n, c);
      assert Pack(planes, n)[c * n..c * n + n] == front[c * n..c * n + n];
    }
  }

  /** Every channel of a block, trimmed or not, is the beginning of the frame's plane. */
  lemma BlockIsPrefixOfFrame(f: InFrame, pts: int, next: int, c: nat)
    requires f.Usable() && f.Valid() && c < |f.planes|
    ensures BlockOf(f, pts).Valid() && Trim(BlockOf(f, pts), next).Valid()
    ensures Channel(BlockOf(f, pts), c) == f.planes[c][..f.samples]
    ensures Channel(Trim(BlockOf(f, pts), next), c) <= f.planes[c]
  {
    PackedChannel(f.planes, f.samples, c);
    InBounds(c, |f.planes|, f.samples);
    var b := BlockOf(f, pts);
    var t := Trim(b, next);
    assert Channel(t, c) == Channel(b, c)[..t.samplesPerChannel];
  }
}
