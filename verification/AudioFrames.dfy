/** From decoded audio frames to blocks, over any sequence of frames (src/av/audio_processor.cpp, Process and Flush). */
module AudioFrames {
  import opened Options
  import opened Products
  import opened Rescale
  import opened AudioProcessor
  import opened AudioTrimming

  /** A frame's block, whole, with the format it came in. */
  datatype Piece = Piece(block: Block, rate: int, layout: int)

  predicate Plays(f: InFrame) {
    f.samples > 0 && f.rate > 0 && f.planes != []
  }

  ghost predicate AllFit(frames: seq<InFrame>) {
    forall i :: 0 <= i < |frames| ==> frames[i].Valid()
  }

  /** Where the last frame that plays ends, rounded, from its own start; `start` if there is none. */
  function EndOf(start: int, frames: seq<InFrame>, timeBase: TimeBase): int
    decreases |frames|, 0
  {
    if frames == [] then start
    else
      var n := |frames| - 1;
      if !Plays(frames[n]) then EndOf(start, frames[..n], timeBase)
      else StartOf(start, frames[..n], frames[n], timeBase) + Scale(frames[n].samples, 1000000, frames[n].rate)
  }

  /** A frame starts at its timestamp; without one, where the last frame that plays ends. */
  function StartOf(start: int, before: seq<InFrame>, f: InFrame, timeBase: TimeBase): int
    decreases |before|, 1
  {
    match f.ts
    case Some(ts) => ToMicros(ts, timeBase)
    case None => EndOf(start, before, timeBase)
  }

  /** The blocks of all frames that play, in order. */
  function Pieces(start: int, frames: seq<InFrame>, timeBase: TimeBase): (r: seq<Piece>)
    requires AllFit(frames)
    ensures forall i :: 0 <= i < |r| ==> r[i].block.rate == r[i].rate > 0 && r[i].block.samplesPerChannel > 0
  {
    if frames == [] then []
    else
      var n := |frames| - 1;
      var f := frames[n];
      var before := Pieces(start, frames[..n], timeBase);
      if !Plays(f) then before
      else before + [Piece(BlockOf(f, StartOf(start, frames[..n], f, timeBase)), f.rate, f.layout)]
  }

  /** Piece i as it is let go of: trimmed against the next one of the same format, otherwise flushed whole. */
  function Cut(pieces: seq<Piece>, i: nat): Block
    requires i < |pieces| && pieces[i].block.rate > 0
  {
    var p := pieces[i];
    if i + 1 < |pieces| && pieces[i + 1].rate == p.rate && pieces[i + 1].layout == p.layout
    then Trim(p.block, pieces[i + 1].block.pts) else p.block
  }

  ghost predicate Playable(pieces: seq<Piece>) {
    forall i :: 0 <= i < |pieces| ==> pieces[i].block.rate == pieces[i].rate > 0 && pieces[i].block.samplesPerChannel > 0
  }

  /** The first k pieces, each as it is let go of, without those of which nothing is left. */
  function LetGo(pieces: seq<Piece>, k: nat): seq<Block>
    requires Playable(pieces) && k <= |pieces|
  {
    if k == 0 then []
    else LetGo(pieces, k - 1) + if Cut(pieces, k - 1).samplesPerChannel > 0 then [Cut(pieces, k - 1)] else []
  }

  lemma {:induction false} LetGoOfPrefix(pieces: seq<Piece>, p: Piece, k: nat)
    requires Playable(pieces + [p]) && k < |pieces|
    ensures Playable(pieces) && LetGo(pieces + [p], k) == LetGo(pieces, k)
  {
    assert forall i :: 0 <= i < |pieces| ==> pieces[i] == (pieces + [p])[i];
    if k > 0 { LetGoOfPrefix(pieces, p, k - 1); }
  }

  // ---------------------------------------------------------------- what Process does to a sequence of frames

  /** The processor after `pieces`, and what it has let go of. */
  ghost predicate Held(r: (State, seq<Block>), pieces: seq<Piece>, end: int)
    requires Playable(pieces)
  {
    var n := |pieces|;
    && r.0.nextInUs == end
    && if n == 0 then r.0.held == None && r.1 == []
       else && r.0.held == Some(pieces[n - 1].block) && r.0.format == Some((pieces[n - 1].rate, pieces[n - 1].layout))
            && r.1 == LetGo(pieces, n - 1)
  }

  lemma OnePiece(r: (State, seq<Block>), pieces: seq<Piece>, end: int, f: InFrame, pts: int, timeBase: TimeBase)
    requires Playable(pieces) && Held(r, pieces, end) && f.Valid() && Plays(f)
    requires pts == if f.ts.Some? then ToMicros(f.ts.value, timeBase) else end
    ensures var more := pieces + [Piece(BlockOf(f, pts), f.rate, f.layout)];
            && Playable(more)
            && Process(r.0, f, timeBase).0.held == Some(BlockOf(f, pts))
            && Held((Process(r.0, f, timeBase).0, r.1 + Process(r.0, f, timeBase).1), more,
                    pts + Scale(f.samples, 1000000, f.rate))
  {
    var n, next := |pieces|, Piece(BlockOf(f, pts), f.rate, f.layout);
    var more := pieces + [next];
    assert Playable(more) by { assert forall i :: 0 <= i < n ==> more[i] == pieces[i]; }
    var p := Process(r.0, f, timeBase);
    if n == 0 {
      assert Flush(r.0).1 == [] && Emit(None, next.block).1 == [];
      assert LetGo(more, 0) == [];
    } else {
      LetGoOfPrefix(pieces, next, n - 1);
      assert more[n - 1] == pieces[n - 1];
      ProcessNext(r.0, f, pts, timeBase);
      assert LetGo(more, n) == r.1 + p.1;
    }
  }

  /** With a block held, the next frame that plays lets go of it, cut to fit or, on a change of format, whole. */
  lemma ProcessNext(s: State, f: InFrame, pts: int, timeBase: TimeBase)
    requires s.held.Some? && s.held.value.rate > 0 && s.held.value.samplesPerChannel > 0 && f.Valid() && Plays(f)
    requires pts == if f.ts.Some? then ToMicros(f.ts.value, timeBase) else s.nextInUs
    ensures var kept := if s.format == Some((f.rate, f.layout)) then Trim(s.held.value, pts) else s.held.value;
            Process(s, f, timeBase).1 == if kept.samplesPerChannel > 0 then [kept] else []
    ensures Process(s, f, timeBase).0
            == State(Some(BlockOf(f, pts)), pts + Scale(f.samples, 1000000, f.rate), Some((f.rate, f.layout)))
  {
    hide ToMicros, Scale, Trim, Pack;
    var b := s.held.value;
    if s.format != Some((f.rate, f.layout)) {
      assert Emit(None, BlockOf(f, pts)).1 == [] && [b] + [] == [b];
    } else {
      assert forall x: seq<Block> :: [] + x == x;
    }
  }

  lemma {:induction false} FramesBecomePieces(s: State, frames: seq<InFrame>, timeBase: TimeBase)
    requires AllFit(frames) && s.held.None?
    ensures Held(ProcessAll(s, frames, timeBase), Pieces(s.nextInUs, frames, timeBase), EndOf(s.nextInUs, frames, timeBase))
  {
    hide Held, Process;
    if frames == [] {
      NothingHeld(s);
    } else {
      var n := |frames| - 1;
      var f := frames[n];
      FramesBecomePieces(s, frames[..n], timeBase);
      var r, pieces := ProcessAll(s, frames[..n], timeBase), Pieces(s.nextInUs, frames[..n], timeBase);
      assert f.Valid() && forall g <- frames :: g.Valid();
      if Plays(f) {
        OnePiece(r, pieces, EndOf(s.nextInUs, frames[..n], timeBase), f, StartOf(s.nextInUs, frames[..n], f, timeBase), timeBase);
      } else {
        Ignored(r.0, f, timeBase);
        assert r.1 + [] == r.1;
      }
    }
  }

  lemma NothingHeld(s: State)
    requires s.held.None?
    ensures Held((s, []), [], s.nextInUs)
  {
  }

  lemma Ignored(s: State, f: InFrame, timeBase: TimeBase)
    requires f.Valid() && !Plays(f) && (s.held.Some? ==> s.held.value.rate > 0)
    ensures Process(s, f, timeBase) == (s, [])
  {
  }

  // ---------------------------------------------------------------- when a frame plays

  lemma {:induction false} EndIsBlockEnd(start: int, frames: seq<InFrame>, timeBase: TimeBase)
    requires AllFit(frames)
    ensures var pieces := Pieces(start, frames, timeBase);
            EndOf(start, frames, timeBase) == if pieces == [] then start else EndUs(pieces[|pieces| - 1].block)
  {
    if frames != [] && !Plays(frames[|frames| - 1]) { EndIsBlockEnd(start, frames[..|frames| - 1], timeBase); }
  }

  /**
   The block of any frame that plays starts at the frame's timestamp, to the nearest microsecond; without one it
   starts where the block before it ends, or where the processor stood if there is none.
   */
  lemma FramesPlayOnTime(s: State, frames: seq<InFrame>, f: InFrame, timeBase: TimeBase)
    requires AllFit(frames + [f]) && s.held.None? && Plays(f)
    ensures (forall g <- frames :: g.Valid()) && (forall g <- frames + [f] :: g.Valid())
    ensures var before, after := ProcessAll(s, frames, timeBase).0.held, ProcessAll(s, frames + [f], timeBase).0.held;
            && after.Some? && after.value.samplesPerChannel == f.samples && after.value.rate == f.rate
            && (f.ts.None? ==> after.value.pts == if before.Some? then EndUs(before.value) else s.nextInUs)
            && (f.ts.Some? ==> -0.5 <= after.value.pts as real - f.ts.value as real * Tick(timeBase) <= 0.5)
  {
    hide ToMicros, Tick, Pack, Process, EndUs;
    assert (frames + [f])[..|frames|] == frames;
    assert forall i :: 0 <= i < |frames| ==> frames[i] == (frames + [f])[i];
    FramesBecomePieces(s, frames, timeBase);
    FramesBecomePieces(s, frames + [f], timeBase);
    EndIsBlockEnd(s.nextInUs, frames, timeBase);
    if f.ts.Some? { ToMicrosNear(f.ts.value, timeBase); }
  }

  // ---------------------------------------------------------------- what comes out

  /** Everything the sink has received once the processor is flushed. */
  function Played(s: State, frames: seq<InFrame>, timeBase: TimeBase): seq<Block>
    requires (forall f <- frames :: f.Valid()) && s.held.None?
  {
    var (s', out) := ProcessAll(s, frames, timeBase);
    out + Flush(s').1
  }

  /**
   For any mix of frames, with and without timestamps, of any formats, unusable ones included: the output is, in
   input order, the block of every frame that plays, cut against the next one of the same format and whole
   before a change of format and at the end, as far as a sample of it is left.
   */
  lemma OutputOfFrames(s: State, frames: seq<InFrame>, timeBase: TimeBase)
    requires AllFit(frames) && s.held.None?
    ensures forall f <- frames :: f.Valid()
    ensures var pieces := Pieces(s.nextInUs, frames, timeBase);
            Played(s, frames, timeBase) == LetGo(pieces, |pieces|)
  {
    FramesBecomePieces(s, frames, timeBase);
  }

  function SamplesTo(pieces: seq<Piece>, k: nat): int
    requires k <= |pieces|
  {
    if k == 0 then 0 else SamplesTo(pieces, k - 1) + pieces[k - 1].block.samplesPerChannel
  }

  /** Samples cut off the first k pieces. */
  function CutOff(pieces: seq<Piece>, k: nat): int
    requires Playable(pieces) && k <= |pieces|
  {
    if k == 0 then 0
    else CutOff(pieces, k - 1) + (pieces[k - 1].block.samplesPerChannel - Cut(pieces, k - 1).samplesPerChannel)
  }

  lemma CutIsShorter(pieces: seq<Piece>, i: nat)
    requires Playable(pieces) && i < |pieces|
    ensures 0 <= Cut(pieces, i).samplesPerChannel <= pieces[i].block.samplesPerChannel
    ensures Cut(pieces, i) == pieces[i].block.(samplesPerChannel := Cut(pieces, i).samplesPerChannel)
  {
  }

  lemma {:induction false} LetGoConserves(pieces: seq<Piece>, k: nat)
    requires Playable(pieces) && k <= |pieces|
    ensures SamplesTo(pieces, k) == SamplesIn(LetGo(pieces, k)) + CutOff(pieces, k) && CutOff(pieces, k) >= 0
  {
    if k > 0 {
      LetGoConserves(pieces, k - 1);
      CutIsShorter(pieces, k - 1);
      AppendSamples(LetGo(pieces, k - 1), Cut(pieces, k - 1));
      assert LetGo(pieces, k - 1) + [] == LetGo(pieces, k - 1);
    }
  }

  /** Every sample of a frame that plays comes out, or was cut off. */
  lemma FrameSamplesAreConserved(s: State, frames: seq<InFrame>, timeBase: TimeBase)
    requires AllFit(frames) && s.held.None?
    ensures forall f <- frames :: f.Valid()
    ensures var pieces := Pieces(s.nextInUs, frames, timeBase);
            SamplesOf(frames) == SamplesIn(Played(s, frames, timeBase)) + CutOff(pieces, |pieces|)
  {
    OutputOfFrames(s, frames, timeBase);
    var pieces := Pieces(s.nextInUs, frames, timeBase);
    LetGoConserves(pieces, |pieces|);
    SamplesOfPieces(s.nextInUs, frames, timeBase);
  }

  function SamplesOf(frames: seq<InFrame>): int {
    if frames == [] then 0
    else
      var n := |frames| - 1;
      SamplesOf(frames[..n]) + if Plays(frames[n]) then frames[n].samples else 0
  }

  lemma {:induction false} SamplesOfPieces(start: int, frames: seq<InFrame>, timeBase: TimeBase)
    requires AllFit(frames)
    ensures var pieces := Pieces(start, frames, timeBase); SamplesTo(pieces, |pieces|) == SamplesOf(frames)
  {
    if frames != [] {
      var n := |frames| - 1;
      var before, pieces := Pieces(start, frames[..n], timeBase), Pieces(start, frames, timeBase);
      SamplesOfPieces(start, frames[..n], timeBase);
      if Plays(frames[n]) { SamplesPrefix(before, pieces, |before|); }
    }
  }

  lemma {:induction false} SamplesPrefix(before: seq<Piece>, pieces: seq<Piece>, k: nat)
    requires k <= |before| <= |pieces| && forall i :: 0 <= i < |before| ==> before[i] == pieces[i]
    ensures SamplesTo(before, k) == SamplesTo(pieces, k)
  {
    if k > 0 { SamplesPrefix(before, pieces, k - 1); }
  }

  /**
   So trimming works for frames as it does for blocks: where the next frame of the same format does not start
   earlier, a block that overlapped it by between 1 and 100 ms ends within half a sample and half a microsecond
   of its start, and any other is left as it is.
   */
  lemma FramesAreTrimmed(pieces: seq<Piece>, i: nat)
    requires Playable(pieces) && i + 1 < |pieces| && pieces[i].block.Valid()
    requires pieces[i].block.pts <= pieces[i + 1].block.pts
    ensures var b, next := pieces[i].block, pieces[i + 1].block.pts;
            var rest := EndUs(Cut(pieces, i)) - next;
            if pieces[i + 1].rate == b.rate && pieces[i + 1].layout == pieces[i].layout && 1000 < EndUs(b) - next < 100000
            then -(1000000 + b.rate) <= 2 * (rest * b.rate) <= 1000000 + b.rate
            else Cut(pieces, i) == b
  {
    TrimBound(pieces[i].block, pieces[i + 1].block.pts);
  }
}
