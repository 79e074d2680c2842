/**
 Where the bytes of a video frame lie (src/av/video_processor.cpp): NDI takes one address and one stride per
 frame, and finds every plane from those. Frames that do not lie that way are copied plane by plane.

 Addresses are positions in one flat memory; a source plane may run upwards (negative line size).
 */
module VideoLayout {
  import opened Options
  import opened Products

  type Byte = b: int | 0 <= b < 256

  /** Other stands for every format NDI has no code for; `rgb` is FFmpeg's RGB flag. */
  datatype Format = Uyvy422 | Nv12 | Yuv420p | Bgra | Bgr0 | Rgba | Rgb0 | Other(rgb: bool)

  datatype FourCC = UYVY | NV12 | I420 | BGRA | BGRX | RGBA | RGBX

  function FourCCFor(f: Format): Option<FourCC> {
    match f
    case Uyvy422 => Some(UYVY)
    case Nv12 => Some(NV12)
    case Yuv420p => Some(I420)
    case Bgra => Some(BGRA)
    case Bgr0 => Some(BGRX)
    case Rgba => Some(RGBA)
    case Rgb0 => Some(RGBX)
    case Other(_) => None
  }

  predicate IsRgb(f: Format) {
    f.Bgra? || f.Bgr0? || f.Rgba? || f.Rgb0? || (f.Other? && f.rgb)
  }

  datatype Component = Y | U | V | R | G | B | A | Unused

  /** The bytes of a group of pixels as FFmpeg's format has them in memory, plane by plane. */
  function SourceBytes(f: Format): seq<seq<Component>> {
    match f
    case Uyvy422 => [[U, Y, V, Y]]
    case Nv12 => [[Y], [U, V]]
    case Yuv420p => [[Y], [U], [V]]
    case Bgra => [[B, G, R, A]]
    case Bgr0 => [[B, G, R, Unused]]
    case Rgba => [[R, G, B, A]]
    case Rgb0 => [[R, G, B, Unused]]
    case Other(_) => []
  }

  /** The bytes NDI expects under a code. */
  function NdiBytes(c: FourCC): seq<seq<Component>> {
    match c
    case UYVY => [[U, Y, V, Y]]
    case NV12 => [[Y], [U, V]]
    case I420 => [[Y], [U], [V]]
    case BGRA => [[B, G, R, A]]
    case BGRX => [[B, G, R, Unused]]
    case RGBA => [[R, G, B, A]]
    case RGBX => [[R, G, B, Unused]]
  }

  /** The code sent with a frame promises the bytes that are there, and no other code does. */
  lemma CodeMatchesBytes(f: Format, c: FourCC)
    requires !f.Other?
    ensures FourCCFor(f) == Some(c) <==> NdiBytes(c) == SourceBytes(f)
  {
    assert SourceBytes(f)[0][0] == match f case Uyvy422 => U case Bgra => B case Bgr0 => B case Rgba => R case Rgb0 => R case _ => Y;
  }

  // ---------------------------------------------------------------- the layouts

  datatype Plane = Plane(offset: int, linesize: int)

  datatype Layout = Layout(planes: seq<Plane>, size: int)

  function Align(x: int, a: int): int
    requires a > 0
  {
    (x + a - 1) / a * a
  }

  /** Rounding up gives the least multiple that suffices. */
  lemma AlignIsLeast(x: int, a: int, k: int)
    requires a > 0
    ensures x <= Align(x, a) < x + a && (x <= k * a ==> Align(x, a) <= k * a)
  {
    var q := (x + a - 1) / a;
    DivBounds(x + a - 1, a);
    if k < q { Gap(k, q, a); }
  }

  lemma DivBounds(y: int, a: int)
    requires a > 0
    ensures y / a * a <= y < y / a * a + a
  {
    assert y == y / a * a + y % a;
  }

  function Half(x: int): int {
    (x + 1) / 2
  }

  /** None where the source throws: there is no NDI layout for the format. */
  function ContiguousLayout(f: Format, width: int, height: int): Option<Layout> {
    match f
    case Uyvy422 =>
      var line := Align(width * 2, 64);
      Some(Layout([Plane(0, line)], line * height))
    case Bgra | Bgr0 | Rgba | Rgb0 =>
      var line := Align(width * 4, 64);
      Some(Layout([Plane(0, line)], line * height))
    case Nv12 =>
      var line := Align(width, 64);
      Some(Layout([Plane(0, line), Plane(line * height, line)], line * height + line * Half(height)))
    case Yuv420p =>
      var line := Align(width, 128);
      var chroma := line / 2;
      var u := line * height;
      var v := u + chroma * Half(height);
      Some(Layout([Plane(0, line), Plane(u, chroma), Plane(v, chroma)], v + chroma * Half(height)))
    case Other(_) => None
  }

  // ---------------------------------------------------------------- what is visible

  function PlaneCount(f: Format): nat {
    match f
    case Nv12 => 2
    case Yuv420p => 3
    case Other(_) => 0
    case _ => 1
  }

  /** Lines of plane p; chroma planes have one for every two, the last for an odd one. */
  function Rows(height: int, p: nat): int {
    if p == 0 then height else Half(height)
  }

  /** Bytes of a line of plane p that belong to the picture, chroma samples counted whole. */
  function RowBytes(f: Format, width: int, p: nat): int {
    match f
    case Uyvy422 => 4 * Half(width)
    case Nv12 => if p == 0 then width else 2 * Half(width)
    case Yuv420p => if p == 0 then width else Half(width)
    case _ => 4 * width
  }

  function RowStart(plane: Plane, row: int): int {
    plane.offset + plane.linesize * row
  }

  ghost predicate RowOf(f: Format, height: int, p: nat, row: int) {
    p < PlaneCount(f) && 0 <= row < Rows(height, p)
  }

  /** Strides hold whole samples, planes follow one another without gap or overlap and fill the size. */
  ghost predicate PlaneIsSound(f: Format, width: int, height: int, layout: Layout, p: nat)
    requires p < PlaneCount(f) == |layout.planes|
  {
    && layout.planes[p].linesize >= RowBytes(f, width, p) > 0 && layout.planes[p].linesize % 64 == 0
    && RowStart(layout.planes[p], Rows(height, p))
       == if p + 1 < PlaneCount(f) then layout.planes[p + 1].offset else layout.size
  }

  ghost predicate Sound(f: Format, width: int, height: int, layout: Layout) {
    && |layout.planes| == PlaneCount(f) > 0
    && layout.planes[0].offset == 0
    && forall p: nat :: p < PlaneCount(f) ==> PlaneIsSound(f, width, height, layout, p)
  }

  /** The stride of plane p, by itself. */
  function LineSize(f: Format, width: int, p: nat): int {
    match f
    case Uyvy422 => Align(width * 2, 64)
    case Nv12 => Align(width, 64)
    case Yuv420p => if p == 0 then Align(width, 128) else Align(width, 128) / 2
    case _ => Align(width * 4, 64)
  }

  lemma LineIsSound(f: Format, width: int, p: nat)
    requires width > 0 && FourCCFor(f).Some?
    ensures LineSize(f, width, p) >= RowBytes(f, width, p) > 0 && LineSize(f, width, p) % 64 == 0
  {
    hide Align, Half;
    match f
    case Uyvy422 => PackedLine(width);
    case Nv12 => InterleavedLine(width);
    case Yuv420p => PlanarLine(width);
    case _ => AlignedTo64(width * 4);
  }

  lemma PackedLine(width: int)
    requires width > 0
    ensures Align(width * 2, 64) >= 4 * Half(width) > 0 && Align(width * 2, 64) % 64 == 0
  {
    hide Align;
    AlignedTo64(width * 2);
    var line := Align(width * 2, 64);
    assert line == 4 * (line / 4);
    HalfFits(width, line / 4);
  }

  lemma InterleavedLine(width: int)
    requires width > 0
    ensures Align(width, 64) >= width && Align(width, 64) >= 2 * Half(width) > 0 && Align(width, 64) % 64 == 0
  {
    hide Align;
    AlignedTo64(width);
    var line := Align(width, 64);
    assert line == 2 * (line / 2);
    HalfFits(width, line / 2);
  }

  lemma HalfFits(x: int, y: int)
    requires x <= 2 * y
    ensures Half(x) <= y
  {
  }

  lemma PlanarLine(width: int)
    requires width > 0
    ensures Align(width, 128) >= width && Align(width, 128) / 2 >= Half(width) > 0
    ensures Align(width, 128) % 64 == 0 && Align(width, 128) / 2 % 64 == 0
  {
    hide Align;
    AlignedTo128(width);
    var k := Align(width, 128) / 128;
    assert Align(width, 128) == 128 * k;
    HalfFits(width, 64 * k);
  }

  lemma AlignedTo64(x: int)
    ensures Align(x, 64) >= x && Align(x, 64) % 64 == 0
  {
    assert Align(x, 64) == 64 * ((x + 63) / 64);
  }

  lemma AlignedTo128(x: int)
    ensures Align(x, 128) >= x && Align(x, 128) % 128 == 0
  {
    assert Align(x, 128) == 128 * ((x + 127) / 128);
  }

  lemma PlanesFollowEachOther(f: Format, width: int, height: int, p: nat)
    requires p < PlaneCount(f)
    ensures var layout := ContiguousLayout(f, width, height);
            && layout.Some? && |layout.value.planes| == PlaneCount(f) && layout.value.planes[0].offset == 0
            && layout.value.planes[p].linesize == LineSize(f, width, p)
            && RowStart(layout.value.planes[p], Rows(height, p))
               == if p + 1 < PlaneCount(f) then layout.value.planes[p + 1].offset else layout.value.size
  {
    hide Align;
  }

  /** Odd widths and heights included. */
  lemma LayoutIsSound(f: Format, width: int, height: int)
    requires width > 0 && height > 0 && FourCCFor(f).Some?
    ensures ContiguousLayout(f, width, height).Some?
    ensures Sound(f, width, height, ContiguousLayout(f, width, height).value)
  {
    hide ContiguousLayout, LineSize, Align, RowBytes, Rows;
    PlanesFollowEachOther(f, width, height, 0);
    var layout := ContiguousLayout(f, width, height).value;
    forall p: nat | p < PlaneCount(f) ensures PlaneIsSound(f, width, height, layout, p) {
      PlanesFollowEachOther(f, width, height, p);
      LineIsSound(f, width, p);
    }
  }

  lemma NoLayoutWithoutFourCC(f: Format, width: int, height: int)
    ensures ContiguousLayout(f, width, height).Some? <==> FourCCFor(f).Some?
  {
  }

  lemma LaterRow(plane: Plane, row: int, row': int)
    requires row < row' && plane.linesize >= 0
    ensures RowStart(plane, row) + plane.linesize <= RowStart(plane, row')
  {
    Gap(row, row', plane.linesize);
  }

  /** Every visible line lies inside its plane, and every plane inside the buffer. */
  lemma RowInside(f: Format, width: int, height: int, layout: Layout, p: nat, row: int)
    requires Sound(f, width, height, layout) && RowOf(f, height, p, row)
    ensures 0 <= layout.planes[p].offset <= RowStart(layout.planes[p], row)
    ensures RowStart(layout.planes[p], row) + RowBytes(f, width, p) <= RowStart(layout.planes[p], Rows(height, p)) <= layout.size
  {
    assert PlaneIsSound(f, width, height, layout, p);
    var plane := layout.planes[p];
    LaterRow(plane, row, Rows(height, p));
    if row > 0 { LaterRow(plane, 0, row); }
    PlaneBegins(f, width, height, layout, p);
    PlaneEnds(f, width, height, layout, p);
  }

  lemma {:induction false} PlaneBegins(f: Format, width: int, height: int, layout: Layout, p: nat)
    requires Sound(f, width, height, layout) && p < PlaneCount(f) && height > 0
    ensures 0 <= layout.planes[p].offset
  {
    if p > 0 {
      PlaneBegins(f, width, height, layout, p - 1);
      assert PlaneIsSound(f, width, height, layout, p - 1);
      LaterRow(layout.planes[p - 1], 0, Rows(height, p - 1));
    }
  }

  lemma {:induction false} PlaneEnds(f: Format, width: int, height: int, layout: Layout, p: nat)
    requires Sound(f, width, height, layout) && p < PlaneCount(f) && height > 0
    ensures RowStart(layout.planes[p], Rows(height, p)) <= layout.size
    decreases PlaneCount(f) - p
  {
    assert PlaneIsSound(f, width, height, layout, p);
    if p + 1 < PlaneCount(f) {
      assert PlaneIsSound(f, width, height, layout, p + 1);
      PlaneEnds(f, width, height, layout, p + 1);
      LaterRow(layout.planes[p + 1], 0, Rows(height, p + 1));
    }
  }

  lemma {:induction false} PlanesInOrder(f: Format, width: int, height: int, layout: Layout, p: nat, q: nat)
    requires Sound(f, width, height, layout) && p < q < PlaneCount(f) && height > 0
    ensures RowStart(layout.planes[p], Rows(height, p)) <= layout.planes[q].offset
  {
    assert PlaneIsSound(f, width, height, layout, q - 1);
    if p < q - 1 {
      PlanesInOrder(f, width, height, layout, p, q - 1);
      LaterRow(layout.planes[q - 1], 0, Rows(height, q - 1));
    }
  }

  /** A later line begins after the whole of an earlier one, in the same plane or another. */
  lemma RowsInOrder(f: Format, width: int, height: int, layout: Layout, p: nat, row: int, q: nat, row': int)
    requires Sound(f, width, height, layout) && RowOf(f, height, p, row) && RowOf(f, height, q, row')
    requires p < q || (p == q && row < row')
    ensures RowStart(layout.planes[p], row) + RowBytes(f, width, p) <= RowStart(layout.planes[q], row')
  {
    assert PlaneIsSound(f, width, height, layout, p);
    if p == q {
      LaterRow(layout.planes[p], row, row');
    } else {
      hide RowStart;
      RowInside(f, width, height, layout, p, row);
      RowInside(f, width, height, layout, q, row');
      PlanesInOrder(f, width, height, layout, p, q);
    }
  }

  /** No two visible bytes share an address. */
  lemma VisibleBytesAreDistinct(f: Format, width: int, height: int,
                                p: nat, row: int, col: int, q: nat, row': int, col': int)
    requires width > 0 && height > 0 && FourCCFor(f).Some?
    requires RowOf(f, height, p, row) && 0 <= col < RowBytes(f, width, p)
    requires RowOf(f, height, q, row') && 0 <= col' < RowBytes(f, width, q)
    ensures var layout := ContiguousLayout(f, width, height).value;
            && |layout.planes| == PlaneCount(f)
            && 0 <= RowStart(layout.planes[p], row) + col < layout.size
            && (RowStart(layout.planes[p], row) + col == RowStart(layout.planes[q], row') + col' ==>
                  p == q && row == row' && col == col')
  {
    LayoutIsSound(f, width, height);
    var layout := ContiguousLayout(f, width, height).value;
    RowInside(f, width, height, layout, p, row);
    if p < q || (p == q && row < row') {
      RowsInOrder(f, width, height, layout, p, row, q, row');
    } else if p != q || row != row' {
      RowsInOrder(f, width, height, layout, q, row', p, row);
    }
  }

  // ---------------------------------------------------------------- NDI's addressing

  /**
   Where NDI looks for line `row` of plane p, given the address and stride it was told: chroma follows luma at
   once, with the same stride when interleaved and with half of it when planar.
   */
  function NdiRow(c: FourCC, data: int, stride: int, height: int, p: nat, row: int): int {
    match c
    case NV12 => if p == 0 then data + stride * row else data + stride * height + stride * row
    case I420 =>
      if p == 0 then data + stride * row
      else data + stride * height + (stride / 2) * (Half(height) * (p - 1)) + (stride / 2) * row
    case _ => data + stride * row
  }

  datatype Frame = Frame(format: Format, width: int, height: int, planes: seq<Plane>)
  {
    ghost predicate Valid() {
      width > 0 && height > 0 && FourCCFor(format).Some? && |planes| == PlaneCount(format)
    }

    /** The address and stride passed to NDI are those of the first plane. */
    ghost function NdiRowStart(p: nat, row: int): int
      requires Valid()
    {
      NdiRow(FourCCFor(format).value, planes[0].offset, planes[0].linesize, height, p, row)
    }
  }

  predicate HasNdiLayout(fr: Frame)
    requires |fr.planes| >= PlaneCount(fr.format) && |fr.planes| > 0
  {
    var d, line := fr.planes, fr.planes[0].linesize;
    && line > 0
    && match fr.format
       case Nv12 => d[1].linesize == line && d[1].offset == d[0].offset + line * fr.height
       case Yuv420p =>
         && line % 2 == 0 && d[1].linesize == line / 2 && d[2].linesize == d[1].linesize
         && d[1].offset == d[0].offset + line * fr.height
         && d[2].offset == d[1].offset + d[1].linesize * Half(fr.height)
       case _ => true
  }

  /** NDI looks for line `row` of every plane where the frame has it. */
  ghost predicate NdiAgrees(fr: Frame, row: int)
    requires fr.Valid()
  {
    forall p :: 0 <= p < PlaneCount(fr.format) ==> fr.NdiRowStart(p, row) == RowStart(fr.planes[p], row)
  }

  /** The test for the zero-copy path is exact: it passes just when NDI would find every line by itself. */
  lemma HasNdiLayoutIsExact(fr: Frame)
    requires fr.Valid()
    ensures HasNdiLayout(fr) <==>
              && fr.planes[0].linesize > 0 && (fr.format.Yuv420p? ==> fr.planes[0].linesize % 2 == 0)
              && forall row :: NdiAgrees(fr, row)
  {
    if HasNdiLayout(fr) {
      forall row ensures NdiAgrees(fr, row) { AgreesOnRow(fr, row); }
    } else if forall row :: NdiAgrees(fr, row) {
      assert NdiAgrees(fr, 0) && NdiAgrees(fr, 1);
      forall p | 0 <= p < PlaneCount(fr.format)
        ensures fr.NdiRowStart(p, 0) == fr.planes[p].offset
        ensures fr.NdiRowStart(p, 1) == fr.planes[p].offset + fr.planes[p].linesize
      {
        assert RowStart(fr.planes[p], 0) == fr.planes[p].offset;
        assert RowStart(fr.planes[p], 1) == fr.planes[p].offset + fr.planes[p].linesize;
      }
    }
  }

  lemma AgreesOnRow(fr: Frame, row: int)
    requires fr.Valid() && HasNdiLayout(fr)
    ensures NdiAgrees(fr, row)
  {
  }

  /** AllocateContiguous: the layout placed at the address the pool hands out. */
  function Allocate(f: Format, width: int, height: int, buffer: int): Option<Frame> {
    match ContiguousLayout(f, width, height)
    case None => None
    case Some(layout) =>
      Some(Frame(f, width, height, seq(|layout.planes|, p requires 0 <= p < |layout.planes| =>
        Plane(buffer + layout.planes[p].offset, layout.planes[p].linesize))))
  }

  /** A frame allocated this way always qualifies for sending as it is. */
  lemma AllocatedHasNdiLayout(f: Format, width: int, height: int, buffer: int)
    requires width > 0 && height > 0 && FourCCFor(f).Some?
    ensures var fr := Allocate(f, width, height, buffer);
            fr.Some? && fr.value.Valid() && HasNdiLayout(fr.value)
  {
    hide ContiguousLayout, Align;
    LineIsSound(f, width, 0);
    PlanarLine(width);
    PlanesFollowEachOther(f, width, height, 0);
    if PlaneCount(f) > 1 { PlanesFollowEachOther(f, width, height, 1); }
    if PlaneCount(f) > 2 { PlanesFollowEachOther(f, width, height, 2); }
  }

  // ---------------------------------------------------------------- choosing the format

  datatype Choice = Auto | AsUyvy | AsNv12 | AsI420 | AsBgra | AsRgba

  function TargetFormat(choice: Choice, source: Format, fullRange: bool): Format {
    match choice
    case AsUyvy => Uyvy422
    case AsNv12 => Nv12
    case AsI420 => Yuv420p
    case AsBgra => Bgra
    case AsRgba => Rgba
    case Auto => if FourCCFor(source).Some? && (IsRgb(source) || !fullRange) then source else Uyvy422
  }

  /** Whatever the source: the format sent has an NDI code and a layout, so neither lookup can fail. */
  lemma TargetCanBeSent(choice: Choice, source: Format, fullRange: bool, width: int, height: int)
    ensures var target := TargetFormat(choice, source, fullRange);
            FourCCFor(target).Some? && ContiguousLayout(target, width, height).Some?
  {
    NoLayoutWithoutFourCC(TargetFormat(choice, source, fullRange), width, height);
  }

  /** An explicit choice is what NDI is told, whatever the source; with Auto a source NDI takes is kept, or becomes UYVY. */
  lemma ChoiceIsKept(choice: Choice, source: Format, fullRange: bool)
    ensures var code := FourCCFor(TargetFormat(choice, source, fullRange));
            match choice
            case AsUyvy => code == Some(UYVY)
            case AsNv12 => code == Some(NV12)
            case AsI420 => code == Some(I420)
            case AsBgra => code == Some(BGRA)
            case AsRgba => code == Some(RGBA)
            case Auto => code == if FourCCFor(source).Some? && (IsRgb(source) || !fullRange) then FourCCFor(source) else Some(UYVY)
  {
  }

  /**
   Full-range YUV is meant to be converted, since NDI assumes limited range. With Auto it is, with one
   exception: UYVY, whose target is UYVY again, so that such frames go out unconverted.
   */
  lemma FullRangeYuvIsConverted(source: Format)
    requires !IsRgb(source)
    ensures TargetFormat(Auto, source, true) != source <==> source != Uyvy422
  {
  }
}
