/**
 The two ways a frame already in the target format reaches NDI (src/av/video_processor.cpp, Convert): as it is,
 or copied line by line into a contiguous buffer. Either way NDI reads the source's picture.
 */
module Repacking {
  import opened Options
  import opened VideoLayout

  /** `bytes` bytes of every line of the plane exist. */
  ghost predicate PlaneInMemory(plane: Plane, rows: int, bytes: int, size: int) {
    bytes >= 0 && forall row :: 0 <= row < rows ==> 0 <= RowStart(plane, row) && RowStart(plane, row) + bytes <= size
  }

  /** None of the plane's lines touches the addresses from `low` up to `high`. */
  ghost predicate PlaneAvoids(plane: Plane, rows: int, bytes: int, low: int, high: int) {
    forall row :: 0 <= row < rows ==> RowStart(plane, row) + bytes <= low || high <= RowStart(plane, row)
  }

  ghost predicate InMemory(fr: Frame, size: int)
    requires fr.Valid()
  {
    forall p: nat :: p < PlaneCount(fr.format) ==>
      PlaneInMemory(fr.planes[p], Rows(fr.height, p), RowBytes(fr.format, fr.width, p), size)
  }

  ghost predicate Avoids(fr: Frame, low: int, high: int)
    requires fr.Valid()
  {
    forall p: nat :: p < PlaneCount(fr.format) ==>
      PlaneAvoids(fr.planes[p], Rows(fr.height, p), RowBytes(fr.format, fr.width, p), low, high)
  }

  /** Every line of one plane before is found in the other plane after. */
  ghost predicate PlaneCopied(before: seq<Byte>, source: Plane, after: seq<Byte>, target: Plane, rows: int, bytes: int)
    requires PlaneInMemory(source, rows, bytes, |before|) && PlaneInMemory(target, rows, bytes, |after|)
  {
    forall row :: 0 <= row < rows ==>
      before[RowStart(source, row)..RowStart(source, row) + bytes] == after[RowStart(target, row)..RowStart(target, row) + bytes]
  }

  method CopyRow(memory: array<Byte>, target: int, source: int, n: nat)
    requires 0 <= target && target + n <= memory.Length && 0 <= source && source + n <= memory.Length
    requires target + n <= source || source + n <= target
    modifies memory
    ensures memory[..] == old(memory[..target] + memory[source..source + n] + memory[target + n..])
  {
    for i := 0 to n
      invariant forall a :: 0 <= a < memory.Length ==>
        memory[a] == old(if target <= a < target + i then memory[source + a - target] else memory[a])
    {
      memory[target + i] := memory[source + i];
    }
  }

  /** Nothing outside the addresses from `low` up to `high` differs. */
  ghost predicate SameOutside(before: seq<Byte>, after: seq<Byte>, low: int, high: int) {
    && |before| == |after|
    && forall a :: 0 <= a < |before| && !(low <= a < high) ==> before[a] == after[a]
  }

  method CopyPlane(memory: array<Byte>, target: Plane, source: Plane, rows: nat, bytes: nat)
    requires target.linesize >= bytes
    requires PlaneInMemory(target, rows, bytes, memory.Length) && PlaneInMemory(source, rows, bytes, memory.Length)
    requires PlaneAvoids(source, rows, bytes, target.offset, RowStart(target, rows))
    modifies memory
    ensures PlaneCopied(old(memory[..]), source, memory[..], target, rows, bytes)
    ensures SameOutside(old(memory[..]), memory[..], target.offset, RowStart(target, rows))
  {
    for row := 0 to rows
      invariant PlaneCopied(old(memory[..]), source, memory[..], target, row, bytes)
      invariant SameOutside(old(memory[..]), memory[..], target.offset, RowStart(target, row))
    {
      RowsApart(target, row, rows);
      ghost var was := memory[..];
      CopyRow(memory, RowStart(target, row), RowStart(source, row), bytes);
      OneRowCopied(old(memory[..]), was, memory[..], source, target, rows, bytes, row);
    }
  }

  lemma OneRowCopied(before: seq<Byte>, was: seq<Byte>, now: seq<Byte>, source: Plane, target: Plane,
                     rows: nat, bytes: nat, row: nat)
    requires row < rows && target.linesize >= bytes && |before| == |was| == |now|
    requires PlaneInMemory(target, rows, bytes, |before|) && PlaneInMemory(source, rows, bytes, |before|)
    requires PlaneAvoids(source, rows, bytes, target.offset, RowStart(target, rows))
    requires PlaneCopied(before, source, was, target, row, bytes)
    requires SameOutside(before, was, target.offset, RowStart(target, row))
    requires var t, s := RowStart(target, row), RowStart(source, row);
             now == was[..t] + was[s..s + bytes] + was[t + bytes..]
    ensures PlaneCopied(before, source, now, target, row + 1, bytes)
    ensures SameOutside(before, now, target.offset, RowStart(target, row + 1))
  {
    RowsApart(target, row, rows);
    var t, s := RowStart(target, row), RowStart(source, row);
    forall r | 0 <= r < row + 1
      ensures before[RowStart(source, r)..RowStart(source, r) + bytes] == now[RowStart(target, r)..RowStart(target, r) + bytes]
    {
      if r < row {
        var at := RowStart(target, r);
        assert now[at..at + bytes] == was[at..at + bytes];
      } else {
        assert now[t..t + bytes] == was[s..s + bytes] == before[s..s + bytes];
      }
    }
  }

  lemma RowsApart(plane: Plane, row: int, rows: int)
    requires plane.linesize >= 0 && 0 <= row < rows
    ensures plane.offset <= RowStart(plane, row)
    ensures RowStart(plane, row) + plane.linesize == RowStart(plane, row + 1) <= RowStart(plane, rows)
    ensures forall earlier :: 0 <= earlier < row ==> RowStart(plane, earlier) + plane.linesize <= RowStart(plane, row)
  {
    if row > 0 { LaterRow(plane, 0, row); }
    if row + 1 < rows { LaterRow(plane, row + 1, rows); }
    forall earlier | 0 <= earlier < row ensures RowStart(plane, earlier) + plane.linesize <= RowStart(plane, row) {
      LaterRow(plane, earlier, row);
    }
  }

  // ---------------------------------------------------------------- whole frames

  /** The frame's planes lie one after the other between `low` and `high`, with room for every line. */
  ghost predicate Stacked(fr: Frame, low: int, high: int)
    requires fr.Valid()
  {
    forall p: nat :: p < PlaneCount(fr.format) ==> StackedAt(fr, low, high, p)
  }

  ghost predicate StackedAt(fr: Frame, low: int, high: int, p: nat)
    requires fr.Valid() && p < PlaneCount(fr.format)
  {
    && low <= fr.planes[p].offset && RowStart(fr.planes[p], Rows(fr.height, p)) <= high
    && fr.planes[p].linesize >= RowBytes(fr.format, fr.width, p) > 0
    && forall q: nat :: q < p ==> RowStart(fr.planes[q], Rows(fr.height, q)) <= fr.planes[p].offset
  }

  lemma AllocatedIsStacked(f: Format, width: int, height: int, buffer: int)
    requires width > 0 && height > 0 && FourCCFor(f).Some?
    ensures ContiguousLayout(f, width, height).Some? && Allocate(f, width, height, buffer).Some?
    ensures Allocate(f, width, height, buffer).value.Valid()
    ensures Stacked(Allocate(f, width, height, buffer).value, buffer, buffer + ContiguousLayout(f, width, height).value.size)
  {
    hide ContiguousLayout, RowBytes, Rows;
    LayoutIsSound(f, width, height);
    AllocatedHasNdiLayout(f, width, height, buffer);
    var layout := ContiguousLayout(f, width, height).value;
    var fr, high := Allocate(f, width, height, buffer).value, buffer + layout.size;
    forall p: nat | p < PlaneCount(f) ensures StackedAt(fr, buffer, high, p) {
      assert PlaneIsSound(f, width, height, layout, p);
      assert fr.planes[p] == Plane(buffer + layout.planes[p].offset, layout.planes[p].linesize);
      PlaneBegins(f, width, height, layout, p);
      PlaneEnds(f, width, height, layout, p);
      forall q: nat | q < p ensures RowStart(fr.planes[q], Rows(height, q)) <= fr.planes[p].offset {
        PlanesInOrder(f, width, height, layout, q, p);
        assert fr.planes[q] == Plane(buffer + layout.planes[q].offset, layout.planes[q].linesize);
      }
    }
  }

  /** The first `count` planes of `source` before are found in `target` after. */
  ghost predicate PlanesCopied(before: seq<Byte>, source: Frame, after: seq<Byte>, target: Frame, count: nat)
    requires source.Valid() && target.Valid() && SameShape(source, target)
    requires InMemory(source, |before|) && InMemory(target, |after|)
  {
    forall p: nat :: p < count && p < PlaneCount(source.format) ==>
      PlaneCopied(before, source.planes[p], after, target.planes[p],
                  Rows(source.height, p), RowBytes(source.format, source.width, p))
  }

  ghost predicate SameShape(a: Frame, b: Frame) {
    a.format == b.format && a.width == b.width && a.height == b.height
  }

  lemma StackedIsInMemory(fr: Frame, low: int, high: int, size: int)
    requires fr.Valid() && Stacked(fr, low, high) && 0 <= low && high <= size
    ensures InMemory(fr, size)
  {
    forall p: nat | p < PlaneCount(fr.format)
      ensures PlaneInMemory(fr.planes[p], Rows(fr.height, p), RowBytes(fr.format, fr.width, p), size)
    {
      assert StackedAt(fr, low, high, p);
      var plane, rows := fr.planes[p], Rows(fr.height, p);
      forall row | 0 <= row < rows ensures 0 <= RowStart(plane, row) && RowStart(plane, row) + plane.linesize <= size {
        RowsApart(plane, row, rows);
      }
    }
  }

  /** Where the part of the target that is still untouched begins. */
  ghost function Edge(fr: Frame, p: nat, high: int): int
    requires fr.Valid()
  {
    if p < PlaneCount(fr.format) then fr.planes[p].offset else high
  }

  method CopyFrame(memory: array<Byte>, target: Frame, source: Frame, ghost low: int, ghost high: int)
    requires source.Valid() && target.Valid() && SameShape(source, target)
    requires InMemory(source, memory.Length) && InMemory(target, memory.Length)
    requires Stacked(target, low, high) && Avoids(source, low, high)
    modifies memory
    ensures PlanesCopied(old(memory[..]), source, memory[..], target, PlaneCount(source.format))
    ensures SameOutside(old(memory[..]), memory[..], low, high)
  {
    assert StackedAt(target, low, high, 0);
    for p := 0 to PlaneCount(source.format)
      invariant PlanesCopied(old(memory[..]), source, memory[..], target, p)
      invariant SameOutside(old(memory[..]), memory[..], low, Edge(target, p, high))
    {
      ghost var was := memory[..];
      var rows, bytes := Rows(source.height, p), RowBytes(source.format, source.width, p);
      MayCopyPlane(target, source, low, high, p);
      CopyPlane(memory, target.planes[p], source.planes[p], rows, bytes);
      OnePlaneCopied(old(memory[..]), was, memory[..], source, target, low, high, p);
    }
  }

  lemma MayCopyPlane(target: Frame, source: Frame, low: int, high: int, p: nat)
    requires source.Valid() && target.Valid() && SameShape(source, target) && p < PlaneCount(source.format)
    requires Stacked(target, low, high) && Avoids(source, low, high)
    ensures target.planes[p].linesize >= RowBytes(source.format, source.width, p) > 0 && Rows(source.height, p) > 0
    ensures low <= target.planes[p].offset <= RowStart(target.planes[p], Rows(source.height, p))
    ensures RowStart(target.planes[p], Rows(source.height, p)) <= Edge(target, p + 1, high) <= high
    ensures PlaneAvoids(source.planes[p], Rows(source.height, p), RowBytes(source.format, source.width, p),
                        target.planes[p].offset, RowStart(target.planes[p], Rows(source.height, p)))
  {
    hide RowBytes;
    assert StackedAt(target, low, high, p);
    if p + 1 < PlaneCount(source.format) {
      assert StackedAt(target, low, high, p + 1);
      RowsApart(target.planes[p + 1], 0, Rows(source.height, p + 1));
    }
    RowsApart(target.planes[p], 0, Rows(source.height, p));
  }

  lemma OnePlaneCopied(before: seq<Byte>, was: seq<Byte>, now: seq<Byte>, source: Frame, target: Frame,
                       low: int, high: int, p: nat)
    requires source.Valid() && target.Valid() && SameShape(source, target) && p < PlaneCount(source.format)
    requires |before| == |was| == |now| && InMemory(source, |before|) && InMemory(target, |before|)
    requires Stacked(target, low, high) && Avoids(source, low, high)
    requires PlanesCopied(before, source, was, target, p) && SameOutside(before, was, low, target.planes[p].offset)
    requires var rows, bytes := Rows(source.height, p), RowBytes(source.format, source.width, p);
             PlaneCopied(was, source.planes[p], now, target.planes[p], rows, bytes)
             && SameOutside(was, now, target.planes[p].offset, RowStart(target.planes[p], rows))
    ensures PlanesCopied(before, source, now, target, p + 1)
    ensures SameOutside(before, now, low, Edge(target, p + 1, high))
  {
    hide RowBytes, Rows;
    MayCopyPlane(target, source, low, high, p);
    forall q: nat | q < p + 1
      ensures PlaneCopied(before, source.planes[q], now, target.planes[q],
                          Rows(source.height, q), RowBytes(source.format, source.width, q))
    {
      var rows, bytes := Rows(source.height, q), RowBytes(source.format, source.width, q);
      if q == p {
        UntouchedPlane(before, was, source.planes[p], rows, bytes, low, target.planes[p].offset);
      } else {
        assert StackedAt(target, low, high, p) && StackedAt(target, low, high, q);
        EarlierPlane(was, now, target.planes[q], rows, bytes,
                     target.planes[p].offset, RowStart(target.planes[p], Rows(source.height, p)));
      }
    }
  }

  /** Lines outside the changed part read the same. */
  lemma UntouchedPlane(before: seq<Byte>, after: seq<Byte>, plane: Plane, rows: int, bytes: int, low: int, high: int)
    requires SameOutside(before, after, low, high)
    requires PlaneInMemory(plane, rows, bytes, |before|) && PlaneAvoids(plane, rows, bytes, low, high)
    ensures PlaneCopied(before, plane, after, plane, rows, bytes)
  {
  }

  lemma EarlierPlane(before: seq<Byte>, after: seq<Byte>, plane: Plane, rows: int, bytes: int, low: int, high: int)
    requires SameOutside(before, after, low, high) && plane.linesize >= bytes && RowStart(plane, rows) <= low
    requires PlaneInMemory(plane, rows, bytes, |before|)
    ensures PlaneCopied(before, plane, after, plane, rows, bytes)
  {
    forall row | 0 <= row < rows ensures RowStart(plane, row) + bytes <= low {
      RowsApart(plane, row, rows);
    }
  }

  // ---------------------------------------------------------------- what NDI reads

  /** NDI, given only the address and stride of the first plane, reads this line of the source's picture. */
  ghost predicate NdiReads(before: seq<Byte>, source: Frame, after: seq<Byte>, sent: Frame, p: nat, row: int)
    requires source.Valid() && sent.Valid() && SameShape(source, sent) && InMemory(source, |before|)
    requires RowOf(source.format, source.height, p, row)
  {
    var from, at := RowStart(source.planes[p], row), sent.NdiRowStart(p, row);
    var bytes := RowBytes(source.format, source.width, p);
    assert PlaneInMemory(source.planes[p], Rows(source.height, p), bytes, |before|);
    0 <= at && at + bytes <= |after| && before[from..from + bytes] == after[at..at + bytes]
  }

  ghost predicate NdiReadsAll(before: seq<Byte>, source: Frame, after: seq<Byte>, sent: Frame)
    requires source.Valid() && sent.Valid() && SameShape(source, sent) && InMemory(source, |before|)
  {
    forall p: nat, row :: RowOf(source.format, source.height, p, row) ==> NdiReads(before, source, after, sent, p, row)
  }

  lemma NdiReadsCopiedFrame(before: seq<Byte>, source: Frame, after: seq<Byte>, sent: Frame)
    requires source.Valid() && sent.Valid() && SameShape(source, sent) && HasNdiLayout(sent)
    requires InMemory(source, |before|) && InMemory(sent, |after|)
    requires PlanesCopied(before, source, after, sent, PlaneCount(source.format))
    ensures NdiReadsAll(before, source, after, sent)
  {
    hide RowBytes, Rows, RowStart, HasNdiLayout;
    forall p: nat, row | RowOf(source.format, source.height, p, row) ensures NdiReads(before, source, after, sent, p, row) {
      AgreesOnRow(sent, row);
      assert PlaneCopied(before, source.planes[p], after, sent.planes[p],
                         Rows(source.height, p), RowBytes(source.format, source.width, p));
      assert PlaneInMemory(sent.planes[p], Rows(source.height, p), RowBytes(source.format, source.width, p), |after|);
    }
  }

  /**
   Convert, for a frame already in the target format. A frame that lies as NDI expects is sent as it is and
   nothing moves; any other is repacked into `buffer`, which the pool hands out and nothing else uses. NDI
   then reads every visible byte of the source, and memory outside the buffer's layout is untouched.
   */
  method Convert(memory: array<Byte>, frame: Frame, buffer: int) returns (ready: Frame)
    requires frame.Valid() && InMemory(frame, memory.Length)
    requires ContiguousLayout(frame.format, frame.width, frame.height).Some?
    requires var size := ContiguousLayout(frame.format, frame.width, frame.height).value.size;
             0 <= buffer && buffer + size <= memory.Length && Avoids(frame, buffer, buffer + size)
    modifies memory
    ensures ready.Valid() && SameShape(frame, ready) && HasNdiLayout(ready)
    ensures HasNdiLayout(frame) ==> ready == frame && memory[..] == old(memory[..])
    ensures !HasNdiLayout(frame) ==> Allocate(frame.format, frame.width, frame.height, buffer) == Some(ready)
    ensures NdiReadsAll(old(memory[..]), frame, memory[..], ready)
    ensures SameOutside(old(memory[..]), memory[..], buffer,
                        buffer + ContiguousLayout(frame.format, frame.width, frame.height).value.size)
  {
    hide ContiguousLayout, Allocate;
    if HasNdiLayout(frame) {
      ready := frame;
    } else {
      AllocatedIsStacked(frame.format, frame.width, frame.height, buffer);
      AllocatedHasNdiLayout(frame.format, frame.width, frame.height, buffer);
      AllocatedShape(frame.format, frame.width, frame.height, buffer);
      ready := Allocate(frame.format, frame.width, frame.height, buffer).value;
      ghost var high := buffer + ContiguousLayout(frame.format, frame.width, frame.height).value.size;
      StackedIsInMemory(ready, buffer, high, memory.Length);
      CopyFrame(memory, ready, frame, buffer, high);
    }
    NdiReadsCopiedFrame(old(memory[..]), frame, memory[..], ready);
  }

  lemma AllocatedShape(f: Format, width: int, height: int, buffer: int)
    requires Allocate(f, width, height, buffer).Some?
    ensures var fr := Allocate(f, width, height, buffer).value; fr.format == f && fr.width == width && fr.height == height
  {
  }
}
