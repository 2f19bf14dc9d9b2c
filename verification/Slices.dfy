/** Buffers as windows into a block of bytes, and chunks as windows of samples. */
module Slices {
  import opened Types

  /** A handle on a block. Several handles may share a block and show different windows of it. */
  datatype Buffer = Buffer(block: nat, start: nat, end: nat, sampleRate: u32, sampleType: SampleType)

  datatype Bound = Included(at: nat) | Excluded(at: nat) | Unbounded

  datatype Window = Window(start: nat, end: nat)

  /** `Buffer::slice`: the new window, or None where an assertion fails. */
  function SliceWindow(w: Window, lo: Bound, hi: Bound): (r: Option<Window>)
    ensures r.Some? ==> w.start <= r.value.start <= r.value.end <= w.end
  {
    var start := match lo
      case Included(at) => w.start + at
      case Excluded(at) => w.start + at + 1
      case Unbounded => w.start;
    var end := match hi
      case Included(at) => w.start + at + 1
      case Excluded(at) => w.start + at
      case Unbounded => w.end;
    if start <= end <= w.end then Some(Window(start, end)) else None
  }

  /** `map_bound`: the position is scaled, the kind of bound is kept. */
  function ScaleBound(b: Bound, width: nat): Bound {
    match b
    case Included(at) => Included(at * width)
    case Excluded(at) => Excluded(at * width)
    case Unbounded => Unbounded
  }

  /** `Chunk::slice` for samples of the given width. */
  function SliceChunk(w: Window, lo: Bound, hi: Bound, width: nat): (r: Option<Window>)
    ensures r.Some? ==> w.start <= r.value.start <= r.value.end <= w.end
  {
    SliceWindow(w, ScaleBound(lo, width), ScaleBound(hi, width))
  }

  // ---------- the same in machine arithmetic ----------

  function Wrap(x: nat): (r: nat)
    ensures r < USIZE && (x < USIZE ==> r == x)
  {
    x % USIZE
  }

  /** A `usize` result; None when computing it panics. */
  function ToUsize(build: Build, x: nat): Option<nat> {
    if x < USIZE then Some(x) else if build == Checked then None else Some(Wrap(x))
  }

  /** A scaled bound, added to the start of the window, and one more if it asks for that. */
  function BuildSum(build: Build, start: nat, scaled: nat, one: nat): Option<nat> {
    match ToUsize(build, scaled)
    case None => None
    case Some(x) => ToUsize(build, start + x + one)
  }

  function BuildStart(build: Build, w: Window, lo: Bound, width: nat): Option<nat> {
    match lo
    case Included(at) => BuildSum(build, w.start, at * width, 0)
    case Excluded(at) => BuildSum(build, w.start, at * width, 1)
    case Unbounded => Some(w.start)
  }

  function BuildEnd(build: Build, w: Window, hi: Bound, width: nat): Option<nat> {
    match hi
    case Included(at) => BuildSum(build, w.start, at * width, 1)
    case Excluded(at) => BuildSum(build, w.start, at * width, 0)
    case Unbounded => Some(w.end)
  }

  /** `Chunk::slice`, with or without overflow checks: the new window, or None where it panics. */
  function BuildSlice(build: Build, w: Window, lo: Bound, hi: Bound, width: nat): (r: Option<Window>)
    ensures r.Some? ==> w.start <= r.value.start <= r.value.end <= w.end
  {
    var start, end := BuildStart(build, w, lo, width), BuildEnd(build, w, hi, width);
    if start.Some? && end.Some? && w.start <= start.value <= end.value <= w.end
    then Some(Window(start.value, end.value)) else None
  }

  /** The byte offset at which a range of samples starts, before anything wraps. */
  function FromOffset(lo: Bound, width: nat): nat {
    match lo
    case Included(at) => at * width
    case Excluded(at) => at * width + 1
    case Unbounded => 0
  }

  function ToOffset(hi: Bound, width: nat, length: nat): nat {
    match hi
    case Included(at) => at * width + 1
    case Excluded(at) => at * width
    case Unbounded => length
  }

  /** The window at these offsets, if they are a range of it. */
  function WindowAt(w: Window, from: nat, to: nat): Option<Window> {
    if from <= to && w.start + to <= w.end then Some(Window(w.start + from, w.start + to)) else None
  }

  lemma SliceAtOffsets(w: Window, lo: Bound, hi: Bound, width: nat)
    requires w.start <= w.end
    ensures SliceChunk(w, lo, hi, width) == WindowAt(w, FromOffset(lo, width), ToOffset(hi, width, w.end - w.start))
  {
  }

  /** With overflow checks the slice is refused exactly where unbounded arithmetic refuses it. */
  lemma CheckedSlice(w: Window, lo: Bound, hi: Bound, width: nat)
    requires w.start <= w.end < USIZE
    ensures BuildSlice(Checked, w, lo, hi, width) == SliceChunk(w, lo, hi, width)
  {
  }

  /** A sum in a wrapping build is right, or falls below the start of the window. */
  predicate SumOf(sum: Option<nat>, start: nat, offset: nat) {
    sum.Some? && if start + offset < USIZE then sum.value == start + offset else sum.value < start
  }

  /** Wrapping first the scaled bound and then the sum is wrapping once, or falls below the start. */
  lemma WrappedSum(start: nat, scaled: nat, one: nat)
    requires start < USIZE && one <= 1
    ensures SumOf(BuildSum(Wrapping, start, scaled, one), start, Wrap(scaled + one))
  {
    assert start + Wrap(scaled) + one < 2 * USIZE;
  }

  lemma WrappedStart(w: Window, lo: Bound, width: nat)
    requires w.start < USIZE
    ensures SumOf(BuildStart(Wrapping, w, lo, width), w.start, Wrap(FromOffset(lo, width)))
  {
    hide BuildSum, Wrap;
    if !lo.Unbounded? {
      WrappedSum(w.start, lo.at * width, if lo.Included? then 0 else 1);
    }
  }

  lemma WrappedEnd(w: Window, hi: Bound, width: nat)
    requires w.start <= w.end < USIZE
    ensures SumOf(BuildEnd(Wrapping, w, hi, width), w.start, Wrap(ToOffset(hi, width, w.end - w.start)))
  {
    hide BuildSum, Wrap;
    if !hi.Unbounded? {
      WrappedSum(w.start, hi.at * width, if hi.Included? then 1 else 0);
    }
  }

  /** Without overflow checks the slice is the one at the offsets modulo the address space. */
  lemma WrappingSlice(w: Window, lo: Bound, hi: Bound, width: nat)
    requires w.start <= w.end < USIZE
    ensures BuildSlice(Wrapping, w, lo, hi, width)
         == WindowAt(w, Wrap(FromOffset(lo, width)), Wrap(ToOffset(hi, width, w.end - w.start)))
  {
    WrappedStart(w, lo, width);
    WrappedEnd(w, hi, width);
    hide Wrap, FromOffset, ToOffset, BuildStart, BuildEnd;
  }

  /** What the range means on a slice of `length` elements: from..to, or None where indexing panics. */
  function Resolve(length: nat, lo: Bound, hi: Bound): (r: Option<Window>)
    ensures r.Some? ==> r.value.start <= r.value.end <= length
  {
    var from := match lo
      case Included(at) => at
      case Excluded(at) => at + 1
      case Unbounded => 0;
    var to := match hi
      case Included(at) => at + 1
      case Excluded(at) => at
      case Unbounded => length;
    if from <= to <= length then Some(Window(from, to)) else None
  }

  lemma TwoByteSlice(w: Window, length: nat, lo: Bound, hi: Bound)
    requires w.end == w.start + 2 * length
    ensures var r, s := Resolve(length, lo, hi), SliceChunk(w, lo, hi, 2);
            && (r.None? ==> s.None?)
            && (r.Some? ==> (s == Some(Window(w.start + r.value.start * 2, w.start + r.value.end * 2))
                             <==> !lo.Excluded? && !hi.Included?))
  {
    assert ScaleBound(lo, 2) == match lo
      case Included(at) => Included(2 * at)
      case Excluded(at) => Excluded(2 * at)
      case Unbounded => Unbounded;
    assert ScaleBound(hi, 2) == match hi
      case Included(at) => Included(2 * at)
      case Excluded(at) => Excluded(2 * at)
      case Unbounded => Unbounded;
  }

  /**
   * In unbounded arithmetic, slicing a chunk selects the samples the range denotes exactly when
   * samples are one byte wide or the range is half-open; an inclusive end or an excluded start
   * is scaled to an odd offset. A range that would panic on the samples panics on the chunk.
   */
  lemma UnboundedSliceExact(w: Window, lo: Bound, hi: Bound, width: nat)
    requires width == 1 || width == 2
    requires w.start <= w.end && (w.end - w.start) % width == 0
    ensures var r := Resolve((w.end - w.start) / width, lo, hi);
            && (r.None? ==> SliceChunk(w, lo, hi, width).None?)
            && (r.Some? ==>
                  (SliceChunk(w, lo, hi, width)
                     == Some(Window(w.start + r.value.start * width, w.start + r.value.end * width))
                   <==> width == 1 || (!lo.Excluded? && !hi.Included?)))
  {
    if width == 1 {
      assert ScaleBound(lo, 1) == lo && ScaleBound(hi, 1) == hi;
    } else {
      TwoByteSlice(w, (w.end - w.start) / 2, lo, hi);
    }
  }

  /** A bound leaves the address space when it is scaled, and what is left makes a range of the chunk. */
  predicate WrapsInto(w: Window, lo: Bound, hi: Bound, width: nat)
    requires w.start <= w.end
  {
    var from, to := FromOffset(lo, width), ToOffset(hi, width, w.end - w.start);
    && (from >= USIZE || to >= USIZE)
    && WindowAt(w, Wrap(from), Wrap(to)).Some?
  }

  /**
   * Slicing a chunk in either build. A range of its samples selects them exactly when samples
   * are one byte wide or the range is half-open. A range that would panic on the samples is
   * accepted exactly when overflow is not checked and a bound wraps into the chunk.
   */
  lemma ChunkSliceExact(build: Build, w: Window, lo: Bound, hi: Bound, width: nat)
    requires width == 1 || width == 2
    requires w.start <= w.end < USIZE && (w.end - w.start) % width == 0
    ensures var r, s := Resolve((w.end - w.start) / width, lo, hi), BuildSlice(build, w, lo, hi, width);
            && (r.Some? ==>
                  (s == Some(Window(w.start + r.value.start * width, w.start + r.value.end * width))
                   <==> width == 1 || (!lo.Excluded? && !hi.Included?)))
            && (r.None? ==> (s.Some? <==> build == Wrapping && WrapsInto(w, lo, hi, width)))
  {
    hide SliceChunk, BuildSlice, Resolve, WindowAt, Wrap, FromOffset, ToOffset;
    UnboundedSliceExact(w, lo, hi, width);
    BuildsDiffer(build, w, lo, hi, width);
    if Resolve((w.end - w.start) / width, lo, hi).Some? {
      RangesDoNotWrap(w, lo, hi, width);
    }
  }

  /** The builds and unbounded arithmetic agree unless something wraps. */
  lemma BuildsDiffer(build: Build, w: Window, lo: Bound, hi: Bound, width: nat)
    requires w.start <= w.end < USIZE
    ensures var from, to := FromOffset(lo, width), ToOffset(hi, width, w.end - w.start);
            && (build == Checked || (from < USIZE && to < USIZE) ==>
                  BuildSlice(build, w, lo, hi, width) == SliceChunk(w, lo, hi, width))
            && (build == Wrapping && (from >= USIZE || to >= USIZE) ==>
                  SliceChunk(w, lo, hi, width).None?
                  && (BuildSlice(build, w, lo, hi, width).Some? <==> WrapsInto(w, lo, hi, width)))
  {
    CheckedSlice(w, lo, hi, width);
    WrappingSlice(w, lo, hi, width);
    SliceAtOffsets(w, lo, hi, width);
    hide SliceChunk, BuildSlice, FromOffset, ToOffset;
  }

  lemma RangesDoNotWrap(w: Window, lo: Bound, hi: Bound, width: nat)
    requires width == 1 || width == 2
    requires w.start <= w.end < USIZE && (w.end - w.start) % width == 0
    requires Resolve((w.end - w.start) / width, lo, hi).Some?
    ensures FromOffset(lo, width) < USIZE && ToOffset(hi, width, w.end - w.start) < USIZE
  {
  }

  /** `slice(n..)`: the window loses its first n samples. */
  lemma AdvanceWindow(build: Build, w: Window, n: nat)
    requires w.start + 2 * n <= w.end < USIZE
    ensures BuildSlice(build, w, Included(n), Unbounded, 2) == Some(Window(w.start + 2 * n, w.end))
  {
  }

  /** An inclusive range of two-byte samples: one byte of the first sample is left. */
  lemma OddOffset()
    ensures Resolve(2, Unbounded, Included(0)) == Some(Window(0, 1))
    ensures forall build :: BuildSlice(build, Window(0, 4), Unbounded, Included(0), 2) == Some(Window(0, 1))
  {
  }

  /** Ranges that panic on the samples, and empty the chunk where overflow is not checked. */
  lemma WrappedBounds()
    ensures Resolve(2, Included(0), Excluded(USIZE / 2)) == None
    ensures BuildSlice(Wrapping, Window(0, 4), Included(0), Excluded(USIZE / 2), 2) == Some(Window(0, 0))
    ensures Resolve(4, Unbounded, Included(USIZE - 1)) == None
    ensures BuildSlice(Wrapping, Window(0, 4), Unbounded, Included(USIZE - 1), 1) == Some(Window(0, 0))
  {
  }

  /** A bound moved by an offset; an absent bound becomes the given one. */
  function Offset(b: Bound, from: nat, absent: Bound): Bound {
    match b
    case Included(at) => Included(from + at)
    case Excluded(at) => Excluded(from + at)
    case Unbounded => absent
  }

  /**
   * Slicing a slice, for all bounds: it is slicing once with the bounds offset by where the
   * first slice starts, and it is accepted exactly when that is and stays in the first slice.
   */
  lemma SlicesCompose(w: Window, lo: Bound, hi: Bound, lo': Bound, hi': Bound)
    requires SliceWindow(w, lo, hi).Some?
    ensures var v := SliceWindow(w, lo, hi).value;
            var from, to := v.start - w.start, v.end - w.start;
            var once := SliceWindow(w, Offset(lo', from, Included(from)), Offset(hi', from, Excluded(to)));
            SliceWindow(v, lo', hi') == if once.Some? && once.value.end <= v.end then once else None
  {
  }

  /** Half-open slices of samples: the second is accepted exactly when it is a range of the first. */
  lemma HalfOpenSlicesCompose(w: Window, a: nat, b: nat, c: nat, d: nat, width: nat)
    requires width == 1 || width == 2
    requires SliceChunk(w, Included(a), Excluded(b), width).Some?
    ensures SliceChunk(SliceChunk(w, Included(a), Excluded(b), width).value, Included(c), Excluded(d), width)
         == if c <= d <= b - a then SliceChunk(w, Included(a + c), Excluded(a + d), width) else None
  {
    hide SliceWindow;
    if width == 1 {
      assert ScaleBound(Included(a), 1) == Included(a) && ScaleBound(Excluded(b), 1) == Excluded(b);
    }
    HalfOpenWindows(w, a * width, b * width, c * width, d * width);
  }

  lemma HalfOpenWindows(w: Window, a: nat, b: nat, c: nat, d: nat)
    requires SliceWindow(w, Included(a), Excluded(b)).Some?
    ensures SliceWindow(SliceWindow(w, Included(a), Excluded(b)).value, Included(c), Excluded(d))
         == if c <= d <= b - a then SliceWindow(w, Included(a + c), Excluded(a + d)) else None
  {
  }

  // ---------- samples ----------

  /** Two-byte samples seen in a byte slice (`bytemuck::cast_slice`; an odd length panics there). */
  function AsSamples(b: seq<u8>): (s: seq<Iq>)
    requires |b| % 2 == 0
    ensures |s| == |b| / 2 && forall k :: 0 <= k < |s| ==> s[k] == Iq(b[2 * k], b[2 * k + 1])
  {
    seq(|b| / 2, k requires 0 <= k < |b| / 2 => Iq(b[2 * k], b[2 * k + 1]))
  }

  /** The bytes of a slice of samples. */
  function AsBytes(s: seq<Iq>): (b: seq<u8>)
    ensures |b| == 2 * |s| && forall k :: 0 <= k < |b| ==> b[k] == if k % 2 == 0 then s[k / 2].i else s[k / 2].q
  {
    seq(2 * |s|, k requires 0 <= k < 2 * |s| => if k % 2 == 0 then s[k / 2].i else s[k / 2].q)
  }

  lemma BytesOfSamples(b: seq<u8>)
    requires |b| % 2 == 0
    ensures AsBytes(AsSamples(b)) == b
  {
    forall k | 0 <= k < |b| ensures AsBytes(AsSamples(b))[k] == b[k] {
      assert AsSamples(b)[k / 2] == Iq(b[2 * (k / 2)], b[2 * (k / 2) + 1]);
    }
  }

  lemma SamplesOfSlice(b: seq<u8>, from: nat, to: nat)
    requires |b| % 2 == 0 && from <= to && 2 * to <= |b|
    ensures AsSamples(b[2 * from..2 * to]) == AsSamples(b)[from..to]
  {
  }

  lemma SliceOfSlice<T>(s: seq<T>, start: nat, end: nat, from: nat, to: nat)
    requires start <= end <= |s| && from <= to <= end - start
    ensures s[start..end][from..to] == s[start + from..start + to]
  {
    var t := s[start..end][from..to];
    forall k | 0 <= k < |t| ensures t[k] == s[start + from..start + to][k] {
      assert t[k] == s[start..end][from + k];
    }
  }

  lemma BytesOfSlice(s: seq<Iq>, from: nat, to: nat)
    requires from <= to <= |s|
    ensures AsBytes(s[from..to]) == AsBytes(s)[2 * from..2 * to]
  {
    var t, b := AsBytes(s[from..to]), AsBytes(s)[2 * from..2 * to];
    forall k | 0 <= k < |t| ensures t[k] == b[k] {
      assert s[from..to][k / 2] == s[from + k / 2];
      assert (2 * from + k) / 2 == from + k / 2;
    }
  }

  /** The window lies in the data and holds whole samples. */
  predicate WholeIn(data: seq<u8>, w: Window) {
    w.start <= w.end <= |data| && (w.end - w.start) % 2 == 0
  }

  function SamplesIn(data: seq<u8>, w: Window): (s: seq<Iq>)
    requires WholeIn(data, w)
    ensures 2 * |s| == w.end - w.start
  {
    AsSamples(data[w.start..w.end])
  }

  lemma UnboundedSelects(data: seq<u8>, w: Window, length: nat, lo: Bound, hi: Bound)
    requires w.end == w.start + 2 * length <= |data|
    requires !lo.Excluded? && !hi.Included? && Resolve(length, lo, hi).Some?
    ensures var v, r := SliceChunk(w, lo, hi, 2), Resolve(length, lo, hi).value;
            && v.Some? && WholeIn(data, v.value) && WholeIn(data, w)
            && SamplesIn(data, v.value) == SamplesIn(data, w)[r.start..r.end]
  {
    TwoByteSlice(w, length, lo, hi);
    hide SliceChunk, AsSamples;
    var r := Resolve(length, lo, hi).value;
    SamplesOfSlice(data[w.start..w.end], r.start, r.end);
    SliceOfSlice(data, w.start, w.end, 2 * r.start, 2 * r.end);
  }

  /** In either build a half-open range of the samples of a chunk selects those samples. */
  lemma HalfOpenSelects(build: Build, data: Bytes, w: Window, lo: Bound, hi: Bound)
    requires WholeIn(data, w)
    requires !lo.Excluded? && !hi.Included? && Resolve(|SamplesIn(data, w)|, lo, hi).Some?
    ensures var v, r := BuildSlice(build, w, lo, hi, 2), Resolve(|SamplesIn(data, w)|, lo, hi).value;
            && v.Some? && WholeIn(data, v.value)
            && SamplesIn(data, v.value) == SamplesIn(data, w)[r.start..r.end]
  {
    RangesDoNotWrap(w, lo, hi, 2);
    BuildsDiffer(build, w, lo, hi, 2);
    UnboundedSelects(data, w, (w.end - w.start) / 2, lo, hi);
    hide SliceChunk, BuildSlice, Resolve, SamplesIn;
  }

  // ---------- partition ----------

  datatype Split = Split(pieces: seq<Window>, rest: Window)

  /** Again and again: a copy of the chunk sliced to `..n`, and the chunk itself sliced to `n..`. */
  function TakeOff(w: Window, sizes: seq<nat>): Option<Split>
    decreases |sizes|
  {
    if sizes == [] then Some(Split([], w))
    else
      match (SliceChunk(w, Unbounded, Excluded(sizes[0]), 2), SliceChunk(w, Included(sizes[0]), Unbounded, 2))
      case (Some(piece), Some(rest)) =>
        (match TakeOff(rest, sizes[1..])
         case Some(split) => Some(Split([piece] + split.pieces, split.rest))
         case None => None)
      case _ => None
  }

  function Total(sizes: seq<nat>): nat {
    if sizes == [] then 0 else sizes[0] + Total(sizes[1..])
  }

  ghost predicate PiecesOk(data: seq<u8>, pieces: seq<Window>) {
    forall i :: 0 <= i < |pieces| ==> WholeIn(data, pieces[i])
  }

  ghost function Joined(data: seq<u8>, pieces: seq<Window>): seq<Iq>
    requires PiecesOk(data, pieces)
  {
    if pieces == [] then [] else SamplesIn(data, pieces[0]) + Joined(data, pieces[1..])
  }

  lemma CutWindows(w: Window, n: nat)
    requires w.start <= w.end
    ensures SliceChunk(w, Unbounded, Excluded(n), 2)
         == if w.start + 2 * n <= w.end then Some(Window(w.start, w.start + 2 * n)) else None
    ensures SliceChunk(w, Included(n), Unbounded, 2)
         == if w.start + 2 * n <= w.end then Some(Window(w.start + 2 * n, w.end)) else None
  {
    assert ScaleBound(Included(n), 2) == Included(2 * n) && ScaleBound(Excluded(n), 2) == Excluded(2 * n);
  }

  /** The two parts of one cut, joined. */
  lemma OneCut(data: seq<u8>, w: Window, n: nat)
    requires WholeIn(data, w) && w.start + 2 * n <= w.end
    ensures var cut := w.start + 2 * n;
            && WholeIn(data, Window(w.start, cut)) && WholeIn(data, Window(cut, w.end))
            && SamplesIn(data, Window(w.start, cut)) + SamplesIn(data, Window(cut, w.end)) == SamplesIn(data, w)
  {
    hide AsSamples;
    var cut := w.start + 2 * n;
    var a, b := data[w.start..cut], data[cut..w.end];
    assert a + b == data[w.start..w.end];
    SamplesJoin(a, b);
  }

  lemma SamplesJoin(a: seq<u8>, b: seq<u8>)
    requires |a| % 2 == 0 && |b| % 2 == 0
    ensures AsSamples(a + b) == AsSamples(a) + AsSamples(b)
  {
    var n := |a| / 2;
    forall k | 0 <= k < |AsSamples(a + b)| ensures AsSamples(a + b)[k] == (AsSamples(a) + AsSamples(b))[k] {
      assert k >= n ==> 2 * k - |a| == 2 * (k - n);
    }
  }

  /** The pieces have these sizes, and pieces and rest joined are the samples of the window. */
  ghost predicate Partitions(data: seq<u8>, w: Window, sizes: seq<nat>, split: Split)
    requires WholeIn(data, w)
  {
    && |split.pieces| == |sizes| && PiecesOk(data, split.pieces) && WholeIn(data, split.rest)
    && (forall i :: 0 <= i < |sizes| ==> |SamplesIn(data, split.pieces[i])| == sizes[i])
    && Joined(data, split.pieces) + SamplesIn(data, split.rest) == SamplesIn(data, w)
  }

  /**
   * Repeated `slice(n..)` partitions a chunk into consecutive pieces, and succeeds exactly when
   * the chunk has as many samples as are asked for.
   */
  lemma {:induction false} PiecesPartition(data: seq<u8>, w: Window, length: nat, sizes: seq<nat>)
    requires w.end == w.start + 2 * length <= |data|
    ensures WholeIn(data, w)
    ensures TakeOff(w, sizes).Some? <==> Total(sizes) <= length
    ensures TakeOff(w, sizes).Some? ==> Partitions(data, w, sizes, TakeOff(w, sizes).value)
    decreases |sizes|
  {
    TakeOffAccepts(w, length, sizes);
    WholeOf(data, w, length);
    if sizes == [] {
      assert Partitions(data, w, [], Split([], w));
    } else if TakeOff(w, sizes).Some? {
      hide SliceChunk, Partitions, Total, WholeIn, SamplesIn;
      var n := sizes[0];
      CutWindows(w, n);
      OneCut(data, w, n);
      var piece, rest := Window(w.start, w.start + 2 * n), Window(w.start + 2 * n, w.end);
      PiecesPartition(data, rest, length - n, sizes[1..]);
      OnePieceMore(data, w, piece, rest, sizes, TakeOff(rest, sizes[1..]).value);
    }
  }

  lemma WholeOf(data: seq<u8>, w: Window, length: nat)
    requires w.end == w.start + 2 * length <= |data|
    ensures WholeIn(data, w)
  {
  }

  lemma {:induction false} TakeOffAccepts(w: Window, length: nat, sizes: seq<nat>)
    requires w.end == w.start + 2 * length
    ensures TakeOff(w, sizes).Some? <==> Total(sizes) <= length
    decreases |sizes|
  {
    hide SliceChunk;
    if sizes != [] {
      CutWindows(w, sizes[0]);
      if sizes[0] <= length {
        TakeOffAccepts(Window(w.start + 2 * sizes[0], w.end), length - sizes[0], sizes[1..]);
      }
    }
  }

  lemma OnePieceMore(data: seq<u8>, w: Window, piece: Window, rest: Window, sizes: seq<nat>, split: Split)
    requires WholeIn(data, w) && WholeIn(data, piece) && WholeIn(data, rest)
    requires sizes != [] && |SamplesIn(data, piece)| == sizes[0] && Partitions(data, rest, sizes[1..], split)
    requires SamplesIn(data, piece) + SamplesIn(data, rest) == SamplesIn(data, w)
    ensures Partitions(data, w, sizes, Split([piece] + split.pieces, split.rest))
  {
    hide SamplesIn;
    var pieces := [piece] + split.pieces;
    assert pieces[1..] == split.pieces;
    assert Joined(data, pieces) == SamplesIn(data, piece) + Joined(data, split.pieces);
  }

  // ---------- a chunk in place ----------

  function SumStart(w: Window, lo: Bound): nat {
    match lo
    case Included(at) => Wrap(w.start + Wrap(2 * at))
    case Excluded(at) => Wrap(w.start + Wrap(2 * at) + 1)
    case Unbounded => w.start
  }

  function SumEnd(w: Window, hi: Bound): nat {
    match hi
    case Included(at) => Wrap(w.start + Wrap(2 * at) + 1)
    case Excluded(at) => Wrap(w.start + Wrap(2 * at))
    case Unbounded => w.end
  }

  /** Where nothing panics, both builds compute the same sums. */
  lemma SumIs(build: Build, start: nat, scaled: nat, one: nat)
    requires BuildSum(build, start, scaled, one).Some?
    ensures BuildSum(build, start, scaled, one).value == Wrap(start + Wrap(scaled) + one)
  {
  }

  lemma BuildBounds(build: Build, w: Window, lo: Bound, hi: Bound)
    requires BuildSlice(build, w, lo, hi, 2).Some?
    ensures BuildSlice(build, w, lo, hi, 2).value == Window(SumStart(w, lo), SumEnd(w, hi))
  {
    hide BuildSum, Wrap;
    if !lo.Unbounded? {
      SumIs(build, w.start, lo.at * 2, if lo.Included? then 0 else 1);
    }
    if !hi.Unbounded? {
      SumIs(build, w.start, hi.at * 2, if hi.Included? then 1 else 0);
    }
  }

  /** A chunk of two-byte samples over a block whose bytes do not change while it is shared. */
  class Chunk {
    const data: Bytes
    var start: nat
    var end: nat

    ghost predicate Valid()
      reads this
    {
      start <= end <= |data|
    }

    predicate Aligned()
      reads this
    {
      (end - start) % 2 == 0
    }

    function Samples(): (s: seq<Iq>)
      requires Valid() && Aligned()
      reads this
    {
      SamplesIn(data, Window(start, end))
    }

    constructor (data: Bytes, start: nat, end: nat)
      requires start <= end <= |data|
      ensures Valid() && this.data == data && this.start == start && this.end == end
    {
      this.data, this.start, this.end := data, start, end;
    }

    /** The bounds are scaled, added to the start, and stored. */
    method MoveBounds(ghost build: Build, lo: Bound, hi: Bound)
      requires BuildSlice(build, Window(start, end), lo, hi, 2).Some?
      modifies this
      ensures Window(start, end) == BuildSlice(build, old(Window(start, end)), lo, hi, 2).value
    {
      BuildBounds(build, Window(start, end), lo, hi);
      hide BuildSlice, SumStart, SumEnd;
      start, end := SumStart(Window(start, end), lo), SumEnd(Window(start, end), hi);
    }

    /** `slice`, in either build; the precondition is that it does not panic. */
    method Slice(ghost build: Build, lo: Bound, hi: Bound)
      requires Valid() && BuildSlice(build, Window(start, end), lo, hi, 2).Some?
      modifies this
      ensures Valid() && Window(start, end) == BuildSlice(build, old(Window(start, end)), lo, hi, 2).value
      ensures old(Aligned()) && !lo.Excluded? && !hi.Included? && Resolve(|old(Samples())|, lo, hi).Some? ==>
        var r := Resolve(|old(Samples())|, lo, hi).value;
        Aligned() && Samples() == old(Samples())[r.start..r.end]
    {
      hide SamplesIn, BuildSlice, Resolve;
      if Aligned() && !lo.Excluded? && !hi.Included? && Resolve(|Samples()|, lo, hi).Some? {
        HalfOpenSelects(build, data, Window(start, end), lo, hi);
      }
      MoveBounds(build, lo, hi);
    }
  }
}
