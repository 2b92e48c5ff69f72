/**
  Segmented blobs: immutable byte storage shared without copying, and the three
  ways to read it back. A source is a fixed sequence of bytes that answers a
  range exactly, at the wrong length, or with an error.
*/
module Blob {
  import opened Common

  /** A range of one shared source. */
  datatype Segment = Segment(source: seq<Byte>, offset: nat, len: nat)

  datatype BlobData = BlobData(segments: seq<Segment>, size: nat)

  datatype Limits = Limits(maxSegments: nat, maxBlobSize: nat, maxParts: nat, maxMaterialize: nat, chunkSize: nat)

  /** How a source answers one range request. */
  datatype Answer = Exact | WrongLength | Fails(error: FileApiError)

  predicate InBounds(s: Segment) {
    s.offset + s.len <= |s.source| <= U64_MAX
  }

  ghost predicate AllInBounds(segs: seq<Segment>) {
    forall i :: 0 <= i < |segs| ==> InBounds(segs[i])
  }

  /** Segments in bounds, none empty, and a size that adds up. */
  ghost predicate ValidBlob(b: BlobData) {
    && AllInBounds(b.segments)
    && (forall i :: 0 <= i < |b.segments| ==> 0 < b.segments[i].len)
    && b.size == Size(b.segments) <= U64_MAX
  }

  function Bytes(s: Segment): (r: seq<Byte>)
    requires InBounds(s)
    ensures |r| == s.len
  {
    s.source[s.offset..s.offset + s.len]
  }

  /** Where segment `i` starts in the flat content. */
  function Place(segs: seq<Segment>, i: nat): nat
    requires i <= |segs|
  {
    if i == 0 then 0 else Place(segs, i - 1) + segs[i - 1].len
  }

  function Size(segs: seq<Segment>): nat {
    Place(segs, |segs|)
  }

  /** The flat bytes of the first `i` segments. */
  ghost function Flat(segs: seq<Segment>, i: nat): (r: seq<Byte>)
    requires i <= |segs| && AllInBounds(segs)
    ensures |r| == Place(segs, i)
  {
    if i == 0 then [] else Flat(segs, i - 1) + Bytes(segs[i - 1])
  }

  /** The flat bytes a list of segments stands for. */
  ghost function Content(segs: seq<Segment>): (r: seq<Byte>)
    requires AllInBounds(segs)
    ensures |r| == Size(segs)
  {
    Flat(segs, |segs|)
  }

  // ------------------------------------------------------------ flat positions

  lemma {:induction false} PlaceGrows(segs: seq<Segment>, i: nat, j: nat)
    requires i <= j <= |segs|
    ensures Place(segs, i) <= Place(segs, j)
    decreases j
  {
    if i < j {
      PlaceGrows(segs, i, j - 1);
    }
  }

  lemma Cut(a: seq<Byte>, b: seq<Byte>, n: nat)
    requires n <= |a|
    ensures (a + b)[..n] == a[..n] && (a + b)[|a|..] == b
  {
  }

  /** The first `i` segments are a prefix of the whole. */
  lemma {:induction false} FlatPrefix(segs: seq<Segment>, i: nat, j: nat)
    requires i <= j <= |segs| && AllInBounds(segs)
    ensures Place(segs, i) <= Place(segs, j)
    ensures Flat(segs, i) == Flat(segs, j)[..Place(segs, i)]
    decreases j
  {
    PlaceGrows(segs, i, j);
    if i < j {
      FlatPrefix(segs, i, j - 1);
      PlaceGrows(segs, i, j - 1);
      Cut(Flat(segs, j - 1), Bytes(segs[j - 1]), Place(segs, i));
    }
  }

  lemma SliceOfSlice(flat: seq<Byte>, lo: nat, hi: nat, from: nat, upto: nat)
    requires lo <= hi <= |flat| && from <= upto <= hi - lo
    ensures flat[lo..hi][from..upto] == flat[lo + from..lo + upto]
  {
    var a, b := flat[lo..hi][from..upto], flat[lo + from..lo + upto];
    assert forall k :: 0 <= k < |a| ==> a[k] == b[k];
  }

  /** Where segment `i` lies in the flat content. */
  lemma SegmentPlace(segs: seq<Segment>, i: nat)
    requires i < |segs| && AllInBounds(segs)
    ensures var lo := Place(segs, i);
      && lo + segs[i].len == Place(segs, i + 1) <= Size(segs)
      && Content(segs)[lo..lo + segs[i].len] == Bytes(segs[i])
  {
    FlatPrefix(segs, i + 1, |segs|);
    var lo, hi := Place(segs, i), Place(segs, i + 1);
    Cut(Flat(segs, i), Bytes(segs[i]), 0);
    SliceOfSlice(Content(segs), 0, hi, lo, hi);
    assert Content(segs)[0..hi] == Content(segs)[..hi];
  }

  /** Equal stretches have equal parts. */
  lemma SameStretch(a: seq<Byte>, lo: nat, b: seq<Byte>, offset: nat, len: nat, from: nat, upto: nat)
    requires lo + len <= |a| && offset + len <= |b| && a[lo..lo + len] == b[offset..offset + len]
    requires from <= upto <= len
    ensures a[lo + from..lo + upto] == b[offset + from..offset + upto]
  {
    SliceOfSlice(a, lo, lo + len, from, upto);
    SliceOfSlice(b, offset, offset + len, from, upto);
  }

  /** A part of segment `i`, as a part of the flat content. */
  lemma PartPlace(segs: seq<Segment>, i: nat, from: nat, upto: nat)
    requires i < |segs| && AllInBounds(segs) && from <= upto <= segs[i].len
    ensures var lo := Place(segs, i);
      && lo + upto <= Size(segs)
      && Content(segs)[lo + from..lo + upto] == segs[i].source[segs[i].offset + from..segs[i].offset + upto]
  {
    hide Flat, Place;
    SegmentPlace(segs, i);
    SameStretch(Content(segs), Place(segs, i), segs[i].source, segs[i].offset, segs[i].len, from, upto);
  }

  /** Only the first `i` segments matter to what they stand for. */
  lemma {:induction false} FlatAgrees(a: seq<Segment>, b: seq<Segment>, i: nat)
    requires i <= |a| && i <= |b| && AllInBounds(a) && AllInBounds(b)
    requires forall k :: 0 <= k < i ==> a[k] == b[k]
    ensures Place(a, i) == Place(b, i) && Flat(a, i) == Flat(b, i)
  {
    if i > 0 {
      FlatAgrees(a, b, i - 1);
    }
  }

  lemma Appended(segs: seq<Segment>, s: Segment)
    requires AllInBounds(segs) && InBounds(s)
    ensures AllInBounds(segs + [s])
    ensures Size(segs + [s]) == Size(segs) + s.len && Content(segs + [s]) == Content(segs) + Bytes(s)
  {
    FlatAgrees(segs, segs + [s], |segs|);
  }

  lemma {:induction false} ConcatFlat(a: seq<Segment>, b: seq<Segment>, k: nat)
    requires AllInBounds(a) && AllInBounds(b) && AllInBounds(a + b) && k <= |b|
    ensures Place(a + b, |a| + k) == Size(a) + Place(b, k)
    ensures Flat(a + b, |a| + k) == Content(a) + Flat(b, k)
    decreases k
  {
    if k == 0 {
      FlatAgrees(a, a + b, |a|);
      assert Content(a) + [] == Content(a);
    } else {
      ConcatFlat(a, b, k - 1);
      assert Content(a) + (Flat(b, k - 1) + Bytes(b[k - 1])) == Content(a) + Flat(b, k - 1) + Bytes(b[k - 1]);
    }
  }

  lemma ConcatContent(a: seq<Segment>, b: seq<Segment>)
    requires AllInBounds(a) && AllInBounds(b)
    ensures AllInBounds(a + b)
    ensures Size(a + b) == Size(a) + Size(b) && Content(a + b) == Content(a) + Content(b)
  {
    ConcatFlat(a, b, |b|);
  }

  // -------------------------------------------------------------- construction

  /** The segments among the first `i` that carry bytes, in order. */
  function CarryingUpto(segs: seq<Segment>, i: nat): (r: seq<Segment>)
    requires i <= |segs|
    ensures |r| <= i && forall k :: 0 <= k < |r| ==> 0 < r[k].len && r[k] in segs
  {
    if i == 0 then []
    else CarryingUpto(segs, i - 1) + (if segs[i - 1].len > 0 then [segs[i - 1]] else [])
  }

  function NonEmpty(segs: seq<Segment>): seq<Segment> {
    CarryingUpto(segs, |segs|)
  }

  lemma {:induction false} CarryingContent(segs: seq<Segment>, i: nat)
    requires i <= |segs| && AllInBounds(segs)
    ensures AllInBounds(CarryingUpto(segs, i))
    ensures Size(CarryingUpto(segs, i)) == Place(segs, i) && Content(CarryingUpto(segs, i)) == Flat(segs, i)
  {
    if i > 0 {
      CarryingContent(segs, i - 1);
      if segs[i - 1].len > 0 {
        Appended(CarryingUpto(segs, i - 1), segs[i - 1]);
      } else {
        assert Flat(segs, i - 1) + [] == Flat(segs, i - 1);
        assert CarryingUpto(segs, i - 1) + [] == CarryingUpto(segs, i - 1);
        assert Bytes(segs[i - 1]) == [];
      }
    }
  }

  /**
    `from_segments`: refused when a segment leaves its source, or when the
    segments that carry bytes are too many or too big; otherwise the blob has
    exactly the bytes asked for.
  */
  method FromSegments(segs: seq<Segment>, limits: Limits) returns (r: Result<BlobData, FileApiError>)
    requires forall i :: 0 <= i < |segs| ==> |segs[i].source| <= U64_MAX
    ensures r == Err(InvalidRange) <==> !AllInBounds(segs)
    ensures AllInBounds(segs) ==>
      (r == Err(ResourceLimit) <==>
        |NonEmpty(segs)| > limits.maxSegments || Size(segs) > Min(limits.maxBlobSize, U64_MAX))
    ensures r.Ok? ==> ValidBlob(r.value) && AllInBounds(segs) && Content(r.value.segments) == Content(segs)
                      && r.value.segments == NonEmpty(segs)
    ensures r.Err? ==> r.error.InvalidRange? || r.error.ResourceLimit?
  {
    for i := 0 to |segs|
      invariant forall k :: 0 <= k < i ==> InBounds(segs[k])
    {
      var s := segs[i];
      if s.offset > |s.source| {
        return Err(InvalidRange);
      }
      if s.offset + s.len > U64_MAX || s.offset + s.len > |s.source| {
        return Err(InvalidRange);
      }
    }
    var kept: seq<Segment> := [];
    for i := 0 to |segs|
      invariant kept == CarryingUpto(segs, i)
    {
      if segs[i].len > 0 {
        kept := kept + [segs[i]];
      }
    }
    CarryingContent(segs, |segs|);
    if |kept| > limits.maxSegments {
      return Err(ResourceLimit);
    }
    var total :- TotalSize(kept);
    if total > limits.maxBlobSize {
      return Err(ResourceLimit);
    }
    r := Ok(BlobData(kept, total));
  }

  /** The sum of the lengths, unless it leaves 64 bits on the way. */
  method TotalSize(segs: seq<Segment>) returns (r: Result<nat, FileApiError>)
    ensures r == if Size(segs) <= U64_MAX then Ok(Size(segs)) else Err(ResourceLimit)
  {
    var total := 0;
    for i := 0 to |segs|
      invariant total == Place(segs, i) <= U64_MAX
    {
      PlaceGrows(segs, i + 1, |segs|);
      if total + segs[i].len > U64_MAX {
        return Err(ResourceLimit);
      }
      total := total + segs[i].len;
    }
    r := Ok(total);
  }

  /** `concat_shared`: the segments of both, in order, if the limits allow. */
  method ConcatShared(a: BlobData, b: BlobData, limits: Limits) returns (r: Result<BlobData, FileApiError>)
    requires ValidBlob(a) && ValidBlob(b)
    ensures r.Ok? <==>
      |a.segments| + |b.segments| <= limits.maxSegments && a.size + b.size <= Min(limits.maxBlobSize, U64_MAX)
    ensures r.Ok? ==> ValidBlob(r.value) && Content(r.value.segments) == Content(a.segments) + Content(b.segments)
                      && r.value.segments == a.segments + b.segments
    ensures r.Err? ==> r.error == ResourceLimit
  {
    hide Flat;
    var all := a.segments + b.segments;
    ConcatContent(a.segments, b.segments);
    var segs: seq<Segment> := [];
    var total := 0;
    for i := 0 to |all|
      invariant segs == all[..i] && total == Place(all, i) <= U64_MAX
    {
      PlaceGrows(all, i + 1, |all|);
      if total + all[i].len > U64_MAX {
        return Err(ResourceLimit);
      }
      total := total + all[i].len;
      segs := segs + [all[i]];
    }
    assert segs == all;
    if |segs| > limits.maxSegments {
      return Err(ResourceLimit);
    }
    if total > limits.maxBlobSize {
      return Err(ResourceLimit);
    }
    r := Ok(BlobData(segs, total));
  }

  // --------------------------------------------------------------------- slice

  /** One argument of `slice`, clamped as section 3.3.1 of the File API says. */
  function Clamped(arg: Option<int>, size: nat, absent: nat): (r: nat)
    requires absent <= size
    ensures r <= size
  {
    if arg.None? then absent
    else if arg.value < 0 then Max(size + arg.value, 0)
    else Min(arg.value, size)
  }

  /** The flat range `[from, upto)` a slice stands for. */
  function SliceFrom(size: nat, start: Option<int>): nat {
    Clamped(start, size, 0)
  }

  function SliceUpto(size: nat, start: Option<int>, end: Option<int>): (r: nat)
    ensures SliceFrom(size, start) <= r <= size
  {
    Max(SliceFrom(size, start), Clamped(end, size, size))
  }

  /** The part of segment `s`, lying at `[lo, lo + s.len)`, that falls into `[from, upto)`. */
  function Part(s: Segment, lo: nat, from: nat, upto: nat): Segment
    requires lo < upto && from < lo + s.len && from <= upto
  {
    var first, last := Max(from, lo), Min(upto, lo + s.len);
    Segment(s.source, s.offset + (first - lo), last - first)
  }

  predicate IsI64(arg: Option<int>) {
    arg.Some? ==> I64_MIN <= arg.value <= I64_MAX
  }

  /** Everything read so far of the range `[from, upto)`, when the first `cursor` bytes were passed. */
  ghost function Window(flat: seq<Byte>, from: nat, upto: nat, cursor: nat): seq<Byte>
    requires from <= upto <= |flat|
  {
    flat[Min(from, cursor)..Min(upto, cursor)]
  }

  /** A segment outside the range adds nothing. */
  lemma WindowSkips(flat: seq<Byte>, from: nat, upto: nat, lo: nat, hi: nat)
    requires from <= upto <= |flat| && lo <= hi && (hi <= from || upto <= lo)
    ensures Window(flat, from, upto, hi) == Window(flat, from, upto, lo)
  {
  }

  /** A segment that meets the range adds the meeting part. */
  lemma WindowGrows(flat: seq<Byte>, from: nat, upto: nat, lo: nat, hi: nat)
    requires from <= upto <= |flat| && lo <= hi <= |flat| && from < hi && lo < upto
    ensures Window(flat, from, upto, hi) == Window(flat, from, upto, lo) + flat[Max(from, lo)..Min(upto, hi)]
  {
  }

  lemma Nothing(segs: seq<Segment>)
    ensures Place(segs, 0) == 0 && Size([]) == 0 && Content([]) == []
  {
  }

  lemma TrimmedBytes(s: Segment, lo: nat, from: nat, upto: nat)
    requires InBounds(s) && lo < upto && from < lo + s.len && from <= upto
    ensures var part := Part(s, lo, from, upto);
      var first, last := Max(from, lo), Min(upto, lo + s.len);
      && InBounds(part) && (from < upto && 0 < s.len ==> 0 < part.len)
      && Bytes(part) == s.source[s.offset + (first - lo)..s.offset + (last - lo)]
  {
  }

  /** The part of segment `i` that falls into the range is the next stretch of the range. */
  lemma PartContinues(segs: seq<Segment>, i: nat, from: nat, upto: nat)
    requires i < |segs| && AllInBounds(segs) && from <= upto <= Size(segs)
    requires Place(segs, i) < upto && from < Place(segs, i + 1) == Place(segs, i) + segs[i].len <= Size(segs)
    ensures var lo, hi := Place(segs, i), Place(segs, i + 1);
      var part := Part(segs[i], lo, from, upto);
      && InBounds(part) && (from < upto && 0 < segs[i].len ==> 0 < part.len)
      && Window(Content(segs), from, upto, hi) == Window(Content(segs), from, upto, lo) + Bytes(part)
  {
    hide Flat, Place, Window, Bytes, Part;
    var lo, hi := Place(segs, i), Place(segs, i + 1);
    var first, last := Max(from, lo), Min(upto, hi);
    TrimmedBytes(segs[i], lo, from, upto);
    PartPlace(segs, i, first - lo, last - lo);
    WindowGrows(Content(segs), from, upto, lo, hi);
  }

  /** What the loops of `slice` and `read_blob_range` rely on at segment `i`. */
  lemma WindowStep(segs: seq<Segment>, i: nat, from: nat, upto: nat)
    requires i < |segs| && AllInBounds(segs) && from <= upto <= Size(segs)
    ensures var lo, hi := Place(segs, i), Place(segs, i + 1);
      && lo + segs[i].len == hi <= Size(segs)
      && (hi <= from || upto <= lo ==> Window(Content(segs), from, upto, hi) == Window(Content(segs), from, upto, lo))
      && (!(hi <= from || upto <= lo) ==>
            var part := Part(segs[i], lo, from, upto);
            && InBounds(part) && (from < upto && 0 < segs[i].len ==> 0 < part.len)
            && Window(Content(segs), from, upto, hi) == Window(Content(segs), from, upto, lo) + Bytes(part))
  {
    hide Flat, Place, Window;
    SegmentPlace(segs, i);
    var lo, hi := Place(segs, i), Place(segs, i + 1);
    if hi <= from || upto <= lo {
      WindowSkips(Content(segs), from, upto, lo, hi);
    } else {
      PartContinues(segs, i, from, upto);
    }
  }

  /**
    `slice`: no segment is added, no byte copied, and the content is exactly the
    clamped range, for every pair of 64-bit arguments.
  */
  method Slice(b: BlobData, start: Option<int>, end: Option<int>, limits: Limits)
    returns (r: Result<BlobData, FileApiError>)
    requires ValidBlob(b) && IsI64(start) && IsI64(end)
    ensures r.Ok? ==>
      && ValidBlob(r.value) && |r.value.segments| <= |b.segments|
      && Content(r.value.segments)
         == Sliced(Content(b.segments), start, end)
    ensures r.Err? ==>
      && r.error == ResourceLimit
      && (|b.segments| > limits.maxSegments || b.size > limits.maxBlobSize)
  {
    var from := SliceFrom(b.size, start);
    var relativeEnd := Clamped(end, b.size, b.size);
    var span := if relativeEnd <= from then 0 else relativeEnd - from;
    if span == 0 {
      return Ok(BlobData([], 0));
    }
    var segs := Intersect(b, from, from + span);
    if |segs| > limits.maxSegments {
      return Err(ResourceLimit);
    }
    if span > limits.maxBlobSize {
      return Err(ResourceLimit);
    }
    r := Ok(BlobData(segs, span));
  }

  /** The loop of `slice`: the segments that meet the range, trimmed to it. */
  method Intersect(b: BlobData, from: nat, upto: nat) returns (segs: seq<Segment>)
    requires ValidBlob(b) && from < upto <= b.size
    ensures |segs| <= |b.segments| && AllInBounds(segs) && Content(segs) == Content(b.segments)[from..upto]
    ensures forall k :: 0 <= k < |segs| ==> 0 < segs[k].len
  {
    hide Flat, Place;
    Nothing(b.segments);
    segs := [];
    var cursor := 0;
    for i := 0 to |b.segments|
      invariant cursor == Place(b.segments, i) <= b.size
      invariant |segs| <= i && AllInBounds(segs)
      invariant forall k :: 0 <= k < |segs| ==> 0 < segs[k].len
      invariant Content(segs) == Window(Content(b.segments), from, upto, cursor)
    {
      var s := b.segments[i];
      var next := cursor + s.len;
      WindowStep(b.segments, i, from, upto);
      if !(next <= from || cursor >= upto) {
        var part := Part(s, cursor, from, upto);
        Appended(segs, part);
        segs := segs + [part];
      }
      cursor := next;
    }
  }

  /** The bytes a slice of `flat` stands for. */
  function Sliced(flat: seq<Byte>, start: Option<int>, end: Option<int>): seq<Byte> {
    flat[SliceFrom(|flat|, start)..SliceUpto(|flat|, start, end)]
  }

  lemma InsideStays(size: nat, f: nat, u: nat)
    requires f <= u <= size
    ensures SliceFrom(size, Some(f)) == f && SliceUpto(size, Some(f), Some(u)) == u
  {
  }

  /** A slice of a slice is one slice of the original, whatever the four arguments. */
  lemma SlicesCompose(flat: seq<Byte>, s1: Option<int>, e1: Option<int>, s2: Option<int>, e2: Option<int>)
    ensures var from := SliceFrom(|flat|, s1);
      var n := |Sliced(flat, s1, e1)|;
      Sliced(Sliced(flat, s1, e1), s2, e2)
      == Sliced(flat, Some(from + SliceFrom(n, s2)), Some(from + SliceUpto(n, s2, e2)))
  {
    hide Clamped, SliceFrom, SliceUpto;
    var from, upto := SliceFrom(|flat|, s1), SliceUpto(|flat|, s1, e1);
    ComposeAt(flat, from, upto, SliceFrom(upto - from, s2), SliceUpto(upto - from, s2, e2));
  }

  lemma ComposeAt(flat: seq<Byte>, from: nat, upto: nat, f: nat, u: nat)
    requires from <= upto <= |flat| && f <= u <= upto - from
    ensures flat[from..upto][f..u] == Sliced(flat, Some(from + f), Some(from + u))
  {
    SliceOfSlice(flat, from, upto, f, u);
    InsideStays(|flat|, from + f, from + u);
  }

  /** A slice of a concatenation is the concatenation of the two slices at the same places. */
  lemma SliceOfConcat(x: seq<Byte>, y: seq<Byte>, start: Option<int>, end: Option<int>)
    ensures var from, upto := SliceFrom(|x + y|, start), SliceUpto(|x + y|, start, end);
      Sliced(x + y, start, end)
      == Sliced(x, Some(from), Some(upto)) + Sliced(y, Some(Max(from - |x|, 0)), Some(Max(upto - |x|, 0)))
  {
    hide Clamped, SliceFrom, SliceUpto;
    var from, upto := SliceFrom(|x + y|, start), SliceUpto(|x + y|, start, end);
    ConcatAt(x, y, from, upto);
    ClippedTo(|x|, from, upto);
    ClippedTo(|y|, Max(from - |x|, 0), Max(upto - |x|, 0));
  }

  /** Non-negative bounds are cut off at the size. */
  lemma ClippedTo(size: nat, from: nat, upto: nat)
    requires from <= upto
    ensures SliceFrom(size, Some(from)) == Min(from, size) && SliceUpto(size, Some(from), Some(upto)) == Min(upto, size)
  {
  }

  lemma ConcatAt(x: seq<Byte>, y: seq<Byte>, from: nat, upto: nat)
    requires from <= upto <= |x + y|
    ensures (x + y)[from..upto]
         == x[Min(from, |x|)..Min(upto, |x|)] + y[Max(from - |x|, 0)..Max(upto - |x|, 0)]
  {
    var whole, parts := (x + y)[from..upto],
                        x[Min(from, |x|)..Min(upto, |x|)] + y[Max(from - |x|, 0)..Max(upto - |x|, 0)];
    assert |whole| == |parts|;
  }

  /** A negative argument counts from the end. */
  lemma NegativeCountsFromEnd(size: nat, back: nat)
    requires 0 < back
    ensures SliceFrom(size, Some(-(back as int))) == (if back <= size then size - back else 0)
    ensures SliceUpto(size, None, None) == size && SliceFrom(size, None) == 0
  {
  }

  // ------------------------------------------------------------- reading whole

  /** The cancel token as seen before segment `i`, then how its source answers. */
  datatype Visit = Visit(cancelled: bool, answer: Answer)

  /** The error one visit ends the read with, if any. */
  function Blame(v: Visit, wanted: bool): Option<FileApiError> {
    if v.cancelled then Some(Cancelled)
    else if !wanted then None
    else match v.answer
      case Exact => None
      case WrongLength => Some(InvalidRange)
      case Fails(error) => Some(error)
  }

  /** Segment `i` of `segs` carries bytes of the flat range `[from, upto)`. */
  predicate Meets(segs: seq<Segment>, i: nat, from: nat, upto: nat)
    requires i < |segs|
  {
    Place(segs, i) < upto && from < Place(segs, i) + segs[i].len
  }

  /** No visit before `i` stops a read of the range `[from, upto)`. */
  ghost predicate QuietBefore(segs: seq<Segment>, visits: seq<Visit>, i: nat, from: nat, upto: nat)
    requires i <= |segs| == |visits|
  {
    forall j: nat :: j < i ==> Blame(visits[j], Meets(segs, j, from, upto)).None?
  }

  /** The first visit that stops the read, and its error. */
  ghost predicate FirstFailure(segs: seq<Segment>, visits: seq<Visit>, i: nat, from: nat, upto: nat, e: FileApiError)
    requires i < |segs| == |visits|
  {
    QuietBefore(segs, visits, i, from, upto) && Blame(visits[i], Meets(segs, i, from, upto)) == Some(e)
  }

  /**
    `materialize`: the whole content if no source fails and no cancel is seen,
    otherwise the first failure and no bytes.
  */
  method Materialize(b: BlobData, limits: Limits, visits: seq<Visit>) returns (r: Result<seq<Byte>, FileApiError>)
    requires ValidBlob(b) && |visits| == |b.segments|
    ensures b.size > limits.maxMaterialize ==> r == Err(ResourceLimit)
    ensures b.size <= limits.maxMaterialize ==>
      && (r.Ok? <==> QuietBefore(b.segments, visits, |visits|, 0, b.size))
      && (r.Ok? ==> r.value == Content(b.segments))
      && (r.Err? ==> exists i: nat :: i < |visits| && FirstFailure(b.segments, visits, i, 0, b.size, r.error))
  {
    if b.size > limits.maxMaterialize {
      return Err(ResourceLimit);
    }
    var segs := b.segments;
    var out: seq<Byte> := [];
    for i := 0 to |segs|
      invariant out == Flat(segs, i)
      invariant QuietBefore(segs, visits, i, 0, b.size)
    {
      var seg := segs[i];
      SegmentPlace(segs, i);
      assert Meets(segs, i, 0, b.size);
      if visits[i].cancelled {
        assert FirstFailure(segs, visits, i, 0, b.size, Cancelled);
        return Err(Cancelled);
      }
      match visits[i].answer {
        case Fails(error) =>
          assert FirstFailure(segs, visits, i, 0, b.size, error);
          return Err(error);
        case WrongLength =>
          assert FirstFailure(segs, visits, i, 0, b.size, InvalidRange);
          return Err(InvalidRange);
        case Exact =>
      }
      var chunk := seg.source[seg.offset..seg.offset + seg.len];
      if |out| + seg.len > b.size {
        assert false;
      }
      out := out + chunk;
    }
    r := Ok(out);
  }

  /**
    `read_blob_range`: the flat range, reading only the segments that meet it.
    The cancel token is looked at before every segment, met or not.
  */
  method ReadBlobRange(b: BlobData, start: nat, end: nat, visits: seq<Visit>) returns (r: Result<seq<Byte>, FileApiError>)
    requires ValidBlob(b) && |visits| == |b.segments|
    ensures !(start <= end <= b.size) ==> r == Err(InvalidRange)
    ensures start <= end <= b.size ==>
      && (r.Ok? <==> QuietBefore(b.segments, visits, |visits|, start, end))
      && (r.Ok? ==> r.value == Content(b.segments)[start..end])
      && (r.Err? ==> exists i: nat :: i < |visits| && FirstFailure(b.segments, visits, i, start, end, r.error))
  {
    if end < start || start > b.size || end > b.size {
      return Err(InvalidRange);
    }
    var segs := b.segments;
    var out: seq<Byte> := [];
    var cursor := 0;
    hide Flat, Place;
    Nothing(segs);
    for i := 0 to |segs|
      invariant cursor == Place(segs, i) <= b.size
      invariant out == Window(Content(segs), start, end, cursor)
      invariant QuietBefore(segs, visits, i, start, end)
    {
      var seg := segs[i];
      WindowStep(segs, i, start, end);
      if visits[i].cancelled {
        assert FirstFailure(segs, visits, i, start, end, Cancelled);
        return Err(Cancelled);
      }
      var segStart, segEnd := cursor, cursor + seg.len;
      cursor := segEnd;
      if segEnd <= start || segStart >= end {
        continue;
      }
      var part := Part(seg, segStart, start, end);
      match visits[i].answer {
        case Fails(error) =>
          assert FirstFailure(segs, visits, i, start, end, error);
          return Err(error);
        case WrongLength =>
          assert FirstFailure(segs, visits, i, start, end, InvalidRange);
          return Err(InvalidRange);
        case Exact =>
      }
      out := out + part.source[part.offset..part.offset + part.len];
    }
    r := Ok(out);
  }

  // ------------------------------------------------------- reading chunkwise

  /** The error class a reader remembers and replays. */
  function ClassOf(e: FileApiError): FileApiError {
    if e.ResourceLimit? || e.Cancelled? then e else InvalidRange
  }

  /** The failures a reader can remember as what they were. */
  predicate Remembered(e: FileApiError) {
    e.ResourceLimit? || e.Cancelled? || e.InvalidRange?
  }

  class BlobReader {
    const segments: seq<Segment>
    const chunkSize: nat
    var segIndex: nat
    var segOffset: nat
    var remaining: nat
    var cancelled: bool
    var errored: Option<FileApiError>
    /** Chunks handed out so far. */
    ghost var served: nat

    ghost predicate Valid()
      reads this
    {
      && AllInBounds(segments)
      && (forall i :: 0 <= i < |segments| ==> 0 < segments[i].len)
      && 0 < chunkSize
      && Placed()
      && (errored.None? ==> Position() == Min(served * chunkSize, Size(segments)))
      && (errored.Some? ==> Remembered(errored.value))
    }

    /** The flat position of the cursor. */
    ghost function Position(): nat
      reads this
      requires segIndex <= |segments|
    {
      Place(segments, segIndex) + segOffset
    }

    constructor (b: BlobData, limits: Limits)
      requires ValidBlob(b) && ChunkInRange(limits.chunkSize)
      ensures Valid() && segments == b.segments && chunkSize == limits.chunkSize
      ensures Position() == 0 && remaining == b.size && served == 0 && !cancelled && errored.None?
    {
      segments := b.segments;
      chunkSize := limits.chunkSize;
      segIndex, segOffset, remaining := 0, 0, b.size;
      cancelled, errored, served := false, None, 0;
    }

    method Cancel()
      requires Valid()
      modifies this`cancelled
      ensures Valid() && cancelled
    {
      cancelled := true;
    }

    /**
      `read_next`. `answers` tells what each segment's source says when asked
      during this call; `asked` lists the segments asked, in order. The k-th
      chunk is the k-th stretch of `chunkSize` bytes of the content; the first
      failure is reported, gives no bytes, and is replayed by class without
      asking any source again.
    */
    method ReadNext(answers: seq<Answer>) returns (r: Result<Option<seq<Byte>>, FileApiError>, asked: seq<nat>)
      requires Valid() && |answers| == |segments|
      modifies this
      ensures Valid() && cancelled == old(cancelled)
      ensures old(cancelled || errored.Some? || remaining == 0) ==>
        && asked == [] && unchanged(this)
        && r == (if old(cancelled) || old(errored.None?) then Ok(None) else Err(old(errored.value)))
      ensures !old(cancelled || errored.Some?) ==>
        (old(remaining) == 0 <==> |Chunks(Content(segments), chunkSize)| <= old(served))
      ensures !old(cancelled || errored.Some? || remaining == 0) ==>
        var from := old(served) * chunkSize;
        var upto := Min((old(served) + 1) * chunkSize, Size(segments));
        && from == old(Position()) < upto
        && (r.Ok? <==> Answered(answers, |segments|, from, upto))
        && (r.Ok? ==> r.value == Some(Content(segments)[from..upto])
                      && r.value == Some(Chunks(Content(segments), chunkSize)[old(served)])
                      && asked == MeetingUpto(segments, |segments|, from, upto)
                      && Position() == upto && served == old(served) + 1 && errored.None?)
        && (r.Err? ==> errored == Some(ClassOf(r.error)) && served == old(served)
                       && exists k: nat :: FailsAt(answers, k, asked, from, upto, r.error))
    {
      asked := [];
      if cancelled {
        return Ok(None), [];
      }
      if errored.Some? {
        return Err(errored.value), [];
      }
      AtChunkStart();
      if remaining == 0 {
        return Ok(None), [];
      }
      r, asked := ReadChunk(answers);
    }

    /** An open reader stands where the next chunk starts, or at the end after the last one. */
    lemma AtChunkStart()
      requires Valid() && errored.None?
      ensures remaining == 0 <==> |Chunks(Content(segments), chunkSize)| <= served
      ensures remaining > 0 ==>
        var from := served * chunkSize;
        var upto := Min((served + 1) * chunkSize, Size(segments));
        && from == Position() && upto == from + Min(chunkSize, remaining)
        && Chunks(Content(segments), chunkSize)[served] == Content(segments)[from..upto]
    {
      ChunkAt(Content(segments), chunkSize, served);
      if remaining > 0 {
        ChunkBounds(served, chunkSize, Size(segments), Position());
      }
    }

    /** Segment `k` is the first of those asked to fail, and is the last one asked. */
    ghost predicate FailsAt(answers: seq<Answer>, k: nat, asked: seq<nat>, from: nat, upto: nat, error: FileApiError)
      requires |answers| == |segments|
    {
      && k < |segments| && Meets(segments, k, from, upto) && Answered(answers, k, from, upto)
      && Blame(Visit(false, answers[k]), true) == Some(error)
      && asked == MeetingUpto(segments, k, from, upto) + [k]
    }

    /** One source read: the next `take` bytes of the current segment, or a failure and no bytes. */
    method ReadPiece(answer: Answer, take: nat) returns (r: Result<seq<Byte>, FileApiError>)
      requires segIndex < |segments| && AllInBounds(segments) && segOffset + take <= segments[segIndex].len
      requires take <= remaining
      modifies this`segOffset, this`remaining, this`errored
      ensures r.Ok? <==> answer.Exact?
      ensures r.Ok? ==>
        var at := segments[segIndex].offset + old(segOffset);
        && r.value == segments[segIndex].source[at..at + take]
        && segOffset == old(segOffset) + take && remaining == old(remaining) - take && errored == old(errored)
      ensures r.Err? ==>
        && segOffset == old(segOffset) && remaining == old(remaining) && errored == Some(ClassOf(r.error))
        && (answer.Fails? ==> r.error == answer.error)
        && (answer.WrongLength? ==> r.error == InvalidRange)
    {
      match answer {
        case Fails(error) =>
          errored := Some(ClassOf(error));
          return Err(error);
        case WrongLength =>
          errored := Some(InvalidRange);
          return Err(InvalidRange);
        case Exact =>
      }
      var at := segments[segIndex].offset + segOffset;
      r := Ok(segments[segIndex].source[at..at + take]);
      segOffset := segOffset + take;
      remaining := remaining - take;
    }

    /** The loop of `read_next`: one chunk, piece by piece, or the first failure. */
    method ReadChunk(answers: seq<Answer>) returns (r: Result<Option<seq<Byte>>, FileApiError>, asked: seq<nat>)
      requires Valid() && |answers| == |segments| && !cancelled && errored.None? && remaining > 0
      modifies this
      ensures Valid() && cancelled == old(cancelled)
      ensures var from := old(Position());
        var upto := from + Min(chunkSize, old(remaining));
        && (r.Ok? <==> Answered(answers, |segments|, from, upto))
        && (r.Ok? ==> r.value == Some(Content(segments)[from..upto])
                      && asked == MeetingUpto(segments, |segments|, from, upto)
                      && Position() == upto && served == old(served) + 1 && errored.None?)
        && (r.Err? ==> errored == Some(ClassOf(r.error)) && served == old(served)
                       && exists k: nat :: FailsAt(answers, k, asked, from, upto, r.error))
    {
      asked := [];
      var need: nat := Min(chunkSize, remaining);
      var out: seq<Byte> := [];
      ghost var from, upto := Position(), Position() + need;
      BehindNothingMeets(from, upto, answers);
      hide MeetingUpto;
      while need > 0
        invariant Reading(answers, need, out, from, upto)
        invariant asked == AskedSoFar(from, upto)
        invariant cancelled == old(cancelled) && errored.None? && served == old(served)
        decreases need, |segments| - segIndex
      {
        var step, left, more := ReadStep(answers, need, out, from, upto);
        asked := asked + more;
        if step.Err? {
          return Err(step.error), asked;
        }
        out, need := step.value, left;
      }
      AheadNothingMeets(from, upto, answers);
      ChunkBounds(served, chunkSize, Size(segments), from);
      served := served + 1;
      r := Ok(Some(out));
    }

    /** The current segment was asked during this chunk. */
    ghost predicate Touched(from: nat)
      requires segIndex <= |segments|
      reads this
    {
      segIndex < |segments| && Position() > from && segOffset > 0
    }

    ghost function AskedSoFar(from: nat, upto: nat): seq<nat>
      requires segIndex <= |segments|
      reads this
    {
      MeetingUpto(segments, segIndex, from, upto) + (if Touched(from) then [segIndex] else [])
    }

    /** Past a used-up segment. */
    method NextSegment(answers: seq<Answer>, ghost need: nat, ghost out: seq<Byte>, ghost from: nat, ghost upto: nat)
      requires Reading(answers, need, out, from, upto) && 0 < need
      requires segIndex < |segments| && segOffset == segments[segIndex].len
      modifies this`segIndex, this`segOffset
      ensures Reading(answers, need, out, from, upto) && segIndex == old(segIndex) + 1
      ensures AskedSoFar(from, upto) == old(AskedSoFar(from, upto))
    {
      hide Flat, Place, Meets, MeetingUpto;
      SegmentPlace(segments, segIndex);
      if Position() == from {
        PassedSegment(segments, segIndex, from, upto);
      } else {
        SpentSegment(segments, segIndex, from, upto);
      }
      MeetingNext(segments, segIndex, from, upto);
      segIndex, segOffset := segIndex + 1, 0;
    }

    /** One turn of that loop: past a used-up segment, or one source read. */
    method ReadStep(answers: seq<Answer>, need: nat, out: seq<Byte>, ghost from: nat, ghost upto: nat)
      returns (r: Result<seq<Byte>, FileApiError>, left: nat, asked: seq<nat>)
      requires Reading(answers, need, out, from, upto) && 0 < need && errored.None?
      modifies this`segIndex, this`segOffset, this`remaining, this`errored
      ensures Placed()
      ensures r.Ok? ==> Reading(answers, left, r.value, from, upto) && errored.None?
      ensures r.Ok? ==> AskedSoFar(from, upto) == old(AskedSoFar(from, upto)) + asked
      ensures r.Ok? ==> left < need || (left == need && segIndex == old(segIndex) + 1)
      ensures r.Err? ==> errored == Some(ClassOf(r.error)) && !Answered(answers, |segments|, from, upto)
      ensures r.Err? ==> FailsAt(answers, segIndex, old(AskedSoFar(from, upto)) + asked, from, upto, r.error)
    {
      hide Flat, Place, Meets, MeetingUpto, Content, Answered, FailsAt;
      asked, left := [], need;
      if segIndex >= |segments| {
        assert false;
      } else {
        var seg := segments[segIndex];
        var available := seg.len - segOffset;
        SegmentPlace(segments, segIndex);
        if available == 0 {
          NextSegment(answers, need, out, from, upto);
          return Ok(out), need, [];
        }
        asked := [segIndex];
        r, left := TakePiece(answers, need, out, from, upto);
      }
    }

    /** Asks the current segment for what is needed of it. */
    method TakePiece(answers: seq<Answer>, need: nat, out: seq<Byte>, ghost from: nat, ghost upto: nat)
      returns (r: Result<seq<Byte>, FileApiError>, left: nat)
      requires Reading(answers, need, out, from, upto) && 0 < need && errored.None?
      requires segIndex < |segments| && segOffset < segments[segIndex].len
      modifies this`segOffset, this`remaining, this`errored
      ensures Placed()
      ensures r.Ok? ==> Reading(answers, left, r.value, from, upto) && errored.None? && left < need
      ensures r.Ok? ==> AskedSoFar(from, upto) == old(AskedSoFar(from, upto)) + [segIndex]
      ensures r.Err? ==> errored == Some(ClassOf(r.error)) && !Answered(answers, |segments|, from, upto)
      ensures r.Err? ==> FailsAt(answers, segIndex, old(AskedSoFar(from, upto)) + [segIndex], from, upto, r.error)
    {
      hide Flat, Place, Meets, MeetingUpto, Content, Size, AllInBounds;
      left := need;
      SegmentPlace(segments, segIndex);
      var take := Min(need, segments[segIndex].len - segOffset);
      Piece(segments, segIndex, segOffset, take, from);
      MeetsHere(segments, segIndex, segOffset, from, upto);
      r := ReadPiece(answers[segIndex], take);
      if r.Ok? {
        r := Ok(out + r.value);
        left := need - take;
      }
    }

    /** The cursor stands inside its segment, and `remaining` counts what is after it. */
    ghost predicate Placed()
      reads this
    {
      && segIndex <= |segments|
      && segOffset <= (if segIndex < |segments| then segments[segIndex].len else 0)
      && remaining + Position() == Size(segments)
    }

    /** The state inside the loop: `out` is what was read since `from`, every source asked so far was exact. */
    ghost predicate Reading(answers: seq<Answer>, need: nat, out: seq<Byte>, from: nat, upto: nat)
      reads this
    {
      && AllInBounds(segments) && (forall i :: 0 <= i < |segments| ==> 0 < segments[i].len)
      && Placed() && |answers| == |segments|
      && from <= Position() && Position() + need == upto <= Size(segments) && from < upto
      && out == Content(segments)[from..Position()]
      && Answered(answers, segIndex, from, upto)
      && (Touched(from) ==> answers[segIndex].Exact? && (need > 0 ==> segOffset == segments[segIndex].len))
    }

    /** Of the first `n` segments, those that carry bytes of the range answered exactly. */
    ghost predicate Answered(answers: seq<Answer>, n: nat, from: nat, upto: nat)
      requires n <= |segments| == |answers|
    {
      forall i: nat :: i < n && Meets(segments, i, from, upto) ==> answers[i].Exact?
    }

    lemma BehindNothingMeets(from: nat, upto: nat, answers: seq<Answer>)
      requires segIndex <= |segments| == |answers| && from >= Place(segments, segIndex)
      ensures Answered(answers, segIndex, from, upto) && MeetingUpto(segments, segIndex, from, upto) == []
    {
      forall i: nat | i < segIndex
        ensures !Meets(segments, i, from, upto)
      {
        PlaceGrows(segments, i + 1, segIndex);
      }
      NoneMeet(segments, 0, segIndex, from, upto);
    }

    lemma AheadNothingMeets(from: nat, upto: nat, answers: seq<Answer>)
      requires segIndex <= |segments| == |answers| && Answered(answers, segIndex, from, upto)
      requires segOffset <= (if segIndex < |segments| then segments[segIndex].len else 0)
      requires from < upto == Position()
      requires segIndex < |segments| && segOffset > 0 ==> answers[segIndex].Exact?
      requires forall i :: 0 <= i < |segments| ==> 0 < segments[i].len
      ensures Answered(answers, |segments|, from, upto)
      ensures MeetingUpto(segments, |segments|, from, upto) == AskedSoFar(from, upto)
    {
      forall i: nat | segIndex < i < |segments|
        ensures !Meets(segments, i, from, upto)
      {
        PlaceGrows(segments, segIndex + 1, i);
      }
      if segIndex < |segments| {
        MeetingNext(segments, segIndex, from, upto);
        NoneMeet(segments, segIndex + 1, |segments|, from, upto);
      }
    }
  }

  /** The segments among the first `n` that carry bytes of the range, in order. */
  ghost function MeetingUpto(segs: seq<Segment>, n: nat, from: nat, upto: nat): seq<nat>
    requires n <= |segs|
  {
    if n == 0 then []
    else MeetingUpto(segs, n - 1, from, upto) + (if Meets(segs, n - 1, from, upto) then [n - 1] else [])
  }

  lemma MeetingNext(segs: seq<Segment>, n: nat, from: nat, upto: nat)
    requires n < |segs|
    ensures MeetingUpto(segs, n + 1, from, upto)
         == MeetingUpto(segs, n, from, upto) + (if Meets(segs, n, from, upto) then [n] else [])
  {
  }

  lemma {:induction false} NoneMeet(segs: seq<Segment>, m: nat, n: nat, from: nat, upto: nat)
    requires m <= n <= |segs| && forall i: nat :: m <= i < n ==> !Meets(segs, i, from, upto)
    ensures MeetingUpto(segs, n, from, upto) == MeetingUpto(segs, m, from, upto)
    decreases n
  {
    if m < n {
      NoneMeet(segs, m, n - 1, from, upto);
    }
  }

  lemma SpentSegment(segs: seq<Segment>, i: nat, from: nat, upto: nat)
    requires i < |segs| && 0 < segs[i].len && from < Place(segs, i) + segs[i].len <= upto
    ensures Meets(segs, i, from, upto)
  {
  }

  lemma PassedSegment(segs: seq<Segment>, i: nat, from: nat, upto: nat)
    requires i < |segs| && Place(segs, i) + segs[i].len <= from
    ensures !Meets(segs, i, from, upto)
  {
  }

  lemma MeetsHere(segs: seq<Segment>, i: nat, offset: nat, from: nat, upto: nat)
    requires i < |segs| && offset < segs[i].len && from <= Place(segs, i) + offset < upto
    ensures Meets(segs, i, from, upto)
  {
  }

  /** A piece of segment `i` continues what was read of the flat content from `from` on. */
  lemma Piece(segs: seq<Segment>, i: nat, offset: nat, take: nat, from: nat)
    requires i < |segs| && AllInBounds(segs) && offset + take <= segs[i].len && from <= Place(segs, i) + offset
    ensures var pos, at := Place(segs, i) + offset, segs[i].offset + offset;
      && pos + take <= Size(segs)
      && Content(segs)[from..pos] + segs[i].source[at..at + take] == Content(segs)[from..pos + take]
  {
    hide Flat, Place;
    PartPlace(segs, i, offset, offset + take);
    var pos, flat := Place(segs, i) + offset, Content(segs);
    assert flat[from..pos] + flat[pos..pos + take] == flat[from..pos + take];
  }

  /** `BlobData::reader`. */
  method OpenReader(b: BlobData, limits: Limits) returns (r: Result<BlobReader, FileApiError>)
    requires ValidBlob(b)
    ensures r.Ok? <==> ChunkInRange(limits.chunkSize)
    ensures r.Ok? ==> fresh(r.value) && r.value.Valid() && r.value.segments == b.segments && r.value.Position() == 0
    ensures r.Ok? ==> r.value.remaining == b.size && r.value.served == 0 && !r.value.cancelled && r.value.errored.None?
    ensures r.Err? ==> r.error == ResourceLimit
  {
    if !ChunkInRange(limits.chunkSize) {
      return Err(ResourceLimit);
    }
    var reader := new BlobReader(b, limits);
    r := Ok(reader);
  }

  /**
    A failure is replayed as what it was if and only if it was a resource limit,
    a cancellation or a range error; no source is asked again either way.
  */
  method ReadTwice(reader: BlobReader, answers: seq<Answer>, again: seq<Answer>)
    returns (first: Result<Option<seq<Byte>>, FileApiError>, second: Result<Option<seq<Byte>>, FileApiError>,
             asked: seq<nat>)
    requires reader.Valid() && |answers| == |again| == |reader.segments|
    modifies reader
    ensures reader.Valid()
    ensures first.Err? ==>
      && asked == [] && second.Err? && Remembered(second.error)
      && (second.error == first.error <==> Remembered(first.error))
      && (!Remembered(first.error) ==> second.error == InvalidRange)
  {
    var askedFirst;
    first, askedFirst := reader.ReadNext(answers);
    second, asked := reader.ReadNext(again);
  }

  /** A one-byte blob whose source denies the read: the second call reports something else. */
  method DenialIsForgotten(byte: Byte)
    returns (first: Result<Option<seq<Byte>>, FileApiError>, second: Result<Option<seq<Byte>>, FileApiError>,
             asked: seq<nat>)
    ensures first == Err(PermissionDenied) && second == Err(InvalidRange) && asked == []
  {
    var blob := BlobData([Segment([byte], 0, 1)], 1);
    assert ValidBlob(blob) by {
      assert Place(blob.segments, 1) == Place(blob.segments, 0) + 1;
    }
    var made := OpenReader(blob, Limits(1, 1, 1, 1, MIN_CHUNK));
    var reader := made.value;
    var denials := [Fails(PermissionDenied)];
    assert Place(blob.segments, 1) == 1 && Meets(blob.segments, 0, 0, 1) && !denials[0].Exact?;
    first, asked := reader.ReadNext(denials);
    second, asked := reader.ReadNext([Exact]);
  }

  /** With bytes left, the cursor stands on a chunk boundary. */
  lemma ChunkBounds(served: nat, chunkSize: nat, size: nat, from: nat)
    requires 0 < chunkSize && from == Min(served * chunkSize, size) < size
    ensures from == served * chunkSize
    ensures from + Min(chunkSize, size - from) == Min((served + 1) * chunkSize, size)
  {
    assert (served + 1) * chunkSize == served * chunkSize + chunkSize;
  }

  /** The three readers agree: chunks in order are ranges, and ranges in order are the whole. */
  function Chunks(flat: seq<Byte>, chunkSize: nat): seq<seq<Byte>>
    requires 0 < chunkSize
  {
    if flat == [] then [] else [flat[..Min(chunkSize, |flat|)]] + Chunks(flat[Min(chunkSize, |flat|)..], chunkSize)
  }

  function Joined(chunks: seq<seq<Byte>>): seq<Byte> {
    if chunks == [] then [] else chunks[0] + Joined(chunks[1..])
  }

  lemma {:induction false} ChunksJoin(flat: seq<Byte>, chunkSize: nat)
    requires 0 < chunkSize
    ensures Joined(Chunks(flat, chunkSize)) == flat
  {
    if flat != [] {
      var n := Min(chunkSize, |flat|);
      ChunksJoin(flat[n..], chunkSize);
      assert flat[..n] + flat[n..] == flat;
    }
  }

  /** Where chunk `k` starts. */
  function ChunkStart(k: nat, chunkSize: nat): nat {
    if k == 0 then 0 else ChunkStart(k - 1, chunkSize) + chunkSize
  }

  lemma {:induction false} ChunkStartIs(k: nat, chunkSize: nat)
    ensures ChunkStart(k, chunkSize) == k * chunkSize
  {
    if k > 0 {
      ChunkStartIs(k - 1, chunkSize);
      assert k * chunkSize == (k - 1) * chunkSize + chunkSize;
    }
  }

  lemma ChunksStep(flat: seq<Byte>, chunkSize: nat, k: nat)
    requires 0 < chunkSize && flat != [] && 0 < k
    ensures var rest := Chunks(flat[Min(chunkSize, |flat|)..], chunkSize);
      && |Chunks(flat, chunkSize)| == |rest| + 1
      && (k <= |rest| ==> Chunks(flat, chunkSize)[k] == rest[k - 1])
  {
  }

  lemma {:induction false} ChunkFrom(flat: seq<Byte>, chunkSize: nat, k: nat)
    requires 0 < chunkSize
    ensures var at := ChunkStart(k, chunkSize);
      && (k < |Chunks(flat, chunkSize)| <==> at < |flat|)
      && (at < |flat| ==> Chunks(flat, chunkSize)[k] == flat[at..Min(at + chunkSize, |flat|)])
    decreases k
  {
    if flat != [] && k > 0 {
      var n := Min(chunkSize, |flat|);
      var before := ChunkStart(k - 1, chunkSize);
      ChunkFrom(flat[n..], chunkSize, k - 1);
      ChunksStep(flat, chunkSize, k);
      if before + chunkSize < |flat| {
        SliceOfSlice(flat, n, |flat|, before, Min(before + chunkSize, |flat| - n));
        assert flat[n..|flat|] == flat[n..];
      }
    }
  }

  /** The k-th chunk is the k-th stretch of the content, and there is one exactly while bytes are left. */
  lemma ChunkAt(flat: seq<Byte>, chunkSize: nat, k: nat)
    requires 0 < chunkSize
    ensures k < |Chunks(flat, chunkSize)| <==> k * chunkSize < |flat|
    ensures k * chunkSize < |flat| ==>
      Chunks(flat, chunkSize)[k] == flat[k * chunkSize..Min((k + 1) * chunkSize, |flat|)]
  {
    ChunkFrom(flat, chunkSize, k);
    ChunkStartIs(k, chunkSize);
    ChunkStartIs(k + 1, chunkSize);
  }
}
