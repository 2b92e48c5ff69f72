/**
  Blob parts: the line-ending conversion, the cheap size check made while the
  parts are converted, and the exact accounting made when they are assembled.
*/
module Parts {
  import opened Common
  import opened Utf8
  import opened Blob

  const LF: nat := 10
  const CR: nat := 13

  datatype NativeEnding = UseLf | UseCrlf
  datatype Endings = Transparent | Native

  ghost predicate Scalars(text: Text) {
    forall i :: 0 <= i < |text| ==> IsScalar(text[i])
  }

  function Target(native: NativeEnding): Text {
    if native.UseLf? then [LF] else [CR, LF]
  }

  predicate StartsEnding(text: Text) {
    text != [] && (text[0] == CR || text[0] == LF)
  }

  /** The length of the line ending at the front: CRLF counts as one ending. */
  function EndingLen(text: Text): (n: nat)
    requires StartsEnding(text)
    ensures 1 <= n <= |text|
  {
    if text[0] == CR && |text| > 1 && text[1] == LF then 2 else 1
  }

  /** Every line ending replaced by `target`, everything else kept. */
  function Converted(text: Text, target: Text): Text {
    if text == [] then []
    else if StartsEnding(text) then target + Converted(text[EndingLen(text)..], target)
    else [text[0]] + Converted(text[1..], target)
  }

  /** The lines between the endings. */
  function Lines(text: Text): (ls: seq<Text>)
    ensures ls != []
  {
    if text == [] then [[]]
    else if StartsEnding(text) then [[]] + Lines(text[EndingLen(text)..])
    else var more := Lines(text[1..]); [[text[0]] + more[0]] + more[1..]
  }

  function JoinLines(ls: seq<Text>, target: Text): Text
    requires ls != []
  {
    if |ls| == 1 then ls[0] else ls[0] + target + JoinLines(ls[1..], target)
  }

  /** Conversion is: cut into lines, join with the target. */
  lemma {:induction false} ConvertedJoinsLines(text: Text, target: Text)
    ensures Converted(text, target) == JoinLines(Lines(text), target)
    decreases |text|
  {
    if text != [] {
      if StartsEnding(text) {
        ConvertedJoinsLines(text[EndingLen(text)..], target);
      } else {
        ConvertedJoinsLines(text[1..], target);
        var more := Lines(text[1..]);
        assert Lines(text)[1..] == more[1..];
      }
    }
  }

  lemma {:induction false} LinesHaveNoEndings(text: Text)
    ensures forall i, k :: 0 <= i < |Lines(text)| && 0 <= k < |Lines(text)[i]| ==>
      Lines(text)[i][k] != CR && Lines(text)[i][k] != LF
    decreases |text|
  {
    if text != [] {
      if StartsEnding(text) {
        LinesHaveNoEndings(text[EndingLen(text)..]);
      } else {
        LinesHaveNoEndings(text[1..]);
      }
    }
  }

  lemma {:induction false} LinesOfLine(line: Text, rest: Text)
    requires forall k :: 0 <= k < |line| ==> line[k] != CR && line[k] != LF
    ensures var ls := Lines(rest); Lines(line + rest) == [line + ls[0]] + ls[1..]
    decreases |line|
  {
    var ls := Lines(rest);
    if line == [] {
      assert line + rest == rest;
      assert [ls[0]] + ls[1..] == ls;
      assert line + ls[0] == ls[0];
    } else {
      LinesOfLine(line[1..], rest);
      assert (line + rest)[1..] == line[1..] + rest;
      assert [line[0]] + (line[1..] + ls[0]) == line + ls[0];
    }
  }

  lemma LinesOfEnding(native: NativeEnding, rest: Text)
    ensures Lines(Target(native) + rest) == [[]] + Lines(rest)
  {
    var text := Target(native) + rest;
    assert text[EndingLen(text)..] == rest;
  }

  /** Joining and cutting again gives the lines back. */
  lemma {:induction false} JoinKeepsLines(ls: seq<Text>, native: NativeEnding)
    requires ls != []
    requires forall i, k :: 0 <= i < |ls| && 0 <= k < |ls[i]| ==> ls[i][k] != CR && ls[i][k] != LF
    ensures Lines(JoinLines(ls, Target(native))) == ls
    decreases |ls|
  {
    var first := ls[0];
    if |ls| == 1 {
      LinesOfLine(first, []);
      assert first + [] == first;
    } else {
      var rest := JoinLines(ls[1..], Target(native));
      JoinKeepsLines(ls[1..], native);
      LinesOfEnding(native, rest);
      LinesOfLine(first, Target(native) + rest);
      assert JoinLines(ls, Target(native)) == first + (Target(native) + rest);
      assert first + [] == first;
      assert ([[]] + ls[1..])[1..] == ls[1..];
      assert [first] + ls[1..] == ls;
    }
  }

  /** Converting twice is converting once, to the last target: the lines never change. */
  lemma ConvertedTwice(text: Text, a: NativeEnding, b: NativeEnding)
    ensures Lines(Converted(text, Target(a))) == Lines(text)
    ensures Converted(Converted(text, Target(a)), Target(b)) == Converted(text, Target(b))
  {
    LinesHaveNoEndings(text);
    ConvertedJoinsLines(text, Target(a));
    JoinKeepsLines(Lines(text), a);
    ConvertedJoinsLines(text, Target(b));
    ConvertedJoinsLines(Converted(text, Target(a)), Target(b));
  }

  lemma ConvertedStep(text: Text, target: Text)
    requires text != []
    ensures Converted(text, target)
         == if StartsEnding(text) then target + Converted(text[EndingLen(text)..], target)
            else [text[0]] + Converted(text[1..], target)
  {
  }

  lemma ConvertedNothing(target: Text)
    ensures Converted([], target) == []
  {
  }

  /** The loop of `convert_line_endings_to_native`, with its one character of lookahead. */
  method ConvertLineEndings(input: Text, native: NativeEnding) returns (result: Text)
    ensures result == Converted(input, Target(native))
  {
    hide Converted;
    var target := Target(native);
    result := [];
    var i := 0;
    assert input[0..] == input;
    while i < |input|
      invariant i <= |input|
      invariant result + Converted(input[i..], target) == Converted(input, target)
    {
      var ch := input[i];
      ghost var tail := input[i..];
      ConvertedStep(tail, target);
      i := i + 1;
      if ch == CR {
        result := result + target;
        if i < |input| && input[i] == LF {
          i := i + 1;
        }
        assert input[i..] == tail[EndingLen(tail)..];
      } else if ch == LF {
        result := result + target;
        assert input[i..] == tail[EndingLen(tail)..];
      } else {
        result := result + [ch];
        assert input[i..] == tail[1..];
      }
    }
    ConvertedNothing(target);
    assert input[i..] == [] && result + [] == result;
  }

  function LenUtf8(c: nat): nat {
    if c < 0x80 then 1 else if c < 0x800 then 2 else if c < 0x10000 then 3 else 4
  }

  lemma ScalarsConcat(a: Text, b: Text)
    requires Scalars(a) && Scalars(b)
    ensures Scalars(a + b)
  {
  }

  lemma EncodeStep(text: Text)
    requires Scalars(text) && text != []
    ensures Encode(text) == EncodeScalar(text[0]) + Encode(text[1..])
  {
  }

  lemma EncodeNothing()
    ensures Encode([]) == []
  {
  }

  lemma {:induction false} EncodeConcat(a: Text, b: Text)
    requires Scalars(a) && Scalars(b)
    ensures Scalars(a + b) && Encode(a + b) == Encode(a) + Encode(b)
  {
    hide Encode, EncodeScalar, IsScalar;
    ScalarsConcat(a, b);
    if a == [] {
      EncodeNothing();
      assert a + b == b;
    } else {
      EncodeConcat(a[1..], b);
      assert (a + b)[1..] == a[1..] + b && (a + b)[0] == a[0];
      EncodeStep(a);
      EncodeStep(a + b);
    }
  }

  lemma {:induction false} ConvertedScalars(text: Text, native: NativeEnding)
    requires Scalars(text)
    ensures Scalars(Converted(text, Target(native)))
    decreases |text|
  {
    if text != [] {
      ConvertedScalars(if StartsEnding(text) then text[EndingLen(text)..] else text[1..], native);
    }
  }

  /** The bytes of a text after conversion. */
  ghost function NativeBytes(text: Text, native: NativeEnding): seq<Byte>
    requires Scalars(text)
  {
    ConvertedScalars(text, native);
    Encode(Converted(text, Target(native)))
  }

  lemma NativeBytesStep(text: Text, native: NativeEnding)
    requires Scalars(text) && text != []
    ensures StartsEnding(text) ==>
      |NativeBytes(text, native)| == |Target(native)| + |NativeBytes(text[EndingLen(text)..], native)|
    ensures !StartsEnding(text) ==>
      |NativeBytes(text, native)| == LenUtf8(text[0]) + |NativeBytes(text[1..], native)|
  {
    if StartsEnding(text) {
      var rest := text[EndingLen(text)..];
      ConvertedScalars(rest, native);
      EncodeConcat(Target(native), Converted(rest, Target(native)));
      TargetBytes(native);
    } else {
      ConvertedScalars(text[1..], native);
      EncodeConcat([text[0]], Converted(text[1..], Target(native)));
      assert Encode([text[0]]) == EncodeScalar(text[0]) + Encode([]);
    }
  }

  lemma TargetBytes(native: NativeEnding)
    ensures Scalars(Target(native)) && |Encode(Target(native))| == |Target(native)|
  {
    assert Encode([LF]) == [LF] + Encode([]);
    assert [CR, LF][1..] == [LF];
    assert Encode([CR, LF]) == [CR] + Encode([LF]);
  }

  /** `line_ending_byte_len`: the UTF-8 length of the converted text, without building it. */
  method LineEndingByteLen(text: Text, native: NativeEnding) returns (r: Result<nat, FileApiError>)
    requires Scalars(text)
    ensures var n := |NativeBytes(text, native)|; r == if n <= U64_MAX then Ok(n) else Err(ResourceLimit)
  {
    var targetLen := if native.UseLf? then 1 else 2;
    var length := 0;
    var i := 0;
    assert text[0..] == text;
    while i < |text|
      invariant i <= |text| && length <= U64_MAX
      invariant length + |NativeBytes(text[i..], native)| == |NativeBytes(text, native)|
    {
      ghost var tail := text[i..];
      NativeBytesStep(tail, native);
      var ch := text[i];
      var add;
      i := i + 1;
      if ch == CR {
        if i < |text| && text[i] == LF {
          i := i + 1;
        }
        add := targetLen;
        assert text[i..] == tail[EndingLen(tail)..];
      } else if ch == LF {
        add := targetLen;
        assert text[i..] == tail[EndingLen(tail)..];
      } else {
        add := LenUtf8(ch);
        assert text[i..] == tail[1..];
      }
      if length + add > U64_MAX {
        return Err(ResourceLimit);
      }
      length := length + add;
    }
    r := Ok(length);
  }

  // -------------------------------------------------------------------- phases

  /** One converted part: copied bytes, a shared blob, or a text still to be line-ended. */
  datatype Part = BytesPart(bytes: seq<Byte>) | SharedPart(data: BlobData) | TextPart(text: Text)

  /** What fits in memory: a text leaves room for doubled line endings. */
  ghost predicate PartOk(p: Part) {
    match p
    case BytesPart(bytes) => |bytes| <= U64_MAX
    case SharedPart(data) => ValidBlob(data)
    case TextPart(text) => Scalars(text) && |Encode(text)| <= I64_MAX && |NativeBytes(text, UseCrlf)| <= U64_MAX
                           && |NativeBytes(text, UseLf)| <= U64_MAX
  }

  ghost predicate PartsOk(ps: seq<Part>) {
    forall i :: 0 <= i < |ps| ==> PartOk(ps[i])
  }

  /** The bytes a part contributes. */
  ghost function PartBytes(p: Part, endings: Endings, native: NativeEnding): seq<Byte>
    requires PartOk(p)
  {
    match p
    case BytesPart(bytes) => bytes
    case SharedPart(data) => Content(data.segments)
    case TextPart(text) => if endings.Transparent? then Encode(text) else NativeBytes(text, native)
  }

  ghost function SegmentCount(p: Part, endings: Endings, native: NativeEnding): nat
    requires PartOk(p)
  {
    if p.SharedPart? then |p.data.segments| else if PartBytes(p, endings, native) == [] then 0 else 1
  }

  /** What the first phase charges: a text counts as the shorter of its two forms. */
  ghost function LowerBound(p: Part, native: NativeEnding): nat
    requires PartOk(p)
  {
    if p.TextPart? then Min(|Encode(p.text)|, |NativeBytes(p.text, native)|)
    else |PartBytes(p, Transparent, native)|
  }

  ghost function AllBytes(ps: seq<Part>, endings: Endings, native: NativeEnding): seq<Byte>
    requires PartsOk(ps)
  {
    if ps == [] then []
    else AllBytes(ps[..|ps| - 1], endings, native) + PartBytes(ps[|ps| - 1], endings, native)
  }

  ghost function AllSegments(ps: seq<Part>, endings: Endings, native: NativeEnding): nat
    requires PartsOk(ps)
  {
    if ps == [] then 0
    else AllSegments(ps[..|ps| - 1], endings, native) + SegmentCount(ps[|ps| - 1], endings, native)
  }

  ghost function AllLower(ps: seq<Part>, native: NativeEnding): nat
    requires PartsOk(ps)
  {
    if ps == [] then 0 else AllLower(ps[..|ps| - 1], native) + LowerBound(ps[|ps| - 1], native)
  }

  lemma Grown(ps: seq<Part>, i: nat, endings: Endings, native: NativeEnding)
    requires i < |ps| && PartsOk(ps)
    ensures AllBytes(ps[..i + 1], endings, native) == AllBytes(ps[..i], endings, native) + PartBytes(ps[i], endings, native)
    ensures AllSegments(ps[..i + 1], endings, native)
         == AllSegments(ps[..i], endings, native) + SegmentCount(ps[i], endings, native)
    ensures AllLower(ps[..i + 1], native) == AllLower(ps[..i], native) + LowerBound(ps[i], native)
  {
    assert ps[..i + 1][..i] == ps[..i];
  }

  lemma {:induction false} PrefixesFit(ps: seq<Part>, i: nat, endings: Endings, native: NativeEnding)
    requires i <= |ps| && PartsOk(ps)
    ensures |AllBytes(ps[..i], endings, native)| <= |AllBytes(ps, endings, native)|
    ensures AllSegments(ps[..i], endings, native) <= AllSegments(ps, endings, native)
    ensures AllLower(ps[..i], native) <= AllLower(ps, native)
    decreases |ps| - i
  {
    if i == |ps| {
      assert ps[..i] == ps;
    } else {
      Grown(ps, i, endings, native);
      PrefixesFit(ps, i + 1, endings, native);
    }
  }

  ghost predicate FirstPhaseAccepts(ps: seq<Part>, native: NativeEnding, limits: Limits)
    requires PartsOk(ps)
  {
    |ps| <= limits.maxParts && AllLower(ps, native) <= Min(limits.maxBlobSize, U64_MAX)
  }

  ghost predicate SecondPhaseAccepts(ps: seq<Part>, endings: Endings, native: NativeEnding, limits: Limits)
    requires PartsOk(ps)
  {
    && |ps| <= limits.maxParts
    && AllSegments(ps, endings, native) <= limits.maxSegments
    && |AllBytes(ps, endings, native)| <= Min(limits.maxBlobSize, U64_MAX)
  }

  /** The accounting of `convert_part`, part by part, before any options are known. */
  method AccountParts(ps: seq<Part>, native: NativeEnding, limits: Limits) returns (ok: bool)
    requires PartsOk(ps)
    ensures ok <==> FirstPhaseAccepts(ps, native, limits)
  {
    var parts, lowerBound := 0, 0;
    for i := 0 to |ps|
      invariant parts == i && i <= limits.maxParts
      invariant lowerBound == AllLower(ps[..i], native) <= Min(limits.maxBlobSize, U64_MAX)
    {
      if parts >= limits.maxParts {
        return false;
      }
      Grown(ps, i, Transparent, native);
      PrefixesFit(ps, i + 1, Transparent, native);
      var size;
      match ps[i] {
        case BytesPart(bytes) => size := |bytes|;
        case SharedPart(data) => size := data.size;
        case TextPart(text) =>
          var nativeLen := LineEndingByteLen(text, native);
          size := Min(EncodedLen(text), nativeLen.value);
      }
      if lowerBound + size > U64_MAX {
        return false;
      }
      lowerBound := lowerBound + size;
      if lowerBound > limits.maxBlobSize {
        return false;
      }
      parts := parts + 1;
    }
    assert ps[..|ps|] == ps;
    ok := true;
  }

  /** The length of a text in memory. */
  function EncodedLen(text: Text): nat
    requires forall i :: 0 <= i < |text| ==> IsScalar(text[i])
  {
    |Encode(text)|
  }

  /** The one-segment blob that copied bytes become. */
  method Stage(bytes: seq<Byte>, limits: Limits) returns (r: Result<BlobData, FileApiError>)
    requires 0 < |bytes| <= U64_MAX
    ensures r.Ok? <==> 1 <= limits.maxSegments && |bytes| <= limits.maxBlobSize
    ensures r.Ok? ==> ValidBlob(r.value) && |r.value.segments| == 1 && Content(r.value.segments) == bytes
  {
    var whole := Segment(bytes, 0, |bytes|);
    OneSegment(whole);
    r := FromSegments([whole], limits);
  }

  /** The accumulator of the second phase. */
  class PartsCollector {
    var blob: BlobData
    var parts: nat
    const limits: Limits

    ghost predicate Valid()
      reads this
    {
      && ValidBlob(blob)
      && |blob.segments| <= limits.maxSegments && blob.size <= limits.maxBlobSize && parts <= limits.maxParts
    }

    constructor (limits: Limits)
      ensures Valid() && this.limits == limits && blob == BlobData([], 0) && parts == 0
    {
      this.limits := limits;
      blob := BlobData([], 0);
      parts := 0;
    }

    /** There is room for one more part with `segments` segments and `size` bytes. */
    ghost predicate Room(segments: nat, size: nat)
      reads this
    {
      && parts < limits.maxParts
      && |blob.segments| + segments <= limits.maxSegments
      && blob.size + size <= Min(limits.maxBlobSize, U64_MAX)
    }

    /** The part's bytes were added at the end, and counted. */
    twostate predicate Added(segments: nat, bytes: seq<Byte>)
      requires old(Valid()) && Valid()
      reads this
    {
      && parts == old(parts) + 1
      && |blob.segments| == old(|blob.segments|) + segments
      && Content(blob.segments) == old(Content(blob.segments)) + bytes
    }

    method PushShared(data: BlobData) returns (r: Result<(), FileApiError>)
      requires Valid() && ValidBlob(data)
      modifies this
      ensures Valid()
      ensures r == if old(Room(|data.segments|, data.size)) then Ok(()) else Err(ResourceLimit)
      ensures r.Ok? ==> Added(|data.segments|, Content(data.segments))
      ensures r.Err? ==> unchanged(this)
    {
      if parts >= limits.maxParts {
        return Err(ResourceLimit);
      }
      var combined := ConcatShared(blob, data, limits);
      if combined.Err? {
        return Err(combined.error);
      }
      blob := combined.value;
      parts := parts + 1;
      r := Ok(());
    }

    method PushCopied(bytes: seq<Byte>) returns (r: Result<(), FileApiError>)
      requires Valid() && |bytes| <= U64_MAX
      modifies this
      ensures Valid()
      ensures r == if old(Room(if bytes == [] then 0 else 1, |bytes|)) then Ok(()) else Err(ResourceLimit)
      ensures r.Ok? ==> Added(if bytes == [] then 0 else 1, bytes)
      ensures r.Err? ==> unchanged(this)
    {
      if bytes == [] {
        if parts >= limits.maxParts {
          return Err(ResourceLimit);
        }
        parts := parts + 1;
        return Ok(());
      }
      var staged := Stage(bytes, limits);
      if staged.Err? {
        return Err(ResourceLimit);
      }
      r := PushShared(staged.value);
    }

    /** One part of `process_converted`, line endings applied. */
    method PushPart(p: Part, endings: Endings, native: NativeEnding) returns (r: Result<(), FileApiError>)
      requires Valid() && PartOk(p)
      modifies this
      ensures Valid()
      ensures r == if old(Room(SegmentCount(p, endings, native), |PartBytes(p, endings, native)|))
                   then Ok(()) else Err(ResourceLimit)
      ensures r.Ok? ==> Added(SegmentCount(p, endings, native), PartBytes(p, endings, native))
      ensures r.Err? ==> unchanged(this)
    {
      match p {
        case BytesPart(bytes) =>
          r := PushCopied(bytes);
        case SharedPart(data) =>
          r := PushShared(data);
        case TextPart(text) =>
          var prepared := text;
          if endings.Native? {
            prepared := ConvertLineEndings(text, native);
            ConvertedScalars(text, native);
          }
          r := PushCopied(Encode(prepared));
      }
    }

    /** `process_converted`: the parts' bytes in order, or nothing of the part that does not fit. */
    method ProcessConverted(ps: seq<Part>, endings: Endings, native: NativeEnding) returns (r: Result<(), FileApiError>)
      requires Valid() && PartsOk(ps) && blob == BlobData([], 0) && parts == 0
      modifies this
      ensures Valid()
      ensures r == if SecondPhaseAccepts(ps, endings, native, limits) then Ok(()) else Err(ResourceLimit)
      ensures r.Ok? ==> Content(blob.segments) == AllBytes(ps, endings, native) && parts == |ps|
    {
      NothingYet(endings, native);
      hide AllBytes, AllSegments, PartBytes, SegmentCount, Content;
      assert ps[..0] == [];
      for i := 0 to |ps|
        invariant Valid() && parts == i
        invariant Content(blob.segments) == AllBytes(ps[..i], endings, native)
        invariant |blob.segments| == AllSegments(ps[..i], endings, native)
      {
        Grown(ps, i, endings, native);
        PrefixesFit(ps, i + 1, endings, native);
        r := PushPart(ps[i], endings, native);
        if r.Err? {
          return;
        }
      }
      assert ps[..|ps|] == ps;
      r := Ok(());
    }

    /** `into_blob_data` relabels only: after an accepted run it cannot fail, and the bytes stay. */
    method IntoBlobData() returns (r: Result<BlobData, FileApiError>)
      requires Valid()
      ensures r.Ok? && ValidBlob(r.value) && r.value.segments == blob.segments
    {
      r := ConcatShared(BlobData([], 0), blob, limits);
    }
  }

  lemma NothingYet(endings: Endings, native: NativeEnding)
    ensures Content([]) == [] && AllBytes([], endings, native) == [] && AllSegments([], endings, native) == 0
  {
  }

  lemma OneSegment(s: Segment)
    requires InBounds(s) && 0 < s.len
    ensures NonEmpty([s]) == [s] && Size([s]) == s.len && AllInBounds([s]) && Content([s]) == Bytes(s)
  {
    assert Place([s], 0) == 0 && Flat([s], 0) == [];
    assert CarryingUpto([s], 0) == [];
  }

  lemma {:induction false} LowerIsLower(ps: seq<Part>, endings: Endings, native: NativeEnding)
    requires PartsOk(ps)
    ensures AllLower(ps, native) <= |AllBytes(ps, endings, native)|
    decreases |ps|
  {
    if ps != [] {
      LowerIsLower(ps[..|ps| - 1], endings, native);
    }
  }

  /** The cheap first check never turns away what the exact second one would take. */
  lemma FirstPhaseAdmits(ps: seq<Part>, endings: Endings, native: NativeEnding, limits: Limits)
    requires PartsOk(ps) && SecondPhaseAccepts(ps, endings, native, limits)
    ensures FirstPhaseAccepts(ps, native, limits)
  {
    LowerIsLower(ps, endings, native);
  }
}
