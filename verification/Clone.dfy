/**
  The structured-clone codec for Blob, File and FileList payloads: a versioned,
  length-framed layout with ceilings on every length. A string is its UTF-8
  bytes.
*/
module Clone {
  import opened Common
  import Utf8

  const MAX_CLONE_BYTES: nat := 256 * 1024 * 1024
  const MAX_CLONE_STRING_BYTES: nat := 1024 * 1024
  const MAX_CLONE_FILES: nat := 100_000
  const MAGIC: seq<Byte> := [0x46, 0x43, 0x4C, 0x31]
  const VERSION: nat := 1
  const BLOB_TAG: nat := 0x424C_4F42
  const FILE_TAG: nat := 0x4649_4C45
  const FILE_LIST_TAG: nat := 0x464C_5354

  /** What `from_utf8` accepts: bytes that decode without a replacement. */
  predicate IsUtf8(bs: seq<Byte>) {
    var text := Utf8.Lossy(bs);
    (forall i :: 0 <= i < |text| ==> Utf8.IsScalar(text[i])) && Utf8.Encode(text) == bs
  }

  /** Every encoded text is accepted, and nothing else is. */
  lemma Utf8Exactly(bs: seq<Byte>, text: Utf8.Text)
    requires forall i :: 0 <= i < |text| ==> Utf8.IsScalar(text[i])
    ensures IsUtf8(Utf8.Encode(text))
    ensures Utf8.Encode(text) == bs ==> IsUtf8(bs) && Utf8.Lossy(bs) == text
  {
    Utf8.LossyInvertsEncode(text);
  }

  type Str = bs: seq<Byte> | IsUtf8(bs) witness []
  type I64 = x: int | -0x8000_0000_0000_0000 <= x < 0x8000_0000_0000_0000

  datatype FileBody = FileBody(bytes: seq<Byte>, mediaType: Str, name: Str, lastModified: I64)

  datatype Payload =
    | BlobPayload(bytes: seq<Byte>, mediaType: Str)
    | FilePayload(file: FileBody)
    | FileListPayload(files: seq<FileBody>)

  datatype CloneError = Malformed | UnsupportedVersion | LimitExceeded

  // ------------------------------------------------------------------ integers

  function Le(v: nat, n: nat): (r: seq<Byte>)
    ensures |r| == n
  {
    if n == 0 then [] else [v % 256] + Le(v / 256, n - 1)
  }

  function UnLe(bs: seq<Byte>): nat {
    if bs == [] then 0 else bs[0] + 256 * UnLe(bs[1..])
  }

  function Pow256(n: nat): nat {
    if n == 0 then 1 else 256 * Pow256(n - 1)
  }

  lemma {:induction false} UnLeOfLe(v: nat, n: nat)
    requires v < Pow256(n)
    ensures UnLe(Le(v, n)) == v
  {
    if n > 0 {
      UnLeOfLe(v / 256, n - 1);
      assert Le(v, n)[1..] == Le(v / 256, n - 1);
    }
  }

  lemma {:induction false} LeOfUnLe(bs: seq<Byte>)
    ensures UnLe(bs) < Pow256(|bs|) && Le(UnLe(bs), |bs|) == bs
  {
    if bs != [] {
      LeOfUnLe(bs[1..]);
    }
  }

  lemma Widths()
    ensures Pow256(4) == 0x1_0000_0000 && Pow256(8) == 0x1_0000_0000_0000_0000
  {
    assert Pow256(2) == 65536;
    assert Pow256(4) == 0x1_0000_0000;
    assert Pow256(6) == 0x1_0000_0000_0000;
  }

  /** Two's complement. */
  function AsU64(x: I64): nat {
    if x < 0 then x + 0x1_0000_0000_0000_0000 else x
  }

  function AsI64(v: nat): I64
    requires v < 0x1_0000_0000_0000_0000
  {
    if v < 0x8000_0000_0000_0000 then v else v - 0x1_0000_0000_0000_0000
  }

  // ------------------------------------------------------------------- layout

  function EncBytes(bs: seq<Byte>): (r: seq<Byte>)
    ensures |r| == |bs| + 4
  {
    Le(|bs|, 4) + bs
  }

  function EncFile(f: FileBody): (r: seq<Byte>)
    ensures |r| == |f.bytes| + |f.mediaType| + |f.name| + 20
  {
    EncBytes(f.bytes) + EncBytes(f.mediaType) + EncBytes(f.name) + Le(AsU64(f.lastModified), 8)
  }

  function EncFiles(fs: seq<FileBody>): seq<Byte> {
    if fs == [] then [] else EncFile(fs[0]) + EncFiles(fs[1..])
  }

  function Header(tag: nat): seq<Byte> {
    MAGIC + Le(VERSION, 4) + Le(tag, 4)
  }

  function Tag(p: Payload): nat {
    match p
    case BlobPayload(_, _) => BLOB_TAG
    case FilePayload(_) => FILE_TAG
    case FileListPayload(_) => FILE_LIST_TAG
  }

  function Body(p: Payload): seq<Byte> {
    match p
    case BlobPayload(bytes, mediaType) => EncBytes(bytes) + EncBytes(mediaType)
    case FilePayload(file) => EncFile(file)
    case FileListPayload(files) => Le(|files|, 4) + EncFiles(files)
  }

  /** The wire form of a payload, ceilings aside. */
  function Enc(p: Payload): seq<Byte> {
    Header(Tag(p)) + Body(p)
  }

  predicate ShortStrings(f: FileBody) {
    |f.mediaType| <= MAX_CLONE_STRING_BYTES && |f.name| <= MAX_CLONE_STRING_BYTES
  }

  ghost predicate PartsFit(p: Payload) {
    match p
    case BlobPayload(_, mediaType) => |mediaType| <= MAX_CLONE_STRING_BYTES
    case FilePayload(file) => ShortStrings(file)
    case FileListPayload(files) => |files| <= MAX_CLONE_FILES && AllShort(files)
  }

  /** Within every ceiling. */
  ghost predicate Encodable(p: Payload) {
    |Enc(p)| <= MAX_CLONE_BYTES && PartsFit(p)
  }

  /** What the validation lets through: it charges a FileList for 12 of its 16 header bytes. */
  ghost predicate Validated(p: Payload) {
    |Enc(p)| <= MAX_CLONE_BYTES + (if p.FileListPayload? then 4 else 0) && PartsFit(p)
  }

  // ------------------------------------------------------------------ encoder

  method PushU32(out: seq<Byte>, value: nat) returns (r: Result<seq<Byte>, CloneError>)
    ensures r == if |out| > MAX_CLONE_BYTES then Err(LimitExceeded) else Ok(out + Le(value, 4))
  {
    if |out| > MAX_CLONE_BYTES {
      return Err(LimitExceeded);
    }
    r := Ok(out + Le(value, 4));
  }

  method PushBytes(out: seq<Byte>, bytes: seq<Byte>) returns (r: Result<seq<Byte>, CloneError>)
    ensures r == if |out| + 4 + |bytes| > MAX_CLONE_BYTES then Err(LimitExceeded) else Ok(out + EncBytes(bytes))
  {
    if |bytes| >= 0x1_0000_0000 {
      return Err(LimitExceeded);
    }
    var framed :- PushU32(out, |bytes|);
    if |framed| + |bytes| > MAX_CLONE_BYTES {
      return Err(LimitExceeded);
    }
    assert framed + bytes == out + EncBytes(bytes);
    r := Ok(framed + bytes);
  }

  lemma Join4(out: seq<Byte>, a: seq<Byte>, b: seq<Byte>, c: seq<Byte>, d: seq<Byte>)
    ensures out + a + b + c + d == out + (a + b + c + d)
  {
  }

  method PushFileBody(out: seq<Byte>, file: FileBody) returns (r: Result<seq<Byte>, CloneError>)
    ensures r == if |out| + |EncFile(file)| > MAX_CLONE_BYTES then Err(LimitExceeded) else Ok(out + EncFile(file))
  {
    hide Le, EncBytes;
    var first :- PushBytes(out, file.bytes);
    var second :- PushBytes(first, file.mediaType);
    var third :- PushBytes(second, file.name);
    var stamp := Le(AsU64(file.lastModified), 8);
    if |third| + |stamp| > MAX_CLONE_BYTES {
      return Err(LimitExceeded);
    }
    Join4(out, EncBytes(file.bytes), EncBytes(file.mediaType), EncBytes(file.name), stamp);
    r := Ok(third + stamp);
  }

  lemma FilesFrom(fs: seq<FileBody>, i: nat)
    requires i < |fs|
    ensures EncFiles(fs[i..]) == EncFile(fs[i]) + EncFiles(fs[i + 1..])
  {
    assert fs[i..][1..] == fs[i + 1..];
  }

  ghost predicate AllShort(fs: seq<FileBody>) {
    forall i :: 0 <= i < |fs| ==> ShortStrings(fs[i])
  }

  lemma WireLength(p: Payload)
    ensures |Enc(p)| == 12 + match p
                             case BlobPayload(bytes, mediaType) => |bytes| + |mediaType| + 8
                             case FilePayload(file) => |EncFile(file)|
                             case FileListPayload(files) => 4 + |EncFiles(files)|
  {
  }

  lemma WireForm(p: Payload)
    ensures var head := MAGIC + Le(VERSION, 4) + Le(Tag(p), 4);
      Enc(p) == match p
                case BlobPayload(bytes, mediaType) => head + EncBytes(bytes) + EncBytes(mediaType)
                case FilePayload(file) => head + EncFile(file)
                case FileListPayload(files) => head + Le(|files|, 4) + EncFiles(files)
  {
  }

  /** `validate_payload`: exactly the payloads within its ceilings. */
  method ValidatePayload(p: Payload) returns (ok: bool)
    ensures ok <==> Validated(p)
  {
    hide Enc, EncFiles, EncBytes;
    WireLength(p);
    match p {
      case BlobPayload(bytes, mediaType) =>
        return |bytes| <= MAX_CLONE_BYTES && |mediaType| <= MAX_CLONE_STRING_BYTES
               && 12 + |bytes| + 4 + |mediaType| + 4 <= MAX_CLONE_BYTES;
      case FilePayload(file) =>
        return |file.bytes| <= MAX_CLONE_BYTES && ShortStrings(file)
               && 12 + |file.bytes| + 4 + |file.mediaType| + 4 + |file.name| + 4 + 8 <= MAX_CLONE_BYTES;
      case FileListPayload(files) =>
        if |files| > MAX_CLONE_FILES {
          return false;
        }
        ok := ValidateFiles(files);
    }
  }

  method ValidateFiles(files: seq<FileBody>) returns (ok: bool)
    ensures ok <==> AllShort(files) && 12 + |EncFiles(files)| <= MAX_CLONE_BYTES
  {
    hide EncBytes, EncFiles;
    var total := 12;
    assert files[0..] == files;
    for i := 0 to |files|
      invariant 12 <= total <= MAX_CLONE_BYTES && total + |EncFiles(files[i..])| == 12 + |EncFiles(files)|
      invariant forall j :: 0 <= j < i ==> ShortStrings(files[j])
    {
      FilesFrom(files, i);
      var file := files[i];
      if |file.bytes| > MAX_CLONE_BYTES || !ShortStrings(file) {
        return false;
      }
      total := total + (|file.bytes| + 4 + |file.mediaType| + 4 + |file.name| + 4 + 8);
      if total > MAX_CLONE_BYTES {
        return false;
      }
    }
    NoFiles(files);
    ok := true;
  }

  lemma NoFiles(files: seq<FileBody>)
    ensures EncFiles(files[|files|..]) == []
  {
  }

  /**
    `encode_payload`: the wire form if it is within every ceiling, otherwise no
    bytes at all. After validation only the last pushes of a file list can fail.
  */
  method Encode(p: Payload) returns (r: Result<seq<Byte>, CloneError>)
    ensures r == if Encodable(p) then Ok(Enc(p)) else Err(LimitExceeded)
  {
    var valid := ValidatePayload(p);
    if !valid {
      return Err(LimitExceeded);
    }
    hide Le, EncBytes, EncFiles, EncFile, Encodable, Enc;
    WireLength(p);
    WireForm(p);
    var versioned := PushU32(MAGIC, VERSION);
    var tagged := PushU32(versioned.value, Tag(p));
    var out := tagged.value;
    match p {
      case BlobPayload(bytes, mediaType) =>
        var first := PushBytes(out, bytes);
        r := PushBytes(first.value, mediaType);
      case FilePayload(file) =>
        r := PushFileBody(out, file);
      case FileListPayload(files) =>
        var counted := PushU32(out, |files|);
        r := PushFiles(counted.value, files);
    }
  }

  method PushFiles(start: seq<Byte>, files: seq<FileBody>) returns (r: Result<seq<Byte>, CloneError>)
    requires |start| <= MAX_CLONE_BYTES
    ensures r == if |start| + |EncFiles(files)| > MAX_CLONE_BYTES then Err(LimitExceeded)
                 else Ok(start + EncFiles(files))
  {
    hide Le, EncBytes, EncFile, EncFiles;
    var out := start;
    assert files[0..] == files;
    for i := 0 to |files|
      invariant |out| <= MAX_CLONE_BYTES && out + EncFiles(files[i..]) == start + EncFiles(files)
    {
      FilesFrom(files, i);
      assert out + (EncFile(files[i]) + EncFiles(files[i + 1..])) == out + EncFile(files[i]) + EncFiles(files[i + 1..]);
      out :- PushFileBody(out, files[i]);
    }
    NoFiles(files);
    assert out + [] == out;
    r := Ok(out);
  }

  /** The bytes a file takes on the wire: its three fields, their lengths and the time stamp. */
  function FileSize(f: FileBody): nat {
    |f.bytes| + |f.mediaType| + |f.name| + 20
  }

  function FileSizes(files: seq<FileBody>): nat {
    if files == [] then 0 else FileSize(files[0]) + FileSizes(files[1..])
  }

  /** The size of a payload on the wire, from the lengths of its fields. */
  function WireSize(p: Payload): nat {
    match p
    case BlobPayload(bytes, mediaType) => |bytes| + |mediaType| + 20
    case FilePayload(file) => FileSize(file) + 12
    case FileListPayload(files) => FileSizes(files) + 16
  }

  lemma {:induction false} FilesTake(files: seq<FileBody>)
    ensures |EncFiles(files)| == FileSizes(files)
  {
    if files != [] {
      FilesTake(files[1..]);
    }
  }

  lemma PayloadTakes(p: Payload)
    ensures |Enc(p)| == WireSize(p)
  {
    WireLength(p);
    if p.FileListPayload? {
      FilesTake(p.files);
    }
  }

  /**
    A payload that passes the validation and then cannot be encoded is a file
    list of which every part is in bounds and whose fields make it one to four
    bytes too long, and every such list is one; whatever can be encoded passes.
  */
  method ValidateThenEncode(p: Payload) returns (ok: bool, r: Result<seq<Byte>, CloneError>)
    ensures ok && r.Err? <==>
      p.FileListPayload? && PartsFit(p) && MAX_CLONE_BYTES < WireSize(p) <= MAX_CLONE_BYTES + 4
    ensures r.Ok? <==> PartsFit(p) && WireSize(p) <= MAX_CLONE_BYTES
    ensures r.Ok? ==> ok && |r.value| == WireSize(p)
    ensures r.Err? ==> r.error == LimitExceeded
  {
    hide Enc, WireSize, PartsFit;
    PayloadTakes(p);
    ok := ValidatePayload(p);
    r := Encode(p);
  }

  /** Such a list: one file of as many bytes as the validation lets through. */
  method TooLongByFour() returns (ok: bool, r: Result<seq<Byte>, CloneError>)
    ensures ok && r == Err(LimitExceeded)
  {
    var file := FileBody(seq(MAX_CLONE_BYTES - 32, _ => 0), [], [], 0);
    var list := FileListPayload([file]);
    assert FileSizes([file]) == FileSize(file) + FileSizes([]);
    ok, r := ValidateThenEncode(list);
  }

  // ------------------------------------------------------------------- parser

  /** What a parser takes from the front of its input, and what it leaves. */
  datatype Parsed<+T> = Got(value: T, rest: seq<Byte>) | Bad(error: CloneError)

  function ParseWord(input: seq<Byte>): Parsed<nat> {
    if |input| < 4 then Bad(Malformed) else Got(UnLe(input[..4]), input[4..])
  }

  function ParseBytes(input: seq<Byte>): Parsed<seq<Byte>> {
    match ParseWord(input)
    case Bad(e) => Bad(e)
    case Got(n, rest) =>
      if n > MAX_CLONE_BYTES then Bad(LimitExceeded)
      else if n > |rest| then Bad(Malformed)
      else Got(rest[..n], rest[n..])
  }

  function ParseString(input: seq<Byte>): Parsed<Str> {
    match ParseBytes(input)
    case Bad(e) => Bad(e)
    case Got(bs, rest) =>
      if |bs| > MAX_CLONE_STRING_BYTES then Bad(LimitExceeded)
      else if !IsUtf8(bs) then Bad(Malformed)
      else Got(bs, rest)
  }

  function ParseStamp(input: seq<Byte>): Parsed<I64> {
    if |input| < 8 then Bad(Malformed)
    else
      LeOfUnLe(input[..8]);
      Widths();
      Got(AsI64(UnLe(input[..8])), input[8..])
  }

  function ParseFile(input: seq<Byte>): Parsed<FileBody> {
    match ParseBytes(input)
    case Bad(e) => Bad(e)
    case Got(bytes, afterBytes) =>
      match ParseString(afterBytes)
      case Bad(e) => Bad(e)
      case Got(mediaType, afterType) =>
        match ParseString(afterType)
        case Bad(e) => Bad(e)
        case Got(name, afterName) =>
          match ParseStamp(afterName)
          case Bad(e) => Bad(e)
          case Got(stamp, rest) => Got(FileBody(bytes, mediaType, name, stamp), rest)
  }

  function ParseFiles(input: seq<Byte>, count: nat): Parsed<seq<FileBody>> {
    if count == 0 then Got([], input)
    else
      match ParseFile(input)
      case Bad(e) => Bad(e)
      case Got(file, rest) =>
        match ParseFiles(rest, count - 1)
        case Bad(e) => Bad(e)
        case Got(files, last) => Got([file] + files, last)
  }

  function ParseBlobBody(input: seq<Byte>): Parsed<Payload> {
    match ParseBytes(input)
    case Bad(e) => Bad(e)
    case Got(bytes, afterBytes) =>
      match ParseString(afterBytes)
      case Bad(e) => Bad(e)
      case Got(mediaType, rest) => Got(BlobPayload(bytes, mediaType), rest)
  }

  function ParseFileBody(input: seq<Byte>): Parsed<Payload> {
    match ParseFile(input)
    case Bad(e) => Bad(e)
    case Got(file, rest) => Got(FilePayload(file), rest)
  }

  function ParseListBody(input: seq<Byte>): Parsed<Payload> {
    match ParseWord(input)
    case Bad(e) => Bad(e)
    case Got(count, rest) =>
      if count > MAX_CLONE_FILES then Bad(LimitExceeded)
      else if count > (|rest| + 19) / 20 then Bad(Malformed)
      else
        match ParseFiles(rest, count)
        case Bad(e) => Bad(e)
        case Got(files, last) => Got(FileListPayload(files), last)
  }

  function ParseBody(tag: nat, input: seq<Byte>): Parsed<Payload> {
    if tag == BLOB_TAG then ParseBlobBody(input)
    else if tag == FILE_TAG then ParseFileBody(input)
    else if tag == FILE_LIST_TAG then ParseListBody(input)
    else Bad(Malformed)
  }

  /** The tag of the payload that follows the header. */
  function ParseHeader(input: seq<Byte>): Parsed<nat> {
    if |input| < 12 || input[..4] != MAGIC then Bad(Malformed)
    else if UnLe(input[4..8]) != VERSION then Bad(UnsupportedVersion)
    else Got(UnLe(input[8..12]), input[12..])
  }

  /** Header and body, leaving whatever follows them. */
  function ParsePayload(input: seq<Byte>): Parsed<Payload> {
    match ParseHeader(input)
    case Bad(e) => Bad(e)
    case Got(tag, rest) => ParseBody(tag, rest)
  }

  function Parse(input: seq<Byte>): Result<Payload, CloneError> {
    if |input| > MAX_CLONE_BYTES then Err(LimitExceeded)
    else
      match ParsePayload(input)
      case Bad(e) => Err(e)
      case Got(p, rest) => if rest == [] then Ok(p) else Err(Malformed)
  }

  // ------------------------------------------------------------------ decoder

  class Cursor {
    const input: seq<Byte>
    var pos: nat

    constructor (input: seq<Byte>)
      requires |input| <= MAX_CLONE_BYTES
      ensures this.input == input && Valid() && Rest() == input
    {
      this.input := input;
      pos := 0;
    }

    predicate Valid()
      reads this
    {
      pos <= |input| <= MAX_CLONE_BYTES
    }

    /** The bytes not yet taken. */
    function Rest(): seq<Byte>
      requires Valid()
      reads this
    {
      input[pos..]
    }

    method Take(len: nat) returns (r: Result<seq<Byte>, CloneError>)
      requires Valid()
      modifies this
      ensures Valid()
      ensures len > |old(Rest())| ==> r == Err(Malformed) && Rest() == old(Rest())
      ensures len <= |old(Rest())| ==> r == Ok(old(Rest())[..len]) && Rest() == old(Rest())[len..]
    {
      if len > MAX_CLONE_BYTES || len > |input| - pos {
        return Err(Malformed);
      }
      var end := pos + len;
      assert input[pos..end] == input[pos..][..len] && input[end..] == input[pos..][len..];
      r := Ok(input[pos..end]);
      pos := end;
    }

    method ReadU32() returns (r: Result<nat, CloneError>)
      requires Valid()
      modifies this
      ensures Valid() && Follows(ParseWord(old(Rest())), r, Rest())
    {
      var word :- Take(4);
      r := Ok(UnLe(word));
    }

    method ReadBytes() returns (r: Result<seq<Byte>, CloneError>)
      requires Valid()
      modifies this
      ensures Valid() && Follows(ParseBytes(old(Rest())), r, Rest())
    {
      var len :- ReadU32();
      if len > MAX_CLONE_BYTES {
        return Err(LimitExceeded);
      }
      var bytes :- Take(len);
      r := Ok(bytes);
    }

    method ReadString() returns (r: Result<Str, CloneError>)
      requires Valid()
      modifies this
      ensures Valid() && Follows(ParseString(old(Rest())), r, Rest())
    {
      var bytes :- ReadBytes();
      if |bytes| > MAX_CLONE_STRING_BYTES {
        return Err(LimitExceeded);
      }
      if !IsUtf8(bytes) {
        return Err(Malformed);
      }
      r := Ok(bytes);
    }

    method DecodeFileBody() returns (r: Result<FileBody, CloneError>)
      requires Valid()
      modifies this
      ensures Valid() && Follows(ParseFile(old(Rest())), r, Rest())
    {
      var bytes :- ReadBytes();
      var mediaType :- ReadString();
      var name :- ReadString();
      var stamp :- Take(8);
      LeOfUnLe(stamp);
      Widths();
      r := Ok(FileBody(bytes, mediaType, name, AsI64(UnLe(stamp))));
    }
  }

  /** A cursor step does what the parser says: same value and same rest, or the same error. */
  predicate Follows<T(==)>(p: Parsed<T>, r: Result<T, CloneError>, rest: seq<Byte>) {
    match p
    case Got(value, left) => r == Ok(value) && rest == left
    case Bad(error) => r == Err(error)
  }

  method Decode(input: seq<Byte>) returns (r: Result<Payload, CloneError>)
    ensures r == Parse(input)
  {
    if |input| < 12 || |input| > MAX_CLONE_BYTES {
      if |input| > MAX_CLONE_BYTES {
        return Err(LimitExceeded);
      }
      return Err(Malformed);
    }
    hide ParseHeader, ParseBody;
    var cursor := new Cursor(input);
    var tag :- DecodeHeader(cursor);
    var payload :- DecodeBody(cursor, tag);
    if cursor.pos != |input| {
      return Err(Malformed);
    }
    r := Ok(payload);
  }

  method DecodeHeader(cursor: Cursor) returns (r: Result<nat, CloneError>)
    requires cursor.Valid() && |cursor.Rest()| >= 12
    modifies cursor
    ensures cursor.Valid() && Follows(ParseHeader(old(cursor.Rest())), r, cursor.Rest())
  {
    hide UnLe;
    ghost var input := cursor.Rest();
    HeaderCuts(input);
    var magic := cursor.Take(4);
    if magic.value != MAGIC {
      return Err(Malformed);
    }
    var version := cursor.ReadU32();
    if version.value != VERSION {
      return Err(UnsupportedVersion);
    }
    r := cursor.ReadU32();
  }

  lemma HeaderCuts(input: seq<Byte>)
    requires |input| >= 12
    ensures input[4..][..4] == input[4..8] && input[4..][4..] == input[8..]
    ensures input[8..][..4] == input[8..12] && input[8..][4..] == input[12..]
  {
  }

  method DecodeBody(cursor: Cursor, tag: nat) returns (r: Result<Payload, CloneError>)
    requires cursor.Valid()
    modifies cursor
    ensures cursor.Valid() && Follows(ParseBody(tag, old(cursor.Rest())), r, cursor.Rest())
  {
    hide ParseWord, ParseBytes, ParseString, ParseFile, ParseFiles;
    if tag == BLOB_TAG {
      var bytes :- cursor.ReadBytes();
      var mediaType :- cursor.ReadString();
      r := Ok(BlobPayload(bytes, mediaType));
    } else if tag == FILE_TAG {
      var file :- cursor.DecodeFileBody();
      r := Ok(FilePayload(file));
    } else if tag == FILE_LIST_TAG {
      var count :- cursor.ReadU32();
      if count > MAX_CLONE_FILES {
        return Err(LimitExceeded);
      }
      if count > (|cursor.Rest()| + 19) / 20 {
        return Err(Malformed);
      }
      var files :- DecodeFiles(cursor, count);
      r := Ok(FileListPayload(files));
    } else {
      return Err(Malformed);
    }
  }

  /** `ParseFiles` with the files already read put in front. */
  function After(files: seq<FileBody>, more: Parsed<seq<FileBody>>): Parsed<seq<FileBody>> {
    match more
    case Got(value, rest) => Got(files + value, rest)
    case Bad(error) => Bad(error)
  }

  lemma AfterNone(more: Parsed<seq<FileBody>>)
    ensures After([], more) == more
  {
    if more.Got? {
      assert [] + more.value == more.value;
    }
  }

  lemma AfterOne(files: seq<FileBody>, input: seq<Byte>, count: nat)
    requires 0 < count
    ensures After(files, ParseFiles(input, count))
         == match ParseFile(input)
            case Bad(e) => Bad(e)
            case Got(file, rest) => After(files + [file], ParseFiles(rest, count - 1))
  {
    hide ParseFile;
    var first := ParseFile(input);
    if first.Got? {
      var more := ParseFiles(first.rest, count - 1);
      if more.Got? {
        assert files + ([first.value] + more.value) == files + [first.value] + more.value;
      }
    }
  }

  method DecodeFiles(cursor: Cursor, count: nat) returns (r: Result<seq<FileBody>, CloneError>)
    requires cursor.Valid()
    modifies cursor
    ensures cursor.Valid() && Follows(ParseFiles(old(cursor.Rest()), count), r, cursor.Rest())
  {
    hide ParseFile, ParseFiles;
    var files: seq<FileBody> := [];
    ghost var whole := ParseFiles(cursor.Rest(), count);
    AfterNone(whole);
    for i := 0 to count
      invariant cursor.Valid()
      invariant whole == After(files, ParseFiles(cursor.Rest(), count - i))
    {
      AfterOne(files, cursor.Rest(), count - i);
      var file :- cursor.DecodeFileBody();
      files := files + [file];
    }
    NoFilesLeft(cursor.Rest());
    assert files + [] == files;
    r := Ok(files);
  }

  lemma NoFilesLeft(input: seq<Byte>)
    ensures ParseFiles(input, 0) == Got([], input)
  {
  }

  // ------------------------------------------------------------------- inverse

  lemma Cut(a: seq<Byte>, b: seq<Byte>)
    ensures (a + b)[..|a|] == a && (a + b)[|a|..] == b
  {
  }

  lemma WordForward(v: nat, rest: seq<Byte>)
    requires v < 0x1_0000_0000
    ensures ParseWord(Le(v, 4) + rest) == Got(v, rest)
  {
    Widths();
    UnLeOfLe(v, 4);
    Cut(Le(v, 4), rest);
  }

  lemma WordBack(input: seq<Byte>)
    requires ParseWord(input).Got?
    ensures var g := ParseWord(input); g.value < 0x1_0000_0000 && input == Le(g.value, 4) + g.rest
  {
    Widths();
    LeOfUnLe(input[..4]);
    assert input == input[..4] + input[4..];
  }

  lemma BytesForward(bs: seq<Byte>, rest: seq<Byte>)
    requires |bs| <= MAX_CLONE_BYTES
    ensures ParseBytes(EncBytes(bs) + rest) == Got(bs, rest)
  {
    WordForward(|bs|, bs + rest);
    assert EncBytes(bs) + rest == Le(|bs|, 4) + (bs + rest);
    Cut(bs, rest);
  }

  lemma BytesBack(input: seq<Byte>)
    requires ParseBytes(input).Got?
    ensures var g := ParseBytes(input); |g.value| <= MAX_CLONE_BYTES && input == EncBytes(g.value) + g.rest
  {
    hide Le, UnLe, ParseWord;
    WordBack(input);
    var w, g := ParseWord(input), ParseBytes(input);
    assert w.rest == g.value + g.rest;
    assert Le(|g.value|, 4) + (g.value + g.rest) == EncBytes(g.value) + g.rest;
  }

  lemma StringForward(s: Str, rest: seq<Byte>)
    requires |s| <= MAX_CLONE_STRING_BYTES
    ensures ParseString(EncBytes(s) + rest) == Got(s, rest)
  {
    BytesForward(s, rest);
  }

  lemma StringBack(input: seq<Byte>)
    requires ParseString(input).Got?
    ensures var g := ParseString(input); |g.value| <= MAX_CLONE_STRING_BYTES && input == EncBytes(g.value) + g.rest
  {
    BytesBack(input);
  }

  lemma StampForward(x: I64, rest: seq<Byte>)
    ensures ParseStamp(Le(AsU64(x), 8) + rest) == Got(x, rest)
  {
    Widths();
    UnLeOfLe(AsU64(x), 8);
    Cut(Le(AsU64(x), 8), rest);
  }

  lemma StampBack(input: seq<Byte>)
    requires ParseStamp(input).Got?
    ensures var g := ParseStamp(input); input == Le(AsU64(g.value), 8) + g.rest
  {
    Widths();
    LeOfUnLe(input[..8]);
    assert AsU64(AsI64(UnLe(input[..8]))) == UnLe(input[..8]);
    assert input == input[..8] + input[8..];
  }

  lemma Regroup(a: seq<Byte>, b: seq<Byte>, c: seq<Byte>, d: seq<Byte>, rest: seq<Byte>)
    ensures a + (b + (c + (d + rest))) == a + b + c + d + rest
  {
  }

  lemma FileForward(f: FileBody, rest: seq<Byte>)
    requires ShortStrings(f) && |f.bytes| <= MAX_CLONE_BYTES
    ensures ParseFile(EncFile(f) + rest) == Got(f, rest)
  {
    hide Le, EncBytes, ParseBytes, ParseString, ParseStamp;
    var stamp := Le(AsU64(f.lastModified), 8) + rest;
    var name := EncBytes(f.name) + stamp;
    var mediaType := EncBytes(f.mediaType) + name;
    Regroup(EncBytes(f.bytes), EncBytes(f.mediaType), EncBytes(f.name), Le(AsU64(f.lastModified), 8), rest);
    BytesForward(f.bytes, mediaType);
    StringForward(f.mediaType, name);
    StringForward(f.name, stamp);
    StampForward(f.lastModified, rest);
  }

  lemma FileBack(input: seq<Byte>)
    requires ParseFile(input).Got?
    ensures var g := ParseFile(input);
      && ShortStrings(g.value) && |g.value.bytes| <= MAX_CLONE_BYTES && input == EncFile(g.value) + g.rest
  {
    hide Le, EncBytes, ParseBytes, ParseString, ParseStamp;
    var g := ParseFile(input);
    var first := ParseBytes(input);
    var second := ParseString(first.rest);
    var third := ParseString(second.rest);
    BytesBack(input);
    StringBack(first.rest);
    StringBack(second.rest);
    StampBack(third.rest);
    Regroup(EncBytes(first.value), EncBytes(second.value), EncBytes(third.value),
            Le(AsU64(g.value.lastModified), 8), g.rest);
  }

  lemma {:induction false} FilesForward(fs: seq<FileBody>, rest: seq<Byte>)
    requires AllShort(fs) && |EncFiles(fs)| <= MAX_CLONE_BYTES
    ensures ParseFiles(EncFiles(fs) + rest, |fs|) == Got(fs, rest)
  {
    hide EncFile, ParseFile;
    if fs == [] {
      assert EncFiles(fs) + rest == rest;
    } else {
      var more := EncFiles(fs[1..]) + rest;
      assert EncFiles(fs) + rest == EncFile(fs[0]) + more;
      FileForward(fs[0], more);
      FilesForward(fs[1..], rest);
      assert [fs[0]] + fs[1..] == fs;
    }
  }

  lemma {:induction false} FilesBack(input: seq<Byte>, count: nat)
    requires ParseFiles(input, count).Got?
    ensures var g := ParseFiles(input, count);
      && |g.value| == count && AllShort(g.value) && input == EncFiles(g.value) + g.rest
    decreases count
  {
    hide EncFile, ParseFile;
    if count > 0 {
      FileBack(input);
      var first := ParseFile(input);
      FilesBack(first.rest, count - 1);
      var more, g := ParseFiles(first.rest, count - 1), ParseFiles(input, count);
      assert g.value[1..] == more.value;
      assert EncFile(first.value) + (EncFiles(more.value) + more.rest) == EncFiles(g.value) + g.rest;
    }
  }

  /** A real list of files never trips the bound on its count. */
  lemma {:induction false} FilesNeedRoom(fs: seq<FileBody>)
    ensures |EncFiles(fs)| >= 20 * |fs|
  {
    if fs != [] {
      FilesNeedRoom(fs[1..]);
    }
  }

  lemma HeaderForward(tag: nat, body: seq<Byte>)
    requires tag < 0x1_0000_0000
    ensures var input := Header(tag) + body;
      |input| >= 12 && input[..4] == MAGIC && UnLe(input[4..8]) == VERSION && UnLe(input[8..12]) == tag && input[12..] == body
  {
    var input := Header(tag) + body;
    Widths();
    UnLeOfLe(VERSION, 4);
    UnLeOfLe(tag, 4);
    assert input[4..8] == Le(VERSION, 4);
    assert input[8..12] == Le(tag, 4);
  }

  lemma HeaderBack(input: seq<Byte>)
    requires |input| >= 12 && input[..4] == MAGIC && UnLe(input[4..8]) == VERSION
    ensures input == Header(UnLe(input[8..12])) + input[12..]
  {
    LeOfUnLe(input[4..8]);
    LeOfUnLe(input[8..12]);
    assert input == input[..4] + input[4..8] + input[8..12] + input[12..];
  }

  lemma BodyForward(p: Payload, rest: seq<Byte>)
    requires Encodable(p)
    ensures ParseBody(Tag(p), Body(p) + rest) == Got(p, rest)
  {
    hide Enc, EncBytes, EncFiles, ParseBytes, ParseString, ParseFile, ParseFiles, ParseWord;
    WireLength(p);
    match p {
      case BlobPayload(bytes, mediaType) =>
        assert Body(p) + rest == EncBytes(bytes) + (EncBytes(mediaType) + rest);
        BytesForward(bytes, EncBytes(mediaType) + rest);
        StringForward(mediaType, rest);
      case FilePayload(file) =>
        FileForward(file, rest);
      case FileListPayload(files) =>
        assert Body(p) + rest == Le(|files|, 4) + (EncFiles(files) + rest);
        WordForward(|files|, EncFiles(files) + rest);
        FilesNeedRoom(files);
        FilesForward(files, rest);
    }
  }

  lemma PayloadForward(p: Payload, rest: seq<Byte>)
    requires Encodable(p)
    ensures ParsePayload(Enc(p) + rest) == Got(p, rest)
  {
    hide Header, Body, ParseBody, Encodable;
    assert Enc(p) + rest == Header(Tag(p)) + (Body(p) + rest);
    HeaderForward(Tag(p), Body(p) + rest);
    BodyForward(p, rest);
  }

  lemma BodyBack(tag: nat, input: seq<Byte>)
    requires ParseBody(tag, input).Got?
    ensures var g := ParseBody(tag, input); Tag(g.value) == tag && input == Body(g.value) + g.rest
    ensures var p := ParseBody(tag, input).value; |Enc(p)| <= MAX_CLONE_BYTES ==> Encodable(p)
  {
    hide Enc, EncBytes, EncFiles, ParseBytes, ParseString, ParseFile, ParseFiles, ParseWord;
    var g := ParseBody(tag, input);
    WireLength(g.value);
    if tag == BLOB_TAG {
      BytesBack(input);
      StringBack(ParseBytes(input).rest);
      assert EncBytes(g.value.bytes) + (EncBytes(g.value.mediaType) + g.rest) == Body(g.value) + g.rest;
    } else if tag == FILE_TAG {
      FileBack(input);
    } else {
      WordBack(input);
      var w := ParseWord(input);
      FilesBack(w.rest, w.value);
      assert Le(w.value, 4) + (EncFiles(g.value.files) + g.rest) == Body(g.value) + g.rest;
    }
  }

  /** An input decodes to `p` exactly when `p` encodes to that input. */
  lemma DecodeExactly(input: seq<Byte>, p: Payload)
    ensures Parse(input) == Ok(p) <==> Encodable(p) && Enc(p) == input
  {
    if Encodable(p) && Enc(p) == input {
      assert Enc(p) + [] == input;
      PayloadForward(p, []);
    }
    if Parse(input) == Ok(p) {
      HeaderBack(input);
      var tag, body := UnLe(input[8..12]), input[12..];
      BodyBack(tag, body);
      assert Body(p) + [] == Body(p);
    }
  }

  /** No accepted input is a strict prefix of another. */
  lemma PrefixFree(a: seq<Byte>, b: seq<Byte>)
    requires Parse(a).Ok? && Parse(b).Ok? && a <= b
    ensures a == b
  {
    var p, q := Parse(a).value, Parse(b).value;
    DecodeExactly(a, p);
    DecodeExactly(b, q);
    PayloadForward(p, b[|a|..]);
    assert b == a + b[|a|..];
    PayloadForward(q, []);
    assert b == b + [];
  }

  /** A version other than the current one is refused as such, whatever follows it. */
  lemma OtherVersionsRefused(version: nat, rest: seq<Byte>)
    requires version < 0x1_0000_0000 && version != VERSION && 4 <= |rest| <= MAX_CLONE_BYTES - 8
    ensures Parse(MAGIC + Le(version, 4) + rest) == Err(UnsupportedVersion)
  {
    var input := MAGIC + Le(version, 4) + rest;
    Widths();
    UnLeOfLe(version, 4);
    assert input[..4] == MAGIC;
    assert input[4..8] == Le(version, 4);
  }

  // ---------------------------------------------------------------- truncation

  lemma WordCut(v: nat, rest: seq<Byte>, input: seq<Byte>)
    requires v < 0x1_0000_0000 && input <= Le(v, 4) + rest
    ensures ParseWord(input) == (if |input| < 4 then Bad(Malformed) else Got(v, input[4..]))
    ensures |input| >= 4 ==> input[4..] <= rest
  {
    if |input| >= 4 {
      WordForward(v, input[4..]);
      assert input == Le(v, 4) + input[4..];
    }
  }

  /** Cut inside the frame the input is malformed; cut after it, the frame reads whole. */
  lemma BytesCut(bs: seq<Byte>, rest: seq<Byte>, input: seq<Byte>)
    requires |bs| <= MAX_CLONE_BYTES && input <= EncBytes(bs) + rest
    ensures |input| < 4 + |bs| ==> ParseBytes(input) == Bad(Malformed)
    ensures |input| >= 4 + |bs| ==> ParseBytes(input) == Got(bs, input[4 + |bs|..]) && input[4 + |bs|..] <= rest
  {
    assert EncBytes(bs) + rest == Le(|bs|, 4) + (bs + rest);
    WordCut(|bs|, bs + rest, input);
    if |input| >= 4 + |bs| {
      var tail := input[4 + |bs|..];
      assert input == EncBytes(bs) + tail;
      BytesForward(bs, tail);
    }
  }

  lemma StringCut(t: Str, rest: seq<Byte>, input: seq<Byte>)
    requires |t| <= MAX_CLONE_STRING_BYTES && input <= EncBytes(t) + rest
    ensures |input| < 4 + |t| ==> ParseString(input) == Bad(Malformed)
    ensures |input| >= 4 + |t| ==> ParseString(input) == Got(t, input[4 + |t|..]) && input[4 + |t|..] <= rest
  {
    BytesCut(t, rest, input);
  }

  lemma ShortStamp(input: seq<Byte>)
    requires |input| < 8
    ensures ParseStamp(input) == Bad(Malformed)
  {
  }

  lemma FileCut(f: FileBody, rest: seq<Byte>, input: seq<Byte>)
    requires ShortStrings(f) && |f.bytes| <= MAX_CLONE_BYTES && input <= EncFile(f) + rest
    ensures |input| < |EncFile(f)| ==> ParseFile(input) == Bad(Malformed)
    ensures |input| >= |EncFile(f)| ==> ParseFile(input) == Got(f, input[|EncFile(f)|..]) && input[|EncFile(f)|..] <= rest
  {
    hide Le, EncBytes, ParseBytes, ParseString, ParseStamp;
    if |input| >= |EncFile(f)| {
      var tail := input[|EncFile(f)|..];
      assert input == EncFile(f) + tail;
      FileForward(f, tail);
    } else {
      var stamp := Le(AsU64(f.lastModified), 8) + rest;
      var name := EncBytes(f.name) + stamp;
      var mediaType := EncBytes(f.mediaType) + name;
      Regroup(EncBytes(f.bytes), EncBytes(f.mediaType), EncBytes(f.name), Le(AsU64(f.lastModified), 8), rest);
      BytesCut(f.bytes, mediaType, input);
      var first := ParseBytes(input);
      if first.Got? {
        StringCut(f.mediaType, name, first.rest);
        var second := ParseString(first.rest);
        if second.Got? {
          StringCut(f.name, stamp, second.rest);
          if ParseString(second.rest).Got? {
            ShortStamp(ParseString(second.rest).rest);
          }
        }
      }
    }
  }

  lemma {:induction false} FilesCut(fs: seq<FileBody>, input: seq<Byte>)
    requires AllShort(fs) && |EncFiles(fs)| <= MAX_CLONE_BYTES && input < EncFiles(fs)
    ensures ParseFiles(input, |fs|) == Bad(Malformed)
    decreases |fs|
  {
    hide EncFile, ParseFile;
    FileCut(fs[0], EncFiles(fs[1..]), input);
    var first := ParseFile(input);
    if first.Got? {
      assert |first.rest| < |EncFiles(fs[1..])|;
      FilesCut(fs[1..], first.rest);
    }
  }

  lemma BodyCut(p: Payload, input: seq<Byte>)
    requires Encodable(p) && input < Body(p)
    ensures ParseBody(Tag(p), input) == Bad(Malformed)
  {
    match p {
      case BlobPayload(bytes, mediaType) =>
        BytesCut(bytes, EncBytes(mediaType), input);
        var first := ParseBytes(input);
        if first.Got? {
          assert EncBytes(mediaType) + [] == EncBytes(mediaType);
          StringCut(mediaType, [], first.rest);
        }
      case FilePayload(file) =>
        assert EncFile(file) + [] == EncFile(file);
        FileCut(file, [], input);
      case FileListPayload(files) =>
        WordCut(|files|, EncFiles(files), input);
        if |input| >= 4 {
          FilesCut(files, input[4..]);
        }
    }
  }

  /** Every truncation of an accepted input is malformed, wherever the cut falls. */
  lemma TruncationIsMalformed(input: seq<Byte>, n: nat)
    requires Parse(input).Ok? && n < |input|
    ensures Parse(input[..n]) == Err(Malformed)
  {
    var p := Parse(input).value;
    DecodeExactly(input, p);
    if n >= 12 {
      var cut := input[..n];
      var body := cut[12..];
      assert body < Body(p);
      assert cut == Header(Tag(p)) + body;
      HeaderForward(Tag(p), body);
      BodyCut(p, body);
    }
  }
}
