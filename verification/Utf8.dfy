/**
  The incremental UTF-8 decoder of text streams, and the replacement decoding
  it must agree with: maximal-subpart replacement, section 3.9 of the Unicode
  Standard. Decoded text is a sequence of code points.
*/
module Utf8 {
  import opened Common

  type Text = seq<nat>

  const REPLACEMENT: nat := 0xFFFD

  predicate IsCont(b: Byte) {
    0x80 <= b <= 0xBF
  }

  /** Second bytes that may follow `lead` (Table 3-7 of the Unicode Standard). */
  predicate SecondOk(lead: Byte, b: Byte) {
    if lead == 0xE0 then 0xA0 <= b <= 0xBF
    else if lead == 0xED then 0x80 <= b <= 0x9F
    else if lead == 0xF0 then 0x90 <= b <= 0xBF
    else if lead == 0xF4 then 0x80 <= b <= 0x8F
    else IsCont(b)
  }

  /** The payload bits of a continuation byte. */
  function Six(b: Byte): int {
    b as int - 0x80
  }

  /** One decoding step: how many bytes it eats and the code point it yields. */
  datatype Step = Step(len: nat, scalar: nat)

  function First(bs: seq<Byte>): (u: Step)
    requires bs != []
    ensures 1 <= u.len <= |bs| && u.len <= 4
  {
    var lead: int := bs[0];
    if lead < 0x80 then Step(1, lead)
    else if 0xC2 <= lead <= 0xDF then
      if |bs| < 2 || !IsCont(bs[1]) then Step(1, REPLACEMENT)
      else Step(2, (lead - 0xC0) * 0x40 + Six(bs[1]))
    else if 0xE0 <= lead <= 0xEF then
      if |bs| < 2 || !SecondOk(lead, bs[1]) then Step(1, REPLACEMENT)
      else if |bs| < 3 || !IsCont(bs[2]) then Step(2, REPLACEMENT)
      else Step(3, (lead - 0xE0) * 0x1000 + Six(bs[1]) * 0x40 + Six(bs[2]))
    else if 0xF0 <= lead <= 0xF4 then
      if |bs| < 2 || !SecondOk(lead, bs[1]) then Step(1, REPLACEMENT)
      else if |bs| < 3 || !IsCont(bs[2]) then Step(2, REPLACEMENT)
      else if |bs| < 4 || !IsCont(bs[3]) then Step(3, REPLACEMENT)
      else Step(4, (lead - 0xF0) * 0x40000 + Six(bs[1]) * 0x1000
                   + Six(bs[2]) * 0x40 + Six(bs[3]))
    else Step(1, REPLACEMENT)
  }

  /** `String::from_utf8_lossy`: one U+FFFD per maximal subpart. */
  function Lossy(bs: seq<Byte>): Text {
    if bs == [] then [] else [First(bs).scalar] + Lossy(bs[First(bs).len..])
  }

  // -------------------------------------------------- the reference is UTF-8

  predicate IsScalar(c: nat) {
    c < 0xD800 || 0xE000 <= c < 0x110000
  }

  function EncodeScalar(c: nat): (bs: seq<Byte>)
    requires IsScalar(c)
    ensures 1 <= |bs| <= 4
  {
    if c < 0x80 then [c]
    else if c < 0x800 then [0xC0 + c / 0x40, 0x80 + c % 0x40]
    else if c < 0x10000 then [0xE0 + c / 0x1000, 0x80 + c / 0x40 % 0x40, 0x80 + c % 0x40]
    else [0xF0 + c / 0x40000, 0x80 + c / 0x1000 % 0x40, 0x80 + c / 0x40 % 0x40, 0x80 + c % 0x40]
  }

  function Encode(text: Text): seq<Byte>
    requires forall i :: 0 <= i < |text| ==> IsScalar(text[i])
  {
    if text == [] then [] else EncodeScalar(text[0]) + Encode(text[1..])
  }

  lemma ThreeDigits(c: nat)
    requires IsScalar(c) && 0x800 <= c < 0x10000
    ensures c == c / 0x1000 * 0x1000 + c / 0x40 % 0x40 * 0x40 + c % 0x40 && c / 0x1000 <= 0xF
    ensures c / 0x1000 == 0 ==> c / 0x40 % 0x40 >= 0x20
    ensures c / 0x1000 == 0xD ==> c / 0x40 % 0x40 < 0x20
  {
  }

  lemma FourDigits(c: nat)
    requires IsScalar(c) && 0x10000 <= c
    ensures c == c / 0x40000 * 0x40000 + c / 0x1000 % 0x40 * 0x1000 + c / 0x40 % 0x40 * 0x40 + c % 0x40
    ensures c / 0x40000 <= 4
    ensures c / 0x40000 == 0 ==> c / 0x1000 % 0x40 >= 0x10
    ensures c / 0x40000 == 4 ==> c / 0x1000 % 0x40 < 0x10
  {
  }

  lemma FirstOfThree(bs: seq<Byte>, x: nat, y: nat, z: nat)
    requires |bs| >= 3 && x <= 0xF && y < 0x40 && z < 0x40
    requires bs[0] == 0xE0 + x && bs[1] == 0x80 + y && bs[2] == 0x80 + z
    requires (x == 0 ==> y >= 0x20) && (x == 0xD ==> y < 0x20)
    ensures First(bs) == Step(3, x * 0x1000 + y * 0x40 + z)
  {
  }

  lemma FirstOfFour(bs: seq<Byte>, w: nat, x: nat, y: nat, z: nat)
    requires |bs| >= 4 && w <= 4 && x < 0x40 && y < 0x40 && z < 0x40
    requires bs[0] == 0xF0 + w && bs[1] == 0x80 + x && bs[2] == 0x80 + y && bs[3] == 0x80 + z
    requires (w == 0 ==> x >= 0x10) && (w == 4 ==> x < 0x10)
    ensures First(bs) == Step(4, w * 0x40000 + x * 0x1000 + y * 0x40 + z)
  {
  }

  lemma FirstEncoded(c: nat, rest: seq<Byte>)
    requires IsScalar(c)
    ensures First(EncodeScalar(c) + rest) == Step(|EncodeScalar(c)|, c)
  {
    var e := EncodeScalar(c);
    var bs := e + rest;
    assert forall i :: 0 <= i < |e| ==> bs[i] == e[i];
    if c < 0x800 {
    } else if c < 0x10000 {
      ThreeDigits(c);
      FirstOfThree(bs, c / 0x1000, c / 0x40 % 0x40, c % 0x40);
    } else {
      FourDigits(c);
      FirstOfFour(bs, c / 0x40000, c / 0x1000 % 0x40, c / 0x40 % 0x40, c % 0x40);
    }
  }

  /** Well-formed UTF-8 decodes back to the text it encodes. */
  lemma {:induction false} LossyInvertsEncode(text: Text)
    requires forall i :: 0 <= i < |text| ==> IsScalar(text[i])
    ensures Lossy(Encode(text)) == text
  {
    if text != [] {
      var e := EncodeScalar(text[0]);
      FirstEncoded(text[0], Encode(text[1..]));
      assert Encode(text)[|e|..] == Encode(text[1..]);
      LossyInvertsEncode(text[1..]);
    }
  }

  // ------------------------------------------------------- incomplete tails

  /** Could `bs[i..]` begin a sequence whose remaining bytes have not arrived? */
  predicate PrefixFrom(bs: seq<Byte>, i: nat) {
    || (i + 1 == |bs| && 0xC2 <= bs[i] <= 0xF4)
    || (i + 2 == |bs| && 0xE0 <= bs[i] <= 0xF4 && IsCont(bs[i + 1]))
    || (i + 3 == |bs| && 0xF0 <= bs[i] <= 0xF4 && IsCont(bs[i + 1]) && IsCont(bs[i + 2]))
  }

  /** Length of the trailing incomplete sequence, longest candidate first. */
  function TailLen(bs: seq<Byte>): (k: nat)
    ensures k <= 3 && k <= |bs|
    ensures k > 0 ==> PrefixFrom(bs, |bs| - k)
    ensures forall i: nat :: |bs| - 3 <= i < |bs| - k ==> !PrefixFrom(bs, i)
  {
    if |bs| >= 3 && PrefixFrom(bs, |bs| - 3) then 3
    else if |bs| >= 2 && PrefixFrom(bs, |bs| - 2) then 2
    else if |bs| >= 1 && PrefixFrom(bs, |bs| - 1) then 1
    else 0
  }

  /** The bytes that are decodable now, and those that must wait. */
  function Settled(bs: seq<Byte>): seq<Byte> {
    bs[..|bs| - TailLen(bs)]
  }

  function Waiting(bs: seq<Byte>): seq<Byte> {
    bs[|bs| - TailLen(bs)..]
  }

  /** One push: the emitted text and the bytes kept for the next chunk. */
  function Absorb(pending: seq<Byte>, input: seq<Byte>): (Text, seq<Byte>) {
    var buf := pending + input;
    (Lossy(Settled(buf)), Waiting(buf))
  }

  /** Flushing emits one U+FFFD per waiting byte. */
  function Flushed(pending: seq<Byte>): (t: Text)
    ensures |t| == |pending|
  {
    seq(|pending|, _ => REPLACEMENT)
  }

  /** What a whole input decodes to, chunk-independently. */
  function Decoded(bs: seq<Byte>): Text {
    Lossy(Settled(bs)) + Flushed(Waiting(bs))
  }

  lemma NoneWaiting(bs: seq<Byte>)
    requires Waiting(bs) == []
    ensures Decoded(bs) == Lossy(Settled(bs))
  {
    hide First, Lossy, TailLen, PrefixFrom;
  }

  lemma NothingDecodes(none: seq<Byte>)
    requires none == []
    ensures Lossy(none) == [] && TailLen(none) == 0
  {
  }

  lemma NothingWaits()
    ensures Settled([]) == [] && Waiting([]) == [] && Lossy([]) == []
  {
    hide First, PrefixFrom;
    NothingDecodes([]);
  }

  // ----------------------------------------------------- chunk independence

  /** Nothing that follows `a` can join a sequence `a` has begun. */
  ghost predicate Splits(a: seq<Byte>, x: seq<Byte>) {
    x == [] || !IsCont(x[0]) || TailLen(a) == 0
  }

  lemma FirstLocal(a: seq<Byte>, x: seq<Byte>)
    requires a != [] && Splits(a, x)
    ensures First(a + x) == First(a)
  {
    var bs := a + x;
    assert forall i :: 0 <= i < |a| ==> bs[i] == a[i];
    if x != [] {
      assert bs[|a|] == x[0];
      assert TailLen(a) == 0 && |a| <= 3 ==> !PrefixFrom(a, 0);
    } else {
      assert bs == a;
    }
  }

  lemma TailOfRest(a: seq<Byte>, n: nat)
    requires n <= |a| && TailLen(a) == 0
    ensures TailLen(a[n..]) == 0
  {
    var rest := a[n..];
    var k := TailLen(rest);
    if k > 0 {
      assert PrefixFrom(rest, |rest| - k);
      assert PrefixFrom(a, |a| - k);
    }
  }

  lemma SplitsRest(a: seq<Byte>, n: nat, x: seq<Byte>)
    requires n <= |a| && Splits(a, x)
    ensures Splits(a[n..], x)
  {
    if TailLen(a) == 0 {
      TailOfRest(a, n);
    }
  }

  lemma LossyStep(a: seq<Byte>, x: seq<Byte>)
    requires a != [] && First(a + x) == First(a)
    ensures Lossy(a + x) == [First(a).scalar] + Lossy(a[First(a).len..] + x)
  {
    assert (a + x)[First(a).len..] == a[First(a).len..] + x;
  }

  lemma {:induction false} LossyConcat(a: seq<Byte>, x: seq<Byte>)
    requires Splits(a, x)
    ensures Lossy(a + x) == Lossy(a) + Lossy(x)
    decreases |a|
  {
    if a == [] {
      assert a + x == x;
    } else {
      var n := First(a).len;
      FirstLocal(a, x);
      LossyStep(a, x);
      SplitsRest(a, n, x);
      LossyConcat(a[n..], x);
    }
  }

  /** A suffix keeps the tail, as long as it is not cut inside it. */
  lemma TailOfSuffix(total: seq<Byte>, n: nat)
    requires n <= |total|
    requires forall i: nat :: |total| - 3 <= i < n ==> !PrefixFrom(total, i)
    ensures TailLen(total[n..]) == TailLen(total)
  {
    var rest := total[n..];
    var k := TailLen(total);
    assert forall i: nat :: n <= i < |total| ==> PrefixFrom(total, i) == PrefixFrom(rest, i - n);
  }

  /** The tail of the whole input is the tail of what is still buffered. */
  lemma TailLocal(done: seq<Byte>, input: seq<Byte>)
    ensures TailLen(done + input) == TailLen(Waiting(done) + input)
  {
    var total := done + input;
    var n := |done| - TailLen(done);
    forall i: nat | |total| - 3 <= i < n
      ensures !PrefixFrom(total, i)
    {
      assert total[i] == done[i];
      assert !PrefixFrom(done, i);
    }
    assert total[n..] == Waiting(done) + input;
    TailOfSuffix(total, n);
  }

  /**
    One push continues the decoding of everything before it: if the decoder
    holds the waiting bytes of `done`, then emitting and keeping as `Absorb` does
    leaves it with the settled text and waiting bytes of `done + input`.
  */
  lemma PushAdvances(done: seq<Byte>, input: seq<Byte>)
    ensures var (text, kept) := Absorb(Waiting(done), input);
      && Lossy(Settled(done)) + text == Lossy(Settled(done + input))
      && kept == Waiting(done + input)
      && |kept| <= 3
  {
    hide First, Lossy, TailLen, PrefixFrom, Splits;
    var buf := Waiting(done) + input;
    TailLocal(done, input);
    assert done + input == Settled(done) + buf;
    assert Settled(done + input) == Settled(done) + Settled(buf);
    SettledSplits(done, input);
    LossyConcat(Settled(done), Settled(buf));
  }

  lemma SettledSplits(done: seq<Byte>, input: seq<Byte>)
    ensures Splits(Settled(done), Settled(Waiting(done) + input))
  {
    var y := Settled(Waiting(done) + input);
    if TailLen(done) == 0 {
      assert Settled(done) == done;
    } else if y != [] {
      assert PrefixFrom(done, |done| - TailLen(done));
      assert y[0] == Waiting(done)[0] == done[|done| - TailLen(done)];
    }
  }

  function Concat(chunks: seq<seq<Byte>>): seq<Byte> {
    if chunks == [] then [] else Concat(chunks[..|chunks| - 1]) + chunks[|chunks| - 1]
  }

  /** A fresh decoder fed `chunks` one by one: all text emitted, bytes kept. */
  function Feed(chunks: seq<seq<Byte>>): (Text, seq<Byte>) {
    if chunks == [] then ([], [])
    else
      var (text, pending) := Feed(chunks[..|chunks| - 1]);
      var (more, kept) := Absorb(pending, chunks[|chunks| - 1]);
      (text + more, kept)
  }

  /** However the input is cut into chunks, the text and the buffer are the same. */
  lemma {:induction false} ChunkIndependence(chunks: seq<seq<Byte>>)
    ensures var (text, pending) := Feed(chunks);
      && text == Lossy(Settled(Concat(chunks)))
      && pending == Waiting(Concat(chunks))
      && |pending| <= 3
      && text + Flushed(pending) == Decoded(Concat(chunks))
  {
    hide First, PrefixFrom, TailLen;
    if chunks == [] {
      NothingWaits();
    } else {
      var n := |chunks| - 1;
      ChunkIndependence(chunks[..n]);
      PushAdvances(Concat(chunks[..n]), chunks[n]);
    }
  }

  /**
    Exactly when the flushed decoding equals the replacement decoding of the
    whole input: when at most one byte is left over, or the second left-over
    byte could never have followed its lead.
  */
  lemma DecodedIsLossyWhen(bs: seq<Byte>)
    ensures Decoded(bs) == Lossy(bs) <==>
      |Waiting(bs)| <= 1 || !SecondOk(Waiting(bs)[0], Waiting(bs)[1])
  {
    LossyAtTail(bs);
    FlushedIsLossyWhen(Lossy(Settled(bs)), Waiting(bs));
  }

  lemma FlushedIsLossyWhen(head: Text, tail: seq<Byte>)
    requires tail == [] || PrefixFrom(tail, 0)
    ensures head + Flushed(tail) == head + Lossy(tail) <==> |tail| <= 1 || !SecondOk(tail[0], tail[1])
  {
    LossyTail(tail);
    SameAfter(head, Lossy(tail), Flushed(tail));
    if |Lossy(tail)| == |tail| {
      assert Lossy(tail) == Flushed(tail);
    }
  }

  lemma LossyAtTail(bs: seq<Byte>)
    ensures Lossy(bs) == Lossy(Settled(bs)) + Lossy(Waiting(bs))
    ensures Waiting(bs) == [] || PrefixFrom(Waiting(bs), 0)
  {
    var head, tail := Settled(bs), Waiting(bs);
    assert bs == head + tail;
    if tail == [] {
      assert head == bs;
    } else {
      assert PrefixFrom(bs, |head|);
      assert tail[0] == bs[|head|];
    }
    LossyConcat(head, tail);
  }

  lemma SameAfter(head: Text, a: Text, b: Text)
    ensures head + a == head + b <==> a == b
  {
    if head + a == head + b {
      assert a == (head + a)[|head|..];
      assert b == (head + b)[|head|..];
    }
  }

  lemma LossyTail(tail: seq<Byte>)
    requires tail == [] || PrefixFrom(tail, 0)
    ensures forall i :: 0 <= i < |Lossy(tail)| ==> Lossy(tail)[i] == REPLACEMENT
    ensures |Lossy(tail)| == |tail| <==> |tail| <= 1 || !SecondOk(tail[0], tail[1])
  {
    if tail != [] {
      var r1 := tail[First(tail).len..];
      if r1 != [] {
        var r2 := r1[First(r1).len..];
        assert Lossy(r1) == [First(r1).scalar] + Lossy(r2);
        if r2 != [] {
          assert Lossy(r2) == [First(r2).scalar] + Lossy(r2[First(r2).len..]);
        }
      }
    }
  }

  /** The documented agreement fails on a truncated three-byte sequence. */
  lemma TruncatedSequenceDiffers()
    ensures Decoded([0xE2, 0x82]) == [REPLACEMENT, REPLACEMENT]
    ensures Lossy([0xE2, 0x82]) == [REPLACEMENT]
  {
    var bs: seq<Byte> := [0xE2, 0x82];
    assert TailLen(bs) == 2;
    assert Waiting(bs) == bs && Settled(bs) == [];
    assert bs[First(bs).len..] == [];
  }

  // ------------------------------------------------------------ the decoder

  /** The decoder as the stream holds it; `pending` is its whole state. */
  class Utf8Decoder {
    var pending: seq<Byte>

    constructor ()
      ensures pending == []
    {
      pending := [];
    }

    method Push(input: seq<Byte>) returns (text: Text)
      modifies this
      ensures (text, pending) == Absorb(old(pending), input)
    {
      var buf := pending + input;
      pending := [];
      var tail := IncompleteTailLen(buf);
      pending := buf[|buf| - tail..];
      text := Lossy(buf[..|buf| - tail]);
    }

    method Flush() returns (text: Text)
      modifies this
      ensures pending == [] && text == Flushed(old(pending))
    {
      text := [];
      for i := 0 to |pending|
        invariant text == Flushed(pending[..i])
      {
        text := text + [REPLACEMENT];
      }
      assert pending[..|pending|] == pending;
      pending := [];
    }
  }

  predicate IsValidPrefix(suffix: seq<Byte>) {
    PrefixFrom(suffix, 0)
  }

  method IncompleteTailLen(buf: seq<Byte>) returns (k: nat)
    ensures k == TailLen(buf)
  {
    var max := if |buf| < 3 then |buf| else 3;
    k := max;
    while k >= 1
      invariant 0 <= k <= max
      invariant forall i: nat :: |buf| - max <= i < |buf| - k ==> !PrefixFrom(buf, i)
    {
      if IsValidPrefix(buf[|buf| - k..]) {
        assert PrefixFrom(buf, |buf| - k);
        return;
      }
      k := k - 1;
    }
  }

  /** A decoder object fed chunk by chunk, as a text stream feeds it. */
  method DecodeChunks(chunks: seq<seq<Byte>>) returns (text: Text)
    ensures text == Decoded(Concat(chunks))
  {
    hide Absorb, Decoded, Settled, Waiting, Lossy, Flushed;
    var decoder := new Utf8Decoder();
    text := [];
    for i := 0 to |chunks|
      invariant fresh(decoder)
      invariant (text, decoder.pending) == Feed(chunks[..i])
    {
      var more := decoder.Push(chunks[i]);
      assert chunks[..i + 1][..i] == chunks[..i];
      text := text + more;
    }
    assert chunks[..|chunks|] == chunks;
    ChunkIndependence(chunks);
    var rest := decoder.Flush();
    text := text + rest;
  }
}
