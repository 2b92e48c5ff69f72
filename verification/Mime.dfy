/**
  The `charset` of a media type: a permissive scanner over the characters of
  the string that skips malformed parameters one at a time.
*/
module Mime {
  import opened Common

  predicate IsSpace(c: char) {
    c == '\t' || c == '\n' || c == '\U{0C}' || c == '\r' || c == ' '
  }

  predicate IsTokenChar(c: char) {
    || '0' <= c <= '9' || 'a' <= c <= 'z' || 'A' <= c <= 'Z'
    || c in "!#$%&'*+-.^_`|~"
  }

  predicate IsQuotedChar(c: char) {
    c == '\t' || ' ' <= c <= '~' || '\U{80}' <= c <= '\U{FF}'
  }

  predicate IsToken(s: string) {
    s != "" && forall i :: 0 <= i < |s| ==> IsTokenChar(s[i])
  }

  predicate IsQuotable(s: string) {
    forall i :: 0 <= i < |s| ==> IsQuotedChar(s[i])
  }

  predicate AllSpace(s: string) {
    forall i :: 0 <= i < |s| ==> IsSpace(s[i])
  }

  function LowerChar(c: char): char {
    if 'A' <= c <= 'Z' then ((c as int) + 32) as char else c
  }

  function Lower(s: string): (r: string)
    ensures |r| == |s|
  {
    seq(|s|, i requires 0 <= i < |s| => LowerChar(s[i]))
  }

  predicate IsCharset(name: string) {
    Lower(name) == "charset"
  }

  // ------------------------------------------------------------------ scanning

  /** The first place at or after `i` holding `a` or `b`, or `end`. */
  function Find(s: string, i: nat, end: nat, a: char, b: char): (r: nat)
    requires i <= end <= |s|
    ensures i <= r <= end && (r < end ==> s[r] == a || s[r] == b)
    ensures forall j :: i <= j < r ==> s[j] != a && s[j] != b
    decreases end - i
  {
    if i == end || s[i] == a || s[i] == b then i else Find(s, i + 1, end, a, b)
  }

  /** The first place at or after `i` that is no whitespace, or `end`. */
  function SkipSpace(s: string, i: nat, end: nat): (r: nat)
    requires i <= end <= |s|
    ensures i <= r <= end && (r < end ==> !IsSpace(s[r]))
    ensures forall j :: i <= j < r ==> IsSpace(s[j])
    decreases end - i
  {
    if i < end && IsSpace(s[i]) then SkipSpace(s, i + 1, end) else i
  }

  /** The end of `s[i..end]` without its trailing whitespace. */
  function DropSpace(s: string, i: nat, end: nat): (r: nat)
    requires i <= end <= |s|
    ensures i <= r <= end && (i < r ==> !IsSpace(s[r - 1]))
    ensures forall j :: r <= j < end ==> IsSpace(s[j])
    decreases end
  {
    if i < end && IsSpace(s[end - 1]) then DropSpace(s, i, end - 1) else end
  }

  /** The characters of a quoted string from just after its opening quote, and where it stops. */
  function Quoted(s: string, i: nat, end: nat): (r: (string, nat))
    requires i <= end <= |s|
    ensures i <= r.1 <= end
    decreases end - i
  {
    if i == end then ("", end)
    else if s[i] == '"' then ("", i + 1)
    else if s[i] == '\\' then
      if i + 1 == end then ("\\", end)
      else var more := Quoted(s, i + 2, end); ([s[i + 1]] + more.0, more.1)
    else var more := Quoted(s, i + 1, end); ([s[i]] + more.0, more.1)
  }

  /** What one parameter amounts to, and the place of the next separator. */
  datatype Param = Skipped(next: nat) | Named(name: string, value: string, next: nat)

  /** The value that starts at `i`, just after the equals sign. */
  function ReadValue(s: string, name: string, i: nat, end: nat): (p: Param)
    requires i <= end <= |s|
    ensures i <= p.next <= end && (p.next < end ==> s[p.next] == ';')
  {
    if i == end then Skipped(end)
    else if s[i] == '"' then
      var q := Quoted(s, i + 1, end);
      Named(name, q.0, Find(s, q.1, end, ';', ';'))
    else
      var stop := Find(s, i, end, ';', ';');
      var last := DropSpace(s, i, stop);
      if last == i then Skipped(stop) else Named(name, s[i..last], stop)
  }

  /** The parameter after the separator at `i`. */
  function ReadParam(s: string, i: nat, end: nat): (p: Param)
    requires i < end <= |s|
    ensures i < p.next <= end && (p.next < end ==> s[p.next] == ';')
  {
    var from := SkipSpace(s, i + 1, end);
    var stop := Find(s, from, end, ';', '=');
    if stop == end || s[stop] == ';' then Skipped(stop) else ReadValue(s, s[from..stop], stop + 1, end)
  }

  predicate GivesCharset(p: Param) {
    p.Named? && IsToken(p.name) && IsQuotable(p.value) && IsCharset(p.name)
  }

  /** The first charset among the parameters from the separator at `i` on. */
  function FirstCharset(s: string, i: nat, end: nat): Option<string>
    requires i <= end <= |s|
    decreases end - i
  {
    if i == end then None
    else
      var p := ReadParam(s, i, end);
      if GivesCharset(p) then Some(p.value) else FirstCharset(s, p.next, end)
  }

  /** The place of the first separator after a valid type and subtype. */
  function Essence(s: string, i: nat, end: nat): (r: Option<nat>)
    requires i <= end <= |s|
    ensures r.Some? ==> i <= r.value <= end && (r.value < end ==> s[r.value] == ';')
  {
    var slash := Find(s, i, end, '/', '/');
    if slash == end || !IsToken(s[i..slash]) then None
    else
      var semi := Find(s, slash + 1, end, ';', ';');
      if IsToken(s[slash + 1..DropSpace(s, slash + 1, semi)]) then Some(semi) else None
  }

  function Charset(s: string): Option<string> {
    var start := SkipSpace(s, 0, |s|);
    var end := DropSpace(s, start, |s|);
    match Essence(s, start, end)
    case None => None
    case Some(semi) => FirstCharset(s, semi, end)
  }

  function OrElse<T>(a: Option<T>, b: Option<T>): Option<T> {
    if a.Some? then a else b
  }

  method ScanTo(s: string, i: nat, end: nat, a: char, b: char) returns (position: nat)
    requires i <= end <= |s|
    ensures position == Find(s, i, end, a, b)
  {
    position := i;
    while position < end && s[position] != a && s[position] != b
      invariant i <= position <= end && Find(s, position, end, a, b) == Find(s, i, end, a, b)
    {
      position := position + 1;
    }
  }

  method ScanSpace(s: string, i: nat, end: nat) returns (position: nat)
    requires i <= end <= |s|
    ensures position == SkipSpace(s, i, end)
  {
    position := i;
    while position < end && IsSpace(s[position])
      invariant i <= position <= end && SkipSpace(s, position, end) == SkipSpace(s, i, end)
    {
      position := position + 1;
    }
  }

  method TrimSpace(s: string, i: nat, end: nat) returns (last: nat)
    requires i <= end <= |s|
    ensures last == DropSpace(s, i, end)
  {
    last := end;
    while last > i && IsSpace(s[last - 1])
      invariant i <= last <= end && DropSpace(s, i, last) == DropSpace(s, i, end)
    {
      last := last - 1;
    }
  }

  /** `mime_charset`: in bounds and terminating on every string. */
  method MimeCharset(input: string) returns (charset: Option<string>)
    ensures charset == Charset(input)
  {
    hide SkipSpace, DropSpace, Essence, FirstCharset;
    var start := ScanSpace(input, 0, |input|);
    var end := TrimSpace(input, start, |input|);
    var semi := ScanEssence(input, start, end);
    if semi.None? {
      return None;
    }
    charset := ScanParams(input, semi.value, end);
  }

  /** Type and subtype: both must be tokens. */
  method ScanEssence(input: string, start: nat, end: nat) returns (semi: Option<nat>)
    requires start <= end <= |input|
    ensures semi == Essence(input, start, end)
  {
    hide Find, DropSpace, IsToken;
    NoToken();
    var position := ScanTo(input, start, end, '/', '/');
    assert input[start..start] == "";
    if position == start || position == end || !IsToken(input[start..position]) {
      return None;
    }
    var subtypeStart := position + 1;
    position := ScanTo(input, subtypeStart, end, ';', ';');
    var subtypeEnd := TrimSpace(input, subtypeStart, position);
    assert input[subtypeStart..subtypeStart] == "";
    if subtypeEnd == subtypeStart || !IsToken(input[subtypeStart..subtypeEnd]) {
      return None;
    }
    semi := Some(position);
  }

  lemma NoToken()
    ensures !IsToken("")
  {
  }

  /** The parameter loop of `mime_charset`: the first valid charset wins. */
  method ScanParams(input: string, semi: nat, end: nat) returns (charset: Option<string>)
    requires semi <= end <= |input| && (semi < end ==> input[semi] == ';')
    ensures charset == FirstCharset(input, semi, end)
  {
    hide Find, SkipSpace, DropSpace, ReadParam;
    charset := None;
    var position := semi;
    while position < end
      invariant position <= end && (position < end ==> input[position] == ';')
      invariant OrElse(charset, FirstCharset(input, position, end)) == FirstCharset(input, semi, end)
      decreases end - position
    {
      var p := ScanParam(input, position, end);
      if GivesCharset(p) && charset.None? {
        charset := Some(p.value);
      }
      position := p.next;
    }
  }

  /** One turn of that loop, from a separator to the next. */
  method ScanParam(input: string, semi: nat, end: nat) returns (p: Param)
    requires semi < end <= |input| && input[semi] == ';'
    ensures p == ReadParam(input, semi, end)
  {
    hide Find, SkipSpace, ReadValue;
    var nameStart := ScanSpace(input, semi + 1, end);
    var position := ScanTo(input, nameStart, end, ';', '=');
    var name := input[nameStart..position];
    if position < end && input[position] == ';' {
      return Skipped(position);
    }
    if position == end {
      return Skipped(end);
    }
    p := ScanValue(input, name, position + 1, end);
  }

  method ScanValue(input: string, name: string, from: nat, end: nat) returns (p: Param)
    requires from <= end <= |input|
    ensures p == ReadValue(input, name, from, end)
  {
    hide Find, DropSpace, Quoted;
    if from == end {
      return Skipped(end);
    }
    if input[from] == '"' {
      var position, value := ReadQuoted(input, from + 1, end);
      return Named(name, value, position);
    }
    var position := ScanTo(input, from, end, ';', ';');
    var valueEnd := TrimSpace(input, from, position);
    if valueEnd == from {
      return Skipped(position);
    }
    p := Named(name, input[from..valueEnd], position);
  }

  /** The quoted branch of `mime_charset`: the value, then everything up to the next separator. */
  method ReadQuoted(input: string, i: nat, end: nat) returns (position: nat, value: string)
    requires i <= end <= |input|
    ensures var q := Quoted(input, i, end); value == q.0 && position == Find(input, q.1, end, ';', ';')
  {
    hide Find, Quoted;
    position, value := i, "";
    ghost var whole := Quoted(input, i, end);
    assert "" + whole.0 == whole.0;
    var closed := false;
    while position < end && !closed
      invariant i <= position <= end
      invariant !closed ==> var q := Quoted(input, position, end); value + q.0 == whole.0 && q.1 == whole.1
      invariant closed ==> value == whole.0 && position == whole.1
      decreases end - position, !closed
    {
      QuotedStep(input, position, end, value);
      if input[position] == '"' {
        position := position + 1;
        closed := true;
      } else if input[position] == '\\' {
        position := position + 1;
        if position == end {
          value := value + "\\";
          closed := true;
        } else {
          value := value + [input[position]];
          position := position + 1;
        }
      } else {
        value := value + [input[position]];
        position := position + 1;
      }
    }
    QuotedStep(input, position, end, value);
    position := ScanTo(input, position, end, ';', ';');
  }

  /** One character of a quoted string, with what was collected before it. */
  lemma QuotedStep(s: string, i: nat, end: nat, value: string)
    requires i <= end <= |s|
    ensures var q := Quoted(s, i, end);
      if i == end then value + q.0 == value && q.1 == end
      else if s[i] == '"' then value + q.0 == value && q.1 == i + 1
      else if s[i] == '\\' && i + 1 == end then value + q.0 == value + "\\" && q.1 == end
      else
        var k := if s[i] == '\\' then i + 2 else i + 1;
        var more := Quoted(s, k, end);
        value + q.0 == value + [s[k - 1]] + more.0 && q.1 == more.1
  {
  }

  // ---------------------------------------------------------------- round trip

  /** A character inside quotes, written bare or after a backslash. */
  datatype Lit = Lit(c: char, escaped: bool)

  /** The ways a parameter can be written; `gap` is whitespace, `junk` what follows a closing quote. */
  datatype Written =
    | InQuotes(gap: string, name: string, lits: seq<Lit>, junk: string)
    | Bare(gap: string, name: string, value: string, trail: string)
    | NoValue(gap: string, name: string, blank: string)
    | NoEquals(gap: string, text: string)

  function Chars(lits: seq<Lit>): string {
    if lits == [] then "" else [lits[0].c] + Chars(lits[1..])
  }

  function Literal(lits: seq<Lit>): string {
    if lits == [] then ""
    else (if lits[0].escaped then ['\\', lits[0].c] else [lits[0].c]) + Literal(lits[1..])
  }

  predicate Without(s: string, a: char, b: char) {
    forall i :: 0 <= i < |s| ==> s[i] != a && s[i] != b
  }

  /** A quote or a backslash is never written bare. */
  predicate Escaped(lits: seq<Lit>) {
    forall i :: 0 <= i < |lits| ==> (lits[i].c == '"' || lits[i].c == '\\' ==> lits[i].escaped)
  }

  predicate NameFits(gap: string, name: string) {
    AllSpace(gap) && Without(name, ';', '=') && (name != "" ==> !IsSpace(name[0]))
  }

  predicate Fits(w: Written) {
    match w
    case InQuotes(gap, name, lits, junk) => NameFits(gap, name) && Escaped(lits) && Without(junk, ';', ';')
    case Bare(gap, name, value, trail) =>
      && NameFits(gap, name) && AllSpace(trail)
      && value != "" && Without(value, ';', ';') && value[0] != '"' && !IsSpace(value[|value| - 1])
    case NoValue(gap, name, blank) => NameFits(gap, name) && AllSpace(blank)
    case NoEquals(gap, text) => NameFits(gap, text)
  }

  function Text(w: Written): string {
    match w
    case InQuotes(gap, name, lits, junk) => ";" + (gap + (name + ("=" + ("\"" + (Literal(lits) + ("\"" + junk))))))
    case Bare(gap, name, value, trail) => ";" + (gap + (name + ("=" + (value + trail))))
    case NoValue(gap, name, blank) => ";" + (gap + (name + ("=" + blank)))
    case NoEquals(gap, text) => ";" + (gap + text)
  }

  function Texts(ws: seq<Written>): string {
    if ws == [] then "" else Text(ws[0]) + Texts(ws[1..])
  }

  /** What the parameter means, whatever way it is written. */
  function Meaning(w: Written): Option<(string, string)> {
    match w
    case InQuotes(_, name, lits, _) => Some((name, Chars(lits)))
    case Bare(_, name, value, _) => Some((name, value))
    case NoValue(_, _, _) => None
    case NoEquals(_, _) => None
  }

  predicate IsValidCharset(w: Written) {
    var m := Meaning(w);
    m.Some? && IsToken(m.value.0) && IsCharset(m.value.0) && IsQuotable(m.value.1)
  }

  /** The value of the first valid parameter named charset. */
  function FirstMeant(ws: seq<Written>): Option<string> {
    if ws == [] then None
    else if IsValidCharset(ws[0]) then Some(Meaning(ws[0]).value.1)
    else FirstMeant(ws[1..])
  }

  /** `t` stands in `s` at `i`. */
  predicate At(s: string, i: nat, t: string) {
    i + |t| <= |s| && s[i..i + |t|] == t
  }

  lemma AtChar(s: string, i: nat, t: string, k: nat)
    requires At(s, i, t) && k < |t|
    ensures i + k < |s| && s[i + k] == t[k]
  {
    assert s[i..i + |t|][k] == t[k];
  }

  lemma AtAll(s: string, i: nat, t: string)
    requires At(s, i, t)
    ensures i + |t| <= |s| && forall j :: i <= j < i + |t| ==> s[j] == t[j - i]
  {
    forall j | i <= j < i + |t|
      ensures s[j] == t[j - i]
    {
      AtChar(s, i, t, j - i);
    }
  }

  lemma AtSlice(s: string, i: nat, t: string)
    requires At(s, i, t)
    ensures i + |t| <= |s| && s[i..i + |t|] == t
  {
  }

  lemma AtParts(s: string, i: nat, a: string, b: string)
    requires At(s, i, a + b)
    ensures At(s, i, a) && At(s, i + |a|, b) && i + |a| + |b| <= |s|
  {
    var t := s[i..i + |a + b|];
    assert t[..|a|] == a && t[|a|..] == b;
    assert s[i..i + |a|] == t[..|a|];
    assert s[i + |a|..i + |a| + |b|] == t[|a|..];
  }

  lemma FindIs(s: string, i: nat, t: string, end: nat, a: char, b: char)
    requires At(s, i, t) && i + |t| <= end <= |s| && Without(t, a, b)
    requires i + |t| < end ==> s[i + |t|] == a || s[i + |t|] == b
    ensures Find(s, i, end, a, b) == i + |t|
  {
    AtAll(s, i, t);
    assert !(Find(s, i, end, a, b) < i + |t|);
  }

  lemma SkipIs(s: string, i: nat, t: string, end: nat)
    requires At(s, i, t) && i + |t| <= end <= |s| && AllSpace(t)
    requires i + |t| < end ==> !IsSpace(s[i + |t|])
    ensures SkipSpace(s, i, end) == i + |t|
  {
    AtAll(s, i, t);
    assert !(SkipSpace(s, i, end) < i + |t|);
  }

  lemma DropIs(s: string, i: nat, last: nat, end: nat)
    requires i <= last <= end <= |s| && (i < last ==> !IsSpace(s[last - 1]))
    requires forall j :: last <= j < end ==> IsSpace(s[j])
    ensures DropSpace(s, i, end) == last
  {
    var r := DropSpace(s, i, end);
    assert !(r > last);
  }

  lemma {:induction false} QuotedIs(s: string, i: nat, lits: seq<Lit>, end: nat)
    requires At(s, i, Literal(lits)) && i + |Literal(lits)| < end <= |s| && s[i + |Literal(lits)|] == '"' && Escaped(lits)
    ensures Quoted(s, i, end) == (Chars(lits), i + |Literal(lits)| + 1)
    decreases |lits|
  {
    if lits != [] {
      var head := if lits[0].escaped then ['\\', lits[0].c] else [lits[0].c];
      AtParts(s, i, head, Literal(lits[1..]));
      AtChar(s, i, head, 0);
      AtChar(s, i, head, |head| - 1);
      QuotedIs(s, i + |head|, lits[1..], end);
    }
  }

  lemma NameParts(s: string, i: nat, gap: string, name: string, rest: string)
    requires At(s, i, ";" + (gap + (name + rest)))
    ensures i + 1 + |gap| + |name| + |rest| <= |s|
    ensures At(s, i + 1, gap) && At(s, i + 1 + |gap|, name) && At(s, i + 1 + |gap| + |name|, rest)
  {
    hide At;
    AtParts(s, i, ";", gap + (name + rest));
    AtParts(s, i + 1, gap, name + rest);
    AtParts(s, i + 1 + |gap|, name, rest);
  }

  /** The name of a parameter, up to the character that ends it. */
  lemma NameIs(s: string, i: nat, gap: string, name: string, rest: string, end: nat)
    requires At(s, i, ";" + (gap + (name + rest))) && NameFits(gap, name)
    requires i + 1 + |gap| + |name| + |rest| <= end <= |s|
    requires var stop := i + 1 + |gap| + |name|; stop < end ==> s[stop] == ';' || s[stop] == '='
    ensures var from := SkipSpace(s, i + 1, end);
      && from == i + 1 + |gap| && Find(s, from, end, ';', '=') == from + |name| && s[from..from + |name|] == name
      && At(s, from + |name|, rest)
  {
    hide At, Find, SkipSpace, AllSpace, Without;
    NameParts(s, i, gap, name, rest);
    var from := i + 1 + |gap|;
    if name != "" {
      AtChar(s, from, name, 0);
    }
    SkipIs(s, i + 1, gap, end);
    FindIs(s, from, name, end, ';', '=');
    AtSlice(s, from, name);
  }

  /** The character at which the name stops. */
  lemma NameStop(s: string, i: nat, gap: string, name: string, rest: string)
    requires At(s, i, ";" + (gap + (name + rest))) && rest != ""
    ensures var stop := i + 1 + |gap| + |name|; stop < |s| && s[stop] == rest[0]
  {
    hide At;
    NameParts(s, i, gap, name, rest);
    AtChar(s, i + 1 + |gap| + |name|, rest, 0);
  }

  /** Reading a parameter is reading its value, once the name and the equals sign are passed. */
  lemma ReadNamed(s: string, i: nat, gap: string, name: string, value: string, end: nat)
    requires At(s, i, ";" + (gap + (name + ("=" + value)))) && NameFits(gap, name)
    requires i + 2 + |gap| + |name| + |value| <= end <= |s|
    ensures var from := i + 2 + |gap| + |name|;
      At(s, from, value) && ReadParam(s, i, end) == ReadValue(s, name, from, end)
  {
    hide At, Find, SkipSpace, ReadValue, NameFits;
    NameStop(s, i, gap, name, "=" + value);
    NameIs(s, i, gap, name, "=" + value, end);
    AtParts(s, i + 1 + |gap| + |name|, "=", value);
  }

  lemma QuotedValue(s: string, name: string, from: nat, lits: seq<Lit>, junk: string, end: nat)
    requires At(s, from, "\"" + (Literal(lits) + ("\"" + junk))) && Escaped(lits) && Without(junk, ';', ';')
    requires var stop := from + 2 + |Literal(lits)| + |junk|; stop <= end <= |s| && (stop < end ==> s[stop] == ';')
    ensures ReadValue(s, name, from, end) == Named(name, Chars(lits), from + 2 + |Literal(lits)| + |junk|)
  {
    hide At, Find, DropSpace, Quoted, Literal, Escaped, Without;
    var inner := Literal(lits);
    AtParts(s, from, "\"", inner + ("\"" + junk));
    AtChar(s, from, "\"", 0);
    AtParts(s, from + 1, inner, "\"" + junk);
    AtParts(s, from + 1 + |inner|, "\"", junk);
    AtChar(s, from + 1 + |inner|, "\"", 0);
    QuotedIs(s, from + 1, lits, end);
    FindIs(s, from + 2 + |inner|, junk, end, ';', ';');
  }

  lemma ReadInQuotes(s: string, i: nat, w: Written, end: nat)
    requires w.InQuotes? && Fits(w) && At(s, i, Text(w)) && i + |Text(w)| <= end <= |s|
    requires i + |Text(w)| < end ==> s[i + |Text(w)|] == ';'
    ensures ReadParam(s, i, end) == Named(w.name, Chars(w.lits), i + |Text(w)|)
  {
    hide At, Literal, ReadParam, ReadValue, NameFits, Escaped, Without;
    ReadNamed(s, i, w.gap, w.name, "\"" + (Literal(w.lits) + ("\"" + w.junk)), end);
    QuotedValue(s, w.name, i + 2 + |w.gap| + |w.name|, w.lits, w.junk, end);
  }

  lemma SpaceAt(s: string, i: nat, t: string)
    requires At(s, i, t) && AllSpace(t)
    ensures i + |t| <= |s| && forall j :: i <= j < i + |t| ==> IsSpace(s[j])
  {
    forall j | i <= j < i + |t|
      ensures IsSpace(s[j])
    {
      AtChar(s, i, t, j - i);
    }
  }

  lemma ReadBare(s: string, i: nat, w: Written, end: nat)
    requires w.Bare? && Fits(w) && At(s, i, Text(w)) && i + |Text(w)| <= end <= |s|
    requires i + |Text(w)| < end ==> s[i + |Text(w)|] == ';'
    ensures ReadParam(s, i, end) == Named(w.name, w.value, i + |Text(w)|)
  {
    hide At, Find, DropSpace, ReadParam, NameFits, IsSpace, AllSpace, Without;
    var value := w.value + w.trail;
    ReadNamed(s, i, w.gap, w.name, value, end);
    var from := i + 2 + |w.gap| + |w.name|;
    AtParts(s, from, w.value, w.trail);
    AtChar(s, from, w.value, 0);
    AtChar(s, from, w.value, |w.value| - 1);
    AtSlice(s, from, w.value);
    SpaceHasNo(w.trail, ';');
    NeitherHas(w.value, w.trail, ';');
    FindIs(s, from, value, end, ';', ';');
    SpaceAt(s, from + |w.value|, w.trail);
    DropIs(s, from, from + |w.value|, from + |value|);
  }

  lemma SpaceHasNo(t: string, c: char)
    requires AllSpace(t) && (c == ';' || c == '/')
    ensures Without(t, c, c)
  {
  }

  lemma NeitherHas(a: string, b: string, c: char)
    requires Without(a, c, c) && Without(b, c, c)
    ensures Without(a + b, c, c)
  {
  }

  lemma ReadNoValue(s: string, i: nat, w: Written, end: nat)
    requires w.NoValue? && Fits(w) && At(s, i, Text(w)) && i + |Text(w)| <= end <= |s|
    requires i + |Text(w)| < end ==> s[i + |Text(w)|] == ';'
    ensures ReadParam(s, i, end) == Skipped(i + |Text(w)|)
  {
    hide Find, DropSpace, ReadParam, NameFits;
    ReadNamed(s, i, w.gap, w.name, w.blank, end);
    var from := i + 2 + |w.gap| + |w.name|;
    SpaceAt(s, from, w.blank);
    SpaceHasNo(w.blank, ';');
    if from < end {
      FindIs(s, from, w.blank, end, ';', ';');
      DropIs(s, from, from, from + |w.blank|);
    }
  }

  lemma ReadNoEquals(s: string, i: nat, w: Written, end: nat)
    requires w.NoEquals? && Fits(w) && At(s, i, Text(w)) && i + |Text(w)| <= end <= |s|
    requires i + |Text(w)| < end ==> s[i + |Text(w)|] == ';'
    ensures ReadParam(s, i, end) == Skipped(i + |Text(w)|)
  {
    hide Find, SkipSpace, ReadValue, NameFits;
    assert w.text + "" == w.text;
    NameIs(s, i, w.gap, w.text, "", end);
  }

  lemma ParamReads(s: string, i: nat, w: Written, end: nat)
    requires Fits(w) && At(s, i, Text(w)) && i + |Text(w)| <= end <= |s|
    requires i + |Text(w)| < end ==> s[i + |Text(w)|] == ';'
    ensures var p := ReadParam(s, i, end);
      && p.next == i + |Text(w)|
      && GivesCharset(p) == IsValidCharset(w)
      && (GivesCharset(p) ==> p.value == Meaning(w).value.1)
  {
    hide At, Text, Fits, ReadParam;
    match w {
      case InQuotes(_, _, _, _) => ReadInQuotes(s, i, w, end);
      case Bare(_, _, _, _) => ReadBare(s, i, w, end);
      case NoValue(_, _, _) => ReadNoValue(s, i, w, end);
      case NoEquals(_, _) => ReadNoEquals(s, i, w, end);
    }
  }

  /** Reading the text of the parameters finds what they mean. */
  lemma {:induction false} ParamsRead(s: string, i: nat, ws: seq<Written>, end: nat)
    requires (forall k :: 0 <= k < |ws| ==> Fits(ws[k])) && At(s, i, Texts(ws)) && i + |Texts(ws)| == end <= |s|
    ensures FirstCharset(s, i, end) == FirstMeant(ws)
    decreases |ws|
  {
    hide At, Fits, ReadParam, Text, GivesCharset, IsValidCharset, Meaning;
    if ws != [] {
      var w, more := ws[0], Texts(ws[1..]);
      AtParts(s, i, Text(w), more);
      if more != "" {
        TextStarts(ws[1..]);
        AtChar(s, i + |Text(w)|, more, 0);
      }
      ParamReads(s, i, w, end);
      ParamsRead(s, i + |Text(w)|, ws[1..], end);
    }
  }

  lemma TextStarts(ws: seq<Written>)
    ensures Texts(ws) != "" ==> Texts(ws)[0] == ';'
  {
  }

  lemma TokenHas(t: string)
    requires IsToken(t)
    ensures t != "" && Without(t, '/', '/') && Without(t, ';', ';') && !IsSpace(t[0]) && !IsSpace(t[|t| - 1])
  {
    assert forall i :: 0 <= i < |t| ==> IsTokenChar(t[i]);
    assert IsTokenChar(t[0]) && IsTokenChar(t[|t| - 1]);
  }

  /** A media type: type, subtype and parameters, with whitespace where it is allowed. */
  function MediaType(before: string, kind: string, subtype: string, gap: string, ws: seq<Written>, behind: string): string {
    before + (kind + ("/" + (subtype + (gap + (Texts(ws) + behind)))))
  }

  /**
    The charset of any well-formed media type, however its parameters are
    written, is the value of its first valid parameter named charset.
  */
  lemma CharsetRoundTrip(before: string, kind: string, subtype: string, gap: string, ws: seq<Written>, behind: string)
    requires IsToken(kind) && IsToken(subtype) && AllSpace(before) && AllSpace(gap) && AllSpace(behind)
    requires forall k :: 0 <= k < |ws| ==> Fits(ws[k])
    requires var core := subtype + (gap + Texts(ws)); !IsSpace(core[|core| - 1])
    ensures Charset(MediaType(before, kind, subtype, gap, ws, behind)) == FirstMeant(ws)
  {
    hide At, Find, SkipSpace, DropSpace, FirstCharset, Texts, Fits, IsToken, AllSpace, Essence, FirstMeant, MediaType;
    var params := Texts(ws);
    var s := MediaType(before, kind, subtype, gap, ws, behind);
    PiecesAt(before, kind, subtype, gap, ws, behind);
    var start := |before|;
    var sub := start + |kind| + 1;
    var end := sub + |subtype| + |gap| + |params|;
    TokenHas(kind);
    TokenHas(subtype);
    AtChar(s, start, kind, 0);
    SkipIs(s, 0, before, |s|);
    SpaceAt(s, end, behind);
    LastInk(s, sub, subtype, gap, params);
    DropIs(s, start, end, |s|);
    TextStarts(ws);
    EssenceRead(s, start, kind, subtype, gap, params, end);
    ParamsRead(s, sub + |subtype| + |gap|, ws, end);
  }

  /** Where the pieces of a media type stand. */
  lemma PiecesAt(before: string, kind: string, subtype: string, gap: string, ws: seq<Written>, behind: string)
    ensures var s := MediaType(before, kind, subtype, gap, ws, behind);
      var sub := |before| + |kind| + 1;
      var params := Texts(ws);
      && |s| == sub + |subtype| + |gap| + |params| + |behind|
      && At(s, 0, before) && At(s, |before|, kind) && At(s, |before| + |kind|, "/")
      && At(s, sub, subtype) && At(s, sub + |subtype|, gap) && At(s, sub + |subtype| + |gap|, params)
      && At(s, sub + |subtype| + |gap| + |params|, behind)
  {
    hide At, Texts;
    var params := Texts(ws);
    var s := MediaType(before, kind, subtype, gap, ws, behind);
    WholeAt(s);
    var tail := subtype + (gap + (params + behind));
    AtParts(s, 0, before, kind + ("/" + tail));
    AtParts(s, |before|, kind, "/" + tail);
    AtParts(s, |before| + |kind|, "/", tail);
    var sub := |before| + |kind| + 1;
    AtParts(s, sub, subtype, gap + (params + behind));
    AtParts(s, sub + |subtype|, gap, params + behind);
    AtParts(s, sub + |subtype| + |gap|, params, behind);
  }

  lemma WholeAt(s: string)
    ensures At(s, 0, s)
  {
  }

  lemma LastInk(s: string, sub: nat, subtype: string, gap: string, params: string)
    requires At(s, sub, subtype) && At(s, sub + |subtype|, gap) && At(s, sub + |subtype| + |gap|, params)
    requires var core := subtype + (gap + params); core != "" && !IsSpace(core[|core| - 1])
    ensures var end := sub + |subtype| + |gap| + |params|; end <= |s| && !IsSpace(s[end - 1])
  {
    if params != "" {
      AtChar(s, sub + |subtype| + |gap|, params, |params| - 1);
    } else if gap != "" {
      AtChar(s, sub + |subtype|, gap, |gap| - 1);
    } else {
      AtChar(s, sub, subtype, |subtype| - 1);
    }
  }

  lemma EssenceRead(s: string, start: nat, kind: string, subtype: string, gap: string, params: string, end: nat)
    requires IsToken(kind) && IsToken(subtype) && AllSpace(gap) && (params != "" ==> params[0] == ';')
    requires At(s, start, kind) && At(s, start + |kind|, "/") && At(s, start + |kind| + 1, subtype)
    requires At(s, start + |kind| + 1 + |subtype|, gap) && At(s, start + |kind| + 1 + |subtype| + |gap|, params)
    requires end == start + |kind| + 1 + |subtype| + |gap| + |params| <= |s|
    ensures Essence(s, start, end) == Some(start + |kind| + 1 + |subtype| + |gap|)
  {
    hide At, Find, DropSpace, IsToken, AllSpace;
    var sub := start + |kind| + 1;
    TokenHas(kind);
    AtChar(s, start + |kind|, "/", 0);
    FindIs(s, start, kind, end, '/', '/');
    AtSlice(s, start, kind);
    AtSlice(s, sub, subtype);
    SubtypeRead(s, sub, subtype, gap, params, end);
  }

  lemma SubtypeRead(s: string, sub: nat, subtype: string, gap: string, params: string, end: nat)
    requires IsToken(subtype) && AllSpace(gap) && (params != "" ==> params[0] == ';')
    requires At(s, sub, subtype) && At(s, sub + |subtype|, gap) && At(s, sub + |subtype| + |gap|, params)
    requires end == sub + |subtype| + |gap| + |params| <= |s|
    ensures var semi := Find(s, sub, end, ';', ';');
      semi == sub + |subtype| + |gap| && DropSpace(s, sub, semi) == sub + |subtype|
  {
    hide At, Find, DropSpace, IsToken, AllSpace, Without;
    TokenHas(subtype);
    SpaceHasNo(gap, ';');
    NeitherHas(subtype, gap, ';');
    var stop := sub + |subtype| + |gap|;
    if params != "" {
      AtChar(s, stop, params, 0);
    }
    AtJoin(s, sub, subtype, gap);
    FindIs(s, sub, subtype + gap, end, ';', ';');
    AtChar(s, sub, subtype, |subtype| - 1);
    SpaceAt(s, sub + |subtype|, gap);
    DropIs(s, sub, sub + |subtype|, stop);
  }

  lemma AtJoin(s: string, i: nat, a: string, b: string)
    requires At(s, i, a) && At(s, i + |a|, b)
    ensures At(s, i, a + b)
  {
    assert s[i..i + |a| + |b|] == s[i..i + |a|] + s[i + |a|..i + |a| + |b|];
  }
}
