/** JSON texts as sections 2 to 7 of RFC 8259 define them, over sequences of characters.
    `Value` is a concrete syntax tree: every JSON text, white space included, is `ValueText` of
    one, so a statement about all trees is a statement about all texts. */
module JsonText {
  // ---------------------------------------------------------------- strings (section 7)

  predicate IsHex(c: char) { '0' <= c <= '9' || 'a' <= c <= 'f' || 'A' <= c <= 'F' }

  function HexValue(c: char): nat
    requires IsHex(c)
  {
    if c <= '9' then c as nat - '0' as nat
    else if c <= 'F' then c as nat - 'A' as nat + 10
    else c as nat - 'a' as nat + 10
  }

  predicate IsSimpleEscape(c: char) { c in "\"\\/bfnrt" }

  /** Length of the `char` token a string body starts with; 0 when it starts with none. */
  function TokenLen(s: string): (k: nat)
    ensures k <= |s|
  {
    if s == [] then 0
    else if s[0] == '\\' then
      if |s| >= 2 && IsSimpleEscape(s[1]) then 2
      else if |s| >= 6 && s[1] == 'u' && IsHex(s[2]) && IsHex(s[3]) && IsHex(s[4]) && IsHex(s[5]) then 6
      else 0
    else if s[0] != '"' && s[0] as nat >= 0x20 then 1
    else 0
  }

  /** The characters between the quotes of a JSON string. */
  predicate Chars(s: string)
    decreases |s|
  {
    s == [] || (TokenLen(s) > 0 && Chars(s[TokenLen(s)..]))
  }

  predicate IsString(d: string) { |d| >= 2 && d[0] == '"' && d[|d| - 1] == '"' && Chars(Inner(d)) }

  function Inner(d: string): string
    requires |d| >= 2
  {
    d[1..|d| - 1]
  }

  function Utf16(c: char): seq<nat> {
    var n := c as nat;
    if n < 0x10000 then [n] else [0xD800 + (n - 0x10000) / 0x400, 0xDC00 + (n - 0x10000) % 0x400]
  }

  function Unescape(c: char): nat {
    if c == 'b' then 8 else if c == 'f' then 12 else if c == 'n' then 10 else if c == 'r' then 13
    else if c == 't' then 9 else c as nat
  }

  function TokenValue(s: string): seq<nat>
    requires TokenLen(s) > 0
  {
    if TokenLen(s) == 1 then Utf16(s[0])
    else if TokenLen(s) == 2 then [Unescape(s[1])]
    else [((HexValue(s[2]) * 16 + HexValue(s[3])) * 16 + HexValue(s[4])) * 16 + HexValue(s[5])]
  }

  /** The string's value as UTF-16 code units. */
  function Decode(s: string): seq<nat>
    requires Chars(s)
    decreases |s|
  {
    if s == [] then [] else TokenValue(s) + Decode(s[TokenLen(s)..])
  }

  lemma TokenOfConcat(a: string, b: string)
    requires TokenLen(a) > 0
    ensures TokenLen(a + b) == TokenLen(a) && TokenValue(a + b) == TokenValue(a)
    ensures (a + b)[TokenLen(a)..] == a[TokenLen(a)..] + b
  {
    assert forall i :: 0 <= i < |a| ==> (a + b)[i] == a[i];
  }

  /** Character runs concatenate, and so do their values. */
  lemma {:induction false} CharsConcat(a: string, b: string)
    requires Chars(a) && Chars(b)
    ensures Chars(a + b) && Decode(a + b) == Decode(a) + Decode(b)
    decreases |a|
  {
    hide TokenLen, TokenValue;
    if a == [] {
      assert a + b == b;
    } else {
      TokenOfConcat(a, b);
      CharsConcat(a[TokenLen(a)..], b);
    }
  }

  // ---------------------------------------------------------------- what a string says

  function HexDigit(d: nat): char
    requires d < 16
  {
    "0123456789abcdef"[d]
  }

  function EscapeDigits(a: nat, b: nat, c: nat, d: nat): string
    requires a < 16 && b < 16 && c < 16 && d < 16
  {
    ['\\', 'u', HexDigit(a), HexDigit(b), HexDigit(c), HexDigit(d)]
  }

  /** A code unit written as an escape. */
  function EscapeUnit(n: nat): string
    requires n < 0x10000
  {
    EscapeDigits(n / 0x1000, n / 0x100 % 16, n / 16 % 16, n % 16)
  }

  function EscapeAll(units: seq<nat>): string
    requires forall k :: 0 <= k < |units| ==> units[k] < 0x10000
  {
    if units == [] then [] else EscapeUnit(units[0]) + EscapeAll(units[1..])
  }

  lemma EscapeMeans(n: nat)
    requires n < 0x10000
    ensures |EscapeUnit(n)| == 6 && TokenLen(EscapeUnit(n)) == 6 && TokenValue(EscapeUnit(n)) == [n]
  {
    hide TokenLen, TokenValue, EscapeDigits;
    var a, b, c, d := n / 0x1000, n / 0x100 % 16, n / 16 % 16, n % 16;
    DigitsMean(a, b, c, d);
    assert ((a * 16 + b) * 16 + c) * 16 + d == n;
  }

  lemma DigitsMean(a: nat, b: nat, c: nat, d: nat)
    requires a < 16 && b < 16 && c < 16 && d < 16
    ensures var s := EscapeDigits(a, b, c, d);
            |s| == 6 && TokenLen(s) == 6 && TokenValue(s) == [((a * 16 + b) * 16 + c) * 16 + d]
  {
    hide HexDigit, IsHex, HexValue;
    DigitMeans(a);
    DigitMeans(b);
    DigitMeans(c);
    DigitMeans(d);
  }

  lemma DigitMeans(d: nat)
    requires d < 16
    ensures IsHex(HexDigit(d)) && HexValue(HexDigit(d)) == d
  {
  }

  /** Every sequence of code units can be written, and is read back as it was. */
  lemma {:induction false} EscapesRoundTrip(units: seq<nat>)
    requires forall k :: 0 <= k < |units| ==> units[k] < 0x10000
    ensures Chars(EscapeAll(units)) && Decode(EscapeAll(units)) == units
    decreases |units|
  {
    hide EscapeUnit;
    if units != [] {
      var first, rest := EscapeUnit(units[0]), EscapeAll(units[1..]);
      EscapesRoundTrip(units[1..]);
      EscapeMeans(units[0]);
      TokenOfConcat(first, rest);
      assert first[6..] == [] && [] + rest == rest;
      assert units == [units[0]] + units[1..];
    }
  }

  /** Text without quotes, escapes and control characters says itself. */
  lemma {:induction false} PlainSaysItself(s: string)
    requires forall k :: 0 <= k < |s| ==> 0x20 <= s[k] as nat < 0xD800 && s[k] != '"' && s[k] != '\\'
    ensures Chars(s) && |Decode(s)| == |s| && forall k :: 0 <= k < |s| ==> Decode(s)[k] == s[k] as nat
  {
    if s != [] {
      PlainSaysItself(s[1..]);
    }
  }

  /** A two-character escape says its character. */
  lemma EscapesSay(escape: char)
    requires escape in "\"\\/bfnrt"
    ensures TokenLen(['\\', escape]) == 2
    ensures TokenValue(['\\', escape]) ==
            [match escape case 'b' => 0x08 case 'f' => 0x0C case 'n' => 0x0A case 'r' => 0x0D case 't' => 0x09
             case '"' => 0x22 case '\\' => 0x5C case _ => 0x2F]
  {
  }

  /** A character beyond the basic plane says its surrogate pair. */
  lemma PairSays(c: char)
    requires c as nat >= 0x10000
    ensures TokenLen([c]) == 1 && |TokenValue([c])| == 2
    ensures var hi, lo := TokenValue([c])[0], TokenValue([c])[1];
            && 0xD800 <= hi < 0xDC00 <= lo < 0xE000 && c as nat == 0x10000 + (hi - 0xD800) * 0x400 + (lo - 0xDC00)
  {
  }

  // ---------------------------------------------------------------- values (sections 2 to 5)

  predicate IsWs(s: string) { forall i :: 0 <= i < |s| ==> s[i] in " \t\n\r" }

  /** `Atom` is a number, true, false or null: any run of the characters those can use. */
  datatype Value =
    Atom(text: string) | Str(chars: string) | Arr(ws: string, elems: Elems) | Obj(ws: string, members: Members)
  datatype Elems = NoElems | Elem(before: string, value: Value, after: string, rest: Elems)
  datatype Members =
    | NoMembers
    | Member(before: string, key: string, mid: string, before': string, value: Value, after: string, rest: Members)

  predicate IsAtom(s: string) {
    s != [] && forall i :: 0 <= i < |s| ==> 'a' <= s[i] <= 'z' || '0' <= s[i] <= '9' || s[i] in "-+.E"
  }

  predicate WellFormed(v: Value) {
    match v
    case Atom(text) => IsAtom(text)
    case Str(chars) => Chars(chars)
    case Arr(ws, elems) => IsWs(ws) && ElemsOk(elems)
    case Obj(ws, members) => IsWs(ws) && MembersOk(members)
  }

  predicate ElemsOk(es: Elems) {
    es.Elem? ==> IsWs(es.before) && WellFormed(es.value) && IsWs(es.after) && ElemsOk(es.rest)
  }

  predicate MembersOk(ms: Members) {
    ms.Member? ==>
      && IsWs(ms.before) && Chars(ms.key) && IsWs(ms.mid) && IsWs(ms.before') && WellFormed(ms.value) && IsWs(ms.after)
      && MembersOk(ms.rest)
  }

  function Quoted(s: string): string { "\"" + s + "\"" }

  function ValueText(v: Value): string {
    match v
    case Atom(text) => text
    case Str(chars) => Quoted(chars)
    case Arr(ws, elems) => "[" + ws + ElemsText(elems) + "]"
    case Obj(ws, members) => "{" + ws + MembersText(members) + "}"
  }

  function ElemsText(es: Elems): string {
    match es
    case NoElems => ""
    case Elem(before, value, after, rest) =>
      before + ValueText(value) + after + if rest.NoElems? then "" else "," + ElemsText(rest)
  }

  function MembersText(ms: Members): string {
    match ms
    case NoMembers => ""
    case Member(before, key, mid, before', value, after, rest) =>
      before + Quoted(key) + mid + ":" + before' + ValueText(value) + after +
      if rest.NoMembers? then "" else "," + MembersText(rest)
  }

  /** The merge hub's test on the first and last byte singles out exactly the string literals
      among all JSON texts, surrounding white space included. */
  lemma QuoteTestIsStringTest(before: string, v: Value, after: string)
    requires IsWs(before) && WellFormed(v) && IsWs(after)
    ensures var t := before + ValueText(v) + after;
            (|t| >= 2 && t[0] == '"' && t[|t| - 1] == '"') <==> (v.Str? && before == [] && after == [])
    ensures v.Str? && before == [] && after == [] ==> IsString(before + ValueText(v) + after)
  {
    var t := before + ValueText(v) + after;
    if before != [] { assert t[0] == before[0]; } else { assert t[0] == ValueText(v)[0]; }
    if after != [] { assert t[|t| - 1] == after[|after| - 1]; }
    if v.Str? && before == [] && after == [] {
      assert t == Quoted(v.chars) && Inner(t) == v.chars;
    }
  }
}
