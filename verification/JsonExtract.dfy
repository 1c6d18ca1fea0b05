/** ExtractJSONObject (runner/plan.go): cut the outermost JSON object out of a model's answer,
    past prose and markdown fences. `word` stands for unicode.IsLetter or unicode.IsDigit. */
module JsonExtract {
  import opened Wrappers
  import opened JsonText
  import opened Text

  // ---------------------------------------------------------------- the scanner

  datatype Scan = Scan(depth: int, inString: bool, escape: bool)

  const START := Scan(0, false, false)

  function Step(st: Scan, c: char): Scan {
    if st.escape then st.(escape := false)
    else if c == '\\' then st.(escape := st.inString)
    else if c == '"' then st.(inString := !st.inString)
    else if st.inString then st
    else if c == '{' then st.(depth := st.depth + 1)
    else if c == '}' then st.(depth := st.depth - 1)
    else st
  }

  /** `c` is the brace that brings the depth back to 0. */
  predicate Closes(st: Scan, c: char) { !st.escape && !st.inString && c == '}' && st.depth == 1 }

  /** Length of the text up to and including the closing brace. */
  function FindClose(text: string, st: Scan): (r: Option<nat>)
    ensures r.Some? ==> 0 < r.value <= |text|
  {
    if text == [] then None
    else if Closes(st, text[0]) then Some(1)
    else
      match FindClose(text[1..], Step(st, text[0]))
      case None => None
      case Some(k) => Some(k + 1)
  }

  function Balanced(text: string): string {
    var start := IndexOf(text, '{');
    if start < 0 then ""
    else
      match FindClose(text[start..], START)
      case None => ""
      case Some(k) => text[start..start + k]
  }

  /** Scanning on from `i` in state `st` finds the brace that scanning from `start` finds. */
  predicate ScanAt(text: string, start: nat, i: nat, st: Scan)
    requires start <= i <= |text|
  {
    var here := FindClose(text[i..], st);
    FindClose(text[start..], START) == if here.None? then None else Some(here.value + (i - start))
  }

  lemma ScanMore(text: string, start: nat, i: nat, st: Scan)
    requires start <= i < |text| && ScanAt(text, start, i, st)
    ensures if Closes(st, text[i]) then FindClose(text[start..], START) == Some(i + 1 - start)
            else ScanAt(text, start, i + 1, Step(st, text[i]))
  {
    assert text[i..][0] == text[i] && text[i..][1..] == text[i + 1..];
  }

  lemma ScanEnds(text: string, start: nat, st: Scan)
    requires start <= |text|
    ensures ScanAt(text, start, start, START)
    ensures ScanAt(text, start, |text|, st) ==> FindClose(text[start..], START) == None
  {
  }

  /** extractBalancedObject as the byte loop it is. */
  method ExtractBalanced(text: string) returns (r: string)
    ensures r == Balanced(text)
  {
    hide FindClose, ScanAt, IndexOf;
    var start := IndexOf(text, '{');
    if start < 0 {
      return "";
    }
    ScanEnds(text, start, START);
    var depth, inString, escape := 0, false, false;
    var i := start;
    while i < |text|
      invariant start <= i <= |text| && ScanAt(text, start, i, Scan(depth, inString, escape))
    {
      var c := text[i];
      ScanMore(text, start, i, Scan(depth, inString, escape));
      i := i + 1;
      if escape {
        escape := false;
        continue;
      }
      if c == '\\' {
        if inString {
          escape := true;
        }
        continue;
      }
      if c == '"' {
        inString := !inString;
        continue;
      }
      if inString {
        continue;
      }
      if c == '{' {
        depth := depth + 1;
      } else if c == '}' {
        depth := depth - 1;
        if depth == 0 {
          return text[start..i];
        }
      }
    }
    ScanEnds(text, start, Scan(depth, inString, escape));
    return "";
  }

  // ---------------------------------------------------------------- fences

  const FENCE := "```"

  predicate FenceAt(s: string, i: int) { 0 <= i <= |s| - 3 && s[i] == s[i + 1] == s[i + 2] == '`' }

  function LastFence(s: string): (r: int)
    ensures r == -1 || FenceAt(s, r)
    ensures forall i :: r < i ==> !FenceAt(s, i)
  {
    if |s| < 3 then -1
    else if FenceAt(s, |s| - 3) then |s| - 3
    else
      var r := LastFence(s[..|s| - 1]);
      assert forall i :: i < |s| - 3 && FenceAt(s, i) ==> FenceAt(s[..|s| - 1], i);
      r
  }

  predicate IsIdentifier(word: char -> bool, s: string) {
    s != [] && forall i :: 0 <= i < |s| ==> word(s[i]) || s[i] == '_' || s[i] == '-'
  }

  predicate IsTag(word: char -> bool, line: string) { Trim(line) == [] || IsIdentifier(word, Trim(line)) }

  function DropTag(word: char -> bool, rest: string): string {
    var idx := IndexOf(rest, '\n');
    if idx >= 0 && IsTag(word, rest[..idx]) then rest[idx + 1..] else rest
  }

  function StripFences(word: char -> bool, text: string): string {
    if !(FENCE <= text) then text
    else
      var rest := DropTag(word, text[3..]);
      var end := LastFence(rest);
      if end >= 0 then rest[..end] else rest
  }

  function Extract(word: char -> bool, raw: string): string {
    var trimmed := Trim(raw);
    if trimmed == [] then "" else Balanced(Trim(StripFences(word, trimmed)))
  }

  // ---------------------------------------------------------------- scanning a JSON text

  function Final(s: string, st: Scan): Scan { if s == [] then st else Final(s[1..], Step(st, s[0])) }

  /** Scanning `s` from `st` meets no closing brace. */
  predicate Quiet(s: string, st: Scan) { s == [] || (!Closes(st, s[0]) && Quiet(s[1..], Step(st, s[0]))) }

  lemma {:induction false} ScanConcat(a: string, b: string, st: Scan)
    ensures Final(a + b, st) == Final(b, Final(a, st))
    ensures Quiet(a + b, st) == (Quiet(a, st) && Quiet(b, Final(a, st)))
    decreases |a|
  {
    if a == [] {
      assert a + b == b;
    } else {
      ScanConcat(a[1..], b, Step(st, a[0]));
      assert (a + b)[1..] == a[1..] + b && (a + b)[0] == a[0];
    }
  }

  lemma {:induction false} SkipQuiet(a: string, b: string, st: Scan)
    requires Quiet(a, st)
    ensures var r := FindClose(b, Final(a, st));
            FindClose(a + b, st) == if r.None? then None else Some(|a| + r.value)
    decreases |a|
  {
    if a == [] {
      assert a + b == b;
    } else {
      SkipQuiet(a[1..], b, Step(st, a[0]));
      assert (a + b)[1..] == a[1..] + b && (a + b)[0] == a[0];
    }
  }

  /** Inside an object, at any depth, `s` leaves the scanner as it found it. */
  ghost predicate Neutral(s: string) {
    forall d :: d >= 1 ==> Quiet(s, Scan(d, false, false)) && Final(s, Scan(d, false, false)) == Scan(d, false, false)
  }

  lemma NeutralConcat(a: string, b: string)
    requires Neutral(a) && Neutral(b)
    ensures Neutral(a + b)
  {
    forall d | d >= 1
      ensures Quiet(a + b, Scan(d, false, false)) && Final(a + b, Scan(d, false, false)) == Scan(d, false, false)
    {
      ScanConcat(a, b, Scan(d, false, false));
    }
  }

  lemma {:induction false} PlainNeutral(s: string)
    requires forall i :: 0 <= i < |s| ==> s[i] !in "\"\\{}"
    ensures Neutral(s)
    decreases |s|
  {
    if s != [] {
      PlainNeutral(s[1..]);
      assert s == [s[0]] + s[1..];
      forall d | d >= 1
        ensures Quiet(s, Scan(d, false, false)) && Final(s, Scan(d, false, false)) == Scan(d, false, false)
      {
        assert Step(Scan(d, false, false), s[0]) == Scan(d, false, false);
      }
    }
  }

  lemma WsNeutral(s: string)
    requires IsWs(s)
    ensures Neutral(s)
  {
    PlainNeutral(s);
  }

  lemma {:induction false} CharsStay(s: string, d: int)
    requires Chars(s)
    ensures Quiet(s, Scan(d, true, false)) && Final(s, Scan(d, true, false)) == Scan(d, true, false)
    decreases |s|
  {
    if s != [] {
      var k := TokenLen(s);
      CharsStay(s[k..], d);
      ScanConcat(s[..k], s[k..], Scan(d, true, false));
      assert s == s[..k] + s[k..];
      TokenStays(s, d);
    }
  }

  /** One character token, escapes included, starts and ends inside the string. */
  lemma TokenStays(s: string, d: int)
    requires TokenLen(s) > 0
    ensures var t := s[..TokenLen(s)];
            Quiet(t, Scan(d, true, false)) && Final(t, Scan(d, true, false)) == Scan(d, true, false)
  {
    var t, st := s[..TokenLen(s)], Scan(d, true, false);
    if TokenLen(s) == 1 {
      assert t[1..] == [];
    } else {
      assert t[1..][0] == t[1] && t[1..][1..] == t[2..];
      assert Step(Step(st, t[0]), t[1]) == st;
      assert Final(t[1..], Step(st, t[0])) == Final(t[2..], st);
      assert Quiet(t[1..], Step(st, t[0])) == Quiet(t[2..], st);
      if TokenLen(s) == 2 {
        assert t[2..] == [];
      } else {
        HexStays(t[2..], d);
      }
    }
  }

  lemma {:induction false} HexStays(s: string, d: int)
    requires forall i :: 0 <= i < |s| ==> IsHex(s[i])
    ensures Quiet(s, Scan(d, true, false)) && Final(s, Scan(d, true, false)) == Scan(d, true, false)
    decreases |s|
  {
    if s != [] {
      HexStays(s[1..], d);
    }
  }

  lemma QuotedNeutral(s: string)
    requires Chars(s)
    ensures Neutral(Quoted(s))
  {
    forall d | d >= 1
      ensures Quiet(Quoted(s), Scan(d, false, false))
      ensures Final(Quoted(s), Scan(d, false, false)) == Scan(d, false, false)
    {
      var st := Scan(d, false, false);
      CharsStay(s, d);
      ScanConcat("\"" + s, "\"", st);
      ScanConcat("\"", s, st);
      OneStep('"', st);
      OneStep('"', Scan(d, true, false));
    }
  }

  lemma OneStep(c: char, st: Scan)
    ensures Final([c], st) == Step(st, c) && Quiet([c], st) == !Closes(st, c)
  {
    assert [c][1..] == [];
  }

  lemma {:induction false} ValueNeutral(v: Value)
    requires WellFormed(v)
    ensures Neutral(ValueText(v))
    decreases v
  {
    match v
    case Atom(text) => PlainNeutral(text);
    case Str(chars) => QuotedNeutral(chars);
    case Arr(ws, elems) =>
      PlainNeutral("[");
      WsNeutral(ws);
      ElemsNeutral(elems);
      PlainNeutral("]");
      NeutralConcat("[", ws);
      NeutralConcat("[" + ws, ElemsText(elems));
      NeutralConcat("[" + ws + ElemsText(elems), "]");
    case Obj(ws, members) =>
      BodyNeutral(ws, members);
      var body := ws + MembersText(members);
      assert ValueText(v) == ("{" + body) + "}";
      forall d | d >= 1
        ensures Quiet(ValueText(v), Scan(d, false, false))
        ensures Final(ValueText(v), Scan(d, false, false)) == Scan(d, false, false)
      {
        BracesScan(body, d);
      }
  }

  lemma BracesScan(body: string, d: nat)
    requires Neutral(body)
    ensures var st := Scan(d, false, false);
            && Quiet("{" + body, st) && Final("{" + body, st) == Scan(d + 1, false, false)
            && Final("{" + body + "}", st) == st
            && Quiet("{" + body + "}", st) == (d != 0)
  {
    var st := Scan(d, false, false);
    OneStep('{', st);
    ScanConcat("{", body, st);
    OneStep('}', Scan(d + 1, false, false));
    ScanConcat("{" + body, "}", st);
  }

  lemma {:induction false} BodyNeutral(ws: string, members: Members)
    requires IsWs(ws) && MembersOk(members)
    ensures Neutral(ws + MembersText(members))
    decreases members, 1
  {
    WsNeutral(ws);
    MembersNeutral(members);
    NeutralConcat(ws, MembersText(members));
  }

  lemma {:induction false} ElemsNeutral(es: Elems)
    requires ElemsOk(es)
    ensures Neutral(ElemsText(es))
    decreases es
  {
    match es
    case NoElems => PlainNeutral("");
    case Elem(before, value, after, rest) =>
      WsNeutral(before);
      ValueNeutral(value);
      WsNeutral(after);
      NeutralConcat(before, ValueText(value));
      NeutralConcat(before + ValueText(value), after);
      var head := before + ValueText(value) + after;
      if rest.NoElems? {
        assert ElemsText(es) == head;
      } else {
        ElemsNeutral(rest);
        PlainNeutral(",");
        NeutralConcat(",", ElemsText(rest));
        NeutralConcat(head, "," + ElemsText(rest));
      }
  }

  lemma {:induction false} MembersNeutral(ms: Members)
    requires MembersOk(ms)
    ensures Neutral(MembersText(ms))
    decreases ms, 0
  {
    match ms
    case NoMembers => PlainNeutral("");
    case Member(before, key, mid, before', value, after, rest) =>
      WsNeutral(before);
      QuotedNeutral(key);
      WsNeutral(mid);
      PlainNeutral(":");
      WsNeutral(before');
      ValueNeutral(value);
      WsNeutral(after);
      NeutralConcat(before, Quoted(key));
      NeutralConcat(before + Quoted(key), mid);
      NeutralConcat(before + Quoted(key) + mid, ":");
      NeutralConcat(before + Quoted(key) + mid + ":", before');
      NeutralConcat(before + Quoted(key) + mid + ":" + before', ValueText(value));
      NeutralConcat(before + Quoted(key) + mid + ":" + before' + ValueText(value), after);
      var head := before + Quoted(key) + mid + ":" + before' + ValueText(value) + after;
      if rest.NoMembers? {
        assert MembersText(ms) == head;
      } else {
        MembersNeutral(rest);
        PlainNeutral(",");
        NeutralConcat(",", MembersText(rest));
        NeutralConcat(head, "," + MembersText(rest));
      }
  }

  lemma ObjectText(v: Value)
    requires v.Obj?
    ensures ValueText(v) == "{" + (v.ws + MembersText(v.members)) + "}"
  {
  }

  /** From its first brace, the scanner closes exactly at the end of a JSON object. */
  lemma ObjectCloses(v: Value, tail: string)
    requires WellFormed(v) && v.Obj?
    ensures FindClose(ValueText(v) + tail, START) == Some(|ValueText(v)|)
  {
    var body := v.ws + MembersText(v.members);
    BodyNeutral(v.ws, v.members);
    ObjectText(v);
    hide Final, Quiet, Neutral, ValueText, MembersText;
    BracesScan(body, 0);
    SkipQuiet("{" + body, "}" + tail, START);
    assert ("}" + tail)[0] == '}';
    assert "{" + body + "}" + tail == ("{" + body) + ("}" + tail);
  }

  // ---------------------------------------------------------------- trimming lemmas

  lemma {:induction false} TrimRightKeepsFences(s: string)
    ensures TrimRight(s) <= s && (LastFence(TrimRight(s)) == -1 <==> LastFence(s) == -1)
  {
    if s != [] && IsSpace(s[|s| - 1]) {
      var front := s[..|s| - 1];
      TrimRightKeepsFences(front);
      FencesOfPrefix(front, s);
    }
  }

  /** A space after the text adds no fence. */
  lemma FencesOfPrefix(front: string, s: string)
    requires s != [] && front == s[..|s| - 1] && IsSpace(s[|s| - 1])
    ensures LastFence(front) == -1 <==> LastFence(s) == -1
  {
    var a, b := LastFence(front), LastFence(s);
    if a != -1 { assert FenceAt(s, a); }
    if b != -1 { assert FenceAt(front, b); }
  }

  /** Prose in front of an object is trimmed on its own; so is whatever follows. */
  lemma TrimAround(lead: string, v: Value, tail: string)
    requires v.Obj?
    ensures Trim(lead + ValueText(v) + tail) == TrimLeft(lead) + ValueText(v) + TrimRight(tail)
  {
    var t := ValueText(v);
    assert t[0] == '{' && t[|t| - 1] == '}';
    assert lead + t + tail == lead + (t + tail);
    TrimLeftConcat(lead, t + tail);
    assert TrimLeft(lead) + (t + tail) == (TrimLeft(lead) + t) + tail;
    TrimRightConcat(TrimLeft(lead) + t, tail);
  }

  /** From brace-free prose the balanced scan finds exactly the object. */
  lemma BalancedFinds(lead: string, v: Value, tail: string)
    requires WellFormed(v) && v.Obj? && '{' !in lead
    ensures Balanced(lead + ValueText(v) + tail) == ValueText(v)
  {
    hide FindClose;
    var t := ValueText(v);
    var text := lead + t + tail;
    assert t[0] == '{' && text[|lead|] == '{';
    var start := IndexOf(text, '{');
    assert forall i :: 0 <= i < |lead| ==> text[i] == lead[i];
    assert text[start..] == t + tail;
    ObjectCloses(v, tail);
    assert text[start..start + |t|] == t;
  }

  // ---------------------------------------------------------------- main results

  /** Any JSON object is recovered, byte for byte, from prose without an opening brace or a
      leading fence, whatever comes after it. */
  lemma ExtractFromProse(word: char -> bool, prose: string, v: Value, tail: string)
    requires WellFormed(v) && v.Obj? && '{' !in prose && !(FENCE <= TrimLeft(prose))
    ensures Extract(word, prose + ValueText(v) + tail) == ValueText(v)
  {
    hide ValueText, Balanced, TrimLeft, TrimRight, Trim, WellFormed;
    var t, lead, rest := ValueText(v), TrimLeft(prose), TrimRight(tail);
    TrimAround(prose, v, tail);
    var trimmed := lead + t + rest;
    NoFenceInFront(lead, v, rest);
    TrimLeftShape(prose);
    TrimAround(lead, v, rest);
    var k :| 0 <= k <= |prose| && lead == prose[k..];
    BalancedFinds(lead, v, TrimRight(rest));
  }

  lemma NoFenceInFront(lead: string, v: Value, rest: string)
    requires v.Obj? && !(FENCE <= lead)
    ensures lead + ValueText(v) + rest != [] && !(FENCE <= lead + ValueText(v) + rest)
  {
    hide ValueText;
    ObjectText(v);
    var t := ValueText(v);
    var trimmed := lead + t + rest;
    assert t[0] == '{' && trimmed[|lead|] == '{';
    assert FENCE[0] == FENCE[1] == FENCE[2] == '`';
    if |lead| >= 3 {
      assert trimmed[..3] == lead[..3];
    }
  }

  /** No fence straddles the borders of an object. */
  lemma FencesAround(gap: string, v: Value, rest: string)
    requires v.Obj?
    ensures var n := |gap| + |ValueText(v)|;
            forall i :: FenceAt(gap + ValueText(v) + rest, i) <==>
                        FenceAt(gap, i) || FenceAt(ValueText(v), i - |gap|) || FenceAt(rest, i - n)
  {
    var t := ValueText(v);
    var s, n := gap + t + rest, |gap| + |t|;
    assert t[0] == '{' && t[|t| - 1] == '}' && s[|gap|] == '{' && s[n - 1] == '}';
    assert forall i :: 0 <= i < |gap| ==> s[i] == gap[i];
    assert forall i :: 0 <= i < |t| ==> s[|gap| + i] == t[i];
    assert forall i :: 0 <= i < |rest| ==> s[n + i] == rest[i];
  }

  /** A fenced answer: optional language tag, text without an opening brace, the object, and
      anything after it. The object comes back if and only if a fence closes the block after it,
      or there is no further fence mark at all; in between lie the answers whose last fence mark
      sits in front of the object or inside one of its strings. */
  lemma ExtractFromFence(word: char -> bool, lead: string, line: string, gap: string, v: Value, tail: string)
    requires WellFormed(v) && v.Obj? && '{' !in gap
    requires TrimLeft(lead) == [] && '\n' !in line && IsTag(word, line)
    ensures Extract(word, lead + FENCE + line + "\n" + gap + ValueText(v) + tail) == ValueText(v) <==>
            LastFence(tail) >= 0 || (LastFence(gap) < 0 && LastFence(ValueText(v)) < 0)
  {
    hide ValueText, Balanced, LastFence, DropTag, Extract;
    var body := ValueText(v) + TrimRight(tail);
    var head := line + "\n" + gap;
    assert head + body == line + ("\n" + (gap + body));
    TagDropped(word, line, gap + body);
    FencedExtract(word, lead, head, gap, v, tail);
    assert lead + FENCE + head == lead + FENCE + line + "\n" + gap;
  }

  /** A fenced text whose tag line, if any, leaves `gap` in front of the object. */
  lemma FencedExtract(word: char -> bool, lead: string, head: string, gap: string, v: Value, tail: string)
    requires WellFormed(v) && v.Obj? && '{' !in gap && TrimLeft(lead) == []
    requires var body := ValueText(v) + TrimRight(tail); DropTag(word, head + body) == gap + body
    ensures Extract(word, lead + FENCE + head + ValueText(v) + tail) == ValueText(v) <==>
            LastFence(tail) >= 0 || (LastFence(gap) < 0 && LastFence(ValueText(v)) < 0)
  {
    hide ValueText, Balanced, LastFence, DropTag, Trim, TrimLeft, TrimRight, StripFences, WellFormed;
    var t, rest := ValueText(v), TrimRight(tail);
    TrimFenced(lead, head, v, tail);
    StripFenced(word, head, t + rest);
    assert gap + (t + rest) == gap + t + rest;
    CutAtLastFence(gap, v, rest);
    TrimRightKeepsFences(tail);
  }

  lemma TrimFenced(lead: string, head: string, v: Value, tail: string)
    requires v.Obj? && TrimLeft(lead) == []
    ensures Trim(lead + FENCE + head + ValueText(v) + tail) == FENCE + head + (ValueText(v) + TrimRight(tail))
  {
    hide ValueText, TrimRight, TrimLeft, Trim;
    var t, rest, open := ValueText(v), TrimRight(tail), FENCE + head;
    assert open[0] == '`' && !IsSpace('`');
    TrimLeftConcat(lead, open);
    assert [] + open == open;
    assert lead + FENCE + head == lead + open;
    TrimAround(lead + open, v, tail);
    assert open + t + rest == open + (t + rest);
  }

  lemma StripFenced(word: char -> bool, head: string, body: string)
    ensures var s := DropTag(word, head + body);
            StripFences(word, FENCE + head + body) == if LastFence(s) >= 0 then s[..LastFence(s)] else s
  {
    hide DropTag, LastFence;
    var all := FENCE + head + body;
    assert FENCE <= all && all[3..] == head + body;
  }

  lemma BraceIsNoTag(word: char -> bool, line: string)
    requires '{' in line && !word('{')
    ensures !IsTag(word, line)
  {
    TrimLeftHas(line, '{');
    TrimRightHas(TrimLeft(line), '{');
    var k :| 0 <= k < |Trim(line)| && Trim(line)[k] == '{';
  }

  /** Whether a tag line is dropped is decided in front of the object. */
  lemma TagOfHead(word: char -> bool, head: string, after: string)
    requires after != [] && after[0] == '{' && !word('{')
    ensures DropTag(word, head + after) == DropTag(word, head) + after
  {
    hide IsTag, IndexOf, DropTag;
    FirstBreak(head, after);
    if IndexOf(head, '\n') >= 0 {
      TagInside(word, head, after);
    } else {
      TagAcross(word, head, after);
    }
  }

  lemma TagInside(word: char -> bool, head: string, after: string)
    requires 0 <= IndexOf(head, '\n') == IndexOf(head + after, '\n')
    ensures DropTag(word, head + after) == DropTag(word, head) + after
  {
    hide IsTag, IndexOf;
    var all, a := head + after, IndexOf(head, '\n');
    assert all[..a] == head[..a];
    if IsTag(word, head[..a]) {
      assert all[a + 1..] == head[a + 1..] + after;
    }
  }

  lemma TagAcross(word: char -> bool, head: string, after: string)
    requires after != [] && after[0] == '{' && !word('{') && IndexOf(head, '\n') < 0
    requires var b := IndexOf(head + after, '\n'); b < 0 || b > |head|
    ensures DropTag(word, head + after) == DropTag(word, head) + after
  {
    hide IsTag, IndexOf;
    var all, b := head + after, IndexOf(head + after, '\n');
    if b >= 0 {
      assert all[..b][|head|] == '{';
      BraceIsNoTag(word, all[..b]);
    }
  }

  lemma FirstBreak(head: string, after: string)
    requires after != [] && after[0] == '{'
    ensures var a, b := IndexOf(head, '\n'), IndexOf(head + after, '\n');
            if a >= 0 then a == b else b < 0 || b > |head|
  {
    hide IndexOf;
    var all := head + after;
    var a, b := IndexOf(head, '\n'), IndexOf(all, '\n');
    assert forall i :: 0 <= i < |head| ==> all[i] == head[i];
    assert all[|head|] == '{';
    if a >= 0 {
      assert all[a] == '\n';
    } else {
      assert forall i :: 0 <= i < |head| ==> head[i] != '\n';
    }
  }

  ghost predicate TagLine(word: char -> bool, line: string, i: nat, j: nat) {
    && i <= j <= |line| && AllSpace(line[..i]) && AllSpace(line[j..])
    && forall k :: i <= k < j ==> word(line[k]) || line[k] == '_' || line[k] == '-'
  }

  lemma NoSpaceInTags()
    ensures !IsSpace('_') && !IsSpace('-')
  {
  }

  /** A tag line is space, then letters, digits, underscores and dashes, then space; any of the
      three may be missing. */
  lemma TagMeans(word: char -> bool, line: string)
    requires forall c :: IsSpace(c) ==> !word(c)
    ensures IsTag(word, line) <==> exists i: nat, j: nat :: TagLine(word, line, i, j)
  {
    hide IsSpace, Trim;
    if IsTag(word, line) {
      TrimMeans(line);
      var i: nat, j: nat :| TrimsTo(line, i, j) && Trim(line) == line[i..j];
      assert forall k :: i <= k < j ==> line[k] == line[i..j][k - i];
      assert TagLine(word, line, i, j);
    }
    if i: nat, j: nat :| TagLine(word, line, i, j) {
      if i < j {
        NoSpaceInTags();
        TrimsOnlyTo(line, i, j);
      } else {
        assert forall k :: 0 <= k < |line| ==> line[k] == if k < i then line[..i][k] else line[j..][k - j];
        BlankIff(line);
      }
    }
  }

  /** Every fenced answer, with or without a tag and with or without line breaks: text without an
      opening brace, the object, and anything after it. The object comes back if and only if a
      fence mark follows it, or none lies in front of it behind the tag line or inside it. */
  lemma ExtractFenced(word: char -> bool, lead: string, head: string, v: Value, tail: string)
    requires WellFormed(v) && v.Obj? && '{' !in head && TrimLeft(lead) == [] && !word('{')
    ensures Extract(word, lead + FENCE + head + ValueText(v) + tail) == ValueText(v) <==>
            LastFence(tail) >= 0 || (LastFence(DropTag(word, head)) < 0 && LastFence(ValueText(v)) < 0)
  {
    hide ValueText, Balanced, LastFence, DropTag, Extract;
    var body := ValueText(v) + TrimRight(tail);
    ObjectText(v);
    assert body[0] == '{';
    TagOfHead(word, head, body);
    TagLess(word, head);
    FencedExtract(word, lead, head, DropTag(word, head), v, tail);
  }

  lemma TagLess(word: char -> bool, head: string)
    requires '{' !in head
    ensures '{' !in DropTag(word, head)
  {
  }

  /** An unclosed block whose object holds a fence mark in a string: the object is lost. */
  lemma FenceInStringLosesObject(word: char -> bool)
    ensures exists v: Value :: WellFormed(v) && v.Obj? && Extract(word, FENCE + "\n" + ValueText(v)) != ValueText(v)
  {
    hide Extract, LastFence;
    var v := Obj("", Member("", "a", "", "", Str(FENCE), "", NoMembers));
    var t := ValueText(v);
    assert Chars("a") && Chars(FENCE) by { PlainChars(); }
    assert FenceAt(t, 6) by { assert t == "{" + ("" + Quoted("a") + "" + ":" + "" + Quoted(FENCE) + "") + "}"; }
    ExtractFromFence(word, "", "", "", v, "");
    assert !FenceAt("", LastFence(""));
    assert "" + FENCE + "" + "\n" + "" + t + "" == FENCE + "\n" + t;
  }

  lemma PlainChars()
    ensures Chars("a") && Chars(FENCE)
  {
    assert Chars("") && "a"[1..] == "" && FENCE[1..] == "``" && "``"[1..] == "`" && "`"[1..] == "";
    assert Chars("`") && Chars("``");
  }

  lemma TagDropped(word: char -> bool, line: string, after: string)
    requires '\n' !in line && IsTag(word, line)
    ensures DropTag(word, line + ("\n" + after)) == after
  {
    hide IsTag;
    var s := line + ("\n" + after);
    assert s[|line|] == '\n' && forall i :: 0 <= i < |line| ==> s[i] == line[i];
    var idx := IndexOf(s, '\n');
    assert s[..idx] == line && s[idx + 1..] == after;
  }

  /** Cutting `gap + object + rest` at its last fence keeps the object exactly when that fence
      lies in `rest` or there is none. */
  lemma CutAtLastFence(gap: string, v: Value, rest: string)
    requires WellFormed(v) && v.Obj? && '{' !in gap
    ensures var s := gap + ValueText(v) + rest;
            var cut := if LastFence(s) >= 0 then s[..LastFence(s)] else s;
            Balanced(Trim(cut)) == ValueText(v) <==>
            LastFence(rest) >= 0 || (LastFence(gap) < 0 && LastFence(ValueText(v)) < 0)
  {
    hide Balanced, LastFence, ValueText, TrimLeft, TrimRight, Trim, WellFormed;
    var t := ValueText(v);
    var s, n := gap + t + rest, |gap| + |t|;
    var end := LastFence(s);
    FencesAround(gap, v, rest);
    if end < 0 {
      CutKeepsObject(gap, v, rest);
      NoFences(s, gap, t, rest);
    } else if end >= n {
      assert FenceAt(rest, end - n);
      assert s[..end] == gap + t + rest[..end - n];
      CutKeepsObject(gap, v, rest[..end - n]);
    } else {
      assert FenceAt(gap, end) || FenceAt(t, end - |gap|);
      assert FenceAt(rest, LastFence(rest)) ==> FenceAt(s, LastFence(rest) + n);
      ObjectText(v);
      assert s[..end] <= gap + t;
      ShortCut(gap, t, s[..end]);
    }
  }

  lemma CutKeepsObject(gap: string, v: Value, keep: string)
    requires WellFormed(v) && v.Obj? && '{' !in gap
    ensures Balanced(Trim(gap + ValueText(v) + keep)) == ValueText(v)
  {
    hide Balanced, ValueText;
    TrimAround(gap, v, keep);
    TrimLeftShape(gap);
    BalancedFinds(TrimLeft(gap), v, TrimRight(keep));
  }

  lemma NoFences(s: string, gap: string, t: string, rest: string)
    requires s == gap + t + rest && LastFence(s) < 0
    ensures LastFence(gap) < 0 && LastFence(t) < 0
  {
    assert FenceAt(gap, LastFence(gap)) ==> FenceAt(s, LastFence(gap));
    assert FenceAt(t, LastFence(t)) ==> FenceAt(s, LastFence(t) + |gap|);
  }

  /** A text cut off before the object is complete cannot give the object back. */
  lemma ShortCut(gap: string, t: string, cut: string)
    requires '{' !in gap && t != [] && cut <= gap + t && |cut| < |gap| + |t|
    ensures Balanced(Trim(cut)) != t
  {
    hide TrimRight, TrimLeft, FindClose, LastFence, IndexOf;
    TrimLeftShape(cut);
    var k :| 0 <= k <= |cut| && TrimLeft(cut) == cut[k..];
    TrimRightKeepsFences(cut[k..]);
    var u := Trim(cut);
    assert u <= cut[k..];
    ShortBalanced(gap, t, cut, k, u);
  }

  lemma ShortBalanced(gap: string, t: string, cut: string, k: nat, u: string)
    requires '{' !in gap && t != [] && cut <= gap + t && |cut| < |gap| + |t| && k <= |cut| && u <= cut[k..]
    ensures Balanced(u) != t
  {
    hide FindClose, IndexOf;
    var start := IndexOf(u, '{');
    if start >= 0 {
      assert u[start] == cut[k..][start] == cut[k + start];
      assert cut[k + start] == (gap + t)[k + start];
      assert forall i :: 0 <= i < |gap| ==> (gap + t)[i] == gap[i] && gap[i] != '{';
      ShortResult(u, start);
    }
  }

  lemma ShortResult(u: string, start: nat)
    requires start == IndexOf(u, '{')
    ensures |Balanced(u)| <= |u| - start
  {
    hide FindClose, IndexOf;
  }
}
