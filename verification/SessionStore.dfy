/** The JSON Lines session store (llm/session.go), down to the bytes of a session file. The JSON
    codec is a parameter: an encoding round-trips, takes one line and is not blank. */
module SessionStore {
  import opened Wrappers
  import opened Text

  /** One record; `init` is Kind == EventInit. */
  datatype Event = Event(number: int, init: bool, body: string)

  datatype Codec = Codec(enc: Event -> string, dec: string -> Option<Event>)

  ghost predicate Lawful(c: Codec) {
    forall e :: c.dec(c.enc(e)) == Some(e) && OneLine(c.enc(e))
  }

  /** No line break, not blank, no trailing carriage return. */
  predicate OneLine(s: string) { '\n' !in s && Trim(s) != [] && s[|s| - 1] != '\r' && |s| > 0 }

  // ---------------------------------------------------------------- reading a file

  function DropCR(s: string): string { if s != [] && s[|s| - 1] == '\r' then s[..|s| - 1] else s }

  /** bufio.ScanLines. */
  function Lines(file: string): seq<string>
    decreases |file|
  {
    if file == [] then []
    else
      var k := IndexOf(file, '\n');
      if k < 0 then [DropCR(file)] else [DropCR(file[..k])] + Lines(file[k + 1..])
  }

  /** A line ends at the first line feed, and a carriage return in front of that, one at most, is not
      part of it. */
  lemma LinesMean(line: string, rest: string)
    requires '\n' !in line
    ensures Lines(line + "\r\n" + rest) == [line] + Lines(rest)
    ensures (line == [] || line[|line| - 1] != '\r') ==> Lines(line + "\n" + rest) == [line] + Lines(rest)
  {
    hide Lines;
    FirstLine(line, rest);
    FirstLine(line + "\r", rest);
    assert line + "\r" + "\n" + rest == line + "\r\n" + rest;
    assert (line + "\r")[..|line|] == line;
  }

  lemma FirstLine(line: string, rest: string)
    requires '\n' !in line
    ensures Lines(line + "\n" + rest) == [DropCR(line)] + Lines(rest)
  {
    hide Lines, DropCR, IndexOf;
    var x, k := line + "\n", |line|;
    assert x[k] == '\n' && forall i :: 0 <= i < k ==> x[i] == line[i];
    SplitFirst(x, rest, k);
    assert x[..k] == line && x[k + 1..] == [] && [] + rest == rest;
  }

  /** The decoded non-blank lines, in order; None where a line does not decode. */
  function Records(c: Codec, lines: seq<string>): seq<Option<Event>> {
    if lines == [] then []
    else
      var last := lines[|lines| - 1];
      Records(c, lines[..|lines| - 1]) + if Trim(last) == [] then [] else [c.dec(last)]
  }

  function Values(rs: seq<Option<Event>>): seq<Event> {
    if rs == [] then []
    else Values(rs[..|rs| - 1]) + if rs[|rs| - 1].Some? then [rs[|rs| - 1].value] else []
  }

  /** Every record but the last must decode; a last one that does not is crash debris. */
  function Verdict(rs: seq<Option<Event>>): Result<seq<Event>> {
    if forall i :: 0 <= i < |rs| - 1 ==> rs[i].Some? then Ok(Values(rs)) else Err
  }

  function Decode(c: Codec, file: string): Result<seq<Event>> { Verdict(Records(c, Lines(file))) }

  /** decodeEvents: one pass that holds each record back until it knows another follows. */
  method DecodeEvents(c: Codec, file: string) returns (r: Result<seq<Event>>)
    ensures r == Decode(c, file)
  {
    hide Lines, Trim, Held, Verdict, Records;
    var lines := Lines(file);
    var out: seq<Event>, pending: Option<Event>, seen := [], None, false;
    HeldNothing(c);
    for i := 0 to |lines|
      invariant Held(Records(c, lines[..i]), out, pending, seen)
    {
      assert lines[..i + 1] == lines[..i] + [lines[i]];
      ghost var rs := Records(c, lines[..i]);
      var line := lines[i];
      RecordsAppend(c, lines[..i], line);
      if Trim(line) == [] {
        assert rs + [] == rs;
        continue;
      }
      HeldMore(rs, out, pending, seen, c.dec(line));
      if pending.Some? {
        out := out + [pending.value];
      } else if seen {
        BadStays(c, lines, i + 1, |rs| - 1);
        return Err;
      }
      pending, seen := c.dec(line), true;
    }
    assert lines[..|lines|] == lines;
    HeldEnd(Records(c, lines), out, pending, seen);
    if pending.Some? {
      out := out + [pending.value];
    }
    return Ok(out);
  }

  lemma HeldNothing(c: Codec)
    ensures Held(Records(c, []), [], None, false)
  {
  }

  lemma HeldMore(rs: seq<Option<Event>>, out: seq<Event>, pending: Option<Event>, seen: bool, next: Option<Event>)
    requires Held(rs, out, pending, seen)
    ensures pending.Some? ==> Held(rs + [next], out + [pending.value], next, true)
    ensures !seen ==> pending.None? && Held(rs + [next], out, next, true)
    ensures seen && pending.None? ==> rs != [] && (rs + [next])[|rs| - 1].None?
  {
    assert (rs + [next])[..|rs|] == rs;
  }

  lemma HeldEnd(rs: seq<Option<Event>>, out: seq<Event>, pending: Option<Event>, seen: bool)
    requires Held(rs, out, pending, seen)
    ensures Verdict(rs) == Ok(if pending.Some? then out + [pending.value] else out)
  {
    assert out + [] == out;
  }

  /** All records but the last are decoded into `out`; the last one is held back. */
  ghost predicate Held(rs: seq<Option<Event>>, out: seq<Event>, pending: Option<Event>, seen: bool) {
    if !seen then rs == [] && pending.None? && out == []
    else
      && rs != [] && pending == rs[|rs| - 1] && out == Values(rs[..|rs| - 1])
      && forall k :: 0 <= k < |rs| - 1 ==> rs[k].Some?
  }

  lemma {:induction false} RecordsPrefix(c: Codec, lines: seq<string>, i: nat)
    requires i <= |lines|
    ensures Records(c, lines[..i]) <= Records(c, lines)
    decreases |lines|
  {
    if i < |lines| {
      RecordsPrefix(c, lines[..|lines| - 1], i);
      assert lines[..|lines| - 1][..i] == lines[..i];
    } else {
      assert lines[..i] == lines;
    }
  }

  /** A bad record with another after it stays bad however the file goes on. */
  lemma BadStays(c: Codec, lines: seq<string>, i: nat, k: nat)
    requires i <= |lines| && k < |Records(c, lines[..i])| - 1 && Records(c, lines[..i])[k].None?
    ensures Verdict(Records(c, lines)) == Err
  {
    RecordsPrefix(c, lines, i);
  }

  // ---------------------------------------------------------------- writing

  function Line(c: Codec, e: Event): string { c.enc(e) + "\n" }

  function Render(c: Codec, es: seq<Event>): string {
    if es == [] then [] else Render(c, es[..|es| - 1]) + Line(c, es[|es| - 1])
  }

  predicate Complete(file: string) { file == [] || file[|file| - 1] == '\n' }

  /** A line appended to complete lines is a line of its own; after a fragment it is glued on. */
  lemma {:induction false} LinesAppend(file: string, fragment: string, line: string)
    requires Complete(file) && '\n' !in fragment && '\n' !in line
    ensures Lines(file + fragment + line + "\n") == Lines(file) + [DropCR(fragment + line)]
    ensures fragment != [] ==> Lines(file + fragment) == Lines(file) + [DropCR(fragment)]
    decreases |file|
  {
    hide Lines, DropCR, IndexOf;
    var x := fragment + line + "\n";
    assert file + fragment + line + "\n" == file + x;
    if file == [] {
      LineAlone(fragment + line);
      LineAlone(fragment);
      assert file + x == x && file + fragment == fragment && Lines(file) == [];
    } else {
      var k := IndexOf(file, '\n');
      LinesAppend(file[k + 1..], fragment, line);
      SplitFirst(file, x, k);
      SplitFirst(file, fragment, k);
      assert file[k + 1..] + fragment + line + "\n" == file[k + 1..] + x;
      var head, tail := [DropCR(file[..k])], Lines(file[k + 1..]);
      assert head + (tail + [DropCR(fragment + line)]) == (head + tail) + [DropCR(fragment + line)];
      assert head + (tail + [DropCR(fragment)]) == (head + tail) + [DropCR(fragment)];
    }
  }

  lemma LineAlone(s: string)
    requires '\n' !in s
    ensures Lines(s + "\n") == [DropCR(s)] && Lines("") == []
    ensures s != [] ==> Lines(s) == [DropCR(s)]
  {
    var x := s + "\n";
    assert x[|s|] == '\n' && forall i :: 0 <= i < |s| ==> x[i] == s[i];
    assert IndexOf(x, '\n') == |s|;
    assert x[..|s|] == s && x[|s| + 1..] == [];
  }

  lemma SplitFirst(file: string, x: string, k: nat)
    requires file != [] && k == IndexOf(file, '\n')
    ensures Lines(file + x) == [DropCR(file[..k])] + Lines(file[k + 1..] + x)
    ensures Lines(file) == [DropCR(file[..k])] + Lines(file[k + 1..])
  {
    assert forall i :: 0 <= i <= k ==> (file + x)[i] == file[i];
    assert IndexOf(file + x, '\n') == k;
    assert (file + x)[..k] == file[..k] && (file + x)[k + 1..] == file[k + 1..] + x;
  }

  lemma RecordsAppend(c: Codec, lines: seq<string>, line: string)
    ensures Records(c, lines + [line]) == Records(c, lines) + if Trim(line) == [] then [] else [c.dec(line)]
  {
    assert (lines + [line])[..|lines|] == lines;
  }

  /** No debris: the last record, if any, decodes. */
  predicate Clean(c: Codec, file: string) {
    var rs := Records(c, Lines(file));
    Complete(file) && (rs == [] || rs[|rs| - 1].Some?)
  }

  /** Appending to a file of complete lines: the event is read back if and only if the file was
      clean; behind a bad last line it turns debris into corruption. */
  lemma AppendRead(c: Codec, file: string, e: Event)
    requires Lawful(c) && Complete(file) && Decode(c, file).Ok?
    ensures Decode(c, file + Line(c, e)) ==
            if Clean(c, file) then Ok(Decode(c, file).value + [e]) else Err
    ensures Complete(file + Line(c, e))
  {
    hide Lines, Trim;
    var line, rs := c.enc(e), Records(c, Lines(file));
    assert file + Line(c, e) == file + [] + line + "\n";
    LinesAppend(file, [], line);
    assert [] + line == line && OneLine(line);
    RecordsAppend(c, Lines(file), line);
    var rs' := rs + [Some(e)];
    assert Records(c, Lines(file + Line(c, e))) == rs';
    assert rs'[..|rs|] == rs;
    if Clean(c, file) {
      assert forall i :: 0 <= i < |rs| ==> rs[i].Some?;
    } else {
      assert rs'[|rs| - 1].None?;
    }
  }

  lemma DebrisIgnored(rs: seq<Option<Event>>)
    requires forall i :: 0 <= i < |rs| ==> rs[i].Some?
    ensures Verdict(rs + [None]) == Verdict(rs) == Ok(Values(rs))
  {
    assert (rs + [None])[..|rs|] == rs;
    assert Values(rs) + [] == Values(rs);
  }

  predicate Blank(line: string) { Trim(line) == [] }

  /** A file of complete lines and then a last line without its line break, as it is read. */
  lemma FragmentRead(c: Codec, file: string, fragment: string)
    requires Complete(file) && '\n' !in fragment
    ensures Records(c, Lines(file + fragment)) ==
            Records(c, Lines(file)) + if Blank(DropCR(fragment)) then [] else [c.dec(DropCR(fragment))]
  {
    hide Lines, Trim;
    if fragment == [] {
      assert file + fragment == file && DropCR(fragment) == [];
      TrimNothing();
    } else {
      LinesAppend(file, fragment, []);
      RecordsAppend(c, Lines(file), DropCR(fragment));
    }
  }

  lemma TrimNothing()
    ensures Trim("") == []
  {
  }

  /** Behind a fragment the appended line is glued onto it. */
  lemma GluedRead(c: Codec, file: string, fragment: string, e: Event)
    requires Lawful(c) && Complete(file) && '\n' !in fragment
    ensures Records(c, Lines(file + fragment + Line(c, e))) ==
            Records(c, Lines(file)) + [c.dec(fragment + c.enc(e))]
    ensures Complete(file + fragment + Line(c, e))
  {
    hide Lines, Trim;
    var glued := fragment + c.enc(e);
    assert file + fragment + Line(c, e) == file + fragment + c.enc(e) + "\n";
    assert OneLine(c.enc(e));
    LinesAppend(file, fragment, c.enc(e));
    assert DropCR(glued) == glued;
    RecordsAppend(c, Lines(file), glued);
    GluedIsNotBlank(fragment, c.enc(e));
  }

  lemma GluedIsNotBlank(fragment: string, line: string)
    requires Trim(line) != []
    ensures Trim(fragment + line) != []
  {
    BlankIff(line);
    BlankIff(fragment + line);
    assert forall i :: 0 <= i < |line| ==> line[i] == (fragment + line)[|fragment| + i];
  }

  /** An event appended to complete lines followed by a fragment is read back behind everything
      that was read before if and only if the complete lines are clean, the glued line decodes to
      the event, and the fragment carried no event of its own, since that one is lost as well. */
  lemma AppendReadIff(c: Codec, file: string, fragment: string, e: Event)
    requires Lawful(c) && Complete(file) && '\n' !in fragment && Decode(c, file + fragment).Ok?
    ensures Decode(c, file + fragment + Line(c, e)) == Ok(Decode(c, file + fragment).value + [e]) <==>
            && Clean(c, file) && c.dec(fragment + c.enc(e)) == Some(e)
            && (Blank(DropCR(fragment)) || c.dec(DropCR(fragment)).None?)
  {
    hide Lines, Trim;
    var rs := Records(c, Lines(file));
    FragmentRead(c, file, fragment);
    GluedRead(c, file, fragment, e);
    ReadBehind(rs, if Blank(DropCR(fragment)) then [] else [c.dec(DropCR(fragment))], c.dec(fragment + c.enc(e)), e);
    assert Clean(c, file) <==> rs == [] || rs[|rs| - 1].Some?;
  }

  /** Before: records and at most one more; after: the records and the glued one. */
  lemma ReadBehind(rs: seq<Option<Event>>, tail: seq<Option<Event>>, glued: Option<Event>, e: Event)
    requires |tail| <= 1 && Verdict(rs + tail).Ok?
    ensures Verdict(rs + [glued]) == Ok(Verdict(rs + tail).value + [e]) <==>
            (rs == [] || rs[|rs| - 1].Some?) && glued == Some(e) && (tail == [] || tail[0].None?)
  {
    var v, after, before := Values(rs), rs + [glued], rs + tail;
    assert after[..|rs|] == rs && Values(after) == v + if glued.Some? then [glued.value] else [];
    assert forall i :: 0 <= i < |rs| ==> after[i] == rs[i] && before[i] == rs[i];
    if tail == [] {
      assert before == rs;
      if rs != [] && rs[|rs| - 1].None? {
        assert after[|rs| - 1].None?;
      } else {
        assert forall i :: 0 <= i < |rs| ==> rs[i].Some?;
        SameEnd(v, if glued.Some? then [glued.value] else [], [e]);
      }
    } else {
      assert before[..|rs|] == rs && Values(before) == v + if tail[0].Some? then [tail[0].value] else [];
      assert forall i :: 0 <= i < |rs| ==> rs[i].Some?;
      assert Verdict(before) == Ok(Values(before)) && Verdict(after) == Ok(Values(after));
      if tail[0].Some? {
        assert |Values(before) + [e]| == |v| + 2;
      } else {
        assert Values(before) == v;
        SameEnd(v, if glued.Some? then [glued.value] else [], [e]);
      }
    }
  }

  lemma SameEnd(v: seq<Event>, a: seq<Event>, b: seq<Event>)
    ensures v + a == v + b <==> a == b
  {
    if v + a == v + b {
      assert (v + a)[|v|..] == a && (v + b)[|v|..] == b;
    }
  }

  /** What JSON adds to the codec: an object behind anything but JSON white space does not decode. */
  ghost predicate Standalone(c: Codec) {
    forall fragment: string, e: Event ::
      c.dec(fragment + c.enc(e)) == if JsonBlank(fragment) then Some(e) else None
  }

  predicate JsonBlank(s: string) { forall i :: 0 <= i < |s| ==> s[i] in " \t\r\n" }

  /** The complete lines of a file; the rest is its fragment. */
  function Body(file: string): (r: string)
    ensures Complete(r) && r <= file && '\n' !in file[|r|..]
  {
    if Complete(file) then file else Body(file[..|file| - 1])
  }

  /** With such a codec, for any file that loads: the appended event is read back behind
      everything that was read before if and only if the complete lines are clean and what follows
      the last line break is white space. */
  lemma AppendReadIffBlank(c: Codec, file: string, e: Event)
    requires Lawful(c) && Standalone(c) && Decode(c, file).Ok?
    ensures Decode(c, file + Line(c, e)) == Ok(Decode(c, file).value + [e]) <==>
            Clean(c, Body(file)) && JsonBlank(file[|Body(file)|..])
  {
    hide Lines, Trim, Clean, Decode;
    var fragment := file[|Body(file)|..];
    assert Body(file) + fragment == file;
    AppendReadIff(c, Body(file), fragment, e);
    BlankIff(DropCR(fragment));
    forall i | 0 <= i < |DropCR(fragment)| && JsonBlank(fragment) ensures IsSpace(DropCR(fragment)[i]) {
      assert DropCR(fragment)[i] == fragment[i];
    }
    assert c.dec(fragment + c.enc(e)) == if JsonBlank(fragment) then Some(e) else None;
  }

  /** Behind a fragment that does not complete it the event is lost without an error, and so is an
      event the fragment held; one more append makes the file unreadable. */
  lemma GlueLosesEvent(c: Codec, file: string, fragment: string, e: Event, e2: Event)
    requires Lawful(c) && Complete(file) && Decode(c, file).Ok? && Clean(c, file)
    requires '\n' !in fragment && c.dec(fragment + c.enc(e)).None?
    ensures Decode(c, file + fragment + Line(c, e)) == Decode(c, file)
    ensures Decode(c, file + fragment + Line(c, e) + Line(c, e2)) == Err
  {
    hide Lines, Trim;
    var rs := Records(c, Lines(file));
    GluedRead(c, file, fragment, e);
    DebrisIgnored(rs);
    var file' := file + fragment + Line(c, e);
    assert Records(c, Lines(file')) == rs + [None];
    AppendRead(c, file', e2);
  }

  // ---------------------------------------------------------------- one session

  datatype Cache = NoCache | Cached(lastSeq: int, hasInit: bool, size: nat)

  /** A session's file, if it exists, and what this process remembers of it. */
  datatype Session = Session(file: Option<string>, cache: Cache)

  function MaxSeq(es: seq<Event>): int {
    if es == [] then 0
    else
      var m := MaxSeq(es[..|es| - 1]);
      if es[|es| - 1].number > m then es[|es| - 1].number else m
  }

  predicate AnyInit(es: seq<Event>) { exists i :: 0 <= i < |es| && es[i].init }

  /** scanLastSeq. */
  function Scan(c: Codec, file: string): Result<(int, bool)> {
    match Decode(c, file) case Err => Err case Ok(es) => Ok((MaxSeq(es), AnyInit(es)))
  }

  function Bytes(s: Session): string { if s.file.Some? then s.file.value else "" }

  /** The cached scan is used when the size on disk is the size remembered. */
  function Tail(c: Codec, s: Session): Result<(int, bool)> {
    if s.cache.Cached? && s.cache.size == |Bytes(s)| then Ok((s.cache.lastSeq, s.cache.hasInit))
    else Scan(c, Bytes(s))
  }

  /** Opening the file for append creates it, also when the event is then refused. */
  function Append(c: Codec, s: Session, e: Event): (Session, Result<int>) {
    var created := s.(file := Some(Bytes(s)));
    match Tail(c, s)
    case Err => (created, Err)
    case Ok((last, hasInit)) =>
      if e.init == hasInit then (created, Err)
      else
        var file := Bytes(s) + Line(c, e.(number := last + 1));
        (Session(Some(file), Cached(last + 1, hasInit || e.init, |file|)), Ok(last + 1))
  }

  /** The same append made by another process: this one's cache does not see it. */
  function OutsideAppend(c: Codec, s: Session, e: Event): Session {
    s.(file := Append(c, s.(cache := NoCache), e).0.file)
  }

  function Load(c: Codec, s: Session): Result<seq<Event>> { if s.file.None? then Err else Decode(c, s.file.value) }

  function Keep(es: seq<Event>, toSeq: int): seq<Event> {
    if es == [] then []
    else
      var e := es[|es| - 1];
      Keep(es[..|es| - 1], toSeq) + if (if toSeq <= 0 then e.init else e.number <= toSeq) then [e] else []
  }

  function Truncate(c: Codec, s: Session, toSeq: int): (Session, bool) {
    match Load(c, s)
    case Err => (s, false)
    case Ok(es) => (Session(Some(Render(c, Keep(es, toSeq))), NoCache), true)
  }

  function Delete(s: Session): (Session, bool) { (Session(None, NoCache), s.file.Some?) }

  // ---------------------------------------------------------------- the list it stands for

  /** Sequence numbers 1..n without a gap; the init event is first and unique. */
  ghost predicate Numbered(es: seq<Event>) {
    forall i :: 0 <= i < |es| ==> es[i].number == i + 1 && (es[i].init <==> i == 0)
  }

  ghost predicate Represents(c: Codec, file: string, es: seq<Event>) {
    Clean(c, file) && Decode(c, file) == Ok(es) && Numbered(es)
  }

  /** The cache describes a prefix of the file. */
  ghost predicate CacheOk(c: Codec, cache: Cache, file: string) {
    cache.Cached? ==> cache.size <= |file| && Scan(c, file[..cache.size]) == Ok((cache.lastSeq, cache.hasInit))
  }

  ghost predicate Inv(c: Codec, s: Session, list: Option<seq<Event>>) {
    && (s.file.Some? <==> list.Some?)
    && Represents(c, Bytes(s), Listed(list))
    && CacheOk(c, s.cache, Bytes(s))
  }

  function Listed(list: Option<seq<Event>>): seq<Event> { if list.Some? then list.value else [] }

  function ListAppend(list: Option<seq<Event>>, e: Event): (Option<seq<Event>>, Result<int>) {
    var es := Listed(list);
    if e.init == (es != []) then (Some(es), Err) else (Some(es + [e.(number := |es| + 1)]), Ok(|es| + 1))
  }

  function ListTruncate(es: seq<Event>, toSeq: int): seq<Event> {
    var k := if toSeq <= 0 then 1 else toSeq;
    if |es| <= k then es else es[..k]
  }

  lemma {:induction false} NumberedScan(es: seq<Event>)
    requires Numbered(es)
    ensures MaxSeq(es) == |es| && AnyInit(es) == (es != [])
  {
    if es != [] {
      NumberedScan(es[..|es| - 1]);
      assert es[0].init;
    }
  }

  lemma {:induction false} NumberedKeep(es: seq<Event>, toSeq: int)
    requires Numbered(es)
    ensures Keep(es, toSeq) == ListTruncate(es, toSeq) && Numbered(ListTruncate(es, toSeq))
  {
    if es != [] {
      var front, k := es[..|es| - 1], if toSeq <= 0 then 1 else toSeq;
      NumberedKeep(front, toSeq);
      assert es == front + [es[|es| - 1]];
      if |es| <= k {
        assert Keep(es, toSeq) == front + [es[|es| - 1]];
      } else {
        assert ListTruncate(front, toSeq) == es[..k] && Keep(es, toSeq) == Keep(front, toSeq) + [];
      }
    }
  }

  lemma EmptyRepresents(c: Codec)
    ensures Represents(c, "", [])
  {
    assert Lines("") == [] && Records(c, []) == [];
  }

  lemma AppendRepresents(c: Codec, file: string, es: seq<Event>, e: Event)
    requires Lawful(c) && Represents(c, file, es) && e.number == |es| + 1 && (e.init <==> es == [])
    ensures Represents(c, file + Line(c, e), es + [e])
  {
    hide Decode;
    AppendRead(c, file, e);
    AppendClean(c, file, e);
  }

  lemma AppendClean(c: Codec, file: string, e: Event)
    requires Lawful(c) && Complete(file)
    ensures Clean(c, file + Line(c, e))
  {
    hide Lines, Trim;
    assert file + Line(c, e) == file + [] + c.enc(e) + "\n";
    LinesAppend(file, [], c.enc(e));
    assert [] + c.enc(e) == c.enc(e) && OneLine(c.enc(e));
    RecordsAppend(c, Lines(file), c.enc(e));
  }

  /** Writing a list out and reading it back gives the list. */
  lemma {:induction false} RenderRepresents(c: Codec, es: seq<Event>)
    requires Lawful(c) && Numbered(es)
    ensures Represents(c, Render(c, es), es)
  {
    hide Clean, Decode;
    if es == [] {
      EmptyRepresents(c);
    } else {
      var front := es[..|es| - 1];
      RenderRepresents(c, front);
      AppendRepresents(c, Render(c, front), front, es[|es| - 1]);
      assert front + [es[|es| - 1]] == es;
    }
  }

  /** The cache never disagrees with a rescan of the file. */
  lemma CacheAgrees(c: Codec, s: Session, list: Option<seq<Event>>)
    requires Inv(c, s, list)
    ensures Tail(c, s) == Scan(c, Bytes(s)) == Ok((|Listed(list)|, Listed(list) != []))
  {
    hide Decode;
    NumberedScan(Listed(list));
    var file := Bytes(s);
    assert file[..|file|] == file;
  }

  /** Append refines appending to the list: number n+1, init first and only first. */
  lemma AppendRefines(c: Codec, s: Session, list: Option<seq<Event>>, e: Event)
    requires Lawful(c) && Inv(c, s, list)
    ensures var (s', r) := Append(c, s, e);
            var (list', r') := ListAppend(list, e);
            && r == r' && Inv(c, s', list')
            && (r.Ok? ==> s'.cache == Cached(|list'.value|, true, |Bytes(s')|))
  {
    hide Decode, Clean, Scan, Tail;
    CacheAgrees(c, s, list);
    var es := Listed(list);
    if e.init == (es != []) {
    } else {
      var e' := e.(number := |es| + 1);
      AppendRepresents(c, Bytes(s), es, e');
      var s' := Append(c, s, e).0;
      FreshCache(c, Bytes(s'), es + [e']);
    }
  }

  lemma FreshCache(c: Codec, file: string, es: seq<Event>)
    requires Represents(c, file, es)
    ensures CacheOk(c, Cached(|es|, es != [], |file|), file)
  {
    hide Decode;
    NumberedScan(es);
    assert file[..|file|] == file;
  }

  /** Outside writers that only append leave this process's cache sound. */
  lemma OutsideAppendRefines(c: Codec, s: Session, list: Option<seq<Event>>, e: Event)
    requires Lawful(c) && Inv(c, s, list)
    ensures Inv(c, OutsideAppend(c, s, e), ListAppend(list, e).0)
  {
    hide Decode, Represents, Scan, Tail;
    var bare := s.(cache := NoCache);
    assert Inv(c, bare, list);
    AppendRefines(c, bare, list, e);
    var file, file' := Bytes(s), Bytes(Append(c, bare, e).0);
    assert file <= file';
    if s.cache.Cached? {
      assert file'[..s.cache.size] == file[..s.cache.size];
    }
  }

  lemma TruncateRefines(c: Codec, s: Session, list: Option<seq<Event>>, toSeq: int)
    requires Lawful(c) && Inv(c, s, list)
    ensures var (s', ok) := Truncate(c, s, toSeq);
            ok == list.Some? && Inv(c, s', if ok then Some(ListTruncate(list.value, toSeq)) else None)
  {
    hide Decode, Clean, Scan;
    if list.Some? {
      NumberedKeep(list.value, toSeq);
      RenderRepresents(c, ListTruncate(list.value, toSeq));
    }
  }

  // ---------------------------------------------------------------- whole runs

  datatype Cmd = Write(event: Event) | OutsideWrite(event: Event) | Cut(toSeq: int) | Remove

  function Exec(c: Codec, s: Session, cmd: Cmd): Session {
    match cmd
    case Write(e) => Append(c, s, e).0
    case OutsideWrite(e) => OutsideAppend(c, s, e)
    case Cut(t) => Truncate(c, s, t).0
    case Remove => Delete(s).0
  }

  function ListExec(list: Option<seq<Event>>, cmd: Cmd): Option<seq<Event>> {
    match cmd
    case Write(e) => ListAppend(list, e).0
    case OutsideWrite(e) => ListAppend(list, e).0
    case Cut(t) => if list.Some? then Some(ListTruncate(list.value, t)) else None
    case Remove => None
  }

  function Run(c: Codec, cmds: seq<Cmd>): Session {
    if cmds == [] then Session(None, NoCache) else Exec(c, Run(c, cmds[..|cmds| - 1]), cmds[|cmds| - 1])
  }

  function ListRun(cmds: seq<Cmd>): Option<seq<Event>> {
    if cmds == [] then None else ListExec(ListRun(cmds[..|cmds| - 1]), cmds[|cmds| - 1])
  }

  /** The file store refines an append-only list over every run of appends (its own and other
      processes'), truncations and deletions: Load returns the list, gap-free and anchored by
      its one init event, and the cache agrees with a rescan. */
  lemma {:induction false} StoreRefinesList(c: Codec, cmds: seq<Cmd>)
    requires Lawful(c)
    ensures Inv(c, Run(c, cmds), ListRun(cmds))
    ensures Load(c, Run(c, cmds)) == if ListRun(cmds).None? then Err else Ok(ListRun(cmds).value)
    ensures Tail(c, Run(c, cmds)) == Scan(c, Bytes(Run(c, cmds)))
  {
    hide Decode, Clean, Scan, Tail, Append, OutsideAppend, Truncate;
    if cmds == [] {
      EmptyRepresents(c);
    } else {
      var s, list := Run(c, cmds[..|cmds| - 1]), ListRun(cmds[..|cmds| - 1]);
      StoreRefinesList(c, cmds[..|cmds| - 1]);
      match cmds[|cmds| - 1]
      case Write(e) => AppendRefines(c, s, list, e);
      case OutsideWrite(e) => OutsideAppendRefines(c, s, list, e);
      case Cut(t) => TruncateRefines(c, s, list, t);
      case Remove => EmptyRepresents(c);
    }
    CacheAgrees(c, Run(c, cmds), ListRun(cmds));
  }

  // ---------------------------------------------------------------- the store object

  // ---------------------------------------------------------------- what was written

  function Writes(es: seq<Event>): seq<Cmd> { seq(|es|, k requires 0 <= k < |es| => Write(es[k])) }

  lemma {:induction false} ListOfWrites(es: seq<Event>)
    requires forall k :: 0 <= k < |es| ==> (es[k].init <==> k == 0)
    ensures es != [] ==> ListRun(Writes(es)).Some?
    ensures |Listed(ListRun(Writes(es)))| == |es|
    ensures forall k :: 0 <= k < |es| ==> Listed(ListRun(Writes(es)))[k] == es[k].(number := k + 1)
  {
    if es != [] {
      var front := es[..|es| - 1];
      ListOfWrites(front);
      assert Writes(es)[..|es| - 1] == Writes(front);
    }
  }

  /** Writing an init event and then others and loading the session gives exactly those events, in
      order, numbered from 1. */
  lemma WritesAreRead(c: Codec, es: seq<Event>)
    requires Lawful(c) && es != [] && forall k :: 0 <= k < |es| ==> (es[k].init <==> k == 0)
    ensures var r := Load(c, Run(c, Writes(es)));
            && r.Ok? && |r.value| == |es|
            && forall k :: 0 <= k < |es| ==> r.value[k] == es[k].(number := k + 1)
  {
    hide Load, Run, Lawful, ListRun, Writes;
    ListOfWrites(es);
    StoreRefinesList(c, Writes(es));
  }

  /** Whatever the commands, each event of the list is one some command wrote, but for its number. */
  lemma {:induction false} ListIsWritten(cmds: seq<Cmd>, e: Event)
    requires e in Listed(ListRun(cmds))
    ensures exists k :: 0 <= k < |cmds| && (cmds[k].Write? || cmds[k].OutsideWrite?) &&
              e == cmds[k].event.(number := e.number)
  {
    if cmds != [] {
      var front, last := cmds[..|cmds| - 1], cmds[|cmds| - 1];
      if e in Listed(ListRun(front)) {
        ListIsWritten(front, e);
        var k :| 0 <= k < |front| && (front[k].Write? || front[k].OutsideWrite?)
                 && e == front[k].event.(number := e.number);
        assert cmds[k] == front[k];
      } else {
        assert last.Write? || last.OutsideWrite?;
      }
    }
  }

  /** Cutting an existing session keeps its first `t` events, or its first for `t` below 1; removing
      it leaves none. */
  lemma CutMeans(cmds: seq<Cmd>, t: int)
    ensures var was, now := ListRun(cmds), ListRun(cmds + [Cut(t)]);
            && (was.Some? <==> now.Some?)
            && (was.Some? ==> now.value <= was.value)
            && (was.Some? ==>
                  var k := if t < 1 then 1 else t;
                  |now.value| == if k < |was.value| then k else |was.value|)
    ensures ListRun(cmds + [Remove]) == None
  {
    assert (cmds + [Cut(t)])[..|cmds|] == cmds && (cmds + [Remove])[..|cmds|] == cmds;
  }

  /** A first append refused for want of an init event leaves an empty file behind. That is not a
      missing session: it loads as a session without events, and takes nothing but an init event. */
  lemma RefusedWriteLeavesEmpty(c: Codec, e: Event, later: Event)
    requires Lawful(c) && !e.init && !later.init
    ensures Load(c, Run(c, [Write(e)])) == Ok([]) && Append(c, Run(c, [Write(e)]), later).1 == Err
  {
    hide Append, Load, Lawful;
    var cmds := [Write(e)];
    assert cmds[..0] == [];
    assert ListRun(cmds) == Some([]);
    StoreRefinesList(c, cmds);
    AppendRefines(c, Run(c, cmds), Some([]), later);
  }

  predicate ValidId(id: string) {
    && id != [] && '/' !in id && '\\' !in id && id[0] != '.'
    && forall i :: 0 <= i < |id| - 1 ==> !(id[i] == '.' && id[i + 1] == '.')
  }

  class JsonStore {
    const codec: Codec
    var files: map<string, string>
    var states: map<string, Cache>

    constructor (codec: Codec)
      ensures this.codec == codec && files == map[] && states == map[]
    {
      this.codec, files, states := codec, map[], map[];
    }

    function Of(id: string): Session
      reads this
    {
      Session(if id in files then Some(files[id]) else None, if id in states then states[id] else NoCache)
    }

    /** Only session `id` changes. */
    twostate predicate Others(id: string)
      reads this
    {
      forall j :: j != id ==> Of(j) == old(Of(j))
    }

    method AppendEvent(id: string, e: Event) returns (r: Result<int>)
      modifies this
      ensures Others(id)
      ensures if ValidId(id) then (Of(id), r) == Append(codec, old(Of(id)), e) else Of(id) == old(Of(id)) && r.Err?
    {
      if !ValidId(id) {
        return Err;
      }
      var file := if id in files then files[id] else "";
      files := files[id := file];
      var lastSeq, hasInit := 0, false;
      if id in states && states[id].Cached? && |file| == states[id].size {
        lastSeq, hasInit := states[id].lastSeq, states[id].hasInit;
      } else {
        var scanned := ScanLastSeq(file);
        if scanned.Err? {
          return Err;
        }
        lastSeq, hasInit := scanned.value.0, scanned.value.1;
      }
      if e.init == hasInit {
        return Err;
      }
      file := file + codec.enc(e.(number := lastSeq + 1)) + "\n";
      assert file == Bytes(old(Of(id))) + Line(codec, e.(number := lastSeq + 1));
      files := files[id := file];
      states := states[id := Cached(lastSeq + 1, hasInit || e.init, |file|)];
      return Ok(lastSeq + 1);
    }

    method ScanLastSeq(file: string) returns (r: Result<(int, bool)>)
      ensures r == Scan(codec, file)
    {
      var d := DecodeEvents(codec, file);
      if d.Err? {
        return Err;
      }
      var es, last, hasInit := d.value, 0, false;
      for i := 0 to |es|
        invariant last == MaxSeq(es[..i]) && hasInit == AnyInit(es[..i])
      {
        assert es[..i + 1][..i] == es[..i];
        if es[i].number > last {
          last := es[i].number;
        }
        if es[i].init {
          hasInit := true;
          assert es[..i + 1][i].init;
        } else {
          assert forall k :: 0 <= k < i + 1 && es[..i + 1][k].init ==> es[..i][k].init;
        }
      }
      assert es[..|es|] == es;
      return Ok((last, hasInit));
    }

    method LoadEvents(id: string) returns (r: Result<seq<Event>>)
      ensures r == if ValidId(id) then Load(codec, Of(id)) else Err
    {
      if !ValidId(id) || id !in files {
        return Err;
      }
      r := DecodeEvents(codec, files[id]);
    }

    method TruncateTo(id: string, toSeq: int) returns (ok: bool)
      modifies this
      ensures Others(id)
      ensures if ValidId(id) then (Of(id), ok) == Truncate(codec, old(Of(id)), toSeq) else Of(id) == old(Of(id)) && !ok
    {
      if !ValidId(id) || id !in files {
        return false;
      }
      var d := DecodeEvents(codec, files[id]);
      if d.Err? {
        return false;
      }
      states := states[id := NoCache];
      var es, buf, kept := d.value, "", [];
      for i := 0 to |es|
        invariant kept == Keep(es[..i], toSeq) && buf == Render(codec, kept)
      {
        assert es[..i + 1][..i] == es[..i];
        if toSeq <= 0 {
          if !es[i].init {
            continue;
          }
        } else if es[i].number > toSeq {
          continue;
        }
        assert (kept + [es[i]])[..|kept|] == kept;
        kept, buf := kept + [es[i]], buf + (codec.enc(es[i]) + "\n");
      }
      assert es[..|es|] == es;
      files := files[id := buf];
      return true;
    }

    method DeleteSession(id: string) returns (ok: bool)
      modifies this
      ensures Others(id)
      ensures if ValidId(id) then (Of(id), ok) == Delete(old(Of(id))) else Of(id) == old(Of(id)) && !ok
    {
      if !ValidId(id) {
        return false;
      }
      states := states[id := NoCache];
      ok := id in files;
      files := files - {id};
    }
  }
}
