/** Loading persisted stream events: the SQLite store compiles part of the filter to SQL and
    rechecks in Go (store/internal/sqlite), the Postgres store scans the request's rows and
    filters in Go (store/internal/postgres). Both must return the same events. */
module SqlPushdown {
  import opened Wrappers
  import opened StreamEvents

  const MAX_INT64: nat := 0x7fff_ffff_ffff_ffff

  /** request_stream_events: nullable helper columns beside the raw frame, which the JSON codec
      gives back unchanged. */
  datatype Row = Row(requestId: string, sequence: nat, logicalTime: nat, eventType: string, layer: string,
                     sourceId: Option<string>, parentId: Option<string>, runnerId: Option<string>,
                     nodeId: Option<string>, sessionId: Option<string>, status: string, raw: Event)

  function Nullable(s: string): Option<string> { if s == "" then None else Some(s) }

  function RowOf(e: Event): Row {
    Row(e.scope.requestId, e.sequence, e.logicalTime, e.eventType, e.from.layer, Nullable(e.from.id),
        Nullable(e.from.parentId), Nullable(e.scope.runnerId), Nullable(e.scope.nodeId), Nullable(e.scope.sessionId),
        e.status, e)
  }

  /** validateStoredStreamEvent, but for the timestamp. */
  predicate Storable(e: Event) {
    && e.scope.requestId != "" && 0 < e.sequence <= MAX_INT64 && 0 < e.logicalTime <= MAX_INT64
    && e.eventType != "" && e.from.layer != "" && e.status != ""
  }

  /** The table in insertion order; (request_id, sequence_number) is the primary key. */
  function AppendEvent(table: seq<Row>, e: Event): Result<seq<Row>> {
    if !Storable(e) ||
       exists i :: 0 <= i < |table| && table[i].requestId == e.scope.requestId && table[i].sequence == e.sequence
    then Err
    else Ok(table + [RowOf(e)])
  }

  // ---------------------------------------------------------------- the query

  function Fold(c: char): char { if 'A' <= c <= 'Z' then (c as int + 32) as char else c }

  /** SQLite LIKE: `%` and `_` are wildcards, ASCII letters compare without case. */
  predicate Like(p: string, t: string)
    decreases |p| + |t|
  {
    if p == [] then t == []
    else if p[0] == '%' then Like(p[1..], t) || (t != [] && Like(p, t[1..]))
    else t != [] && (p[0] == '_' || Fold(p[0]) == Fold(t[0])) && Like(p[1..], t[1..])
  }

  /** `? IS NULL OR column = ?` under SQL's three-valued logic: NULL = x does not select. */
  predicate Eq(param: Option<string>, column: Option<string>) { param.None? || param == column }

  datatype Params = Params(requestId: string, from: nat, runnerId: Option<string>, nodeId: Option<string>,
                           sessionId: Option<string>, status: Option<string>, eventType: Option<string>,
                           prefix: Option<string>, layer: Option<string>, sourceId: Option<string>,
                           parentId: Option<string>)

  predicate Selected(p: Params, r: Row) {
    && r.requestId == p.requestId && r.sequence >= p.from
    && Eq(p.runnerId, r.runnerId) && Eq(p.nodeId, r.nodeId) && Eq(p.sessionId, r.sessionId)
    && Eq(p.status, Some(r.status)) && Eq(p.eventType, Some(r.eventType))
    && (p.prefix.None? || Like(p.prefix.value + "%", r.eventType))
    && Eq(p.layer, Some(r.layer)) && Eq(p.sourceId, r.sourceId) && Eq(p.parentId, r.parentId)
  }

  /** ORDER BY sequence_number ASC, as insertion into place. */
  function Insert(rows: seq<Row>, r: Row): seq<Row> {
    if rows == [] then [r]
    else if r.sequence < rows[|rows| - 1].sequence then Insert(rows[..|rows| - 1], r) + [rows[|rows| - 1]]
    else rows + [r]
  }

  function Query(table: seq<Row>, p: Row -> bool): seq<Row> {
    if table == [] then []
    else
      var rest := Query(table[..|table| - 1], p);
      if p(table[|table| - 1]) then Insert(rest, table[|table| - 1]) else rest
  }

  // ---------------------------------------------------------------- the two loaders

  function NormalizeFrom(from: nat): nat { if from == 0 then 1 else from }

  function Single(values: seq<string>): Option<string> { if |values| != 1 then None else Nullable(values[0]) }

  function PushedParams(scope: Scope, from: nat, f: Filter): Params {
    var load := Scope(Or(scope.requestId, f.scope.requestId), Or(scope.runnerId, f.scope.runnerId),
                      Or(scope.nodeId, f.scope.nodeId), Or(scope.sessionId, f.scope.sessionId));
    Params(scope.requestId, NormalizeFrom(from),
           Nullable(load.runnerId), Nullable(load.nodeId), Nullable(load.sessionId),
           Single(f.statuses),
           if |f.prefixes| != 0 then None else Single(f.eventTypes),
           if |f.eventTypes| != 0 then None else Single(f.prefixes),
           if |f.sources| != 1 then None else Nullable(f.sources[0].layer),
           if |f.sources| != 1 then None else Nullable(f.sources[0].id),
           if |f.sources| != 1 then None else Nullable(f.sources[0].parentId))
  }

  predicate Wanted(scope: Scope, f: Filter, e: Event) { Match(ANY.(scope := scope), e) && Match(f, e) }

  function Raws(rows: seq<Row>, scope: Scope, f: Filter): seq<Event> {
    if rows == [] then []
    else
      var r := rows[|rows| - 1];
      Raws(rows[..|rows| - 1], scope, f) + if Wanted(scope, f, r.raw) then [r.raw] else []
  }

  method Recheck(rows: seq<Row>, scope: Scope, f: Filter) returns (out: seq<Event>)
    ensures out == Raws(rows, scope, f)
  {
    out := [];
    var requestScope := ANY.(scope := scope);
    for i := 0 to |rows|
      invariant out == Raws(rows[..i], scope, f)
    {
      assert rows[..i + 1][..i] == rows[..i];
      var e := rows[i].raw;
      if !Match(requestScope, e) {
        continue;
      }
      if Match(f, e) {
        out := out + [e];
      }
    }
    assert rows[..|rows|] == rows;
  }

  function Chosen(params: Params): Row -> bool { (r: Row) => Selected(params, r) }

  function OfRequest(scope: Scope, from: nat): Row -> bool {
    (r: Row) => r.requestId == scope.requestId && r.sequence >= NormalizeFrom(from)
  }

  function SqliteSpec(table: seq<Row>, scope: Scope, from: nat, f: Filter): Result<seq<Event>> {
    if scope.requestId == "" then Err
    else if from > MAX_INT64 then Ok([])
    else
      var params := PushedParams(scope, from, f);
      Ok(Raws(Query(table, Chosen(params)), scope, f))
  }

  function PostgresSpec(table: seq<Row>, scope: Scope, from: nat, f: Filter): Result<seq<Event>> {
    if scope.requestId == "" then Err
    else if from > MAX_INT64 then Ok([])
    else
      Ok(Raws(Query(table, OfRequest(scope, from)), scope, f))
  }

  method SqliteLoad(table: seq<Row>, scope: Scope, from: nat, f: Filter) returns (r: Result<seq<Event>>)
    ensures r == SqliteSpec(table, scope, from, f)
  {
    if scope.requestId == "" {
      return Err;
    }
    if from > MAX_INT64 {
      return Ok([]);
    }
    var params := PushedParams(scope, from, f);
    var out := Recheck(Query(table, Chosen(params)), scope, f);
    return Ok(out);
  }

  method PostgresLoad(table: seq<Row>, scope: Scope, from: nat, f: Filter) returns (r: Result<seq<Event>>)
    ensures r == PostgresSpec(table, scope, from, f)
  {
    if scope.requestId == "" {
      return Err;
    }
    if from > MAX_INT64 {
      return Ok([]);
    }
    var rows := Query(table, OfRequest(scope, from));
    var out := Recheck(rows, scope, f);
    return Ok(out);
  }

  // ---------------------------------------------------------------- pushdown only over-approximates

  lemma {:induction false} AnythingLike(t: string)
    ensures Like("%", t)
  {
    if t != [] {
      AnythingLike(t[1..]);
    } else {
      assert Like("%"[1..], t);
    }
  }

  /** LIKE with the prefix as a pattern selects at least every text with that prefix, whatever
      wildcards and letter cases the prefix contains. */
  lemma {:induction false} PrefixIsLike(p: string, t: string)
    requires p <= t
    ensures Like(p + "%", t)
    decreases |p|
  {
    if p == [] {
      assert p + "%" == "%";
      AnythingLike(t);
    } else {
      PrefixIsLike(p[1..], t[1..]);
      assert (p + "%")[1..] == p[1..] + "%";
      assert p[0] == t[0];
      if p[0] == '%' {
        assert Like(p + "%", t[1..]);
      }
    }
  }

  /** A case where LIKE selects a row the filter does not want, so the recheck is needed. */
  lemma LikeIsWider()
    ensures Like("LLM_" + "%", "llm.output") && !("LLM_" <= "llm.output")
  {
    var p, t := "LLM_" + "%", "llm.output";
    AnythingLike("output");
    assert p[1..] == "LM_%" && t[1..] == "lm.output";
    assert p[1..][1..] == "M_%" && t[1..][1..] == "m.output";
    assert "M_%"[1..] == "_%" && "m.output"[1..] == ".output";
    assert "_%"[1..] == "%" && ".output"[1..] == "output";
  }

  /** Every event the filter wants survives the pushed-down predicate. */
  lemma PushdownIsSound(e: Event, scope: Scope, from: nat, f: Filter)
    requires Wanted(scope, f, e) && e.scope.requestId == scope.requestId && e.sequence >= NormalizeFrom(from)
    ensures Selected(PushedParams(scope, from, f), RowOf(e))
  {
    hide Like;
    if |f.prefixes| == 1 && |f.eventTypes| == 0 {
      assert f.prefixes[0] <= e.eventType;
      PrefixIsLike(f.prefixes[0], e.eventType);
    }
    if |f.sources| == 1 {
      assert MatchSelector(f.sources[0], e.from);
    }
  }

  // ---------------------------------------------------------------- the loaders agree

  ghost predicate Stored(table: seq<Row>) {
    && (forall i :: 0 <= i < |table| ==> table[i] == RowOf(table[i].raw))
    && (forall i, j :: 0 <= i < j < |table| ==>
          !(table[i].requestId == table[j].requestId && table[i].sequence == table[j].sequence))
  }

  ghost predicate Ascending(rows: seq<Row>) {
    forall i, j :: 0 <= i < j < |rows| ==> rows[i].sequence < rows[j].sequence
  }

  lemma {:induction false} InsertAscends(rows: seq<Row>, r: Row)
    requires Ascending(rows) && forall i :: 0 <= i < |rows| ==> rows[i].sequence != r.sequence
    ensures Ascending(Insert(rows, r)) && forall x :: x in Insert(rows, r) <==> x in rows || x == r
  {
    if rows != [] {
      var front, last := rows[..|rows| - 1], rows[|rows| - 1];
      assert rows == front + [last];
      if r.sequence < last.sequence {
        InsertAscends(front, r);
        var ins := Insert(front, r);
        forall i | 0 <= i < |ins| ensures ins[i].sequence < last.sequence { assert ins[i] in ins; }
      }
    }
  }

  /** A query over one request returns each selected row once, in order. */
  lemma {:induction false} QueryOk(table: seq<Row>, p: Row -> bool, requestId: string)
    requires Stored(table) && forall r :: p(r) ==> r.requestId == requestId
    ensures Ascending(Query(table, p)) && forall r :: r in Query(table, p) <==> r in table && p(r)
  {
    if table != [] {
      var front, last := table[..|table| - 1], table[|table| - 1];
      QueryOk(front, p, requestId);
      assert table == front + [last];
      if p(last) {
        var rest := Query(front, p);
        forall i | 0 <= i < |rest| ensures rest[i].sequence != last.sequence {
          assert rest[i] in rest && rest[i] in front;
          var k :| 0 <= k < |front| && front[k] == rest[i];
          assert table[k] == front[k];
        }
        InsertAscends(rest, last);
      }
    }
  }

  ghost predicate EventsAscend(es: seq<Event>) { forall i, j :: 0 <= i < j < |es| ==> es[i].sequence < es[j].sequence }

  lemma {:induction false} RawsOk(rows: seq<Row>, scope: Scope, f: Filter)
    requires Ascending(rows) && forall i :: 0 <= i < |rows| ==> rows[i] == RowOf(rows[i].raw)
    ensures EventsAscend(Raws(rows, scope, f))
    ensures forall e :: e in Raws(rows, scope, f) <==> RowOf(e) in rows && Wanted(scope, f, e)
  {
    hide Wanted, RowOf;
    if rows != [] {
      var front, last := rows[..|rows| - 1], rows[|rows| - 1];
      RawsOk(front, scope, f);
      assert rows == front + [last];
      var out := Raws(front, scope, f);
      forall i | 0 <= i < |out| ensures out[i].sequence < last.raw.sequence {
        assert out[i] in out && RowOf(out[i]) in front;
        var k :| 0 <= k < |front| && front[k] == RowOf(out[i]);
        RowKeeps(out[i]);
        RowKeeps(last.raw);
        assert rows[k].sequence < rows[|front|].sequence;
      }
    }
    RawsMembers(rows, scope, f);
  }

  lemma {:induction false} RawsMembers(rows: seq<Row>, scope: Scope, f: Filter)
    requires forall i :: 0 <= i < |rows| ==> rows[i] == RowOf(rows[i].raw)
    ensures forall e :: e in Raws(rows, scope, f) <==> RowOf(e) in rows && Wanted(scope, f, e)
  {
    hide Wanted, RowOf;
    if rows != [] {
      var front, last := rows[..|rows| - 1], rows[|rows| - 1];
      RawsMembers(front, scope, f);
      assert rows == front + [last];
      forall e ensures e in Raws(rows, scope, f) <==> RowOf(e) in rows && Wanted(scope, f, e) {
        RowKeeps(e);
      }
    }
  }

  lemma RowKeeps(e: Event)
    ensures RowOf(e).raw == e && RowOf(e).sequence == e.sequence && RowOf(e).requestId == e.scope.requestId
  {
  }

  /** What a load promises: exactly the request's wanted events from `from` on, in order. */
  ghost predicate Answers(out: seq<Event>, table: seq<Row>, scope: Scope, from: nat, f: Filter) {
    && EventsAscend(out)
    && forall e :: e in out <==>
         && RowOf(e) in table && e.scope.requestId == scope.requestId
         && e.sequence >= NormalizeFrom(from) && Wanted(scope, f, e)
  }

  lemma SplitLast(a: seq<Event>)
    requires EventsAscend(a) && a != []
    ensures var front, x := a[..|a| - 1], a[|a| - 1];
            a == front + [x] && x !in front && EventsAscend(front) && forall e :: e in a <==> e in front || e == x
  {
    var front, x := a[..|a| - 1], a[|a| - 1];
    assert a == front + [x];
    assert forall k :: 0 <= k < |front| ==> front[k].sequence < x.sequence;
  }

  lemma SomeMember(a: seq<Event>)
    ensures a != [] ==> exists e :: e in a
  {
    if a != [] {
      assert a[0] in a;
    }
  }

  lemma LastIsLargest(a: seq<Event>, e: Event)
    requires EventsAscend(a) && e in a
    ensures var last := a[|a| - 1]; e == last || e.sequence < last.sequence
  {
    var i :| 0 <= i < |a| && a[i] == e;
  }

  lemma {:induction false} AnswersUnique(a: seq<Event>, b: seq<Event>)
    requires EventsAscend(a) && EventsAscend(b) && forall e :: e in a <==> e in b
    ensures a == b
  {
    if a == [] || b == [] {
      SomeMember(a);
      SomeMember(b);
    } else {
      LastIsLargest(a, b[|b| - 1]);
      LastIsLargest(b, a[|a| - 1]);
      hide EventsAscend;
      SplitLast(a);
      SplitLast(b);
      AnswersUnique(a[..|a| - 1], b[..|b| - 1]);
    }
  }

  lemma PostgresAnswers(table: seq<Row>, scope: Scope, from: nat, f: Filter)
    requires Stored(table) && scope.requestId != "" && from <= MAX_INT64
    ensures Answers(PostgresSpec(table, scope, from, f).value, table, scope, from, f)
  {
    hide Raws, Query, Wanted, Ascending, EventsAscend;
    var p := OfRequest(scope, from);
    QueryOk(table, p, scope.requestId);
    QueriedAreStored(table, p);
    RawsOk(Query(table, p), scope, f);
  }

  lemma QueriedAreStored(table: seq<Row>, p: Row -> bool)
    requires Stored(table) && forall r :: r in Query(table, p) <==> r in table && p(r)
    ensures var q := Query(table, p); forall i :: 0 <= i < |q| ==> q[i] == RowOf(q[i].raw)
  {
    var q := Query(table, p);
    forall i | 0 <= i < |q| ensures q[i] == RowOf(q[i].raw) {
      assert q[i] in q;
    }
  }

  lemma SqliteAnswers(table: seq<Row>, scope: Scope, from: nat, f: Filter)
    requires Stored(table) && scope.requestId != "" && from <= MAX_INT64
    ensures Answers(SqliteSpec(table, scope, from, f).value, table, scope, from, f)
  {
    hide Raws, Query, Wanted, Ascending, EventsAscend, Selected, PushedParams, RowOf;
    var params := PushedParams(scope, from, f);
    var p := Chosen(params);
    forall r ensures p(r) <==> Selected(params, r) {}
    forall r ensures Selected(params, r) ==> r.requestId == scope.requestId && r.sequence >= NormalizeFrom(from) {
      SelectedBase(scope, from, f, r);
    }
    QueryOk(table, p, scope.requestId);
    QueriedAreStored(table, p);
    var rows := Query(table, p);
    assert Ascending(rows);
    assert forall i :: 0 <= i < |rows| ==> rows[i] == RowOf(rows[i].raw);
    RawsOk(rows, scope, f);
    forall e: Event
      ensures e in Raws(rows, scope, f) <==>
              && RowOf(e) in table && e.scope.requestId == scope.requestId
              && e.sequence >= NormalizeFrom(from) && Wanted(scope, f, e)
    {
      RowKeeps(e);
      if e.scope.requestId == scope.requestId && e.sequence >= NormalizeFrom(from) && Wanted(scope, f, e) {
        PushdownIsSound(e, scope, from, f);
      }
    }
  }

  lemma SelectedBase(scope: Scope, from: nat, f: Filter, r: Row)
    ensures Selected(PushedParams(scope, from, f), r) ==>
              r.requestId == scope.requestId && r.sequence >= NormalizeFrom(from)
  {
  }

  /** For every table, scope, start and filter the pushed-down load and the plain scan return the
      same event list, or fail alike. */
  lemma LoadersAgree(table: seq<Row>, scope: Scope, from: nat, f: Filter)
    requires Stored(table)
    ensures SqliteSpec(table, scope, from, f) == PostgresSpec(table, scope, from, f)
  {
    hide Raws, Query, Wanted;
    if scope.requestId != "" && from <= MAX_INT64 {
      SqliteAnswers(table, scope, from, f);
      PostgresAnswers(table, scope, from, f);
      AnswersUnique(SqliteSpec(table, scope, from, f).value, PostgresSpec(table, scope, from, f).value);
    }
  }

  lemma AppendStays(table: seq<Row>, e: Event)
    requires Stored(table) && AppendEvent(table, e).Ok?
    ensures Stored(AppendEvent(table, e).value)
  {
  }

  function AppendAll(es: seq<Event>): seq<Row> {
    if es == [] then []
    else
      var t := AppendAll(es[..|es| - 1]);
      match AppendEvent(t, es[|es| - 1]) case Err => t case Ok(t') => t'
  }

  /** Every table the stores can hold was built by appends. */
  lemma {:induction false} AppendsAreStored(es: seq<Event>)
    ensures Stored(AppendAll(es))
  {
    if es != [] {
      AppendsAreStored(es[..|es| - 1]);
      var t := AppendAll(es[..|es| - 1]);
      if AppendEvent(t, es[|es| - 1]).Ok? {
        AppendStays(t, es[|es| - 1]);
      }
    }
  }

  // ---------------------------------------------------------------- what was appended

  /** What a store takes: a request, positive numbers that fit, a type, a layer and a status, under
      a request and number not taken yet. */
  predicate Takes(taken: seq<Event>, e: Event) {
    && e.scope.requestId != "" && e.eventType != "" && e.from.layer != "" && e.status != ""
    && 1 <= e.sequence < 0x8000_0000_0000_0000 && 1 <= e.logicalTime < 0x8000_0000_0000_0000
    && forall i :: 0 <= i < |taken| ==>
         !(taken[i].scope.requestId == e.scope.requestId && taken[i].sequence == e.sequence)
  }

  /** The events accepted, in the order they were appended. */
  function Accepted(es: seq<Event>): seq<Event> {
    if es == [] then []
    else
      var taken := Accepted(es[..|es| - 1]);
      if Takes(taken, es[|es| - 1]) then taken + [es[|es| - 1]] else taken
  }

  ghost predicate Holds(table: seq<Row>, events: seq<Event>) {
    |table| == |events| && forall i :: 0 <= i < |events| ==> table[i] == RowOf(events[i])
  }

  /** An append fails exactly for an event the store does not take, and otherwise puts its row
      beside the rows there were. */
  lemma AppendMeans(table: seq<Row>, taken: seq<Event>, e: Event)
    requires Holds(table, taken)
    ensures AppendEvent(table, e).Ok? <==> Takes(taken, e)
    ensures Takes(taken, e) ==> Holds(AppendEvent(table, e).value, taken + [e])
  {
    assert forall i :: 0 <= i < |taken| ==>
      table[i].requestId == taken[i].scope.requestId && table[i].sequence == taken[i].sequence;
  }

  lemma {:induction false} AppendAllHolds(es: seq<Event>)
    ensures Holds(AppendAll(es), Accepted(es))
  {
    hide AppendEvent, Takes;
    if es != [] {
      AppendAllHolds(es[..|es| - 1]);
      AppendMeans(AppendAll(es[..|es| - 1]), Accepted(es[..|es| - 1]), es[|es| - 1]);
    }
  }

  /** After any appends both stores load, for a request, exactly the accepted events of that request
      from `from` on that the scope and the filter want, in ascending order. */
  lemma LoadAfterAppends(es: seq<Event>, scope: Scope, from: nat, f: Filter, out: seq<Event>)
    requires scope.requestId != ""
    ensures SqliteSpec(AppendAll(es), scope, from, f) == PostgresSpec(AppendAll(es), scope, from, f)
    ensures SqliteSpec(AppendAll(es), scope, from, f) == Ok(out) <==>
            && EventsAscend(out)
            && forall e :: e in out <==>
                 && e in Accepted(es) && e.scope.requestId == scope.requestId && e.sequence >= from
                 && Match(ANY.(scope := scope), e) && Match(f, e)
  {
    hide Raws, Query, Match, Takes, RowOf, AppendAll;
    var table := AppendAll(es);
    AppendsAreStored(es);
    AppendAllHolds(es);
    LoadersAgree(table, scope, from, f);
    if from <= MAX_INT64 {
      SqliteAnswers(table, scope, from, f);
    }
    var answer := SqliteSpec(table, scope, from, f).value;
    assert SqliteSpec(table, scope, from, f).Ok?;
    forall e ensures RowOf(e) in table <==> e in Accepted(es) { RowIsEvent(table, Accepted(es), e); }
    forall e | e in Accepted(es) ensures 1 <= e.sequence <= MAX_INT64 { AcceptedIsTaken(es, e); }
    if EventsAscend(out) && forall e :: e in out <==> e in answer {
      AnswersUnique(answer, out);
    }
  }

  lemma RowIsEvent(table: seq<Row>, events: seq<Event>, e: Event)
    requires Holds(table, events)
    ensures RowOf(e) in table <==> e in events
  {
    hide RowOf;
    if RowOf(e) in table {
      var i :| 0 <= i < |table| && table[i] == RowOf(e);
      RowKeeps(e);
      RowKeeps(events[i]);
    }
    if e in events {
      var i :| 0 <= i < |events| && events[i] == e;
      assert table[i] == RowOf(e);
    }
  }

  lemma {:induction false} AcceptedIsTaken(es: seq<Event>, e: Event)
    requires e in Accepted(es)
    ensures 1 <= e.sequence <= MAX_INT64 && e in es
  {
    var front, last := es[..|es| - 1], es[|es| - 1];
    assert es == front + [last];
    if e in Accepted(front) {
      AcceptedIsTaken(front, e);
    }
  }

  /** What can be decided from a single value in the filter is decided by the database already. */
  lemma PushdownNarrows(e: Event, scope: Scope, from: nat, f: Filter)
    requires Selected(PushedParams(scope, from, f), RowOf(e))
    ensures e.scope.requestId == scope.requestId && e.sequence >= from
    ensures Wild(if scope.runnerId != "" then scope.runnerId else f.scope.runnerId, e.scope.runnerId)
    ensures Wild(if scope.nodeId != "" then scope.nodeId else f.scope.nodeId, e.scope.nodeId)
    ensures Wild(if scope.sessionId != "" then scope.sessionId else f.scope.sessionId, e.scope.sessionId)
    ensures |f.statuses| == 1 && f.statuses[0] != "" ==> e.status == f.statuses[0]
    ensures |f.eventTypes| == 1 && f.eventTypes[0] != "" && f.prefixes == [] ==> e.eventType == f.eventTypes[0]
    ensures |f.prefixes| == 1 && f.prefixes[0] != "" && f.eventTypes == [] ==> Like(f.prefixes[0] + "%", e.eventType)
    ensures |f.sources| == 1 ==> MatchSelector(f.sources[0], e.from)
  {
  }
}
