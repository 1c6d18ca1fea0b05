/** Events, scopes, filters and merge bundles (stream/event.go, stream/filter.go,
    stream/bundle.go). A delta is either opaque JSON text or an encoded event batch; the JSON
    codec is taken to be an injective round trip, so a batch is kept decoded. */
module StreamEvents {
  import opened Wrappers

  datatype Source = Source(layer: string, id: string, parentId: string)
  datatype Scope = Scope(requestId: string, runnerId: string, nodeId: string, sessionId: string)
  datatype Meta = Num(n: nat) | Str(s: string)
  datatype Delta = Text(bytes: string) | Batch(tick: nat, events: seq<Event>)
  datatype Event = Event(eventType: string, from: Source, sequence: nat, status: string, delta: Delta,
                         logicalTime: nat, scope: Scope, metadata: map<string, Meta>)

  const BUNDLE := "merge.bundle"
  const NO_SCOPE := Scope("", "", "", "")

  function Or(override: string, base: string): string { if override == "" then base else override }

  function MergeScope(base: Scope, override: Scope): Scope {
    Scope(Or(override.requestId, base.requestId), Or(override.runnerId, base.runnerId),
          Or(override.nodeId, base.nodeId), Or(override.sessionId, base.sessionId))
  }

  // ---------------------------------------------------------------- filters

  datatype Selector = Selector(layer: string, id: string, parentId: string)
  datatype Filter = Filter(eventTypes: seq<string>, prefixes: seq<string>, sources: seq<Selector>,
                           statuses: seq<string>, scope: Scope)

  const ANY := Filter([], [], [], [], NO_SCOPE)

  predicate Wild(want: string, have: string) { want == "" || want == have }

  predicate MatchEventType(f: Filter, eventType: string) {
    || (f.eventTypes == [] && f.prefixes == [])
    || eventType in f.eventTypes
    || exists i :: 0 <= i < |f.prefixes| && f.prefixes[i] <= eventType
  }

  predicate MatchSelector(s: Selector, src: Source) {
    Wild(s.layer, src.layer) && Wild(s.id, src.id) && Wild(s.parentId, src.parentId)
  }

  predicate MatchSource(f: Filter, src: Source) {
    f.sources == [] || exists i :: 0 <= i < |f.sources| && MatchSelector(f.sources[i], src)
  }

  predicate MatchStatus(f: Filter, status: string) { f.statuses == [] || status in f.statuses }

  predicate MatchScope(want: Scope, have: Scope) {
    && Wild(want.requestId, have.requestId) && Wild(want.runnerId, have.runnerId)
    && Wild(want.nodeId, have.nodeId) && Wild(want.sessionId, have.sessionId)
  }

  predicate Match(f: Filter, ev: Event) {
    && MatchEventType(f, ev.eventType) && MatchSource(f, ev.from)
    && MatchStatus(f, ev.status) && MatchScope(f.scope, ev.scope)
  }

  /** The events of `log` that match, in order. */
  function Select(f: Filter, log: seq<Event>): seq<Event> {
    if log == [] then []
    else Select(f, log[..|log| - 1]) + if Match(f, log[|log| - 1]) then [log[|log| - 1]] else []
  }

  // ---------------------------------------------------------------- bundles

  /** ExpandBundleEvent: nested events inherit missing scope fields from the carrier. */
  function Expand(ev: Event): Result<seq<Event>> {
    if ev.eventType != BUNDLE then Ok([ev])
    else if ev.delta.Text? || ev.delta.events == [] then Err
    else Ok(Rescope(ev.scope, ev.delta.events))
  }

  function Rescope(outer: Scope, events: seq<Event>): (r: seq<Event>)
    ensures |r| == |events|
    ensures forall i :: 0 <= i < |r| ==> r[i] == events[i].(scope := MergeScope(outer, events[i].scope))
  {
    seq(|events|, i requires 0 <= i < |events| => events[i].(scope := MergeScope(outer, events[i].scope)))
  }

  function FilterBundle(ev: Event, f: Filter): Result<seq<Event>> {
    match Expand(ev) case Err => Err case Ok(events) => Ok(Select(f, events))
  }

  /** Unpacking bundle by bundle from the inside out is unpacking once with the carriers' merged
      scope, so a nested event takes each field from the innermost level that has one; unpacking
      again by the same carrier changes nothing. */
  lemma RescopeComposes(outer: Scope, inner: Scope, events: seq<Event>)
    ensures Rescope(outer, Rescope(inner, events)) == Rescope(MergeScope(outer, inner), events)
    ensures Rescope(inner, Rescope(inner, events)) == Rescope(inner, events)
  {
    forall i | 0 <= i < |events|
      ensures Rescope(outer, Rescope(inner, events))[i] == Rescope(MergeScope(outer, inner), events)[i]
    {
      assert Rescope(inner, events)[i].scope == MergeScope(inner, events[i].scope);
    }
    assert Rescope(outer, Rescope(inner, events)) == Rescope(MergeScope(outer, inner), events);
    assert Rescope(inner, Rescope(inner, events)) == Rescope(inner, events);
  }

  /** A scope filter that the carrier meets is met by every nested event without a scope of its own. */
  lemma RescopeInherits(outer: Scope, events: seq<Event>, want: Scope, i: nat)
    requires i < |events| && events[i].scope == NO_SCOPE
    ensures MatchScope(want, Rescope(outer, events)[i].scope) <==> MatchScope(want, outer)
  {
  }

  lemma SelectAppend(f: Filter, log: seq<Event>, e: Event)
    ensures Select(f, log + [e]) == Select(f, log) + if Match(f, e) then [e] else []
  {
    assert (log + [e])[..|log|] == log;
  }

  lemma {:induction false} SelectConcat(f: Filter, a: seq<Event>, b: seq<Event>)
    ensures Select(f, a + b) == Select(f, a) + Select(f, b)
  {
    if b == [] {
      assert a + b == a;
    } else {
      var c, e := b[..|b| - 1], b[|b| - 1];
      SelectConcat(f, a, c);
      assert a + b == (a + c) + [e];
      SelectAppend(f, a + c, e);
    }
  }

  lemma {:induction false} SelectMembers(f: Filter, log: seq<Event>, e: Event)
    ensures e in Select(f, log) <==> e in log && Match(f, e)
  {
    if log != [] {
      SelectMembers(f, log[..|log| - 1], e);
      assert log == log[..|log| - 1] + [log[|log| - 1]];
    }
  }

  // ---------------------------------------------------------------- what the parts mean

  /** A field of the result is the override's own wherever it has one, and the base's otherwise. */
  ghost predicate Inherits(base: Scope, own: Scope, r: Scope) {
    && (if own.requestId != "" then r.requestId == own.requestId else r.requestId == base.requestId)
    && (if own.runnerId != "" then r.runnerId == own.runnerId else r.runnerId == base.runnerId)
    && (if own.nodeId != "" then r.nodeId == own.nodeId else r.nodeId == base.nodeId)
    && (if own.sessionId != "" then r.sessionId == own.sessionId else r.sessionId == base.sessionId)
  }

  /** The same event but for its scope. */
  predicate SameButScope(a: Event, b: Event) { a == b.(scope := a.scope) }

  /** Expanding hands a plain event back, fails exactly for a bundle without events, and gives every
      nested event once, in order, with its own scope fields where it has them. */
  lemma ExpandMeans(ev: Event)
    ensures ev.eventType != "merge.bundle" ==> Expand(ev) == Ok([ev])
    ensures ev.eventType == "merge.bundle" ==> (Expand(ev).Ok? <==> ev.delta.Batch? && ev.delta.events != [])
    ensures ev.eventType == "merge.bundle" && Expand(ev).Ok? ==>
              && |Expand(ev).value| == |ev.delta.events|
              && forall k :: 0 <= k < |ev.delta.events| ==>
                   var own, got := ev.delta.events[k], Expand(ev).value[k];
                   SameButScope(own, got) && Inherits(ev.scope, own.scope, got.scope)
  {
  }

  /** A filter asks for each of its kinds of condition separately; an empty kind asks for nothing;
      values of one kind are alternatives, event types and prefixes being one kind. */
  lemma FilterMeans(f: Filter, e: Event)
    ensures Match(f, e) <==>
            && ((f.eventTypes == [] && f.prefixes == []) ||
                (exists t :: t in f.eventTypes && Match(ANY.(eventTypes := [t]), e)) ||
                (exists p :: p in f.prefixes && Match(ANY.(prefixes := [p]), e)))
            && (f.sources == [] || exists s :: s in f.sources && Match(ANY.(sources := [s]), e))
            && (f.statuses == [] || exists t :: t in f.statuses && Match(ANY.(statuses := [t]), e))
            && Match(ANY.(scope := f.scope), e)
  {
    forall t ensures Match(ANY.(eventTypes := [t]), e) <==> e.eventType == t {
      OneCondition(e, t, ANY_SOURCE, NO_SCOPE);
    }
    forall p ensures Match(ANY.(prefixes := [p]), e) <==> p <= e.eventType {
      OneCondition(e, p, ANY_SOURCE, NO_SCOPE);
    }
    forall s ensures Match(ANY.(sources := [s]), e) <==> MatchSelector(s, e.from) { OneSource(e, s); }
    forall t ensures Match(ANY.(statuses := [t]), e) <==> e.status == t { OneCondition(e, t, ANY_SOURCE, NO_SCOPE); }
    if exists i :: 0 <= i < |f.prefixes| && f.prefixes[i] <= e.eventType {
      var i :| 0 <= i < |f.prefixes| && f.prefixes[i] <= e.eventType;
      assert f.prefixes[i] in f.prefixes;
    }
    if exists i :: 0 <= i < |f.sources| && MatchSelector(f.sources[i], e.from) {
      var i :| 0 <= i < |f.sources| && MatchSelector(f.sources[i], e.from);
      assert f.sources[i] in f.sources;
    }
  }

  const ANY_SOURCE := Selector("", "", "")

  lemma OneSource(e: Event, s: Selector)
    ensures Match(ANY.(sources := [s]), e) <==> MatchSelector(s, e.from)
  {
    assert [s][0] == s;
  }

  /** One condition alone: a type is met exactly, a prefix by every type that begins with it, a
      status exactly; a selector or a scope by the fields it names, an empty field naming none. */
  lemma OneCondition(e: Event, text: string, s: Selector, scope: Scope)
    ensures Match(ANY, e)
    ensures Match(ANY.(eventTypes := [text]), e) <==> e.eventType == text
    ensures Match(ANY.(prefixes := [text]), e) <==> text <= e.eventType
    ensures Match(ANY.(statuses := [text]), e) <==> e.status == text
    ensures Match(ANY.(sources := [s]), e) <==>
            && (s.layer != "" ==> e.from.layer == s.layer) && (s.id != "" ==> e.from.id == s.id)
            && (s.parentId != "" ==> e.from.parentId == s.parentId)
    ensures Match(ANY.(scope := scope), e) <==>
            && (scope.requestId != "" ==> e.scope.requestId == scope.requestId)
            && (scope.runnerId != "" ==> e.scope.runnerId == scope.runnerId)
            && (scope.nodeId != "" ==> e.scope.nodeId == scope.nodeId)
            && (scope.sessionId != "" ==> e.scope.sessionId == scope.sessionId)
  {
    assert [text][0] == text && [s][0] == s;
  }

  // ---------------------------------------------------------------- reading a log from a number

  /** The logged events numbered `from` or later. */
  function From(log: seq<Event>, from: nat): seq<Event> {
    if log == [] then []
    else From(log[..|log| - 1], from) + if log[|log| - 1].sequence < from then [] else [log[|log| - 1]]
  }

  lemma {:induction false} FromIsSuffix(log: seq<Event>, from: nat, k: nat)
    requires k <= |log| && forall i :: 0 <= i < |log| ==> (log[i].sequence < from <==> i < k)
    ensures From(log, from) == log[k..]
  {
    if log != [] {
      var front := log[..|log| - 1];
      var j := if k == |log| then |front| else k;
      assert forall i :: 0 <= i < |front| ==> front[i] == log[i];
      FromIsSuffix(front, from, j);
      SuffixGrows(log, k, j);
    }
  }

  lemma SuffixGrows(log: seq<Event>, k: nat, j: nat)
    requires log != [] && k <= |log| && j == if k == |log| then |log| - 1 else k
    ensures log[k..] == log[..|log| - 1][j..] + if k == |log| then [] else [log[|log| - 1]]
  {
  }
}
