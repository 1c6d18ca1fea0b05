/** The merge hub's per-upstream FIFO (stream/merge.go): adjacent string deltas with the same
    join key leave it as one event. */
module MergeFifo {
  import opened Wrappers
  import opened StreamEvents
  import opened JsonText

  datatype Ident = Ident(layer: string, id: string)
  datatype JoinKey = JoinKey(upstream: Ident, eventType: string, status: string)

  function IdentOf(src: Source): Ident { Ident(src.layer, src.id) }

  function KeyOf(e: Event): JoinKey { JoinKey(IdentOf(e.from), e.eventType, e.status) }

  predicate Joinable(d: Delta) {
    d.Text? && |d.bytes| >= 2 && d.bytes[0] == '"' && d.bytes[|d.bytes| - 1] == '"'
  }

  predicate CanJoin(base: Event, next: Event) {
    KeyOf(base) == KeyOf(next) && Joinable(base.delta) && Joinable(next.delta)
  }

  /** Two events join exactly when they come from one source, are of one type and status, and both
      carry a quoted text. */
  lemma CanJoinMeans(a: Event, b: Event)
    ensures KeyOf(a) == KeyOf(b) <==>
            a.from.layer == b.from.layer && a.from.id == b.from.id && a.eventType == b.eventType && a.status == b.status
    ensures CanJoin(a, b) <==> KeyOf(a) == KeyOf(b) && QuotedText(a.delta) && QuotedText(b.delta)
  {
  }

  predicate QuotedText(d: Delta) { d.Text? && |d.bytes| > 1 && d.bytes[0] == '"' == d.bytes[|d.bytes| - 1] }

  // ---------------------------------------------------------------- the joined head

  /** How many leading events of `q` join `base`. */
  function Extent(base: Event, q: seq<Event>): (n: nat)
    ensures n <= |q|
    ensures forall i :: 0 <= i < n ==> CanJoin(base, q[i])
    ensures n < |q| ==> !CanJoin(base, q[n])
  {
    if q == [] || !CanJoin(base, q[0]) then 0 else 1 + Extent(base, q[1..])
  }

  /** Length of the maximal run at the head of a non-empty queue. */
  function RunLength(q: seq<Event>): (n: nat)
    requires q != []
    ensures 1 <= n <= |q| && IsRun(q[..n])
    ensures n < |q| ==> !CanJoin(q[0], q[n])
  {
    1 + Extent(q[0], q[1..])
  }

  predicate IsRun(run: seq<Event>) { run != [] && forall i :: 1 <= i < |run| ==> CanJoin(run[0], run[i]) }

  /** The contents of the deltas, without their quotes. */
  function Contents(run: seq<Event>): string
    requires forall i :: 0 <= i < |run| ==> Joinable(run[i].delta)
  {
    if run == [] then []
    else
      assert Joinable(run[|run| - 1].delta);
      Contents(run[..|run| - 1]) + Inner(run[|run| - 1].delta.bytes)
  }

  function Join(run: seq<Event>): Event
    requires IsRun(run)
  {
    if |run| == 1 then run[0]
    else
      assert CanJoin(run[0], run[1]);
      run[0].(delta := Text(Quoted(Contents(run))))
  }

  class UpstreamFifo {
    const maxDepth: nat
    var events: seq<Event>

    constructor (depth: int)
      ensures maxDepth == (if depth <= 0 then 4096 else depth) && events == []
    {
      maxDepth := if depth <= 0 then 4096 else depth;
      events := [];
    }

    method Enqueue(e: Event) returns (ok: bool)
      modifies this
      ensures ok == (|old(events)| < maxDepth)
      ensures events == if ok then old(events) + [e] else old(events)
    {
      if |events| >= maxDepth {
        return false;
      }
      events := events + [e];
      ok := true;
    }

    method Pop() returns (e: Option<Event>)
      modifies this
      ensures old(events) == [] ==> e.None? && events == []
      ensures old(events) != [] ==> e == Some(old(events)[0]) && events == old(events)[1..]
    {
      if events == [] {
        return None;
      }
      e := Some(events[0]);
      events := events[1..];
    }

    method PopJoinedHead() returns (e: Option<Event>)
      modifies this
      ensures old(events) == [] ==> e.None? && events == []
      ensures old(events) != [] ==>
                var n := RunLength(old(events));
                e == Some(Join(old(events)[..n])) && events == old(events)[n..]
    {
      e, events := TakeJoined(events);
    }
  }

  /** popJoinedHead on a queue: the head leaves with its maximal run, and nothing else moves. The
      hub runs it on each of its FIFOs. */
  method TakeJoined(queue: seq<Event>) returns (e: Option<Event>, rest: seq<Event>)
    ensures queue == [] ==> e.None? && rest == []
    ensures queue != [] ==> var n := RunLength(queue); e == Some(Join(queue[..n])) && rest == queue[n..]
  {
    hide Join, CanJoin;
    if queue == [] {
      return None, [];
    }
    var head := queue[0];
    rest := queue[1..];
    var count := CountJoins(head, rest);
    assert RunLength(queue) == 1 + count;
    if count == 0 {
      assert queue[..1] == [head];
      JoinOne(head);
      return Some(head), rest;
    }
    assert [head] + rest[..count] == queue[..count + 1];
    var joined := JoinRun([head] + rest[..count]);
    e, rest := Some(joined), rest[count..];
  }

  method CountJoins(head: Event, rest: seq<Event>) returns (count: nat)
    ensures count == Extent(head, rest)
  {
    hide CanJoin;
    count := 0;
    while count < |rest|
      invariant count <= |rest|
      invariant Extent(head, rest) == count + Extent(head, rest[count..])
    {
      assert rest[count..][0] == rest[count] && rest[count..][1..] == rest[count + 1..];
      if !CanJoin(head, rest[count]) {
        break;
      }
      count := count + 1;
    }
  }

  /** The buffer loop of popJoinedHead. */
  method JoinRun(run: seq<Event>) returns (e: Event)
    requires IsRun(run) && |run| > 1
    ensures e == Join(run)
  {
    hide CanJoin;
    RunDeltas(run);
    assert run[..1] == [] + [run[0]] && run[..1][..0] == [];
    var joined := Inner(run[0].delta.bytes);
    for i := 1 to |run|
      invariant joined == Contents(run[..i])
    {
      assert run[..i + 1][..i] == run[..i];
      joined := joined + Inner(run[i].delta.bytes);
    }
    assert run[..|run|] == run;
    e := run[0].(delta := Text(Quoted(joined)));
  }

  lemma JoinOne(e: Event)
    ensures Join([e]) == e
  {
  }

  lemma RunDeltas(run: seq<Event>)
    requires IsRun(run) && |run| > 1
    ensures forall i :: 0 <= i < |run| ==> Joinable(run[i].delta)
  {
    assert CanJoin(run[0], run[1]);
  }

  // ---------------------------------------------------------------- joining preserves meaning

  /** Deltas that look like strings are strings; Emit admits no other JSON. */
  predicate ValidDelta(e: Event) { Joinable(e.delta) ==> IsString(e.delta.bytes) }

  function TextOf(e: Event): seq<nat>
    requires ValidDelta(e)
  {
    if Joinable(e.delta) then Decode(Inner(e.delta.bytes)) else []
  }

  /** All text under one join key, in order. */
  function KeyText(k: JoinKey, es: seq<Event>): seq<nat>
    requires forall i :: 0 <= i < |es| ==> ValidDelta(es[i])
  {
    if es == [] then []
    else KeyText(k, es[..|es| - 1]) + if KeyOf(es[|es| - 1]) == k then TextOf(es[|es| - 1]) else []
  }

  lemma {:induction false} RunContents(run: seq<Event>)
    requires forall i :: 0 <= i < |run| ==>
               Joinable(run[i].delta) && ValidDelta(run[i]) && KeyOf(run[i]) == KeyOf(run[0])
    ensures Chars(Contents(run))
    ensures run != [] ==> Decode(Contents(run)) == KeyText(KeyOf(run[0]), run)
    ensures run != [] ==> forall k :: k != KeyOf(run[0]) ==> KeyText(k, run) == []
  {
    if run != [] {
      var front, last := run[..|run| - 1], run[|run| - 1];
      RunContents(front);
      CharsConcat(Contents(front), Inner(last.delta.bytes));
      if front == [] {
        assert Contents(run) == Inner(last.delta.bytes);
      }
    }
  }

  /** The joined delta is again a JSON string, and its value is the concatenation of the parts. */
  lemma JoinPreservesText(run: seq<Event>, k: JoinKey)
    requires IsRun(run) && forall i :: 0 <= i < |run| ==> ValidDelta(run[i])
    ensures ValidDelta(Join(run)) && KeyOf(Join(run)) == KeyOf(run[0])
    ensures |run| > 1 ==> IsString(Join(run).delta.bytes)
    ensures KeyText(k, [Join(run)]) == KeyText(k, run)
  {
    hide Decode, Chars, Contents;
    var j := Join(run);
    assert [j][..0] == [];
    if |run| == 1 {
      assert run == [run[0]];
    } else {
      assert CanJoin(run[0], run[1]);
      RunContents(run);
      assert Inner(j.delta.bytes) == Contents(run);
    }
  }

  /** A joined event is the head of its run with nothing but the delta changed. */
  lemma JoinKeepsHead(run: seq<Event>)
    requires IsRun(run)
    ensures Join(run).(delta := run[0].delta) == run[0]
    ensures |run| == 1 ==> Join(run) == run[0]
  {
    if |run| > 1 {
      assert CanJoin(run[0], run[1]);
    }
  }

  lemma {:induction false} KeyTextConcat(k: JoinKey, a: seq<Event>, b: seq<Event>)
    requires forall i :: 0 <= i < |a| ==> ValidDelta(a[i])
    requires forall i :: 0 <= i < |b| ==> ValidDelta(b[i])
    ensures KeyText(k, a + b) == KeyText(k, a) + KeyText(k, b)
  {
    hide TextOf, KeyOf, ValidDelta;
    if b == [] {
      assert a + b == a;
    } else {
      KeyTextConcat(k, a, b[..|b| - 1]);
      assert (a + b)[..|a + b| - 1] == a + b[..|b| - 1];
    }
  }

  // ---------------------------------------------------------------- merging a whole sequence

  function Flatten(groups: seq<seq<Event>>): seq<Event> {
    if groups == [] then [] else Flatten(groups[..|groups| - 1]) + groups[|groups| - 1]
  }

  predicate Runs(groups: seq<seq<Event>>) { forall i :: 0 <= i < |groups| ==> IsRun(groups[i]) }

  function JoinEach(groups: seq<seq<Event>>): (r: seq<Event>)
    requires Runs(groups)
    ensures |r| == |groups|
    ensures forall i :: 0 <= i < |r| ==> r[i] == Join(groups[i])
  {
    seq(|groups|, i requires 0 <= i < |groups| => Join(groups[i]))
  }

  /** `out` is `events` with only adjacent same-key string deltas merged: nothing lost,
      duplicated or reordered. */
  ghost predicate Merges(events: seq<Event>, out: seq<Event>) {
    exists groups :: Runs(groups) && Flatten(groups) == events && JoinEach(groups) == out
  }

  lemma {:induction false} GroupsPreserveText(k: JoinKey, groups: seq<seq<Event>>)
    requires Runs(groups) && forall e :: e in Flatten(groups) ==> ValidDelta(e)
    ensures forall e :: e in JoinEach(groups) ==> ValidDelta(e)
    ensures KeyText(k, JoinEach(groups)) == KeyText(k, Flatten(groups))
  {
    hide KeyText, TextOf, ValidDelta, Join, IsRun;
    if groups != [] {
      var front, last := groups[..|groups| - 1], groups[|groups| - 1];
      assert Flatten(groups) == Flatten(front) + last;
      forall e | e in last ensures e in Flatten(groups) {}
      GroupsPreserveText(k, front);
      JoinPreservesText(last, k);
      assert JoinEach(groups) == JoinEach(front) + [Join(last)];
      KeyTextConcat(k, JoinEach(front), [Join(last)]);
      KeyTextConcat(k, Flatten(front), last);
    }
  }

  /** Whatever runs a sequence is merged by, the text under every join key is unchanged. */
  lemma MergePreservesText(events: seq<Event>, out: seq<Event>, k: JoinKey)
    requires Merges(events, out) && forall e :: e in events ==> ValidDelta(e)
    ensures forall e :: e in out ==> ValidDelta(e)
    ensures KeyText(k, out) == KeyText(k, events)
  {
    var groups :| Runs(groups) && Flatten(groups) == events && JoinEach(groups) == out;
    GroupsPreserveText(k, groups);
  }
}
