/** The tick hub (stream/merge.go): feeders register an upstream, enqueue its events into a
    FIFO, and every tick takes one joined event per FIFO into a frame. Each region run under the
    hub's lock is one step; ranging over the FIFO map in random order is a parameter. Frames are
    kept in tick order: a frame is emitted after the lock is released, by the ticker or by a
    draining feeder, so downstream order is not tick order.

    `hist` records, per registration, what was enqueued, the runs taken and the first frame it
    can appear in. `willStop` marks the decision to stop that idleLocked makes. */
module MergeHub {
  import opened Wrappers
  import opened StreamEvents
  import opened MergeFifo

  datatype Feeder = Awaiting | Feeding(ident: Ident) | Leaving(ident: Ident) | Draining(ident: Ident)
                  | Stranded(ident: Ident) | Gone

  datatype Frame = Frame(tick: nat, items: seq<(Ident, Event)>)

  datatype Hist = Hist(enqueued: seq<Event>, taken: seq<seq<Event>>, since: nat)

  datatype Hub = Hub(
    scope: Scope, depth: nat, tick: nat, fifos: map<Ident, seq<Event>>, subs: set<Ident>, pending: nat,
    feeders: map<nat, Feeder>, ctxDone: bool, willStop: bool, frames: seq<Frame>, hist: map<Ident, Hist>)

  function Create(scope: Scope, depth: nat): Hub {
    Hub(scope, depth, 0, map[], {}, 0, map[], false, false, [], map[])
  }

  // ---------------------------------------------------------------- lock-held regions

  predicate Idle(h: Hub) { h.pending == 0 && h.subs == {} && h.fifos == map[] }

  function Decide(h: Hub): Hub { h.(willStop := h.willStop || Idle(h)) }

  function Begin(h: Hub, f: nat): Hub { h.(pending := h.pending + 1, feeders := h.feeders[f := Awaiting]) }

  function Less1(n: nat): nat { if n > 0 then n - 1 else 0 }

  function CancelPending(h: Hub, f: nat): Hub {
    Decide(h.(pending := Less1(h.pending), feeders := h.feeders[f := Gone]))
  }

  /** registerPendingUpstream; a refused feeder is gone. */
  function Register(h: Hub, f: nat, i: Ident): Hub {
    var r := h.(pending := Less1(h.pending));
    if h.ctxDone || i in h.fifos then r.(feeders := h.feeders[f := Gone])
    else r.(fifos := h.fifos[i := []], subs := h.subs + {i}, feeders := h.feeders[f := Feeding(i)],
            hist := h.hist[i := Hist([], [], |h.frames|)])
  }

  function Prepared(e: Event, scope: Scope): Event {
    e.(sequence := 0, scope := MergeScope(scope, e.scope),
       metadata := e.metadata["upstream_sequence_number" := Num(e.sequence)])
  }

  /** A full FIFO, or one that is gone, turns the event away and the feeder leaves. */
  function Enqueue(h: Hub, f: nat, i: Ident, e: Event): Hub {
    if i !in h.fifos || i !in h.hist || |h.fifos[i]| >= h.depth then h.(feeders := h.feeders[f := Leaving(i)])
    else
      var p := Prepared(e, h.scope);
      h.(fifos := h.fifos[i := h.fifos[i] + [p]],
         hist := h.hist[i := h.hist[i].(enqueued := h.hist[i].enqueued + [p])])
  }

  function CloseUpstream(h: Hub, f: nat, i: Ident): Hub {
    Decide(h.(subs := h.subs - {i}, feeders := h.feeders[f := Draining(i)],
              fifos := if i in h.fifos && h.fifos[i] == [] then h.fifos - {i} else h.fifos))
  }

  function Unregister(h: Hub, f: nat, i: Ident): Hub {
    Decide(h.(subs := h.subs - {i}, fifos := h.fifos - {i}, hist := h.hist - {i}, feeders := h.feeders[f := Gone]))
  }

  function Rest(q: seq<Event>): seq<Event> { if q == [] then [] else q[RunLength(q)..] }

  function HeadRun(q: seq<Event>): (run: seq<Event>)
    requires q != []
    ensures IsRun(run) && run + Rest(q) == q
  {
    q[..RunLength(q)]
  }

  /** One joined event per non-empty FIFO, in the order the map is ranged. */
  function Collect(fifos: map<Ident, seq<Event>>, order: seq<Ident>): seq<(Ident, Event)>
    requires forall k :: 0 <= k < |order| ==> order[k] in fifos
  {
    if order == [] then []
    else
      var i := order[|order| - 1];
      Collect(fifos, order[..|order| - 1]) + if fifos[i] == [] then [] else [(i, Join(HeadRun(fifos[i])))]
  }

  /** Emptied FIFOs whose upstream has closed are dropped. */
  function Drained(fifos: map<Ident, seq<Event>>, subs: set<Ident>): map<Ident, seq<Event>> {
    map i | i in fifos && (Rest(fifos[i]) != [] || i in subs) :: Rest(fifos[i])
  }

  function Took(hist: map<Ident, Hist>, fifos: map<Ident, seq<Event>>): map<Ident, Hist> {
    map i | i in hist ::
      if i in fifos && fifos[i] != [] then hist[i].(taken := hist[i].taken + [HeadRun(fifos[i])]) else hist[i]
  }

  predicate Enumerates(order: seq<Ident>, keys: set<Ident>) {
    && (forall k :: 0 <= k < |order| ==> order[k] in keys)
    && (forall i :: i in keys ==> i in order)
    && (forall k, l :: 0 <= k < l < |order| ==> order[k] != order[l])
  }

  function Flush(h: Hub, order: seq<Ident>): Hub
    requires Enumerates(order, h.fifos.Keys)
  {
    if h.fifos == map[] then h
    else
      Decide(h.(fifos := Drained(h.fifos, h.subs), tick := h.tick + 1,
                frames := h.frames + [Frame(h.tick + 1, Collect(h.fifos, order))],
                hist := Took(h.hist, h.fifos)))
  }

  // ---------------------------------------------------------------- steps

  datatype Step =
    | Began(f: nat) | NoFirstEvent(f: nat) | Registered(f: nat, ident: Ident) | Enqueued(f: nat, event: Event)
    | Left(f: nat) | Closed(f: nat) | Flushed(order: seq<Ident>) | Finished(f: nat) | CheckedIdle | Abandoned(f: nat)
    | Cancelled

  predicate Legal(h: Hub, step: Step) {
    match step
    case Began(f) => f !in h.feeders
    case NoFirstEvent(f) => f in h.feeders && h.feeders[f].Awaiting?
    case Registered(f, _) => f in h.feeders && h.feeders[f].Awaiting?
    case Enqueued(f, _) => f in h.feeders && h.feeders[f].Feeding?
    case Left(f) => f in h.feeders && (h.feeders[f].Feeding? || h.feeders[f].Leaving?)
    case Closed(f) => f in h.feeders && h.feeders[f].Feeding?
    case Flushed(order) => Enumerates(order, h.fifos.Keys)
    case Finished(f) => f in h.feeders && h.feeders[f].Draining?
    case CheckedIdle => true
    case Abandoned(f) => h.ctxDone && f in h.feeders && h.feeders[f].Feeding?
    case Cancelled => true
  }

  function Apply(h: Hub, step: Step): Hub
    requires Legal(h, step)
  {
    match step
    case Began(f) => Begin(h, f)
    case NoFirstEvent(f) => CancelPending(h, f)
    case Registered(f, i) => Register(h, f, i)
    case Enqueued(f, e) => Enqueue(h, f, h.feeders[f].ident, e)
    case Left(f) => Unregister(h, f, h.feeders[f].ident)
    case Closed(f) => CloseUpstream(h, f, h.feeders[f].ident)
    case Flushed(order) => Flush(h, order)
    case Finished(f) => Decide(h.(feeders := h.feeders[f := Gone]))
    case CheckedIdle => Decide(h)
    case Abandoned(f) => h.(feeders := h.feeders[f := Stranded(h.feeders[f].ident)])
    case Cancelled => h.(ctxDone := true)
  }

  // ---------------------------------------------------------------- invariants

  function ItemsIn(i: Ident, items: seq<(Ident, Event)>): seq<Event> {
    if items == [] then []
    else ItemsIn(i, items[..|items| - 1]) + if items[|items| - 1].0 == i then [items[|items| - 1].1] else []
  }

  /** What the frames, in tick order, carry for one upstream. */
  function ItemsOf(i: Ident, frames: seq<Frame>): seq<Event> {
    if frames == [] then [] else ItemsOf(i, frames[..|frames| - 1]) + ItemsIn(i, frames[|frames| - 1].items)
  }

  function Queue(fifos: map<Ident, seq<Event>>, i: Ident): seq<Event> { if i in fifos then fifos[i] else [] }

  /** Subscribed identities have a FIFO, closed ones a non-empty FIFO, and no FIFO overflows. */
  ghost predicate Linked(subs: set<Ident>, fifos: map<Ident, seq<Event>>, depth: nat) {
    && subs <= fifos.Keys
    && forall i :: i in fifos ==> (i in subs || fifos[i] != []) && |fifos[i]| <= depth
  }

  function Waiting(feeders: map<nat, Feeder>): set<nat> { set f | f in feeders && feeders[f].Awaiting? }

  predicate Feeds(feeders: map<nat, Feeder>, f: nat, i: Ident) {
    f in feeders && (feeders[f] == Feeding(i) || feeders[f] == Leaving(i) || feeders[f] == Stranded(i))
  }

  /** A subscribed identity has exactly one feeder. */
  ghost predicate Owned(subs: set<Ident>, feeders: map<nat, Feeder>) {
    && (forall i :: i in subs ==> exists f :: Feeds(feeders, f, i))
    && (forall f, i :: Feeds(feeders, f, i) ==> i in subs)
    && (forall f, g, i :: Feeds(feeders, f, i) && Feeds(feeders, g, i) ==> f == g)
  }

  ghost predicate HistOk(i: Ident, hi: Hist, queue: seq<Event>, frames: seq<Frame>) {
    && hi.since <= |frames| && Runs(hi.taken)
    && Flatten(hi.taken) + queue == hi.enqueued
    && JoinEach(hi.taken) == ItemsOf(i, frames[hi.since..])
  }

  ghost predicate Recorded(fifos: map<Ident, seq<Event>>, hist: map<Ident, Hist>, frames: seq<Frame>) {
    && fifos.Keys <= hist.Keys
    && forall i :: i in hist ==> HistOk(i, hist[i], Queue(fifos, i), frames)
  }

  ghost predicate Ticks(tick: nat, frames: seq<Frame>) {
    tick == |frames| && forall k :: 0 <= k < |frames| ==> frames[k].tick == k + 1
  }

  ghost predicate Inv(h: Hub) {
    && Linked(h.subs, h.fifos, h.depth)
    && h.pending == |Waiting(h.feeders)|
    && Owned(h.subs, h.feeders)
    && Recorded(h.fifos, h.hist, h.frames)
    && Ticks(h.tick, h.frames)
  }

  // ---------------------------------------------------------------- a flush, per upstream

  lemma {:induction false} ItemsInConcat(i: Ident, items: seq<(Ident, Event)>, last: (Ident, Event))
    ensures ItemsIn(i, items + [last]) == ItemsIn(i, items) + if last.0 == i then [last.1] else []
  {
    assert (items + [last])[..|items|] == items;
  }

  /** A frame carries at most one event per upstream: its joined head run. */
  lemma {:induction false} CollectOnce(fifos: map<Ident, seq<Event>>, order: seq<Ident>, i: Ident)
    requires forall k :: 0 <= k < |order| ==> order[k] in fifos
    requires forall k, l :: 0 <= k < l < |order| ==> order[k] != order[l]
    ensures ItemsIn(i, Collect(fifos, order)) ==
            if i in order && fifos[i] != [] then [Join(HeadRun(fifos[i]))] else []
  {
    hide Join, HeadRun, ItemsIn, Collect;
    if order == [] {
      NoItems(i);
      EmptyCollect(fifos);
    } else {
      var front, j := order[..|order| - 1], order[|order| - 1];
      CollectOnce(fifos, front, i);
      CollectMore(fifos, order);
      assert forall k :: 0 <= k < |front| ==> front[k] == order[k] && front[k] != j;
      assert i in order <==> i in front || i == j;
      if fifos[j] != [] {
        ItemsInConcat(i, Collect(fifos, front), (j, Join(HeadRun(fifos[j]))));
      }
    }
  }

  lemma CollectMore(fifos: map<Ident, seq<Event>>, order: seq<Ident>)
    requires order != [] && forall k :: 0 <= k < |order| ==> order[k] in fifos
    ensures var front, j := order[..|order| - 1], order[|order| - 1];
            if fifos[j] == [] then Collect(fifos, order) == Collect(fifos, front)
            else Collect(fifos, order) == Collect(fifos, front) + [(j, Join(HeadRun(fifos[j])))]
  {
    hide Join, HeadRun;
  }

  lemma NoItems(i: Ident)
    ensures ItemsIn(i, []) == []
  {
  }

  lemma ItemsOfAppend(i: Ident, frames: seq<Frame>, fr: Frame, since: nat)
    requires since <= |frames|
    ensures ItemsOf(i, (frames + [fr])[since..]) == ItemsOf(i, frames[since..]) + ItemsIn(i, fr.items)
  {
    assert (frames + [fr])[since..] == frames[since..] + [fr];
    assert (frames[since..] + [fr])[..|frames| - since] == frames[since..];
  }

  lemma TakeHead(taken: seq<seq<Event>>, queue: seq<Event>)
    requires Runs(taken) && queue != []
    ensures var next := taken + [HeadRun(queue)];
            && Runs(next) && Flatten(next) + Rest(queue) == Flatten(taken) + queue
            && JoinEach(next) == JoinEach(taken) + [Join(HeadRun(queue))]
  {
    hide Join, HeadRun, IsRun, Rest;
    var next := taken + [HeadRun(queue)];
    assert next[..|taken|] == taken;
    assert Flatten(next) == Flatten(taken) + HeadRun(queue);
  }

  lemma FlushKeepsHist(h: Hub, order: seq<Ident>, i: Ident)
    requires Enumerates(order, h.fifos.Keys) && i in h.hist
    requires HistOk(i, h.hist[i], Queue(h.fifos, i), h.frames)
    ensures HistOk(i, Took(h.hist, h.fifos)[i], Queue(Drained(h.fifos, h.subs), i),
                   h.frames + [Frame(h.tick + 1, Collect(h.fifos, order))])
  {
    hide Collect, Join, Flatten, RunLength;
    var fr := Frame(h.tick + 1, Collect(h.fifos, order));
    CollectOnce(h.fifos, order, i);
    ItemsOfAppend(i, h.frames, fr, h.hist[i].since);
    var q := Queue(h.fifos, i);
    if q != [] {
      TakeHead(h.hist[i].taken, q);
      assert Queue(Drained(h.fifos, h.subs), i) == Rest(q);
    } else {
      assert Queue(Drained(h.fifos, h.subs), i) == [];
      assert ItemsOf(i, h.frames[h.hist[i].since..]) + [] == ItemsOf(i, h.frames[h.hist[i].since..]);
    }
  }

  lemma DrainedLinked(subs: set<Ident>, fifos: map<Ident, seq<Event>>, depth: nat)
    requires Linked(subs, fifos, depth)
    ensures Linked(subs, Drained(fifos, subs), depth)
  {
    hide RunLength;
    forall i | i in fifos ensures |Rest(fifos[i])| <= |fifos[i]| {}
  }

  lemma TicksAppend(tick: nat, frames: seq<Frame>, items: seq<(Ident, Event)>)
    requires Ticks(tick, frames)
    ensures Ticks(tick + 1, frames + [Frame(tick + 1, items)])
  {
  }

  lemma FlushRecorded(h: Hub, order: seq<Ident>)
    requires Recorded(h.fifos, h.hist, h.frames) && Enumerates(order, h.fifos.Keys)
    ensures Recorded(Drained(h.fifos, h.subs), Took(h.hist, h.fifos),
                     h.frames + [Frame(h.tick + 1, Collect(h.fifos, order))])
  {
    hide HistOk, Collect;
    forall i | i in h.hist { FlushKeepsHist(h, order, i); }
  }

  lemma FlushKeeps(h: Hub, order: seq<Ident>)
    requires Inv(h) && Enumerates(order, h.fifos.Keys)
    ensures Inv(Flush(h, order))
  {
    hide Owned, Linked, Recorded, Ticks, Drained, Took, Collect, Waiting;
    if h.fifos == map[] {
    } else {
      DrainedLinked(h.subs, h.fifos, h.depth);
      FlushRecorded(h, order);
      TicksAppend(h.tick, h.frames, Collect(h.fifos, order));
    }
  }

  // ---------------------------------------------------------------- every step keeps the invariant

  /** Changing one feeder between two kinds that do not feed, or two kinds that do. */
  lemma ReassignFeeder(subs: set<Ident>, feeders: map<nat, Feeder>, f: nat, to: Feeder)
    requires Owned(subs, feeders)
    requires forall i :: Feeds(feeders, f, i) <==> Feeds(feeders[f := to], f, i)
    ensures Owned(subs, feeders[f := to])
  {
    var next := feeders[f := to];
    assert forall g, i :: Feeds(feeders, g, i) <==> Feeds(next, g, i);
  }

  lemma AdoptFeeder(subs: set<Ident>, feeders: map<nat, Feeder>, f: nat, i: Ident)
    requires Owned(subs, feeders) && i !in subs && f in feeders && feeders[f] == Awaiting
    ensures Owned(subs + {i}, feeders[f := Feeding(i)])
  {
    var next := feeders[f := Feeding(i)];
    assert Feeds(next, f, i);
    assert forall g, j :: Feeds(next, g, j) <==> Feeds(feeders, g, j) || (g == f && j == i);
  }

  lemma ReleaseFeeder(subs: set<Ident>, feeders: map<nat, Feeder>, f: nat, i: Ident, to: Feeder)
    requires Owned(subs, feeders) && Feeds(feeders, f, i) && (to.Gone? || to.Draining?)
    ensures Owned(subs - {i}, feeders[f := to])
  {
    var next := feeders[f := to];
    assert forall g, j :: Feeds(next, g, j) <==> Feeds(feeders, g, j) && g != f;
    forall j | j in subs - {i} ensures exists g :: Feeds(next, g, j) {
      var g :| Feeds(feeders, g, j);
      assert Feeds(next, g, j);
    }
  }

  lemma WaitingChange(feeders: map<nat, Feeder>, f: nat, to: Feeder)
    ensures |Waiting(feeders[f := to])| ==
            |Waiting(feeders)| + (if to.Awaiting? then 1 else 0)
                               - (if f in feeders && feeders[f].Awaiting? then 1 else 0)
  {
    var a, b := Waiting(feeders), Waiting(feeders[f := to]);
    if to.Awaiting? { assert b == a + {f}; } else { assert b == a - {f}; }
  }

  lemma EnqueueRecorded(fifos: map<Ident, seq<Event>>, hist: map<Ident, Hist>, frames: seq<Frame>, i: Ident, p: Event)
    requires Recorded(fifos, hist, frames) && i in fifos && i in hist
    ensures Recorded(fifos[i := fifos[i] + [p]], hist[i := hist[i].(enqueued := hist[i].enqueued + [p])], frames)
  {
    hide Flatten, Runs, JoinEach, ItemsOf;
    var fifos', hist' := fifos[i := fifos[i] + [p]], hist[i := hist[i].(enqueued := hist[i].enqueued + [p])];
    forall j | j in hist' ensures HistOk(j, hist'[j], Queue(fifos', j), frames) {
      assert HistOk(j, hist[j], Queue(fifos, j), frames);
      if j == i {
        assert Flatten(hist[i].taken) + (fifos[i] + [p]) == (Flatten(hist[i].taken) + fifos[i]) + [p];
      }
    }
  }

  lemma EnqueueKeeps(h: Hub, f: nat, i: Ident, e: Event)
    requires Inv(h) && f in h.feeders && h.feeders[f] == Feeding(i)
    ensures Inv(Enqueue(h, f, i, e))
  {
    hide Ticks, Prepared, Recorded, Owned, Waiting;
    FeederHasFifo(h, f, i);
    if |h.fifos[i]| >= h.depth {
      WaitingChange(h.feeders, f, Leaving(i));
      ReassignFeeder(h.subs, h.feeders, f, Leaving(i));
    } else {
      EnqueueRecorded(h.fifos, h.hist, h.frames, i, Prepared(e, h.scope));
    }
  }

  /** A feeder's own FIFO is never missing, so ErrInvalidMerge cannot occur. */
  lemma FeederHasFifo(h: Hub, f: nat, i: Ident)
    requires Inv(h) && f in h.feeders && h.feeders[f] == Feeding(i)
    ensures i in h.fifos && i in h.hist && i in h.subs
  {
    hide HistOk, Ticks;
    assert Feeds(h.feeders, f, i);
  }

  lemma RegisterRecorded(fifos: map<Ident, seq<Event>>, hist: map<Ident, Hist>, frames: seq<Frame>, i: Ident)
    requires Recorded(fifos, hist, frames) && i !in fifos
    ensures Recorded(fifos[i := []], hist[i := Hist([], [], |frames|)], frames)
  {
    var fifos', hist' := fifos[i := []], hist[i := Hist([], [], |frames|)];
    forall j | j in hist' ensures HistOk(j, hist'[j], Queue(fifos', j), frames) {
      if j != i {
        assert HistOk(j, hist[j], Queue(fifos, j), frames);
      } else {
        assert frames[|frames|..] == [];
      }
    }
  }

  lemma AwaitingIsCounted(feeders: map<nat, Feeder>, f: nat)
    requires f in feeders && feeders[f] == Awaiting
    ensures |Waiting(feeders)| > 0
  {
    assert f in Waiting(feeders);
  }

  lemma RegisterKeeps(h: Hub, f: nat, i: Ident)
    requires Inv(h) && f in h.feeders && h.feeders[f] == Awaiting
    ensures Inv(Register(h, f, i))
  {
    hide Ticks, Recorded, Owned, Waiting;
    AwaitingIsCounted(h.feeders, f);
    if h.ctxDone || i in h.fifos {
      WaitingChange(h.feeders, f, Gone);
      ReassignFeeder(h.subs, h.feeders, f, Gone);
    } else {
      WaitingChange(h.feeders, f, Feeding(i));
      AdoptFeeder(h.subs, h.feeders, f, i);
      RegisterRecorded(h.fifos, h.hist, h.frames, i);
    }
  }

  lemma DetachKeeps(h: Hub, f: nat, i: Ident, to: Feeder, t: Hub)
    requires Inv(h) && Feeds(h.feeders, f, i) && (to.Gone? || to.Draining?)
    requires (t == CloseUpstream(h, f, i) && to == Draining(i)) || (t == Unregister(h, f, i) && to == Gone)
    ensures Inv(t)
  {
    hide Ticks, HistOk, Owned, Waiting;
    WaitingChange(h.feeders, f, to);
    ReleaseFeeder(h.subs, h.feeders, f, i, to);
    assert Linked(t.subs, t.fifos, t.depth);
    forall j | j in t.hist ensures HistOk(j, t.hist[j], Queue(t.fifos, j), t.frames) {
      assert HistOk(j, h.hist[j], Queue(h.fifos, j), h.frames);
      assert Queue(t.fifos, j) == Queue(h.fifos, j);
    }
  }

  lemma ApplyKeeps(h: Hub, step: Step)
    requires Inv(h) && Legal(h, step)
    ensures Inv(Apply(h, step))
  {
    hide Linked, Recorded, Ticks, Owned, Waiting, Flush, Register, Enqueue, CloseUpstream, Unregister, Enumerates;
    match step
    case Began(f) =>
      WaitingChange(h.feeders, f, Awaiting);
      ReassignFeeder(h.subs, h.feeders, f, Awaiting);
    case NoFirstEvent(f) =>
      WaitingChange(h.feeders, f, Gone);
      ReassignFeeder(h.subs, h.feeders, f, Gone);
    case Registered(f, i) => RegisterKeeps(h, f, i);
    case Enqueued(f, e) => EnqueueKeeps(h, f, h.feeders[f].ident, e);
    case Left(f) => DetachKeeps(h, f, h.feeders[f].ident, Gone, Apply(h, step));
    case Closed(f) => DetachKeeps(h, f, h.feeders[f].ident, Draining(h.feeders[f].ident), Apply(h, step));
    case Flushed(order) => FlushKeeps(h, order);
    case Finished(f) =>
      WaitingChange(h.feeders, f, Gone);
      ReassignFeeder(h.subs, h.feeders, f, Gone);
    case CheckedIdle =>
    case Abandoned(f) =>
      WaitingChange(h.feeders, f, Stranded(h.feeders[f].ident));
      ReassignFeeder(h.subs, h.feeders, f, Stranded(h.feeders[f].ident));
    case Cancelled =>
  }

  // ---------------------------------------------------------------- main results

  ghost predicate Run(hubs: seq<Hub>, steps: seq<Step>) {
    && |hubs| == |steps| + 1
    && forall k :: 0 <= k < |steps| ==> Legal(hubs[k], steps[k]) && hubs[k + 1] == Apply(hubs[k], steps[k])
  }

  lemma {:induction false} EveryRun(hubs: seq<Hub>, steps: seq<Step>, scope: Scope, depth: nat)
    requires Run(hubs, steps) && hubs[0] == Create(scope, depth)
    ensures Inv(hubs[|steps|])
  {
    if steps == [] {
      assert Waiting(hubs[0].feeders) == {};
    } else {
      var n := |steps| - 1;
      EveryRun(hubs[..n + 1], steps[..n], scope, depth);
      ApplyKeeps(hubs[n], steps[n]);
    }
  }

  /** Conservation: for every upstream still registered, or closed and drained, the frames in
      tick order followed by what is still queued are the enqueued sequence with only adjacent
      same-key string deltas merged, and the text under every join key is the same. */
  lemma Conservation(hubs: seq<Hub>, steps: seq<Step>, scope: Scope, depth: nat, i: Ident, k: JoinKey)
    requires Run(hubs, steps) && hubs[0] == Create(scope, depth) && i in hubs[|steps|].hist
    ensures Conserved(hubs[|steps|], i, k)
  {
    EveryRun(hubs, steps, scope, depth);
    InvConserves(hubs[|steps|], i, k);
  }

  ghost predicate Conserved(h: Hub, i: Ident, k: JoinKey)
    requires i in h.hist
  {
    var hi := h.hist[i];
    && hi.since <= |h.frames|
    && var out, queue := ItemsOf(i, h.frames[hi.since..]), Queue(h.fifos, i);
    && |queue| <= |hi.enqueued|
    && var consumed := hi.enqueued[..|hi.enqueued| - |queue|];
    && consumed + queue == hi.enqueued
    && Merges(consumed, out)
    && ((forall e :: e in hi.enqueued ==> ValidDelta(e)) ==>
        (forall e :: e in out ==> ValidDelta(e)) && KeyText(k, out) == KeyText(k, consumed))
  }

  lemma InvConserves(h: Hub, i: Ident, k: JoinKey)
    requires Inv(h) && i in h.hist
    ensures Conserved(h, i, k)
  {
    var hi, queue := h.hist[i], Queue(h.fifos, i);
    assert HistOk(i, hi, queue, h.frames);
    var consumed := Flatten(hi.taken);
    assert hi.enqueued[..|hi.enqueued| - |queue|] == consumed;
    assert Merges(consumed, JoinEach(hi.taken));
    if forall e :: e in hi.enqueued ==> ValidDelta(e) {
      forall e | e in consumed ensures ValidDelta(e) { assert e in hi.enqueued; }
      MergePreservesText(consumed, JoinEach(hi.taken), k);
    }
  }

  // ---------------------------------------------------------------- what the upstreams gave

  /** `p` is what the hub makes of `e`: the same but for the number, which moves to the metadata,
      and the scope fields `e` lacked. */
  ghost predicate Forwarded(scope: Scope, e: Event, p: Event) {
    && p.eventType == e.eventType && p.from == e.from && p.status == e.status && p.delta == e.delta
    && p.logicalTime == e.logicalTime && p.sequence == 0 && Inherits(scope, e.scope, p.scope)
    && p.metadata.Keys == e.metadata.Keys + {"upstream_sequence_number"}
    && p.metadata["upstream_sequence_number"] == Num(e.sequence)
    && forall k :: k in e.metadata && k != "upstream_sequence_number" ==> p.metadata[k] == e.metadata[k]
  }

  lemma PreparedMeans(e: Event, scope: Scope)
    ensures Forwarded(scope, e, Prepared(e, scope))
  {
  }

  /** The events the feeder of `i` gave since it registered and the FIFO had room for. */
  function Fed(hubs: seq<Hub>, steps: seq<Step>, i: Ident): seq<Event>
    requires |hubs| == |steps| + 1
  {
    if steps == [] then []
    else
      var n := |steps| - 1;
      var h, before := hubs[n], Fed(hubs[..n + 1], steps[..n], i);
      match steps[n]
      case Registered(_, j) => if j == i && i !in h.fifos && !h.ctxDone then [] else before
      case Enqueued(f, e) =>
        if f in h.feeders && h.feeders[f] == Feeding(i) && |Queue(h.fifos, i)| < h.depth then before + [e] else before
      case _ => before
  }

  ghost predicate Matches(scope: Scope, given: seq<Event>, enqueued: seq<Event>) {
    |given| == |enqueued| && forall k :: 0 <= k < |given| ==> Forwarded(scope, given[k], enqueued[k])
  }

  lemma StepFed(h: Hub, step: Step, i: Ident, given: seq<Event>)
    requires Inv(h) && Legal(h, step) && i in Apply(h, step).hist
    requires i in h.hist ==> Matches(h.scope, given, h.hist[i].enqueued)
    ensures var now := match step
              case Registered(_, j) => if j == i && i !in h.fifos && !h.ctxDone then [] else given
              case Enqueued(f, e) =>
                if f in h.feeders && h.feeders[f] == Feeding(i) && |Queue(h.fifos, i)| < h.depth
                then given + [e]
                else given
              case _ => given;
            Matches(h.scope, now, Apply(h, step).hist[i].enqueued) && Apply(h, step).scope == h.scope
  {
    hide Inv, Forwarded, Collect, Drained, HeadRun;
    match step
    case Enqueued(f, e) =>
      FeederHasFifo(h, f, h.feeders[f].ident);
      PreparedMeans(e, h.scope);
    case Flushed(order) =>
    case Registered(f, j) =>
    case _ =>
  }

  /** The k-th event in the history of an upstream is the k-th its feeder gave. */
  lemma {:induction false} EnqueuedIsFed(hubs: seq<Hub>, steps: seq<Step>, scope: Scope, depth: nat, i: Ident)
    requires Run(hubs, steps) && hubs[0] == Create(scope, depth)
    ensures hubs[|steps|].scope == scope
    ensures i in hubs[|steps|].hist ==> Matches(scope, Fed(hubs, steps, i), hubs[|steps|].hist[i].enqueued)
  {
    hide Legal, Apply, Inv, Matches;
    if steps == [] {
      NoHistory(scope, depth);
    } else {
      var n := |steps| - 1;
      EnqueuedIsFed(hubs[..n + 1], steps[..n], scope, depth, i);
      EveryRun(hubs[..n + 1], steps[..n], scope, depth);
      ScopeStays(hubs[n], steps[n]);
      if i in hubs[n + 1].hist {
        StepFed(hubs[n], steps[n], i, Fed(hubs[..n + 1], steps[..n], i));
      }
    }
  }

  lemma NoHistory(scope: Scope, depth: nat)
    ensures Create(scope, depth).hist == map[] && Create(scope, depth).scope == scope
  {
  }

  lemma ScopeStays(h: Hub, step: Step)
    requires Legal(h, step)
    ensures Apply(h, step).scope == h.scope
  {
    hide Collect, Drained, Took;
  }

  lemma {:induction false} ForwardedText(scope: Scope, given: seq<Event>, enqueued: seq<Event>, k: JoinKey)
    requires Matches(scope, given, enqueued) && forall n :: 0 <= n < |given| ==> ValidDelta(given[n])
    ensures forall n :: 0 <= n < |enqueued| ==> ValidDelta(enqueued[n])
    ensures KeyText(k, enqueued) == KeyText(k, given)
  {
    hide Inherits;
    if given != [] {
      var m := |given| - 1;
      ForwardedText(scope, given[..m], enqueued[..m], k);
    }
  }

  /** Conservation against what was given: of the events the upstream gave, the frames carry, in
      tick order, all but the last few that are still queued, and the text under every join key is
      the text that was given. */
  ghost predicate GivenKept(h: Hub, given: seq<Event>, i: Ident, k: JoinKey)
    requires i in h.hist && forall e :: e in given ==> ValidDelta(e)
  {
    && h.hist[i].since <= |h.frames|
    && var out, queue := ItemsOf(i, h.frames[h.hist[i].since..]), Queue(h.fifos, i);
    && |queue| <= |given| && (forall e :: e in out ==> ValidDelta(e))
    && var m := |given| - |queue|;
    && Matches(h.scope, given[m..], queue)
    && (exists sent :: Matches(h.scope, given[..m], sent) && Merges(sent, out))
    && KeyText(k, out) == KeyText(k, given[..m])
  }

  lemma GivenIsConserved(hubs: seq<Hub>, steps: seq<Step>, scope: Scope, depth: nat, i: Ident, k: JoinKey)
    requires Run(hubs, steps) && hubs[0] == Create(scope, depth) && i in hubs[|steps|].hist
    requires forall e :: e in Fed(hubs, steps, i) ==> ValidDelta(e)
    ensures GivenKept(hubs[|steps|], Fed(hubs, steps, i), i, k)
  {
    hide Legal, Apply, Conserved, GivenKept;
    EnqueuedIsFed(hubs, steps, scope, depth, i);
    Conservation(hubs, steps, scope, depth, i, k);
    MatchedIsKept(hubs[|steps|], Fed(hubs, steps, i), i, k);
  }

  lemma MatchedIsKept(h: Hub, given: seq<Event>, i: Ident, k: JoinKey)
    requires i in h.hist && Conserved(h, i, k) && Matches(h.scope, given, h.hist[i].enqueued)
    requires forall e :: e in given ==> ValidDelta(e)
    ensures GivenKept(h, given, i, k)
  {
    hide Merges, KeyText, ValidDelta, Forwarded;
    var enqueued, queue := h.hist[i].enqueued, Queue(h.fifos, i);
    var m := |enqueued| - |queue|;
    forall n | 0 <= n < |given| ensures ValidDelta(given[n]) { assert given[n] in given; }
    ForwardedText(h.scope, given, enqueued, k);
    forall e | e in enqueued ensures ValidDelta(e) {
      var n :| 0 <= n < |enqueued| && enqueued[n] == e;
    }
    assert enqueued[..m] + queue == enqueued;
    assert enqueued[m..] == queue;
    var sent := enqueued[..m];
    assert Matches(h.scope, given[..m], sent) && Merges(sent, ItemsOf(i, h.frames[h.hist[i].since..]));
    ForwardedText(h.scope, given[..m], sent, k);
  }

  // ---------------------------------------------------------------- what a step leaves alone

  /** The upstream a step is about. */
  function About(h: Hub, step: Step): Option<Ident>
    requires Legal(h, step)
  {
    match step
    case Registered(_, i) => Some(i)
    case Enqueued(f, _) => Some(h.feeders[f].ident)
    case Left(f) => Some(h.feeders[f].ident)
    case Closed(f) => Some(h.feeders[f].ident)
    case _ => None
  }

  /** Only a flush moves the queue of another upstream or adds a frame; a feeder that leaves takes
      its queue with it, one that closes leaves it behind. */
  lemma StepFrame(h: Hub, step: Step, j: Ident)
    requires Inv(h) && Legal(h, step) && !step.Flushed?
    ensures var t := Apply(h, step);
            && t.frames == h.frames && t.tick == h.tick
            && (About(h, step) != Some(j) ==> Queue(t.fifos, j) == Queue(h.fifos, j) && (j in t.subs <==> j in h.subs))
            && (step.Left? ==> h.feeders[step.f].ident !in t.fifos && h.feeders[step.f].ident !in t.subs)
            && (step.Closed? ==>
                  && h.feeders[step.f].ident !in t.subs
                  && Queue(t.fifos, h.feeders[step.f].ident) == Queue(h.fifos, h.feeders[step.f].ident))
            && (step.Registered? && !h.ctxDone && step.ident !in h.fifos ==>
                  step.ident in t.subs && Queue(t.fifos, step.ident) == [])
  {
    hide HistOk, Recorded;
  }

  /** A step that may leave the hub idle decides to stop it if it does. */
  lemma StopsWhenIdle(h: Hub, step: Step)
    requires Inv(h) && Legal(h, step)
    requires step.NoFirstEvent? || step.Left? || step.Closed? || step.Finished? || step.CheckedIdle? ||
             (step.Flushed? && h.fifos != map[])
    ensures var t := Apply(h, step); t.pending == 0 && t.subs == {} && t.fifos == map[] ==> t.willStop
  {
    hide HistOk, Recorded, Collect, Drained, Took;
  }

  /** Each tick takes the maximal run at the head of a FIFO: what stays behind cannot join it. */
  lemma TickTakesMaximalRun(h: Hub, order: seq<Ident>, i: Ident)
    requires Inv(h) && Enumerates(order, h.fifos.Keys) && i in h.fifos && h.fifos[i] != []
    ensures var t := Flush(h, order);
            && |t.frames| == |h.frames| + 1
            && ItemsIn(i, t.frames[|h.frames|].items) == [Join(HeadRun(h.fifos[i]))]
            && HeadRun(h.fifos[i]) + Queue(t.fifos, i) == h.fifos[i]
            && (Queue(t.fifos, i) != [] ==> !CanJoin(h.fifos[i][0], Queue(t.fifos, i)[0]))
  {
    hide Collect, Took, Join, HeadRun, Rest, Inv, CanJoin;
    CollectOnce(h.fifos, order, i);
    assert i in order && h.fifos != map[];
    assert Queue(Drained(h.fifos, h.subs), i) == Rest(h.fifos[i]);
    RestCannotJoin(h.fifos[i]);
  }

  lemma RestCannotJoin(q: seq<Event>)
    requires q != []
    ensures HeadRun(q) + Rest(q) == q && (Rest(q) != [] ==> !CanJoin(q[0], Rest(q)[0]))
  {
  }

  /** How far a feeder has come: waiting, feeding, on its way out, gone. */
  function Stage(f: Feeder): nat {
    match f
    case Awaiting => 0
    case Feeding(_) => 1
    case Leaving(_) => 2
    case Draining(_) => 2
    case Stranded(_) => 2
    case Gone => 3
  }

  /** No step takes a feeder back or gives it another identity, and each step of its own takes it
      further, but for an event its FIFO accepts. */
  lemma FeederProgresses(h: Hub, step: Step, f: nat)
    requires Inv(h) && Legal(h, step) && f in h.feeders
    ensures var t := Apply(h, step);
            && f in t.feeders && Stage(t.feeders[f]) >= Stage(h.feeders[f])
            && (!h.feeders[f].Awaiting? && !t.feeders[f].Gone? ==> t.feeders[f].ident == h.feeders[f].ident)
            && (step == Finished(f) || step == Closed(f) || step == Left(f) || step == Abandoned(f) ||
                step == NoFirstEvent(f) || (step.Registered? && step.f == f) ==>
                  Stage(t.feeders[f]) > Stage(h.feeders[f]))
  {
    hide Linked, Recorded, Ticks, Drained, Took, Collect, Prepared;
  }

  /** A self-stop is only ever decided when nothing is queued, no upstream is subscribed and no
      feeder waits for its first event. */
  lemma StopOnlyWhenIdle(h: Hub, step: Step)
    requires Inv(h) && Legal(h, step) && !h.willStop && Apply(h, step).willStop
    ensures var t := Apply(h, step);
            t.fifos == map[] && t.subs == {} && forall f :: f in t.feeders ==> !t.feeders[f].Awaiting?
  {
    hide Linked, Recorded, Ticks, Owned;
    var t := Apply(h, step);
    assert Idle(t);
    assert Inv(t) by { ApplyKeeps(h, step); }
    assert Waiting(t.feeders) == {};
    forall f | f in t.feeders ensures !t.feeders[f].Awaiting? {
      assert t.feeders[f].Awaiting? ==> f in Waiting(t.feeders);
    }
  }

  // ---------------------------------------------------------------- draining a closed upstream

  function Flushes(steps: seq<Step>): nat {
    if steps == [] then 0 else Flushes(steps[..|steps| - 1]) + if steps[|steps| - 1].Flushed? then 1 else 0
  }

  lemma FeederIsSubscribed(h: Hub, f: nat)
    requires Inv(h) && f in h.feeders && (h.feeders[f].Feeding? || h.feeders[f].Leaving?)
    ensures h.feeders[f].ident in h.subs
  {
    assert Feeds(h.feeders, f, h.feeders[f].ident);
  }

  lemma IdleStep(h: Hub, step: Step)
    requires Inv(h) && Idle(h) && Legal(h, step)
    ensures Idle(Apply(h, step)) <==> !step.Began?
  {
    hide HistOk, Recorded, Took, Collect, Drained;
    match step
    case Began(f) =>
    case NoFirstEvent(f) => AwaitingIsCounted(h.feeders, f);
    case Registered(f, _) => AwaitingIsCounted(h.feeders, f);
    case Enqueued(f, _) => FeederIsSubscribed(h, f);
    case Left(f) => FeederIsSubscribed(h, f);
    case Closed(f) => FeederIsSubscribed(h, f);
    case Flushed(order) =>
    case Finished(f) =>
    case CheckedIdle =>
    case Abandoned(f) => FeederIsSubscribed(h, f);
    case Cancelled =>
  }

  /** The stop decided on an idle hub is carried out later, outside the lock: up to then the hub is
      idle at every moment if and only if no merge began in between. */
  lemma {:induction false} StopFindsIdleIff(hubs: seq<Hub>, steps: seq<Step>)
    requires Run(hubs, steps) && Inv(hubs[0]) && Idle(hubs[0])
    ensures (forall k :: 0 <= k <= |steps| ==> Idle(hubs[k])) <==> forall k :: 0 <= k < |steps| ==> !steps[k].Began?
  {
    hide Legal, Apply, Inv, Idle;
    if steps != [] {
      var n := |steps| - 1;
      assert forall k :: 0 <= k <= n ==> hubs[..n + 1][k] == hubs[k];
      assert forall k :: 0 <= k < n ==> steps[..n][k] == steps[k];
      StopFindsIdleIff(hubs[..n + 1], steps[..n]);
      InvAlong(hubs[..n + 1], steps[..n]);
      if forall k :: 0 <= k <= n ==> Idle(hubs[k]) {
        IdleStep(hubs[n], steps[n]);
        assert Idle(hubs[n + 1]) <==> !steps[n].Began?;
      } else {
        var k :| 0 <= k < n && steps[k].Began?;
      }
    }
  }

  lemma {:induction false} InvAlong(hubs: seq<Hub>, steps: seq<Step>)
    requires Run(hubs, steps) && Inv(hubs[0])
    ensures Inv(hubs[|steps|])
  {
    hide Legal, Apply, Inv;
    if steps != [] {
      var n := |steps| - 1;
      InvAlong(hubs[..n + 1], steps[..n]);
      ApplyKeeps(hubs[n], steps[n]);
    }
  }

  /** A merge that begins between the decision to stop and the stop: its upstream is refused and
      none of its events gets through. */
  lemma LateMergeIsKilled(scope: Scope, depth: nat, i: Ident)
    ensures exists hubs: seq<Hub>, steps: seq<Step> ::
      && Run(hubs, steps) && hubs[0] == Create(scope, depth) && |steps| == 5
      && hubs[2].willStop && steps[2] == Began(1) && steps[3] == Cancelled && steps[4] == Registered(1, i)
      && hubs[5].feeders[1] == Gone && hubs[5].fifos == map[]
  {
    var h0 := Create(scope, depth);
    var h1 := h0.(pending := 1, feeders := map[0 := Awaiting]);
    var h2 := h0.(feeders := map[0 := Gone], willStop := true);
    var h3 := h2.(pending := 1, feeders := map[0 := Gone, 1 := Awaiting]);
    var h4 := h3.(ctxDone := true);
    var h5 := h4.(pending := 0, feeders := map[0 := Gone, 1 := Gone]);
    assert Begin(h0, 0) == h1 && CancelPending(h1, 0) == h2;
    assert Begin(h2, 1) == h3 && Register(h4, 1, i) == h5;
    LateRun(h0, h1, h2, h3, h4, h5, i);
  }

  lemma LateRun(h0: Hub, h1: Hub, h2: Hub, h3: Hub, h4: Hub, h5: Hub, i: Ident)
    requires 0 !in h0.feeders && Begin(h0, 0) == h1 && CancelPending(h1, 0) == h2
    requires 1 !in h2.feeders && Begin(h2, 1) == h3 && h4 == h3.(ctxDone := true) && Register(h4, 1, i) == h5
    ensures Run([h0, h1, h2, h3, h4, h5], [Began(0), NoFirstEvent(0), Began(1), Cancelled, Registered(1, i)])
  {
  }

  lemma ClosedOnlyShrinks(h: Hub, step: Step, i: Ident)
    requires Inv(h) && Legal(h, step) && i !in h.subs
    requires step.Registered? ==> step.ident != i
    ensures var t := Apply(h, step);
            && i !in t.subs
            && (i in t.fifos ==>
                  i in h.fifos && |t.fifos[i]| + (if step.Flushed? then 1 else 0) <= |h.fifos[i]|)
  {
    hide Recorded, Ticks, Linked, Waiting;
    match step
    case Enqueued(f, e) => FeederHasFifo(h, f, h.feeders[f].ident);
    case _ =>
  }

  /** While others keep enqueuing, registering and ticking, a closed upstream that nobody
      registers again loses at least one event per flush: after as many flushes as it had
      events queued, whoever makes them, its FIFO is gone and the drain loop ends. */
  lemma {:induction false} DrainTerminates(hubs: seq<Hub>, steps: seq<Step>, i: Ident)
    requires Run(hubs, steps) && Inv(hubs[0]) && i !in hubs[0].subs
    requires forall k :: 0 <= k < |steps| && steps[k].Registered? ==> steps[k].ident != i
    ensures var t := hubs[|steps|];
            && Inv(t) && i !in t.subs
            && (i in t.fifos ==> i in hubs[0].fifos && 0 < |t.fifos[i]| <= |hubs[0].fifos[i]| - Flushes(steps))
            && (Flushes(steps) >= |Queue(hubs[0].fifos, i)| ==> i !in t.fifos)
  {
    hide Recorded, Ticks, Owned, Waiting, Apply, Legal;
    if steps != [] {
      var n := |steps| - 1;
      DrainTerminates(hubs[..n + 1], steps[..n], i);
      ClosedOnlyShrinks(hubs[n], steps[n], i);
      ApplyKeeps(hubs[n], steps[n]);
    }
  }

  /** While a closed upstream still has a FIFO, a flush has something to emit, so it can only
      report failure when the emit itself failed. */
  lemma FlushProgresses(h: Hub, order: seq<Ident>, i: Ident)
    requires Inv(h) && Enumerates(order, h.fifos.Keys) && i in h.fifos && i !in h.subs
    ensures var t := Flush(h, order);
            |t.frames| == |h.frames| + 1 && t.frames[|h.frames|].items != []
  {
    hide Recorded, Ticks, Owned, Waiting;
    TickTakesMaximalRun(h, order, i);
  }

  // ---------------------------------------------------------------- the hub object

  /** The hub's fields as its lock-held methods update them; feeders and histories are ghost. */
  class TickHub {
    const scope: Scope
    const depth: nat
    var tick: nat
    var fifos: map<Ident, seq<Event>>
    var subs: set<Ident>
    var pending: nat
    var ctxDone: bool
    var willStop: bool
    ghost var feeders: map<nat, Feeder>
    ghost var frames: seq<Frame>
    ghost var hist: map<Ident, Hist>

    ghost function View(): Hub
      reads this
    {
      Hub(scope, depth, tick, fifos, subs, pending, feeders, ctxDone, willStop, frames, hist)
    }

    constructor (scope: Scope, depth: int)
      ensures View() == Create(scope, if depth <= 0 then 4096 else depth)
    {
      this.scope, this.depth := scope, if depth <= 0 then 4096 else depth;
      tick, fifos, subs, pending, ctxDone, willStop := 0, map[], {}, 0, false, false;
      feeders, frames, hist := map[], [], map[];
    }

    method StopIfIdle()
      modifies this
      ensures View() == Decide(old(View()))
    {
      if pending == 0 && subs == {} && fifos == map[] {
        willStop := true;
      }
    }

    method BeginRegistration(ghost f: nat)
      modifies this
      ensures View() == Begin(old(View()), f)
    {
      pending := pending + 1;
      feeders := feeders[f := Awaiting];
    }

    method CancelPendingRegistration(ghost f: nat)
      modifies this
      ensures View() == CancelPending(old(View()), f)
    {
      if pending > 0 {
        pending := pending - 1;
      }
      feeders := feeders[f := Gone];
      StopIfIdle();
    }

    method RegisterPendingUpstream(ghost f: nat, i: Ident) returns (ok: bool)
      modifies this
      ensures ok == (!old(ctxDone) && i !in old(fifos))
      ensures View() == Register(old(View()), f, i)
    {
      if pending > 0 {
        pending := pending - 1;
      }
      if ctxDone || i in fifos {
        feeders := feeders[f := Gone];
        return false;
      }
      fifos, subs := fifos[i := []], subs + {i};
      feeders, hist := feeders[f := Feeding(i)], hist[i := Hist([], [], |frames|)];
      ok := true;
    }

    method EnqueueEvent(ghost f: nat, i: Ident, e: Event) returns (ok: bool)
      requires Inv(View()) && f in feeders && feeders[f] == Feeding(i)
      modifies this
      ensures ok == (|Queue(old(fifos), i)| < depth)
      ensures View() == Enqueue(old(View()), f, i, e)
    {
      hide Linked, Recorded, Owned, Ticks, Waiting, Prepared;
      FeederHasFifo(View(), f, i);
      if |fifos[i]| >= depth {
        feeders := feeders[f := Leaving(i)];
        return false;
      }
      var p := Prepared(e, scope);
      fifos := fifos[i := fifos[i] + [p]];
      hist := hist[i := hist[i].(enqueued := hist[i].enqueued + [p])];
      ok := true;
    }

    method Close(ghost f: nat, i: Ident)
      modifies this
      ensures View() == CloseUpstream(old(View()), f, i)
    {
      subs := subs - {i};
      if i in fifos && fifos[i] == [] {
        fifos := fifos - {i};
      }
      feeders := feeders[f := Draining(i)];
      StopIfIdle();
    }

    method Detach(ghost f: nat, i: Ident)
      modifies this
      ensures View() == Unregister(old(View()), f, i)
    {
      subs, fifos := subs - {i}, fifos - {i};
      hist, feeders := hist - {i}, feeders[f := Gone];
      StopIfIdle();
    }

    /** Pops every FIFO once, in whatever order the map is ranged. */
    method PopAll() returns (items: seq<(Ident, Event)>, ghost order: seq<Ident>)
      modifies this`fifos
      ensures Enumerates(order, old(fifos).Keys) && items == Collect(old(fifos), order)
      ensures fifos == Drained(old(fifos), subs)
    {
      hide Rest, HeadRun, Join, Swept, Drained, Enumerates;
      items, order := [], [];
      EnumeratesNone(fifos.Keys);
      var todo := fifos.Keys;
      SweepStart(fifos, subs);
      while todo != {}
        invariant Enumerates(order, old(fifos).Keys - todo) && todo <= old(fifos).Keys
        invariant forall k :: 0 <= k < |order| ==> order[k] in old(fifos)
        invariant items == Collect(old(fifos), order)
        invariant fifos == Swept(old(fifos), subs, todo)
        decreases todo
      {
        var i :| i in todo;
        SweepStep(old(fifos), subs, todo, i);
        var q := fifos[i];
        var e, left := TakeJoined(q);
        TakenIsHead(q, e, left);
        if e.Some? {
          items := items + [(i, e.value)];
        }
        assert (order + [i])[..|order|] == order;
        EnumeratesMore(order, old(fifos).Keys, todo, i);
        todo, order := todo - {i}, order + [i];
        fifos := if left == [] && i !in subs then fifos - {i} else fifos[i := left];
      }
      assert old(fifos).Keys - {} == old(fifos).Keys;
      SweepEnd(old(fifos), subs);
    }

    /** The lock-held part of flushTick. */
    method FlushTick() returns (items: seq<(Ident, Event)>, ghost order: seq<Ident>)
      modifies this
      ensures Enumerates(order, old(fifos).Keys) && View() == Flush(old(View()), order)
      ensures items == Collect(old(fifos), order)
    {
      hide Drained, Collect;
      if fifos == map[] {
        items, order := [], [];
        EmptyCollect(fifos);
        return;
      }
      ghost var was := fifos;
      items, order := PopAll();
      tick := tick + 1;
      frames := frames + [Frame(tick, items)];
      hist := Took(hist, was);
      StopIfIdle();
    }
  }

  /** The FIFO map with all but `todo` already popped. */
  function Swept(was: map<Ident, seq<Event>>, subs: set<Ident>, todo: set<Ident>): map<Ident, seq<Event>> {
    map i | i in was && (i in todo || Rest(was[i]) != [] || i in subs) :: if i in todo then was[i] else Rest(was[i])
  }

  lemma SweepStart(was: map<Ident, seq<Event>>, subs: set<Ident>)
    ensures Swept(was, subs, was.Keys) == was
  {
  }

  lemma SweepStep(was: map<Ident, seq<Event>>, subs: set<Ident>, todo: set<Ident>, i: Ident)
    requires i in todo && todo <= was.Keys
    ensures var now, rest := Swept(was, subs, todo), Rest(was[i]);
            i in now && now[i] == was[i] &&
            Swept(was, subs, todo - {i}) == if rest == [] && i !in subs then now - {i} else now[i := rest]
  {
    hide Rest;
    var now, next := Swept(was, subs, todo), Swept(was, subs, todo - {i});
    if Rest(was[i]) == [] && i !in subs {
      assert next == now - {i};
    } else {
      assert next == now[i := Rest(was[i])];
    }
  }

  lemma TakenIsHead(q: seq<Event>, e: Option<Event>, left: seq<Event>)
    requires q == [] ==> e.None? && left == []
    requires q != [] ==> e == Some(Join(q[..RunLength(q)])) && left == q[RunLength(q)..]
    ensures left == Rest(q) && (e.Some? <==> q != []) && (q != [] ==> e == Some(Join(HeadRun(q))))
  {
  }

  lemma EnumeratesNone(keys: set<Ident>)
    ensures Enumerates([], keys - keys)
  {
  }

  lemma EnumeratesMore(order: seq<Ident>, keys: set<Ident>, todo: set<Ident>, i: Ident)
    requires Enumerates(order, keys - todo) && i in todo && i in keys
    ensures Enumerates(order + [i], keys - (todo - {i}))
    ensures forall k :: 0 <= k < |order + [i]| ==> (order + [i])[k] in keys
  {
  }

  lemma SweepEnd(was: map<Ident, seq<Event>>, subs: set<Ident>)
    ensures Swept(was, subs, {}) == Drained(was, subs)
  {
  }

  lemma EmptyCollect(fifos: map<Ident, seq<Event>>)
    ensures Collect(fifos, []) == []
  {
  }
}
