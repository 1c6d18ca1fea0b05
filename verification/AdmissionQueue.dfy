/** Admission of submitted runners (orchestrator/queue.go): a bounded set of execution slots, a
    priority-then-FIFO heap with lazy deletion, and cancellation. Each region run under the
    orchestrator's lock is one step; the contexts found cancelled in that region are a parameter.
    `started` and `aborted` record the runners handed out on toStart and toCancel lists. */
module AdmissionQueue {
  import opened Wrappers

  datatype Entry = Entry(order: nat, runner: string, priority: int)

  predicate Less(a: Entry, b: Entry) {
    if a.priority == b.priority then a.order < b.order else a.priority > b.priority
  }

  /** `a` may stand above `b`. */
  predicate Le(a: Entry, b: Entry) { !Less(b, a) }

  // ---------------------------------------------------------------- container/heap

  function Parent(i: nat): nat { if i == 0 then 0 else (i - 1) / 2 }

  function Swap(h: seq<Entry>, i: nat, j: nat): (r: seq<Entry>)
    requires i < |h| && j < |h|
    ensures |r| == |h| && multiset(r) == multiset(h)
  {
    h[i := h[j]][j := h[i]]
  }

  function Up(h: seq<Entry>, j: nat): (r: seq<Entry>)
    requires j < |h|
    ensures |r| == |h| && multiset(r) == multiset(h)
    decreases j
  {
    if j == 0 || !Less(h[j], h[Parent(j)]) then h else Up(Swap(h, j, Parent(j)), Parent(j))
  }

  function BestChild(h: seq<Entry>, i: nat): (c: nat)
    requires 2 * i + 1 < |h|
    ensures c < |h| && Parent(c) == i && c > i
    ensures forall k :: 0 < k < |h| && Parent(k) == i ==> Le(h[c], h[k])
  {
    if 2 * i + 2 < |h| && Less(h[2 * i + 2], h[2 * i + 1]) then 2 * i + 2 else 2 * i + 1
  }

  function Down(h: seq<Entry>, i: nat): (r: seq<Entry>)
    requires i < |h|
    ensures |r| == |h| && multiset(r) == multiset(h)
    decreases |h| - i
  {
    if 2 * i + 1 >= |h| then h
    else
      var c := BestChild(h, i);
      if !Less(h[c], h[i]) then h else Down(Swap(h, i, c), c)
  }

  function Push(h: seq<Entry>, e: Entry): seq<Entry> { Up(h + [e], |h|) }

  /** Swap root and last, sift down, cut the last off. */
  function PopRest(h: seq<Entry>): (r: seq<Entry>)
    requires h != []
    ensures |r| == |h| - 1
  {
    var n := |h| - 1;
    if n == 0 then [] else Down(h[..n][0 := h[n]], 0)
  }

  ghost predicate Heap(h: seq<Entry>) { forall i :: 0 < i < |h| ==> Le(h[Parent(i)], h[i]) }

  /** A heap but for the edge above j. */
  ghost predicate HeapBelow(h: seq<Entry>, j: nat) {
    && (forall i :: 0 < i < |h| && i != j ==> Le(h[Parent(i)], h[i]))
    && (forall i :: 0 < i < |h| && Parent(i) == j && 0 < j < |h| ==> Le(h[Parent(j)], h[i]))
  }

  /** A heap but for the edges below j. */
  ghost predicate HeapAbove(h: seq<Entry>, j: nat) {
    && (forall i :: 0 < i < |h| && Parent(i) != j ==> Le(h[Parent(i)], h[i]))
    && (forall i :: 0 < i < |h| && Parent(i) == j && 0 < j < |h| ==> Le(h[Parent(j)], h[i]))
  }

  lemma {:induction false} UpRestores(h: seq<Entry>, j: nat)
    requires j < |h| && HeapBelow(h, j)
    ensures Heap(Up(h, j))
    decreases j
  {
    if j > 0 && Less(h[j], h[Parent(j)]) {
      var p := Parent(j);
      var s := Swap(h, j, p);
      forall i | 0 < i < |s| && i != p ensures Le(s[Parent(i)], s[i]) {
        if Parent(i) == p && i != j {
          assert Le(h[p], h[i]);
        }
      }
      forall i | 0 < i < |s| && Parent(i) == p && 0 < p ensures Le(s[Parent(p)], s[i]) {
        assert Le(h[Parent(p)], h[p]);
        if i != j {
          assert Le(h[p], h[i]);
        }
      }
      UpRestores(s, p);
    }
  }

  lemma {:induction false} DownRestores(h: seq<Entry>, j: nat)
    requires j < |h| && HeapAbove(h, j)
    ensures Heap(Down(h, j))
    decreases |h| - j
  {
    if 2 * j + 1 < |h| {
      var c := BestChild(h, j);
      if Less(h[c], h[j]) {
        var s := Swap(h, j, c);
        forall i | 0 < i < |s| && Parent(i) != c ensures Le(s[Parent(i)], s[i]) {
          if i == j {
            assert Le(h[Parent(j)], h[c]);
          }
        }
        forall i | 0 < i < |s| && Parent(i) == c ensures Le(s[Parent(c)], s[i]) {
          assert Le(h[c], h[i]);
        }
        DownRestores(s, c);
      } else {
        forall i | 0 < i < |h| ensures Le(h[Parent(i)], h[i]) {
          if Parent(i) == j {
            assert Le(h[c], h[i]);
          }
        }
      }
    }
  }

  lemma {:induction false} RootIsBest(h: seq<Entry>, i: nat)
    requires Heap(h) && i < |h|
    ensures Le(h[0], h[i])
    decreases i
  {
    if i > 0 {
      RootIsBest(h, Parent(i));
    }
  }

  lemma PushOk(h: seq<Entry>, e: Entry)
    requires Heap(h)
    ensures Heap(Push(h, e)) && multiset(Push(h, e)) == multiset(h) + multiset{e}
  {
    assert forall i :: 0 < i < |h| + 1 ==> Parent(i) < i;
    UpRestores(h + [e], |h|);
  }

  /** Pop takes out an entry no other beats and leaves a heap of the rest. */
  lemma PopOk(h: seq<Entry>)
    requires Heap(h) && h != []
    ensures Heap(PopRest(h)) && multiset(PopRest(h)) + multiset{h[0]} == multiset(h)
    ensures forall e :: e in h ==> Le(h[0], e)
  {
    var n := |h| - 1;
    assert h == h[..n] + [h[n]];
    forall e | e in h ensures Le(h[0], e) {
      var i :| 0 <= i < |h| && h[i] == e;
      RootIsBest(h, i);
    }
    if n > 0 {
      var m := h[..n][0 := h[n]];
      assert h[..n] == [h[0]] + h[1..n] && m == [h[n]] + h[1..n];
      DownRestores(m, 0);
    } else {
      assert h == [h[0]];
    }
  }

  // ---------------------------------------------------------------- lock-held regions

  datatype Queue = Queue(max: nat, running: set<string>, heap: seq<Entry>, canceled: set<nat>,
                         byId: map<string, Entry>, next: nat, started: seq<Entry>, aborted: seq<Entry>)

  function Create(max: nat): Queue { Queue(max, {}, [], {}, map[], 0, [], []) }

  predicate HasSlot(q: Queue) { q.max == 0 || |q.running| < q.max }

  function TakeSlot(q: Queue, runner: string): Queue {
    if q.max > 0 then q.(running := q.running + {runner}) else q
  }

  /** popQueuedRunnerLocked: cancelled entries are skipped for good. */
  function PopLive(heap: seq<Entry>, canceled: set<nat>): (r: (Option<Entry>, seq<Entry>))
    ensures r.0.Some? ==> |r.1| < |heap|
    decreases |heap|
  {
    if heap == [] then (None, [])
    else if heap[0].order in canceled then PopLive(PopRest(heap), canceled)
    else (Some(heap[0]), PopRest(heap))
  }

  /** collectQueuedStartsLocked. */
  function Collect(q: Queue, dead: set<nat>): Queue
    decreases |q.heap|
  {
    if !HasSlot(q) then q
    else
      var (popped, heap) := PopLive(q.heap, q.canceled);
      if popped.None? then q.(heap := heap) else Collect(Handle(q, popped.value, heap, dead), dead)
  }

  /** One popped live entry: abort it when its context is over, start it otherwise. */
  function Handle(q: Queue, e: Entry, heap: seq<Entry>, dead: set<nat>): Queue {
    var t := q.(heap := heap, byId := q.byId - {e.runner});
    if e.order in dead then t.(canceled := q.canceled + {e.order}, aborted := q.aborted + [e])
    else TakeSlot(t, e.runner).(started := q.started + [e])
  }

  function Submit(q: Queue, runner: string, priority: int): Queue {
    if HasSlot(q) then TakeSlot(q, runner)
    else
      var e := Entry(q.next, runner, priority);
      q.(heap := Push(q.heap, e), byId := q.byId[runner := e], next := q.next + 1)
  }

  /** Takes a runner's live entry out of the map and marks it; the heap keeps it. */
  function Unqueue(q: Queue, runner: string): Queue {
    if runner !in q.byId then q
    else q.(canceled := q.canceled + {q.byId[runner].order}, byId := q.byId - {runner})
  }

  /** removeQueuedRunner: only when the entry is still the runner's current one. */
  function Cancel(q: Queue, e: Entry, dead: set<nat>): Queue {
    if e.runner in q.byId && q.byId[e.runner] == e then Collect(Unqueue(q, e.runner), dead) else q
  }

  function Release(q: Queue, runner: string, dead: set<nat>): Queue {
    Collect(q.(running := q.running - {runner}), dead)
  }

  datatype Step =
    | Submitted(runner: string, priority: int)
    | ContextDone(entry: Entry, dead: set<nat>)
    | StartBegun(runner: string)
    | StartFailed(runner: string, dead: set<nat>)
    | Settled(runner: string, dead: set<nat>)
    | Removed(runner: string, dead: set<nat>)

  /** A runner is submitted once; the caller creates it just before. */
  predicate Legal(q: Queue, step: Step) { step.Submitted? ==> step.runner !in q.byId }

  function Apply(q: Queue, step: Step): Queue {
    match step
    case Submitted(r, p) => Submit(q, r, p)
    case ContextDone(e, dead) => Cancel(q, e, dead)
    case StartBegun(r) => Unqueue(q, r)
    case StartFailed(r, dead) => Release(q, r, dead)
    case Settled(r, dead) => Release(q, r, dead)
    case Removed(r, dead) => Collect(Unqueue(q, r), dead)
  }

  // ---------------------------------------------------------------- invariants

  /** A queued entry nobody has cancelled. */
  predicate Live(q: Queue, e: Entry) { e in q.heap && e.order !in q.canceled }

  ghost predicate Slots(q: Queue) { if q.max == 0 then q.running == {} else |q.running| <= q.max }

  ghost predicate HeapOk(heap: seq<Entry>, next: nat) {
    && Heap(heap)
    && (forall e, f :: e in heap && f in heap && e.order == f.order ==> e == f)
    && (forall e :: e in heap ==> e.order < next && multiset(heap)[e] == 1)
  }

  /** The live map is exactly the uncancelled heap entries. */
  ghost predicate Mapped(q: Queue) {
    && (forall r :: r in q.byId ==> q.byId[r].runner == r && Live(q, q.byId[r]))
    && (forall e :: Live(q, e) ==> e.runner in q.byId && q.byId[e.runner] == e)
  }

  /** Entries handed out never come back, and none is handed out twice. */
  ghost predicate HandedOut(q: Queue) {
    var out := q.started + q.aborted;
    && (forall i, j :: 0 <= i < j < |out| ==> out[i].order != out[j].order)
    && (forall i :: 0 <= i < |out| ==> out[i].order < q.next && forall e :: Live(q, e) ==> e.order != out[i].order)
  }

  /** Between steps a free slot and a waiting runner never coexist. */
  ghost predicate Busy(q: Queue) { HasSlot(q) ==> q.byId == map[] }

  ghost predicate Core(q: Queue) {
    && Slots(q) && HeapOk(q.heap, q.next) && Mapped(q) && HandedOut(q)
    && (forall n :: n in q.canceled ==> n < q.next)
  }

  ghost predicate Inv(q: Queue) { Core(q) && Busy(q) }

  /** Popping the root of the heap, live or not. */
  lemma PopKeepsHeap(q: Queue)
    requires HeapOk(q.heap, q.next) && q.heap != []
    ensures HeapOk(PopRest(q.heap), q.next)
    ensures forall e :: e in q.heap <==> e in PopRest(q.heap) || e == q.heap[0]
    ensures q.heap[0] !in PopRest(q.heap)
    ensures forall e :: e in q.heap ==> Le(q.heap[0], e)
  {
    PopOk(q.heap);
    var h, r := q.heap, PopRest(q.heap);
    forall e ensures e in h <==> e in r || e == h[0] {
      assert multiset(h)[e] == multiset(r)[e] + multiset{h[0]}[e];
      assert e in multiset(h) <==> e in h;
      assert e in multiset(r) <==> e in r;
    }
    assert multiset(h)[h[0]] == 1 by { assert h[0] in h; }
    assert multiset(r)[h[0]] == 0;
    forall e | e in r ensures e.order < q.next && multiset(r)[e] == 1 {
      assert e in h;
    }
  }

  /** What popQueuedRunnerLocked hands back: nothing when no live entry is left, else the best
      live entry: highest priority, then oldest. */
  lemma {:induction false} PopLivePicksBest(q: Queue)
    requires HeapOk(q.heap, q.next)
    ensures var (popped, heap) := PopLive(q.heap, q.canceled);
            && HeapOk(heap, q.next)
            && (popped.None? ==> heap == [] && forall e :: !Live(q, e))
            && (popped.Some? ==>
                 && Live(q, popped.value)
                 && (forall e :: Live(q, e) ==> Le(popped.value, e))
                 && (forall e :: e in heap && e.order !in q.canceled <==> Live(q, e) && e != popped.value))
    decreases |q.heap|
  {
    hide Heap, PopRest;
    if q.heap != [] {
      PopKeepsHeap(q);
      if q.heap[0].order in q.canceled {
        PopLivePicksBest(q.(heap := PopRest(q.heap)));
        assert forall e :: Live(q, e) <==> Live(q.(heap := PopRest(q.heap)), e);
      }
    }
  }

  lemma HandleKeeps(q: Queue, e: Entry, heap: seq<Entry>, dead: set<nat>)
    requires Core(q) && HasSlot(q) && Live(q, e)
    requires HeapOk(heap, q.next)
    requires forall x :: x in heap && x.order !in q.canceled <==> Live(q, x) && x != e
    ensures Core(Handle(q, e, heap, dead))
  {
    hide Heap, HandedOut, Mapped;
    var t := Handle(q, e, heap, dead);
    forall x ensures Live(t, x) <==> Live(q, x) && x != e {
      assert e in q.heap;
    }
    HandleLists(q, e, t, dead);
    HandleMapped(q, e, t);
  }

  lemma HandleMapped(q: Queue, e: Entry, t: Queue)
    requires Mapped(q) && Live(q, e) && t.byId == q.byId - {e.runner}
    requires forall x :: Live(t, x) <==> Live(q, x) && x != e
    ensures Mapped(t)
  {
    hide Live;
  }

  /** The entry joins one list; it was live, so it was in none. */
  lemma HandleLists(q: Queue, e: Entry, t: Queue, dead: set<nat>)
    requires HandedOut(q) && Live(q, e) && e.order < q.next && t.next == q.next
    requires forall x, y :: Live(q, x) && Live(q, y) && x.order == y.order ==> x == y
    requires forall x :: Live(t, x) ==> Live(q, x) && x != e
    requires if e.order in dead then t.started == q.started && t.aborted == q.aborted + [e]
             else t.started == q.started + [e] && t.aborted == q.aborted
    ensures HandedOut(t)
  {
    var was, out := q.started + q.aborted, t.started + t.aborted;
    assert out == if e.order in dead then was + [e] else q.started + [e] + q.aborted;
    forall i, j | 0 <= i < j < |out| ensures out[i].order != out[j].order {
      OutIndex(q, e, dead, i);
      OutIndex(q, e, dead, j);
    }
    forall i, x | 0 <= i < |out| && Live(t, x) ensures out[i].order < t.next && x.order != out[i].order {
      OutIndex(q, e, dead, i);
    }
    forall i | 0 <= i < |out| ensures out[i].order < t.next {
      OutIndex(q, e, dead, i);
    }
  }

  /** Where an entry of the lists was before `e` joined them. */
  lemma OutIndex(q: Queue, e: Entry, dead: set<nat>, i: nat)
    requires i < |q.started| + |q.aborted| + 1
    ensures var was := q.started + q.aborted;
            var out := if e.order in dead then was + [e] else q.started + [e] + q.aborted;
            var at := if e.order in dead then |was| else |q.started|;
            out[i] == if i < at then was[i] else if i == at then e else was[i - 1]
  {
  }

  lemma {:induction false} CollectKeeps(q: Queue, dead: set<nat>)
    requires Core(q)
    ensures Inv(Collect(q, dead)) && Collect(q, dead).max == q.max
    decreases |q.heap|
  {
    hide HeapOk, HandedOut, PopLive, Handle;
    if HasSlot(q) {
      PopLivePicksBest(q);
      var (popped, heap) := PopLive(q.heap, q.canceled);
      if popped.None? {
        NoneLeft(q, heap);
      } else {
        HandleKeeps(q, popped.value, heap, dead);
        HandleShape(q, popped.value, heap, dead);
        CollectKeeps(Handle(q, popped.value, heap, dead), dead);
      }
    }
  }

  lemma HandleShape(q: Queue, e: Entry, heap: seq<Entry>, dead: set<nat>)
    ensures Handle(q, e, heap, dead).max == q.max && Handle(q, e, heap, dead).heap == heap
  {
  }

  lemma NoneLeft(q: Queue, heap: seq<Entry>)
    requires Core(q) && heap == [] && HeapOk(heap, q.next) && forall e :: !Live(q, e)
    ensures Inv(q.(heap := heap))
  {
    hide HeapOk;
    var t := q.(heap := heap);
    assert forall r :: r in q.byId ==> Live(q, q.byId[r]);
    assert q.byId == map[];
    assert forall e :: !Live(t, e);
  }

  lemma UnqueueKeeps(q: Queue, runner: string)
    requires Core(q)
    ensures Core(Unqueue(q, runner)) && (Busy(q) ==> Busy(Unqueue(q, runner)))
  {
    hide Heap;
    var t := Unqueue(q, runner);
    if runner in q.byId {
      var e := q.byId[runner];
      assert Live(q, e);
      forall x ensures Live(t, x) <==> Live(q, x) && x != e {
      }
    }
  }

  lemma SubmitKeeps(q: Queue, runner: string, priority: int)
    requires Inv(q) && runner !in q.byId
    ensures Inv(Submit(q, runner, priority))
  {
    hide Inv, Push;
    if HasSlot(q) {
      TakeKeeps(q, runner);
    } else {
      PushKeeps(q, Entry(q.next, runner, priority));
    }
  }

  lemma TakeKeeps(q: Queue, runner: string)
    requires Inv(q) && HasSlot(q)
    ensures Inv(TakeSlot(q, runner))
  {
    hide HeapOk;
    var t := TakeSlot(q, runner);
    assert forall e :: Live(t, e) <==> Live(q, e);
  }

  lemma PushKeeps(q: Queue, e: Entry)
    requires Inv(q) && !HasSlot(q) && e.order == q.next && e.runner !in q.byId
    ensures Inv(q.(heap := Push(q.heap, e), byId := q.byId[e.runner := e], next := q.next + 1))
  {
    hide Push, Heap;
    var h := Push(q.heap, e);
    var t := q.(heap := h, byId := q.byId[e.runner := e], next := q.next + 1);
    PushOk(q.heap, e);
    forall x ensures x in h <==> x in q.heap || x == e {
      assert x in multiset(h) <==> x in h;
      assert x in multiset(q.heap) <==> x in q.heap;
    }
    forall x | x in h ensures x.order < t.next && multiset(h)[x] == 1 {
      assert multiset(h)[x] == multiset(q.heap)[x] + multiset{e}[x];
      assert x in multiset(q.heap) <==> x in q.heap;
    }
    CanceledOld(q, e, t);
  }

  /** The new entry's number is fresh, so nothing recorded so far concerns it. */
  lemma CanceledOld(q: Queue, e: Entry, t: Queue)
    requires Mapped(q) && HandedOut(q) && e.order == q.next && t.next == q.next + 1 && e.runner !in q.byId
    requires t.byId == q.byId[e.runner := e] && t.canceled == q.canceled
    requires t.started == q.started && t.aborted == q.aborted
    requires forall x :: x in t.heap <==> x in q.heap || x == e
    requires forall x :: x in q.heap ==> x.order < q.next
    requires e.order !in q.canceled
    ensures Mapped(t) && HandedOut(t)
  {
    forall x ensures Live(t, x) <==> Live(q, x) || x == e {
    }
  }

  // ---------------------------------------------------------------- main results

  lemma ApplyKeeps(q: Queue, step: Step)
    requires Inv(q) && Legal(q, step)
    ensures Inv(Apply(q, step)) && Apply(q, step).max == q.max
  {
    hide HeapOk, Mapped, HandedOut, Collect, Push;
    match step
    case Submitted(r, p) => SubmitKeeps(q, r, p);
    case ContextDone(e, dead) =>
      UnqueueKeeps(q, e.runner);
      CollectKeeps(Unqueue(q, e.runner), dead);
    case StartBegun(r) => UnqueueKeeps(q, r);
    case StartFailed(r, dead) => ReleaseKeeps(q, r, dead);
    case Settled(r, dead) => ReleaseKeeps(q, r, dead);
    case Removed(r, dead) =>
      UnqueueKeeps(q, r);
      CollectKeeps(Unqueue(q, r), dead);
  }

  lemma ReleaseKeeps(q: Queue, runner: string, dead: set<nat>)
    requires Inv(q)
    ensures Inv(Release(q, runner, dead)) && Release(q, runner, dead).max == q.max
  {
    hide HeapOk, Collect;
    var t := q.(running := q.running - {runner});
    assert forall e :: Live(t, e) <==> Live(q, e);
    assert q.running - {runner} <= q.running;
    FewerFits(q.running, runner);
    CollectKeeps(t, dead);
  }

  lemma FewerFits(running: set<string>, runner: string)
    ensures |running - {runner}| <= |running|
  {
    if runner in running {
      assert running == (running - {runner}) + {runner};
    } else {
      assert running - {runner} == running;
    }
  }

  ghost predicate Run(qs: seq<Queue>, steps: seq<Step>) {
    && |qs| == |steps| + 1
    && forall k :: 0 <= k < |steps| ==> Legal(qs[k], steps[k]) && qs[k + 1] == Apply(qs[k], steps[k])
  }

  /** In every run of submissions, cancellations, starts, failures, settles and removals: the
      slot set stays within the limit; a free slot and a waiting runner never coexist at an
      unlock; the live map is the uncancelled part of the heap; and no entry is ever handed out
      twice, whether to start or to abort. */
  lemma {:induction false} EveryRun(qs: seq<Queue>, steps: seq<Step>, max: nat)
    requires Run(qs, steps) && qs[0] == Create(max)
    ensures Inv(qs[|steps|]) && qs[|steps|].max == max
  {
    if steps != [] {
      var n := |steps| - 1;
      EveryRun(qs[..n + 1], steps[..n], max);
      ApplyKeeps(qs[n], steps[n]);
    }
  }

  /** One unlock hands runners out best first: by priority, then by age, and none that stays
      behind beats one that was started. */
  lemma {:induction false} StartsBestFirst(q: Queue, dead: set<nat>)
    requires Core(q)
    ensures var t := Collect(q, dead);
            && q.started <= t.started
            && (forall i :: |q.started| <= i < |t.started| ==> Live(q, t.started[i]))
            && (forall e :: Live(t, e) ==> Live(q, e))
            && (forall i, j :: |q.started| <= i < j < |t.started| ==> Less(t.started[i], t.started[j]))
            && (forall i, e :: |q.started| <= i < |t.started| && Live(t, e) ==> Less(t.started[i], e))
    decreases |q.heap|
  {
    hide Heap, Mapped, HandedOut, PopLive;
    if HasSlot(q) {
      PopLivePicksBest(q);
      var (popped, heap) := PopLive(q.heap, q.canceled);
      if popped.Some? {
        var e := popped.value;
        var r := Handle(q, e, heap, dead);
        HandleKeeps(q, e, heap, dead);
        HandleShape(q, e, heap, dead);
        forall x | Live(r, x) ensures Live(q, x) && Less(e, x) {
          assert x != e && e.order != x.order;
        }
        StartsBestFirst(r, dead);
      }
    }
  }

  // ---------------------------------------------------------------- what was submitted

  /** A submission that finds a slot takes it; one that does not adds one live entry, with the
      runner and the priority submitted and an order above all others, and changes nothing else. */
  lemma SubmitMeans(q: Queue, runner: string, priority: int)
    requires Inv(q) && runner !in q.byId
    ensures var t := Submit(q, runner, priority);
            && t.started == q.started && t.aborted == q.aborted && t.canceled == q.canceled
            && if q.max == 0 || |q.running| < q.max then
                 t.running == (if q.max > 0 then q.running + {runner} else {}) && t.heap == q.heap && t.byId == q.byId
               else
                 var e := Entry(q.next, runner, priority);
                 && t.running == q.running && t.byId == q.byId[runner := e] && t.next == q.next + 1
                 && (forall x :: x in t.heap <==> x in q.heap || x == e)
                 && (forall x :: Live(t, x) <==> Live(q, x) || x == e)
                 && (forall x :: Live(q, x) ==> x.order < e.order)
  {
    hide Push, Heap;
    if !HasSlot(q) {
      var e := Entry(q.next, runner, priority);
      PushOk(q.heap, e);
      forall x ensures x in Push(q.heap, e) <==> x in q.heap || x == e {
        assert x in multiset(Push(q.heap, e)) <==> x in Push(q.heap, e);
        assert x in multiset(q.heap) <==> x in q.heap;
      }
    }
  }

  /** Step k of the run queued this entry: a submission of its runner and priority when no slot was
      free, and its order is the number of submissions queued before. */
  ghost predicate Came(qs: seq<Queue>, steps: seq<Step>, e: Entry, k: nat) {
    && k < |steps| && k < |qs| && steps[k] == Submitted(e.runner, e.priority)
    && qs[k].max > 0 && |qs[k].running| >= qs[k].max && e.order == qs[k].next
  }

  ghost predicate Has(q: Queue, e: Entry) { e in q.heap || e in q.started || e in q.aborted }

  lemma HandleHas(q: Queue, e: Entry, heap: seq<Entry>, dead: set<nat>, x: Entry)
    requires Has(Handle(q, e, heap, dead), x) && (x in heap ==> x in q.heap) && e in q.heap
    ensures Has(q, x)
  {
  }

  /** Refilling slots moves entries about and makes none up. */
  lemma {:induction false} CollectHas(q: Queue, dead: set<nat>, x: Entry)
    requires Core(q) && Has(Collect(q, dead), x)
    ensures Has(q, x)
    decreases |q.heap|
  {
    hide HeapOk, HandedOut, PopLive, Handle, Has;
    if HasSlot(q) {
      PopLivePicksBest(q);
      var (popped, heap) := PopLive(q.heap, q.canceled);
      PopLiveHas(q, x);
      if popped.Some? {
        HandleKeeps(q, popped.value, heap, dead);
        HandleShape(q, popped.value, heap, dead);
        CollectHas(Handle(q, popped.value, heap, dead), dead, x);
        HandleHas(q, popped.value, heap, dead, x);
      } else {
        NoneHas(q, heap, x);
      }
    }
  }

  lemma NoneHas(q: Queue, heap: seq<Entry>, x: Entry)
    requires heap == [] && Has(q.(heap := heap), x)
    ensures Has(q, x)
  {
  }

  lemma {:induction false} PopLiveHas(q: Queue, x: Entry)
    requires HeapOk(q.heap, q.next)
    ensures x in PopLive(q.heap, q.canceled).1 ==> x in q.heap
    decreases |q.heap|
  {
    hide Heap, PopRest;
    if q.heap != [] {
      PopKeepsHeap(q);
      if q.heap[0].order in q.canceled {
        PopLiveHas(q.(heap := PopRest(q.heap)), x);
      }
    }
  }

  lemma StepHas(q: Queue, step: Step, x: Entry)
    requires Inv(q) && Legal(q, step) && Has(Apply(q, step), x) && !Has(q, x)
    ensures step == Submitted(x.runner, x.priority) && q.max > 0 && |q.running| >= q.max && x.order == q.next
  {
    hide HeapOk, Mapped, HandedOut, Collect, Push;
    match step
    case Submitted(r, p) => SubmitMeans(q, r, p);
    case ContextDone(e, dead) =>
      UnqueueKeeps(q, e.runner);
      if e.runner in q.byId && q.byId[e.runner] == e {
        CollectHas(Unqueue(q, e.runner), dead, x);
      }
    case StartBegun(r) =>
    case StartFailed(r, dead) => ReleaseHas(q, r, dead, x);
    case Settled(r, dead) => ReleaseHas(q, r, dead, x);
    case Removed(r, dead) =>
      UnqueueKeeps(q, r);
      CollectHas(Unqueue(q, r), dead, x);
  }

  lemma FreedCore(q: Queue, runner: string)
    requires Inv(q)
    ensures Core(q.(running := q.running - {runner}))
  {
    hide HeapOk;
    var t := q.(running := q.running - {runner});
    assert forall e :: Live(t, e) <==> Live(q, e);
    FewerFits(q.running, runner);
  }

  lemma ReleaseHas(q: Queue, runner: string, dead: set<nat>, x: Entry)
    requires Inv(q) && Has(Release(q, runner, dead), x)
    ensures Has(q, x)
  {
    hide Core, Collect;
    FreedCore(q, runner);
    CollectHas(q.(running := q.running - {runner}), dead, x);
  }

  /** Every entry that is queued, was started or was aborted came from a submission of its runner
      with its priority. */
  lemma {:induction false} EntriesCame(qs: seq<Queue>, steps: seq<Step>, max: nat, x: Entry)
    requires Run(qs, steps) && qs[0] == Create(max) && Has(qs[|steps|], x)
    ensures exists k: nat :: Came(qs, steps, x, k)
  {
    hide Legal, Apply;
    if steps == [] {
      NothingYet(max, x);
    } else {
      var n := |steps| - 1;
      EveryRun(qs[..n + 1], steps[..n], max);
      if Has(qs[n], x) {
        EntriesCame(qs[..n + 1], steps[..n], max, x);
        var k: nat :| Came(qs[..n + 1], steps[..n], x, k);
        assert Came(qs, steps, x, k);
      } else {
        StepHas(qs[n], steps[n], x);
        assert Came(qs, steps, x, n);
      }
    }
  }

  lemma NothingYet(max: nat, x: Entry)
    ensures !Has(Create(max), x)
  {
  }

  lemma {:induction false} CollectNext(q: Queue, dead: set<nat>)
    ensures Collect(q, dead).next == q.next
    decreases |q.heap|
  {
    hide PopLive;
    if HasSlot(q) {
      var (popped, heap) := PopLive(q.heap, q.canceled);
      if popped.Some? {
        CollectNext(Handle(q, popped.value, heap, dead), dead);
      }
    }
  }

  lemma StepNext(q: Queue, step: Step)
    ensures Apply(q, step).next >= q.next
    ensures step.Submitted? && q.max > 0 && |q.running| >= q.max ==> Apply(q, step).next == q.next + 1
  {
    hide Collect, Push;
    match step
    case Submitted(r, p) =>
    case ContextDone(e, dead) => CollectNext(Unqueue(q, e.runner), dead);
    case StartBegun(r) =>
    case StartFailed(r, dead) => CollectNext(q.(running := q.running - {r}), dead);
    case Settled(r, dead) => CollectNext(q.(running := q.running - {r}), dead);
    case Removed(r, dead) => CollectNext(Unqueue(q, r), dead);
  }

  lemma {:induction false} NextGrows(qs: seq<Queue>, steps: seq<Step>, j: nat, k: nat)
    requires Run(qs, steps) && j <= k <= |steps|
    ensures qs[j].next <= qs[k].next
    decreases k
  {
    hide Legal, Apply;
    if j < k {
      NextGrows(qs, steps, j, k - 1);
      StepNext(qs[k - 1], steps[k - 1]);
    }
  }

  /** The order of two entries is the order of their submissions. */
  lemma OrderIsTime(qs: seq<Queue>, steps: seq<Step>, a: Entry, j: nat, b: Entry, k: nat)
    requires Run(qs, steps) && Came(qs, steps, a, j) && Came(qs, steps, b, k)
    ensures a.order < b.order <==> j < k
  {
    hide Legal, Apply;
    if j < k {
      StepNext(qs[j], steps[j]);
      NextGrows(qs, steps, j + 1, k);
    } else {
      NextGrows(qs, steps, k, j);
    }
  }

  /** `a` is started before `b` in one unlock, or `b` is left behind. */
  ghost predicate Preferred(q: Queue, t: Queue, a: Entry, b: Entry) {
    exists i: nat :: |q.started| <= i < |t.started| && t.started[i] == a &&
      (Live(t, b) || exists j: nat :: i < j < |t.started| && t.started[j] == b)
  }

  lemma CollectPrefers(q: Queue, dead: set<nat>, a: Entry, b: Entry)
    requires Core(q) && Preferred(q, Collect(q, dead), a, b)
    ensures Less(a, b)
  {
    hide Collect;
    StartsBestFirst(q, dead);
  }

  lemma StepPrefers(q: Queue, step: Step, a: Entry, b: Entry)
    requires Inv(q) && Legal(q, step) && Preferred(q, Apply(q, step), a, b)
    ensures Less(a, b)
  {
    hide HeapOk, Mapped, HandedOut, Collect, Push;
    match step
    case Submitted(r, p) =>
    case ContextDone(e, dead) =>
      UnqueueKeeps(q, e.runner);
      if e.runner in q.byId && q.byId[e.runner] == e {
        CollectPrefers(Unqueue(q, e.runner), dead, a, b);
      }
    case StartBegun(r) =>
    case StartFailed(r, dead) =>
      FreedCore(q, r);
      CollectPrefers(q.(running := q.running - {r}), dead, a, b);
    case Settled(r, dead) =>
      FreedCore(q, r);
      CollectPrefers(q.(running := q.running - {r}), dead, a, b);
    case Removed(r, dead) =>
      UnqueueKeeps(q, r);
      CollectPrefers(Unqueue(q, r), dead, a, b);
  }

  /** Whatever a step starts was submitted with a higher priority than whatever it starts later or
      leaves waiting, or with the same priority and earlier. */
  lemma StartsBySubmission(qs: seq<Queue>, steps: seq<Step>, max: nat, a: Entry, b: Entry)
    requires Run(qs, steps) && qs[0] == Create(max) && steps != []
    requires Preferred(qs[|steps| - 1], qs[|steps|], a, b)
    ensures exists j: nat, k: nat ::
              Came(qs, steps, a, j) && Came(qs, steps, b, k) &&
              (a.priority > b.priority || (a.priority == b.priority && j < k))
  {
    hide Legal, Apply, Came;
    var n := |steps| - 1;
    EveryRun(qs[..n + 1], steps[..n], max);
    StepPrefers(qs[n], steps[n], a, b);
    assert Has(qs[|steps|], a) && Has(qs[|steps|], b);
    EntriesCame(qs, steps, max, a);
    EntriesCame(qs, steps, max, b);
    var j: nat :| Came(qs, steps, a, j);
    var k: nat :| Came(qs, steps, b, k);
    OrderIsTime(qs, steps, a, j, b, k);
  }

  // ---------------------------------------------------------------- nothing is lost

  /** Entry number n is still live, was cancelled, or was handed out. */
  ghost predicate Accounted(q: Queue, n: nat) {
    || n in q.canceled
    || (exists e :: Live(q, e) && e.order == n)
    || (exists e :: e in q.started && e.order == n)
    || (exists e :: e in q.aborted && e.order == n)
  }

  /** What one unlock does with the entries it takes: those whose context is over are aborted, the
      others started; every live entry is still live, started or aborted. */
  lemma {:induction false} CollectMeans(q: Queue, dead: set<nat>, x: Entry)
    requires Core(q)
    ensures var t := Collect(q, dead);
            && (x in t.started ==> x in q.started || (Live(q, x) && x.order !in dead))
            && (x in t.aborted ==> x in q.aborted || (Live(q, x) && x.order in dead))
            && (x in q.started ==> x in t.started) && (x in q.aborted ==> x in t.aborted)
            && (Live(q, x) ==> Live(t, x) || x in t.started || x in t.aborted) && (Live(t, x) ==> Live(q, x))
            && q.canceled <= t.canceled
    decreases |q.heap|
  {
    hide HeapOk, Mapped, HandedOut, PopLive, Core;
    if HasSlot(q) {
      CoreHeap(q);
      PopLivePicksBest(q);
      var (popped, heap) := PopLive(q.heap, q.canceled);
      if popped.Some? {
        var e := popped.value;
        HandleKeeps(q, e, heap, dead);
        var u := Handle(q, e, heap, dead);
        HandleMeans(q, e, heap, dead, x);
        CollectMeans(u, dead, x);
      }
    }
  }

  lemma CoreHeap(q: Queue)
    requires Core(q)
    ensures HeapOk(q.heap, q.next)
  {
    hide HeapOk;
  }

  lemma HandleMeans(q: Queue, e: Entry, heap: seq<Entry>, dead: set<nat>, x: Entry)
    requires Core(q) && Live(q, e)
    requires forall y :: y in heap && y.order !in q.canceled <==> Live(q, y) && y != e
    ensures var t := Handle(q, e, heap, dead);
            && (x in t.started <==> x in q.started || (x == e && e.order !in dead))
            && (x in t.aborted <==> x in q.aborted || (x == e && e.order in dead))
            && (Live(t, x) <==> Live(q, x) && x != e) && q.canceled <= t.canceled
  {
    hide Heap, Mapped, HandedOut;
    assert e in q.heap;
  }

  lemma CollectAccounts(q: Queue, dead: set<nat>, n: nat)
    requires Core(q) && Accounted(q, n)
    ensures Accounted(Collect(q, dead), n)
  {
    hide Core, Collect, Live;
    if n in q.canceled {
      CollectMeans(q, dead, Entry(0, "", 0));
    } else {
      var e: Entry :| e.order == n && (Live(q, e) || e in q.started || e in q.aborted);
      CollectMeans(q, dead, e);
    }
  }

  lemma UnqueueAccounts(q: Queue, runner: string, n: nat)
    requires Core(q) && Accounted(q, n)
    ensures Accounted(Unqueue(q, runner), n)
  {
    hide HeapOk, HandedOut;
    var t := Unqueue(q, runner);
    if runner in q.byId && n !in t.canceled {
      var e: Entry :| e.order == n && (Live(q, e) || e in q.started || e in q.aborted);
      assert Live(t, e) || e in t.started || e in t.aborted;
    }
  }

  lemma StepAccounts(q: Queue, step: Step, n: nat)
    requires Inv(q) && Legal(q, step) && (n < q.next ==> Accounted(q, n)) && n < Apply(q, step).next
    ensures Accounted(Apply(q, step), n)
  {
    hide HeapOk, Mapped, HandedOut, Collect, Push, Accounted;
    match step
    case Submitted(r, p) => SubmitAccounts(q, r, p, n);
    case ContextDone(e, dead) =>
      UnqueueKeeps(q, e.runner);
      CollectNext(Unqueue(q, e.runner), dead);
      UnqueueAccounts(q, e.runner, n);
      CollectAccounts(Unqueue(q, e.runner), dead, n);
    case StartBegun(r) => UnqueueAccounts(q, r, n);
    case StartFailed(r, dead) => ReleaseAccounts(q, r, dead, n);
    case Settled(r, dead) => ReleaseAccounts(q, r, dead, n);
    case Removed(r, dead) =>
      UnqueueKeeps(q, r);
      CollectNext(Unqueue(q, r), dead);
      UnqueueAccounts(q, r, n);
      CollectAccounts(Unqueue(q, r), dead, n);
  }

  lemma ReleaseAccounts(q: Queue, runner: string, dead: set<nat>, n: nat)
    requires Inv(q) && (n < q.next ==> Accounted(q, n)) && n < Release(q, runner, dead).next
    ensures Accounted(Release(q, runner, dead), n)
  {
    hide Core, Collect;
    var u := q.(running := q.running - {runner});
    FreedCore(q, runner);
    CollectNext(u, dead);
    assert forall e :: Live(u, e) <==> Live(q, e);
    CollectAccounts(u, dead, n);
  }

  lemma SubmitAccounts(q: Queue, r: string, p: int, n: nat)
    requires Inv(q) && r !in q.byId && (n < q.next ==> Accounted(q, n)) && n < Submit(q, r, p).next
    ensures Accounted(Submit(q, r, p), n)
  {
    hide Inv, Push, Live;
    SubmitMeans(q, r, p);
    var t := Submit(q, r, p);
    if HasSlot(q) {
      SlotKeepsLive(q, r, p);
    } else if n == q.next {
      assert Live(t, Entry(q.next, r, p));
    } else if n !in q.canceled {
      var e: Entry :| e.order == n && (Live(q, e) || e in q.started || e in q.aborted);
      assert Live(t, e) || e in t.started || e in t.aborted;
    }
  }

  lemma SlotKeepsLive(q: Queue, r: string, p: int)
    requires HasSlot(q)
    ensures forall e :: Live(Submit(q, r, p), e) <==> Live(q, e)
  {
  }

  /** No queued submission is lost: its entry is waiting, cancelled, started or aborted; and a free
      slot and a waiting entry never coexist under the limit. */
  lemma {:induction false} NothingIsLost(qs: seq<Queue>, steps: seq<Step>, max: nat, n: nat)
    requires Run(qs, steps) && qs[0] == Create(max) && n < qs[|steps|].next
    ensures Accounted(qs[|steps|], n)
  {
    hide Legal, Apply, Accounted;
    if steps == [] {
    } else {
      var m := |steps| - 1;
      EveryRun(qs[..m + 1], steps[..m], max);
      if n < qs[m].next {
        NothingIsLost(qs[..m + 1], steps[..m], max, n);
      }
      StepAccounts(qs[m], steps[m], n);
    }
  }

  /** The limit in numbers: at most `max` slots are taken, and while fewer are no entry waits. */
  lemma SlotsMean(qs: seq<Queue>, steps: seq<Step>, max: nat)
    requires Run(qs, steps) && qs[0] == Create(max)
    ensures var q := qs[|steps|];
            && (max > 0 ==> |q.running| <= max)
            && (max == 0 || |q.running| < max ==> q.byId == map[] && forall e :: !Live(q, e))
  {
    EveryRun(qs, steps, max);
  }

  /** A context that ends takes out its own entry if that still waits, and does nothing otherwise. */
  lemma CancelMeans(q: Queue, e: Entry, dead: set<nat>)
    requires Inv(q)
    ensures var t := Cancel(q, e, dead);
            if Live(q, e) then !Live(t, e) && e !in t.started && e.order in t.canceled else t == q
  {
    hide Heap, Collect;
    if Live(q, e) {
      var u := Unqueue(q, e.runner);
      UnqueueKeeps(q, e.runner);
      assert !Live(u, e);
      assert forall i :: 0 <= i < |q.started| ==> (q.started + q.aborted)[i] == q.started[i];
      CollectMeans(u, dead, e);
      assert e.order in u.canceled;
    }
  }

  /** A runner whose start began or that was removed no longer waits; a start moves nothing else. */
  lemma StartLeavesQueue(q: Queue, r: string, dead: set<nat>, e: Entry)
    requires Inv(q)
    ensures var t := Apply(q, StartBegun(r));
            && (Live(t, e) <==> Live(q, e) && e.runner != r)
            && t.running == q.running && t.started == q.started && t.aborted == q.aborted
    ensures e.runner == r ==> !Live(Apply(q, Removed(r, dead)), e)
  {
    hide Heap, Collect;
    UnqueueKeeps(q, r);
    CollectMeans(Unqueue(q, r), dead, e);
  }

  /** Refilling gives a slot to the runner of every entry it starts, and to no other. */
  lemma {:induction false} CollectSlots(q: Queue, dead: set<nat>)
    ensures var t := Collect(q, dead);
            && t.max == q.max && q.started <= t.started
            && forall r :: r in t.running <==>
                 r in q.running || (q.max > 0 && exists i :: |q.started| <= i < |t.started| && t.started[i].runner == r)
    decreases |q.heap|
  {
    hide PopLive;
    if HasSlot(q) {
      var (popped, heap) := PopLive(q.heap, q.canceled);
      if popped.Some? {
        var e, u, t := popped.value, Handle(q, popped.value, heap, dead), Collect(q, dead);
        CollectSlots(u, dead);
        assert u.started == if e.order in dead then q.started else q.started + [e];
        assert e.order !in dead ==> t.started[|q.started|] == e;
      }
    }
  }

  // ---------------------------------------------------------------- the orchestrator's fields

  class Admission {
    const max: nat
    var running: set<string>
    var heap: seq<Entry>
    var canceled: set<nat>
    var byId: map<string, Entry>
    var next: nat
    ghost var started: seq<Entry>
    ghost var aborted: seq<Entry>

    ghost function View(): Queue
      reads this
    {
      Queue(max, running, heap, canceled, byId, next, started, aborted)
    }

    constructor (max: nat)
      ensures View() == Create(max)
    {
      this.max, running, heap, canceled, byId, next, started, aborted := max, {}, [], {}, map[], 0, [], [];
    }

    method PopQueued() returns (r: Option<Entry>)
      modifies this`heap
      ensures (r, heap) == PopLive(old(heap), canceled)
    {
      while heap != []
        invariant PopLive(heap, canceled) == PopLive(old(heap), canceled)
        decreases |heap|
      {
        var e := heap[0];
        heap := PopRest(heap);
        if e.order in canceled {
          continue;
        }
        return Some(e);
      }
      return None;
    }

    method CollectStarts(dead: set<nat>) returns (toStart: seq<Entry>, toCancel: seq<Entry>)
      modifies this
      ensures View() == Collect(old(View()), dead)
      ensures started == old(started) + toStart && aborted == old(aborted) + toCancel
    {
      hide PopLive;
      toStart, toCancel := [], [];
      while max == 0 || |running| < max
        invariant Collect(View(), dead) == Collect(old(View()), dead)
        invariant started == old(started) + toStart && aborted == old(aborted) + toCancel
        decreases |heap|
      {
        ghost var before := View();
        ghost var size := |heap|;
        var popped := PopQueued();
        if popped.None? {
          break;
        }
        var e := popped.value;
        byId := byId - {e.runner};
        if e.order in dead {
          canceled := canceled + {e.order};
          toCancel, aborted := toCancel + [e], aborted + [e];
        } else {
          if max > 0 {
            running := running + {e.runner};
          }
          toStart, started := toStart + [e], started + [e];
        }
        assert View() == Handle(before, e, heap, dead);
      }
    }

    method SubmitRunner(runner: string, priority: int) returns (startNow: bool)
      modifies this
      ensures View() == Submit(old(View()), runner, priority) && startNow == HasSlot(old(View()))
    {
      if max == 0 || |running| < max {
        if max > 0 {
          running := running + {runner};
        }
        return true;
      }
      var e := Entry(next, runner, priority);
      next := next + 1;
      heap := Push(heap, e);
      byId := byId[runner := e];
      return false;
    }

    method UnqueueRunner(runner: string)
      modifies this
      ensures View() == Unqueue(old(View()), runner)
    {
      if runner in byId {
        canceled := canceled + {byId[runner].order};
        byId := byId - {runner};
      }
    }

    method RemoveQueued(e: Entry, dead: set<nat>) returns (toStart: seq<Entry>, toCancel: seq<Entry>)
      modifies this
      ensures View() == Cancel(old(View()), e, dead)
      ensures started == old(started) + toStart && aborted == old(aborted) + toCancel
    {
      toStart, toCancel := [], [];
      if e.runner !in byId || byId[e.runner] != e {
        return;
      }
      UnqueueRunner(e.runner);
      toStart, toCancel := CollectStarts(dead);
    }

    method ReleaseSlot(runner: string, dead: set<nat>) returns (toStart: seq<Entry>, toCancel: seq<Entry>)
      modifies this
      ensures View() == Release(old(View()), runner, dead)
      ensures started == old(started) + toStart && aborted == old(aborted) + toCancel
    {
      running := running - {runner};
      toStart, toCancel := CollectStarts(dead);
    }
  }
}
