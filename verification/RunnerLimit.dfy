/** How many runners execute at once (orchestrator/queue.go, orchestrator/orchestrator.go). The
    admission queue bounds the slot set; this module follows the runners themselves: a start
    unqueues its runner under the lock, calls StartManaged outside it, and gives the runner's
    slot back when that fails. Anyone may call StartRunner on any known runner. */
module RunnerLimit {
  import AdmissionQueue

  /** starting: startManagedRunner calls between their lock-held region and StartManaged's answer;
      begun: runners whose StartManaged once succeeded; executing: those that have not settled;
      settled: runners whose Done channel is closed. */
  datatype System = System(queue: AdmissionQueue.Queue, known: set<string>, starting: multiset<string>,
                           begun: set<string>, executing: set<string>, settled: set<string>)

  function Create(max: nat): System { System(AdmissionQueue.Create(max), {}, multiset{}, {}, {}, {}) }

  datatype Step =
    | Submitted(runner: string, priority: int)
    | ContextDone(entry: AdmissionQueue.Entry, dead: set<nat>)
    | StartBegun(runner: string)
    | StartOk(runner: string)
    | StartFailed(runner: string, dead: set<nat>)
    | Done(runner: string)
    | Released(runner: string, dead: set<nat>)
    | Removed(runner: string, dead: set<nat>)

  /** A runner is submitted once, right after it was created. StartManaged succeeds at most once
      and only on a runner that has not settled. Its slot is released after Done closed. */
  predicate Legal(s: System, step: Step) {
    match step
    case Submitted(r, _) => r !in s.known
    case ContextDone(_, _) => true
    case StartBegun(r) => r in s.known
    case StartOk(r) => r in s.starting && r !in s.begun && r !in s.settled
    case StartFailed(r, _) => r in s.starting
    case Done(r) => r in s.known
    case Released(r, _) => r in s.settled
    case Removed(r, _) => r in s.known
  }

  function Apply(s: System, step: Step): System {
    match step
    case Submitted(r, p) => s.(queue := AdmissionQueue.Submit(s.queue, r, p), known := s.known + {r})
    case ContextDone(e, dead) => s.(queue := AdmissionQueue.Cancel(s.queue, e, dead))
    case StartBegun(r) => s.(queue := AdmissionQueue.Unqueue(s.queue, r), starting := s.starting + multiset{r})
    case StartOk(r) =>
      s.(starting := s.starting - multiset{r}, begun := s.begun + {r}, executing := s.executing + {r})
    case StartFailed(r, dead) =>
      s.(starting := s.starting - multiset{r}, queue := AdmissionQueue.Release(s.queue, r, dead))
    case Done(r) => s.(executing := s.executing - {r}, settled := s.settled + {r})
    case Released(r, dead) => s.(queue := AdmissionQueue.Release(s.queue, r, dead))
    case Removed(r, dead) => s.(queue := AdmissionQueue.Collect(AdmissionQueue.Unqueue(s.queue, r), dead))
  }

  ghost predicate Run(ss: seq<System>, steps: seq<Step>) {
    && |ss| == |steps| + 1
    && forall k :: 0 <= k < |steps| ==> Legal(ss[k], steps[k]) && ss[k + 1] == Apply(ss[k], steps[k])
  }

  // ---------------------------------------------------------------- the queue inside

  /** What a step does to the queue: nothing, or one of the queue's own steps. */
  function QueueStep(step: Step): seq<AdmissionQueue.Step> {
    match step
    case Submitted(r, p) => [AdmissionQueue.Submitted(r, p)]
    case ContextDone(e, dead) => [AdmissionQueue.ContextDone(e, dead)]
    case StartBegun(r) => [AdmissionQueue.StartBegun(r)]
    case StartFailed(r, dead) => [AdmissionQueue.StartFailed(r, dead)]
    case Released(r, dead) => [AdmissionQueue.Settled(r, dead)]
    case Removed(r, dead) => [AdmissionQueue.Removed(r, dead)]
    case _ => []
  }

  function QueueSteps(steps: seq<Step>): seq<AdmissionQueue.Step> {
    if steps == [] then [] else QueueSteps(steps[..|steps| - 1]) + QueueStep(steps[|steps| - 1])
  }

  function Queues(ss: seq<System>, steps: seq<Step>): seq<AdmissionQueue.Queue>
    requires |ss| == |steps| + 1
  {
    if steps == [] then [ss[0].queue]
    else
      var n := |steps| - 1;
      Queues(ss[..n + 1], steps[..n]) + if QueueStep(steps[n]) == [] then [] else [ss[n + 1].queue]
  }

  lemma StepRefines(s: System, step: Step)
    requires Inv(s) && Legal(s, step)
    ensures var t, moves := Apply(s, step).queue, QueueStep(step);
            if moves == [] then t == s.queue
            else |moves| == 1 && AdmissionQueue.Legal(s.queue, moves[0]) && t == AdmissionQueue.Apply(s.queue, moves[0])
  {
    hide AdmissionQueue.Inv, AdmissionQueue.Collect, AdmissionQueue.Release, AdmissionQueue.Unqueue;
    hide AdmissionQueue.Submit, AdmissionQueue.Cancel;
  }

  /** The queue inside every run of the system goes through a run of its own, so all that is proved
      of the queue's runs (limit, order of starts, nothing lost) holds here. */
  lemma {:induction false} RefinesQueue(ss: seq<System>, steps: seq<Step>, max: nat)
    requires Run(ss, steps) && ss[0] == Create(max)
    ensures var qs := Queues(ss, steps);
            && AdmissionQueue.Run(qs, QueueSteps(steps)) && qs[0] == AdmissionQueue.Create(max)
            && qs[|qs| - 1] == ss[|steps|].queue
  {
    hide Legal, Apply, Inv, AdmissionQueue.Legal, AdmissionQueue.Apply, QueueStep;
    if steps != [] {
      var n := |steps| - 1;
      RefinesQueue(ss[..n + 1], steps[..n], max);
      CreateIsCovered(max);
      EveryRun(ss[..n + 1], steps[..n]);
      StepRefines(ss[n], steps[n]);
    }
  }

  // ---------------------------------------------------------------- what the queue steps move

  /** Slots only go to runners that had one or were queued, and leave the queue for it. */
  ghost predicate Moved(q: AdmissionQueue.Queue, t: AdmissionQueue.Queue) {
    && q.running <= t.running <= q.running + q.byId.Keys
    && t.byId.Keys <= q.byId.Keys && t.byId.Keys !! t.running - q.running
    && t.max == q.max
  }

  lemma HandleMoves(q: AdmissionQueue.Queue, e: AdmissionQueue.Entry, heap: seq<AdmissionQueue.Entry>, dead: set<nat>)
    ensures var t := AdmissionQueue.Handle(q, e, heap, dead);
            && q.running <= t.running <= q.running + {e.runner} && t.byId.Keys == q.byId.Keys - {e.runner}
            && t.max == q.max && t.heap == heap
  {
  }

  lemma MovedOn(q: AdmissionQueue.Queue, r: string, u: AdmissionQueue.Queue, t: AdmissionQueue.Queue)
    requires r in q.byId && q.running <= u.running <= q.running + {r} && u.byId.Keys == q.byId.Keys - {r}
    requires u.max == q.max && Moved(u, t)
    ensures Moved(q, t)
  {
    assert t.running - q.running <= (t.running - u.running) + {r};
  }

  lemma {:induction false} CollectMoves(q: AdmissionQueue.Queue, dead: set<nat>)
    requires AdmissionQueue.Core(q)
    ensures Moved(q, AdmissionQueue.Collect(q, dead))
    decreases |q.heap|
  {
    hide AdmissionQueue.HeapOk, AdmissionQueue.HandedOut, AdmissionQueue.PopLive, AdmissionQueue.Handle, Moved;
    if AdmissionQueue.HasSlot(q) {
      AdmissionQueue.PopLivePicksBest(q);
      var (popped, heap) := AdmissionQueue.PopLive(q.heap, q.canceled);
      if popped.Some? {
        var e := popped.value;
        assert e.runner in q.byId;
        AdmissionQueue.HandleKeeps(q, e, heap, dead);
        HandleMoves(q, e, heap, dead);
        CollectMoves(AdmissionQueue.Handle(q, e, heap, dead), dead);
        MovedOn(q, e.runner, AdmissionQueue.Handle(q, e, heap, dead), AdmissionQueue.Collect(q, dead));
      } else {
        NotMoved(q, q.(heap := heap));
      }
    } else {
      NotMoved(q, q);
    }
  }

  lemma NotMoved(q: AdmissionQueue.Queue, t: AdmissionQueue.Queue)
    requires t.running == q.running && t.byId == q.byId && t.max == q.max
    ensures Moved(q, t)
  {
  }

  lemma ReleaseMoves(q: AdmissionQueue.Queue, r: string, dead: set<nat>)
    requires AdmissionQueue.Inv(q)
    ensures Moved(q.(running := q.running - {r}), AdmissionQueue.Release(q, r, dead))
    ensures AdmissionQueue.Inv(AdmissionQueue.Release(q, r, dead))
  {
    hide AdmissionQueue.HeapOk, AdmissionQueue.Collect;
    AdmissionQueue.ReleaseKeeps(q, r, dead);
    var t := q.(running := q.running - {r});
    assert forall e :: AdmissionQueue.Live(t, e) <==> AdmissionQueue.Live(q, e);
    AdmissionQueue.FewerFits(q.running, r);
    CollectMoves(t, dead);
  }

  lemma UnqueueMoves(q: AdmissionQueue.Queue, r: string)
    requires AdmissionQueue.Inv(q)
    ensures var t := AdmissionQueue.Unqueue(q, r);
            && AdmissionQueue.Inv(t) && t.running == q.running && t.byId.Keys == q.byId.Keys - {r} && t.max == q.max
  {
    hide AdmissionQueue.Core;
    AdmissionQueue.UnqueueKeeps(q, r);
  }

  lemma RefillMoves(q: AdmissionQueue.Queue, r: string, dead: set<nat>)
    requires AdmissionQueue.Inv(q)
    ensures var u := AdmissionQueue.Unqueue(q, r);
            var t := AdmissionQueue.Collect(u, dead);
            && Moved(u, t) && AdmissionQueue.Inv(t)
            && u.running == q.running && u.byId.Keys <= q.byId.Keys && u.max == q.max
  {
    hide AdmissionQueue.Core, AdmissionQueue.Collect;
    UnqueueMoves(q, r);
    CollectMoves(AdmissionQueue.Unqueue(q, r), dead);
    AdmissionQueue.CollectKeeps(AdmissionQueue.Unqueue(q, r), dead);
  }

  lemma SubmitMoves(q: AdmissionQueue.Queue, r: string, p: int)
    requires AdmissionQueue.Inv(q) && r !in q.byId
    ensures var t := AdmissionQueue.Submit(q, r, p);
            && AdmissionQueue.Inv(t) && t.max == q.max
            && if AdmissionQueue.HasSlot(q) then
                 t.running == (if q.max > 0 then q.running + {r} else q.running) && t.byId == q.byId
               else t.running == q.running && t.byId.Keys == q.byId.Keys + {r}
  {
    AdmissionQueue.SubmitKeeps(q, r, p);
  }

  // ---------------------------------------------------------------- invariant

  ghost predicate Bookkept(s: System) {
    && s.queue.byId.Keys <= s.known && s.queue.running <= s.known && s.begun <= s.known && s.settled <= s.known
    && (forall r :: r in s.starting ==> r in s.known && r !in s.queue.byId)
    && s.begun !! s.queue.byId.Keys && s.queue.running !! s.queue.byId.Keys
    && s.executing !! s.settled && s.executing <= s.begun <= s.executing + s.settled
  }

  ghost predicate Inv(s: System) { AdmissionQueue.Inv(s.queue) && Bookkept(s) }

  lemma QueueMoved(s: System, u: AdmissionQueue.Queue, q: AdmissionQueue.Queue)
    requires Bookkept(s) && Moved(u, q) && u.running <= s.queue.running && u.byId.Keys <= s.queue.byId.Keys
    ensures Bookkept(s.(queue := q))
  {
    var t := s.(queue := q);
    assert t.queue.byId.Keys <= s.queue.byId.Keys;
    forall r | r in t.queue.running ensures r in s.known && r !in t.queue.byId.Keys {
      assert r in u.running || r in t.queue.running - u.running;
    }
  }

  lemma StepKeeps(s: System, step: Step)
    requires Inv(s) && Legal(s, step)
    ensures Inv(Apply(s, step)) && Apply(s, step).queue.max == s.queue.max
  {
    hide AdmissionQueue.Inv, AdmissionQueue.Collect, AdmissionQueue.Release, AdmissionQueue.Unqueue;
    hide AdmissionQueue.Submit, Bookkept;
    var t := Apply(s, step);
    match step
    case Submitted(r, p) => BookSubmit(s, r, p);
    case ContextDone(e, dead) => BookRefill(s, e.runner, dead);
    case StartBegun(r) => BookBegin(s, r);
    case StartOk(r) => BookOk(s, r);
    case StartFailed(r, dead) =>
      BookRelease(s, r, dead);
      BookFail(s.(queue := AdmissionQueue.Release(s.queue, r, dead)), r);
    case Done(r) => BookDone(s, r);
    case Released(r, dead) => BookRelease(s, r, dead);
    case Removed(r, dead) => BookRefill(s, r, dead);
  }

  lemma BookSubmit(s: System, r: string, p: int)
    requires Inv(s) && r !in s.known
    ensures Inv(Apply(s, Submitted(r, p))) && Apply(s, Submitted(r, p)).queue.max == s.queue.max
  {
    hide AdmissionQueue.Inv, AdmissionQueue.Submit;
    SubmitMoves(s.queue, r, p);
  }

  lemma BookRefill(s: System, r: string, dead: set<nat>)
    requires Inv(s)
    ensures var q := AdmissionQueue.Collect(AdmissionQueue.Unqueue(s.queue, r), dead);
            Inv(s.(queue := q)) && q.max == s.queue.max
  {
    hide AdmissionQueue.Inv, AdmissionQueue.Collect, AdmissionQueue.Unqueue, Bookkept;
    RefillMoves(s.queue, r, dead);
    var u := AdmissionQueue.Unqueue(s.queue, r);
    QueueMoved(s, u, AdmissionQueue.Collect(u, dead));
  }

  lemma BookRelease(s: System, r: string, dead: set<nat>)
    requires Inv(s)
    ensures var q := AdmissionQueue.Release(s.queue, r, dead); Inv(s.(queue := q)) && q.max == s.queue.max
  {
    hide AdmissionQueue.Inv, AdmissionQueue.Release, Bookkept;
    ReleaseMoves(s.queue, r, dead);
    QueueMoved(s, s.queue.(running := s.queue.running - {r}), AdmissionQueue.Release(s.queue, r, dead));
  }

  lemma BookBegin(s: System, r: string)
    requires Inv(s) && r in s.known
    ensures Inv(Apply(s, StartBegun(r))) && Apply(s, StartBegun(r)).queue.max == s.queue.max
  {
    hide AdmissionQueue.Inv, AdmissionQueue.Unqueue;
    UnqueueMoves(s.queue, r);
  }

  lemma BookOk(s: System, r: string)
    requires Bookkept(s) && r in s.starting && r !in s.begun && r !in s.settled
    ensures Bookkept(Apply(s, StartOk(r)))
  {
  }

  lemma BookFail(s: System, r: string)
    requires Bookkept(s)
    ensures Bookkept(s.(starting := s.starting - multiset{r}))
  {
  }

  lemma BookDone(s: System, r: string)
    requires Bookkept(s) && r in s.known
    ensures Bookkept(Apply(s, Done(r)))
  {
  }

  lemma {:induction false} EveryRun(ss: seq<System>, steps: seq<Step>)
    requires Run(ss, steps) && Inv(ss[0])
    ensures Inv(ss[|steps|]) && ss[|steps|].queue.max == ss[0].queue.max
  {
    hide Legal, Apply, Inv;
    if steps != [] {
      var n := |steps| - 1;
      EveryRun(ss[..n + 1], steps[..n]);
      StepKeeps(ss[n], steps[n]);
    }
  }

  // ---------------------------------------------------------------- executing runners hold slots

  /** A start of a runner that holds no slot succeeds, or a failed start gives back the slot of a
      runner that is executing. */
  predicate Breaks(s: System, step: Step) {
    || (step.StartOk? && step.runner !in s.queue.running)
    || (step.StartFailed? && step.runner in s.executing)
  }

  predicate Covered(s: System) { s.executing <= s.queue.running }

  lemma CoveredStep(s: System, step: Step)
    requires Inv(s) && Legal(s, step) && s.queue.max > 0 && Covered(s)
    ensures Covered(Apply(s, step)) <==> !Breaks(s, step)
  {
    hide AdmissionQueue.Inv, AdmissionQueue.Collect, AdmissionQueue.Release, AdmissionQueue.Unqueue;
    hide AdmissionQueue.Submit;
    match step
    case Submitted(r, p) => SubmitMoves(s.queue, r, p);
    case ContextDone(e, dead) => RefillMoves(s.queue, e.runner, dead);
    case StartBegun(r) => UnqueueMoves(s.queue, r);
    case StartOk(r) =>
    case StartFailed(r, dead) => ReleaseMoves(s.queue, r, dead);
    case Done(r) =>
    case Released(r, dead) => ReleaseMoves(s.queue, r, dead);
    case Removed(r, dead) => RefillMoves(s.queue, r, dead);
  }

  /** Over a run under a limit every executing runner holds a slot at every moment if and only if
      no slotless start succeeded and no failed start gave back an executing runner's slot. */
  lemma {:induction false} SlotsCoverIff(ss: seq<System>, steps: seq<Step>, max: nat)
    requires Run(ss, steps) && ss[0] == Create(max) && max > 0
    ensures (forall k :: 0 <= k <= |steps| ==> Covered(ss[k])) <==>
            forall k :: 0 <= k < |steps| ==> !Breaks(ss[k], steps[k])
  {
    hide Legal, Apply, Inv, Covered, Breaks;
    if steps == [] {
      CreateIsCovered(max);
    } else {
      var n := |steps| - 1;
      SlotsCoverIff(ss[..n + 1], steps[..n], max);
      CreateIsCovered(max);
      EveryRun(ss[..n + 1], steps[..n]);
      assert forall k :: 0 <= k <= n ==> ss[..n + 1][k] == ss[k];
      assert forall k :: 0 <= k < n ==> steps[..n][k] == steps[k];
      if forall k :: 0 <= k <= n ==> Covered(ss[k]) {
        CoveredStep(ss[n], steps[n]);
        assert Covered(ss[n + 1]) <==> !Breaks(ss[n], steps[n]);
      } else {
        var k :| 0 <= k < n && Breaks(ss[k], steps[k]);
      }
    }
  }

  lemma CreateIsCovered(max: nat)
    ensures Inv(Create(max)) && Covered(Create(max))
  {
  }

  lemma CoveredFits(s: System)
    requires Inv(s) && Covered(s) && s.queue.max > 0
    ensures |s.executing| <= s.queue.max
  {
    Smaller(s.executing, s.queue.running);
  }

  lemma Smaller(a: set<string>, b: set<string>)
    requires a <= b
    ensures |a| <= |b|
  {
    assert b == a + (b - a);
  }

  // ---------------------------------------------------------------- the limit

  ghost predicate Unbroken(ss: seq<System>, steps: seq<Step>) {
    Run(ss, steps) && forall k :: 0 <= k < |steps| ==> !Breaks(ss[k], steps[k])
  }

  /** From a state, every continuation without a further breaking step respects the limit if and
      only if every executing runner holds a slot. */
  lemma LimitHoldsIff(s: System)
    requires Inv(s) && s.queue.max > 0
    ensures (forall ss: seq<System>, steps: seq<Step> ::
               Unbroken(ss, steps) && ss[0] == s ==> |ss[|steps|].executing| <= s.queue.max) <==> Covered(s)
  {
    hide Inv, Covered, Breaks;
    if Covered(s) {
      forall ss: seq<System>, steps: seq<Step> | Unbroken(ss, steps) && ss[0] == s
        ensures |ss[|steps|].executing| <= s.queue.max
      {
        StaysCovered(ss, steps);
        CoveredFits(ss[|steps|]);
      }
    } else {
      var ss, steps := Overrun(s);
      assert Unbroken(ss, steps) && ss[0] == s;
    }
  }

  lemma {:induction false} StaysCovered(ss: seq<System>, steps: seq<Step>)
    requires Unbroken(ss, steps) && Inv(ss[0]) && Covered(ss[0]) && ss[0].queue.max > 0
    ensures Inv(ss[|steps|]) && Covered(ss[|steps|]) && ss[|steps|].queue.max == ss[0].queue.max
  {
    hide Legal, Apply, Inv, Covered, Breaks;
    if steps != [] {
      var n := |steps| - 1;
      StaysCovered(ss[..n + 1], steps[..n]);
      CoveredStep(ss[n], steps[n]);
      StepKeeps(ss[n], steps[n]);
    }
  }

  lemma {:induction false} FreshName(known: set<string>) returns (r: string)
    ensures r !in known && forall k :: k in known ==> |k| < |r|
  {
    r := "a";
    if known != {} {
      var k :| k in known;
      r := FreshName(known - {k});
      if |r| <= |k| {
        r := k + "a";
      }
    }
  }

  lemma Cons(s: System, step: Step, ss: seq<System>, steps: seq<Step>) returns (ss': seq<System>, steps': seq<Step>)
    requires Legal(s, step) && !Breaks(s, step) && Unbroken(ss, steps) && |ss| == |steps| + 1 && ss[0] == Apply(s, step)
    ensures Unbroken(ss', steps') && |ss'| == |steps'| + 1 && ss'[0] == s && ss'[|steps'|] == ss[|steps|]
  {
    hide Legal, Apply, Breaks;
    ss', steps' := [s] + ss, [step] + steps;
  }

  /** An executing runner without a slot: settle the idle slot holders, start the others, fill the
      free slots, until every slot is held by an executing runner and one more executes. */
  lemma {:induction false} Overrun(s: System) returns (ss: seq<System>, steps: seq<Step>)
    requires Inv(s) && s.queue.max > 0 && !Covered(s)
    ensures Unbroken(ss, steps) && |ss| == |steps| + 1 && ss[0] == s && |ss[|steps|].executing| > s.queue.max
    decreases s.queue.max - |s.queue.running * s.executing|, |s.settled * (s.queue.running + s.queue.byId.Keys)|,
              s.queue.max - |s.queue.running|
  {
    hide AdmissionQueue.Inv, Inv, Legal, Apply, Breaks, Unbroken;
    SlotCount(s);
    if h :| h in s.queue.running && h !in s.executing && h in s.settled {
      var t := FreeIdle(s, h);
      ss, steps := Overrun(t);
      ss, steps := Cons(s, Released(h, {}), ss, steps);
    } else if h :| h in s.queue.running && h !in s.executing {
      var t, u := StartHolder(s, h);
      ss, steps := Overrun(u);
      ss, steps := Cons(t, StartOk(h), ss, steps);
      ss, steps := Cons(s, StartBegun(h), ss, steps);
    } else if |s.queue.running| < s.queue.max {
      var r := FreshName(s.known);
      var t := FillSlot(s, r);
      ss, steps := Overrun(t);
      ss, steps := Cons(s, Submitted(r, 0), ss, steps);
    } else {
      ss, steps := [s], [];
      Alone(s);
      StrictlySmaller(s.queue.running, s.executing);
    }
  }

  lemma Alone(s: System)
    ensures Unbroken([s], [])
  {
  }

  lemma SlotCount(s: System)
    requires Inv(s) && s.queue.max > 0
    ensures |s.queue.running| <= s.queue.max && |s.queue.running * s.executing| <= s.queue.max
  {
    Smaller(s.queue.running * s.executing, s.queue.running);
  }

  lemma StrictlySmaller(a: set<string>, b: set<string>)
    requires a <= b && a != b
    ensures |a| < |b|
  {
    var x :| x in b && x !in a;
    Smaller(a, b - {x});
    assert b == (b - {x}) + {x};
  }

  lemma FreeIdle(s: System, h: string) returns (t: System)
    requires Inv(s) && s.queue.max > 0 && !Covered(s)
    requires h in s.queue.running && h !in s.executing && h in s.settled
    ensures t == Apply(s, Released(h, {})) && Legal(s, Released(h, {})) && !Breaks(s, Released(h, {}))
    ensures Inv(t) && !Covered(t) && t.queue.max == s.queue.max
    ensures |t.queue.running * t.executing| == |s.queue.running * s.executing|
    ensures |t.settled * (t.queue.running + t.queue.byId.Keys)| < |s.settled * (s.queue.running + s.queue.byId.Keys)|
  {
    hide AdmissionQueue.Inv, AdmissionQueue.Release, Moved;
    t := Apply(s, Released(h, {}));
    StepKeeps(s, Released(h, {}));
    ReleaseMoves(s.queue, h, {});
    FreedSets(s, h, t.queue);
    StrictlySmaller(t.settled * (t.queue.running + t.queue.byId.Keys),
                    s.settled * (s.queue.running + s.queue.byId.Keys));
  }

  lemma FreedSets(s: System, h: string, q: AdmissionQueue.Queue)
    requires Bookkept(s) && Moved(s.queue.(running := s.queue.running - {h}), q)
    requires h in s.queue.running && h !in s.executing && h in s.settled
    ensures q.running * s.executing == s.queue.running * s.executing
    ensures s.executing <= q.running ==> s.executing <= s.queue.running
    ensures s.settled * (q.running + q.byId.Keys) < s.settled * (s.queue.running + s.queue.byId.Keys)
  {
    assert s.executing !! s.queue.byId.Keys;
    assert q.running * s.executing == s.queue.running * s.executing;
    var a, b := s.settled * (q.running + q.byId.Keys), s.settled * (s.queue.running + s.queue.byId.Keys);
    assert a <= b && h in b && h !in a;
  }

  lemma StartHolder(s: System, h: string) returns (t: System, u: System)
    requires Inv(s) && !Covered(s) && h in s.queue.running && h !in s.executing && h !in s.settled
    ensures t == Apply(s, StartBegun(h)) && Legal(s, StartBegun(h)) && !Breaks(s, StartBegun(h))
    ensures u == Apply(t, StartOk(h)) && Legal(t, StartOk(h)) && !Breaks(t, StartOk(h))
    ensures Inv(u) && !Covered(u) && u.queue.max == s.queue.max
    ensures |u.queue.running * u.executing| > |s.queue.running * s.executing|
  {
    hide AdmissionQueue.Inv, AdmissionQueue.Unqueue;
    t := Apply(s, StartBegun(h));
    UnqueueMoves(s.queue, h);
    StepKeeps(s, StartBegun(h));
    u := Apply(t, StartOk(h));
    StepKeeps(t, StartOk(h));
    assert u.queue.running == s.queue.running && u.executing == s.executing + {h};
    assert h in u.queue.running * u.executing && h !in s.queue.running * s.executing;
    StrictlySmaller(s.queue.running * s.executing, u.queue.running * u.executing);
  }

  lemma FillSlot(s: System, r: string) returns (t: System)
    requires Inv(s) && s.queue.max > 0 && !Covered(s) && |s.queue.running| < s.queue.max && r !in s.known
    ensures t == Apply(s, Submitted(r, 0)) && Legal(s, Submitted(r, 0)) && !Breaks(s, Submitted(r, 0))
    ensures Inv(t) && !Covered(t) && t.queue.max == s.queue.max
    ensures |t.queue.running * t.executing| == |s.queue.running * s.executing|
    ensures |t.settled * (t.queue.running + t.queue.byId.Keys)| == |s.settled * (s.queue.running + s.queue.byId.Keys)|
    ensures |t.queue.running| > |s.queue.running|
  {
    hide AdmissionQueue.Inv, AdmissionQueue.Submit, Bookkept;
    t := Apply(s, Submitted(r, 0));
    NewName(s, r);
    SubmitMoves(s.queue, r, 0);
    StepKeeps(s, Submitted(r, 0));
    FilledSets(s.queue.running, s.executing, s.settled, s.queue.byId.Keys, r);
  }

  lemma FilledSets(running: set<string>, executing: set<string>, settled: set<string>, queued: set<string>, r: string)
    requires r !in executing && r !in settled && r !in running
    ensures (running + {r}) * executing == running * executing
    ensures settled * (running + {r} + queued) == settled * (running + queued)
    ensures executing <= running + {r} ==> executing <= running
  {
  }

  lemma NewName(s: System, r: string)
    requires Bookkept(s) && r !in s.known
    ensures r !in s.executing && r !in s.settled && r !in s.queue.running && r !in s.queue.byId
  {
  }

  // ---------------------------------------------------------------- runs over the limit

  lemma OneMore(ss: seq<System>, steps: seq<Step>, step: Step, t: System) returns (ss': seq<System>, steps': seq<Step>)
    requires Run(ss, steps) && |ss| == |steps| + 1 && Legal(ss[|steps|], step) && Apply(ss[|steps|], step) == t
    ensures Run(ss', steps') && |ss'| == |steps'| + 1 && ss'[0] == ss[0] && ss'[|steps'|] == t
    ensures ss' == ss + [t] && steps' == steps + [step]
  {
    ss', steps' := ss + [t], steps + [step];
  }

  /** Limit 1 and one runner executing. */
  function Single(queue: AdmissionQueue.Queue, known: set<string>): System {
    System(queue, known, multiset{}, {"A"}, {"A"}, {})
  }

  lemma FirstRuns() returns (ss: seq<System>, steps: seq<Step>)
    ensures Run(ss, steps) && |ss| == |steps| + 1 && ss[0] == Create(1)
    ensures ss[|steps|] == Single(AdmissionQueue.Create(1).(running := {"A"}), {"A"})
  {
    var q := AdmissionQueue.Create(1).(running := {"A"});
    assert AdmissionQueue.Submit(AdmissionQueue.Create(1), "A", 0) == q;
    ss, steps := [Create(1)], [];
    ss, steps := OneMore(ss, steps, Submitted("A", 0), System(q, {"A"}, multiset{}, {}, {}, {}));
    ss, steps := OneMore(ss, steps, StartBegun("A"), System(q, {"A"}, multiset{"A"}, {}, {}, {}));
    ss, steps := OneMore(ss, steps, StartOk("A"), Single(q, {"A"}));
  }

  /** Limit 1, A executing, B queued: StartRunner(B) takes B out of the queue and runs it without
      a slot. */
  lemma QueuedStartExceeds()
    ensures exists ss: seq<System>, steps: seq<Step> ::
      Run(ss, steps) && ss[0] == Create(1) && ss[|steps|].executing == {"A", "B"} && ss[|steps|].queue.running == {"A"}
  {
    hide AdmissionQueue.Submit, AdmissionQueue.Unqueue, AdmissionQueue.Inv, Run;
    var ss, steps := FirstRuns();
    var q0 := ss[|steps|].queue;
    CreateIsCovered(1);
    HasOne(q0);
    SubmitMoves(q0, "B", 0);
    var q1 := AdmissionQueue.Submit(q0, "B", 0);
    UnqueueMoves(q1, "B");
    var q2 := AdmissionQueue.Unqueue(q1, "B");
    ss, steps := OneMore(ss, steps, Submitted("B", 0), Single(q1, {"A", "B"}));
    ss, steps := OneMore(ss, steps, StartBegun("B"), Single(q2, {"A", "B"}).(starting := multiset{"B"}));
    ss, steps := OneMore(ss, steps, StartOk("B"),
                         System(q2, {"A", "B"}, multiset{}, {"A", "B"}, {"A", "B"}, {}));
    SizeOf(ss, steps);
  }

  lemma RunAlone(s: System)
    ensures Run([s], [])
  {
  }

  lemma SizeOf(ss: seq<System>, steps: seq<Step>)
    requires Run(ss, steps)
    ensures |ss| == |steps| + 1
  {
  }

  lemma HasOne(q: AdmissionQueue.Queue)
    requires q == AdmissionQueue.Create(1).(running := {"A"})
    ensures AdmissionQueue.Inv(q) && !AdmissionQueue.HasSlot(q) && "B" !in q.byId
  {
  }

  /** Limit 1, A executing: a second StartRunner(A) fails and frees A's slot, and the next runner
      submitted takes it and executes beside A. */
  lemma RestartExceeds()
    ensures exists ss: seq<System>, steps: seq<Step> ::
      Run(ss, steps) && ss[0] == Create(1) && ss[|steps|].executing == {"A", "B"} && ss[|steps|].queue.running == {"B"}
  {
    hide AdmissionQueue.Submit, AdmissionQueue.Release, Run;
    var ss, steps := FirstRuns();
    var none, q := AdmissionQueue.Create(1), ss[|steps|].queue;
    var next := none.(running := {"B"});
    FreedAndTaken();
    ss, steps := OneMore(ss, steps, StartBegun("A"), Single(q, {"A"}).(starting := multiset{"A"}));
    ss, steps := OneMore(ss, steps, StartFailed("A", {}), Single(none, {"A"}));
    ss, steps := OneMore(ss, steps, Submitted("B", 0), Single(next, {"A", "B"}));
    ss, steps := OneMore(ss, steps, StartBegun("B"), Single(next, {"A", "B"}).(starting := multiset{"B"}));
    ss, steps := OneMore(ss, steps, StartOk("B"),
                         System(next, {"A", "B"}, multiset{}, {"A", "B"}, {"A", "B"}, {}));
    SizeOf(ss, steps);
  }

  lemma FreedAndTaken()
    ensures var none := AdmissionQueue.Create(1);
            && AdmissionQueue.Release(none.(running := {"A"}), "A", {}) == none
            && AdmissionQueue.Submit(none, "B", 0) == none.(running := {"B"})
  {
    var none := AdmissionQueue.Create(1);
    assert none.(running := {"A"}).running - {"A"} == {};
    assert AdmissionQueue.PopLive([], {}) == (AdmissionQueue.PopLive([], {}).0, []);
  }

  /** A breaking step does not by itself put a run over the limit: B is started without a slot
      while A holds the only one and never executes. What it breaks is that the limit will hold. */
  lemma BreakMayFit()
    ensures exists ss: seq<System>, steps: seq<Step> ::
      && Run(ss, steps) && ss[0] == Create(1) && |steps| > 0 && Breaks(ss[|steps| - 1], steps[|steps| - 1])
      && forall k :: 0 <= k <= |steps| ==> |ss[k].executing| <= 1
  {
    hide AdmissionQueue.Submit, AdmissionQueue.Unqueue, AdmissionQueue.Inv, Run;
    var q0 := AdmissionQueue.Create(1).(running := {"A"});
    assert AdmissionQueue.Submit(AdmissionQueue.Create(1), "A", 0) == q0 by { OneSlot(); }
    HasOne(q0);
    SubmitMoves(q0, "B", 0);
    var q1 := AdmissionQueue.Submit(q0, "B", 0);
    UnqueueMoves(q1, "B");
    var q2 := AdmissionQueue.Unqueue(q1, "B");
    var s0, s1 := Create(1), System(q0, {"A"}, multiset{}, {}, {}, {});
    var s2 := System(q1, {"A", "B"}, multiset{}, {}, {}, {});
    var s3 := System(q2, {"A", "B"}, multiset{"B"}, {}, {}, {});
    var s4 := System(q2, {"A", "B"}, multiset{}, {"B"}, {"B"}, {});
    var ss, steps := [s0], [];
    RunAlone(s0);
    ss, steps := OneMore(ss, steps, Submitted("A", 0), s1);
    ss, steps := OneMore(ss, steps, Submitted("B", 0), s2);
    ss, steps := OneMore(ss, steps, StartBegun("B"), s3);
    ss, steps := OneMore(ss, steps, StartOk("B"), s4);
    assert ss == [s0, s1, s2, s3, s4] && Breaks(ss[3], steps[3]);
    SizeOf(ss, steps);
  }

  lemma OneSlot()
    ensures AdmissionQueue.Submit(AdmissionQueue.Create(1), "A", 0) == AdmissionQueue.Create(1).(running := {"A"})
  {
  }
}
