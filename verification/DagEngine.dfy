/** The runner's execution engine (runner/runner.go): an event loop that accepts node
    batches, dynamically spawned nodes and results, and dispatches a node as soon as the
    last of its parents has completed.

    `State` is what the loop keeps between two returns to `select`, plus two logs that the
    theorems speak about: `started`, the goroutines launched in order with the inputs they
    were given, and `finished`, the results received. External calls that may fail (record
    writes, event emission, agent preparation, handoff delivery) consult the oracle
    `ok: nat -> bool` at the running call number; a failed call ends the loop. */
module DagEngine {
  import opened Wrappers

  type Id = string
  type Output = string

  datatype Node = Node(id: Id, parents: seq<Id>)

  /** What a node's goroutine sends back. */
  datatype Result = Result(id: Id, output: Output, newNodes: seq<Node>, failed: bool)

  /** One launched goroutine: the node and the inputs it was handed. */
  datatype Start = Start(id: Id, inputs: map<Id, Option<Output>>)

  datatype State = State(
    nodes: map<Id, Node>,
    children: map<Id, seq<Id>>,
    pending: map<Id, int>,
    outputs: map<Id, Output>,
    active: int,
    started: seq<Start>,
    finished: seq<Id>,
    stopped: bool,
    calls: nat,
    reports: nat)

  const INIT := State(map[], map[], map[], map[], 0, [], [], false, 0, 0)

  // ---------------------------------------------------------------- the arms, as functions

  /** Go's map read: a missing key reads as nil. */
  function Lookup(outputs: map<Id, Output>, p: Id): Option<Output> {
    if p in outputs then Some(outputs[p]) else None
  }

  function Kids(children: map<Id, seq<Id>>, p: Id): seq<Id> {
    if p in children then children[p] else []
  }

  /** How many entries of `parents`, counted with multiplicity, are not in `done`. */
  function Unfinished(parents: seq<Id>, done: set<Id>): nat {
    if parents == [] then 0
    else Unfinished(parents[..|parents| - 1], done) + if parents[|parents| - 1] in done then 0 else 1
  }

  /** Appends child `c` under each parent, once per occurrence. */
  function Link(children: map<Id, seq<Id>>, c: Id, parents: seq<Id>): map<Id, seq<Id>> {
    if parents == [] then children
    else
      var rest := Link(children, c, parents[..|parents| - 1]);
      var p := parents[|parents| - 1];
      rest[p := Kids(rest, p) + [c]]
  }

  function Halt(s: State): State { s.(calls := s.calls + 1, stopped := true) }

  function RunNode(ok: nat -> bool, s: State, n: Node): State {
    if ok(s.calls)
    then s.(calls := s.calls + 1, active := s.active + 1,
            started := s.started + [Start(n.id, map p | p in n.parents :: Lookup(s.outputs, p))])
    else Halt(s)
  }

  function Register(s: State, n: Node): State {
    s.(nodes := s.nodes[n.id := n],
       children := Link(s.children, n.id, n.parents),
       pending := s.pending[n.id := Unfinished(n.parents, s.outputs.Keys)])
  }

  function AddOne(ok: nat -> bool, s: State, n: Node): State {
    if n.id in s.nodes then s
    else
      var r := Register(s, n);
      if !ok(r.calls) then Halt(r)
      else
        var r' := r.(calls := r.calls + 1);
        if r'.pending[n.id] == 0 then RunNode(ok, r', n) else r'
  }

  function AddAll(ok: nat -> bool, s: State, batch: seq<Node>): State
    decreases |batch|
  {
    if batch == [] || s.stopped then s else AddAll(ok, AddOne(ok, s, batch[0]), batch[1..])
  }

  function ReleaseOne(ok: nat -> bool, s: State, c: Id): State {
    if !ok(s.calls) then Halt(s)
    else
      var left := (if c in s.pending then s.pending[c] else 0) - 1;
      var s' := s.(calls := s.calls + 1, pending := s.pending[c := left]);
      if left == 0 && c in s.nodes then RunNode(ok, s', s.nodes[c]) else s'
  }

  function Release(ok: nat -> bool, s: State, cs: seq<Id>): State
    decreases |cs|
  {
    if cs == [] || s.stopped then s else Release(ok, ReleaseOne(ok, s, cs[0]), cs[1..])
  }

  function Idle(ok: nat -> bool, s: State): State {
    if s.stopped || s.active != 0 then s
    else if ok(s.calls) then s.(calls := s.calls + 1, reports := s.reports + 1) else Halt(s)
  }

  /** The second half of the result arm: record the output, then release the children. */
  function Complete(ok: nat -> bool, s: State, id: Id, output: Output): State {
    var r := s.(outputs := s.outputs[id := output]);
    if !ok(r.calls) then Halt(r)
    else Idle(ok, Release(ok, r.(calls := r.calls + 1), Kids(r.children, id)))
  }

  function Receive(ok: nat -> bool, s: State, res: Result): State {
    var r := s.(active := s.active - 1, finished := s.finished + [res.id]);
    if res.failed then r.(stopped := true)
    else
      var a := AddAll(ok, r, res.newNodes);
      if a.stopped then a else Complete(ok, a, res.id, res.output)
  }

  // ---------------------------------------------------------------- runs

  datatype Step = Batch(nodes: seq<Node>) | Arrive(result: Result) | Cancel

  function Ids(started: seq<Start>): (r: seq<Id>)
    ensures |r| == |started|
    ensures forall k :: 0 <= k < |r| ==> r[k] == started[k].id
  {
    seq(|started|, k requires 0 <= k < |started| => started[k].id)
  }

  /** A step may be taken while the loop is alive; a result comes from a goroutine that was
      launched and has not reported yet. */
  predicate Enabled(s: State, step: Step) {
    && !s.stopped
    && (step.Arrive? ==> step.result.id in Ids(s.started) && step.result.id !in s.finished)
  }

  function Apply(ok: nat -> bool, s: State, step: Step): State {
    match step
    case Batch(nodes) => AddAll(ok, s, nodes)
    case Arrive(res) => Receive(ok, s, res)
    case Cancel => s.(stopped := true)
  }

  function Run(ok: nat -> bool, steps: seq<Step>): State {
    if steps == [] then INIT else Apply(ok, Run(ok, steps[..|steps| - 1]), steps[|steps| - 1])
  }

  predicate Legal(ok: nat -> bool, steps: seq<Step>) {
    steps == [] ||
    (Legal(ok, steps[..|steps| - 1]) && Enabled(Run(ok, steps[..|steps| - 1]), steps[|steps| - 1]))
  }

  lemma {:induction false} LegalPrefix(ok: nat -> bool, steps: seq<Step>, i: nat)
    requires Legal(ok, steps) && i <= |steps|
    ensures Legal(ok, steps[..i])
    decreases |steps|
  {
    if i < |steps| {
      LegalPrefix(ok, steps[..|steps| - 1], i);
      assert steps[..|steps| - 1][..i] == steps[..i];
    } else {
      assert steps[..i] == steps;
    }
  }

  // ---------------------------------------------------------------- invariants

  ghost predicate Distinct<T>(s: seq<T>) {
    forall i, j :: 0 <= i < j < |s| ==> s[i] != s[j]
  }

  /** A launched goroutine belongs to a known node, was handed exactly the recorded outputs
      of that node's parents, and every parent was launched before it. */
  ghost predicate StartOk(nodes: map<Id, Node>, outputs: map<Id, Output>, started: seq<Start>, k: nat)
    requires k < |started|
  {
    var e := started[k];
    && e.id in nodes
    && (forall p :: p in nodes[e.id].parents ==> p in outputs && p in Ids(started[..k]))
    && e.inputs == map p | p in nodes[e.id].parents :: Lookup(outputs, p)
  }

  ghost predicate LogOk(nodes: map<Id, Node>, outputs: map<Id, Output>, started: seq<Start>) {
    && Distinct(Ids(started))
    && forall k :: 0 <= k < |started| ==> StartOk(nodes, outputs, started, k)
  }

  ghost predicate Sound(nodes: map<Id, Node>, outputs: map<Id, Output>, started: seq<Start>, finished: seq<Id>) {
    && (forall id :: id in nodes ==> nodes[id].id == id)
    && LogOk(nodes, outputs, started)
    && Distinct(finished)
    && (forall id :: id in outputs ==> id in finished)
    && (forall id :: id in finished ==> id in Ids(started))
  }

  /** Holds in every state, including those where the loop died half-way through an arm. */
  ghost predicate Safe(s: State) { Sound(s.nodes, s.outputs, s.started, s.finished) }

  function EdgeCount(children: map<Id, seq<Id>>, p: Id, c: Id): nat { multiset(Kids(children, p))[c] }

  function ParentCount(nodes: map<Id, Node>, c: Id, p: Id): nat {
    if c in nodes then multiset(nodes[c].parents)[p] else 0
  }

  /** The edge lists mirror the parent lists, with multiplicity. */
  ghost predicate Wired(nodes: map<Id, Node>, children: map<Id, seq<Id>>) {
    forall p, c :: EdgeCount(children, p, c) == ParentCount(nodes, c, p)
  }

  /** Pending counters are exact up to `owed`, the decrements still to come in this arm;
      a node is launched exactly when its counter is 0. */
  ghost predicate Exact(nodes: map<Id, Node>, pending: map<Id, int>, done: set<Id>, launched: seq<Id>,
                        owed: multiset<Id>)
  {
    && pending.Keys == nodes.Keys
    && (forall c :: c in owed ==> c in nodes)
    && (forall c :: c in nodes ==> pending[c] == Unfinished(nodes[c].parents, done) + owed[c])
    && (forall c :: c in nodes ==> (pending[c] == 0 <==> c in launched))
  }

  ghost predicate Counted(s: State, owed: multiset<Id>) {
    Exact(s.nodes, s.pending, s.outputs.Keys, Ids(s.started), owed)
  }

  /** The invariant at every return to `select`. */
  ghost predicate AtSelect(s: State) {
    && Safe(s) && Wired(s.nodes, s.children) && Counted(s, multiset{})
    && (forall id :: id in s.finished ==> id in s.outputs)
    && s.active == |s.started| - |s.finished|
  }

  // ---------------------------------------------------------------- lemmas on counting

  lemma {:induction false} UnfinishedZero(ps: seq<Id>, done: set<Id>)
    ensures Unfinished(ps, done) == 0 <==> forall p :: p in ps ==> p in done
  {
    if ps != [] {
      UnfinishedZero(ps[..|ps| - 1], done);
      assert ps == ps[..|ps| - 1] + [ps[|ps| - 1]];
    }
  }

  lemma {:induction false} UnfinishedDrop(ps: seq<Id>, done: set<Id>, r: Id)
    requires r !in done
    ensures Unfinished(ps, done + {r}) + multiset(ps)[r] == Unfinished(ps, done)
  {
    if ps != [] {
      UnfinishedDrop(ps[..|ps| - 1], done, r);
      assert ps == ps[..|ps| - 1] + [ps[|ps| - 1]];
    }
  }

  lemma {:induction false} LinkCounts(children: map<Id, seq<Id>>, c: Id, ps: seq<Id>, p: Id, x: Id)
    ensures EdgeCount(Link(children, c, ps), p, x) ==
            EdgeCount(children, p, x) + if x == c then multiset(ps)[p] else 0
  {
    if ps != [] {
      var front, q := ps[..|ps| - 1], ps[|ps| - 1];
      LinkCounts(children, c, front, p, x);
      assert ps == front + [q];
      var rest := Link(children, c, front);
      if p == q {
        assert Kids(Link(children, c, ps), p) == Kids(rest, p) + [c];
      } else {
        assert Kids(Link(children, c, ps), p) == Kids(rest, p);
      }
    }
  }

  // ---------------------------------------------------------------- each piece keeps the invariant

  /** New nodes and new outputs leave the launch log sound. */
  lemma LogExtends(nodes: map<Id, Node>, outputs: map<Id, Output>, started: seq<Start>,
                   nodes': map<Id, Node>, outputs': map<Id, Output>)
    requires LogOk(nodes, outputs, started)
    requires forall id :: id in nodes ==> id in nodes' && nodes'[id] == nodes[id]
    requires forall id :: id in outputs ==> id in outputs' && outputs'[id] == outputs[id]
    ensures LogOk(nodes', outputs', started)
  {
    forall k | 0 <= k < |started| ensures StartOk(nodes', outputs', started, k) {
      assert StartOk(nodes, outputs, started, k);
    }
  }

  lemma LogAppends(nodes: map<Id, Node>, outputs: map<Id, Output>, started: seq<Start>, n: Node)
    requires LogOk(nodes, outputs, started)
    requires n.id in nodes && nodes[n.id] == n && n.id !in Ids(started)
    requires forall p :: p in n.parents ==> p in outputs && p in Ids(started)
    ensures LogOk(nodes, outputs, started + [Start(n.id, map p | p in n.parents :: Lookup(outputs, p))])
  {
    var next := started + [Start(n.id, map p | p in n.parents :: Lookup(outputs, p))];
    assert Ids(next) == Ids(started) + [n.id];
    forall k | 0 <= k < |next| ensures StartOk(nodes, outputs, next, k) {
      if k < |started| {
        assert StartOk(nodes, outputs, started, k);
        assert next[..k] == started[..k];
      } else {
        assert next[..k] == started;
      }
    }
  }

  /** What an arm's pieces never touch, and the launch balance they keep. */
  ghost predicate Frame(s: State, t: State) {
    && t.outputs == s.outputs && t.finished == s.finished
    && t.active - |t.started| == s.active - |s.started|
    && s.started <= t.started
  }

  lemma AddOneFrame(ok: nat -> bool, s: State, n: Node)
    ensures Frame(s, AddOne(ok, s, n))
  {
  }

  lemma ReleaseOneFrame(ok: nat -> bool, s: State, c: Id)
    ensures Frame(s, ReleaseOne(ok, s, c)) && ReleaseOne(ok, s, c).nodes == s.nodes
            && ReleaseOne(ok, s, c).children == s.children
  {
  }

  lemma RunNodeKeeps(ok: nat -> bool, s: State, n: Node)
    requires Safe(s) && n.id in s.nodes && s.nodes[n.id] == n && n.id !in Ids(s.started)
    requires forall p :: p in n.parents ==> p in s.outputs
    ensures var t := RunNode(ok, s, n);
            && Safe(t)
            && (forall id :: id in Ids(t.started) <==> id in Ids(s.started) || (ok(s.calls) && id == n.id))
  {
    if ok(s.calls) {
      LogAppends(s.nodes, s.outputs, s.started, n);
      var t := RunNode(ok, s, n);
      assert Ids(t.started) == Ids(s.started) + [n.id];
    }
  }

  lemma RegisterKeeps(s: State, n: Node)
    requires Safe(s) && Wired(s.nodes, s.children) && Counted(s, multiset{}) && n.id !in s.nodes
    ensures var r := Register(s, n);
            && Safe(r) && Wired(r.nodes, r.children)
            && n.id !in Ids(r.started)
            && (r.pending[n.id] == 0 ==> forall p :: p in n.parents ==> p in r.outputs)
  {
    var r := Register(s, n);
    LogExtends(s.nodes, s.outputs, s.started, r.nodes, r.outputs);
    forall k | 0 <= k < |s.started| ensures s.started[k].id != n.id {
      assert StartOk(s.nodes, s.outputs, s.started, k);
    }
    forall p, c ensures EdgeCount(r.children, p, c) == ParentCount(r.nodes, c, p) {
      LinkCounts(s.children, n.id, n.parents, p, c);
    }
    UnfinishedZero(n.parents, s.outputs.Keys);
  }

  /** Adding a node with an exact counter, launched if and only if that counter is 0. */
  lemma FreshKeepsCounts(s: State, n: Node, t: State)
    requires Counted(s, multiset{}) && n.id !in s.nodes && t.outputs == s.outputs
    requires t.nodes == s.nodes[n.id := n]
    requires t.pending == s.pending[n.id := Unfinished(n.parents, s.outputs.Keys)]
    requires forall id :: id in Ids(t.started) <==> id in Ids(s.started) || (id == n.id && t.pending[n.id] == 0)
    requires n.id !in Ids(s.started)
    ensures Counted(t, multiset{})
  {
  }

  lemma AddOneKeeps(ok: nat -> bool, s: State, n: Node)
    requires Safe(s) && Wired(s.nodes, s.children) && Counted(s, multiset{}) && !s.stopped
    ensures var t := AddOne(ok, s, n);
            Safe(t) && (!t.stopped ==> Wired(t.nodes, t.children) && Counted(t, multiset{}))
  {
    hide Sound, Exact, Wired, Link, Unfinished;
    if n.id in s.nodes {
    } else {
      RegisterKeeps(s, n);
      var r := Register(s, n);
      if !ok(r.calls) {
      } else if r.pending[n.id] == 0 {
        var r' := r.(calls := r.calls + 1);
        RunNodeKeeps(ok, r', n);
        if ok(r'.calls) {
          FreshKeepsCounts(s, n, RunNode(ok, r', n));
        } else {
        }
      } else {
        FreshKeepsCounts(s, n, r.(calls := r.calls + 1));
      }
    }
  }

  lemma {:induction false} AddAllKeeps(ok: nat -> bool, s: State, batch: seq<Node>)
    requires Safe(s) && (!s.stopped ==> Wired(s.nodes, s.children) && Counted(s, multiset{}))
    ensures var t := AddAll(ok, s, batch);
            && Safe(t) && Frame(s, t)
            && (!t.stopped ==> Wired(t.nodes, t.children) && Counted(t, multiset{}))
    decreases |batch|
  {
    hide Sound, Wired, Exact;
    if batch != [] && !s.stopped {
      AddOneFrame(ok, s, batch[0]);
      AddOneKeeps(ok, s, batch[0]);
      AddAllKeeps(ok, AddOne(ok, s, batch[0]), batch[1..]);
    }
  }

  /** Paying one owed decrement to `c` and launching it when the counter reaches 0. */
  lemma PayKeepsCounts(s: State, c: Id, owed: multiset<Id>, t: State)
    requires Counted(s, owed + multiset{c})
    requires t.nodes == s.nodes && t.outputs == s.outputs && t.pending == s.pending[c := s.pending[c] - 1]
    requires forall id :: id in Ids(t.started) <==> id in Ids(s.started) || (id == c && t.pending[c] == 0)
    ensures Counted(t, owed)
  {
    var all := owed + multiset{c};
    assert c in all && all[c] == owed[c] + 1 && forall x :: x != c ==> all[x] == owed[x];
  }

  /** The last owed decrement: the child becomes ready and is launched. */
  lemma LaunchKeeps(ok: nat -> bool, s: State, c: Id, owed: multiset<Id>, u: State)
    requires Safe(s) && Counted(s, owed + multiset{c}) && c in s.nodes && s.pending[c] == 1
    requires u.nodes == s.nodes && u.outputs == s.outputs && u.started == s.started && u.finished == s.finished
    requires u.pending == s.pending[c := 0]
    ensures var t := RunNode(ok, u, s.nodes[c]); Safe(t) && (ok(u.calls) ==> Counted(t, owed))
  {
    hide LogOk, Distinct;
    assert s.pending[c] == Unfinished(s.nodes[c].parents, s.outputs.Keys) + (owed + multiset{c})[c];
    UnfinishedZero(s.nodes[c].parents, s.outputs.Keys);
    RunNodeKeeps(ok, u, s.nodes[c]);
    if ok(u.calls) {
      PayKeepsCounts(s, c, owed, RunNode(ok, u, s.nodes[c]));
    }
  }

  lemma OwedIsKnown(s: State, c: Id, owed: multiset<Id>)
    requires Counted(s, owed + multiset{c})
    ensures c in s.nodes && c in s.pending
  {
    assert c in owed + multiset{c};
  }

  /** One child of the completed node: the decrement it was owed is paid. */
  lemma ReleaseOneKeeps(ok: nat -> bool, s: State, c: Id, owed: multiset<Id>)
    requires Safe(s) && Counted(s, owed + multiset{c}) && !s.stopped
    ensures var t := ReleaseOne(ok, s, c); Safe(t) && (!t.stopped ==> Counted(t, owed))
  {
    hide Sound, Exact, Ids;
    OwedIsKnown(s, c, owed);
    if !ok(s.calls) {
    } else {
      var u := s.(calls := s.calls + 1, pending := s.pending[c := s.pending[c] - 1]);
      if u.pending[c] == 0 {
        LaunchKeeps(ok, s, c, owed, u);
        if ok(u.calls) {
        } else {
        }
      } else {
        PayKeepsCounts(s, c, owed, u);
      }
    }
  }

  lemma {:induction false} ReleaseKeeps(ok: nat -> bool, s: State, cs: seq<Id>)
    requires Safe(s) && (!s.stopped ==> Wired(s.nodes, s.children) && Counted(s, multiset(cs)))
    ensures var t := Release(ok, s, cs);
            && Safe(t) && Frame(s, t)
            && (!t.stopped ==> Wired(t.nodes, t.children) && Counted(t, multiset{}))
    decreases |cs|
  {
    hide Sound, Wired, Exact;
    if cs != [] && !s.stopped {
      assert cs == [cs[0]] + cs[1..];
      assert multiset(cs) == multiset(cs[1..]) + multiset{cs[0]};
      ReleaseOneFrame(ok, s, cs[0]);
      ReleaseOneKeeps(ok, s, cs[0], multiset(cs[1..]));
      ReleaseKeeps(ok, ReleaseOne(ok, s, cs[0]), cs[1..]);
    }
  }

  /** Recording an output turns every counted edge from it into a decrement owed. */
  lemma RecordOwes(s: State, id: Id, output: Output)
    requires Safe(s) && Wired(s.nodes, s.children) && Counted(s, multiset{})
    requires id !in s.outputs && id in s.finished
    ensures var r := s.(outputs := s.outputs[id := output]);
            Safe(r) && Wired(r.nodes, r.children) && Counted(r, multiset(Kids(s.children, id)))
  {
    var r := s.(outputs := s.outputs[id := output]);
    var owed := multiset(Kids(s.children, id));
    assert r.outputs.Keys == s.outputs.Keys + {id};
    LogExtends(s.nodes, s.outputs, s.started, r.nodes, r.outputs);
    forall c | c in s.nodes
      ensures r.pending[c] == Unfinished(r.nodes[c].parents, r.outputs.Keys) + owed[c]
    {
      assert owed[c] == EdgeCount(s.children, id, c) == ParentCount(s.nodes, c, id);
      UnfinishedDrop(s.nodes[c].parents, s.outputs.Keys, id);
    }
    forall c | c in owed ensures c in s.nodes {
      assert 0 < owed[c] == EdgeCount(s.children, id, c) == ParentCount(s.nodes, c, id);
    }
  }

  lemma IdleKeeps(ok: nat -> bool, s: State)
    requires Safe(s) && (!s.stopped ==> AtSelect(s))
    ensures var t := Idle(ok, s); Safe(t) && (!t.stopped ==> AtSelect(t))
  {
    if s.stopped {
    } else if s.active != 0 {
    } else if ok(s.calls) {
    } else {
    }
  }

  lemma SettleChildren(ok: nat -> bool, s: State, cs: seq<Id>)
    requires Safe(s) && Wired(s.nodes, s.children) && Counted(s, multiset(cs)) && !s.stopped
    requires forall x :: x in s.finished ==> x in s.outputs
    requires s.active == |s.started| - |s.finished|
    ensures var t := Idle(ok, Release(ok, s, cs)); Safe(t) && (!t.stopped ==> AtSelect(t))
  {
    ReleaseKeeps(ok, s, cs);
    var u := Release(ok, s, cs);
    if u.stopped {
    } else {
      assert AtSelect(u);
      IdleKeeps(ok, u);
    }
  }

  lemma CompleteKeeps(ok: nat -> bool, s: State, id: Id, output: Output)
    requires Safe(s) && Wired(s.nodes, s.children) && Counted(s, multiset{}) && !s.stopped
    requires id !in s.outputs && id in s.finished
    requires forall x :: x in s.finished ==> x in s.outputs || x == id
    requires s.active == |s.started| - |s.finished|
    ensures var t := Complete(ok, s, id, output); Safe(t) && (!t.stopped ==> AtSelect(t))
  {
    hide Release;
    RecordOwes(s, id, output);
    var r := s.(outputs := s.outputs[id := output]);
    if ok(r.calls) {
      SettleChildren(ok, r.(calls := r.calls + 1), Kids(r.children, id));
    } else {
    }
  }

  lemma ReceiveKeeps(ok: nat -> bool, s: State, res: Result)
    requires AtSelect(s) && Enabled(s, Arrive(res))
    ensures var t := Receive(ok, s, res); Safe(t) && (!t.stopped ==> AtSelect(t))
  {
    hide LogOk, AddAll, Complete, EdgeCount, ParentCount;
    var r := s.(active := s.active - 1, finished := s.finished + [res.id]);
    assert Safe(r);
    if res.failed {
    } else {
      AddAllKeeps(ok, r, res.newNodes);
      var a := AddAll(ok, r, res.newNodes);
      if a.stopped {
      } else {
        CompleteKeeps(ok, a, res.id, res.output);
      }
    }
  }

  lemma ApplyKeeps(ok: nat -> bool, s: State, step: Step)
    requires AtSelect(s) && Enabled(s, step)
    ensures var t := Apply(ok, s, step); Safe(t) && (!t.stopped ==> AtSelect(t))
  {
    match step
    case Batch(nodes) => AddAllKeeps(ok, s, nodes);
    case Arrive(res) => ReceiveKeeps(ok, s, res);
    case Cancel =>
  }

  // ---------------------------------------------------------------- main results

  /** Every interleaving of batches, dynamic nodes, results, failures and cancellation: the
      dispatch log is sound at every moment, and at each return to `select` the counters,
      edges and active count are exact. */
  lemma {:induction false} EveryRun(ok: nat -> bool, steps: seq<Step>)
    requires Legal(ok, steps)
    ensures Safe(Run(ok, steps))
    ensures !Run(ok, steps).stopped ==> AtSelect(Run(ok, steps))
  {
    if steps != [] {
      EveryRun(ok, steps[..|steps| - 1]);
      ApplyKeeps(ok, Run(ok, steps[..|steps| - 1]), steps[|steps| - 1]);
    }
  }

  /** `id` is a known node all of whose ancestors, `depth` levels up, are known and none of
      which lies on a cycle. */
  predicate GroundedAt(nodes: map<Id, Node>, id: Id, depth: nat)
    decreases depth
  {
    id in nodes && forall p :: p in nodes[id].parents ==> depth > 0 && GroundedAt(nodes, p, depth - 1)
  }

  ghost predicate Grounded(nodes: map<Id, Node>, id: Id) { exists d: nat :: GroundedAt(nodes, id, d) }

  lemma {:induction false} GroundedMono(nodes: map<Id, Node>, id: Id, d: nat, e: nat)
    requires GroundedAt(nodes, id, d) && d <= e
    ensures GroundedAt(nodes, id, e)
    decreases d
  {
    forall p | p in nodes[id].parents ensures GroundedAt(nodes, p, e - 1) {
      GroundedMono(nodes, p, d - 1, e - 1);
    }
  }

  lemma {:induction false} StartedAtIsGrounded(s: State, k: nat)
    requires Safe(s) && k < |s.started|
    ensures GroundedAt(s.nodes, s.started[k].id, k)
  {
    assert StartOk(s.nodes, s.outputs, s.started, k);
    forall p | p in s.nodes[s.started[k].id].parents
      ensures k > 0 && GroundedAt(s.nodes, p, k - 1)
    {
      var j :| 0 <= j < k && Ids(s.started[..k])[j] == p;
      StartedAtIsGrounded(s, j);
      GroundedMono(s.nodes, p, j, k - 1);
    }
  }

  /** Nothing on a cycle, downstream of one, or downstream of a node that was never added is
      dispatched in any run. */
  lemma OnlyGroundedDispatched(ok: nat -> bool, steps: seq<Step>, id: Id)
    requires Legal(ok, steps)
    requires id in Ids(Run(ok, steps).started)
    ensures Grounded(Run(ok, steps).nodes, id)
  {
    EveryRun(ok, steps);
    var s := Run(ok, steps);
    var k :| 0 <= k < |s.started| && Ids(s.started)[k] == id;
    StartedAtIsGrounded(s, k);
  }

  /** A set of nodes each of which waits for another member of the set (a dependency cycle
      together with anything downstream) contains no grounded node. */
  lemma {:induction false} CycleIsNotGrounded(nodes: map<Id, Node>, blocked: set<Id>, id: Id, d: nat)
    requires forall x :: x in blocked && x in nodes ==> exists p :: p in nodes[x].parents && p in blocked
    requires id in blocked
    ensures !GroundedAt(nodes, id, d)
    decreases d
  {
    if GroundedAt(nodes, id, d) {
      var p :| p in nodes[id].parents && p in blocked;
      CycleIsNotGrounded(nodes, blocked, p, d - 1);
    }
  }

  lemma {:induction false} DistinctCard(s: seq<Id>)
    requires Distinct(s)
    ensures |set x | x in s| == |s|
  {
    if s != [] {
      var front, last := s[..|s| - 1], s[|s| - 1];
      DistinctCard(front);
      assert (set x | x in s) == (set x | x in front) + {last};
    }
  }

  lemma QuiescentAllReported(s: State)
    requires AtSelect(s) && s.active == 0
    ensures forall id :: id in Ids(s.started) ==> id in s.outputs
  {
    var ids := Ids(s.started);
    DistinctCard(ids);
    DistinctCard(s.finished);
    var a, b := set x | x in s.finished, set x | x in ids;
    assert a <= b;
    assert |b| == |a| + |b - a| by { assert b == a + (b - a); }
    assert b == a by { assert b - a == {}; }
    forall id | id in ids ensures id in s.outputs { assert id in b; }
  }

  lemma {:induction false} GroundedCompletes(s: State, id: Id, d: nat)
    requires AtSelect(s) && s.active == 0 && GroundedAt(s.nodes, id, d)
    ensures id in s.outputs
    decreases d
  {
    forall p | p in s.nodes[id].parents ensures p in s.outputs { GroundedCompletes(s, p, d - 1); }
    UnfinishedZero(s.nodes[id].parents, s.outputs.Keys);
    QuiescentAllReported(s);
  }

  /** No stall, both ways: when a live loop reaches `select` with nothing running, the nodes
      that have completed are exactly the grounded ones. */
  lemma QuiescentIffGrounded(ok: nat -> bool, steps: seq<Step>)
    requires Legal(ok, steps) && !Run(ok, steps).stopped && Run(ok, steps).active == 0
    ensures forall id :: id in Run(ok, steps).outputs <==> Grounded(Run(ok, steps).nodes, id)
  {
    EveryRun(ok, steps);
    var s := Run(ok, steps);
    forall id ensures id in s.outputs <==> Grounded(s.nodes, id) {
      if id in s.outputs {
        assert id in Ids(s.started);
        OnlyGroundedDispatched(ok, steps, id);
      } else if Grounded(s.nodes, id) {
        var d: nat :| GroundedAt(s.nodes, id, d);
        GroundedCompletes(s, id, d);
      }
    }
  }

  /** The usual reading: a graph closed under parents with a rank that drops along every
      dependency runs to completion. */
  lemma AcyclicClosedCompletes(ok: nat -> bool, steps: seq<Step>, rank: Id -> nat)
    requires Legal(ok, steps) && !Run(ok, steps).stopped && Run(ok, steps).active == 0
    requires var nodes := Run(ok, steps).nodes;
             forall id, p :: id in nodes && p in nodes[id].parents ==> p in nodes && rank(p) < rank(id)
    ensures Run(ok, steps).outputs.Keys == Run(ok, steps).nodes.Keys
  {
    hide Run, Legal, GroundedAt;
    var s := Run(ok, steps);
    QuiescentIffGrounded(ok, steps);
    forall id | id in s.nodes ensures id in s.outputs {
      RankGrounds(s.nodes, rank, id);
      assert Grounded(s.nodes, id);
    }
    forall id | id in s.outputs ensures id in s.nodes { GroundedIsAdded(s.nodes, id); }
  }

  lemma GroundedIsAdded(nodes: map<Id, Node>, id: Id)
    requires Grounded(nodes, id)
    ensures id in nodes
  {
  }

  lemma {:induction false} RankGrounds(nodes: map<Id, Node>, rank: Id -> nat, id: Id)
    requires forall x, p :: x in nodes && p in nodes[x].parents ==> p in nodes && rank(p) < rank(x)
    requires id in nodes
    ensures GroundedAt(nodes, id, rank(id))
    decreases rank(id)
  {
    forall p | p in nodes[id].parents ensures rank(id) > 0 && GroundedAt(nodes, p, rank(id) - 1) {
      RankGrounds(nodes, rank, p);
      GroundedMono(nodes, p, rank(p), rank(id) - 1);
    }
  }

  // ---------------------------------------------------------------- what the run was given

  /** Every node the steps offered, in the order offered. */
  function Offered(steps: seq<Step>): seq<Node> {
    if steps == [] then []
    else
      Offered(steps[..|steps| - 1]) +
      match steps[|steps| - 1]
      case Batch(nodes) => nodes
      case Arrive(res) => res.newNodes
      case Cancel => []
  }

  /** The first node offered under an id. */
  function First(nodes: seq<Node>, id: Id): Option<Node> {
    if nodes == [] then None else if nodes[0].id == id then Some(nodes[0]) else First(nodes[1..], id)
  }

  /** The ids of the results that arrived, in order. */
  function Arrivals(steps: seq<Step>): seq<Id> {
    if steps == [] then []
    else
      Arrivals(steps[..|steps| - 1]) +
      if steps[|steps| - 1].Arrive? then [steps[|steps| - 1].result.id] else []
  }

  /** Step k brought this output for this node, and not a failure. */
  predicate Brought(steps: seq<Step>, k: int, id: Id, output: Output) {
    0 <= k < |steps| && steps[k].Arrive? && steps[k].result.id == id && !steps[k].result.failed &&
    steps[k].result.output == output
  }

  /** The step that ends a run by itself. */
  predicate Ends(step: Step) { step.Cancel? || (step.Arrive? && step.result.failed) }

  lemma {:induction false} FirstConcat(a: seq<Node>, b: seq<Node>, id: Id)
    ensures First(a + b, id) == if First(a, id).Some? then First(a, id) else First(b, id)
  {
    if a == [] {
      assert a + b == b;
    } else {
      assert (a + b)[1..] == a[1..] + b;
      FirstConcat(a[1..], b, id);
    }
  }

  lemma AddOneNodes(ok: nat -> bool, s: State, n: Node)
    ensures var t := AddOne(ok, s, n);
            && t.nodes == (if n.id in s.nodes then s.nodes else s.nodes[n.id := n])
            && t.outputs == s.outputs && t.finished == s.finished
  {
  }

  /** A batch adds, under each id that is new, the first node offered under it, and no other. */
  lemma {:induction false} AddAllNodes(ok: nat -> bool, s: State, batch: seq<Node>, id: Id)
    ensures var t := AddAll(ok, s, batch);
            && t.outputs == s.outputs && t.finished == s.finished
            && (id in s.nodes ==> id in t.nodes && t.nodes[id] == s.nodes[id])
            && (id !in s.nodes && id in t.nodes ==> First(batch, id) == Some(t.nodes[id]))
            && (!t.stopped ==> (id in t.nodes <==> id in s.nodes || First(batch, id).Some?))
    decreases |batch|
  {
    hide AddOne;
    if batch != [] && !s.stopped {
      AddOneNodes(ok, s, batch[0]);
      AddAllNodes(ok, AddOne(ok, s, batch[0]), batch[1..], id);
    }
  }

  lemma {:induction false} ReleaseFixed(ok: nat -> bool, s: State, cs: seq<Id>)
    ensures var t := Release(ok, s, cs); t.outputs == s.outputs && t.finished == s.finished && t.nodes == s.nodes
    decreases |cs|
  {
    if cs != [] && !s.stopped {
      ReleaseFixed(ok, ReleaseOne(ok, s, cs[0]), cs[1..]);
    }
  }

  /** One result: it joins the finished, its spawned nodes are offered, and its output is the only
      one recorded, if it did not fail. */
  lemma ReceiveMeans(ok: nat -> bool, s: State, res: Result, id: Id)
    requires !s.stopped
    ensures var t := Receive(ok, s, res);
            && t.finished == s.finished + [res.id]
            && (res.failed ==> t.stopped && t.outputs == s.outputs && t.nodes == s.nodes && t.started == s.started)
            && (t.outputs == s.outputs || (!res.failed && t.outputs == s.outputs[res.id := res.output]))
            && (!t.stopped ==> t.outputs == s.outputs[res.id := res.output])
            && (id in s.nodes ==> id in t.nodes && t.nodes[id] == s.nodes[id])
            && (id !in s.nodes && id in t.nodes ==> First(res.newNodes, id) == Some(t.nodes[id]))
            && (!t.stopped ==> (id in t.nodes <==> id in s.nodes || First(res.newNodes, id).Some?))
  {
    hide AddAll, Release;
    var r := s.(active := s.active - 1, finished := s.finished + [res.id]);
    AddAllNodes(ok, r, res.newNodes, id);
    var a := AddAll(ok, r, res.newNodes);
    if !res.failed && !a.stopped {
      var b := a.(outputs := a.outputs[res.id := res.output]);
      ReleaseFixed(ok, b.(calls := b.calls + 1), Kids(b.children, res.id));
    }
  }

  /** In every run the recorded outputs are outputs that results brought, and while the loop lives
      every result that arrived is there with the output it brought. */
  lemma {:induction false} OutputsAreBrought(ok: nat -> bool, steps: seq<Step>, id: Id)
    requires Legal(ok, steps)
    ensures var s := Run(ok, steps);
            && s.finished == Arrivals(steps)
            && (id in s.outputs ==> exists k :: Brought(steps, k, id, s.outputs[id]))
            && (!s.stopped ==> forall k :: 0 <= k < |steps| && steps[k].Arrive? && steps[k].result.id == id ==>
                  id in s.outputs && Brought(steps, k, id, s.outputs[id]))
  {
    hide Receive, AddAll, Enabled;
    if steps != [] {
      var front, step := steps[..|steps| - 1], steps[|steps| - 1];
      OutputsAreBrought(ok, front, id);
      EveryRun(ok, front);
      var was, s := Run(ok, front), Run(ok, steps);
      LegalAlive(ok, steps);
      StepOutputs(ok, was, step, id);
      assert forall k :: 0 <= k < |front| ==> steps[k] == front[k];
      if id in s.outputs {
        if id in was.outputs && s.outputs[id] == was.outputs[id] {
          var k :| Brought(front, k, id, was.outputs[id]);
          assert Brought(steps, k, id, s.outputs[id]);
        } else {
          assert Brought(steps, |front|, id, s.outputs[id]);
        }
      }
      if !s.stopped {
        forall k | 0 <= k < |steps| && steps[k].Arrive? && steps[k].result.id == id
          ensures id in s.outputs && Brought(steps, k, id, s.outputs[id])
        {
          if k < |front| {
            assert Brought(front, k, id, was.outputs[id]);
          }
        }
      }
    }
  }

  lemma LegalAlive(ok: nat -> bool, steps: seq<Step>)
    requires Legal(ok, steps) && steps != []
    ensures Legal(ok, steps[..|steps| - 1]) && !Run(ok, steps[..|steps| - 1]).stopped
    ensures steps[|steps| - 1].Arrive? ==> steps[|steps| - 1].result.id !in Run(ok, steps[..|steps| - 1]).finished
  {
  }

  lemma StepOutputs(ok: nat -> bool, s: State, step: Step, id: Id)
    requires !s.stopped && Safe(s) && (step.Arrive? ==> step.result.id !in s.finished)
    ensures var t := Apply(ok, s, step);
            && t.finished == s.finished + (if step.Arrive? then [step.result.id] else [])
            && (id in s.outputs ==> id in t.outputs && t.outputs[id] == s.outputs[id])
            && (id in t.outputs && id !in s.outputs ==>
                  step.Arrive? && !step.result.failed && step.result.id == id && t.outputs[id] == step.result.output)
            && (!t.stopped && step.Arrive? ==>
                  !step.result.failed && step.result.id in t.outputs && t.outputs[step.result.id] == step.result.output)
  {
    hide Receive, AddAll, LogOk, Distinct;
    match step
    case Batch(nodes) => AddAllNodes(ok, s, nodes, id);
    case Arrive(res) => ReceiveMeans(ok, s, res, id);
    case Cancel =>
  }

  /** The nodes of a run are first offers; while the loop lives they are exactly the first nodes
      offered under each id by batches and by arrived results. */
  lemma {:induction false} NodesAreOffered(ok: nat -> bool, steps: seq<Step>, id: Id)
    requires Legal(ok, steps)
    ensures var s := Run(ok, steps);
            && (id in s.nodes ==> First(Offered(steps), id) == Some(s.nodes[id]))
            && (!s.stopped ==> (id in s.nodes <==> First(Offered(steps), id).Some?))
  {
    hide Receive, AddAll, Enabled, First;
    if steps == [] {
      NoOffer(id);
    } else {
      var front, step := steps[..|steps| - 1], steps[|steps| - 1];
      NodesAreOffered(ok, front, id);
      LegalAlive(ok, steps);
      var was := Run(ok, front);
      var more := if step.Batch? then step.nodes else if step.Arrive? then step.result.newNodes else [];
      assert Offered(steps) == Offered(front) + more;
      FirstConcat(Offered(front), more, id);
      NoOffer(id);
      match step
      case Batch(nodes) => AddAllNodes(ok, was, nodes, id);
      case Arrive(res) => ReceiveMeans(ok, was, res, id);
      case Cancel =>
    }
  }

  lemma NoOffer(id: Id)
    ensures First([], id) == None
  {
  }

  /** A failed result or a cancellation is the last step of its run; it launches, records and adds
      nothing. */
  lemma {:induction false} EndsAreLast(ok: nat -> bool, steps: seq<Step>, k: nat)
    requires Legal(ok, steps) && k < |steps| && Ends(steps[k])
    ensures k == |steps| - 1
    ensures var s, was := Run(ok, steps), Run(ok, steps[..k]);
            s.stopped && s.started == was.started && s.outputs == was.outputs && s.nodes == was.nodes
  {
    hide Receive, AddAll, Enabled;
    var front, last := steps[..|steps| - 1], steps[|steps| - 1];
    LegalAlive(ok, steps);
    if k < |front| {
      EndsAreLast(ok, front, k);
    } else if last.Arrive? {
      ReceiveMeans(ok, Run(ok, front), last.result, last.result.id);
    }
  }

  // ---------------------------------------------------------------- when the loop stops

  /** The loop is dead exactly when some external call it made has failed. */
  ghost predicate Answered(ok: nat -> bool, s: State) { s.stopped <==> exists c: nat :: c < s.calls && !ok(c) }

  lemma AddOneAnswered(ok: nat -> bool, s: State, n: Node)
    requires Answered(ok, s) && !s.stopped
    ensures Answered(ok, AddOne(ok, s, n))
  {
    var t := AddOne(ok, s, n);
    assert forall c: nat :: c < s.calls ==> ok(c);
    assert t.calls <= s.calls + 2;
  }

  lemma {:induction false} AddAllAnswered(ok: nat -> bool, s: State, batch: seq<Node>)
    requires Answered(ok, s)
    ensures Answered(ok, AddAll(ok, s, batch))
    decreases |batch|
  {
    hide Answered, AddOne;
    if batch != [] && !s.stopped {
      AddOneAnswered(ok, s, batch[0]);
      AddAllAnswered(ok, AddOne(ok, s, batch[0]), batch[1..]);
    }
  }

  lemma ReleaseOneAnswered(ok: nat -> bool, s: State, c: Id)
    requires Answered(ok, s) && !s.stopped
    ensures Answered(ok, ReleaseOne(ok, s, c))
  {
    assert forall k: nat :: k < s.calls ==> ok(k);
    assert ReleaseOne(ok, s, c).calls <= s.calls + 2;
  }

  lemma {:induction false} ReleaseAnswered(ok: nat -> bool, s: State, cs: seq<Id>)
    requires Answered(ok, s)
    ensures Answered(ok, Release(ok, s, cs))
    decreases |cs|
  {
    hide Answered, ReleaseOne;
    if cs != [] && !s.stopped {
      ReleaseOneAnswered(ok, s, cs[0]);
      ReleaseAnswered(ok, ReleaseOne(ok, s, cs[0]), cs[1..]);
    }
  }

  lemma IdleAnswered(ok: nat -> bool, s: State)
    requires Answered(ok, s)
    ensures Answered(ok, Idle(ok, s))
  {
    assert !s.stopped ==> forall c: nat :: c < s.calls ==> ok(c);
  }

  lemma CompleteAnswered(ok: nat -> bool, s: State, id: Id, output: Output)
    requires Answered(ok, s) && !s.stopped
    ensures Answered(ok, Complete(ok, s, id, output))
  {
    hide Release, Idle;
    assert forall c: nat :: c < s.calls ==> ok(c);
    var r := s.(outputs := s.outputs[id := output]);
    if ok(r.calls) {
      var b := r.(calls := r.calls + 1);
      assert Answered(ok, b);
      ReleaseAnswered(ok, b, Kids(r.children, id));
      IdleAnswered(ok, Release(ok, b, Kids(r.children, id)));
    }
  }

  lemma ReceiveAnswered(ok: nat -> bool, s: State, res: Result)
    requires Answered(ok, s) && !s.stopped && !res.failed
    ensures Answered(ok, Receive(ok, s, res))
  {
    hide AddAll, Complete;
    var r := s.(active := s.active - 1, finished := s.finished + [res.id]);
    assert Answered(ok, r);
    AddAllAnswered(ok, r, res.newNodes);
    if !AddAll(ok, r, res.newNodes).stopped {
      CompleteAnswered(ok, AddAll(ok, r, res.newNodes), res.id, res.output);
    }
  }

  /** A run has stopped if and only if it was cancelled, a node failed, or one of the external
      calls it made failed. */
  lemma {:induction false} StoppedIff(ok: nat -> bool, steps: seq<Step>)
    requires Legal(ok, steps)
    ensures Run(ok, steps).stopped <==>
            (exists k :: 0 <= k < |steps| && Ends(steps[k])) || exists c: nat :: c < Run(ok, steps).calls && !ok(c)
  {
    hide Receive, AddAll, Enabled;
    if steps != [] {
      var front, last := steps[..|steps| - 1], steps[|steps| - 1];
      StoppedIff(ok, front);
      LegalAlive(ok, steps);
      var was := Run(ok, front);
      assert Answered(ok, was);
      if Ends(last) {
        EndsAreLast(ok, steps, |front|);
      } else {
        forall k | 0 <= k < |steps| ensures !Ends(steps[k]) {
          assert k < |front| ==> steps[k] == front[k] && !Ends(front[k]);
        }
        if last.Batch? {
          AddAllAnswered(ok, was, last.nodes);
        } else {
          ReceiveAnswered(ok, was, last.result);
        }
        assert Answered(ok, Run(ok, steps));
      }
    }
  }

  // ---------------------------------------------------------------- idle reports

  /** The results after which a live loop has no launched node left that has not reported. */
  function IdleReturns(ok: nat -> bool, steps: seq<Step>): nat {
    if steps == [] then 0
    else
      var s := Run(ok, steps);
      IdleReturns(ok, steps[..|steps| - 1]) +
      if steps[|steps| - 1].Arrive? && !s.stopped && |s.started| == |s.finished| then 1 else 0
  }

  lemma {:induction false} AddAllReports(ok: nat -> bool, s: State, batch: seq<Node>)
    ensures AddAll(ok, s, batch).reports == s.reports
    decreases |batch|
  {
    if batch != [] && !s.stopped {
      AddAllReports(ok, AddOne(ok, s, batch[0]), batch[1..]);
    }
  }

  lemma {:induction false} ReleaseReports(ok: nat -> bool, s: State, cs: seq<Id>)
    ensures Release(ok, s, cs).reports == s.reports
    decreases |cs|
  {
    if cs != [] && !s.stopped {
      ReleaseReports(ok, ReleaseOne(ok, s, cs[0]), cs[1..]);
    }
  }

  lemma ReceiveReports(ok: nat -> bool, s: State, res: Result)
    requires !s.stopped
    ensures var t := Receive(ok, s, res);
            t.reports == if !t.stopped && t.active == 0 then s.reports + 1 else s.reports
  {
    hide AddAll, Release;
    var r := s.(active := s.active - 1, finished := s.finished + [res.id]);
    AddAllReports(ok, r, res.newNodes);
    var a := AddAll(ok, r, res.newNodes);
    var c := a.(outputs := a.outputs[res.id := res.output], calls := a.calls + 1);
    ReleaseReports(ok, c, Kids(c.children, res.id));
  }

  /** The engine reports idle once for each result that leaves nothing running, and at no other
      moment. */
  lemma {:induction false} ReportsIdle(ok: nat -> bool, steps: seq<Step>)
    requires Legal(ok, steps)
    ensures Run(ok, steps).reports == IdleReturns(ok, steps)
  {
    hide Receive, AddAll, Enabled;
    if steps != [] {
      var front, step := steps[..|steps| - 1], steps[|steps| - 1];
      LegalAlive(ok, steps);
      ReportsIdle(ok, front);
      EveryRun(ok, steps);
      if step.Batch? {
        AddAllReports(ok, Run(ok, front), step.nodes);
      } else if step.Arrive? {
        ReceiveReports(ok, Run(ok, front), step.result);
      }
    }
  }

  // ---------------------------------------------------------------- the loop body, in place

  /** The engine's maps and counters as the goroutine updates them. */
  class Engine {
    const ok: nat -> bool
    var nodes: map<Id, Node>
    var children: map<Id, seq<Id>>
    var pending: map<Id, int>
    var outputs: map<Id, Output>
    var active: int
    var started: seq<Start>
    var finished: seq<Id>
    var stopped: bool
    var calls: nat
    ghost var reports: nat

    ghost function View(): State
      reads this
    {
      State(nodes, children, pending, outputs, active, started, finished, stopped, calls, reports)
    }

    constructor (ok: nat -> bool)
      ensures this.ok == ok && View() == INIT
    {
      this.ok := ok;
      nodes, children, pending, outputs := map[], map[], map[], map[];
      active, started, finished, stopped, calls, reports := 0, [], [], false, 0, 0;
    }

    /** The `select` loop, fed the arms in the order the scheduler picks them. */
    method Loop(steps: seq<Step>)
      requires View() == INIT && Legal(ok, steps)
      modifies this
      ensures View() == Run(ok, steps)
    {
      for i := 0 to |steps|
        invariant Legal(ok, steps[..i]) && View() == Run(ok, steps[..i])
      {
        assert steps[..i + 1][..i] == steps[..i];
        LegalPrefix(ok, steps, i + 1);
        match steps[i]
        case Batch(batch) => AddNodes(batch);
        case Arrive(res) => HandleResult(res);
        case Cancel => stopped := true;
      }
      assert steps[..|steps|] == steps;
    }

    /** One external call; a failure ends the loop. */
    method External() returns (good: bool)
      modifies this
      ensures good == ok(old(calls))
      ensures View() == if good then old(View()).(calls := old(calls) + 1) else Halt(old(View()))
    {
      good := ok(calls);
      calls := calls + 1;
      stopped := stopped || !good;
    }

    method Dispatch(n: Node)
      requires !stopped
      modifies this
      ensures View() == RunNode(ok, old(View()), n)
    {
      var inputs: map<Id, Option<Output>> := map[];
      for i := 0 to |n.parents|
        invariant inputs == map p | p in n.parents[..i] :: Lookup(outputs, p)
        invariant View() == old(View())
      {
        inputs := inputs[n.parents[i] := Lookup(outputs, n.parents[i])];
      }
      assert n.parents[..|n.parents|] == n.parents;
      active := active + 1;
      var good := External();
      if !good {
        active := active - 1;
        return;
      }
      started := started + [Start(n.id, inputs)];
    }

    method AddNodes(batch: seq<Node>)
      requires !stopped
      modifies this
      ensures View() == AddAll(ok, old(View()), batch)
    {
      for i := 0 to |batch|
        invariant !stopped
        invariant AddAll(ok, View(), batch[i..]) == AddAll(ok, old(View()), batch)
      {
        assert batch[i..][0] == batch[i] && batch[i..][1..] == batch[i + 1..];
        AddNode(batch[i]);
        if stopped {
          return;
        }
      }
    }

    method AddNode(n: Node)
      requires !stopped
      modifies this
      ensures View() == AddOne(ok, old(View()), n)
    {
      hide Link, Unfinished, RunNode;
      if n.id in nodes {
        return;
      }
      nodes := nodes[n.id := n];
      LinkParents(n);
      var count := CountPending(n);
      pending := pending[n.id := count];
      var good := External();
      if good && count == 0 {
        Dispatch(n);
      }
    }

    method LinkParents(n: Node)
      modifies this`children
      ensures children == Link(old(children), n.id, n.parents)
    {
      for i := 0 to |n.parents|
        invariant children == Link(old(children), n.id, n.parents[..i])
      {
        assert n.parents[..i + 1][..i] == n.parents[..i];
        children := children[n.parents[i] := Kids(children, n.parents[i]) + [n.id]];
      }
      assert n.parents[..|n.parents|] == n.parents;
    }

    method CountPending(n: Node) returns (count: nat)
      ensures count == Unfinished(n.parents, outputs.Keys)
    {
      count := 0;
      for i := 0 to |n.parents|
        invariant count == Unfinished(n.parents[..i], outputs.Keys)
      {
        assert n.parents[..i + 1][..i] == n.parents[..i];
        if n.parents[i] !in outputs {
          count := count + 1;
        }
      }
      assert n.parents[..|n.parents|] == n.parents;
    }

    method HandleResult(res: Result)
      requires !stopped
      modifies this
      ensures View() == Receive(ok, old(View()), res)
    {
      hide AddAll, Complete;
      active := active - 1;
      finished := finished + [res.id];
      if res.failed {
        stopped := true;
        return;
      }
      AddNodes(res.newNodes);
      if !stopped {
        CompleteNode(res.id, res.output);
      }
    }

    method CompleteNode(id: Id, output: Output)
      requires !stopped
      modifies this
      ensures View() == Complete(ok, old(View()), id, output)
    {
      hide Release, Kids;
      outputs := outputs[id := output];
      var good := External();
      if !good {
        return;
      }
      ReleaseChildren(Kids(children, id));
      if !stopped && active == 0 {
        good := External();
        if good {
          reports := reports + 1;
        }
      }
    }

    method ReleaseChildren(cs: seq<Id>)
      requires !stopped
      modifies this
      ensures View() == Release(ok, old(View()), cs)
    {
      for i := 0 to |cs|
        invariant !stopped
        invariant Release(ok, View(), cs[i..]) == Release(ok, old(View()), cs)
      {
        assert cs[i..][0] == cs[i] && cs[i..][1..] == cs[i + 1..];
        ReleaseChild(cs[i]);
        if stopped {
          return;
        }
      }
    }

    method ReleaseChild(c: Id)
      requires !stopped
      modifies this
      ensures View() == ReleaseOne(ok, old(View()), c)
    {
      var good := External();
      if !good {
        return;
      }
      var left := (if c in pending then pending[c] else 0) - 1;
      pending := pending[c := left];
      if left == 0 && c in nodes {
        Dispatch(nodes[c]);
      }
    }
  }
}
