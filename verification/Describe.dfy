/** The describe view rebuilt from a request's event log (orchestrator/describe.go): raw frames
    are expanded and applied one by one, and a saved cursor lets a later replay resume. JSON
    payload decoding is a parameter. */
module Describe {
  import opened Wrappers
  import opened StreamEvents
  import opened Text

  datatype Node = Node(id: string, skill: string, task: string, dependsOn: seq<string>, status: string, error: string)
  datatype Artifact = Artifact(nodeId: string, path: string, resourceType: string, description: string, stage: string)

  datatype View = View(requestId: string, runnerId: string, phase: string, status: string, nodes: map<string, Node>,
                       artifacts: seq<Artifact>, checkpoint: int, latest: nat)

  datatype Cursor = Cursor(requestId: string, runnerId: string, checkpoint: int, event: nat)

  datatype Added = Added(nodeId: string, skill: string, task: string, dependsOn: seq<string>)

  /** json.Unmarshal into each payload shape; None is a decode error. */
  datatype Decoders = Decoders(
    runnerOf: Delta -> Option<string>, phaseOf: Delta -> Option<(string, string)>, addedOf: Delta -> Option<Added>,
    nodeOf: Delta -> Option<(string, string)>, artifactOf: Delta -> Option<(string, string, string, string)>)

  const NO_CURSOR := Cursor("", "", 0, 0)

  function Fresh(requestId: string): View { View(requestId, "", "", "", map[], [], 0, 0) }

  // ---------------------------------------------------------------- applying one event

  function FirstNonEmpty(a: string, b: string): string { if Trim(a) != "" then a else if Trim(b) != "" then b else "" }

  function MetaString(m: map<string, Meta>, key: string): string { if key in m && m[key].Str? then m[key].s else "" }

  function NodeAt(nodes: map<string, Node>, id: string): Node {
    if id in nodes then nodes[id] else Node("", "", "", [], "", "")
  }

  /** Replace the artifact with the same node and path, or append. */
  function Upsert(artifacts: seq<Artifact>, a: Artifact): seq<Artifact> {
    if artifacts == [] then [a]
    else if SameKey(artifacts[0], a) then [a] + artifacts[1..]
    else [artifacts[0]] + Upsert(artifacts[1..], a)
  }

  predicate SameKey(a: Artifact, b: Artifact) { a.nodeId == b.nodeId && a.path == b.path }

  method UpsertArtifact(artifacts: seq<Artifact>, a: Artifact) returns (r: seq<Artifact>)
    ensures r == Upsert(artifacts, a)
  {
    hide Upsert, SameKey;
    r := artifacts;
    for i := 0 to |artifacts|
      invariant r == artifacts && Upsert(artifacts, a) == artifacts[..i] + Upsert(artifacts[i..], a)
    {
      UpsertStep(artifacts, a, i);
      if SameKey(artifacts[i], a) {
        assert artifacts[..i] + ([a] + artifacts[i + 1..]) == artifacts[i := a];
        r := r[i := a];
        return;
      }
      assert artifacts[..i] + ([artifacts[i]] + Upsert(artifacts[i + 1..], a)) ==
             artifacts[..i + 1] + Upsert(artifacts[i + 1..], a);
    }
    UpsertStep(artifacts, a, |artifacts|);
    r := r + [a];
  }

  lemma UpsertStep(artifacts: seq<Artifact>, a: Artifact, i: nat)
    requires i <= |artifacts|
    ensures Upsert(artifacts[i..], a) ==
            if i == |artifacts| then [a]
            else if SameKey(artifacts[i], a) then [a] + artifacts[i + 1..]
            else [artifacts[i]] + Upsert(artifacts[i + 1..], a)
  {
    if i < |artifacts| {
      assert artifacts[i..][0] == artifacts[i] && artifacts[i..][1..] == artifacts[i + 1..];
    }
  }

  const STATUS_TYPES := {"status.started", "status.progress", "status.completed", "status.failed"}
  const NODE_TYPES := {"runner.node.started", "runner.node.completed", "runner.node.failed"}

  /** The artifact an event announces, if it is an artifact event with a usable payload. */
  function ArtifactOf(d: Decoders, ev: Event): Option<Artifact> {
    if ev.eventType != "artifact.created" then None
    else
      match d.artifactOf(ev.delta)
      case None => None
      case Some((path, kind, description, stage)) =>
        if Trim(path) == "" then None else Some(Artifact(ev.scope.nodeId, path, kind, description, stage))
  }

  function ApplyPayload(d: Decoders, v: View, ev: Event): Result<View> {
    if ev.eventType in STATUS_TYPES then
      var r := d.runnerOf(ev.delta);
      var runner := if r.Some? && r.value != "" && v.runnerId == "" then r.value else v.runnerId;
      Ok(v.(runnerId := runner, status := if ev.eventType == "status.failed" then "failed" else v.status))
    else if ev.eventType == "runner.phase.changed" then
      match d.phaseOf(ev.delta)
      case None => Err
      case Some((phase, status)) => Ok(v.(phase := Or(phase, v.phase), status := Or(status, v.status)))
    else if ev.eventType == "runner.node.added" then
      match d.addedOf(ev.delta)
      case None => Err
      case Some(x) =>
        var id := FirstNonEmpty(x.nodeId, ev.scope.nodeId);
        if id == "" then Err
        else
          var n := NodeAt(v.nodes, id);
          var skill := FirstNonEmpty(x.skill, FirstNonEmpty(n.skill, MetaString(ev.metadata, "skill_name")));
          Ok(v.(nodes := v.nodes[id := n.(id := id, skill := skill, task := FirstNonEmpty(x.task, n.task),
                                           dependsOn := x.dependsOn, status := ev.status)]))
    else if ev.eventType in NODE_TYPES then
      match d.nodeOf(ev.delta)
      case None => Err
      case Some((nodeId, error)) =>
        var id := FirstNonEmpty(nodeId, ev.scope.nodeId);
        if id == "" then Err
        else
          var n := NodeAt(v.nodes, id);
          var error' := if ev.eventType == "runner.node.failed" then Trim(error) else n.error;
          var skill := if n.skill == "" then MetaString(ev.metadata, "skill_name") else n.skill;
          Ok(v.(nodes := v.nodes[id := n.(id := id, status := ev.status, error := error', skill := skill)]))
    else if ev.eventType == "artifact.created" then
      var a := ArtifactOf(d, ev);
      if a.None? then Err else Ok(v.(artifacts := Upsert(v.artifacts, a.value)))
    else Ok(v)
  }

  function Apply(d: Decoders, v: View, ev: Event): Result<View> {
    if ev.scope.requestId != "" && v.requestId != "" && v.requestId != ev.scope.requestId then Err
    else
      ApplyPayload(d, v.(requestId := Or(v.requestId, ev.scope.requestId),
                         runnerId := Or(v.runnerId, ev.scope.runnerId)), ev)
  }

  function ApplyAll(d: Decoders, v: View, events: seq<Event>): Result<View> {
    if events == [] then Ok(v)
    else
      match ApplyAll(d, v, events[..|events| - 1])
      case Err => Err
      case Ok(u) => Apply(d, u, events[|events| - 1])
  }

  // ---------------------------------------------------------------- replaying a log

  function ApplyRaw(d: Decoders, v: View, raw: Event): Result<View> {
    match Expand(raw)
    case Err => Err
    case Ok(events) =>
      match ApplyAll(d, v, events)
      case Err => Err
      case Ok(u) => Ok(if raw.sequence > u.latest then u.(latest := raw.sequence) else u)
  }

  function FoldRaw(d: Decoders, v: View, raws: seq<Event>): Result<View> {
    if raws == [] then Ok(v)
    else
      match FoldRaw(d, v, raws[..|raws| - 1])
      case Err => Err
      case Ok(u) => ApplyRaw(d, u, raws[|raws| - 1])
  }

  function ReplayView(d: Decoders, requestId: string, view: Option<View>, cursor: Cursor, log: seq<Event>)
    : Result<View>
  {
    var request := Or(requestId, cursor.requestId);
    if request == "" || (cursor.requestId != "" && cursor.requestId != request) then Err
    else
      var v0 := if view.None? then Fresh(request) else view.value.(requestId := Or(view.value.requestId, request));
      if v0.requestId != request then Err
      else
        var v1 := v0.(checkpoint := if cursor.checkpoint > v0.checkpoint then cursor.checkpoint else v0.checkpoint,
                      latest := if cursor.event > v0.latest then cursor.event else v0.latest);
        FoldRaw(d, v1, From(log, if cursor.event > 0 then cursor.event + 1 else 1))
  }

  function SnapshotCursor(v: View): Cursor { Cursor(v.requestId, v.runnerId, v.checkpoint, v.latest) }

  method ReplayDescribeView(d: Decoders, requestId: string, view: Option<View>, cursor: Cursor, log: seq<Event>)
    returns (r: Result<View>)
    ensures r == ReplayView(d, requestId, view, cursor, log)
  {
    hide FoldRaw, From;
    var request := if requestId == "" then cursor.requestId else requestId;
    if request == "" || (cursor.requestId != "" && cursor.requestId != request) {
      return Err;
    }
    var v := if view.None? then Fresh(request) else view.value;
    if v.requestId == "" {
      v := v.(requestId := request);
    }
    if v.requestId != request {
      return Err;
    }
    if cursor.checkpoint > v.checkpoint {
      v := v.(checkpoint := cursor.checkpoint);
    }
    if cursor.event > v.latest {
      v := v.(latest := cursor.event);
    }
    r := ReplayRaws(d, v, From(log, if cursor.event > 0 then cursor.event + 1 else 1));
  }

  method ReplayRaws(d: Decoders, view: View, raws: seq<Event>) returns (r: Result<View>)
    ensures r == FoldRaw(d, view, raws)
  {
    hide ApplyRaw;
    var v := view;
    for i := 0 to |raws|
      invariant FoldRaw(d, view, raws[..i]) == Ok(v)
    {
      assert raws[..i + 1][..i] == raws[..i];
      match ApplyRaw(d, v, raws[i]) {
        case Err =>
          FoldErr(d, view, raws, i + 1);
          return Err;
        case Ok(u) => v := u;
      }
    }
    assert raws[..|raws|] == raws;
    return Ok(v);
  }

  lemma {:induction false} FoldErr(d: Decoders, v: View, raws: seq<Event>, i: nat)
    requires i <= |raws| && FoldRaw(d, v, raws[..i]).Err?
    ensures FoldRaw(d, v, raws).Err?
    decreases |raws|
  {
    hide ApplyRaw;
    if i < |raws| {
      assert raws[..|raws| - 1][..i] == raws[..i];
      FoldErr(d, v, raws[..|raws| - 1], i);
    } else {
      assert raws[..i] == raws;
    }
  }

  // ---------------------------------------------------------------- resuming

  lemma {:induction false} FoldConcat(d: Decoders, v: View, a: seq<Event>, b: seq<Event>)
    requires FoldRaw(d, v, a).Ok?
    ensures FoldRaw(d, v, a + b) == FoldRaw(d, FoldRaw(d, v, a).value, b)
    decreases |b|
  {
    hide ApplyRaw;
    if b == [] {
      assert a + b == a;
    } else {
      FoldConcat(d, v, a, b[..|b| - 1]);
      assert (a + b)[..|a + b| - 1] == a + b[..|b| - 1];
    }
  }

  ghost predicate Ascending(log: seq<Event>) {
    && (forall i :: 0 <= i < |log| ==> log[i].sequence > 0)
    && (forall i, j :: 0 <= i < j < |log| ==> log[i].sequence < log[j].sequence)
  }

  /** Applying events moves neither cursor and keeps a known request id. */
  lemma ApplyFrame(d: Decoders, v: View, ev: Event)
    requires Apply(d, v, ev).Ok?
    ensures var u := Apply(d, v, ev).value;
            u.latest == v.latest && u.checkpoint == v.checkpoint && (v.requestId != "" ==> u.requestId == v.requestId)
  {
  }

  lemma {:induction false} ApplyAllFrame(d: Decoders, v: View, events: seq<Event>)
    requires ApplyAll(d, v, events).Ok?
    ensures var u := ApplyAll(d, v, events).value;
            u.latest == v.latest && u.checkpoint == v.checkpoint && (v.requestId != "" ==> u.requestId == v.requestId)
  {
    hide Apply;
    if events != [] {
      ApplyAllFrame(d, v, events[..|events| - 1]);
      ApplyFrame(d, ApplyAll(d, v, events[..|events| - 1]).value, events[|events| - 1]);
    }
  }

  lemma {:induction false} FoldFrame(d: Decoders, v: View, raws: seq<Event>)
    requires FoldRaw(d, v, raws).Ok? && Ascending(raws) && v.latest == 0
    ensures var u := FoldRaw(d, v, raws).value;
            && u.checkpoint == v.checkpoint && (v.requestId != "" ==> u.requestId == v.requestId)
            && u.latest == if raws == [] then 0 else raws[|raws| - 1].sequence
  {
    hide ApplyAll, Expand;
    if raws != [] {
      var front, raw := raws[..|raws| - 1], raws[|raws| - 1];
      FoldFrame(d, v, front);
      var u := FoldRaw(d, v, front).value;
      ApplyAllFrame(d, u, Expand(raw).value);
    }
  }

  /** Resuming from the cursor saved after any prefix of the log gives the view, or the error,
      that replaying the whole log gives. */
  lemma ResumeEqualsFull(d: Decoders, requestId: string, log: seq<Event>, k: nat, v: View)
    requires requestId != "" && Ascending(log) && k <= |log|
    requires ReplayView(d, requestId, None, NO_CURSOR, log[..k]) == Ok(v)
    ensures ReplayView(d, requestId, Some(v), SnapshotCursor(v), log) == ReplayView(d, requestId, None, NO_CURSOR, log)
  {
    hide FoldRaw, From;
    var v0, a, b := Fresh(requestId), log[..k], log[k..];
    FromIsSuffix(a, 1, 0);
    FromIsSuffix(log, 1, 0);
    assert a[0..] == a && log[0..] == log && log == a + b;
    assert Ascending(a);
    FoldFrame(d, v0, a);
    FoldConcat(d, v0, a, b);
    FromIsSuffix(log, v.latest + 1, k);
  }

  // ---------------------------------------------------------------- bundling does not matter

  /** The logical events of a raw log. */
  function Flatten(raws: seq<Event>): Result<seq<Event>> {
    if raws == [] then Ok([])
    else
      match (Flatten(raws[..|raws| - 1]), Expand(raws[|raws| - 1]))
      case (Ok(a), Ok(b)) => Ok(a + b)
      case _ => Err
  }

  function Forget(r: Result<View>): Result<View> { match r case Err => Err case Ok(v) => Ok(v.(latest := 0)) }

  lemma ApplyIgnoresLatest(d: Decoders, v: View, n: nat, ev: Event)
    ensures Forget(Apply(d, v.(latest := n), ev)) == Forget(Apply(d, v, ev))
  {
  }

  lemma {:induction false} ApplyAllIgnoresLatest(d: Decoders, v: View, w: View, events: seq<Event>)
    requires Forget(Ok(v)) == Forget(Ok(w))
    ensures Forget(ApplyAll(d, v, events)) == Forget(ApplyAll(d, w, events))
  {
    hide Apply;
    if events != [] {
      ApplyAllIgnoresLatest(d, v, w, events[..|events| - 1]);
      var a, b := ApplyAll(d, v, events[..|events| - 1]), ApplyAll(d, w, events[..|events| - 1]);
      if a.Ok? {
        ApplyIgnoresLatest(d, a.value, b.value.latest, events[|events| - 1]);
        assert a.value.(latest := b.value.latest) == b.value;
      }
    }
  }

  lemma {:induction false} ApplyAllConcat(d: Decoders, v: View, a: seq<Event>, b: seq<Event>)
    requires ApplyAll(d, v, a).Ok?
    ensures ApplyAll(d, v, a + b) == ApplyAll(d, ApplyAll(d, v, a).value, b)
    decreases |b|
  {
    hide Apply;
    if b == [] {
      assert a + b == a;
    } else {
      ApplyAllConcat(d, v, a, b[..|b| - 1]);
      assert (a + b)[..|a + b| - 1] == a + b[..|b| - 1];
    }
  }

  lemma {:induction false} ApplyAllErr(d: Decoders, v: View, a: seq<Event>, b: seq<Event>)
    requires ApplyAll(d, v, a).Err?
    ensures ApplyAll(d, v, a + b).Err?
    decreases |b|
  {
    hide Apply;
    if b == [] {
      assert a + b == a;
    } else {
      ApplyAllErr(d, v, a, b[..|b| - 1]);
      assert (a + b)[..|a + b| - 1] == a + b[..|b| - 1];
    }
  }

  /** Up to the event cursor, replaying frames is replaying their logical events. */
  lemma {:induction false} FoldIsFlat(d: Decoders, v: View, raws: seq<Event>)
    requires Flatten(raws).Ok?
    ensures Forget(FoldRaw(d, v, raws)) == Forget(ApplyAll(d, v, Flatten(raws).value))
  {
    hide Apply, ApplyAll, Expand;
    if raws == [] {
      assert ApplyAll(d, v, []) == Ok(v) by { EmptyApply(d, v); }
    } else {
      var front, raw := raws[..|raws| - 1], raws[|raws| - 1];
      FoldIsFlat(d, v, front);
      var a, b := Flatten(front).value, Expand(raw).value;
      var f, g := FoldRaw(d, v, front), ApplyAll(d, v, a);
      if f.Err? {
        ApplyAllErr(d, v, a, b);
      } else {
        ApplyAllConcat(d, v, a, b);
        ApplyAllIgnoresLatest(d, f.value, g.value, b);
      }
    }
  }

  lemma EmptyApply(d: Decoders, v: View)
    ensures ApplyAll(d, v, []) == Ok(v)
  {
  }

  /** Two logs that carry the same logical events, however bundled into frames, give the same
      view apart from the event cursor. */
  lemma BundlingIrrelevant(d: Decoders, v: View, raws: seq<Event>, raws': seq<Event>)
    requires Flatten(raws).Ok? && Flatten(raws) == Flatten(raws')
    ensures Forget(FoldRaw(d, v, raws)) == Forget(FoldRaw(d, v, raws'))
  {
    FoldIsFlat(d, v, raws);
    FoldIsFlat(d, v, raws');
  }

  // ---------------------------------------------------------------- artifacts

  /** The last artifact announced for a node and path. */
  function LastArtifact(d: Decoders, events: seq<Event>, nodeId: string, path: string): Option<Artifact> {
    if events == [] then None
    else
      var a := ArtifactOf(d, events[|events| - 1]);
      if a.Some? && a.value.nodeId == nodeId && a.value.path == path then a
      else LastArtifact(d, events[..|events| - 1], nodeId, path)
  }

  /** What an artifact event announces, field by field. */
  lemma ArtifactMeans(d: Decoders, ev: Event, a: Artifact)
    ensures ArtifactOf(d, ev) == Some(a) <==>
            && ev.eventType == "artifact.created"
            && d.artifactOf(ev.delta) == Some((a.path, a.resourceType, a.description, a.stage))
            && Trim(a.path) != "" && a.nodeId == ev.scope.nodeId
  {
  }

  ghost predicate UniqueKeys(artifacts: seq<Artifact>) {
    forall i, j :: 0 <= i < j < |artifacts| ==> !SameKey(artifacts[i], artifacts[j])
  }

  lemma {:induction false} UpsertOk(artifacts: seq<Artifact>, a: Artifact)
    requires UniqueKeys(artifacts)
    ensures UniqueKeys(Upsert(artifacts, a))
    ensures forall x :: x in Upsert(artifacts, a) <==> x == a || (x in artifacts && !SameKey(x, a))
  {
    if artifacts != [] {
      var head, tail := artifacts[0], artifacts[1..];
      assert artifacts == [head] + tail;
      if SameKey(head, a) {
        assert forall x :: x in tail ==> !SameKey(head, x);
      } else {
        UpsertOk(tail, a);
        var u := Upsert(tail, a);
        forall k | 0 <= k < |u| ensures !SameKey(head, u[k]) {
          assert u[k] in u;
        }
      }
    }
  }

  /** The view holds one artifact per node and path: the latest announced. */
  lemma {:induction false} ArtifactsAreLatest(d: Decoders, requestId: string, events: seq<Event>)
    requires ApplyAll(d, Fresh(requestId), events).Ok?
    ensures var artifacts := ApplyAll(d, Fresh(requestId), events).value.artifacts;
            && UniqueKeys(artifacts)
            && forall x :: x in artifacts <==> LastArtifact(d, events, x.nodeId, x.path) == Some(x)
  {
    hide Upsert, ArtifactOf, Apply;
    if events != [] {
      var front, ev := events[..|events| - 1], events[|events| - 1];
      ArtifactsAreLatest(d, requestId, front);
      var u := ApplyAll(d, Fresh(requestId), front).value;
      ArtifactStep(d, u, ev);
      if ArtifactOf(d, ev).Some? {
        UpsertOk(u.artifacts, ArtifactOf(d, ev).value);
      }
    }
  }

  lemma ArtifactStep(d: Decoders, v: View, ev: Event)
    requires Apply(d, v, ev).Ok?
    ensures var a := ArtifactOf(d, ev);
            Apply(d, v, ev).value.artifacts == if a.Some? then Upsert(v.artifacts, a.value) else v.artifacts
  {
  }

  // ---------------------------------------------------------------- nodes

  /** What one event says about a node: its new status and, if it carries them, error and dependencies. */
  datatype Note = Note(id: string, status: string, error: Option<string>, dependsOn: Option<seq<string>>)

  function NoteOf(d: Decoders, ev: Event): Option<Note> {
    if ev.eventType == "runner.node.added" then
      match d.addedOf(ev.delta)
      case None => None
      case Some(x) => Some(Note(FirstNonEmpty(x.nodeId, ev.scope.nodeId), ev.status, None, Some(x.dependsOn)))
    else if ev.eventType in NODE_TYPES then
      match d.nodeOf(ev.delta)
      case None => None
      case Some((nodeId, error)) =>
        Some(Note(FirstNonEmpty(nodeId, ev.scope.nodeId), ev.status,
                  if ev.eventType == "runner.node.failed" then Some(Trim(error)) else None, None))
    else None
  }

  predicate About(n: Option<Note>, id: string) { n.Some? && n.value.id == id }

  function LastStatus(d: Decoders, events: seq<Event>, id: string): Option<string> {
    if events == [] then None
    else
      var n := NoteOf(d, events[|events| - 1]);
      if About(n, id) then Some(n.value.status) else LastStatus(d, events[..|events| - 1], id)
  }

  function LastError(d: Decoders, events: seq<Event>, id: string): string {
    if events == [] then ""
    else
      var n := NoteOf(d, events[|events| - 1]);
      if About(n, id) && n.value.error.Some? then n.value.error.value else LastError(d, events[..|events| - 1], id)
  }

  function LastDependsOn(d: Decoders, events: seq<Event>, id: string): seq<string> {
    if events == [] then []
    else
      var n := NoteOf(d, events[|events| - 1]);
      if About(n, id) && n.value.dependsOn.Some? then n.value.dependsOn.value
      else LastDependsOn(d, events[..|events| - 1], id)
  }

  lemma NodeStep(d: Decoders, v: View, ev: Event, id: string)
    requires Apply(d, v, ev).Ok?
    ensures var n, was, now := NoteOf(d, ev), NodeAt(v.nodes, id), NodeAt(Apply(d, v, ev).value.nodes, id);
            if About(n, id) then
              && id in Apply(d, v, ev).value.nodes && now.id == id && now.status == n.value.status
              && now.error == (if n.value.error.Some? then n.value.error.value else was.error)
              && now.dependsOn == (if n.value.dependsOn.Some? then n.value.dependsOn.value else was.dependsOn)
            else now == was && (id in Apply(d, v, ev).value.nodes <==> id in v.nodes)
  {
  }

  /** The view knows exactly the nodes some event spoke of; each carries the latest status, the
      latest failure and the latest dependencies announced for it. */
  lemma {:induction false} NodesAreLatest(d: Decoders, requestId: string, events: seq<Event>, id: string)
    requires ApplyAll(d, Fresh(requestId), events).Ok?
    ensures var nodes := ApplyAll(d, Fresh(requestId), events).value.nodes;
            && (id in nodes <==> LastStatus(d, events, id).Some?)
            && (id in nodes ==> nodes[id].id == id && LastStatus(d, events, id) == Some(nodes[id].status))
            && NodeAt(nodes, id).error == LastError(d, events, id)
            && NodeAt(nodes, id).dependsOn == LastDependsOn(d, events, id)
  {
    hide Apply, NoteOf;
    if events != [] {
      var front := events[..|events| - 1];
      NodesAreLatest(d, requestId, front, id);
      NodeStep(d, ApplyAll(d, Fresh(requestId), front).value, events[|events| - 1], id);
    }
  }

  // ---------------------------------------------------------------- the request as a whole

  function PhaseOf(d: Decoders, ev: Event): string {
    if ev.eventType == "runner.phase.changed" && d.phaseOf(ev.delta).Some? then d.phaseOf(ev.delta).value.0 else ""
  }

  function StatusOf(d: Decoders, ev: Event): string {
    if ev.eventType == "status.failed" then "failed"
    else if ev.eventType == "runner.phase.changed" && d.phaseOf(ev.delta).Some? then d.phaseOf(ev.delta).value.1
    else ""
  }

  /** The runner an event names: in its scope, or in the payload of a status event. */
  function RunnerOf(d: Decoders, ev: Event): string {
    if ev.scope.runnerId != "" then ev.scope.runnerId
    else if ev.eventType in {"status.started", "status.progress", "status.completed", "status.failed"} &&
            d.runnerOf(ev.delta).Some? then d.runnerOf(ev.delta).value
    else ""
  }

  /** The task and the skill an added event gives a node, blank ones aside. */
  function TaskOf(d: Decoders, ev: Event, id: string): string {
    if ev.eventType == "runner.node.added" && About(NoteOf(d, ev), id) && Trim(d.addedOf(ev.delta).value.task) != ""
    then d.addedOf(ev.delta).value.task else ""
  }

  function SkillOf(d: Decoders, ev: Event, id: string): string {
    if ev.eventType == "runner.node.added" && About(NoteOf(d, ev), id) && Trim(d.addedOf(ev.delta).value.skill) != ""
    then d.addedOf(ev.delta).value.skill else ""
  }

  /** The last non-empty text that `f` finds. */
  function Last(events: seq<Event>, f: Event -> string): string {
    if events == [] then ""
    else if f(events[|events| - 1]) != "" then f(events[|events| - 1])
    else Last(events[..|events| - 1], f)
  }

  function Earliest(events: seq<Event>, f: Event -> string): string {
    if events == [] then ""
    else if Earliest(events[..|events| - 1], f) != "" then Earliest(events[..|events| - 1], f)
    else f(events[|events| - 1])
  }

  ghost predicate Summed(d: Decoders, v: View, events: seq<Event>) {
    && v.phase == Last(events, (ev: Event) => PhaseOf(d, ev))
    && v.status == Last(events, (ev: Event) => StatusOf(d, ev))
    && v.runnerId == Earliest(events, (ev: Event) => RunnerOf(d, ev))
  }

  lemma SumStep(d: Decoders, v: View, ev: Event)
    requires Apply(d, v, ev).Ok?
    ensures var u := Apply(d, v, ev).value;
            && u.phase == (if PhaseOf(d, ev) != "" then PhaseOf(d, ev) else v.phase)
            && u.status == (if StatusOf(d, ev) != "" then StatusOf(d, ev) else v.status)
            && u.runnerId == (if v.runnerId != "" then v.runnerId else RunnerOf(d, ev))
  {
  }

  /** Phase and status are the latest non-empty ones announced, a failure counting as the status
      "failed"; the runner is the first one named. */
  lemma {:induction false} SummaryIsLatest(d: Decoders, requestId: string, events: seq<Event>)
    requires ApplyAll(d, Fresh(requestId), events).Ok?
    ensures Summed(d, ApplyAll(d, Fresh(requestId), events).value, events)
  {
    hide Apply, PhaseOf, StatusOf, RunnerOf;
    if events != [] {
      var front := events[..|events| - 1];
      SummaryIsLatest(d, requestId, front);
      SumStep(d, ApplyAll(d, Fresh(requestId), front).value, events[|events| - 1]);
    }
  }

  lemma TaskStep(d: Decoders, v: View, ev: Event, id: string)
    requires Apply(d, v, ev).Ok? && (NodeAt(v.nodes, id).task == "" || Trim(NodeAt(v.nodes, id).task) != "")
    ensures var was, now := NodeAt(v.nodes, id), NodeAt(Apply(d, v, ev).value.nodes, id);
            && now.task == (if TaskOf(d, ev, id) != "" then TaskOf(d, ev, id) else was.task)
            && (SkillOf(d, ev, id) != "" ==> now.skill == SkillOf(d, ev, id))
            && (SkillOf(d, ev, id) == "" && Trim(was.skill) != "" ==> now.skill == was.skill)
  {
    hide Upsert, ArtifactOf, Trim;
    NothingTrimmed();
  }

  /** A node without a skill takes the one an event about it carries in its metadata; an added event
      takes a blank one for none. */
  lemma SkillHint(d: Decoders, v: View, ev: Event, id: string)
    requires Apply(d, v, ev).Ok? && About(NoteOf(d, ev), id)
    ensures var was, now := NodeAt(v.nodes, id).skill, NodeAt(Apply(d, v, ev).value.nodes, id).skill;
            var m := ev.metadata;
            var hint := if "skill_name" in m && m["skill_name"].Str? then m["skill_name"].s else "";
            if ev.eventType == "runner.node.added" then
              SkillOf(d, ev, id) == "" && Trim(was) == "" ==> now == if Trim(hint) == "" then "" else hint
            else now == if was == "" then hint else was
  {
    hide Upsert, ArtifactOf, Trim;
    NothingTrimmed();
  }

  lemma NothingTrimmed()
    ensures Trim("") == ""
  {
  }

  /** An event stops the replay exactly when it belongs to another request or its payload cannot be
      read or lacks the node or the path it is about; a status payload may be unreadable. */
  lemma ApplyFailsIff(d: Decoders, v: View, ev: Event)
    ensures Apply(d, v, ev).Err? <==>
            || (ev.scope.requestId != "" && v.requestId != "" && ev.scope.requestId != v.requestId)
            || (ev.eventType == "runner.phase.changed" && d.phaseOf(ev.delta).None?)
            || (ev.eventType == "runner.node.added" &&
                (d.addedOf(ev.delta).None? ||
                 (Trim(d.addedOf(ev.delta).value.nodeId) == "" && Trim(ev.scope.nodeId) == "")))
            || (ev.eventType in {"runner.node.started", "runner.node.completed", "runner.node.failed"} &&
                (d.nodeOf(ev.delta).None? ||
                 (Trim(d.nodeOf(ev.delta).value.0) == "" && Trim(ev.scope.nodeId) == "")))
            || (ev.eventType == "artifact.created" &&
                (d.artifactOf(ev.delta).None? || Trim(d.artifactOf(ev.delta).value.0) == ""))
  {
    hide Upsert, Trim;
    NothingTrimmed();
  }

  /** A node's task is the latest one announced for it that is not blank, and so is its skill once
      one was announced. */
  lemma {:induction false} TasksAreLatest(d: Decoders, requestId: string, events: seq<Event>, id: string)
    requires ApplyAll(d, Fresh(requestId), events).Ok?
    ensures var n := NodeAt(ApplyAll(d, Fresh(requestId), events).value.nodes, id);
            && n.task == Last(events, (ev: Event) => TaskOf(d, ev, id))
            && (n.task == "" || Trim(n.task) != "")
            && (Last(events, (ev: Event) => SkillOf(d, ev, id)) != "" ==>
                  n.skill == Last(events, (ev: Event) => SkillOf(d, ev, id)) && Trim(n.skill) != "")
  {
    hide Apply, Trim, NodeAt;
    if events == [] {
      NoNode(id);
    } else {
      var front, ev := events[..|events| - 1], events[|events| - 1];
      TasksAreLatest(d, requestId, front, id);
      TaskStep(d, ApplyAll(d, Fresh(requestId), front).value, ev, id);
    }
  }

  lemma NoNode(id: string)
    ensures NodeAt(map[], id).task == ""
  {
  }

  // ---------------------------------------------------------------- a replayed log

  lemma {:induction false} FoldExpands(d: Decoders, v: View, raws: seq<Event>)
    requires FoldRaw(d, v, raws).Ok?
    ensures Flatten(raws).Ok?
  {
    hide ApplyAll, Expand;
    if raws != [] {
      FoldExpands(d, v, raws[..|raws| - 1]);
    }
  }

  /** What a view says of one node is the latest the events say. */
  ghost predicate NodeLatest(d: Decoders, nodes: map<string, Node>, events: seq<Event>, id: string) {
    && (id in nodes <==> LastStatus(d, events, id).Some?)
    && (id in nodes ==> nodes[id].id == id && LastStatus(d, events, id) == Some(nodes[id].status))
    && NodeAt(nodes, id).error == LastError(d, events, id)
    && NodeAt(nodes, id).dependsOn == LastDependsOn(d, events, id)
  }

  /** A replay is refused for a missing or mismatching request id before any event is read. What it
      answers belongs to the request, keeps the larger checkpoint, and has read every event of the
      log. */
  lemma ReplayMeans(d: Decoders, requestId: string, view: Option<View>, cursor: Cursor, log: seq<Event>)
    ensures var r := ReplayView(d, requestId, view, cursor, log);
            var id := if requestId != "" then requestId else cursor.requestId;
            var fits := id != "" && (cursor.requestId == "" || cursor.requestId == id) &&
                        (view.None? || view.value.requestId == "" || view.value.requestId == id);
            && (!fits ==> r.Err?)
            && (fits && From(log, cursor.event + 1) == [] ==> r.Ok?)
            && (r.Ok? ==>
                 var was := if view.None? then 0 else view.value.checkpoint;
                 && r.value.requestId == id
                 && r.value.checkpoint == (if cursor.checkpoint > was then cursor.checkpoint else was)
                 && r.value.latest >= cursor.event && (view.Some? ==> r.value.latest >= view.value.latest)
                 && forall i :: 0 <= i < |log| ==> log[i].sequence <= r.value.latest)
  {
    hide FoldRaw, From;
    var id := Or(requestId, cursor.requestId);
    var r := ReplayView(d, requestId, view, cursor, log);
    var rest := From(log, cursor.event + 1);
    NothingFolded(d);
    if r.Ok? {
      var v0 := if view.None? then Fresh(id) else view.value.(requestId := Or(view.value.requestId, id));
      var v1 := v0.(checkpoint := if cursor.checkpoint > v0.checkpoint then cursor.checkpoint else v0.checkpoint,
                    latest := if cursor.event > v0.latest then cursor.event else v0.latest);
      FoldReads(d, v1, rest);
      forall i | 0 <= i < |log| ensures log[i].sequence <= r.value.latest {
        if log[i].sequence > cursor.event {
          FromHas(log, cursor.event + 1, log[i]);
        }
      }
    }
  }

  lemma NothingFolded(d: Decoders)
    ensures forall v :: FoldRaw(d, v, []) == Ok(v)
  {
  }

  lemma {:induction false} FromHas(log: seq<Event>, from: nat, e: Event)
    requires e in log && e.sequence >= from
    ensures e in From(log, from)
  {
    if e in log[..|log| - 1] {
      FromHas(log[..|log| - 1], from, e);
    }
  }

  /** A replayed log moves the cursor to its largest sequence number and leaves the checkpoint. */
  lemma {:induction false} FoldReads(d: Decoders, v: View, raws: seq<Event>)
    requires FoldRaw(d, v, raws).Ok?
    ensures var u := FoldRaw(d, v, raws).value;
            && u.checkpoint == v.checkpoint && (v.requestId != "" ==> u.requestId == v.requestId)
            && u.latest >= v.latest && forall i :: 0 <= i < |raws| ==> raws[i].sequence <= u.latest
  {
    hide Apply, Expand;
    if raws != [] {
      var front, raw := raws[..|raws| - 1], raws[|raws| - 1];
      FoldReads(d, v, front);
      ApplyAllFrame(d, FoldRaw(d, v, front).value, Expand(raw).value);
    }
  }

  /** The view of a whole raw log: its artifacts and nodes are the latest its logical events
      announce, however those were bundled into frames. */
  lemma ReplayIsLatest(d: Decoders, requestId: string, log: seq<Event>, v: View)
    requires requestId != "" && Ascending(log) && ReplayView(d, requestId, None, NO_CURSOR, log) == Ok(v)
    ensures Flatten(log).Ok?
    ensures var events := Flatten(log).value;
            && UniqueKeys(v.artifacts)
            && (forall x :: x in v.artifacts <==> LastArtifact(d, events, x.nodeId, x.path) == Some(x))
            && (forall id :: NodeLatest(d, v.nodes, events, id))
            && Summed(d, v, events)
  {
    hide FoldRaw, From, ApplyAll, Flatten, LastArtifact, LastStatus, LastError, LastDependsOn, Last, Earliest;
    FromIsSuffix(log, 1, 0);
    assert log[0..] == log;
    var v0 := Fresh(requestId);
    FoldExpands(d, v0, log);
    FoldIsFlat(d, v0, log);
    var events := Flatten(log).value;
    var u := ApplyAll(d, v0, events);
    assert u.Ok? && u.value.(latest := 0) == v.(latest := 0);
    SummaryIsLatest(d, requestId, events);
    ArtifactsAreLatest(d, requestId, events);
    forall id ensures NodeLatest(d, v.nodes, events, id) { NodesAreLatest(d, requestId, events, id); }
  }
}
