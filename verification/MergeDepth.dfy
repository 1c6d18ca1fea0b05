/** Streams merged into streams (skill into runner into request), in any topology: streams and
    hubs run side by side, merges take their events from expanded subscriptions, which is the
    default, and forward them directly or bundled by tick. */
module MergeDepth {
  import opened Wrappers
  import opened StreamEvents
  import opened MergeFifo
  import StreamLog
  import MergeHub
  import JsonText

  /** `given` holds every event an expanded subscription has ever received. */
  datatype Net = Net(valid: string -> bool, streams: map<nat, StreamLog.State>, hubs: map<nat, MergeHub.Hub>,
                     given: set<Event>)

  /** Who emits: a producer, a direct forward of a received event, or a hub's frame. */
  datatype Origin = Producer | Forward(src: Event) | Tick(hub: nat, frame: nat)

  datatype Step = AtStream(stream: nat, local: StreamLog.Step, origin: Origin) | AtHub(hub: nat, inner: MergeHub.Step)

  // ---------------------------------------------------------------- frames

  function Payloads(items: seq<(Ident, Event)>): (r: seq<Event>)
    ensures |r| == |items| && forall k :: 0 <= k < |items| ==> r[k] == items[k].1
  {
    seq(|items|, k requires 0 <= k < |items| => items[k].1)
  }

  /** The bundle event emitFrame writes for a tick. */
  function FrameEvent(fr: MergeHub.Frame): Event {
    Event(BUNDLE, Source("hub", "", ""), 0, "completed", Batch(fr.tick, Payloads(fr.items)), 0, NO_SCOPE, map[])
  }

  /** The event normalizeDirectFrame forwards. */
  function DirectEvent(e: Event): Event {
    e.(sequence := 0, metadata := e.metadata["upstream_sequence_number" := Num(e.sequence)])
  }

  // ---------------------------------------------------------------- steps

  predicate Stems(net: Net, ev: Event, origin: Origin) {
    match origin
    case Producer => ev.eventType != BUNDLE
    case Forward(src) => src in net.given && ev == DirectEvent(src)
    case Tick(h, n) =>
      && h in net.hubs && n < |net.hubs[h].frames| && net.hubs[h].frames[n].items != []
      && ev == FrameEvent(net.hubs[h].frames[n])
  }

  predicate Legal(net: Net, step: Step) {
    match step
    case AtStream(s, local, origin) =>
      s in net.streams && StreamLog.Legal(net.streams[s], local) && (local.Emitted? ==> Stems(net, local.event, origin))
    case AtHub(h, inner) =>
      h in net.hubs && MergeHub.Legal(net.hubs[h], inner) && (inner.Enqueued? ==> inner.event in net.given)
  }

  function Given(s: StreamLog.State): set<Event> {
    set id, e | id in s.subs && s.subs[id].spec.expanded && e in s.subs[id].received :: e
  }

  function Apply(net: Net, step: Step): Net
    requires Legal(net, step)
  {
    match step
    case AtStream(s, local, _) =>
      var t := StreamLog.Apply(net.valid, net.streams[s], local);
      net.(streams := net.streams[s := t], given := net.given + Given(t))
    case AtHub(h, inner) => net.(hubs := net.hubs[h := MergeHub.Apply(net.hubs[h], inner)])
  }

  ghost predicate Run(nets: seq<Net>, steps: seq<Step>) {
    && |nets| == |steps| + 1
    && forall k :: 0 <= k < |steps| ==> Legal(nets[k], steps[k]) && nets[k + 1] == Apply(nets[k], steps[k])
  }

  ghost predicate Fresh(net: Net) {
    && (forall s :: s in net.streams ==> exists scope, limit :: net.streams[s] == StreamLog.Create(scope, limit))
    && (forall h :: h in net.hubs ==> exists scope, depth :: net.hubs[h] == MergeHub.Create(scope, depth))
    && net.given == {}
  }

  // ---------------------------------------------------------------- what every step keeps

  predicate Plain(es: seq<Event>) { forall k :: 0 <= k < |es| ==> es[k].eventType != BUNDLE }

  /** A bundle is non-empty and holds no bundle. */
  predicate Good(e: Event) { e.eventType == BUNDLE ==> Expand(e).Ok? && StreamLog.Flat(e) }

  predicate GoodLog(log: seq<Event>) { forall k :: 0 <= k < |log| ==> Good(log[k]) }

  ghost predicate PlainHub(h: MergeHub.Hub) {
    && (forall i :: i in h.fifos ==> Plain(h.fifos[i]))
    && (forall n :: 0 <= n < |h.frames| ==> Plain(Payloads(h.frames[n].items)))
  }

  ghost predicate Inv(net: Net) {
    && (forall s :: s in net.streams ==> StreamLog.Inv(net.streams[s]) && GoodLog(net.streams[s].log))
    && (forall h :: h in net.hubs ==> PlainHub(net.hubs[h]))
    && (forall e :: e in net.given ==> e.eventType != BUNDLE)
  }

  // ---------------------------------------------------------------- hubs

  lemma {:induction false} CollectIsPlain(fifos: map<Ident, seq<Event>>, order: seq<Ident>)
    requires forall k :: 0 <= k < |order| ==> order[k] in fifos
    requires forall i :: i in fifos ==> Plain(fifos[i])
    ensures Plain(Payloads(MergeHub.Collect(fifos, order)))
  {
    if order != [] {
      CollectIsPlain(fifos, order[..|order| - 1]);
      var q := fifos[order[|order| - 1]];
      assert q != [] ==> Join(MergeHub.HeadRun(q)).eventType == q[0].eventType;
    }
  }

  lemma FlushStaysPlain(h: MergeHub.Hub, order: seq<Ident>)
    requires PlainHub(h) && MergeHub.Enumerates(order, h.fifos.Keys)
    ensures PlainHub(MergeHub.Flush(h, order))
  {
    hide MergeHub.Collect, MergeHub.Took, Join;
    CollectIsPlain(h.fifos, order);
    var t := MergeHub.Flush(h, order);
    forall i | i in t.fifos ensures Plain(t.fifos[i]) {
      assert i in h.fifos && (t.fifos[i] == h.fifos[i] || t.fifos[i] == MergeHub.Rest(h.fifos[i]));
    }
  }

  /** A hub fed plain events queues and frames plain events only. */
  lemma HubStaysPlain(h: MergeHub.Hub, step: MergeHub.Step)
    requires PlainHub(h) && MergeHub.Legal(h, step) && (step.Enqueued? ==> step.event.eventType != BUNDLE)
    ensures PlainHub(MergeHub.Apply(h, step))
  {
    hide MergeHub.Flush;
    match step
    case Flushed(order) => FlushStaysPlain(h, order);
    case _ =>
  }

  // ---------------------------------------------------------------- streams

  lemma {:induction false} SubseqMember(a: seq<Event>, b: seq<Event>, e: Event)
    requires StreamLog.Subseq(a, b) && e in a
    ensures e in b
    decreases |b|
  {
    if a[|a| - 1] == b[|b| - 1] && StreamLog.Subseq(a[..|a| - 1], b[..|b| - 1]) {
      if e in a[..|a| - 1] {
        SubseqMember(a[..|a| - 1], b[..|b| - 1], e);
      } else {
        assert a == a[..|a| - 1] + [a[|a| - 1]];
      }
    } else {
      SubseqMember(a, b[..|b| - 1], e);
    }
  }

  /** Whatever an expanded subscription of a flat log received, it is no bundle. */
  lemma ReceivedIsPlain(s: StreamLog.State, id: nat, e: Event)
    requires StreamLog.Inv(s) && StreamLog.FlatLog(s.log)
    requires id in s.subs && s.subs[id].spec.expanded && e in s.subs[id].received
    ensures e.eventType != BUNDLE
  {
    hide StreamLog.Owed, StreamLog.Due, StreamLog.Subseq;
    var spec := s.subs[id].spec;
    assert StreamLog.SubOk(s.subs[id], s.log);
    StreamLog.OwedOfFlatIsDue(spec, s.log);
    SubseqMember(s.subs[id].received, StreamLog.Owed(spec, s.log), e);
    var window := s.log[spec.from..];
    assert forall k :: 0 <= k < |window| ==> window[k] == s.log[spec.from + k];
    StreamLog.DueOfFlatIsPlain(spec.filter, window, e);
  }

  lemma GoodIsFlat(log: seq<Event>)
    requires GoodLog(log)
    ensures StreamLog.FlatLog(log)
  {
  }

  lemma StreamStaysGood(valid: string -> bool, s: StreamLog.State, step: StreamLog.Step)
    requires StreamLog.Inv(s) && GoodLog(s.log) && StreamLog.Legal(s, step) && (step.Emitted? ==> Good(step.event))
    ensures var t := StreamLog.Apply(valid, s, step);
            StreamLog.Inv(t) && GoodLog(t.log) && forall e :: e in Given(t) ==> e.eventType != BUNDLE
  {
    hide StreamLog.Inv, StreamLog.Fanout, StreamLog.Replay, StreamLog.SendAll, StreamLog.FlatLog;
    StreamLog.ApplyKeeps(valid, s, step);
    var t := StreamLog.Apply(valid, s, step);
    assert GoodLog(t.log);
    GoodIsFlat(t.log);
    forall e | e in Given(t) ensures e.eventType != BUNDLE {
      var id :| id in t.subs && t.subs[id].spec.expanded && e in t.subs[id].received;
      ReceivedIsPlain(t, id, e);
    }
  }

  // ---------------------------------------------------------------- the network

  lemma OriginIsGood(net: Net, ev: Event, origin: Origin)
    requires Inv(net) && Stems(net, ev, origin)
    ensures Good(ev)
  {
    hide StreamLog.Inv;
    match origin
    case Producer =>
    case Forward(src) =>
    case Tick(h, n) =>
      var fr := net.hubs[h].frames[n];
      assert PlainHub(net.hubs[h]) && Plain(Payloads(fr.items));
  }

  lemma StepKeeps(net: Net, step: Step)
    requires Inv(net) && Legal(net, step)
    ensures Inv(Apply(net, step))
  {
    hide StreamLog.Inv, StreamLog.Apply, StreamLog.Legal, MergeHub.Apply, MergeHub.Legal;
    hide PlainHub, GoodLog, Stems, Good, Given;
    match step
    case AtStream(s, local, origin) =>
      if local.Emitted? {
        OriginIsGood(net, local.event, origin);
      }
      StreamStaysGood(net.valid, net.streams[s], local);
    case AtHub(h, inner) => HubStaysPlain(net.hubs[h], inner);
  }

  lemma FreshIsInv(net: Net)
    requires Fresh(net)
    ensures Inv(net)
  {
    forall s | s in net.streams ensures StreamLog.Inv(net.streams[s]) && GoodLog(net.streams[s].log) {
      var scope, limit :| net.streams[s] == StreamLog.Create(scope, limit);
    }
    forall h | h in net.hubs ensures PlainHub(net.hubs[h]) {
      var scope, depth :| net.hubs[h] == MergeHub.Create(scope, depth);
    }
  }

  lemma {:induction false} EveryRun(nets: seq<Net>, steps: seq<Step>)
    requires Run(nets, steps) && Fresh(nets[0])
    ensures Inv(nets[|steps|])
  {
    hide Inv, Fresh, Legal, Apply;
    if steps == [] {
      FreshIsInv(nets[0]);
    } else {
      var n := |steps| - 1;
      EveryRun(nets[..n + 1], steps[..n]);
      StepKeeps(nets[n], steps[n]);
    }
  }

  /** In every run of any network of merged streams: every bundle in every log is well formed and
      holds no bundle, and every expanded subscription has received, in order, only events that
      filter-after-expand of its stream's log owes it from its replay start on. */
  lemma BundlesNeverNest(nets: seq<Net>, steps: seq<Step>, s: nat, id: nat)
    requires Run(nets, steps) && Fresh(nets[0]) && s in nets[|steps|].streams
    ensures var t := nets[|steps|].streams[s];
            && StreamLog.FlatLog(t.log) && (forall k :: 0 <= k < |t.log| ==> Expand(t.log[k]).Ok?)
            && (id in t.subs && t.subs[id].spec.expanded ==>
                  && t.subs[id].spec.from <= |t.log|
                  && StreamLog.Subseq(t.subs[id].received,
                                      StreamLog.Due(true, t.subs[id].spec.filter, t.log[t.subs[id].spec.from..])))
  {
    hide StreamLog.Owed, StreamLog.Due, StreamLog.Subseq;
    EveryRun(nets, steps);
    var t := nets[|steps|].streams[s];
    GoodIsFlat(t.log);
    if id in t.subs {
      assert StreamLog.SubOk(t.subs[id], t.log);
      StreamLog.OwedOfFlatIsDue(t.subs[id].spec, t.log);
    }
  }

  // ---------------------------------------------------------------- string deltas are strings

  ghost predicate AllValid(es: seq<Event>) { forall n :: 0 <= n < |es| ==> ValidDelta(es[n]) }

  ghost predicate IsJson(t: string) {
    exists before: string, v: JsonText.Value, after: string ::
      && JsonText.IsWs(before) && JsonText.WellFormed(v) && JsonText.IsWs(after)
      && t == before + JsonText.ValueText(v) + after
  }

  /** The check Emit makes accepts nothing but JSON. */
  ghost predicate JsonOnly(valid: string -> bool) { forall t :: valid(t) ==> IsJson(t) }

  /** A delta that is JSON and begins and ends with a quote is a string. */
  lemma JsonIsValid(e: Event)
    requires e.delta.Text? ==> IsJson(e.delta.bytes)
    ensures ValidDelta(e)
  {
    hide JsonText.WellFormed, JsonText.IsWs, JsonText.ValueText, JsonText.IsString;
    if e.delta.Text? {
      var before: string, v: JsonText.Value, after: string :|
        && JsonText.IsWs(before) && JsonText.WellFormed(v) && JsonText.IsWs(after)
        && e.delta.bytes == before + JsonText.ValueText(v) + after;
      JsonText.QuoteTestIsStringTest(before, v, after);
    }
  }

  ghost predicate Sane(e: Event) {
    ValidDelta(e) && (e.eventType == BUNDLE && e.delta.Batch? ==> AllValid(e.delta.events))
  }

  ghost predicate SaneLog(log: seq<Event>) { forall n :: 0 <= n < |log| ==> Sane(log[n]) }

  ghost predicate ValidHub(h: MergeHub.Hub) {
    && MergeHub.Inv(h)
    && (forall i :: i in h.fifos ==> AllValid(h.fifos[i]))
    && (forall i :: i in h.hist ==> AllValid(h.hist[i].enqueued))
    && (forall n :: 0 <= n < |h.frames| ==> AllValid(Payloads(h.frames[n].items)))
  }

  ghost predicate ValidNet(net: Net) {
    && Inv(net) && JsonOnly(net.valid)
    && (forall s :: s in net.streams ==> SaneLog(net.streams[s].log))
    && (forall h :: h in net.hubs ==> ValidHub(net.hubs[h]))
    && (forall e :: e in net.given ==> ValidDelta(e))
  }

  lemma {:induction false} CollectIsValid(fifos: map<Ident, seq<Event>>, order: seq<Ident>)
    requires forall k :: 0 <= k < |order| ==> order[k] in fifos
    requires forall i :: i in fifos ==> AllValid(fifos[i])
    ensures AllValid(Payloads(MergeHub.Collect(fifos, order)))
  {
    hide ValidDelta, Join, MergeHub.HeadRun;
    if order != [] {
      CollectIsValid(fifos, order[..|order| - 1]);
      var q := fifos[order[|order| - 1]];
      if q != [] {
        HeadIsValid(q);
      }
    }
  }

  lemma HeadIsValid(q: seq<Event>)
    requires q != [] && AllValid(q)
    ensures ValidDelta(Join(MergeHub.HeadRun(q))) && AllValid(MergeHub.Rest(q))
  {
    hide ValidDelta, Join, IsRun;
    var run := MergeHub.HeadRun(q);
    assert forall n :: 0 <= n < |run| ==> run[n] == q[n];
    JoinPreservesText(run, KeyOf(q[0]));
  }

  lemma FlushStaysValid(h: MergeHub.Hub, order: seq<Ident>)
    requires ValidHub(h) && MergeHub.Enumerates(order, h.fifos.Keys)
    ensures ValidHub(MergeHub.Flush(h, order))
  {
    hide MergeHub.Collect, ValidDelta, MergeHub.Inv, MergeHub.HeadRun, MergeHub.Rest;
    CollectIsValid(h.fifos, order);
    MergeHub.FlushKeeps(h, order);
    var t := MergeHub.Flush(h, order);
    forall i | i in t.fifos ensures AllValid(t.fifos[i]) {
      if h.fifos[i] != [] {
        HeadIsValid(h.fifos[i]);
      } else {
        NothingLeft();
      }
    }
  }

  lemma NothingLeft()
    ensures MergeHub.Rest([]) == []
  {
  }

  lemma HubStaysValid(h: MergeHub.Hub, step: MergeHub.Step)
    requires ValidHub(h) && MergeHub.Legal(h, step) && (step.Enqueued? ==> ValidDelta(step.event))
    ensures ValidHub(MergeHub.Apply(h, step))
  {
    hide MergeHub.Flush, MergeHub.Inv;
    MergeHub.ApplyKeeps(h, step);
    match step
    case Flushed(order) => FlushStaysValid(h, order);
    case Enqueued(f, e) => EnqueueStaysValid(h, f, h.feeders[f].ident, e);
    case _ =>
  }

  lemma EnqueueStaysValid(h: MergeHub.Hub, f: nat, i: Ident, e: Event)
    requires ValidHub(h) && ValidDelta(e) && MergeHub.Inv(MergeHub.Enqueue(h, f, i, e))
    ensures ValidHub(MergeHub.Enqueue(h, f, i, e))
  {
    hide MergeHub.Inv;
    assert ValidDelta(MergeHub.Prepared(e, h.scope));
  }

  lemma {:induction false} DueIsValid(f: Filter, log: seq<Event>, e: Event)
    requires SaneLog(log) && e in StreamLog.Due(true, f, log)
    ensures ValidDelta(e)
  {
    hide ValidDelta;
    var front, last := log[..|log| - 1], log[|log| - 1];
    if e in StreamLog.Due(true, f, front) {
      DueIsValid(f, front, e);
    } else {
      assert Sane(last) && e in StreamLog.Shown(true, f, last);
      ShownIsValid(f, last, e);
    }
  }

  lemma ShownIsValid(f: Filter, last: Event, e: Event)
    requires Sane(last) && e in StreamLog.Shown(true, f, last)
    ensures ValidDelta(e)
  {
    if last.eventType == BUNDLE {
      var inner := Expand(last).value;
      SelectMembers(f, inner, e);
      var n :| 0 <= n < |inner| && inner[n] == e;
      assert ValidDelta(last.delta.events[n]) && e.delta == last.delta.events[n].delta;
    }
  }

  lemma ReceivedIsValid(s: StreamLog.State, id: nat, e: Event)
    requires StreamLog.Inv(s) && StreamLog.FlatLog(s.log) && SaneLog(s.log)
    requires id in s.subs && s.subs[id].spec.expanded && e in s.subs[id].received
    ensures ValidDelta(e)
  {
    hide StreamLog.Owed, StreamLog.Due, StreamLog.Subseq, ValidDelta, Sane;
    var spec := s.subs[id].spec;
    assert StreamLog.SubOk(s.subs[id], s.log);
    StreamLog.OwedOfFlatIsDue(spec, s.log);
    SubseqMember(s.subs[id].received, StreamLog.Owed(spec, s.log), e);
    var window := s.log[spec.from..];
    assert forall k :: 0 <= k < |window| ==> window[k] == s.log[spec.from + k];
    DueIsValid(spec.filter, window, e);
  }

  /** What Emit adds to a log is sane: its text is JSON, or it is a frame of valid events. */
  lemma PreparedIsSane(valid: string -> bool, ev: Event, scope: Scope, n: nat, time: nat)
    requires JsonOnly(valid) && StreamLog.Prepare(valid, ev, scope, n, time).Ok?
    requires ev.eventType == BUNDLE && ev.delta.Batch? ==> AllValid(ev.delta.events)
    ensures Sane(StreamLog.Prepare(valid, ev, scope, n, time).value)
  {
    hide IsJson, ValidDelta;
    JsonIsValid(StreamLog.Prepare(valid, ev, scope, n, time).value);
  }

  lemma StreamStaysSane(valid: string -> bool, s: StreamLog.State, step: StreamLog.Step)
    requires StreamLog.Inv(s) && GoodLog(s.log) && SaneLog(s.log) && JsonOnly(valid) && StreamLog.Legal(s, step)
    requires step.Emitted? ==> Good(step.event)
    requires step.Emitted? && step.event.eventType == BUNDLE && step.event.delta.Batch? ==>
               AllValid(step.event.delta.events)
    ensures var t := StreamLog.Apply(valid, s, step);
            SaneLog(t.log) && forall e :: e in Given(t) ==> ValidDelta(e)
  {
    hide StreamLog.Inv, StreamLog.Fanout, StreamLog.Replay, StreamLog.SendAll, StreamLog.FlatLog, StreamLog.Prepare;
    hide ValidDelta, JsonOnly, Sane;
    StreamStaysGood(valid, s, step);
    var t := StreamLog.Apply(valid, s, step);
    if step.Emitted? && StreamLog.Prepare(valid, step.event, s.scope, s.nextSeq + 1, s.nextTime + 1).Ok? {
      PreparedIsSane(valid, step.event, s.scope, s.nextSeq + 1, s.nextTime + 1);
    }
    assert SaneLog(t.log);
    GoodIsFlat(t.log);
    forall e | e in Given(t) ensures ValidDelta(e) {
      var id :| id in t.subs && t.subs[id].spec.expanded && e in t.subs[id].received;
      ReceivedIsValid(t, id, e);
    }
  }

  lemma OriginIsValid(net: Net, ev: Event, origin: Origin)
    requires ValidNet(net) && Stems(net, ev, origin) && ev.eventType == BUNDLE && ev.delta.Batch?
    ensures AllValid(ev.delta.events)
  {
    hide StreamLog.Inv, MergeHub.Inv, ValidDelta, JsonOnly;
    match origin
    case Forward(src) =>
    case Tick(h, n) => assert ValidHub(net.hubs[h]);
  }

  lemma StepKeepsValid(net: Net, step: Step)
    requires ValidNet(net) && Legal(net, step)
    ensures ValidNet(Apply(net, step))
  {
    hide Inv, StreamLog.Apply, StreamLog.Legal, MergeHub.Apply, MergeHub.Legal;
    hide Stems, Given, SaneLog, ValidHub, ValidDelta, JsonOnly, Good, GoodLog;
    StepKeeps(net, step);
    match step
    case AtStream(s, local, origin) =>
      InvParts(net, s);
      if local.Emitted? {
        OriginIsGood(net, local.event, origin);
        if local.event.eventType == BUNDLE && local.event.delta.Batch? {
          OriginIsValid(net, local.event, origin);
        }
      }
      StreamStaysSane(net.valid, net.streams[s], local);
    case AtHub(h, inner) => HubStaysValid(net.hubs[h], inner);
  }

  lemma InvParts(net: Net, s: nat)
    requires Inv(net) && s in net.streams
    ensures StreamLog.Inv(net.streams[s]) && GoodLog(net.streams[s].log)
  {
    hide StreamLog.Inv, GoodLog;
  }

  lemma {:induction false} EveryRunIsValid(nets: seq<Net>, steps: seq<Step>)
    requires Run(nets, steps) && Fresh(nets[0]) && JsonOnly(nets[0].valid)
    ensures ValidNet(nets[|steps|])
  {
    hide ValidNet, Fresh, Legal, Apply, JsonOnly;
    if steps == [] {
      FreshIsValid(nets[0]);
    } else {
      var n := |steps| - 1;
      EveryRunIsValid(nets[..n + 1], steps[..n]);
      StepKeepsValid(nets[n], steps[n]);
    }
  }

  lemma FreshIsValid(net: Net)
    requires Fresh(net) && JsonOnly(net.valid)
    ensures ValidNet(net)
  {
    hide JsonOnly;
    FreshIsInv(net);
    forall h | h in net.hubs ensures ValidHub(net.hubs[h]) {
      var scope, depth :| net.hubs[h] == MergeHub.Create(scope, depth);
      MergeHub.EveryRun([net.hubs[h]], [], scope, depth);
    }
    forall s | s in net.streams ensures SaneLog(net.streams[s].log) {
      var scope, limit :| net.streams[s] == StreamLog.Create(scope, limit);
    }
  }

  // ---------------------------------------------------------------- text, end to end

  /** The stretch of a downstream log that holds these frames in tick order, empty ones left out. */
  ghost predicate Carries(log: seq<Event>, frames: seq<MergeHub.Frame>)
    decreases |frames|
  {
    if frames == [] then log == []
    else
      var fr := frames[|frames| - 1];
      if fr.items == [] then Carries(log, frames[..|frames| - 1])
      else
        && log != [] && log[|log| - 1].eventType == BUNDLE
        && log[|log| - 1].delta == Batch(fr.tick, Payloads(fr.items))
        && Carries(log[..|log| - 1], frames[..|frames| - 1])
  }


  /** In this frame only upstream `i` has text under `k`, and every delta is valid. */
  ghost predicate OnlyFrom(i: Ident, k: JoinKey, items: seq<(Ident, Event)>) {
    && AllValid(Payloads(items))
    && forall n :: 0 <= n < |items| && items[n].0 != i ==> KeyOf(items[n].1) != k
  }

  lemma {:induction false} RescopedText(k: JoinKey, scope: Scope, es: seq<Event>)
    requires AllValid(es)
    ensures AllValid(Rescope(scope, es)) && KeyText(k, Rescope(scope, es)) == KeyText(k, es)
  {
    var out := Rescope(scope, es);
    assert forall n :: 0 <= n < |es| ==> out[n].delta == es[n].delta;
    if es != [] {
      RescopedText(k, scope, es[..|es| - 1]);
      assert out[..|es| - 1] == Rescope(scope, es[..|es| - 1]);
    }
  }

  lemma {:induction false} ItemsText(i: Ident, k: JoinKey, items: seq<(Ident, Event)>)
    requires OnlyFrom(i, k, items)
    ensures AllValid(MergeHub.ItemsIn(i, items))
    ensures KeyText(k, MergeHub.ItemsIn(i, items)) == KeyText(k, Payloads(items))
  {
    hide ValidDelta, KeyOf, TextOf;
    if items != [] {
      var front, last := items[..|items| - 1], items[|items| - 1];
      assert Payloads(items)[..|items| - 1] == Payloads(front);
      assert OnlyFrom(i, k, front) by {
        assert forall n :: 0 <= n < |front| ==> front[n] == items[n] && Payloads(front)[n] == Payloads(items)[n];
      }
      ItemsText(i, k, front);
      assert Payloads(items)[|items| - 1] == last.1;
      var mine := MergeHub.ItemsIn(i, front);
      if last.0 == i {
        assert (mine + [last.1])[..|mine|] == mine;
      } else {
        assert MergeHub.ItemsIn(i, items) == mine;
        assert KeyOf(items[|items| - 1].1) != k;
        assert KeyText(k, Payloads(items)) == KeyText(k, Payloads(front)) + [];
      }
    }
  }

  /** What one bundle owes an unfiltered expanded subscriber. */
  lemma FrameText(i: Ident, k: JoinKey, e: Event, fr: MergeHub.Frame)
    requires e.eventType == BUNDLE && e.delta == Batch(fr.tick, Payloads(fr.items)) && fr.items != []
    requires OnlyFrom(i, k, fr.items)
    ensures AllValid(StreamLog.Shown(true, ANY, e)) && AllValid(MergeHub.ItemsIn(i, fr.items))
    ensures KeyText(k, StreamLog.Shown(true, ANY, e)) == KeyText(k, MergeHub.ItemsIn(i, fr.items))
  {
    hide KeyText;
    var es := Rescope(e.scope, Payloads(fr.items));
    StreamLog.SelectAny(es);
    RescopedText(k, e.scope, Payloads(fr.items));
    ItemsText(i, k, fr.items);
  }

  lemma {:induction false} FramesText(i: Ident, k: JoinKey, log: seq<Event>, frames: seq<MergeHub.Frame>)
    requires Carries(log, frames) && forall n :: 0 <= n < |frames| ==> OnlyFrom(i, k, frames[n].items)
    ensures AllValid(StreamLog.Due(true, ANY, log)) && AllValid(MergeHub.ItemsOf(i, frames))
    ensures KeyText(k, StreamLog.Due(true, ANY, log)) == KeyText(k, MergeHub.ItemsOf(i, frames))
    decreases |frames|
  {
    hide KeyText, OnlyFrom, StreamLog.Shown, ValidDelta;
    if frames != [] {
      var front, fr := frames[..|frames| - 1], frames[|frames| - 1];
      if fr.items == [] {
        FramesText(i, k, log, front);
        assert MergeHub.ItemsOf(i, frames) == MergeHub.ItemsOf(i, front);
      } else {
        var earlier, e := log[..|log| - 1], log[|log| - 1];
        FramesText(i, k, earlier, front);
        FrameText(i, k, e, fr);
        KeyTextConcat(k, StreamLog.Due(true, ANY, earlier), StreamLog.Shown(true, ANY, e));
        KeyTextConcat(k, MergeHub.ItemsOf(i, front), MergeHub.ItemsIn(i, fr.items));
      }
    }
  }

  // ---------------------------------------------------------------- frames reach the log

  /** A frame emitted into an open stream adds one bundle to its log, which carries the tick and
      unpacks to the frame's events, all of them and in order, each as it was but for scope fields
      it lacked. */
  lemma TickMeans(net: Net, s: nat, local: StreamLog.Step, h: nat, n: nat)
    requires Inv(net) && Legal(net, AtStream(s, local, Tick(h, n))) && local.Emitted? && !net.streams[s].closed
    ensures var was, fr := net.streams[s], net.hubs[h].frames[n];
            var t := Apply(net, AtStream(s, local, Tick(h, n))).streams[s];
            && |t.log| == |was.log| + 1 && was.log <= t.log
            && var p := t.log[|was.log|];
            && p.eventType == "merge.bundle" && p.from == Source("hub", "", "") && p.status == "completed"
            && p.delta.Batch? && p.delta.tick == fr.tick && Expand(p).Ok?
            && |p.delta.events| == |Expand(p).value| == |fr.items|
            && forall k :: 0 <= k < |fr.items| ==>
                 && p.delta.events[k] == fr.items[k].1 && SameButScope(fr.items[k].1, Expand(p).value[k])
                 && Inherits(p.scope, fr.items[k].1.scope, Expand(p).value[k].scope)
  {
    hide StreamLog.Inv, StreamLog.Fanout, PlainHub, GoodLog;
    var was, t := net.streams[s], Apply(net, AtStream(s, local, Tick(h, n))).streams[s];
    var ev := FrameEvent(net.hubs[h].frames[n]);
    assert local.event == ev;
    assert StreamLog.Prepare(net.valid, ev, was.scope, was.nextSeq + 1, was.nextTime + 1).Ok?;
    ExpandMeans(t.log[|was.log|]);
  }

  /** A merge may forward whatever its upstream subscription ever received, also after that
      subscription is gone. */
  lemma {:induction false} GivenGrows(nets: seq<Net>, steps: seq<Step>, k: nat, s: nat, id: nat, e: Event)
    requires Run(nets, steps) && Fresh(nets[0]) && k < |nets| && s in nets[k].streams && id in nets[k].streams[s].subs
    requires var sub := nets[k].streams[s].subs[id]; sub.spec.expanded && e in sub.received
    ensures e in nets[|steps|].given
  {
    hide Legal, StreamLog.Apply, MergeHub.Apply;
    var n := |steps|;
    if n > 0 {
      var was, step := nets[n - 1], steps[n - 1];
      assert Legal(was, step) && nets[n] == Apply(was, step);
      if k < n {
        GivenGrows(nets[..n], steps[..n - 1], k, s, id, e);
      } else if s in was.streams && was.streams[s] == nets[n].streams[s] {
        GivenGrows(nets[..n], steps[..n - 1], n - 1, s, id, e);
      }
    }
  }

  /** Every emission into stream `s` is a frame of hub `h`. */
  ghost predicate OnlyTicks(steps: seq<Step>, s: nat, h: nat) {
    forall k :: 0 <= k < |steps| && steps[k].AtStream? && steps[k].stream == s && steps[k].local.Emitted? ==>
      steps[k].origin.Tick? && steps[k].origin.hub == h
  }

  /** The frames emitted into stream `s`, in the order they were emitted. */
  function TickList(steps: seq<Step>, s: nat): seq<nat> {
    if steps == [] then []
    else
      var step := steps[|steps| - 1];
      TickList(steps[..|steps| - 1], s) +
      if step.AtStream? && step.stream == s && step.local.Emitted? && step.origin.Tick? then [step.origin.frame] else []
  }

  /** All frames that have events, in tick order. */
  function TickOrder(frames: seq<MergeHub.Frame>): seq<nat> {
    if frames == [] then []
    else TickOrder(frames[..|frames| - 1]) + if frames[|frames| - 1].items != [] then [|frames| - 1] else []
  }

  function FramesAt(frames: seq<MergeHub.Frame>, ns: seq<nat>): seq<MergeHub.Frame>
    requires forall k :: 0 <= k < |ns| ==> ns[k] < |frames|
  {
    seq(|ns|, k requires 0 <= k < |ns| => frames[ns[k]])
  }

  lemma FramesGrow(h: MergeHub.Hub, step: MergeHub.Step)
    requires MergeHub.Legal(h, step)
    ensures h.frames <= MergeHub.Apply(h, step).frames
  {
    hide MergeHub.Collect, MergeHub.Drained, MergeHub.Took;
  }

  lemma NetFramesGrow(net: Net, step: Step, h: nat)
    requires Legal(net, step) && h in net.hubs
    ensures h in Apply(net, step).hubs && net.hubs[h].frames <= Apply(net, step).hubs[h].frames
  {
    hide StreamLog.Apply, StreamLog.Legal, MergeHub.Apply, MergeHub.Legal, Stems;
    if step.AtHub? && step.hub == h {
      FramesGrow(net.hubs[h], step.inner);
    }
  }

  ghost predicate Listed(frames: seq<MergeHub.Frame>, ns: seq<nat>, log: seq<Event>) {
    (forall k :: 0 <= k < |ns| ==> ns[k] < |frames|) && Carries(log, FramesAt(frames, ns))
  }

  lemma ListedGrows(frames: seq<MergeHub.Frame>, more: seq<MergeHub.Frame>, ns: seq<nat>, log: seq<Event>)
    requires Listed(frames, ns, log) && frames <= more
    ensures Listed(more, ns, log)
  {
    assert FramesAt(more, ns) == FramesAt(frames, ns);
  }

  lemma ListedMore(frames: seq<MergeHub.Frame>, ns: seq<nat>, log: seq<Event>, n: nat, p: Event)
    requires Listed(frames, ns, log) && n < |frames| && frames[n].items != []
    requires p.eventType == BUNDLE && p.delta == Batch(frames[n].tick, Payloads(frames[n].items))
    ensures Listed(frames, ns + [n], log + [p])
  {
    hide Carries;
    var all := FramesAt(frames, ns + [n]);
    assert all == FramesAt(frames, ns) + [frames[n]];
    CarriesMore(log, FramesAt(frames, ns), p, frames[n]);
  }

  lemma CarriesMore(log: seq<Event>, frames: seq<MergeHub.Frame>, p: Event, fr: MergeHub.Frame)
    requires Carries(log, frames) && fr.items != []
    requires p.eventType == BUNDLE && p.delta == Batch(fr.tick, Payloads(fr.items))
    ensures Carries(log + [p], frames + [fr])
  {
    assert (log + [p])[..|log|] == log && (frames + [fr])[..|frames|] == frames;
  }

  lemma ListedNothing(frames: seq<MergeHub.Frame>)
    ensures Listed(frames, [], [])
  {
    assert FramesAt(frames, []) == [];
  }

  /** What one step of the network does to the log of a stream fed by one hub. */
  lemma StepListed(net: Net, step: Step, s: nat, h: nat, ns: seq<nat>)
    requires Inv(net) && Legal(net, step) && s in net.streams && h in net.hubs
    requires Listed(net.hubs[h].frames, ns, net.streams[s].log)
    requires OnlyTicks([step], s, h) && !Apply(net, step).streams[s].closed
    ensures s in Apply(net, step).streams && h in Apply(net, step).hubs
    ensures Listed(Apply(net, step).hubs[h].frames, ns + TickList([step], s), Apply(net, step).streams[s].log)
  {
    hide Inv, Listed, Stems, StreamLog.Apply, StreamLog.Legal, MergeHub.Apply, MergeHub.Legal, Carries, TickList;
    NetFramesGrow(net, step, h);
    var t := Apply(net, step);
    ListedGrows(net.hubs[h].frames, t.hubs[h].frames, ns, net.streams[s].log);
    OneTick(step, s);
    assert [step][0] == step && ns + [] == ns;
    if step.AtStream? && step.stream == s {
      InvParts(net, s);
      StreamLog.StepLog(net.valid, net.streams[s], step.local);
      if step.local.Emitted? {
        var n := step.origin.frame;
        TickMeans(net, s, step.local, h, n);
        StemsFrame(net, step.local.event, h, n);
        var was, log := net.streams[s].log, t.streams[s].log;
        var p := log[|was|];
        assert log == was + [p];
        assert p.delta.events == Payloads(net.hubs[h].frames[n].items);
        ListedMore(t.hubs[h].frames, ns, was, n, p);
      } else {
        assert t.streams[s].log == net.streams[s].log;
      }
    } else {
      assert t.streams[s] == net.streams[s];
    }
  }

  lemma OneTick(step: Step, s: nat)
    ensures TickList([step], s) ==
            if step.AtStream? && step.stream == s && step.local.Emitted? && step.origin.Tick?
            then [step.origin.frame]
            else []
  {
    assert [step][..0] == [] && TickList([], s) == [];
  }

  lemma StemsFrame(net: Net, ev: Event, h: nat, n: nat)
    requires Stems(net, ev, Tick(h, n))
    ensures h in net.hubs && n < |net.hubs[h].frames| && net.hubs[h].frames[n].items != []
  {
  }

  /** The log of an open stream that only the frames of one hub are emitted into carries those
      frames, in the order they were emitted. */
  lemma {:induction false} LogCarries(nets: seq<Net>, steps: seq<Step>, s: nat, h: nat)
    requires Run(nets, steps) && Fresh(nets[0]) && s in nets[0].streams && h in nets[0].hubs && OnlyTicks(steps, s, h)
    ensures s in nets[|steps|].streams && h in nets[|steps|].hubs
    ensures !nets[|steps|].streams[s].closed ==>
              Listed(nets[|steps|].hubs[h].frames, TickList(steps, s), nets[|steps|].streams[s].log)
  {
    hide Legal, Apply, Inv, Listed;
    if steps == [] {
      FreshLog(nets[0], s);
      ListedNothing(nets[0].hubs[h].frames);
    } else {
      var n := |steps| - 1;
      var front, step := steps[..n], steps[n];
      assert OnlyTicks(front, s, h) && OnlyTicks([step], s, h);
      LogCarries(nets[..n + 1], front, s, h);
      EveryRun(nets[..n + 1], front);
      KeysStay(nets[n], step, s, h);
      if !nets[n + 1].streams[s].closed {
        StepListed(nets[n], step, s, h, TickList(front, s));
        OneTick(step, s);
      }
    }
  }

  lemma FreshLog(net: Net, s: nat)
    requires Fresh(net) && s in net.streams
    ensures net.streams[s].log == []
  {
    var scope, limit :| net.streams[s] == StreamLog.Create(scope, limit);
  }

  lemma KeysStay(net: Net, step: Step, s: nat, h: nat)
    requires Inv(net) && Legal(net, step) && s in net.streams && h in net.hubs
    ensures s in Apply(net, step).streams && h in Apply(net, step).hubs
    ensures net.streams[s].closed ==> Apply(net, step).streams[s].closed
  {
    hide StreamLog.Apply, StreamLog.Legal, MergeHub.Apply, MergeHub.Legal, Stems, Inv;
    if step.AtStream? && step.stream == s {
      InvParts(net, s);
      StreamLog.StepLog(net.valid, net.streams[s], step.local);
    }
  }

  /** Frames emitted in tick order, none left out, are the frames. */
  lemma {:induction false} OrderCarries(log: seq<Event>, frames: seq<MergeHub.Frame>)
    requires Listed(frames, TickOrder(frames), log)
    ensures Carries(log, frames)
  {
    if frames != [] {
      var front, fr := frames[..|frames| - 1], frames[|frames| - 1];
      TickOrderBound(front);
      if fr.items == [] {
        assert TickOrder(frames) == TickOrder(front);
        assert FramesAt(frames, TickOrder(frames)) == FramesAt(front, TickOrder(front));
        OrderCarries(log, front);
      } else {
        var ns := TickOrder(front);
        var all := FramesAt(frames, TickOrder(frames));
        assert all == FramesAt(front, ns) + [fr];
        assert all[..|ns|] == FramesAt(front, ns);
        OrderCarries(log[..|log| - 1], front);
      }
    }
  }

  lemma {:induction false} TickOrderBound(frames: seq<MergeHub.Frame>)
    ensures forall k :: 0 <= k < |TickOrder(frames)| ==> TickOrder(frames)[k] < |frames|
  {
    if frames != [] {
      TickOrderBound(frames[..|frames| - 1]);
    }
  }

  /** From the log entry after the frames before `since` on, the log carries the frames since. */
  lemma {:induction false} CarriesSince(log: seq<Event>, frames: seq<MergeHub.Frame>, since: nat)
    requires Carries(log, frames) && since <= |frames|
    ensures |TickOrder(frames[..since])| <= |log|
    ensures Carries(log[|TickOrder(frames[..since])|..], frames[since..])
    decreases |frames|
  {
    if since == |frames| {
      assert frames[..since] == frames && frames[since..] == [];
      CarriesCount(log, frames);
    } else {
      var front, fr := frames[..|frames| - 1], frames[|frames| - 1];
      assert front[..since] == frames[..since] && frames[since..] == front[since..] + [fr];
      var c := |TickOrder(frames[..since])|;
      if fr.items == [] {
        CarriesSince(log, front, since);
        CarriesEmpty(log[c..], front[since..], fr);
      } else {
        var earlier, p := log[..|log| - 1], log[|log| - 1];
        CarriesSince(earlier, front, since);
        assert log[c..] == earlier[c..] + [p];
        CarriesMore(earlier[c..], front[since..], p, fr);
      }
    }
  }

  lemma CarriesEmpty(log: seq<Event>, frames: seq<MergeHub.Frame>, fr: MergeHub.Frame)
    requires Carries(log, frames) && fr.items == []
    ensures Carries(log, frames + [fr])
  {
    assert (frames + [fr])[..|frames|] == frames;
  }

  lemma {:induction false} CarriesCount(log: seq<Event>, frames: seq<MergeHub.Frame>)
    requires Carries(log, frames)
    ensures |log| == |TickOrder(frames)|
    decreases |frames|
  {
    if frames != [] {
      CarriesCount(if frames[|frames| - 1].items == [] then log else log[..|log| - 1], frames[..|frames| - 1]);
    }
  }

  // ---------------------------------------------------------------- a hub's own run

  function HubSteps(steps: seq<Step>, h: nat): seq<MergeHub.Step> {
    if steps == [] then []
    else
      var step := steps[|steps| - 1];
      HubSteps(steps[..|steps| - 1], h) + if step.AtHub? && step.hub == h then [step.inner] else []
  }

  /** A hub's part of a network run is a run of that hub. */
  lemma {:induction false} HubRun(nets: seq<Net>, steps: seq<Step>, h: nat, hubs: seq<MergeHub.Hub>)
    requires Run(nets, steps) && h in nets[0].hubs
    requires MergeHub.Run(hubs, HubSteps(steps, h)) && hubs[0] == nets[0].hubs[h]
    ensures h in nets[|steps|].hubs && hubs[|HubSteps(steps, h)|] == nets[|steps|].hubs[h]
  {
    hide StreamLog.Apply, StreamLog.Legal, MergeHub.Apply, MergeHub.Legal, Stems;
    if steps != [] {
      var n := |steps| - 1;
      var front, mine := steps[..n], HubSteps(steps[..n], h);
      var part := hubs[..|mine| + 1];
      assert MergeHub.Run(part, mine);
      HubRun(nets[..n + 1], front, h, part);
      assert part[|mine|] == hubs[|mine|];
    }
  }

  lemma {:induction false} FedIsGiven(hubs: seq<MergeHub.Hub>, steps: seq<MergeHub.Step>, i: Ident, e: Event)
    requires |hubs| == |steps| + 1 && e in MergeHub.Fed(hubs, steps, i)
    ensures exists k :: 0 <= k < |steps| && steps[k].Enqueued? && steps[k].event == e
  {
    var n := |steps| - 1;
    if e in MergeHub.Fed(hubs[..n + 1], steps[..n], i) {
      FedIsGiven(hubs[..n + 1], steps[..n], i, e);
      var k :| 0 <= k < n && steps[..n][k].Enqueued? && steps[..n][k].event == e;
      assert steps[k].event == e;
    } else {
      assert steps[n].Enqueued? && steps[n].event == e;
    }
  }

  lemma {:induction false} HubStepsAreValid(nets: seq<Net>, steps: seq<Step>, h: nat, k: nat)
    requires Run(nets, steps) && Fresh(nets[0]) && JsonOnly(nets[0].valid)
    requires k < |HubSteps(steps, h)| && HubSteps(steps, h)[k].Enqueued?
    ensures ValidDelta(HubSteps(steps, h)[k].event)
  {
    hide ValidDelta, JsonOnly, Fresh, Inv, StreamLog.Legal, MergeHub.Legal, StreamLog.Apply, MergeHub.Apply, Stems;
    var n := |steps| - 1;
    if k < |HubSteps(steps[..n], h)| {
      HubStepsAreValid(nets[..n + 1], steps[..n], h, k);
    } else {
      EveryRunIsValid(nets[..n + 1], steps[..n]);
      GivenAreValid(nets[n], steps[n].inner.event);
    }
  }

  lemma GivenAreValid(net: Net, e: Event)
    requires ValidNet(net) && e in net.given
    ensures ValidDelta(e)
  {
    hide ValidDelta, Inv, JsonOnly;
  }

  /** In this frame only upstream `i` has text under `k`. */
  ghost predicate OnlyKey(i: Ident, k: JoinKey, items: seq<(Ident, Event)>) {
    forall n :: 0 <= n < |items| && items[n].0 != i ==> KeyOf(items[n].1) != k
  }

  /** End to end, in every run of a network whose Emit accepts only JSON: into a stream go the
      frames of one hub, in tick order and none left out; where one upstream of the hub alone has
      text under a key, an expanded subscriber that gets what the stream's log owes it reads
      exactly the text the upstream gave, up to what is still queued. */
  lemma SubscriberReadsText(
    nets: seq<Net>, steps: seq<Step>, s: nat, hub: nat, hubs: seq<MergeHub.Hub>, i: Ident, k: JoinKey
  )
    requires Run(nets, steps) && Fresh(nets[0]) && JsonOnly(nets[0].valid)
    requires s in nets[0].streams && hub in nets[0].hubs && OnlyTicks(steps, s, hub)
    requires s in nets[|steps|].streams && hub in nets[|steps|].hubs && !nets[|steps|].streams[s].closed
    requires TickList(steps, s) == TickOrder(nets[|steps|].hubs[hub].frames)
    requires MergeHub.Run(hubs, HubSteps(steps, hub)) && hubs[0] == nets[0].hubs[hub]
    requires var h := nets[|steps|].hubs[hub];
             && i in h.hist && h.hist[i].since <= |h.frames|
             && forall n :: h.hist[i].since <= n < |h.frames| ==> OnlyKey(i, k, h.frames[n].items)
    ensures var h, log := nets[|steps|].hubs[hub], nets[|steps|].streams[s].log;
            var given := MergeHub.Fed(hubs, HubSteps(steps, hub), i);
            var from, queue := |TickOrder(h.frames[..h.hist[i].since])|, MergeHub.Queue(h.fifos, i);
            && from <= |log| && |queue| <= |given|
            && AllValid(StreamLog.Due(true, ANY, log[from..])) && AllValid(given)
            && KeyText(k, StreamLog.Due(true, ANY, log[from..])) == KeyText(k, given[..|given| - |queue|])
  {
    hide ValidNet, Legal, Apply, Fresh, JsonOnly, MergeHub.Legal, MergeHub.Apply, Carries, Listed, ValidDelta, KeyText;
    hide StreamLog.Due, OnlyTicks, TickOrder, TickList, HubSteps;
    var h, log, mine := nets[|steps|].hubs[hub], nets[|steps|].streams[s].log, HubSteps(steps, hub);
    LogCarries(nets, steps, s, hub);
    OrderCarries(log, h.frames);
    CarriesSince(log, h.frames, h.hist[i].since);
    EveryRunIsValid(nets, steps);
    HubIsValid(nets[|steps|], hub);
    HubText(h, i, k, log[|TickOrder(h.frames[..h.hist[i].since])|..]);
    HubRun(nets, steps, hub, hubs);
    FedAreValid(nets, steps, hub, hubs, i);
    var scope, depth := FreshHub(nets[0], hub);
    MergeHub.EnqueuedIsFed(hubs, mine, scope, depth, i);
    GivenText(h, MergeHub.Fed(hubs, mine, i), i, k);
  }

  lemma FreshHub(net: Net, h: nat) returns (scope: Scope, depth: nat)
    requires Fresh(net) && h in net.hubs
    ensures net.hubs[h] == MergeHub.Create(scope, depth)
  {
    var a, b :| net.hubs[h] == MergeHub.Create(a, b);
    scope, depth := a, b;
  }

  lemma FedAreValid(nets: seq<Net>, steps: seq<Step>, hub: nat, hubs: seq<MergeHub.Hub>, i: Ident)
    requires Run(nets, steps) && Fresh(nets[0]) && JsonOnly(nets[0].valid)
    requires |hubs| == |HubSteps(steps, hub)| + 1
    ensures AllValid(MergeHub.Fed(hubs, HubSteps(steps, hub), i))
  {
    hide ValidDelta, Legal, Apply, Fresh, JsonOnly, HubSteps;
    var mine := HubSteps(steps, hub);
    var given := MergeHub.Fed(hubs, mine, i);
    forall n | 0 <= n < |given| ensures ValidDelta(given[n]) {
      FedIsGiven(hubs, mine, i, given[n]);
      var k :| 0 <= k < |mine| && mine[k].Enqueued? && mine[k].event == given[n];
      HubStepsAreValid(nets, steps, hub, k);
    }
  }

  /** The text of what was sent is the text of what was given. */
  lemma GivenText(h: MergeHub.Hub, given: seq<Event>, i: Ident, k: JoinKey)
    requires i in h.hist && AllValid(given) && MergeHub.Matches(h.scope, given, h.hist[i].enqueued)
    requires |MergeHub.Queue(h.fifos, i)| <= |h.hist[i].enqueued|
    ensures var m := |given| - |MergeHub.Queue(h.fifos, i)|;
            && m >= 0 && |given| == |h.hist[i].enqueued| && AllValid(h.hist[i].enqueued)
            && KeyText(k, h.hist[i].enqueued[..m]) == KeyText(k, given[..m])
  {
    hide ValidDelta, KeyText, MergeHub.Forwarded;
    var sent, m := h.hist[i].enqueued, |given| - |MergeHub.Queue(h.fifos, i)|;
    assert MergeHub.Matches(h.scope, given[..m], sent[..m]);
    MergeHub.ForwardedText(h.scope, given, sent, k);
    MergeHub.ForwardedText(h.scope, given[..m], sent[..m], k);
  }

  /** A directly forwarded event is the one received but for its number, which moves to the
      metadata. */
  lemma DirectMeans(e: Event)
    ensures var p := DirectEvent(e);
            && p.(sequence := e.sequence, metadata := e.metadata) == e && p.sequence == 0
            && p.metadata.Keys == e.metadata.Keys + {"upstream_sequence_number"}
            && p.metadata["upstream_sequence_number"] == Num(e.sequence)
            && forall k :: k in e.metadata && k != "upstream_sequence_number" ==> p.metadata[k] == e.metadata[k]
  {
  }

  lemma HubIsValid(net: Net, hub: nat)
    requires ValidNet(net) && hub in net.hubs
    ensures ValidHub(net.hubs[hub])
  {
    hide ValidHub, Inv, JsonOnly;
  }

  lemma HubText(h: MergeHub.Hub, i: Ident, k: JoinKey, log: seq<Event>)
    requires ValidHub(h) && i in h.hist && h.hist[i].since <= |h.frames| && Carries(log, h.frames[h.hist[i].since..])
    requires forall n :: h.hist[i].since <= n < |h.frames| ==> OnlyKey(i, k, h.frames[n].items)
    ensures var queue, sent := MergeHub.Queue(h.fifos, i), h.hist[i].enqueued;
            && |queue| <= |sent| && AllValid(StreamLog.Due(true, ANY, log)) && AllValid(sent)
            && KeyText(k, StreamLog.Due(true, ANY, log)) == KeyText(k, sent[..|sent| - |queue|])
  {
    hide KeyText, ValidDelta, Carries, StreamLog.Due, MergeHub.Inv;
    var frames := h.frames[h.hist[i].since..];
    forall n | 0 <= n < |frames| ensures OnlyFrom(i, k, frames[n].items) {
      assert frames[n] == h.frames[h.hist[i].since + n];
    }
    FramesText(i, k, log, frames);
    MergeHub.InvConserves(h, i, k);
  }
}
