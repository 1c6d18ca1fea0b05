/** The append-only stream (stream/stream.go, stream/subscription.go): a sequenced log with a
    bounded replay buffer and filtered subscribers. Every region run under the delivery lock is
    one step; Go's random choice among ready `select` cases and the random order of map
    iteration are parameters of the step. Beside the source's fields the state keeps two
    histories for the theorems: `log`, every event ever emitted, and each subscriber's
    `received`, every event ever put on its channel. */
module StreamLog {
  import opened Wrappers
  import opened StreamEvents

  /** The fixed part of a subscription; `from` is where in the log its replay began and `live`
      where live delivery took over. */
  datatype Spec = Spec(filter: Filter, expanded: bool, capacity: nat, failOnOverflow: bool, from: nat, live: nat)

  datatype Sub = Sub(spec: Spec, queue: seq<Event>, done: bool, received: seq<Event>)

  datatype Settings = Settings(replayFrom: nat, replayLast: nat, noReplay: bool, buffer: int,
                               failOnOverflow: bool, raw: bool)

  /** `stuck`: a call blocked forever while holding the delivery lock, so nothing further happens. */
  datatype State = State(scope: Scope, limit: nat, nextSeq: nat, nextTime: nat, nextSub: nat, closed: bool,
                         buffer: seq<Event>, subs: map<nat, Sub>, log: seq<Event>, stuck: bool)

  function Create(scope: Scope, limit: nat): State { State(scope, limit, 0, 0, 0, false, [], map[], [], false) }

  // ---------------------------------------------------------------- preparing and buffering

  /** Event.prepare; `valid` stands for json.Valid. */
  function Prepare(valid: string -> bool, ev: Event, scope: Scope, sequence: nat, time: nat): Result<Event> {
    if ev.eventType == "" || ev.from.layer == "" || ev.status == "" then Err
    else if ev.delta.Text? && !valid(ev.delta.bytes) then Err
    else Ok(ev.(sequence := sequence, logicalTime := time, scope := MergeScope(scope, ev.scope)))
  }

  function Append(buffer: seq<Event>, limit: nat, ev: Event): seq<Event> {
    if limit == 0 then buffer
    else if |buffer| == limit then buffer[1..] + [ev]
    else buffer + [ev]
  }

  function Last(log: seq<Event>, limit: nat): seq<Event> {
    if |log| <= limit then log else log[|log| - limit..]
  }

  // ---------------------------------------------------------------- delivery

  /** Which ready case a `select` takes: the channel send when possible, or done, or the context. */
  datatype Pick = Eager | ByDone | ByCtx
  datatype Verdict = Next | Quit | Fail

  function Offer(sub: Sub, e: Event, ctxDone: bool, pick: Pick): (Sub, Verdict) {
    if pick == ByDone && sub.done then (sub, Quit)
    else if pick == ByCtx && ctxDone then (sub, Fail)
    else if |sub.queue| < sub.spec.capacity then (sub.(queue := sub.queue + [e], received := sub.received + [e]), Next)
    else if sub.done then (sub, Quit)
    else if ctxDone || sub.spec.failOnOverflow then (sub, Fail)
    else (sub, Next)
  }

  function OfferAll(sub: Sub, es: seq<Event>, ctxDone: bool, picks: nat -> Pick): (Sub, Verdict)
    decreases |es|
  {
    if es == [] then (sub, Next)
    else
      var (s, v) := Offer(sub, es[0], ctxDone, picks(|es|));
      if v == Next then OfferAll(s, es[1..], ctxDone, picks) else (s, v)
  }

  /** What `send` tries to put on the channel. */
  function Payload(expanded: bool, f: Filter, e: Event): Result<seq<Event>> {
    if expanded && e.eventType == BUNDLE then FilterBundle(e, f) else Ok([e])
  }

  function Send(sub: Sub, e: Event, ctxDone: bool, picks: nat -> Pick): (Sub, bool) {
    match Payload(sub.spec.expanded, sub.spec.filter, e)
    case Err => (sub, false)
    case Ok(es) =>
      var (s, v) := OfferAll(sub, es, ctxDone, picks);
      (s, v != Fail)
  }

  predicate Wants(expanded: bool, f: Filter, e: Event) { (expanded && e.eventType == BUNDLE) || Match(f, e) }

  /** Emit's fan-out in the order the subscriber map happened to be ranged; the first error ends it. */
  function Fanout(subs: map<nat, Sub>, order: seq<nat>, e: Event, ctxDone: bool, picks: (nat, nat) -> Pick)
    : map<nat, Sub>
    requires forall i :: 0 <= i < |order| ==> order[i] in subs
    decreases |order|
  {
    if order == [] then subs
    else
      var id := order[0];
      if !Wants(subs[id].spec.expanded, subs[id].spec.filter, e) then Fanout(subs, order[1..], e, ctxDone, picks)
      else
        var (s, ok) := Send(subs[id], e, ctxDone, (k: nat) => picks(id, k));
        if ok then Fanout(subs[id := s], order[1..], e, ctxDone, picks) else subs[id := s]
  }

  /** Whether the fan-out gets through without an error. */
  predicate Delivered(subs: map<nat, Sub>, order: seq<nat>, e: Event, ctxDone: bool, picks: (nat, nat) -> Pick)
    requires forall i :: 0 <= i < |order| ==> order[i] in subs
    decreases |order|
  {
    order == [] ||
    var id := order[0];
    if !Wants(subs[id].spec.expanded, subs[id].spec.filter, e) then Delivered(subs, order[1..], e, ctxDone, picks)
    else
      var (s, ok) := Send(subs[id], e, ctxDone, (k: nat) => picks(id, k));
      ok && Delivered(subs[id := s], order[1..], e, ctxDone, picks)
  }

  predicate Enumerates(order: seq<nat>, keys: set<nat>) {
    && (forall i :: 0 <= i < |order| ==> order[i] in keys)
    && (forall k :: k in keys ==> k in order)
    && (forall i, j :: 0 <= i < j < |order| ==> order[i] != order[j])
  }

  function Emit(valid: string -> bool, s: State, ev: Event, ctxDone: bool, order: seq<nat>, picks: (nat, nat) -> Pick)
    : State
    requires Enumerates(order, s.subs.Keys)
  {
    if s.closed then s
    else
      match Prepare(valid, ev, s.scope, s.nextSeq + 1, s.nextTime + 1)
      case Err => s
      case Ok(p) => s.(nextSeq := s.nextSeq + 1, nextTime := s.nextTime + 1, buffer := Append(s.buffer, s.limit, p),
                       log := s.log + [p], subs := Fanout(s.subs, order, p, ctxDone, picks))
  }

  // ---------------------------------------------------------------- replay

  function DefaultReplayStart(s: State): nat {
    if |s.buffer| > 0 && s.buffer[0].sequence > 0 then s.buffer[0].sequence
    else if s.limit == 0 || s.nextSeq == 0 then 0
    else if s.nextSeq > s.limit then s.nextSeq - s.limit + 1
    else 1
  }

  function ReplayStart(s: State, opts: Settings): nat {
    if opts.noReplay then 0
    else if opts.replayFrom == 0 && opts.replayLast == 0 then DefaultReplayStart(s)
    else if opts.replayLast > 0 && s.nextSeq > 0 then
      var lastFrom := if s.nextSeq >= opts.replayLast then s.nextSeq - opts.replayLast + 1 else 1;
      if lastFrom > opts.replayFrom then lastFrom else opts.replayFrom
    else opts.replayFrom
  }

  function RawReplay(s: State, f: Filter, opts: Settings): seq<Event> {
    if ReplayStart(s, opts) == 0 then [] else Select(f, From(s.buffer, ReplayStart(s, opts)))
  }

  /** Bundles expanded, then filtered; a malformed bundle fails the whole replay. */
  function Logical(f: Filter, raw: seq<Event>): Result<seq<Event>> {
    if raw == [] then Ok([])
    else
      match (Logical(f, raw[..|raw| - 1]), FilterBundle(raw[|raw| - 1], f))
      case (Ok(a), Ok(b)) => Ok(a + b)
      case _ => Err
  }

  function Replay(s: State, f: Filter, opts: Settings): Result<seq<Event>> {
    if opts.raw then Ok(RawReplay(s, f, opts)) else Logical(f, RawReplay(s, ANY, opts))
  }

  // ---------------------------------------------------------------- subscribing

  function SendAll(sub: Sub, es: seq<Event>, picks: nat -> Pick): (Sub, bool)
    decreases |es|
  {
    if es == [] then (sub, true)
    else
      var (s, ok) := Send(sub, es[0], false, picks);
      if ok then SendAll(s, es[1..], picks) else (s, false)
  }

  function NewSub(n: nat, limit: nat, f: Filter, opts: Settings, replay: seq<Event>): Sub {
    var want: nat := if opts.buffer < 0 then 0 else opts.buffer;
    var capacity := if opts.raw && want < |replay| then |replay| else want;
    Sub(Spec(f, !opts.raw, capacity, opts.failOnOverflow, Window(n, limit, opts), n), [], false, [])
  }

  function Subscribe(s: State, f: Filter, opts: Settings, picks: nat -> Pick): State {
    if s.closed then s
    else
      match Replay(s, f, opts)
      case Err => s
      case Ok(replay) =>
        var (sub, ok) := SendAll(NewSub(s.nextSeq, s.limit, f, opts, replay), replay, picks);
        s.(nextSub := s.nextSub + 1, subs := s.subs[s.nextSub + 1 := sub], stuck := !ok)
  }

  // ---------------------------------------------------------------- specification

  /** Where the requested replay window starts in a log of `n` events: inside the last `limit`, not
      before `replayFrom`, and within the last `replayLast`. */
  function Window(n: nat, limit: nat, opts: Settings): nat {
    if opts.noReplay then n
    else
      var recent := if opts.replayLast > 0 then n - opts.replayLast else 0;
      Min(n, Max(0, Max(n - limit, Max(opts.replayFrom - 1, recent))))
  }

  function Max(a: int, b: int): int { if a > b then a else b }
  function Min(a: int, b: int): int { if a < b then a else b }

  /** What one logged event owes a subscriber. */
  function Shown(expanded: bool, f: Filter, e: Event): seq<Event> {
    if !Wants(expanded, f, e) then []
    else match Payload(expanded, f, e) case Err => [] case Ok(es) => es
  }

  /** filter-after-expand over a stretch of the log. */
  function Due(expanded: bool, f: Filter, log: seq<Event>): seq<Event> {
    if log == [] then [] else Due(expanded, f, log[..|log| - 1]) + Shown(expanded, f, log[|log| - 1])
  }

  /** What catch-up puts on the channel for already expanded events: `send` expands a bundle
      found among them once more. */
  function Resent(expanded: bool, f: Filter, es: seq<Event>): seq<Event>
    decreases |es|
  {
    if es == [] then []
    else (match Payload(expanded, f, es[0]) case Err => [] case Ok(p) => p) + Resent(expanded, f, es[1..])
  }

  /** What a subscription is owed in all: its catch-up, then every live event. */
  function Owed(spec: Spec, log: seq<Event>): seq<Event>
    requires spec.from <= spec.live <= |log|
  {
    Resent(spec.expanded, spec.filter, Due(spec.expanded, spec.filter, log[spec.from..spec.live])) +
    Due(spec.expanded, spec.filter, log[spec.live..])
  }

  /** `a` can be got from `b` by leaving events out. */
  ghost predicate Subseq(a: seq<Event>, b: seq<Event>) {
    a == [] ||
    (b != [] && ((a[|a| - 1] == b[|b| - 1] && Subseq(a[..|a| - 1], b[..|b| - 1])) || Subseq(a, b[..|b| - 1])))
  }

  /** A bundle holds no bundle. */
  predicate Flat(e: Event) {
    e.delta.Batch? ==> forall i :: 0 <= i < |e.delta.events| ==> e.delta.events[i].eventType != BUNDLE
  }

  ghost predicate FlatLog(log: seq<Event>) {
    forall i :: 0 <= i < |log| && log[i].eventType == BUNDLE ==> Flat(log[i])
  }

  ghost predicate SubOk(sub: Sub, log: seq<Event>) {
    && sub.spec.from <= sub.spec.live <= |log|
    && |sub.queue| <= sub.spec.capacity
    && Subseq(sub.received, Owed(sub.spec, log))
  }

  ghost predicate LogOk(s: State) {
    && s.nextSeq == s.nextTime == |s.log|
    && (forall i :: 0 <= i < |s.log| ==> s.log[i].sequence == s.log[i].logicalTime == i + 1)
    && s.buffer == Last(s.log, s.limit)
  }

  ghost predicate Inv(s: State) {
    && LogOk(s)
    && (forall id :: id in s.subs ==> id <= s.nextSub && SubOk(s.subs[id], s.log))
  }

  // ---------------------------------------------------------------- replay lemmas

  lemma DueAppend(expanded: bool, f: Filter, log: seq<Event>, e: Event)
    ensures Due(expanded, f, log + [e]) == Due(expanded, f, log) + Shown(expanded, f, e)
  {
    assert (log + [e])[..|log|] == log;
  }

  lemma {:induction false} SelectAny(log: seq<Event>)
    ensures Select(ANY, log) == log
  {
    if log != [] {
      SelectAny(log[..|log| - 1]);
    }
  }

  lemma WindowStart(s: State, opts: Settings)
    requires LogOk(s)
    ensures var from := ReplayStart(s, opts);
            Window(s.nextSeq, s.limit, opts) ==
            if from == 0 then |s.log| else Min(|s.log|, Max(|s.log| - |s.buffer|, from - 1))
  {
    if |s.buffer| > 0 {
      assert s.buffer[0] == s.log[|s.log| - |s.buffer|];
    }
  }

  /** Replay returns exactly the matching events of the requested window, cut to what is buffered. */
  lemma RawReplayIsWindow(s: State, f: Filter, opts: Settings)
    requires LogOk(s)
    ensures Window(s.nextSeq, s.limit, opts) <= |s.log|
    ensures RawReplay(s, f, opts) == Select(f, s.log[Window(s.nextSeq, s.limit, opts)..])
  {
    hide ReplayStart, Window, From;
    WindowStart(s, opts);
    var from, base, w := ReplayStart(s, opts), |s.log| - |s.buffer|, Window(s.nextSeq, s.limit, opts);
    assert s.buffer == s.log[base..];
    if from == 0 {
      assert s.log[w..] == [];
    } else {
      FromIsSuffix(s.buffer, from, w - base);
      assert s.buffer[w - base..] == s.log[w..];
    }
  }

  /** Logical replay is expand-then-filter of the raw replay of the same window. */
  lemma {:induction false} LogicalIsDue(f: Filter, raw: seq<Event>)
    ensures Logical(f, raw).Ok? <==> forall i :: 0 <= i < |raw| ==> Expand(raw[i]).Ok?
    ensures Logical(f, raw).Ok? ==> Logical(f, raw).value == Due(true, f, raw)
  {
    if raw != [] {
      var front, e := raw[..|raw| - 1], raw[|raw| - 1];
      LogicalIsDue(f, front);
      assert forall i :: 0 <= i < |front| ==> raw[i] == front[i];
      if e.eventType != BUNDLE {
        assert Select(f, [e]) == if Match(f, e) then [e] else [] by { SelectAppend(f, [], e); assert [] + [e] == [e]; }
      }
    }
  }

  lemma {:induction false} RawDueIsSelect(f: Filter, log: seq<Event>)
    ensures Due(false, f, log) == Select(f, log)
  {
    if log != [] {
      RawDueIsSelect(f, log[..|log| - 1]);
    }
  }

  /** Both replay modes hand out what the window owes a subscriber of that mode. */
  lemma ReplayIsDue(s: State, f: Filter, opts: Settings)
    requires LogOk(s)
    ensures Window(s.nextSeq, s.limit, opts) <= |s.log|
    ensures opts.raw ==> Replay(s, f, opts).Ok?
    ensures Replay(s, f, opts).Ok? ==>
              Replay(s, f, opts).value == Due(!opts.raw, f, s.log[Window(s.nextSeq, s.limit, opts)..])
  {
    if opts.raw {
      RawReplayIsWindow(s, f, opts);
      RawDueIsSelect(f, s.log[Window(s.nextSeq, s.limit, opts)..]);
    } else {
      RawReplayIsWindow(s, ANY, opts);
      SelectAny(s.log[Window(s.nextSeq, s.limit, opts)..]);
      LogicalIsDue(f, s.log[Window(s.nextSeq, s.limit, opts)..]);
    }
  }

  // ---------------------------------------------------------------- delivery lemmas

  lemma {:induction false} SubseqExtend(a: seq<Event>, b: seq<Event>, c: seq<Event>)
    requires Subseq(a, b)
    ensures Subseq(a, b + c)
    decreases |c|
  {
    if c == [] {
      assert b + c == b;
    } else {
      SubseqExtend(a, b, c[..|c| - 1]);
      assert (b + c)[..|b + c| - 1] == b + c[..|c| - 1];
    }
  }

  lemma SubseqPush(a: seq<Event>, b: seq<Event>, e: Event)
    requires Subseq(a, b)
    ensures Subseq(a + [e], b + [e])
  {
    assert (a + [e])[..|a|] == a && (b + [e])[..|b|] == b;
  }

  /** Only the channel and its history change, and only by events offered, in order. */
  ghost predicate Fed(sub: Sub, t: Sub, es: seq<Event>) {
    && t.spec == sub.spec && t.done == sub.done && |t.queue| <= t.spec.capacity
    && forall base :: Subseq(sub.received, base) ==> Subseq(t.received, base + es)
  }

  /** What a `select` over the channel, the done signal and the context may do: any case that is
      ready, and the overflow policy when none is. */
  ghost predicate SelectAllows(sub: Sub, e: Event, ctxDone: bool, r: (Sub, Verdict)) {
    var room := |sub.queue| < sub.spec.capacity;
    || (room && r == (sub.(queue := sub.queue + [e], received := sub.received + [e]), Next))
    || (sub.done && r == (sub, Quit))
    || (ctxDone && r == (sub, Fail))
    || (!room && !sub.done && !ctxDone && r == (sub, if sub.spec.failOnOverflow then Fail else Next))
  }

  /** The choices of the model are exactly the outcomes the `select` allows. */
  lemma SelectMeans(sub: Sub, e: Event, ctxDone: bool, r: (Sub, Verdict))
    ensures (exists pick :: Offer(sub, e, ctxDone, pick) == r) <==> SelectAllows(sub, e, ctxDone, r)
  {
    var a, b, c := Offer(sub, e, ctxDone, Eager), Offer(sub, e, ctxDone, ByDone), Offer(sub, e, ctxDone, ByCtx);
    assert SelectAllows(sub, e, ctxDone, r) ==> r == a || r == b || r == c;
  }

  lemma OfferSound(sub: Sub, e: Event, ctxDone: bool, pick: Pick)
    requires |sub.queue| <= sub.spec.capacity
    ensures Fed(sub, Offer(sub, e, ctxDone, pick).0, [e])
  {
    hide Subseq;
    forall base | Subseq(sub.received, base)
      ensures Subseq(sub.received + [e], base + [e]) && Subseq(sub.received, base + [e])
    {
      SubseqPush(sub.received, base, e);
      SubseqExtend(sub.received, base, [e]);
    }
  }

  lemma {:induction false} OfferAllSound(sub: Sub, es: seq<Event>, ctxDone: bool, picks: nat -> Pick)
    requires |sub.queue| <= sub.spec.capacity
    ensures Fed(sub, OfferAll(sub, es, ctxDone, picks).0, es)
    decreases |es|
  {
    hide Subseq, Offer;
    if es == [] {
      assert forall base: seq<Event> :: base + es == base;
    } else {
      var (s, v) := Offer(sub, es[0], ctxDone, picks(|es|));
      OfferSound(sub, es[0], ctxDone, picks(|es|));
      if v == Next {
        OfferAllSound(s, es[1..], ctxDone, picks);
        FedTrans(sub, s, OfferAll(s, es[1..], ctxDone, picks).0, [es[0]], es[1..]);
      } else {
        FedMore(sub, s, [es[0]], es[1..]);
      }
      assert [es[0]] + es[1..] == es;
    }
  }

  lemma FedTrans(a: Sub, b: Sub, c: Sub, es: seq<Event>, more: seq<Event>)
    requires Fed(a, b, es) && Fed(b, c, more)
    ensures Fed(a, c, es + more)
  {
    hide Subseq;
    forall base | Subseq(a.received, base) ensures Subseq(c.received, base + (es + more)) {
      assert base + (es + more) == (base + es) + more;
    }
  }

  lemma FedMore(a: Sub, b: Sub, es: seq<Event>, more: seq<Event>)
    requires Fed(a, b, es)
    ensures Fed(a, b, es + more)
  {
    hide Subseq;
    forall base | Subseq(a.received, base) ensures Subseq(b.received, base + (es + more)) {
      SubseqExtend(b.received, base + es, more);
      assert base + es + more == base + (es + more);
    }
  }

  /** With room, a live context and an open subscriber everything offered arrives. */
  lemma {:induction false} OfferAllExact(sub: Sub, es: seq<Event>, picks: nat -> Pick)
    requires |sub.queue| + |es| <= sub.spec.capacity && !sub.done
    ensures OfferAll(sub, es, false, picks) ==
            (sub.(queue := sub.queue + es, received := sub.received + es), Next)
    decreases |es|
  {
    if es == [] {
      assert sub.queue + es == sub.queue && sub.received + es == sub.received;
    } else {
      var s := Offer(sub, es[0], false, picks(|es|)).0;
      OfferAllExact(s, es[1..], picks);
      assert sub.queue + [es[0]] + es[1..] == sub.queue + es;
      assert sub.received + [es[0]] + es[1..] == sub.received + es;
    }
  }

  lemma FedNothing(sub: Sub, es: seq<Event>)
    requires |sub.queue| <= sub.spec.capacity
    ensures Fed(sub, sub, es)
  {
    hide Subseq;
    forall base | Subseq(sub.received, base) ensures Subseq(sub.received, base + es) {
      SubseqExtend(sub.received, base, es);
    }
  }

  lemma SendSound(sub: Sub, e: Event, ctxDone: bool, picks: nat -> Pick)
    requires |sub.queue| <= sub.spec.capacity
    ensures var p := Payload(sub.spec.expanded, sub.spec.filter, e);
            Fed(sub, Send(sub, e, ctxDone, picks).0, if p.Ok? then p.value else [])
  {
    hide Fed, OfferAll;
    match Payload(sub.spec.expanded, sub.spec.filter, e)
    case Err => FedNothing(sub, []);
    case Ok(es) => OfferAllSound(sub, es, ctxDone, picks);
  }

  lemma {:induction false} FanoutSound(subs: map<nat, Sub>, order: seq<nat>, e: Event, ctxDone: bool,
                                       picks: (nat, nat) -> Pick)
    requires forall i :: 0 <= i < |order| ==> order[i] in subs
    requires forall i, j :: 0 <= i < j < |order| ==> order[i] != order[j]
    requires forall id :: id in subs ==> |subs[id].queue| <= subs[id].spec.capacity
    ensures Fanout(subs, order, e, ctxDone, picks).Keys == subs.Keys
    ensures forall id :: id in subs && id !in order ==> Fanout(subs, order, e, ctxDone, picks)[id] == subs[id]
    ensures forall id :: id in subs ==>
              Fed(subs[id], Fanout(subs, order, e, ctxDone, picks)[id],
                  Shown(subs[id].spec.expanded, subs[id].spec.filter, e))
    decreases |order|
  {
    hide Fed, Send, Shown;
    forall id | id in subs { FedNothing(subs[id], Shown(subs[id].spec.expanded, subs[id].spec.filter, e)); }
    if order != [] {
      var id, rest := order[0], order[1..];
      assert order == [id] + rest && id !in rest;
      if !Wants(subs[id].spec.expanded, subs[id].spec.filter, e) {
        FanoutSound(subs, rest, e, ctxDone, picks);
      } else {
        var (s, ok) := Send(subs[id], e, ctxDone, (k: nat) => picks(id, k));
        SendSound(subs[id], e, ctxDone, (k: nat) => picks(id, k));
        assert Fed(subs[id], s, Shown(subs[id].spec.expanded, subs[id].spec.filter, e)) by {
          ShownIsPayload(subs[id].spec, e);
        }
        FedShape(subs[id], s, Shown(subs[id].spec.expanded, subs[id].spec.filter, e));
        if ok {
          FanoutSound(subs[id := s], rest, e, ctxDone, picks);
        }
      }
    }
  }

  lemma ShownIsPayload(spec: Spec, e: Event)
    requires Wants(spec.expanded, spec.filter, e)
    ensures var p := Payload(spec.expanded, spec.filter, e);
            Shown(spec.expanded, spec.filter, e) == if p.Ok? then p.value else []
  {
  }

  lemma FedShape(sub: Sub, t: Sub, es: seq<Event>)
    requires Fed(sub, t, es)
    ensures t.spec == sub.spec && t.done == sub.done && |t.queue| <= t.spec.capacity
  {
  }

  // ---------------------------------------------------------------- subscribing lemmas

  /** No event a flat log owes an expanded subscriber is a bundle: bundles never nest. */
  lemma {:induction false} DueOfFlatIsPlain(f: Filter, log: seq<Event>, e: Event)
    requires FlatLog(log) && e in Due(true, f, log)
    ensures e.eventType != BUNDLE
  {
    var front, last := log[..|log| - 1], log[|log| - 1];
    assert forall i :: 0 <= i < |front| ==> front[i] == log[i];
    if e in Due(true, f, front) {
      DueOfFlatIsPlain(f, front, e);
    } else {
      assert e in Shown(true, f, last);
      if last.eventType == BUNDLE {
        var nested := Expand(last).value;
        SelectMembers(f, nested, e);
        assert Flat(log[|log| - 1]);
      }
    }
  }

  lemma {:induction false} SendAllSound(sub: Sub, es: seq<Event>, picks: nat -> Pick)
    requires |sub.queue| <= sub.spec.capacity
    ensures Fed(sub, SendAll(sub, es, picks).0, Resent(sub.spec.expanded, sub.spec.filter, es))
    decreases |es|
  {
    hide Fed, Send, Payload;
    if es == [] {
      FedNothing(sub, []);
    } else {
      var (s, ok) := Send(sub, es[0], false, picks);
      SendSound(sub, es[0], false, picks);
      var r := Payload(sub.spec.expanded, sub.spec.filter, es[0]);
      var p := if r.Ok? then r.value else [];
      FedShape(sub, s, p);
      if ok {
        SendAllSound(s, es[1..], picks);
        FedTrans(sub, s, SendAll(s, es[1..], picks).0, p, Resent(sub.spec.expanded, sub.spec.filter, es[1..]));
      } else {
        FedMore(sub, s, p, Resent(sub.spec.expanded, sub.spec.filter, es[1..]));
      }
    }
  }

  /** Every bundle that `send` would expand is well formed. */
  ghost predicate Sendable(expanded: bool, es: seq<Event>) {
    expanded ==> forall i :: 0 <= i < |es| ==> Expand(es[i]).Ok?
  }

  lemma {:induction false} OfferAllOutcome(sub: Sub, es: seq<Event>, picks: nat -> Pick)
    requires |sub.queue| <= sub.spec.capacity
    ensures OfferAll(sub, es, false, picks).1 == Fail <==>
            !sub.done && sub.spec.failOnOverflow && |sub.queue| + |es| > sub.spec.capacity
    decreases |es|
  {
    if es != [] {
      var (s, v) := Offer(sub, es[0], false, picks(|es|));
      if v == Next {
        OfferAllOutcome(s, es[1..], picks);
      }
    }
  }

  /** One `send` fails exactly on a malformed bundle or an overflow under the error policy. */
  lemma SendOutcome(sub: Sub, e: Event, picks: nat -> Pick)
    requires !sub.done && |sub.queue| <= sub.spec.capacity
    ensures var r := Payload(sub.spec.expanded, sub.spec.filter, e);
            var p := if r.Ok? then r.value else [];
            var (s, ok) := Send(sub, e, false, picks);
            && (r.Err? <==> sub.spec.expanded && Expand(e).Err?)
            && s.spec == sub.spec && !s.done && |s.queue| <= s.spec.capacity
            && (ok <==> r.Ok? && (sub.spec.failOnOverflow ==> |sub.queue| + |p| <= sub.spec.capacity))
            && (r.Ok? && |sub.queue| + |p| <= sub.spec.capacity ==>
                  s == sub.(queue := sub.queue + p, received := sub.received + p))
  {
    hide OfferAll, Fed;
    var r := Payload(sub.spec.expanded, sub.spec.filter, e);
    SendSound(sub, e, false, picks);
    FedShape(sub, Send(sub, e, false, picks).0, if r.Ok? then r.value else []);
    if r.Ok? {
      OfferAllOutcome(sub, r.value, picks);
      if |sub.queue| + |r.value| <= sub.spec.capacity {
        OfferAllExact(sub, r.value, picks);
      }
    }
  }

  // ---------------------------------------------------------------- who gets an event

  /** This subscriber makes an Emit fail: a malformed bundle, or no room under the error policy. */
  predicate Refuses(sub: Sub, e: Event) {
    Wants(sub.spec.expanded, sub.spec.filter, e) &&
    var p := Payload(sub.spec.expanded, sub.spec.filter, e);
    p.Err? || (!sub.done && sub.spec.failOnOverflow && |sub.queue| + |p.value| > sub.spec.capacity)
  }

  lemma SendRefuses(sub: Sub, e: Event, picks: nat -> Pick)
    requires |sub.queue| <= sub.spec.capacity
    ensures !Wants(sub.spec.expanded, sub.spec.filter, e) ==> !Refuses(sub, e)
    ensures Wants(sub.spec.expanded, sub.spec.filter, e) ==>
              var (s, ok) := Send(sub, e, false, picks);
              (ok <==> !Refuses(sub, e)) && s.spec == sub.spec && |s.queue| <= s.spec.capacity
  {
    hide OfferAll, Fed;
    var r := Payload(sub.spec.expanded, sub.spec.filter, e);
    SendSound(sub, e, false, picks);
    FedShape(sub, Send(sub, e, false, picks).0, if r.Ok? then r.value else []);
    if r.Ok? {
      OfferAllOutcome(sub, r.value, picks);
    }
  }

  /** With a live context Emit reports an error exactly when some subscriber refuses the event,
      in whatever order they are visited. */
  lemma {:induction false} EmitFailsIff(subs: map<nat, Sub>, order: seq<nat>, e: Event, picks: (nat, nat) -> Pick)
    requires forall i :: 0 <= i < |order| ==> order[i] in subs
    requires forall i, j :: 0 <= i < j < |order| ==> order[i] != order[j]
    requires forall j :: j in subs ==> |subs[j].queue| <= subs[j].spec.capacity
    ensures Delivered(subs, order, e, false, picks) <==>
            forall i :: 0 <= i < |order| ==> !Refuses(subs[order[i]], e)
    decreases |order|
  {
    hide Refuses, Send, Wants;
    if order != [] {
      var id, rest := order[0], order[1..];
      assert order == [id] + rest;
      SendRefuses(subs[id], e, (k: nat) => picks(id, k));
      if !Wants(subs[id].spec.expanded, subs[id].spec.filter, e) {
        EmitFailsIff(subs, rest, e, picks);
      } else {
        var (s, ok) := Send(subs[id], e, false, (k: nat) => picks(id, k));
        if ok {
          EmitFailsIff(subs[id := s], rest, e, picks);
          assert forall i :: 0 <= i < |rest| ==> subs[id := s][rest[i]] == subs[rest[i]];
        }
      }
    }
  }

  /** Room for what this event owes. */
  predicate Room(sub: Sub, e: Event) {
    !sub.done && |sub.queue| + |Shown(sub.spec.expanded, sub.spec.filter, e)| <= sub.spec.capacity
  }

  /** The event owes `id` nothing, or nobody else among `keys` refuses it. */
  ghost predicate Unhindered(subs: map<nat, Sub>, keys: set<nat>, id: nat, e: Event)
    requires id in subs && keys <= subs.Keys
  {
    Shown(subs[id].spec.expanded, subs[id].spec.filter, e) == [] ||
    forall j :: j in keys && j != id ==> !Refuses(subs[j], e)
  }

  /** What the event owes `id` is now on its channel. */
  ghost predicate Got(was: map<nat, Sub>, now: map<nat, Sub>, id: nat, e: Event)
    requires id in was
  {
    && id in now && now[id].spec == was[id].spec
    && now[id].received == was[id].received + Shown(was[id].spec.expanded, was[id].spec.filter, e)
  }

  lemma SendWithRoom(sub: Sub, e: Event, picks: nat -> Pick)
    requires Room(sub, e) && |sub.queue| <= sub.spec.capacity && Wants(sub.spec.expanded, sub.spec.filter, e)
    ensures var s := Send(sub, e, false, picks).0;
            s.spec == sub.spec && s.received == sub.received + Shown(sub.spec.expanded, sub.spec.filter, e)
  {
    hide OfferAll;
    match Payload(sub.spec.expanded, sub.spec.filter, e)
    case Err => assert sub.received + [] == sub.received;
    case Ok(es) => OfferAllExact(sub, es, picks);
  }

  /** Whom the event owes nothing, it leaves as it was. */
  lemma ShownNothing(sub: Sub, e: Event)
    requires !Wants(sub.spec.expanded, sub.spec.filter, e) || Shown(sub.spec.expanded, sub.spec.filter, e) == []
    ensures sub.received + Shown(sub.spec.expanded, sub.spec.filter, e) == sub.received
  {
  }

  /** A subscriber with room that nobody hinders gets everything the event owes it. */
  lemma {:induction false} FanoutExact(subs: map<nat, Sub>, order: seq<nat>, e: Event, picks: (nat, nat) -> Pick,
                                       id: nat)
    requires forall i :: 0 <= i < |order| ==> order[i] in subs
    requires forall i, j :: 0 <= i < j < |order| ==> order[i] != order[j]
    requires forall j :: j in subs ==> |subs[j].queue| <= subs[j].spec.capacity
    requires id in order && Room(subs[id], e) && Unhindered(subs, (set j | j in order), id, e)
    ensures Got(subs, Fanout(subs, order, e, false, picks), id, e)
    decreases |order|
  {
    hide Fed, Send, Shown, Wants, Room, Refuses;
    var j, rest := order[0], order[1..];
    assert order == [j] + rest && j !in rest;
    FanoutUntouched(subs, order, e, picks, id);
    if !Wants(subs[j].spec.expanded, subs[j].spec.filter, e) {
      if j == id {
        FanoutUntouched(subs, rest, e, picks, id);
        ShownNothing(subs[id], e);
      } else {
        FanoutExact(subs, rest, e, picks, id);
      }
    } else {
      var pj := (k: nat) => picks(j, k);
      var (s, ok) := Send(subs[j], e, false, pj);
      SendRefuses(subs[j], e, pj);
      if j == id {
        SendWithRoom(subs[id], e, pj);
        FanoutUntouched(subs[j := s], rest, e, picks, id);
      } else if !ok {
        ShownNothing(subs[id], e);
      } else {
        assert forall k :: k in rest ==> subs[j := s][k] == subs[k];
        FanoutExact(subs[j := s], rest, e, picks, id);
      }
    }
  }

  lemma FanoutUntouched(subs: map<nat, Sub>, order: seq<nat>, e: Event, picks: (nat, nat) -> Pick, id: nat)
    requires forall i :: 0 <= i < |order| ==> order[i] in subs
    requires forall i, j :: 0 <= i < j < |order| ==> order[i] != order[j]
    requires forall j :: j in subs ==> |subs[j].queue| <= subs[j].spec.capacity
    requires id in subs
    ensures id in Fanout(subs, order, e, false, picks)
    ensures id !in order ==> Fanout(subs, order, e, false, picks)[id] == subs[id]
  {
    FanoutSound(subs, order, e, false, picks);
  }

  lemma {:induction false} SomeOrder(keys: set<nat>) returns (order: seq<nat>)
    ensures Enumerates(order, keys)
  {
    order := [];
    if keys != {} {
      var k :| k in keys;
      var rest := SomeOrder(keys - {k});
      order := [k] + rest;
    }
  }

  /** A refuser visited first ends the fan-out before anyone else is visited. */
  lemma RefuserStops(subs: map<nat, Sub>, j: nat, rest: seq<nat>, e: Event, picks: (nat, nat) -> Pick, id: nat)
    requires j in subs && Enumerates([j] + rest, subs.Keys) && Refuses(subs[j], e) && id in subs && id != j
    requires |subs[j].queue| <= subs[j].spec.capacity
    ensures id in Fanout(subs, [j] + rest, e, false, picks)
    ensures Fanout(subs, [j] + rest, e, false, picks)[id] == subs[id]
  {
    hide Send;
    assert ([j] + rest)[0] == j;
    SendRefuses(subs[j], e, (k: nat) => picks(j, k));
  }

  /** A subscriber with room gets what an event owes it in every visiting order if and only if
      it is owed nothing or no other subscriber refuses the event. */
  lemma FanoutReachesIff(subs: map<nat, Sub>, e: Event, id: nat)
    requires forall j :: j in subs ==> |subs[j].queue| <= subs[j].spec.capacity
    requires id in subs && Room(subs[id], e)
    ensures (forall order: seq<nat>, picks: (nat, nat) -> Pick ::
               Enumerates(order, subs.Keys) ==> Got(subs, Fanout(subs, order, e, false, picks), id, e)) <==>
            Unhindered(subs, subs.Keys, id, e)
  {
    hide Fanout, Refuses, Shown, Room;
    if Unhindered(subs, subs.Keys, id, e) {
      forall order: seq<nat>, picks: (nat, nat) -> Pick | Enumerates(order, subs.Keys)
        ensures Got(subs, Fanout(subs, order, e, false, picks), id, e)
      {
        FanoutExact(subs, order, e, picks, id);
      }
    } else {
      var j :| j in subs && j != id && Refuses(subs[j], e);
      var rest := SomeOrder(subs.Keys - {j});
      var picks := (a: nat, b: nat) => Eager;
      assert Enumerates([j] + rest, subs.Keys);
      RefuserStops(subs, j, rest, e, picks, id);
      assert !Got(subs, Fanout(subs, [j] + rest, e, false, picks), id, e);
    }
  }

  /** Catch-up succeeds exactly when nothing in it is malformed and the channel holds it all or
      overflow is tolerated, and with room nothing is lost. */
  lemma {:induction false} SendAllOutcome(sub: Sub, es: seq<Event>, picks: nat -> Pick)
    requires !sub.done && |sub.queue| <= sub.spec.capacity
    ensures var out := Resent(sub.spec.expanded, sub.spec.filter, es);
            && (SendAll(sub, es, picks).1 <==>
                && Sendable(sub.spec.expanded, es)
                && (sub.spec.failOnOverflow ==> |sub.queue| + |out| <= sub.spec.capacity))
            && (Sendable(sub.spec.expanded, es) && |sub.queue| + |out| <= sub.spec.capacity ==>
                  SendAll(sub, es, picks).0 == sub.(queue := sub.queue + out, received := sub.received + out))
    decreases |es|
  {
    hide Send, Payload, Expand;
    if es == [] {
      assert sub.queue + [] == sub.queue && sub.received + [] == sub.received;
    } else {
      var (s, ok) := Send(sub, es[0], false, picks);
      SendOutcome(sub, es[0], picks);
      assert es == [es[0]] + es[1..];
      if ok {
        var r := Payload(sub.spec.expanded, sub.spec.filter, es[0]);
        var rest := Resent(sub.spec.expanded, sub.spec.filter, es[1..]);
        SendAllOutcome(s, es[1..], picks);
        assert sub.queue + r.value + rest == sub.queue + (r.value + rest);
        assert sub.received + r.value + rest == sub.received + (r.value + rest);
      }
    }
  }

  /** Subscribe blocks forever, holding the delivery lock, if and only if it is an expanded
      subscription and either its catch-up overflows the requested buffer under the error policy
      or a bundle nested in the catch-up is malformed: the failing send calls Cancel, which waits
      for the lock its own caller holds. */
  lemma SubscribeBlocksIff(s: State, f: Filter, opts: Settings, picks: nat -> Pick)
    requires LogOk(s) && !s.closed && !s.stuck && Replay(s, f, opts).Ok?
    ensures var replay := Replay(s, f, opts).value;
            Subscribe(s, f, opts, picks).stuck <==>
            && !opts.raw
            && (!Sendable(true, replay) || (opts.failOnOverflow && |Resent(true, f, replay)| > Max(0, opts.buffer)))
  {
    var es := Replay(s, f, opts).value;
    SendAllOutcome(NewSub(s.nextSeq, s.limit, f, opts, es), es, picks);
    RawResent(f, es);
  }

  lemma {:induction false} RawResent(f: Filter, es: seq<Event>)
    ensures Resent(false, f, es) == es
    decreases |es|
  {
    if es != [] {
      RawResent(f, es[1..]);
    }
  }

  // ---------------------------------------------------------------- nested bundles

  /** How deep bundles nest in an event; 0 for an event that is no bundle. */
  function Depth(e: Event): nat
    decreases e, 0
  {
    if e.eventType != BUNDLE then 0 else if e.delta.Text? then 1 else 1 + MaxDepth(e.delta.events)
  }

  function MaxDepth(es: seq<Event>): nat
    decreases es, 1
  {
    if es == [] then 0
    else
      var d, m := Depth(es[0]), MaxDepth(es[1..]);
      if d > m then d else m
  }

  lemma {:induction false} MaxDepthIsMax(es: seq<Event>)
    ensures forall e :: e in es ==> Depth(e) <= MaxDepth(es)
    ensures es != [] ==> exists e :: e in es && Depth(e) == MaxDepth(es)
  {
    if es != [] {
      MaxDepthIsMax(es[1..]);
      assert es == [es[0]] + es[1..];
      if Depth(es[0]) >= MaxDepth(es[1..]) {
        assert es[0] in es && Depth(es[0]) == MaxDepth(es);
      } else {
        var e :| e in es[1..] && Depth(e) == MaxDepth(es[1..]);
        assert e in es && Depth(e) == MaxDepth(es);
      }
    }
  }

  /** Expanding a bundle leaves only shallower events. */
  lemma PayloadIsShallower(f: Filter, e: Event, x: Event)
    requires Payload(true, f, e).Ok? && x in Payload(true, f, e).value
    ensures if e.eventType == BUNDLE then Depth(x) < Depth(e) else x == e
  {
    if e.eventType == BUNDLE {
      var inner := Expand(e).value;
      SelectMembers(f, inner, x);
      var i :| 0 <= i < |inner| && inner[i] == x;
      MaxDepthIsMax(e.delta.events);
      assert e.delta.events[i] in e.delta.events;
      assert Depth(x) == Depth(e.delta.events[i]);
    }
  }

  lemma {:induction false} ResentIsShallower(f: Filter, es: seq<Event>, m: nat, x: Event)
    requires m > 0 && (forall e :: e in es ==> Depth(e) <= m) && x in Resent(true, f, es)
    ensures Depth(x) < m
    decreases |es|
  {
    hide Payload, Depth;
    assert es == [es[0]] + es[1..];
    if x in Resent(true, f, es[1..]) {
      ResentIsShallower(f, es[1..], m, x);
    } else {
      PayloadIsShallower(f, es[0], x);
      PlainHasNoDepth(es[0]);
    }
  }

  lemma PlainHasNoDepth(e: Event)
    ensures Depth(e) == 0 <==> e.eventType != BUNDLE
  {
  }

  /** Catch-up hands out the replayed events unchanged if and only if none of them is a bundle. */
  lemma {:induction false} ResentIsSameIff(f: Filter, es: seq<Event>)
    ensures Resent(true, f, es) == es <==> forall e :: e in es ==> e.eventType != BUNDLE
    decreases |es|
  {
    hide Depth;
    if e :| e in es && e.eventType == BUNDLE {
      var m := MaxDepth(es);
      MaxDepthIsMax(es);
      PlainHasNoDepth(e);
      var deepest :| deepest in es && Depth(deepest) == m;
      if deepest in Resent(true, f, es) {
        ResentIsShallower(f, es, m, deepest);
      }
    } else if es != [] {
      assert es == [es[0]] + es[1..];
      ResentIsSameIff(f, es[1..]);
    }
  }

  lemma {:induction false} DueConcat(expanded: bool, f: Filter, a: seq<Event>, b: seq<Event>)
    ensures Due(expanded, f, a + b) == Due(expanded, f, a) + Due(expanded, f, b)
    decreases |b|
  {
    hide Shown;
    if b == [] {
      assert a + b == a;
    } else {
      DueConcat(expanded, f, a, b[..|b| - 1]);
      assert (a + b)[..|a + b| - 1] == a + b[..|b| - 1];
    }
  }

  /** What a subscription is owed is filter-after-expand of the log from its replay start if and
      only if it is raw or no event it was owed by the replayed part is itself a bundle. */
  lemma OwedIsDueIff(spec: Spec, log: seq<Event>)
    requires spec.from <= spec.live <= |log|
    ensures Owed(spec, log) == Due(spec.expanded, spec.filter, log[spec.from..]) <==>
            (spec.expanded ==>
               forall e :: e in Due(true, spec.filter, log[spec.from..spec.live]) ==> e.eventType != BUNDLE)
  {
    hide Due, Resent;
    var before, after := log[spec.from..spec.live], log[spec.live..];
    assert log[spec.from..] == before + after;
    DueConcat(spec.expanded, spec.filter, before, after);
    var caught := Due(spec.expanded, spec.filter, before);
    if spec.expanded {
      ResentIsSameIff(spec.filter, caught);
      SameBefore(Resent(true, spec.filter, caught), caught, Due(true, spec.filter, after));
    } else {
      RawResent(spec.filter, caught);
    }
  }

  lemma SameBefore(a: seq<Event>, b: seq<Event>, tail: seq<Event>)
    ensures a + tail == b + tail <==> a == b
  {
    if a + tail == b + tail {
      assert |a| == |b|;
      assert (a + tail)[..|a|] == a && (b + tail)[..|b|] == b;
    }
  }

  /** In a log whose bundles hold no bundles the two always agree. */
  lemma OwedOfFlatIsDue(spec: Spec, log: seq<Event>)
    requires spec.from <= spec.live <= |log| && FlatLog(log)
    ensures Owed(spec, log) == Due(spec.expanded, spec.filter, log[spec.from..])
  {
    hide Due, Owed;
    OwedIsDueIff(spec, log);
    var window := log[spec.from..spec.live];
    assert forall i :: 0 <= i < |window| ==> window[i] == log[spec.from + i];
    forall e | e in Due(true, spec.filter, window) ensures e.eventType != BUNDLE {
      DueOfFlatIsPlain(spec.filter, window, e);
    }
  }

  // ---------------------------------------------------------------- steps keep the invariant

  lemma AppendKeepsLast(log: seq<Event>, limit: nat, e: Event)
    ensures Append(Last(log, limit), limit, e) == Last(log + [e], limit)
  {
  }

  lemma SubKept(sub: Sub, t: Sub, log: seq<Event>, e: Event)
    requires SubOk(sub, log) && Fed(sub, t, Shown(sub.spec.expanded, sub.spec.filter, e))
    ensures SubOk(t, log + [e])
  {
    OwedAppend(sub.spec, log, e);
  }

  lemma OwedAppend(spec: Spec, log: seq<Event>, e: Event)
    requires spec.from <= spec.live <= |log|
    ensures Owed(spec, log + [e]) == Owed(spec, log) + Shown(spec.expanded, spec.filter, e)
  {
    hide Due, Resent, Shown;
    assert (log + [e])[spec.live..] == log[spec.live..] + [e];
    assert (log + [e])[spec.from..spec.live] == log[spec.from..spec.live];
    DueAppend(spec.expanded, spec.filter, log[spec.live..], e);
  }

  lemma EmitKeeps(valid: string -> bool, s: State, ev: Event, ctxDone: bool, order: seq<nat>, picks: (nat, nat) -> Pick)
    requires Inv(s) && Enumerates(order, s.subs.Keys)
    ensures Inv(Emit(valid, s, ev, ctxDone, order, picks))
  {
    hide SubOk, Fanout, Last, Append;
    var r := Prepare(valid, ev, s.scope, s.nextSeq + 1, s.nextTime + 1);
    if !s.closed && r.Ok? {
      AppendKeepsLast(s.log, s.limit, r.value);
      FanoutKeeps(s.subs, order, r.value, ctxDone, picks, s.log);
    }
  }

  lemma FanoutKeeps(subs: map<nat, Sub>, order: seq<nat>, e: Event, ctxDone: bool, picks: (nat, nat) -> Pick,
                    log: seq<Event>)
    requires Enumerates(order, subs.Keys) && forall id :: id in subs ==> SubOk(subs[id], log)
    ensures var t := Fanout(subs, order, e, ctxDone, picks);
            t.Keys == subs.Keys && forall id :: id in subs ==> SubOk(t[id], log + [e])
  {
    hide Fed, SubOk, Fanout, Shown;
    forall id | id in subs ensures |subs[id].queue| <= subs[id].spec.capacity { SubShape(subs[id], log); }
    FanoutSound(subs, order, e, ctxDone, picks);
    forall id | id in subs ensures SubOk(Fanout(subs, order, e, ctxDone, picks)[id], log + [e]) {
      SubKept(subs[id], Fanout(subs, order, e, ctxDone, picks)[id], log, e);
    }
  }

  lemma SubShape(sub: Sub, log: seq<Event>)
    requires SubOk(sub, log)
    ensures |sub.queue| <= sub.spec.capacity && sub.spec.from <= sub.spec.live <= |log|
  {
  }

  lemma SubscribeKeeps(s: State, f: Filter, opts: Settings, picks: nat -> Pick)
    requires Inv(s)
    ensures Inv(Subscribe(s, f, opts, picks))
  {
    var r := Replay(s, f, opts);
    if !s.closed && r.Ok? {
      ReplayIsDue(s, f, opts);
      var sub := NewSub(s.nextSeq, s.limit, f, opts, r.value);
      SendAllSound(sub, r.value, picks);
      var t := SendAll(sub, r.value, picks).0;
      assert Subseq(sub.received, []);
      OwedAtStart(sub.spec, s.log);
      assert [] + Owed(sub.spec, s.log) == Owed(sub.spec, s.log);
      assert SubOk(t, s.log);
    }
  }

  lemma OwedAtStart(spec: Spec, log: seq<Event>)
    requires spec.from <= spec.live == |log|
    ensures Owed(spec, log) == Resent(spec.expanded, spec.filter, Due(spec.expanded, spec.filter, log[spec.from..]))
  {
    assert log[spec.from..spec.live] == log[spec.from..] && log[spec.live..] == [];
  }

  // ---------------------------------------------------------------- histories

  datatype Step =
    | Emitted(event: Event, ctxDone: bool, order: seq<nat>, picks: (nat, nat) -> Pick)
    | Subscribed(filter: Filter, opts: Settings, picks1: nat -> Pick)
    | Consumed(id: nat)
    | SignalledDone(id: nat)
    | Detached(id: nat)
    | Closed

  predicate Legal(s: State, step: Step) {
    !s.stuck &&
    match step
    case Emitted(_, _, order, _) => Enumerates(order, s.subs.Keys)
    case Subscribed(_, _, _) => true
    case Consumed(id) => id in s.subs && s.subs[id].queue != []
    case SignalledDone(id) => id in s.subs
    case Detached(id) => id in s.subs
    case Closed => true
  }

  function Apply(valid: string -> bool, s: State, step: Step): State
    requires Legal(s, step)
  {
    match step
    case Emitted(ev, ctxDone, order, picks) => Emit(valid, s, ev, ctxDone, order, picks)
    case Subscribed(f, opts, picks) => Subscribe(s, f, opts, picks)
    case Consumed(id) => s.(subs := s.subs[id := s.subs[id].(queue := s.subs[id].queue[1..])])
    case SignalledDone(id) => s.(subs := s.subs[id := s.subs[id].(done := true)])
    case Detached(id) => s.(subs := s.subs - {id})
    case Closed => s.(closed := true)
  }

  ghost predicate History(valid: string -> bool, states: seq<State>, steps: seq<Step>) {
    && |states| == |steps| + 1
    && forall i :: 0 <= i < |steps| ==> Legal(states[i], steps[i]) && states[i + 1] == Apply(valid, states[i], steps[i])
  }

  lemma ApplyKeeps(valid: string -> bool, s: State, step: Step)
    requires Inv(s) && Legal(s, step)
    ensures Inv(Apply(valid, s, step))
  {
    hide Emit, Subscribe, Subseq, Due;
    match step
    case Emitted(ev, ctxDone, order, picks) => EmitKeeps(valid, s, ev, ctxDone, order, picks);
    case Subscribed(f, opts, picks) => SubscribeKeeps(s, f, opts, picks);
    case Consumed(id) =>
    case SignalledDone(id) =>
    case Detached(id) =>
    case Closed =>
  }

  /** For every history of emits, subscribes, reads, cancellations and closes: sequence numbers
      are contiguous, the buffer is the last `limit` events, and what a subscriber received is a
      subsequence of what the log owes it from its replay start. */
  lemma {:induction false} EveryHistory(valid: string -> bool, states: seq<State>, steps: seq<Step>, scope: Scope,
                                        limit: nat)
    requires History(valid, states, steps) && states[0] == Create(scope, limit)
    ensures Inv(states[|steps|])
  {
    if steps == [] {
    } else {
      var n := |steps| - 1;
      EveryHistory(valid, states[..n + 1], steps[..n], scope, limit);
      ApplyKeeps(valid, states[n], steps[n]);
    }
  }

  ghost predicate Exact(s: State, id: nat) {
    id in s.subs && s.subs[id].spec.from <= s.subs[id].spec.live <= |s.log| &&
    s.subs[id].received == Owed(s.subs[id].spec, s.log)
  }

  /** The channel of `id` has room, contexts are live and nobody else stops the delivery. */
  ghost predicate CalmStep(valid: string -> bool, s: State, step: Step, id: nat) {
    match step
    case Emitted(ev, ctxDone, _, _) =>
      var r := Prepare(valid, ev, s.scope, s.nextSeq + 1, s.nextTime + 1);
      !ctxDone && (r.Ok? && id in s.subs ==> Room(s.subs[id], r.value) && Unhindered(s.subs, s.subs.Keys, id, r.value))
    case Detached(j) => j != id
    case _ => true
  }

  lemma CalmKeepsExact(valid: string -> bool, s: State, step: Step, id: nat)
    requires Inv(s) && Legal(s, step) && Exact(s, id) && CalmStep(valid, s, step, id)
    ensures Exact(Apply(valid, s, step), id)
  {
    hide Fed, Fanout, Subseq, Owed, Replay;
    match step
    case Emitted(ev, ctxDone, order, picks) =>
      var r := Prepare(valid, ev, s.scope, s.nextSeq + 1, s.nextTime + 1);
      if !s.closed && r.Ok? {
        var sub := s.subs[id];
        FanoutExact(s.subs, order, r.value, picks, id);
        OwedAppend(sub.spec, s.log, r.value);
      }
    case Subscribed(f, opts, picks) =>
      assert id <= s.nextSub;
    case Consumed(_) =>
    case SignalledDone(_) =>
    case Detached(_) =>
    case Closed =>
  }

  /** The catch-up is well formed and a channel of this size holds it. */
  ghost predicate Fits(f: Filter, replay: seq<Event>, buffer: int) {
    Sendable(true, replay) && |Resent(true, f, replay)| <= buffer
  }

  lemma SubscribeExact(s: State, f: Filter, opts: Settings, picks: nat -> Pick)
    requires Inv(s) && !s.closed && Replay(s, f, opts).Ok?
    requires opts.raw || Fits(f, Replay(s, f, opts).value, opts.buffer)
    ensures Exact(Subscribe(s, f, opts, picks), s.nextSub + 1)
  {
    hide Replay, Owed, SendAll, Window;
    ReplayIsDue(s, f, opts);
    var es := Replay(s, f, opts).value;
    var sub := NewSub(s.nextSeq, s.limit, f, opts, es);
    SendAllOutcome(sub, es, picks);
    RawResent(f, es);
    OwedAtStart(sub.spec, s.log);
    assert [] + Owed(sub.spec, s.log) == Owed(sub.spec, s.log);
  }

  /** Before anyone reads, what was received is what is queued. */
  lemma {:induction false} OfferAllUnread(sub: Sub, es: seq<Event>, picks: nat -> Pick)
    requires sub.received == sub.queue
    ensures var t := OfferAll(sub, es, false, picks).0; t.received == t.queue
    decreases |es|
  {
    if es != [] {
      var (s, v) := Offer(sub, es[0], false, picks(|es|));
      if v == Next {
        OfferAllUnread(s, es[1..], picks);
      }
    }
  }

  lemma {:induction false} SendAllUnread(sub: Sub, es: seq<Event>, picks: nat -> Pick)
    requires sub.received == sub.queue
    ensures var t := SendAll(sub, es, picks).0; t.received == t.queue
    decreases |es|
  {
    hide OfferAll;
    if es != [] {
      match Payload(sub.spec.expanded, sub.spec.filter, es[0])
      case Err =>
      case Ok(p) =>
        OfferAllUnread(sub, p, picks);
        var (s, ok) := Send(sub, es[0], false, picks);
        if ok {
          SendAllUnread(s, es[1..], picks);
        }
    }
  }

  /** A subscription that Subscribe returns has received exactly what its window owes it if and
      only if it is raw or its buffer holds the whole catch-up. The default buffer of 16 against
      1024 replayed events loses the rest without an error. */
  lemma CatchUpExactIff(s: State, f: Filter, opts: Settings, picks: nat -> Pick)
    requires Inv(s) && !s.closed && Replay(s, f, opts).Ok? && !Subscribe(s, f, opts, picks).stuck
    ensures Exact(Subscribe(s, f, opts, picks), s.nextSub + 1) <==>
            opts.raw || |Resent(true, f, Replay(s, f, opts).value)| <= Max(0, opts.buffer)
  {
    hide Replay, Owed, SendAll, Window, Resent;
    ReplayIsDue(s, f, opts);
    var es := Replay(s, f, opts).value;
    var sub := NewSub(s.nextSeq, s.limit, f, opts, es);
    var out := Resent(sub.spec.expanded, f, es);
    SendAllOutcome(sub, es, picks);
    SendAllUnread(sub, es, picks);
    CatchUpShape(sub, es, picks);
    RawResent(f, es);
    OwedAtStart(sub.spec, s.log);
    assert Owed(sub.spec, s.log) == out && [] + out == out;
  }

  lemma CatchUpShape(sub: Sub, es: seq<Event>, picks: nat -> Pick)
    requires |sub.queue| <= sub.spec.capacity
    ensures var t := SendAll(sub, es, picks).0; t.spec == sub.spec && |t.queue| <= t.spec.capacity
  {
    hide Fed, SendAll;
    SendAllSound(sub, es, picks);
    FedShape(sub, SendAll(sub, es, picks).0, Resent(sub.spec.expanded, sub.spec.filter, es));
  }

  /** Replay meets live with no gap and no duplicate: a subscription whose catch-up fits and
      whose later steps are calm has received exactly what the log owes it, at every moment. */
  lemma {:induction false} ReplayMeetsLive(valid: string -> bool, s: State, f: Filter, opts: Settings,
                                           picks: nat -> Pick,
                                           states: seq<State>, steps: seq<Step>)
    requires Inv(s) && !s.closed && !s.stuck
    requires Replay(s, f, opts).Ok? && (opts.raw || Fits(f, Replay(s, f, opts).value, opts.buffer))
    requires History(valid, states, steps) && states[0] == Subscribe(s, f, opts, picks)
    requires forall i :: 0 <= i < |steps| ==> CalmStep(valid, states[i], steps[i], s.nextSub + 1)
    ensures Inv(states[|steps|]) && Exact(states[|steps|], s.nextSub + 1)
  {
    hide Subscribe, Apply, Exact, Inv, Replay, Fits, CalmStep;
    if steps == [] {
      SubscribeKeeps(s, f, opts, picks);
      SubscribeExact(s, f, opts, picks);
    } else {
      var n := |steps| - 1;
      ReplayMeetsLive(valid, s, f, opts, picks, states[..n + 1], steps[..n]);
      ApplyKeeps(valid, states[n], steps[n]);
      CalmKeepsExact(valid, states[n], steps[n], s.nextSub + 1);
    }
  }

  // ---------------------------------------------------------------- what went in and what comes out

  predicate HasClosed(steps: seq<Step>) { exists k :: 0 <= k < |steps| && steps[k].Closed? }

  /** What Emit accepts: a type, a source layer, a status and a delta that is JSON. */
  predicate Acceptable(valid: string -> bool, ev: Event) {
    ev.eventType != "" && ev.from.layer != "" && ev.status != "" && (ev.delta.Text? ==> valid(ev.delta.bytes))
  }

  /** The events emitted and accepted, as the producers gave them. */
  function Accepted(valid: string -> bool, steps: seq<Step>): seq<Event> {
    if steps == [] then []
    else
      var front, step := steps[..|steps| - 1], steps[|steps| - 1];
      Accepted(valid, front) +
      if step.Emitted? && !HasClosed(front) && Acceptable(valid, step.event) then [step.event] else []
  }

  /** `p` is `ev` with its number, its time and the scope fields it lacked. */
  ghost predicate Stamps(scope: Scope, ev: Event, n: nat, p: Event) {
    && p.sequence == p.logicalTime == n && Inherits(scope, ev.scope, p.scope)
    && p.(sequence := ev.sequence, logicalTime := ev.logicalTime, scope := ev.scope) == ev
  }

  lemma PrepareMeans(valid: string -> bool, ev: Event, scope: Scope, n: nat)
    ensures Prepare(valid, ev, scope, n, n).Ok? <==> Acceptable(valid, ev)
    ensures Acceptable(valid, ev) ==> Stamps(scope, ev, n, Prepare(valid, ev, scope, n, n).value)
  {
  }

  lemma StepLog(valid: string -> bool, s: State, step: Step)
    requires Inv(s) && Legal(s, step)
    ensures var t := Apply(valid, s, step);
            && t.scope == s.scope && t.closed == (s.closed || step.Closed?)
            && if step.Emitted? && !s.closed && Acceptable(valid, step.event) then
                 |t.log| == |s.log| + 1 && s.log <= t.log && Stamps(s.scope, step.event, |t.log|, t.log[|s.log|])
               else t.log == s.log
  {
    hide Fanout, Replay, SendAll, Prepare, SubOk, Acceptable;
    if step.Emitted? {
      PrepareMeans(valid, step.event, s.scope, s.nextSeq + 1);
    }
  }

  /** The log is exactly the accepted events in the order they were emitted, each as it was given
      but for its number, its time and the scope fields it lacked. */
  lemma {:induction false} LogIsEmitted(
    valid: string -> bool, states: seq<State>, steps: seq<Step>, scope: Scope, limit: nat
  )
    requires History(valid, states, steps) && states[0] == Create(scope, limit)
    ensures var s, given := states[|steps|], Accepted(valid, steps);
            && s.scope == scope && (s.closed <==> HasClosed(steps)) && |s.log| == |given|
            && forall k :: 0 <= k < |given| ==> Stamps(scope, given[k], k + 1, s.log[k])
  {
    hide Legal, Apply, Stamps, Acceptable;
    if steps != [] {
      var n := |steps| - 1;
      var front := steps[..n];
      LogIsEmitted(valid, states[..n + 1], front, scope, limit);
      EveryHistory(valid, states[..n + 1], front, scope, limit);
      StepLog(valid, states[n], steps[n]);
      ClosedMore(front, steps[n]);
      assert front + [steps[n]] == steps;
    }
  }

  lemma ClosedMore(front: seq<Step>, step: Step)
    ensures HasClosed(front + [step]) <==> HasClosed(front) || step.Closed?
  {
    var all := front + [step];
    if HasClosed(front) {
      var k :| 0 <= k < |front| && front[k].Closed?;
      assert all[k].Closed?;
    }
    assert all[|front|] == step;
  }

  /** After Close nothing is logged and nobody is added. */
  lemma {:induction false} ClosedIsFinal(valid: string -> bool, states: seq<State>, steps: seq<Step>, j: nat)
    requires History(valid, states, steps) && j <= |steps| && states[j].closed
    ensures var s, t := states[j], states[|steps|];
            t.closed && t.log == s.log && t.buffer == s.buffer && t.nextSub == s.nextSub && t.subs.Keys <= s.subs.Keys
    decreases |steps|
  {
    if j < |steps| {
      var n := |steps| - 1;
      ClosedIsFinal(valid, states[..n + 1], steps[..n], j);
    }
  }

  /** A detached subscriber is gone for good, and a cancellation signalled stays. */
  lemma {:induction false} DetachedIsGone(valid: string -> bool, states: seq<State>, steps: seq<Step>, scope: Scope,
                                          limit: nat, j: nat, id: nat)
    requires History(valid, states, steps) && states[0] == Create(scope, limit) && j < |steps|
    requires steps[j] == Detached(id)
    ensures id !in states[|steps|].subs
    decreases |steps|
  {
    hide Legal, Apply, Inv;
    var n := |steps| - 1;
    EveryHistory(valid, states[..n + 1], steps[..n], scope, limit);
    IdsGrow(valid, states[n], steps[n], id);
    OldIds(valid, states[..n + 1], steps[..n], scope, limit, j, id);
    if j < n {
      DetachedIsGone(valid, states[..n + 1], steps[..n], scope, limit, j, id);
    } else {
      DetachMeans(valid, states[n], id);
    }
  }

  lemma DetachMeans(valid: string -> bool, s: State, id: nat)
    requires Legal(s, Detached(id))
    ensures Apply(valid, s, Detached(id)).subs == s.subs - {id}
  {
  }

  lemma SignalMeans(valid: string -> bool, s: State, id: nat)
    requires Legal(s, SignalledDone(id))
    ensures var t := Apply(valid, s, SignalledDone(id));
            && t.subs.Keys == s.subs.Keys && t.subs[id].done && t.subs[id].received == s.subs[id].received
            && t.subs[id].queue == s.subs[id].queue && forall k :: k in s.subs && k != id ==> t.subs[k] == s.subs[k]
  {
  }

  /** An id that was in use is not above the counter. */
  lemma {:induction false} OldIds(valid: string -> bool, states: seq<State>, steps: seq<Step>, scope: Scope, limit: nat,
                                  j: nat, id: nat)
    requires History(valid, states, steps) && states[0] == Create(scope, limit) && j <= |steps|
    requires j < |steps| ==> steps[j] == Detached(id)
    ensures j < |steps| ==> id <= states[|steps|].nextSub
    decreases |steps|
  {
    hide Apply, Inv;
    if j < |steps| {
      var n := |steps| - 1;
      EveryHistory(valid, states[..n + 1], steps[..n], scope, limit);
      IdsGrow(valid, states[n], steps[n], id);
      if j < n {
        OldIds(valid, states[..n + 1], steps[..n], scope, limit, j, id);
      }
    }
  }

  /** What was put on the channel is what was added to the history. */
  ghost predicate Grew(sub: Sub, t: Sub) {
    sub.queue <= t.queue && sub.received <= t.received && t.queue[|sub.queue|..] == t.received[|sub.received|..]
  }

  lemma GrewTrans(a: Sub, b: Sub, c: Sub)
    requires Grew(a, b) && Grew(b, c)
    ensures Grew(a, c)
  {
    assert c.queue[|a.queue|..] == b.queue[|a.queue|..] + c.queue[|b.queue|..];
    assert c.received[|a.received|..] == b.received[|a.received|..] + c.received[|b.received|..];
  }

  lemma {:induction false} OfferAllGrew(sub: Sub, es: seq<Event>, ctxDone: bool, picks: nat -> Pick)
    ensures Grew(sub, OfferAll(sub, es, ctxDone, picks).0)
    decreases |es|
  {
    if es != [] {
      var (s, v) := Offer(sub, es[0], ctxDone, picks(|es|));
      assert Grew(sub, s);
      if v == Next {
        OfferAllGrew(s, es[1..], ctxDone, picks);
        GrewTrans(sub, s, OfferAll(s, es[1..], ctxDone, picks).0);
      }
    }
  }

  lemma SendGrew(sub: Sub, e: Event, ctxDone: bool, picks: nat -> Pick)
    ensures Grew(sub, Send(sub, e, ctxDone, picks).0)
  {
    hide OfferAll;
    match Payload(sub.spec.expanded, sub.spec.filter, e)
    case Err =>
    case Ok(es) => OfferAllGrew(sub, es, ctxDone, picks);
  }

  lemma {:induction false} SendAllGrew(sub: Sub, es: seq<Event>, picks: nat -> Pick)
    ensures Grew(sub, SendAll(sub, es, picks).0)
    decreases |es|
  {
    hide Send, Grew;
    if es == [] {
      GrewNot(sub);
    } else {
      var (s, ok) := Send(sub, es[0], false, picks);
      SendGrew(sub, es[0], false, picks);
      if ok {
        SendAllGrew(s, es[1..], picks);
        GrewTrans(sub, s, SendAll(s, es[1..], picks).0);
      }
    }
  }

  lemma GrewNot(sub: Sub)
    ensures Grew(sub, sub)
  {
  }

  lemma {:induction false} FanoutGrew(subs: map<nat, Sub>, order: seq<nat>, e: Event, ctxDone: bool,
                                      picks: (nat, nat) -> Pick, id: nat)
    requires (forall i :: 0 <= i < |order| ==> order[i] in subs) && id in subs
    ensures id in Fanout(subs, order, e, ctxDone, picks)
    ensures Grew(subs[id], Fanout(subs, order, e, ctxDone, picks)[id])
    decreases |order|
  {
    hide Send, Grew, Wants;
    GrewNot(subs[id]);
    if order != [] {
      var j := order[0];
      if !Wants(subs[j].spec.expanded, subs[j].spec.filter, e) {
        FanoutGrew(subs, order[1..], e, ctxDone, picks, id);
      } else {
        var (s, ok) := Send(subs[j], e, ctxDone, (k: nat) => picks(j, k));
        SendGrew(subs[j], e, ctxDone, (k: nat) => picks(j, k));
        if ok {
          FanoutGrew(subs[j := s], order[1..], e, ctxDone, picks, id);
          GrewTrans(subs[id], subs[j := s][id], Fanout(subs[j := s], order[1..], e, ctxDone, picks)[id]);
        }
      }
    }
  }

  /** What the reader of `id` took off its channel, in order. */
  function ReadBy(states: seq<State>, steps: seq<Step>, id: nat): seq<Event>
    requires |states| == |steps| + 1
  {
    if steps == [] then []
    else
      var n := |steps| - 1;
      ReadBy(states[..n + 1], steps[..n], id) +
      if steps[n] == Consumed(id) && id in states[n].subs && states[n].subs[id].queue != []
      then [states[n].subs[id].queue[0]] else []
  }

  ghost predicate Consistent(sub: Sub, read: seq<Event>) { read + sub.queue == sub.received }

  lemma GrewConsistent(sub: Sub, t: Sub, read: seq<Event>)
    requires Grew(sub, t) && Consistent(sub, read)
    ensures Consistent(t, read)
  {
    assert t.queue == sub.queue + t.queue[|sub.queue|..];
    assert t.received == sub.received + t.received[|sub.received|..];
  }

  lemma StepReads(valid: string -> bool, s: State, step: Step, id: nat, read: seq<Event>)
    requires Inv(s) && Legal(s, step) && id in Apply(valid, s, step).subs
    requires if id in s.subs then Consistent(s.subs[id], read) else read == []
    ensures var taken := step == Consumed(id) && id in s.subs && s.subs[id].queue != [];
            var took := if taken then [s.subs[id].queue[0]] else [];
            Consistent(Apply(valid, s, step).subs[id], read + took)
  {
    hide Fanout, Replay, SendAll, Prepare, SubOk;
    assert read + [] == read;
    match step
    case Emitted(ev, ctxDone, order, picks) =>
      var r := Prepare(valid, ev, s.scope, s.nextSeq + 1, s.nextTime + 1);
      if !s.closed && r.Ok? {
        FanoutKeys(s.subs, order, r.value, ctxDone, picks, id);
        FanoutGrew(s.subs, order, r.value, ctxDone, picks, id);
        GrewConsistent(s.subs[id], Fanout(s.subs, order, r.value, ctxDone, picks)[id], read);
      }
    case Subscribed(f, opts, picks) =>
      if id !in s.subs {
        var sub := NewSub(s.nextSeq, s.limit, f, opts, Replay(s, f, opts).value);
        SendAllGrew(sub, Replay(s, f, opts).value, picks);
        GrewConsistent(sub, SendAll(sub, Replay(s, f, opts).value, picks).0, []);
      }
    case Consumed(j) =>
      if j == id {
        assert s.subs[id].queue == [s.subs[id].queue[0]] + s.subs[id].queue[1..];
      }
    case SignalledDone(_) =>
    case Detached(_) =>
    case Closed =>
  }

  lemma {:induction false} FanoutKeys(subs: map<nat, Sub>, order: seq<nat>, e: Event, ctxDone: bool,
                                      picks: (nat, nat) -> Pick, id: nat)
    requires (forall i :: 0 <= i < |order| ==> order[i] in subs) && id in Fanout(subs, order, e, ctxDone, picks)
    ensures id in subs
    decreases |order|
  {
    hide Send, Wants;
    if order != [] {
      var j := order[0];
      if !Wants(subs[j].spec.expanded, subs[j].spec.filter, e) {
        FanoutKeys(subs, order[1..], e, ctxDone, picks, id);
      } else {
        var (s, ok) := Send(subs[j], e, ctxDone, (k: nat) => picks(j, k));
        if ok {
          FanoutKeys(subs[j := s], order[1..], e, ctxDone, picks, id);
        }
      }
    }
  }

  /** A reader gets what was put on its channel, once each and in order: what it has read followed
      by what is queued is everything the subscription received. */
  lemma {:induction false} ReadsInOrder(valid: string -> bool, states: seq<State>, steps: seq<Step>, scope: Scope,
                                        limit: nat, id: nat)
    requires History(valid, states, steps) && states[0] == Create(scope, limit)
    ensures id > states[|steps|].nextSub ==> ReadBy(states, steps, id) == []
    ensures id in states[|steps|].subs ==>
              ReadBy(states, steps, id) + states[|steps|].subs[id].queue == states[|steps|].subs[id].received
  {
    hide Legal, Apply, Inv;
    if steps != [] {
      var n := |steps| - 1;
      ReadsInOrder(valid, states[..n + 1], steps[..n], scope, limit, id);
      EveryHistory(valid, states[..n + 1], steps[..n], scope, limit);
      IdsGrow(valid, states[n], steps[n], id);
      if id in states[|steps|].subs {
        StepReads(valid, states[n], steps[n], id, ReadBy(states[..n + 1], steps[..n], id));
      }
    } else {
      StartsEmpty(scope, limit);
    }
  }

  lemma StartsEmpty(scope: Scope, limit: nat)
    ensures Create(scope, limit).subs == map[]
  {
  }

  lemma IdsGrow(valid: string -> bool, s: State, step: Step, id: nat)
    requires Inv(s) && Legal(s, step)
    ensures Apply(valid, s, step).nextSub >= s.nextSub
    ensures id > s.nextSub ==> id !in s.subs
    ensures id in Apply(valid, s, step).subs && id !in s.subs ==> id > s.nextSub
  {
    hide Fanout, Replay, SendAll, Prepare, SubOk;
    if step.Emitted? {
      var r := Prepare(valid, step.event, s.scope, s.nextSeq + 1, s.nextTime + 1);
      if !s.closed && r.Ok? && id in Fanout(s.subs, step.order, r.value, step.ctxDone, step.picks) {
        FanoutKeys(s.subs, step.order, r.value, step.ctxDone, step.picks, id);
      }
    }
  }

  // ---------------------------------------------------------------- histories that fail

  function Note(eventType: string, delta: Delta): Event {
    Event(eventType, Source("agent", "a", ""), 0, "running", delta, 0, NO_SCOPE, map[])
  }

  function Opts(replay: bool, buffer: int, failOnOverflow: bool): Settings {
    Settings(0, 0, !replay, buffer, failOnOverflow, false)
  }

  /** Every text is JSON here, every `select` that can send does. */
  function AnyText(): string -> bool { (t: string) => true }
  function Ready(): nat -> Pick { (k: nat) => Eager }
  function AllReady(): (nat, nat) -> Pick { (j: nat, k: nat) => Eager }

  /** A stream on which `p` was emitted and nothing else happened. */
  function Once(p: Event): State { Create(NO_SCOPE, 8).(nextSeq := 1, nextTime := 1, buffer := [p], log := [p]) }

  function Stamped(e: Event): Event { e.(sequence := 1, logicalTime := 1, scope := MergeScope(NO_SCOPE, e.scope)) }

  lemma EmitOnce(e: Event)
    requires e.eventType != "" && e.from.layer != "" && e.status != ""
    ensures Enumerates([], Create(NO_SCOPE, 8).subs.Keys)
    ensures Emit(AnyText(), Create(NO_SCOPE, 8), e, false, [], AllReady()) == Once(Stamped(e))
    ensures LogOk(Once(Stamped(e)))
  {
    assert Prepare(AnyText(), e, NO_SCOPE, 1, 1) == Ok(Stamped(e));
    assert [] + [Stamped(e)] == [Stamped(e)];
  }

  lemma ReplayOnce(p: Event, opts: Settings)
    requires p.sequence == p.logicalTime == 1 && Expand(p).Ok? && opts == Opts(true, opts.buffer, opts.failOnOverflow)
    ensures Replay(Once(p), ANY, opts) == Ok(Due(true, ANY, [p]))
    ensures NewSub(1, 8, ANY, opts, Due(true, ANY, [p])).spec.from == 0
  {
    ReplayIsDue(Once(p), ANY, opts);
    assert [p][0..] == [p];
    RawReplayIsWindow(Once(p), ANY, opts);
    SelectAny([p]);
    LogicalIsDue(ANY, [p]);
  }

  /** One buffered event, and an error-policy subscription whose channel holds none: Subscribe
      never returns. */
  lemma SubscribeCanBlock()
    ensures exists states: seq<State>, steps: seq<Step> ::
      && History(AnyText(), states, steps) && states[0] == Create(NO_SCOPE, 8) && states[|steps|].stuck
  {
    hide Emit, Replay, LogOk, Subscribe, Enumerates;
    var e, opts := Note("log", Text("1")), Opts(true, 0, true);
    var s0, s1 := Create(NO_SCOPE, 8), Once(Stamped(e));
    EmitOnce(e);
    ReplayOnce(Stamped(e), opts);
    var s2 := Subscribe(s1, ANY, opts, Ready());
    SubscribeBlocksIff(s1, ANY, opts, Ready());
    var emit, subscribe := Emitted(e, false, [], AllReady()), Subscribed(ANY, opts, Ready());
    var states, steps := [s0, s1, s2], [emit, subscribe];
    assert History(AnyText(), states, steps);
  }

  /** One buffered event and a drop-policy subscription whose channel holds none: Subscribe
      succeeds and the event is lost. */
  lemma CatchUpCanLose()
    ensures exists states: seq<State>, steps: seq<Step> ::
      && History(AnyText(), states, steps) && states[0] == Create(NO_SCOPE, 8) && !states[|steps|].stuck
      && 1 in states[|steps|].subs && !Exact(states[|steps|], 1)
  {
    hide Emit, Replay, LogOk, Subscribe, Enumerates, Exact, Inv, Due, Resent, Sendable;
    var e, opts := Note("log", Text("1")), Opts(true, 0, false);
    var p := Stamped(e);
    var s0, s1 := Create(NO_SCOPE, 8), Once(p);
    EmitOnce(e);
    ReplayOnce(p, opts);
    PlainDue(p);
    OnceIsInv(p);
    var s2 := Subscribe(s1, ANY, opts, Ready());
    SubscribeBlocksIff(s1, ANY, opts, Ready());
    CatchUpExactIff(s1, ANY, opts, Ready());
    SubscribedShape(s1, ANY, opts, Ready(), [p]);
    var emit, subscribe := Emitted(e, false, [], AllReady()), Subscribed(ANY, opts, Ready());
    var states, steps := [s0, s1, s2], [emit, subscribe];
    assert History(AnyText(), states, steps);
  }

  lemma PlainDue(p: Event)
    requires p.eventType != BUNDLE
    ensures Due(true, ANY, [p]) == [p] && Resent(true, ANY, [p]) == [p] && Sendable(true, [p])
  {
    DueAppend(true, ANY, [], p);
    assert [] + [p] == [p] && [p][1..] == [] && Resent(true, ANY, []) == [] && [p] + [] == [p];
  }

  /** A bundle in a bundle in the buffer: an expanded subscription with room gets the innermost
      event in its catch-up, where the same event sent live would be the inner bundle. */
  lemma NestedReplayDiffers()
    ensures exists states: seq<State>, steps: seq<Step> ::
      && History(AnyText(), states, steps) && states[0] == Create(NO_SCOPE, 8)
      && var t := states[|steps|];
      && 1 in t.subs && t.subs[1].spec.from == 0 && |t.subs[1].received| < t.subs[1].spec.capacity
      && t.subs[1].received != Due(true, ANY, t.log)
  {
    hide Emit, Replay, LogOk, Subscribe, Enumerates, Owed, Window, Inv, Fits, Due, Resent, Expand;
    var x := Note("log", Text("1"));
    var inner := Note(BUNDLE, Batch(1, [x]));
    var e, opts := Note(BUNDLE, Batch(1, [inner])), Opts(true, 8, false);
    var p := Stamped(e);
    var s0, s1 := Create(NO_SCOPE, 8), Once(p);
    EmitOnce(e);
    var inner', x' := NestedDue(p, inner, x);
    ReplayOnce(p, opts);
    var s2 := Subscribe(s1, ANY, opts, Ready());
    OnceIsInv(p);
    SubscribeExact(s1, ANY, opts, Ready());
    SubscribedShape(s1, ANY, opts, Ready(), [inner']);
    var spec := s2.subs[1].spec;
    OwedIsDueIff(spec, s1.log);
    OwedAtStart(spec, s1.log);
    assert s1.log[0..] == s1.log && s1.log[0..1] == s1.log;
    var emit, subscribe := Emitted(e, false, [], AllReady()), Subscribed(ANY, opts, Ready());
    var states, steps := [s0, s1, s2], [emit, subscribe];
    assert History(AnyText(), states, steps);
  }

  lemma OnceIsInv(p: Event)
    requires p.sequence == p.logicalTime == 1
    ensures Inv(Once(p))
  {
  }

  lemma SubscribedShape(s: State, f: Filter, opts: Settings, picks: nat -> Pick, replay: seq<Event>)
    requires !s.closed && Replay(s, f, opts) == Ok(replay)
    ensures var t := Subscribe(s, f, opts, picks);
            && t.log == s.log && s.nextSub + 1 in t.subs
            && t.subs[s.nextSub + 1].spec == NewSub(s.nextSeq, s.limit, f, opts, replay).spec
  {
    hide Fed, SendAll;
    var sub := NewSub(s.nextSeq, s.limit, f, opts, replay);
    SendAllSound(sub, replay, picks);
    FedShape(sub, SendAll(sub, replay, picks).0, Resent(sub.spec.expanded, sub.spec.filter, replay));
  }

  lemma UnpackOne(p: Event, inner: Event) returns (inner': Event)
    requires p.eventType == BUNDLE && p.delta == Batch(1, [inner])
    ensures inner' == inner.(scope := MergeScope(p.scope, inner.scope))
    ensures Expand(p) == Ok([inner']) && Payload(true, ANY, p) == Ok([inner']) && Shown(true, ANY, p) == [inner']
  {
    inner' := inner.(scope := MergeScope(p.scope, inner.scope));
    assert Rescope(p.scope, [inner]) == [inner'];
    SelectAny([inner']);
  }

  /** What the nested bundle owes live, and what its catch-up turns that into. */
  lemma NestedDue(p: Event, inner: Event, x: Event) returns (inner': Event, x': Event)
    requires p.eventType == BUNDLE && p.delta == Batch(1, [inner])
    requires inner.eventType == BUNDLE && inner.delta == Batch(1, [x])
    ensures inner'.eventType == BUNDLE && Due(true, ANY, [p]) == [inner'] && Expand(p).Ok?
    ensures Resent(true, ANY, [inner']) == [x'] && Fits(ANY, [inner'], 8)
  {
    hide Expand, Payload, Shown;
    inner' := UnpackOne(p, inner);
    x' := UnpackOne(inner', x);
    DueAppend(true, ANY, [], p);
    DueOfNone();
    assert [] + [p] == [p] && [] + [inner'] == [inner'];
    assert [inner'][1..] == [] && Resent(true, ANY, []) == [] && [x'] + [] == [x'];
  }

  /** An error-policy subscriber without room visited first: the next one, which has room and is
      owed the event, does not get it. */
  lemma LaterSubscriberMisses()
    ensures exists states: seq<State>, steps: seq<Step> ::
      && History(AnyText(), states, steps) && states[0] == Create(NO_SCOPE, 8) && |steps| > 0
      && var s, t := states[|steps| - 1], states[|steps|];
      && |t.log| == 1 && 2 in s.subs && 2 in t.subs && Room(s.subs[2], t.log[0])
      && t.subs[2].received == [] && Due(true, ANY, t.log) == t.log
  {
    hide Emit, Subscribe, Enumerates, Fanout, Due;
    var e, full, roomy := Note("log", Text("1")), Opts(false, 0, true), Opts(false, 1, false);
    var p := Stamped(e);
    var s0 := Create(NO_SCOPE, 8);
    var a := NewSub(0, 8, ANY, full, []);
    var b := NewSub(0, 8, ANY, roomy, []);
    var s1 := s0.(nextSub := 1, subs := map[1 := a]);
    var s2 := s0.(nextSub := 2, subs := map[1 := a, 2 := b]);
    SubscribeLive(s0, ANY, full, Ready());
    SubscribeLive(s1, ANY, roomy, Ready());
    assert map[1 := a][2 := b] == s2.subs;
    OrderOfTwo();
    assert s2.subs.Keys == {1, 2} && [1] + [2] == [1, 2];
    var s3 := Emit(AnyText(), s2, e, false, [1, 2], AllReady());
    EmitShape(s2, e, [1, 2]);
    RefuserStops(s2.subs, 1, [2], p, AllReady(), 2);
    var steps := [Subscribed(ANY, full, Ready()), Subscribed(ANY, roomy, Ready()),
                  Emitted(e, false, [1, 2], AllReady())];
    var states := [s0, s1, s2, s3];
    DueAppend(true, ANY, [], p);
    assert [] + [p] == [p];
    DueOfNone();
    assert History(AnyText(), states, steps);
  }

  lemma DueOfNone()
    ensures Due(true, ANY, []) == []
  {
  }

  lemma OrderOfTwo()
    ensures Enumerates([1, 2], {1, 2})
  {
  }

  lemma EmitShape(s: State, e: Event, order: seq<nat>)
    requires Enumerates(order, s.subs.Keys) && !s.closed && s.scope == NO_SCOPE && s.nextSeq == s.nextTime == 0
    requires e.eventType != "" && e.from.layer != "" && e.status != "" && s.log == []
    ensures var t := Emit(AnyText(), s, e, false, order, AllReady());
            t.log == [Stamped(e)] && t.subs == Fanout(s.subs, order, Stamped(e), false, AllReady())
  {
    assert Prepare(AnyText(), e, NO_SCOPE, 1, 1) == Ok(Stamped(e));
  }

  lemma SubscribeLive(s: State, f: Filter, opts: Settings, picks: nat -> Pick)
    requires !s.closed && !s.stuck && opts.noReplay
    ensures Subscribe(s, f, opts, picks) ==
            s.(nextSub := s.nextSub + 1, subs := s.subs[s.nextSub + 1 := NewSub(s.nextSeq, s.limit, f, opts, [])])
  {
    assert RawReplay(s, f, opts) == [] && RawReplay(s, ANY, opts) == [];
    assert Replay(s, f, opts) == Ok([]);
  }

  // ---------------------------------------------------------------- the stream object

  method PushAll(start: Sub, es: seq<Event>, ctxDone: bool, picks: nat -> Pick) returns (sub: Sub, verdict: Verdict)
    ensures (sub, verdict) == OfferAll(start, es, ctxDone, picks)
  {
    sub, verdict := start, Next;
    for i := 0 to |es|
      invariant verdict == Next && OfferAll(sub, es[i..], ctxDone, picks) == OfferAll(start, es, ctxDone, picks)
    {
      assert es[i..][0] == es[i] && es[i..][1..] == es[i + 1..];
      var r := Offer(sub, es[i], ctxDone, picks(|es| - i));
      sub, verdict := r.0, r.1;
      if verdict != Next {
        return;
      }
    }
  }

  method SendEvent(start: Sub, e: Event, ctxDone: bool, picks: nat -> Pick) returns (sub: Sub, ok: bool)
    ensures (sub, ok) == Send(start, e, ctxDone, picks)
  {
    match Payload(start.spec.expanded, start.spec.filter, e)
    case Err => sub, ok := start, false;
    case Ok(es) =>
      var verdict;
      sub, verdict := PushAll(start, es, ctxDone, picks);
      ok := verdict != Fail;
  }

  method SendReplay(start: Sub, es: seq<Event>, picks: nat -> Pick) returns (sub: Sub, ok: bool)
    ensures (sub, ok) == SendAll(start, es, picks)
  {
    sub, ok := start, true;
    for i := 0 to |es|
      invariant ok && SendAll(sub, es[i..], picks) == SendAll(start, es, picks)
    {
      assert es[i..][0] == es[i] && es[i..][1..] == es[i + 1..];
      sub, ok := SendEvent(sub, es[i], false, picks);
      if !ok {
        return;
      }
    }
  }

  lemma {:induction false} LogicalErr(f: Filter, raw: seq<Event>, i: nat)
    requires i <= |raw| && Logical(f, raw[..i]).Err?
    ensures Logical(f, raw).Err?
    decreases |raw|
  {
    if i < |raw| {
      assert raw[..|raw| - 1][..i] == raw[..i];
      LogicalErr(f, raw[..|raw| - 1], i);
    } else {
      assert raw[..i] == raw;
    }
  }

  class Stream {
    const valid: string -> bool
    const scope: Scope
    const limit: nat
    var nextSeq: nat
    var nextTime: nat
    var nextSub: nat
    var closed: bool
    var stuck: bool
    var buffer: seq<Event>
    var subs: map<nat, Sub>
    ghost var log: seq<Event>

    ghost function View(): State
      reads this
    {
      State(scope, limit, nextSeq, nextTime, nextSub, closed, buffer, subs, log, stuck)
    }

    constructor (valid: string -> bool, scope: Scope, limit: nat)
      ensures this.valid == valid && View() == Create(scope, limit)
    {
      this.valid, this.scope, this.limit := valid, scope, limit;
      nextSeq, nextTime, nextSub, closed, stuck := 0, 0, 0, false, false;
      buffer, subs, log := [], map[], [];
    }

    method AppendBuffer(e: Event)
      modifies this`buffer
      ensures buffer == Append(old(buffer), limit, e)
    {
      if limit == 0 {
        return;
      }
      if |buffer| == limit {
        ghost var was := buffer;
        for i := 0 to |buffer| - 1
          invariant |buffer| == limit
          invariant forall k :: 0 <= k < i ==> buffer[k] == was[k + 1]
          invariant forall k :: i <= k < limit ==> buffer[k] == was[k]
        {
          buffer := buffer[i := buffer[i + 1]];
        }
        buffer := buffer[|buffer| - 1 := e];
        assert buffer == was[1..] + [e];
        return;
      }
      buffer := buffer + [e];
    }

    /** Emit, with the subscriber order and `select` choices the runtime happens to make. */
    method Publish(ev: Event, ctxDone: bool, order: seq<nat>, picks: (nat, nat) -> Pick) returns (ok: bool)
      requires Enumerates(order, subs.Keys)
      modifies this
      ensures var p := Prepare(valid, ev, scope, old(nextSeq) + 1, old(nextTime) + 1);
              ok == (!old(closed) && p.Ok? && Delivered(old(subs), order, p.value, ctxDone, picks))
      ensures View() == Emit(valid, old(View()), ev, ctxDone, order, picks)
    {
      hide Fanout, Delivered, Append, Prepare;
      if closed {
        return false;
      }
      match Prepare(valid, ev, scope, nextSeq + 1, nextTime + 1)
      case Err => ok := false;
      case Ok(p) =>
        nextSeq, nextTime := nextSeq + 1, nextTime + 1;
        AppendBuffer(p);
        log := log + [p];
        ok := Deliver(p, ctxDone, order, picks);
    }

    method Deliver(p: Event, ctxDone: bool, order: seq<nat>, picks: (nat, nat) -> Pick) returns (ok: bool)
      requires forall i :: 0 <= i < |order| ==> order[i] in subs
      modifies this`subs
      ensures ok == Delivered(old(subs), order, p, ctxDone, picks)
      ensures subs == Fanout(old(subs), order, p, ctxDone, picks)
    {
      for i := 0 to |order|
        invariant forall k :: 0 <= k < |order| ==> order[k] in subs
        invariant Fanout(subs, order[i..], p, ctxDone, picks) == Fanout(old(subs), order, p, ctxDone, picks)
        invariant Delivered(subs, order[i..], p, ctxDone, picks) == Delivered(old(subs), order, p, ctxDone, picks)
      {
        var id := order[i];
        assert order[i..][0] == id && order[i..][1..] == order[i + 1..];
        if Wants(subs[id].spec.expanded, subs[id].spec.filter, p) {
          var sub, sent := SendEvent(subs[id], p, ctxDone, (k: nat) => picks(id, k));
          subs := subs[id := sub];
          if !sent {
            return false;
          }
        }
      }
      ok := true;
    }

    method ReplayRaw(f: Filter, opts: Settings) returns (replay: seq<Event>)
      ensures replay == RawReplay(View(), f, opts)
    {
      var from := Start(opts);
      if from == 0 {
        return [];
      }
      replay := [];
      for i := 0 to |buffer|
        invariant replay == Select(f, From(buffer[..i], from))
      {
        var e := buffer[i];
        assert buffer[..i + 1][..i] == buffer[..i];
        if e.sequence >= from {
          SelectAppend(f, From(buffer[..i], from), e);
          if Match(f, e) {
            replay := replay + [e];
          }
        } else {
          assert From(buffer[..i + 1], from) == From(buffer[..i], from);
        }
      }
      assert buffer[..|buffer|] == buffer;
    }

    method Start(opts: Settings) returns (from: nat)
      ensures from == ReplayStart(View(), opts)
    {
      if opts.noReplay {
        return 0;
      }
      if opts.replayFrom == 0 && opts.replayLast == 0 {
        if |buffer| > 0 && buffer[0].sequence > 0 {
          return buffer[0].sequence;
        }
        if limit == 0 || nextSeq == 0 {
          return 0;
        }
        return if nextSeq > limit then nextSeq - limit + 1 else 1;
      }
      from := opts.replayFrom;
      if opts.replayLast > 0 && nextSeq > 0 {
        var lastFrom := 1;
        if nextSeq >= opts.replayLast {
          lastFrom := nextSeq - opts.replayLast + 1;
        }
        if lastFrom > from {
          from := lastFrom;
        }
      }
    }

    method ReplayEvents(f: Filter, opts: Settings) returns (r: Result<seq<Event>>)
      ensures r == Replay(View(), f, opts)
    {
      if opts.raw {
        var raw := ReplayRaw(f, opts);
        return Ok(raw);
      }
      var raw := ReplayRaw(ANY, opts);
      var out := [];
      for i := 0 to |raw|
        invariant Logical(f, raw[..i]) == Ok(out)
      {
        assert raw[..i + 1][..i] == raw[..i];
        match FilterBundle(raw[i], f) {
          case Err =>
            LogicalErr(f, raw, i + 1);
            return Err;
          case Ok(es) => out := out + es;
        }
      }
      assert raw[..|raw|] == raw;
      return Ok(out);
    }

    method Attach(f: Filter, opts: Settings, picks: nat -> Pick) returns (attached: bool)
      requires !stuck
      modifies this
      ensures View() == Subscribe(old(View()), f, opts, picks)
      ensures attached == (!old(closed) && Replay(old(View()), f, opts).Ok? && !stuck)
    {
      if closed {
        return false;
      }
      var r := ReplayEvents(f, opts);
      if r.Err? {
        return false;
      }
      var start := NewSub(nextSeq, limit, f, opts, r.value);
      var sub, ok := SendReplay(start, r.value, picks);
      nextSub := nextSub + 1;
      subs := subs[nextSub := sub];
      stuck := !ok;
      attached := ok;
    }
  }
}
