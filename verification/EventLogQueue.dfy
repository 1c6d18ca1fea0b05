/** The queue between a request's stream and its persisted event log (orchestrator/request.go):
    an unbounded FIFO over a slice with a dead prefix that is compacted away, and a one-slot
    wake channel for its single consumer. */
module EventLogQueue {
  import opened Wrappers

  /** Where the consumer is inside Next: about to take the lock, or blocked in its `select`. */
  datatype Consumer = Checking | Waiting

  /** `accepted` and `returned` are the whole history of enqueues and of events handed out;
      `ended` says end-of-queue was reported. */
  datatype State<T> = State(slots: seq<Option<T>>, head: nat, closed: bool, token: bool, consumer: Consumer,
                            accepted: seq<T>, returned: seq<T>, ended: bool)

  function Create<T>(): State<T> { State([], 0, false, false, Checking, [], [], false) }

  function Enqueue<T>(s: State<T>, e: T): State<T> {
    if s.closed then s else s.(slots := s.slots + [Some(e)], token := true, accepted := s.accepted + [e])
  }

  function Close<T>(s: State<T>): State<T> { if s.closed then s else s.(closed := true, token := true) }

  /** Advance past the slot just read, then reset or compact. */
  function Advance<T>(slots: seq<Option<T>>, head: nat): (seq<Option<T>>, nat) {
    if head == |slots| then ([], 0)
    else if head >= 1024 && head * 2 >= |slots| && head <= |slots| then (slots[head..], 0)
    else (slots, head)
  }

  /** The lock-held part of Next. */
  function Take<T>(s: State<T>): State<T> {
    if s.head < |s.slots| && s.slots[s.head].Some? then
      var (slots, head) := Advance(s.slots[s.head := None], s.head + 1);
      s.(slots := slots, head := head, returned := s.returned + [s.slots[s.head].value])
    else if s.closed then s.(ended := true)
    else s.(consumer := Waiting)
  }

  function Wake<T>(s: State<T>): State<T> { s.(token := false, consumer := Checking) }

  /** The consumer's context is cancelled while it waits: Next returns an error. */
  function GiveUp<T>(s: State<T>): State<T> { s.(consumer := Checking) }

  datatype Step<T> = Enqueued(event: T) | Closed | Took | Woke | GaveUp

  predicate Legal<T>(s: State<T>, step: Step<T>) {
    match step
    case Enqueued(_) => true
    case Closed => true
    case Took => s.consumer == Checking
    case Woke => s.consumer == Waiting && s.token
    case GaveUp => s.consumer == Waiting
  }

  function Apply<T>(s: State<T>, step: Step<T>): State<T> {
    match step
    case Enqueued(e) => Enqueue(s, e)
    case Closed => Close(s)
    case Took => Take(s)
    case Woke => Wake(s)
    case GaveUp => GiveUp(s)
  }

  // ---------------------------------------------------------------- invariant

  /** The events still queued. */
  function Pending<T>(slots: seq<Option<T>>, head: nat): seq<T>
    requires head <= |slots| && forall i :: head <= i < |slots| ==> slots[i].Some?
  {
    seq(|slots| - head, i requires 0 <= i < |slots| - head => slots[head + i].value)
  }

  ghost predicate Inv<T>(s: State<T>) {
    && s.head <= |s.slots|
    && (forall i :: 0 <= i < s.head ==> s.slots[i].None?)
    && (forall i :: s.head <= i < |s.slots| ==> s.slots[i].Some?)
    && s.returned + Pending(s.slots, s.head) == s.accepted
    && (s.head < 1024 || s.head * 2 < |s.slots|)
    && (s.head == |s.slots| ==> s.head == 0)
    && (s.consumer == Waiting && (s.head < |s.slots| || s.closed) ==> s.token)
    && (s.ended ==> s.closed && s.returned == s.accepted)
  }

  lemma TakeKeeps<T>(s: State<T>)
    requires Inv(s) && s.consumer == Checking
    ensures Inv(Take(s))
    ensures s.head < |s.slots| ==> Take(s).returned == s.accepted[..|s.returned| + 1]
    ensures s.head == |s.slots| && s.closed ==> Take(s).ended && s.returned == s.accepted
  {
    hide Pending;
    if s.head < |s.slots| {
      var slots := s.slots[s.head := None];
      PendingHead(s.slots, s.head);
      PendingEnd(slots, s.head + 1);
      var x, more := s.slots[s.head].value, Pending(slots, s.head + 1);
      assert s.returned + ([x] + more) == (s.returned + [x]) + more;
    } else {
      PendingNone(s.slots);
    }
  }

  lemma PendingHead<T>(slots: seq<Option<T>>, head: nat)
    requires head < |slots| && forall i :: head <= i < |slots| ==> slots[i].Some?
    ensures Pending(slots, head) == [slots[head].value] + Pending(slots[head := None], head + 1)
  {
  }

  lemma PendingNone<T>(slots: seq<Option<T>>)
    ensures Pending(slots, |slots|) == []
  {
  }

  /** Resetting an emptied slice and dropping the dead prefix leave what is pending. */
  lemma PendingEnd<T>(slots: seq<Option<T>>, head: nat)
    requires head <= |slots| && forall i :: head <= i < |slots| ==> slots[i].Some?
    ensures var (slots', head') := Advance(slots, head);
            && head' <= |slots'| && (forall i :: head' <= i < |slots'| ==> slots'[i].Some?)
            && Pending(slots', head') == Pending(slots, head)
  {
    var (slots', head') := Advance(slots, head);
    assert |Pending(slots', head')| == |Pending(slots, head)|;
    assert Pending(slots', head') == Pending(slots, head);
  }

  lemma ApplyKeeps<T>(s: State<T>, step: Step<T>)
    requires Inv(s) && Legal(s, step)
    ensures Inv(Apply(s, step))
  {
    match step
    case Took => TakeKeeps(s);
    case Enqueued(e) =>
      if !s.closed {
        var t := Enqueue(s, e);
        assert Pending(t.slots, t.head) == Pending(s.slots, s.head) + [e];
        assert s.returned + (Pending(s.slots, s.head) + [e]) == (s.returned + Pending(s.slots, s.head)) + [e];
      }
    case _ =>
  }

  /** Every interleaving of producers, closer and the one consumer: events come out once each, in
      the order accepted, all of them before end-of-queue is reported; the dead prefix stays
      under 1024 slots or under half the slice; and the consumer never sleeps through work or a
      close, because a wake token is there whenever it waits with either pending. */
  lemma {:induction false} EveryRun<T>(states: seq<State<T>>, steps: seq<Step<T>>)
    requires |states| == |steps| + 1 && states[0] == Create()
    requires forall k :: 0 <= k < |steps| ==> Legal(states[k], steps[k]) && states[k + 1] == Apply(states[k], steps[k])
    ensures Inv(states[|steps|])
  {
    if steps == [] {
      assert Pending<T>([], 0) == [];
    } else {
      var n := |steps| - 1;
      EveryRun(states[..n + 1], steps[..n]);
      ApplyKeeps(states[n], steps[n]);
    }
  }

  // ---------------------------------------------------------------- what was offered

  predicate HasClosed<T>(steps: seq<Step<T>>) { exists k :: 0 <= k < |steps| && steps[k].Closed? }

  /** The events offered before the first Close. */
  function Offered<T>(steps: seq<Step<T>>): seq<T> {
    if steps == [] then []
    else
      var front, last := steps[..|steps| - 1], steps[|steps| - 1];
      Offered(front) + if last.Enqueued? && !HasClosed(front) then [last.event] else []
  }

  /** Accepted are exactly the events offered before the first Close, and what Next returned is a
      prefix of them: all of them once the end was reported. */
  lemma {:induction false} ReturnedAreOffered<T>(states: seq<State<T>>, steps: seq<Step<T>>)
    requires |states| == |steps| + 1 && states[0] == Create()
    requires forall k :: 0 <= k < |steps| ==> Legal(states[k], steps[k]) && states[k + 1] == Apply(states[k], steps[k])
    ensures var s := states[|steps|];
            && s.accepted == Offered(steps) && (s.closed <==> HasClosed(steps))
            && s.returned <= Offered(steps) && (s.ended ==> s.returned == Offered(steps))
  {
    hide Apply, Legal, Inv;
    EveryRun(states, steps);
    InvPrefix(states[|steps|]);
    if steps != [] {
      var n := |steps| - 1;
      var front := steps[..n];
      ReturnedAreOffered(states[..n + 1], front);
      StepAccepts(states[n], steps[n]);
      ClosedMore(front, steps[n]);
      assert front + [steps[n]] == steps;
    }
  }

  lemma StepAccepts<T>(s: State<T>, step: Step<T>)
    ensures var t := Apply(s, step);
            && t.accepted == s.accepted + (if step.Enqueued? && !s.closed then [step.event] else [])
            && t.closed == (s.closed || step.Closed?)
  {
    TakeFixed(s);
    assert s.accepted + [] == s.accepted;
  }

  lemma ClosedMore<T>(front: seq<Step<T>>, step: Step<T>)
    ensures HasClosed(front + [step]) <==> HasClosed(front) || step.Closed?
  {
    var all := front + [step];
    if HasClosed(front) {
      var k :| 0 <= k < |front| && front[k].Closed?;
      assert all[k].Closed?;
    }
    assert all[|front|] == step;
  }

  lemma InvPrefix<T>(s: State<T>)
    requires Inv(s)
    ensures s.returned <= s.accepted && (s.ended ==> s.returned == s.accepted)
  {
  }

  lemma TakeFixed<T>(s: State<T>)
    ensures Take(s).accepted == s.accepted && Take(s).closed == s.closed
  {
  }

  /** A pass of Next that finds work returns one more event. */
  lemma TakeReturns<T>(s: State<T>)
    requires Inv(s) && s.consumer == Checking
    ensures |s.returned| < |s.accepted| ==> |Take(s).returned| == |s.returned| + 1
    ensures |s.returned| == |s.accepted| ==>
              Take(s).returned == s.returned && (if s.closed then Take(s).ended else Take(s).consumer == Waiting)
  {
    NextReadyOrDone(s);
  }

  lemma NextReadyOrDone<T>(s: State<T>)
    requires Inv(s)
    ensures |s.returned| < |s.accepted| <==> s.head < |s.slots|
  {
    assert |Pending(s.slots, s.head)| == |s.slots| - s.head;
  }

  function Wakes<T>(steps: seq<Step<T>>): nat {
    if steps == [] then 0 else Wakes(steps[..|steps| - 1]) + if steps[|steps| - 1].Woke? then 1 else 0
  }

  /** The consumer does not spin: it wakes at most once for each event accepted and once for the
      close. */
  lemma {:induction false} WakesAreBounded<T>(states: seq<State<T>>, steps: seq<Step<T>>)
    requires |states| == |steps| + 1 && states[0] == Create()
    requires forall k :: 0 <= k < |steps| ==> Legal(states[k], steps[k]) && states[k + 1] == Apply(states[k], steps[k])
    ensures var s := states[|steps|];
            Wakes(steps) + (if s.token then 1 else 0) <= |s.accepted| + if s.closed then 1 else 0
  {
    if steps != [] {
      var n := |steps| - 1;
      WakesAreBounded(states[..n + 1], steps[..n]);
      TakeFixed(states[n]);
    }
  }

  // ---------------------------------------------------------------- the queue object

  class LogQueue<T> {
    var slots: seq<Option<T>>
    var head: nat
    var closed: bool
    var token: bool
    ghost var accepted: seq<T>
    ghost var returned: seq<T>

    /** The specification state, with the consumer outside its wait. */
    ghost function View(): State<T>
      reads this
    {
      State(slots, head, closed, token, Checking, accepted, returned, false)
    }

    constructor ()
      ensures View() == Create() && Inv(View())
    {
      slots, head, closed, token, accepted, returned := [], 0, false, false, [], [];
      new;
      assert Pending<T>([], 0) == [];
    }

    method Put(e: T) returns (ok: bool)
      requires Inv(View())
      modifies this
      ensures ok == !old(closed) && View() == Enqueue(old(View()), e) && Inv(View())
    {
      ApplyKeeps(View(), Enqueued(e));
      if closed {
        return false;
      }
      slots, accepted := slots + [Some(e)], accepted + [e];
      token := true;
      return true;
    }

    method Shut()
      requires Inv(View())
      modifies this
      ensures View() == Close(old(View())) && Inv(View())
    {
      ApplyKeeps(View(), Step.Closed);
      if closed {
        return;
      }
      closed, token := true, true;
    }

    /** One pass of Next: the next event in order, end-of-queue, or nothing yet. */
    method TryNext() returns (e: Option<T>, end: bool)
      requires Inv(View())
      modifies this
      ensures Inv(View()) && accepted == old(accepted) && closed == old(closed) && token == old(token)
      ensures e.Some? ==> !end && |old(returned)| < |accepted| && e.value == accepted[|old(returned)|] &&
                          returned == old(returned) + [e.value]
      ensures e.None? ==> returned == old(returned) == accepted && end == closed
    {
      hide Inv;
      NextReady(View());
      if head < |slots| {
        e, end := slots[head], false;
        slots, head, returned := slots[head := None], head + 1, returned + [e.value];
        if head == |slots| {
          slots, head := [], 0;
        } else if head >= 1024 && head * 2 >= |slots| {
          slots, head := slots[head..], 0;
        }
        assert View() == Take(old(View()));
        return;
      }
      return None, closed;
    }
  }

  lemma NextReady<T>(s: State<T>)
    requires Inv(s) && s.consumer == Checking && !s.ended
    ensures s.head <= |s.slots|
    ensures s.head < |s.slots| ==>
              && s.slots[s.head].Some? && Inv(Take(s))
              && |s.returned| < |s.accepted| && s.slots[s.head].value == s.accepted[|s.returned|]
    ensures s.head == |s.slots| ==> s.returned == s.accepted
  {
    TakeKeeps(s);
    if s.head < |s.slots| {
      assert s.accepted[|s.returned|] == Pending(s.slots, s.head)[0];
    } else {
      assert Pending(s.slots, s.head) == [];
    }
  }
}
