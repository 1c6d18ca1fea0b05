/** The runner's phased lifecycle (runner/lifecycle.go, runner/runner.go): Start, StartPolish,
    polish completion, accept, reject, replan, Complete, Abort and the engine goroutine,
    interleaved in any order. Each region run under the state lock, and each atomic load or
    store, is one step. Callers and polish stages between two such regions are counted; only the
    body of startOnce spawns an engine goroutine, so one location says where it is. */
module Lifecycle {
  import opened Wrappers

  datatype Phase = Created | Polishing | AwaitingReview | AwaitingReplan | Executing | Report | Settled
  datatype Status = Pending | Running | Idle | Failed | Canceled
  datatype Door = ByStart | ByAccept

  /** Where the engine goroutine is: before its status check, in the loop, in settle with its
      error (whether that is a cancellation), cleared of a cancellation, past the status write,
      past the plan check, reporting, about to settle, gone. */
  datatype Engine = Unborn | Spawned | Looping | Exited(canceled: bool) | Cleared | Idling | Planned | Reporting
                  | Leaving | Gone

  /** polishers: polish stages in flight; launching: callers between prepareEngineLaunch and
      launchEngine; completing: Complete calls between their phase check and the store of
      completedCleanly, which is `clean`. Histories: prepared, successful preparations; loops,
      engine loops ever entered; door, how the launch was admitted; polished, whether polishing
      ever began; abortedFirst, an Abort before any loop. */
  datatype State = State(phase: Phase, status: Status, hasPlan: bool, startOnce: bool, clean: bool, engine: Engine,
                         polishers: nat, launching: nat, completing: nat,
                         prepared: nat, loops: nat, door: Option<Door>, polished: bool, abortedFirst: bool)

  function Create(hasPlan: bool): State {
    State(Created, Pending, hasPlan, false, false, Unborn, 0, 0, 0, 0, 0, None, false, false)
  }

  /** `ready`: the caller supplied the plan the call needs and its node agents could be prepared. */
  datatype Step =
    | Start(ready: bool) | StartPolish(ready: bool) | PolishDone | PolishFailed(status: Status)
    | Accept(ready: bool) | Reject | Replan(ready: bool) | Abort(status: Status)
    | Launch | CheckStatus | Record(status: Status) | Finish(status: Status, canceled: bool)
    | Complete | StoreClean | LoadClean | WriteIdle | CheckPlan | EnterReport | EndReport | EnterSettled

  /** Whether the step's own guard lets it through; a refused call changes nothing. */
  predicate Passes(s: State, step: Step) {
    match step
    case Start(ready) => ready && s.status == Pending && s.phase == Created
    case StartPolish(ready) => ready && s.hasPlan && (s.phase == Created || s.phase == AwaitingReplan)
    case Accept(ready) => ready && s.status == Pending && s.phase == AwaitingReview
    case Reject => s.phase == AwaitingReview
    case Replan(ready) => ready && s.phase == AwaitingReplan
    case Complete => s.phase == Executing
    case _ => true
  }

  predicate Terminal(st: Status) { st == Failed || st == Canceled }

  /** Steps taken by goroutines need one in the right place; engine and abort write terminal or
      running statuses only, never Pending. */
  predicate Legal(s: State, step: Step) {
    match step
    case PolishDone => s.polishers > 0
    case PolishFailed(st) => s.polishers > 0 && Terminal(st)
    case Abort(st) => Terminal(st)
    case Launch => s.launching > 0
    case CheckStatus => s.engine == Spawned
    case Record(st) => s.engine == Looping && (st == Running || st == Idle)
    case Finish(st, _) => s.engine == Looping && Terminal(st)
    case StoreClean => s.completing > 0
    case LoadClean => s.engine.Exited?
    case WriteIdle => s.engine == Cleared
    case CheckPlan => s.engine == Idling
    case EnterReport => s.engine == Planned
    case EndReport => s.engine == Reporting
    case EnterSettled => s.engine == Leaving
    case _ => true
  }

  /** prepareEngineLaunch. */
  function Prepare(s: State, door: Door): State {
    s.(phase := Executing, launching := s.launching + 1, prepared := s.prepared + 1, door := Some(door))
  }

  function AbortNow(s: State, status: Status): State {
    s.(status := status, phase := Settled, abortedFirst := s.abortedFirst || s.loops == 0)
  }

  function BeginPolish(s: State): State { s.(phase := Polishing, polishers := s.polishers + 1, polished := true) }

  function Apply(s: State, step: Step): State
    requires Legal(s, step)
  {
    if !Passes(s, step) then s
    else
      match step
      case Start(_) => Prepare(s, ByStart)
      case StartPolish(_) => BeginPolish(s)
      case PolishDone => s.(polishers := s.polishers - 1, phase := AwaitingReview)
      case PolishFailed(st) => AbortNow(s.(polishers := s.polishers - 1), st)
      case Accept(_) => Prepare(s.(hasPlan := true), ByAccept)
      case Reject => s.(phase := AwaitingReplan)
      case Replan(_) => BeginPolish(s.(hasPlan := true))
      case Abort(st) => AbortNow(s, st)
      case Launch =>
        if s.startOnce then s.(launching := s.launching - 1)
        else s.(launching := s.launching - 1, startOnce := true, engine := Spawned)
      case CheckStatus =>
        if s.status != Pending then s.(engine := Exited(false))
        else s.(status := Running, engine := Looping, loops := s.loops + 1)
      case Record(st) => s.(status := st)
      case Finish(st, canceled) => s.(status := st, engine := Exited(canceled))
      case Complete => s.(completing := s.completing + 1)
      case StoreClean => s.(completing := s.completing - 1, clean := true)
      case LoadClean => s.(engine := if s.clean && s.engine.canceled then Cleared else Leaving)
      case WriteIdle => s.(status := Idle, engine := Idling)
      case CheckPlan => s.(engine := if s.hasPlan then Planned else Leaving)
      case EnterReport => s.(phase := Report, engine := Reporting)
      case EndReport => s.(engine := Leaving)
      case EnterSettled => s.(phase := Settled, engine := Gone)
  }

  /** The launch token: nobody, a caller, or the engine goroutine. */
  ghost predicate TokenOk(s: State) {
    && s.prepared <= 1 && s.prepared == s.launching + (if s.engine == Unborn then 0 else 1)
    && (s.startOnce <==> s.engine != Unborn)
    && (s.prepared == 1 <==> s.door.Some?)
    && (s.prepared == 1 ==> s.polishers == 0 && (s.phase == Executing || s.phase == Report || s.phase == Settled))
    && (s.prepared == 0 ==> s.phase != Executing && s.phase != Report && s.completing == 0 && !s.clean)
  }

  ghost predicate PolishOk(s: State) {
    && s.polishers <= 1
    && (s.polishers == 1 ==> s.phase == Polishing || s.phase == Settled)
    && (s.phase == Polishing ==> s.polishers == 1)
    && (s.phase == Created ==> !s.polished && s.polishers == 0 && s.status == Pending)
    && (s.polishers > 0 || s.phase == AwaitingReview || s.phase == AwaitingReplan ==> s.polished)
    && (s.polished && s.door.Some? ==> s.door == Some(ByAccept))
    && (s.polished ==> s.hasPlan)
  }

  ghost predicate LoopOk(s: State) {
    && s.loops <= (if Fresh(s.engine) then 0 else 1)
    && (s.loops == 0 ==> (Fresh(s.engine) || s.engine == Exited(false) || s.engine == Leaving || s.engine == Gone) &&
                         s.phase != Report)
    && (s.abortedFirst ==> s.status != Pending && s.loops == 0)
    && (!Fresh(s.engine) || s.phase == Settled ==> s.status != Pending)
    && (s.engine == Planned ==> s.hasPlan) && (s.engine == Gone ==> s.phase == Settled)
  }

  /** The engine goroutine has not checked the status yet. */
  predicate Fresh(e: Engine) { e == Unborn || e == Spawned }

  ghost predicate Inv(s: State) { TokenOk(s) && PolishOk(s) && LoopOk(s) }

  lemma TokenKept(s: State, step: Step)
    requires Inv(s) && Legal(s, step)
    ensures TokenOk(Apply(s, step))
  {
    if !Passes(s, step) {
    } else {
      match step
      case _ =>
    }
  }

  lemma PolishKept(s: State, step: Step)
    requires Inv(s) && Legal(s, step)
    ensures PolishOk(Apply(s, step))
  {
    if !Passes(s, step) {
    } else {
      match step
      case _ =>
    }
  }

  lemma LoopKept(s: State, step: Step)
    requires Inv(s) && Legal(s, step)
    ensures LoopOk(Apply(s, step))
  {
    if !Passes(s, step) {
    } else {
      match step
      case _ =>
    }
  }

  lemma ApplyKeeps(s: State, step: Step)
    requires Inv(s) && Legal(s, step)
    ensures Inv(Apply(s, step))
    ensures s.status != Pending ==> Apply(s, step).status != Pending
    ensures s.abortedFirst ==> Apply(s, step).abortedFirst
  {
    hide TokenOk, PolishOk, LoopOk;
    TokenKept(s, step);
    PolishKept(s, step);
    LoopKept(s, step);
  }

  ghost predicate Run(states: seq<State>, steps: seq<Step>) {
    && |states| == |steps| + 1
    && forall k :: 0 <= k < |steps| ==> Legal(states[k], steps[k]) && states[k + 1] == Apply(states[k], steps[k])
  }

  lemma {:induction false} EveryRun(states: seq<State>, steps: seq<Step>)
    requires Run(states, steps) && Inv(states[0])
    ensures Inv(states[|steps|])
  {
    if steps != [] {
      var n := |steps| - 1;
      EveryRun(states[..n + 1], steps[..n]);
      ApplyKeeps(states[n], steps[n]);
    }
  }

  /** An engine goroutine that has ended, with or without a report, leaves the runner settled for
      good. */
  lemma EngineSettles(states: seq<State>, steps: seq<Step>, hasPlan: bool)
    requires Run(states, steps) && states[0] == Create(hasPlan)
    ensures states[|steps|].engine == Gone ==> states[|steps|].phase == Settled
  {
    EveryRun(states, steps);
  }

  /** At most one engine loop is ever entered; none is when an Abort comes before its status
      check; and once polishing has begun a loop is entered only through an accept. */
  lemma SingleEngine(states: seq<State>, steps: seq<Step>, hasPlan: bool)
    requires Run(states, steps) && states[0] == Create(hasPlan)
    ensures var s := states[|steps|];
            && s.loops <= 1
            && (s.abortedFirst ==> s.loops == 0)
            && (s.loops == 1 && s.polished ==> s.door == Some(ByAccept))
  {
    EveryRun(states, steps);
  }

  /** Abort at step k, before any loop: no later step enters one. */
  lemma {:induction false} AbortPreventsEngine(states: seq<State>, steps: seq<Step>, hasPlan: bool, k: nat)
    requires Run(states, steps) && states[0] == Create(hasPlan)
    requires k < |steps| && steps[k].Abort? && states[k].loops == 0
    ensures states[|steps|].loops == 0 && states[|steps|].abortedFirst
  {
    EveryRun(states, steps);
    AbortSticks(states, steps, k, |steps|);
  }

  lemma {:induction false} AbortSticks(states: seq<State>, steps: seq<Step>, k: nat, n: nat)
    requires Run(states, steps) && Inv(states[0])
    requires k < n <= |steps| && steps[k].Abort? && states[k].loops == 0
    ensures states[n].abortedFirst
    decreases n
  {
    if n > k + 1 {
      AbortSticks(states, steps, k, n - 1);
      EveryRun(states[..n], steps[..n - 1]);
      ApplyKeeps(states[n - 1], steps[n - 1]);
    }
  }

  // ---------------------------------------------------------------- guards

  /** A call changes something exactly in the states the source lets it through in, and never when
      its plan is missing or its agents could not be prepared. */
  lemma CallsPassIff(s: State, ready: bool)
    ensures Apply(s, Start(ready)) != s <==> ready && s.status == Pending && s.phase == Created
    ensures Apply(s, Accept(ready)) != s <==> ready && s.status == Pending && s.phase == AwaitingReview
    ensures Apply(s, StartPolish(ready)) != s <==>
            ready && s.hasPlan && (s.phase == Created || s.phase == AwaitingReplan)
    ensures Apply(s, Replan(ready)) != s <==> ready && s.phase == AwaitingReplan
    ensures Apply(s, Reject) != s <==> s.phase == AwaitingReview
    ensures Apply(s, Complete) != s <==> s.phase == Executing
    ensures Apply(s, Accept(ready)) != s ==> Apply(s, Accept(ready)).hasPlan
    ensures Apply(s, Replan(ready)) != s ==> Apply(s, Replan(ready)).hasPlan
  {
    hide Apply;
    LaunchesPassIff(s, ready);
    PolishesPassIff(s, ready);
    ReviewsPassIff(s);
  }

  lemma LaunchesPassIff(s: State, ready: bool)
    ensures Apply(s, Start(ready)) != s <==> ready && s.status == Pending && s.phase == Created
    ensures Apply(s, Accept(ready)) != s <==> ready && s.status == Pending && s.phase == AwaitingReview
    ensures Apply(s, Accept(ready)) != s ==> Apply(s, Accept(ready)).hasPlan
  {
  }

  lemma PolishesPassIff(s: State, ready: bool)
    ensures Apply(s, StartPolish(ready)) != s <==>
            ready && s.hasPlan && (s.phase == Created || s.phase == AwaitingReplan)
    ensures Apply(s, Replan(ready)) != s <==> ready && s.phase == AwaitingReplan
    ensures Apply(s, Replan(ready)) != s ==> Apply(s, Replan(ready)).hasPlan
  {
  }

  lemma ReviewsPassIff(s: State)
    ensures Apply(s, Reject) != s <==> s.phase == AwaitingReview
    ensures Apply(s, Complete) != s <==> s.phase == Executing
  {
  }

  // ---------------------------------------------------------------- reviews

  predicate Reviews(s: State, step: Step) { (step.Accept? || step.Reject?) && Passes(s, step) }

  /** Two reviews that both pass, however far apart, belong to different polish stages: between
      them a polish completes. Competing accepts and rejects of one review cannot both pass. */
  lemma ReviewsAreSeparate(states: seq<State>, steps: seq<Step>, i: nat, j: nat)
    requires Run(states, steps) && i < j < |steps| && Reviews(states[i], steps[i]) && Reviews(states[j], steps[j])
    ensures states[i].phase == AwaitingReview && exists k :: i < k < j && steps[k].PolishDone?
  {
    if forall k :: i < k < j ==> !steps[k].PolishDone? {
      NoNewReview(states, steps, i + 1, j);
    }
  }

  lemma OnlyPolishAsksReview(s: State, step: Step)
    requires Legal(s, step) && s.phase != AwaitingReview && !step.PolishDone?
    ensures Apply(s, step).phase != AwaitingReview
  {
  }

  lemma {:induction false} NoNewReview(states: seq<State>, steps: seq<Step>, i: nat, j: nat)
    requires Run(states, steps) && i <= j <= |steps| && states[i].phase != AwaitingReview
    requires forall k :: i <= k < j ==> !steps[k].PolishDone?
    ensures states[j].phase != AwaitingReview
    decreases j
  {
    hide Legal, Apply;
    if i < j {
      NoNewReview(states, steps, i, j - 1);
      OnlyPolishAsksReview(states[j - 1], steps[j - 1]);
    }
  }

  // ---------------------------------------------------------------- when Settled is final

  /** The engine goroutine will, or may, still enter its report stage: it is past the clean load,
      or it is on its way there with a cancellation and Complete has got through its check. */
  predicate MayReport(s: State) {
    s.hasPlan &&
    match s.engine
    case Cleared => true
    case Idling => true
    case Planned => true
    case Looping => s.clean || s.completing > 0
    case Exited(canceled) => canceled && (s.clean || s.completing > 0)
    case _ => false
  }

  /** From a settled state every continuation stays settled if and only if no polish stage is in
      flight and the engine goroutine can no longer report. */
  lemma SettledIsFinalIff(s: State)
    requires Inv(s) && s.phase == Settled
    ensures (forall states: seq<State>, steps: seq<Step> ::
               Run(states, steps) && states[0] == s ==> states[|steps|].phase == Settled) <==>
            s.polishers == 0 && !MayReport(s)
  {
    if s.polishers == 0 && !MayReport(s) {
      forall states: seq<State>, steps: seq<Step> | Run(states, steps) && states[0] == s
        ensures states[|steps|].phase == Settled
      {
        StaysSettled(states, steps);
      }
    } else {
      var states, steps := LeavesSettled(s);
      assert Run(states, steps) && states[0] == s;
    }
  }

  ghost predicate Final(s: State) { Inv(s) && s.phase == Settled && s.polishers == 0 && !MayReport(s) }

  lemma {:induction false} StaysSettled(states: seq<State>, steps: seq<Step>)
    requires Run(states, steps) && Final(states[0])
    ensures Final(states[|steps|])
  {
    if steps != [] {
      var n := |steps| - 1;
      StaysSettled(states[..n + 1], steps[..n]);
      FinalKept(states[n], steps[n]);
    }
  }

  lemma FinalKept(s: State, step: Step)
    requires Final(s) && Legal(s, step)
    ensures Final(Apply(s, step))
  {
    ApplyKeeps(s, step);
    if !Passes(s, step) {
    } else {
      match step
      case _ =>
    }
  }

  /** The next step on the way out. */
  function WayOut(s: State): Step {
    if s.polishers > 0 then PolishDone
    else if s.completing > 0 && !s.clean && (s.engine == Looping || s.engine.Exited?) then StoreClean
    else
      match s.engine
      case Looping => Finish(Canceled, true)
      case Exited(_) => LoadClean
      case Cleared => WriteIdle
      case Idling => CheckPlan
      case _ => EnterReport
  }

  function Distance(s: State): nat {
    match s.engine
    case Looping => if s.clean then 5 else 6
    case Exited(_) => if s.clean then 4 else 5
    case Cleared => 3
    case Idling => 2
    case _ => 1
  }

  lemma {:induction false} LeavesSettled(s: State) returns (states: seq<State>, steps: seq<Step>)
    requires Inv(s) && s.phase == Settled && (s.polishers > 0 || MayReport(s))
    ensures Run(states, steps) && states[0] == s && states[|steps|].phase != Settled
    decreases Distance(s)
  {
    var step := WayOut(s);
    var t := Apply(s, step);
    ApplyKeeps(s, step);
    if t.phase != Settled {
      states, steps := [s, t], [step];
    } else {
      var states', steps' := LeavesSettled(t);
      states, steps := [s] + states', [step] + steps';
    }
  }

  /** Both ways out are reached: a polish stage that completes after an Abort, and a clean
      completion that an Abort overtakes. */
  lemma SettledCanBeLeft()
    ensures exists states: seq<State>, steps: seq<Step> ::
      && Run(states, steps) && states[0] == Create(true) && |steps| > 0
      && states[|steps| - 1].phase == Settled && states[|steps|].phase == AwaitingReview
    ensures exists states: seq<State>, steps: seq<Step> ::
      && Run(states, steps) && states[0] == Create(true) && |steps| > 0
      && states[|steps| - 1].phase == Settled && states[|steps|].phase == Report
  {
    var s := Create(true).(polished := true);
    var states, steps := [Create(true)], [];
    states, steps := OneMore(states, steps, StartPolish(true), s.(phase := Polishing, polishers := 1));
    var t := s.(status := Failed, abortedFirst := true);
    states, steps := OneMore(states, steps, Abort(Failed), t.(phase := Settled, polishers := 1));
    states, steps := OneMore(states, steps, PolishDone, t.(phase := AwaitingReview));
    ReportAfterAbort();
  }

  lemma ReportAfterAbort()
    ensures exists states: seq<State>, steps: seq<Step> ::
      && Run(states, steps) && states[0] == Create(true) && |steps| > 0
      && states[|steps| - 1].phase == Settled && states[|steps|].phase == Report
  {
    hide Run;
    var states, steps := LoopIsEntered();
    var s := states[|steps|];
    var t := s.(clean := true, engine := Exited(true), status := Canceled);
    states, steps := OneMore(states, steps, Complete, s.(completing := 1));
    states, steps := OneMore(states, steps, StoreClean, s.(clean := true));
    states, steps := OneMore(states, steps, Finish(Canceled, true), t);
    states, steps := OneMore(states, steps, LoadClean, t.(engine := Cleared));
    states, steps := OneMore(states, steps, WriteIdle, t.(engine := Idling, status := Idle));
    states, steps := OneMore(states, steps, CheckPlan, t.(engine := Planned, status := Idle));
    states, steps := OneMore(states, steps, Abort(Failed), t.(engine := Planned, status := Failed, phase := Settled));
    states, steps := OneMore(states, steps, EnterReport, t.(engine := Reporting, status := Failed, phase := Report));
  }

  lemma LoopIsEntered() returns (states: seq<State>, steps: seq<Step>)
    ensures Run(states, steps) && |states| == |steps| + 1 && states[0] == Create(true)
    ensures states[|steps|] ==
            Create(true).(phase := Executing, status := Running, startOnce := true, engine := Looping, prepared := 1,
                          loops := 1, door := Some(ByStart))
  {
    var s := Create(true).(phase := Executing, prepared := 1, door := Some(ByStart));
    states, steps := [Create(true)], [];
    states, steps := OneMore(states, steps, Start(true), s.(launching := 1));
    states, steps := OneMore(states, steps, Launch, s.(startOnce := true, engine := Spawned));
    states, steps := OneMore(states, steps, CheckStatus,
                             s.(startOnce := true, status := Running, engine := Looping, loops := 1));
  }

  lemma OneMore(states: seq<State>, steps: seq<Step>, step: Step, t: State)
    returns (states': seq<State>, steps': seq<Step>)
    requires Run(states, steps) && |states| == |steps| + 1 && Legal(states[|steps|], step)
    requires Apply(states[|steps|], step) == t
    ensures Run(states', steps') && |states'| == |states| + 1 && |steps'| == |steps| + 1
    ensures states'[0] == states[0] && states'[|steps|] == states[|steps|] && states'[|steps'|] == t
  {
    states', steps' := states + [t], steps + [step];
  }

  /** An engine goroutine that lost to an Abort never reports. */
  lemma NoLoopNoReport(states: seq<State>, steps: seq<Step>, hasPlan: bool)
    requires Run(states, steps) && states[0] == Create(hasPlan) && states[|steps|].loops == 0
    ensures states[|steps|].phase != Report && !MayReport(states[|steps|])
  {
    EveryRun(states, steps);
  }

  // ---------------------------------------------------------------- who wrote the status

  /** The status a step writes, if its guard lets it through. */
  function Written(s: State, step: Step): Option<Status> {
    match step
    case Abort(st) => Some(st)
    case PolishFailed(st) => Some(st)
    case Record(st) => Some(st)
    case Finish(st, _) => Some(st)
    case CheckStatus => if s.status == Pending then Some(Running) else None
    case WriteIdle => Some(Idle)
    case _ => None
  }

  predicate Settles(step: Step) { step.Abort? || step.PolishFailed? || step.EnterSettled? }

  function LastWritten(states: seq<State>, steps: seq<Step>): Status
    requires |states| == |steps| + 1
  {
    if steps == [] then Pending
    else
      var n := |steps| - 1;
      var w := Written(states[n], steps[n]);
      if w.Some? then w.value else LastWritten(states[..n + 1], steps[..n])
  }

  lemma StepStatus(s: State, step: Step)
    requires Legal(s, step)
    ensures Apply(s, step).status == if Written(s, step).Some? then Written(s, step).value else s.status
    ensures Settles(step) ==> Apply(s, step).phase == Settled
  {
  }

  /** The status is the one last written, and Pending until then; an Abort, a failed polish and the
      end of the engine goroutine settle the runner. */
  lemma {:induction false} StatusIsLastWritten(states: seq<State>, steps: seq<Step>, hasPlan: bool)
    requires Run(states, steps) && states[0] == Create(hasPlan)
    ensures states[|steps|].status == LastWritten(states, steps)
    ensures steps != [] && Settles(steps[|steps| - 1]) ==> states[|steps|].phase == Settled
  {
    hide Apply, Legal, Written;
    if steps != [] {
      var n := |steps| - 1;
      StatusIsLastWritten(states[..n + 1], steps[..n], hasPlan);
      StepStatus(states[n], steps[n]);
    }
  }

  // ---------------------------------------------------------------- the runner object

  class Runner {
    var phase: Phase
    var status: Status
    var hasPlan: bool
    var startOnce: bool
    var clean: bool
    ghost var rest: State

    /** Fields as stored; goroutine places and histories from the ghost state. */
    ghost function View(): State
      reads this
    {
      rest.(phase := phase, status := status, hasPlan := hasPlan, startOnce := startOnce, clean := clean)
    }

    constructor (hasPlan: bool)
      ensures View() == Create(hasPlan)
    {
      phase, status, this.hasPlan, startOnce, clean, rest := Created, Pending, hasPlan, false, false, Create(hasPlan);
    }

    /** `mutate`: an accept also installs the reviewed plan. */
    method PrepareEngineLaunch(agentsReady: bool, from: Phase, mutate: bool) returns (ok: bool)
      requires from == if mutate then AwaitingReview else Created
      modifies this
      ensures var step := if mutate then Accept(agentsReady) else Start(agentsReady);
              ok == Passes(old(View()), step) && View() == Apply(old(View()), step)
    {
      if !agentsReady {
        return false;
      }
      if status != Pending {
        return false;
      }
      if phase != from {
        return false;
      }
      rest := Apply(View(), if mutate then Accept(true) else Start(true));
      if mutate {
        hasPlan := true;
      }
      phase := Executing;
      return true;
    }

    method LaunchEngine() returns (started: bool)
      requires Legal(View(), Launch)
      modifies this
      ensures started == !old(startOnce) && View() == Apply(old(View()), Launch)
    {
      rest := Apply(View(), Launch);
      started := !startOnce;
      startOnce := true;
    }

    method RunEngineCheck() returns (enters: bool)
      requires Legal(View(), CheckStatus)
      modifies this
      ensures enters == (old(status) == Pending) && View() == Apply(old(View()), CheckStatus)
    {
      rest := Apply(View(), CheckStatus);
      if status != Pending {
        return false;
      }
      status := Running;
      return true;
    }

    method PolishNow(agentsReady: bool) returns (ok: bool)
      modifies this
      ensures ok == Passes(old(View()), StartPolish(agentsReady))
      ensures View() == Apply(old(View()), StartPolish(agentsReady))
    {
      if !agentsReady {
        return false;
      }
      if !hasPlan {
        return false;
      }
      if phase != Created && phase != AwaitingReplan {
        return false;
      }
      rest := Apply(View(), StartPolish(true));
      phase := Polishing;
      return true;
    }

    /** The end of runPolishStage; an error aborts with the status its kind calls for. */
    method CompletePolish(failed: bool, canceled: bool)
      requires Legal(View(), PolishDone)
      modifies this
      ensures View() ==
              Apply(old(View()), if failed then PolishFailed(if canceled then Canceled else Failed) else PolishDone)
    {
      rest := Apply(View(), if failed then PolishFailed(if canceled then Canceled else Failed) else PolishDone);
      if failed {
        status, phase := if canceled then Canceled else Failed, Settled;
      } else {
        phase := AwaitingReview;
      }
    }

    method RejectPolishedPlan() returns (ok: bool)
      modifies this
      ensures ok == Passes(old(View()), Reject) && View() == Apply(old(View()), Reject)
    {
      if phase != AwaitingReview {
        return false;
      }
      phase := AwaitingReplan;
      return true;
    }

    method ReplanWith(planGiven: bool, agentsReady: bool) returns (ok: bool)
      modifies this
      ensures ok == Passes(old(View()), Replan(planGiven && agentsReady))
      ensures View() == Apply(old(View()), Replan(planGiven && agentsReady))
    {
      if !planGiven {
        return false;
      }
      if !agentsReady {
        return false;
      }
      if phase != AwaitingReplan {
        return false;
      }
      rest := Apply(View(), Replan(true));
      hasPlan, phase := true, Polishing;
      return true;
    }

    /** Complete's phase check, under the lock. */
    method BeginComplete() returns (ok: bool)
      modifies this`rest
      ensures ok == Passes(old(View()), Complete) && View() == Apply(old(View()), Complete)
    {
      if phase != Executing {
        return false;
      }
      rest := Apply(View(), Complete);
      return true;
    }

    method StoreCompleted()
      requires Legal(View(), StoreClean)
      modifies this
      ensures View() == Apply(old(View()), StoreClean)
    {
      rest := Apply(View(), StoreClean);
      clean := true;
    }

    /** settle up to its report decision: a cancellation after Complete is cleared. */
    method SettleDecision(canceled: bool) returns (reports: bool)
      requires rest.engine == Exited(canceled)
      modifies this
      ensures reports == (old(clean) && canceled && old(hasPlan))
      ensures View() ==
              var t := Apply(old(View()), LoadClean);
              if t.engine == Cleared then Apply(Apply(t, WriteIdle), CheckPlan) else t
    {
      var cleared := clean && canceled;
      rest := Apply(View(), LoadClean);
      if !cleared {
        return false;
      }
      rest := Apply(View(), WriteIdle);
      status := Idle;
      rest := Apply(View(), CheckPlan);
      reports := hasPlan;
    }

    method AbortRun(canceled: bool)
      modifies this
      ensures View() == Apply(old(View()), Abort(if canceled then Canceled else Failed))
    {
      rest := Apply(View(), Abort(if canceled then Canceled else Failed));
      status := if canceled then Canceled else Failed;
      phase := Settled;
    }
  }
}
