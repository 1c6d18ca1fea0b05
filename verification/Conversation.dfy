/** The event-sourced conversation (llm/conversation.go, llm/event.go): every mutator changes
    the turns in memory and emits one event; folding `Apply` over the log must rebuild the same
    conversation. A mutator is specified by its trace: the events it emits, each with the state
    the conversation is in when that event is recorded. */
module Conversation {
  import opened Wrappers

  datatype Role = User | Assistant | ToolCall | ToolOutput | Reasoning
  datatype Payload = Payload(callId: string, name: string, arguments: string, output: string, error: string)
  datatype Turn = Turn(role: Role, text: string, tool: Option<Payload>, raw: string)
  datatype Usage = Usage(input: int, cached: int, output: int, reasoning: int, total: int)
  datatype Conv = Conv(instructions: string, tools: seq<string>, turns: seq<Turn>, usage: Usage)

  datatype Event =
    | Init(instructions: string, tools: seq<string>)
    | Appended(turn: Option<Turn>)
    | Trimmed(keepLast: int)
    | Dropped(keepLast: int)
    | Replaced(from: int, to: int, replacement: seq<Turn>)
    | Recorded(usage: Option<Usage>)
    | Unknown

  /** What applying an event does: a new state, an error, or a crash of the caller. */
  datatype Replayed = Became(conv: Conv) | Refused | Panicked

  datatype ShrinkConfig = ShrinkConfig(contextWindow: int, threshold: real, keepToolExchanges: int, keepTurns: int)

  /** A summarizer may be absent, and may fail; its answer is a function of the turns it is shown. */
  type Summarizer = Option<seq<Turn> -> Result<string>>

  const NO_USAGE := Usage(0, 0, 0, 0, 0)
  const BLANK := Conv("", [], [], NO_USAGE)
  const SUMMARY_PREFIX := "Conversation summary (compressed history):\n"

  // ---------------------------------------------------------------- edits of the turn list

  function NonNeg(n: int): nat { if n < 0 then 0 else n }

  /** Tool outputs and reasoning are not a place to cut. */
  predicate Rewinds(t: Turn) { t.role == ToolOutput || t.role == Reasoning }

  function Rewind(turns: seq<Turn>, cut: nat): nat
    requires cut <= |turns|
  {
    if 0 < cut < |turns| && Rewinds(turns[cut]) then Rewind(turns, cut - 1) else cut
  }

  /** Where Trim(keepLast) cuts a longer list. */
  function Cut(turns: seq<Turn>, keepLast: int): (c: nat)
    ensures c <= |turns|
  {
    if |turns| <= NonNeg(keepLast) then 0
    else
      RewindBound(turns, |turns| - NonNeg(keepLast));
      Rewind(turns, |turns| - NonNeg(keepLast))
  }

  lemma {:induction false} RewindBound(turns: seq<Turn>, cut: nat)
    requires cut <= |turns|
    ensures Rewind(turns, cut) <= cut
  {
    if 0 < cut < |turns| && Rewinds(turns[cut]) {
      RewindBound(turns, cut - 1);
    }
  }

  predicate HasOutput(t: Turn) { t.role == ToolOutput && t.tool.Some? }

  /** Tool outputs at or after position i. */
  function OutputsFrom(turns: seq<Turn>, i: nat): nat
    requires i <= |turns|
    decreases |turns| - i
  {
    if i == |turns| then 0 else (if HasOutput(turns[i]) then 1 else 0) + OutputsFrom(turns, i + 1)
  }

  function Digits(n: nat): string {
    if n < 10 then [('0' as nat + n) as char] else Digits(n / 10) + [('0' as nat + n % 10) as char]
  }

  function Truncated(t: Turn): Turn
    requires HasOutput(t)
  {
    var note := "[tool output truncated; " + Digits(|t.tool.value.output|) + " bytes]";
    t.(tool := Some(t.tool.value.(output := note)))
  }

  /** Output i is cut down: more than `keep` outputs from it to the end, and it has a body. */
  predicate Evicts(turns: seq<Turn>, keep: nat, i: nat)
    requires i < |turns|
  {
    HasOutput(turns[i]) && OutputsFrom(turns, i) > keep && turns[i].tool.value.output != ""
  }

  function DropDetails(turns: seq<Turn>, keep: nat): (r: seq<Turn>)
    ensures |r| == |turns|
    ensures forall i :: 0 <= i < |r| ==> r[i] == if Evicts(turns, keep, i) then Truncated(turns[i]) else turns[i]
  {
    seq(|turns|, i requires 0 <= i < |turns| => if Evicts(turns, keep, i) then Truncated(turns[i]) else turns[i])
  }

  function Splice(turns: seq<Turn>, from: nat, to: nat, replacement: seq<Turn>): seq<Turn>
    requires from <= to <= |turns|
  {
    turns[..from] + replacement + turns[to..]
  }

  /** ReplaceRange's clamping of its bounds. */
  function Clamped(turns: seq<Turn>, from: int, to: int): (int, int) {
    var lo, hi := if from < 0 then 0 else from, if to > |turns| then |turns| else to;
    (if lo > hi then hi else lo, hi)
  }

  /** Bounds a Go slice expression accepts. */
  predicate Sliceable(turns: seq<Turn>, lo: int, hi: int) { 0 <= lo <= hi <= |turns| }

  predicate ReplacePanics(turns: seq<Turn>, from: int, to: int) {
    !Sliceable(turns, Clamped(turns, from, to).0, Clamped(turns, from, to).1)
  }

  /** "Invalid ranges are clamped" is true of every range but one kind: the clamped bounds are
      legal if and only if `to` is not negative, whatever `from` is; and clamping what is clamped
      changes nothing. */
  lemma ClampingWorksIff(turns: seq<Turn>, from: int, to: int)
    ensures !ReplacePanics(turns, from, to) <==> to >= 0
    ensures to >= 0 ==> var (lo, hi) := Clamped(turns, from, to); Clamped(turns, lo, hi) == (lo, hi)
  {
  }

  lemma NegativeEndPanics()
    ensures ReplacePanics([], 0, -1) && ReplacePanics([Call("a"), Output("a")], 0, -1)
  {
  }

  // ---------------------------------------------------------------- mutators, as traces

  type Trace = seq<(Event, Conv)>

  function Final(c: Conv, t: Trace): Conv { if t == [] then c else t[|t| - 1].1 }

  function AppendT(c: Conv, turn: Turn): Trace { [(Appended(Some(turn)), c.(turns := c.turns + [turn]))] }

  function TrimT(c: Conv, keepLast: int): Trace {
    if |c.turns| <= NonNeg(keepLast) then []
    else [(Trimmed(NonNeg(keepLast)), c.(turns := c.turns[Cut(c.turns, keepLast)..]))]
  }

  /** How many outputs from i on are cut down. */
  function Evictions(turns: seq<Turn>, keep: nat, i: nat): nat
    requires i <= |turns|
    decreases |turns| - i
  {
    if i == |turns| then 0 else Evictions(turns, keep, i + 1) + if Evicts(turns, keep, i) then 1 else 0
  }

  predicate NoneEvicted(turns: seq<Turn>, keep: nat) { forall i :: 0 <= i < |turns| ==> !Evicts(turns, keep, i) }

  function DropT(c: Conv, keepLast: int): Trace {
    if NoneEvicted(c.turns, NonNeg(keepLast)) then []
    else [(Dropped(NonNeg(keepLast)), c.(turns := DropDetails(c.turns, NonNeg(keepLast))))]
  }

  /** A call that panics changes nothing and records nothing. */
  function ReplaceT(c: Conv, from: int, to: int, replacement: seq<Turn>): Trace {
    if ReplacePanics(c.turns, from, to) then []
    else
      var (lo, hi) := Clamped(c.turns, from, to);
      [(Replaced(lo, hi, replacement), c.(turns := Splice(c.turns, lo, hi, replacement)))]
  }

  function SummaryTurn(summary: string): Turn { Turn(Assistant, SUMMARY_PREFIX + summary, None, "") }

  function CompressCut(turns: seq<Turn>, upto: int): nat {
    if upto <= 0 then 0 else Rewind(turns, if upto > |turns| then |turns| else upto)
  }

  /** The trace, and whether the summarizer failed. */
  function CompressT(c: Conv, s: Summarizer, upto: int): (Trace, bool) {
    var cut := CompressCut(c.turns, upto);
    if s.None? || cut == 0 || cut > |c.turns| then ([], false)
    else
      match s.value(c.turns[..cut])
      case Err => ([], true)
      case Ok(summary) => (ReplaceT(c, 0, cut, [SummaryTurn(summary)]), false)
  }

  predicate OverBudget(c: Conv, cfg: ShrinkConfig) {
    cfg.contextWindow > 0 && cfg.threshold > 0.0 &&
    var limit := (cfg.contextWindow as real * cfg.threshold).Floor;
    limit > 0 && c.usage.input >= limit
  }

  /** A summary of the older turns, or a trim when there is none. */
  function ShrinkTurnsT(c: Conv, cfg: ShrinkConfig, s: Summarizer): Trace {
    if s.Some? && |c.turns| > cfg.keepTurns && !CompressT(c, s, |c.turns| - cfg.keepTurns).1
    then CompressT(c, s, |c.turns| - cfg.keepTurns).0
    else TrimT(c, cfg.keepTurns)
  }

  /** maybeAutoShrink: tool bodies first, then the turns. */
  function ShrinkT(c: Conv, cfg: ShrinkConfig, s: Summarizer): Trace {
    if !OverBudget(c, cfg) then []
    else
      var d := DropT(c, cfg.keepToolExchanges);
      d + ShrinkTurnsT(Final(c, d), cfg, s)
  }

  /** The pass reports the summarizer's failure, after trimming instead. */
  predicate ShrinkFails(c: Conv, cfg: ShrinkConfig, s: Summarizer) {
    OverBudget(c, cfg) && TurnsFail(Final(c, DropT(c, cfg.keepToolExchanges)), cfg, s)
  }

  predicate TurnsFail(c: Conv, cfg: ShrinkConfig, s: Summarizer) {
    s.Some? && |c.turns| > cfg.keepTurns && CompressT(c, s, |c.turns| - cfg.keepTurns).1
  }

  function UsageT(c: Conv, u: Usage, cfg: ShrinkConfig, s: Summarizer): Trace {
    var c' := c.(usage := u);
    [(Recorded(Some(u)), c')] + ShrinkT(c', cfg, s)
  }

  // ---------------------------------------------------------------- replay

  function Apply(c: Conv, ev: Event): Replayed {
    match ev
    case Init(instructions, tools) => Became(c.(instructions := instructions, tools := tools))
    case Appended(turn) => if turn.None? then Refused else Became(c.(turns := c.turns + [turn.value]))
    case Trimmed(keep) => Became(Final(c, TrimT(c, keep)))
    case Dropped(keep) => Became(Final(c, DropT(c, keep)))
    case Replaced(from, to, repl) =>
      if ReplacePanics(c.turns, from, to) then Panicked else Became(Final(c, ReplaceT(c, from, to, repl)))
    case Recorded(u) => Became(if u.Some? then c.(usage := u.value) else c)
    case Unknown => Refused
  }

  function Replay(c: Conv, log: seq<Event>): Replayed {
    if log == [] then Became(c)
    else
      var r := Replay(c, log[..|log| - 1]);
      if r.Became? then Apply(r.conv, log[|log| - 1]) else r
  }

  function Events(t: Trace): (r: seq<Event>)
    ensures |r| == |t| && forall k :: 0 <= k < |t| ==> r[k] == t[k].0
  {
    seq(|t|, k requires 0 <= k < |t| => t[k].0)
  }

  /** The state after the first k events. */
  function At(c: Conv, t: Trace, k: nat): Conv
    requires k <= |t|
  {
    if k == 0 then c else t[k - 1].1
  }

  predicate StepOk(c: Conv, t: Trace, k: nat)
    requires k < |t|
  {
    Apply(At(c, t, k), t[k].0) == Became(t[k].1)
  }

  /** Each event of the trace, applied to the state before it, gives the state recorded with it. */
  ghost predicate Faithful(c: Conv, t: Trace) { forall k :: 0 <= k < |t| ==> StepOk(c, t, k) }

  lemma {:induction false} FaithfulReplays(c: Conv, t: Trace, k: nat)
    requires Faithful(c, t) && k <= |t|
    ensures Replay(c, Events(t)[..k]) == Became(At(c, t, k))
  {
    hide Apply;
    if k > 0 {
      FaithfulReplays(c, t, k - 1);
      assert Events(t)[..k][..k - 1] == Events(t)[..k - 1];
      assert StepOk(c, t, k - 1);
    }
  }

  lemma FaithfulConcat(c: Conv, a: Trace, b: Trace)
    requires Faithful(c, a) && Faithful(Final(c, a), b)
    ensures Faithful(c, a + b) && Final(c, a + b) == Final(Final(c, a), b)
  {
    hide Apply;
    forall k | 0 <= k < |a + b| ensures StepOk(c, a + b, k) {
      if k < |a| {
        assert StepOk(c, a, k);
      } else {
        assert StepOk(Final(c, a), b, k - |a|);
      }
    }
  }

  lemma OneStepFaithful(c: Conv, ev: Event, d: Conv)
    requires Apply(c, ev) == Became(d)
    ensures Faithful(c, [(ev, d)])
  {
    assert StepOk(c, [(ev, d)], 0);
  }

  /** Replaying an edit event recomputes the edit: clamped arguments clamp to themselves. */
  lemma TrimFaithful(c: Conv, keep: int)
    ensures Faithful(c, TrimT(c, keep))
  {
    if |c.turns| > NonNeg(keep) {
      assert TrimT(c, NonNeg(keep)) == TrimT(c, keep);
      OneStepFaithful(c, TrimT(c, keep)[0].0, TrimT(c, keep)[0].1);
    }
  }

  lemma DropFaithful(c: Conv, keep: int)
    ensures Faithful(c, DropT(c, keep))
  {
    hide DropDetails, Evicts;
    var t := DropT(c, keep);
    assert NonNeg(NonNeg(keep)) == NonNeg(keep);
    if t != [] {
      OneStepFaithful(c, t[0].0, t[0].1);
    }
  }

  lemma ReplaceFaithful(c: Conv, from: int, to: int, repl: seq<Turn>)
    ensures Faithful(c, ReplaceT(c, from, to, repl))
  {
    ClampingWorksIff(c.turns, from, to);
    if ReplacePanics(c.turns, from, to) {
      EmptyFaithful(c);
    } else {
      var t := ReplaceT(c, from, to, repl);
      var (lo, hi) := Clamped(c.turns, from, to);
      assert ReplaceT(c, lo, hi, repl) == t;
      OneStepFaithful(c, t[0].0, t[0].1);
    }
  }

  lemma ShrinkFaithful(c: Conv, cfg: ShrinkConfig, s: Summarizer)
    ensures Faithful(c, ShrinkT(c, cfg, s))
  {
    hide Apply, Faithful, TrimT, DropT, ReplaceT, Cut, Rewind;
    if !OverBudget(c, cfg) {
      assert ShrinkT(c, cfg, s) == [];
      EmptyFaithful(c);
    } else {
      var d := DropT(c, cfg.keepToolExchanges);
      var c' := Final(c, d);
      DropFaithful(c, cfg.keepToolExchanges);
      TrimFaithful(c', cfg.keepTurns);
      FaithfulConcat(c, d, TrimT(c', cfg.keepTurns));
      if s.Some? && |c'.turns| > cfg.keepTurns {
        var z := CompressT(c', s, |c'.turns| - cfg.keepTurns).0;
        CompressFaithful(c', s, |c'.turns| - cfg.keepTurns);
        FaithfulConcat(c, d, z);
      }
    }
  }

  lemma EmptyFaithful(c: Conv)
    ensures Faithful(c, [])
  {
  }

  lemma CompressFaithful(c: Conv, s: Summarizer, upto: int)
    ensures Faithful(c, CompressT(c, s, upto).0)
  {
    hide Apply, Faithful, ReplaceT, CompressCut;
    EmptyFaithful(c);
    var cut := CompressCut(c.turns, upto);
    if s.None? || cut == 0 || cut > |c.turns| {
    } else {
      match s.value(c.turns[..cut])
      case Err =>
      case Ok(summary) => ReplaceFaithful(c, 0, cut, [SummaryTurn(summary)]);
    }
  }

  // ---------------------------------------------------------------- whole sessions

  datatype Op =
    | Add(turn: Turn)
    | Trim(keepLast: int)
    | Drop(keepLast: int)
    | Replace(from: int, to: int, replacement: seq<Turn>)
    | Compress(summarizer: Summarizer, upto: int)
    | Record(usage: Usage, cfg: ShrinkConfig, summarizer: Summarizer)

  function OpT(c: Conv, op: Op): Trace {
    match op
    case Add(turn) => AppendT(c, turn)
    case Trim(keep) => TrimT(c, keep)
    case Drop(keep) => DropT(c, keep)
    case Replace(from, to, repl) => ReplaceT(c, from, to, repl)
    case Compress(s, upto) => CompressT(c, s, upto).0
    case Record(u, cfg, s) => UsageT(c, u, cfg, s)
  }

  function RunT(c: Conv, ops: seq<Op>): Trace {
    if ops == [] then []
    else
      var t := RunT(c, ops[..|ops| - 1]);
      t + OpT(Final(c, t), ops[|ops| - 1])
  }

  lemma OpFaithful(c: Conv, op: Op)
    ensures Faithful(c, OpT(c, op))
  {
    match op
    case Add(turn) => OneStepFaithful(c, Appended(Some(turn)), c.(turns := c.turns + [turn]));
    case Trim(keep) => TrimFaithful(c, keep);
    case Drop(keep) => DropFaithful(c, keep);
    case Replace(from, to, repl) => ReplaceFaithful(c, from, to, repl);
    case Compress(s, upto) => CompressFaithful(c, s, upto);
    case Record(u, cfg, s) => UsageFaithful(c, u, cfg, s);
  }

  lemma UsageFaithful(c: Conv, u: Usage, cfg: ShrinkConfig, s: Summarizer)
    ensures Faithful(c, UsageT(c, u, cfg, s))
  {
    hide ShrinkT, Faithful;
    OneStepFaithful(c, Recorded(Some(u)), c.(usage := u));
    ShrinkFaithful(c.(usage := u), cfg, s);
    FaithfulConcat(c, [(Recorded(Some(u)), c.(usage := u))], ShrinkT(c.(usage := u), cfg, s));
  }

  lemma {:induction false} RunFaithful(c: Conv, ops: seq<Op>)
    ensures Faithful(c, RunT(c, ops))
  {
    hide OpT, Faithful;
    if ops == [] {
      EmptyFaithful(c);
    } else {
      var t := RunT(c, ops[..|ops| - 1]);
      RunFaithful(c, ops[..|ops| - 1]);
      OpFaithful(Final(c, t), ops[|ops| - 1]);
      FaithfulConcat(c, t, OpT(Final(c, t), ops[|ops| - 1]));
    }
  }

  /** The log of a session opened on a fresh conversation and then mutated by `ops`. */
  function SessionLog(instructions: string, tools: seq<string>, ops: seq<Op>): seq<Event> {
    [Init(instructions, tools)] + Events(RunT(BLANK.(instructions := instructions, tools := tools), ops))
  }

  lemma {:induction false} ReplayConcat(c: Conv, a: seq<Event>, b: seq<Event>)
    requires Replay(c, a).Became?
    ensures Replay(c, a + b) == Replay(Replay(c, a).conv, b)
    decreases |b|
  {
    hide Apply;
    if b == [] {
      assert a + b == a;
    } else {
      ReplayConcat(c, a, b[..|b| - 1]);
      assert (a + b)[..|a + b| - 1] == a + b[..|b| - 1];
    }
  }

  /** Truncating to event t (1 is the init event) and replaying restores exactly the state the
      live conversation was in when event t was recorded, shrink passes included; t = |log| is
      "replay equals live". */
  lemma TruncateRestores(instructions: string, tools: seq<string>, ops: seq<Op>, t: nat)
    requires 1 <= t <= |SessionLog(instructions, tools, ops)|
    ensures var c := BLANK.(instructions := instructions, tools := tools);
            Replay(BLANK, SessionLog(instructions, tools, ops)[..t]) == Became(At(c, RunT(c, ops), t - 1))
  {
    hide RunT, Faithful;
    var c := BLANK.(instructions := instructions, tools := tools);
    var first, rest := [Init(instructions, tools)], Events(RunT(c, ops));
    RunFaithful(c, ops);
    FaithfulReplays(c, RunT(c, ops), t - 1);
    assert (first + rest)[..t] == first + rest[..t - 1];
    assert Replay(BLANK, first) == Became(c) by { assert first[..0] == []; }
    ReplayConcat(BLANK, first, rest[..t - 1]);
  }

  lemma ReplayEqualsLive(instructions: string, tools: seq<string>, ops: seq<Op>)
    ensures var c := BLANK.(instructions := instructions, tools := tools);
            Replay(BLANK, SessionLog(instructions, tools, ops)) == Became(Final(c, RunT(c, ops)))
  {
    hide RunT, Replay;
    var log := SessionLog(instructions, tools, ops);
    TruncateRestores(instructions, tools, ops, |log|);
    assert log[..|log|] == log;
  }

  // ---------------------------------------------------------------- tool calls and their outputs

  predicate Calls(t: Turn, id: string) { t.role == ToolCall && t.tool.Some? && t.tool.value.callId == id }
  predicate Answers(t: Turn, id: string) { t.role == ToolOutput && t.tool.Some? && t.tool.value.callId == id }

  /** The output at j answers the call at i: the nearest call before it with the same id. */
  ghost predicate Pair(turns: seq<Turn>, i: int, j: int) {
    0 <= i < j < |turns| && turns[j].tool.Some? &&
    var id := turns[j].tool.value.callId;
    Answers(turns[j], id) && Calls(turns[i], id) && forall k :: i < k < j ==> !Calls(turns[k], id)
  }

  /** Between a call and its output there are only outputs and reasoning. */
  ghost predicate Compact(turns: seq<Turn>) {
    forall i, j, k :: Pair(turns, i, j) && i < k < j ==> Rewinds(turns[k])
  }

  ghost predicate PairsKept(turns: seq<Turn>, cut: nat) {
    forall i, j :: Pair(turns, i, j) && j >= cut ==> i >= cut
  }

  lemma {:induction false} RewindPast(turns: seq<Turn>, cut: nat, i: nat)
    requires cut <= |turns| && i < |turns|
    requires forall k :: i < k <= cut && k < |turns| ==> Rewinds(turns[k])
    requires cut < |turns| || cut <= i
    ensures Rewind(turns, cut) <= i
    decreases cut
  {
    if cut <= i {
      RewindBound(turns, cut);
    } else {
      RewindPast(turns, cut - 1, i);
    }
  }

  /** The nudged cut never separates an output from its call, for every keep count, if and only
      if nothing but outputs and reasoning sits between each call and its output. In particular
      two calls made in one response and answered afterwards can be torn apart. */
  lemma TrimKeepsPairsIff(turns: seq<Turn>)
    ensures (forall keep: int :: PairsKept(turns, Cut(turns, keep))) <==> Compact(turns)
  {
    if Compact(turns) {
      forall keep: int ensures PairsKept(turns, Cut(turns, keep)) { CompactCutKeepsPairs(turns, keep); }
    } else {
      var i, j, k :| Pair(turns, i, j) && i < k < j && !Rewinds(turns[k]);
      assert Cut(turns, |turns| - k) == k;
      assert !PairsKept(turns, Cut(turns, |turns| - k));
    }
  }

  /** The same condition decides it for Compress, whatever prefix it is asked to fold. */
  lemma CompressKeepsPairsIff(turns: seq<Turn>)
    ensures (forall upto: int :: PairsKept(turns, CompressCut(turns, upto))) <==> Compact(turns)
  {
    if Compact(turns) {
      forall upto: int ensures PairsKept(turns, CompressCut(turns, upto)) {
        if upto > 0 {
          var raw := if upto > |turns| then |turns| else upto;
          forall i, j | Pair(turns, i, j) && j >= CompressCut(turns, upto) ensures i >= CompressCut(turns, upto) {
            CutAvoids(turns, raw, i, j);
          }
        }
      }
    } else {
      var i, j, k :| Pair(turns, i, j) && i < k < j && !Rewinds(turns[k]);
      assert CompressCut(turns, k) == k;
      assert !PairsKept(turns, CompressCut(turns, k));
    }
  }

  function Call(id: string): Turn { Turn(ToolCall, "", Some(Payload(id, "tool", "{}", "", "")), "") }
  function Output(id: string): Turn { Turn(ToolOutput, "", Some(Payload(id, "", "", "done", "")), "") }

  /** Two calls in one response, answered one after the other: keeping three turns keeps the
      first output and drops its call. */
  lemma ParallelCallsAreTorn()
    ensures var turns := [Call("a"), Call("b"), Output("a"), Output("b")];
            Cut(turns, 3) == 1 && Pair(turns, 0, 2) && !PairsKept(turns, Cut(turns, 3))
  {
    var turns := [Call("a"), Call("b"), Output("a"), Output("b")];
    assert turns[1].role == ToolCall;
    assert Pair(turns, 0, 2);
  }

  // ---------------------------------------------------------------- calls still to be answered

  /** A call whose output is still to come. */
  ghost predicate Open(turns: seq<Turn>, i: int) {
    0 <= i < |turns| && turns[i].role == ToolCall && turns[i].tool.Some? &&
    forall j :: i < j < |turns| ==> !Answers(turns[j], turns[i].tool.value.callId)
  }

  ghost predicate OpenKept(turns: seq<Turn>, cut: nat) { forall i :: Open(turns, i) ==> cut <= i }

  /** Nothing but outputs and reasoning has come after a call that is still open. */
  ghost predicate OpenInPlace(turns: seq<Turn>) {
    forall i, k :: Open(turns, i) && i < k < |turns| ==> Rewinds(turns[k])
  }

  lemma OpenCutKept(turns: seq<Turn>, raw: nat)
    requires OpenInPlace(turns) && raw < |turns|
    ensures OpenKept(turns, Rewind(turns, raw))
  {
    forall i | Open(turns, i) ensures Rewind(turns, raw) <= i { InPlaceBounds(turns, raw, i); }
  }

  /** The cut never drops a call still to be answered, for every keep count from 1 on, if and only
      if nothing but outputs and reasoning has come after each open call. With the condition on
      answered calls this is when trimming never tears a call from its output, past or future. */
  lemma TrimKeepsOpenIff(turns: seq<Turn>)
    ensures (forall keep: int :: keep >= 1 ==> OpenKept(turns, Cut(turns, keep))) <==> OpenInPlace(turns)
  {
    if OpenInPlace(turns) {
      forall keep: int | keep >= 1 ensures OpenKept(turns, Cut(turns, keep)) {
        if |turns| > keep {
          OpenCutKept(turns, |turns| - keep);
        }
      }
    } else {
      var i, k :| Open(turns, i) && i < k < |turns| && !Rewinds(turns[k]);
      assert Cut(turns, |turns| - k) == k;
      assert !OpenKept(turns, Cut(turns, |turns| - k));
    }
  }

  /** The same condition decides it for Compress that folds any proper prefix. */
  lemma CompressKeepsOpenIff(turns: seq<Turn>)
    ensures (forall upto: int :: upto < |turns| ==> OpenKept(turns, CompressCut(turns, upto))) <==> OpenInPlace(turns)
  {
    if OpenInPlace(turns) {
      forall upto: int | upto < |turns| ensures OpenKept(turns, CompressCut(turns, upto)) {
        if upto > 0 {
          OpenCutKept(turns, upto);
        }
      }
    } else {
      var i, k :| Open(turns, i) && i < k < |turns| && !Rewinds(turns[k]);
      assert CompressCut(turns, k) == k;
      assert !OpenKept(turns, CompressCut(turns, k));
    }
  }

  /** Two calls of one response, both open: nothing is torn yet, but keeping one turn drops the
      first call, and the output that then arrives has lost it. */
  lemma OpenCallsAreTorn()
    ensures var turns := [Call("a"), Call("b")];
            && Tidy(turns) && Open(turns, 0) && Cut(turns, 1) == 1
            && !Tidy(turns[Cut(turns, 1)..] + [Output("a")])
  {
    var turns := [Call("a"), Call("b")];
    assert forall i, j :: !Pair(turns, i, j);
    assert turns[1].role == ToolCall;
    var later := turns[1..] + [Output("a")];
    assert later == [Call("b"), Output("a")];
    assert forall i :: !Pair(later, i, 1);
    assert later[1].role == ToolOutput;
  }

  lemma CompactCutKeepsPairs(turns: seq<Turn>, keep: int)
    requires Compact(turns)
    ensures PairsKept(turns, Cut(turns, keep))
  {
    var raw := |turns| - NonNeg(keep);
    if raw > 0 {
      forall i, j | Pair(turns, i, j) && j >= Cut(turns, keep) ensures i >= Cut(turns, keep) {
        CutAvoids(turns, raw, i, j);
      }
    }
  }

  /** A cut that starts anywhere and is nudged does not land between a compact pair. */
  lemma CutAvoids(turns: seq<Turn>, raw: nat, i: int, j: int)
    requires Pair(turns, i, j) && raw <= |turns| && forall k :: i < k < j ==> Rewinds(turns[k])
    ensures Rewind(turns, raw) <= i || Rewind(turns, raw) > j
  {
    if raw <= i {
      RewindBound(turns, raw);
    } else if raw <= j {
      RewindPast(turns, raw, i);
      RewindBound(turns, raw);
    } else {
      RewindStops(turns, raw, j);
      if Rewind(turns, raw) <= j {
        RewindPast(turns, j, i);
        RewindBound(turns, j);
      }
    }
  }

  /** Rewinding either stops above j or passes through it. */
  lemma {:induction false} RewindStops(turns: seq<Turn>, cut: nat, j: nat)
    requires j < cut <= |turns|
    ensures Rewind(turns, cut) > j || Rewind(turns, cut) == Rewind(turns, j)
    decreases cut
  {
    if 0 < cut < |turns| && Rewinds(turns[cut]) && cut - 1 > j {
      RewindStops(turns, cut - 1, j);
    }
  }

  /** Every output follows its call, with only outputs and reasoning in between. */
  ghost predicate Tidy(turns: seq<Turn>) {
    Compact(turns) && forall j :: 0 <= j < |turns| && turns[j].role == ToolOutput ==> exists i :: Pair(turns, i, j)
  }

  lemma PairShift(a: seq<Turn>, b: seq<Turn>, shift: nat, i: int, j: int)
    requires |b| == |a| + shift && forall k :: 0 <= k < |a| ==> b[k + shift] == a[k]
    requires 0 <= i
    ensures Pair(a, i, j) <==> Pair(b, i + shift, j + shift)
  {
    assert forall k :: shift <= k < |b| ==> b[k] == a[k - shift];
  }

  /** A cut that keeps pairs together leaves a tidy list. */
  lemma TidySuffix(turns: seq<Turn>, cut: nat)
    requires Tidy(turns) && cut <= |turns| && PairsKept(turns, cut)
    ensures Tidy(turns[cut..])
  {
    var rest := turns[cut..];
    forall i, j, k | Pair(rest, i, j) && i < k < j ensures Rewinds(rest[k]) {
      PairShift(rest, turns, cut, i, j);
      assert Rewinds(turns[k + cut]);
    }
    forall j | 0 <= j < |rest| && rest[j].role == ToolOutput ensures exists i :: Pair(rest, i, j) {
      var i :| Pair(turns, i, j + cut);
      PairShift(rest, turns, cut, i - cut, j);
      assert Pair(rest, i - cut, j);
    }
  }

  lemma TidyPrepend(s: Turn, turns: seq<Turn>)
    requires Tidy(turns) && s.role != ToolCall && s.role != ToolOutput
    ensures Tidy([s] + turns)
  {
    hide Pair;
    var all := [s] + turns;
    forall i, j | Pair(all, i, j) ensures 1 <= i < j < |all| && Pair(turns, i - 1, j - 1) {
      PairUnshift(s, turns, i, j);
    }
    forall i, j, k | Pair(all, i, j) && i < k < j ensures Rewinds(all[k]) {
      assert Pair(turns, i - 1, j - 1) && all[k] == turns[k - 1];
    }
    forall j | 0 <= j < |all| && all[j].role == ToolOutput ensures exists i :: Pair(all, i, j) {
      PairPrepend(turns, all, j);
    }
  }

  lemma PairPrepend(turns: seq<Turn>, all: seq<Turn>, j: nat)
    requires 0 < j <= |turns| && |all| == |turns| + 1 && all[1..] == turns
    requires turns[j - 1].role == ToolOutput && Tidy(turns)
    ensures exists i :: Pair(all, i, j)
  {
    hide Pair;
    var before := j - 1;
    var i :| Pair(turns, i, before);
    PairRange(turns, i, before);
    PairShift(turns, all, 1, i, before);
    assert Pair(all, i + 1, j);
  }

  lemma PairRange(turns: seq<Turn>, i: int, j: int)
    requires Pair(turns, i, j)
    ensures 0 <= i < j < |turns|
  {
  }

  lemma PairUnshift(s: Turn, turns: seq<Turn>, i: int, j: int)
    requires Pair([s] + turns, i, j) && s.role != ToolCall
    ensures 1 <= i < j <= |turns| && Pair(turns, i - 1, j - 1)
  {
    var all := [s] + turns;
    assert i > 0 by { assert all[0] == s; }
    assert Pair(turns, i - 1, j - 1) by {
      hide Pair;
      assert forall k :: 0 <= k < |turns| ==> all[k + 1] == turns[k];
      PairShift(turns, all, 1, i - 1, j - 1);
    }
  }

  /** Pairing looks only at roles and call ids. */
  lemma PairSameShape(a: seq<Turn>, b: seq<Turn>, i: int, j: int)
    requires |a| == |b|
    requires forall k :: 0 <= k < |a| ==> a[k].role == b[k].role && a[k].tool.Some? == b[k].tool.Some?
    requires forall k :: 0 <= k < |a| && a[k].tool.Some? ==> a[k].tool.value.callId == b[k].tool.value.callId
    ensures Pair(a, i, j) <==> Pair(b, i, j)
  {
    if 0 <= i < j < |a| && a[j].tool.Some? {
      assert forall k, id :: 0 <= k < |a| ==> (Calls(a[k], id) <==> Calls(b[k], id));
    }
  }

  lemma TidySameShape(a: seq<Turn>, b: seq<Turn>)
    requires Tidy(a) && |a| == |b|
    requires forall k :: 0 <= k < |a| ==> a[k].role == b[k].role && a[k].tool.Some? == b[k].tool.Some?
    requires forall k :: 0 <= k < |a| && a[k].tool.Some? ==> a[k].tool.value.callId == b[k].tool.value.callId
    ensures Tidy(b)
  {
    forall i, j ensures Pair(a, i, j) <==> Pair(b, i, j) { PairSameShape(a, b, i, j); }
    forall j | 0 <= j < |b| && b[j].role == ToolOutput ensures exists i :: Pair(b, i, j) {
      var i :| Pair(a, i, j);
      assert Pair(b, i, j);
    }
  }

  /** The latest call with this id is followed by nothing but outputs and reasoning. */
  ghost predicate CanAnswer(turns: seq<Turn>, id: string) {
    exists i :: 0 <= i < |turns| && Calls(turns[i], id) && forall k :: i < k < |turns| ==> Rewinds(turns[k])
  }

  lemma TidyAdd(turns: seq<Turn>, t: Turn)
    requires Tidy(turns)
    requires t.role == ToolOutput ==> t.tool.Some? && CanAnswer(turns, t.tool.value.callId)
    ensures Tidy(turns + [t])
  {
    var all, n := turns + [t], |turns|;
    forall i, j | 0 <= j < n ensures Pair(all, i, j) <==> Pair(turns, i, j) {
      assert forall k :: 0 <= k < n ==> all[k] == turns[k];
    }
    if t.role == ToolOutput {
      var id := t.tool.value.callId;
      var c :| 0 <= c < n && Calls(turns[c], id) && forall k :: c < k < n ==> Rewinds(turns[k]);
      assert Pair(all, c, n);
      assert forall i :: Pair(all, i, n) ==> i == c;
    }
    forall j | 0 <= j < |all| && all[j].role == ToolOutput ensures exists i :: Pair(all, i, j) {
      if j < n {
        var i :| Pair(turns, i, j);
        assert Pair(all, i, j);
      }
    }
    forall i, j, k | Pair(all, i, j) && i < k < j ensures Rewinds(all[k]) {
      if j < n {
        assert Rewinds(turns[k]);
      }
    }
  }

  lemma TidyCut(turns: seq<Turn>, raw: nat)
    requires Tidy(turns) && raw <= |turns|
    ensures Rewind(turns, raw) <= raw && Tidy(turns[Rewind(turns, raw)..])
  {
    RewindBound(turns, raw);
    forall i, j | Pair(turns, i, j) && j >= Rewind(turns, raw) ensures i >= Rewind(turns, raw) {
      CutAvoids(turns, raw, i, j);
    }
    TidySuffix(turns, Rewind(turns, raw));
  }

  lemma TidyDrop(turns: seq<Turn>, keep: nat)
    requires Tidy(turns)
    ensures Tidy(DropDetails(turns, keep))
  {
    TidySameShape(turns, DropDetails(turns, keep));
  }

  // ---------------------------------------------------------------- what shrinking keeps

  /** A call that an output could still follow in place. */
  ghost predicate InPlaceCall(turns: seq<Turn>, i: int) {
    0 <= i < |turns| && turns[i].role == ToolCall && forall k :: i < k < |turns| ==> Rewinds(turns[k])
  }

  lemma InPlaceBounds(turns: seq<Turn>, raw: nat, i: int)
    requires raw < |turns| && InPlaceCall(turns, i)
    ensures Rewind(turns, raw) <= i
  {
    if raw <= i {
      RewindBound(turns, raw);
    } else {
      RewindPast(turns, raw, i);
    }
  }

  /** `out` is `turns` from `cut` on, possibly behind one summary turn. */
  predicate KeptFrom(turns: seq<Turn>, out: seq<Turn>, cut: nat) {
    cut <= |turns| &&
    (out == turns[cut..] || (out != [] && out[0].role == Assistant && out[0].tool.None? && out[1..] == turns[cut..]))
  }

  /** A call and its output with only outputs and reasoning in between. */
  ghost predicate NearPair(turns: seq<Turn>, i: int, j: int) {
    Pair(turns, i, j) && forall k :: i < k < j ==> Rewinds(turns[k])
  }

  ghost predicate NoNearPairCut(turns: seq<Turn>, cut: nat) {
    forall i, j :: NearPair(turns, i, j) ==> cut <= i || cut > j
  }

  /** A suffix is left, at least `keep` long when there is as much, that starts no later than any
      call that can still be answered in place and cuts through no near pair. */
  ghost predicate KeptSuffix(turns: seq<Turn>, out: seq<Turn>, keep: nat) {
    exists cut: nat ::
      && KeptFrom(turns, out, cut) && (cut + keep <= |turns| || cut == 0)
      && (keep >= 1 ==> forall i :: InPlaceCall(turns, i) ==> cut <= i)
      && NoNearPairCut(turns, cut)
  }

  lemma CutIsClean(turns: seq<Turn>, raw: nat)
    requires raw <= |turns|
    ensures NoNearPairCut(turns, Rewind(turns, raw)) && NoNearPairCut(turns, 0)
  {
    hide Pair, Rewind;
    forall i, j | NearPair(turns, i, j) ensures 0 <= i && (Rewind(turns, raw) <= i || Rewind(turns, raw) > j) {
      PairRange(turns, i, j);
      CutAvoids(turns, raw, i, j);
    }
  }

  lemma TrimKeepsSuffix(c: Conv, keepLast: int)
    ensures KeptSuffix(c.turns, Final(c, TrimT(c, keepLast)).turns, NonNeg(keepLast))
    ensures Tidy(c.turns) ==> Tidy(Final(c, TrimT(c, keepLast)).turns)
  {
    hide Tidy, InPlaceCall, NoNearPairCut;
    var turns, keep := c.turns, NonNeg(keepLast);
    CutIsClean(turns, if |turns| <= keep then 0 else |turns| - keep);
    if |turns| <= keep {
      assert KeptFrom(turns, turns, 0);
      forall i | InPlaceCall(turns, i) ensures 0 <= i { InPlaceRange(turns, i); }
    } else {
      var raw := |turns| - keep;
      RewindBound(turns, raw);
      if keep >= 1 {
        forall i | InPlaceCall(turns, i) ensures Rewind(turns, raw) <= i { InPlaceBounds(turns, raw, i); }
      }
      if Tidy(turns) {
        TidyCut(turns, raw);
      }
      assert KeptFrom(turns, turns[Rewind(turns, raw)..], Rewind(turns, raw));
    }
  }

  lemma InPlaceRange(turns: seq<Turn>, i: int)
    requires InPlaceCall(turns, i)
    ensures 0 <= i < |turns|
  {
  }

  lemma CompressKeepsSuffix(c: Conv, s: Summarizer, upto: int)
    ensures var out := Final(c, CompressT(c, s, upto).0).turns;
            KeptSuffix(c.turns, out, NonNeg(|c.turns| - upto)) && (Tidy(c.turns) ==> Tidy(out))
  {
    hide Tidy, InPlaceCall, NoNearPairCut;
    var turns, keep := c.turns, NonNeg(|c.turns| - upto);
    CutIsClean(turns, if |turns| <= keep then 0 else |turns| - keep);
    var cut := CompressCut(turns, upto);
    var (t, failed) := CompressT(c, s, upto);
    if t == [] {
      assert KeptFrom(turns, turns, 0);
      forall i | InPlaceCall(turns, i) ensures 0 <= i { InPlaceRange(turns, i); }
    } else {
      var raw := |turns| - keep;
      assert cut == Rewind(turns, raw);
      RewindBound(turns, raw);
      var summary := s.value(turns[..cut]).value;
      var out := [SummaryTurn(summary)] + turns[cut..];
      assert Final(c, t).turns == out;
      if keep >= 1 {
        forall i | InPlaceCall(turns, i) ensures cut <= i { InPlaceBounds(turns, raw, i); }
      }
      if Tidy(turns) {
        TidyCut(turns, raw);
        TidyPrepend(SummaryTurn(summary), turns[cut..]);
      }
      assert out[1..] == turns[cut..];
      assert KeptFrom(turns, out, cut) && cut + keep <= |turns|;
    }
  }

  /** One whole auto-shrink pass, with or without a summarizer and whether or not it fails: the
      turns left are the bodies-dropped turns from some point on, at least KeepTurns of them,
      including every call that can be answered in place when KeepTurns >= 1, and a tidy
      conversation stays tidy. */
  lemma ShrinkKeeps(c: Conv, cfg: ShrinkConfig, s: Summarizer)
    ensures var out := Final(c, ShrinkT(c, cfg, s));
            && out.instructions == c.instructions && out.tools == c.tools && out.usage == c.usage
            && (KeptSuffix(DropDetails(c.turns, NonNeg(cfg.keepToolExchanges)), out.turns, NonNeg(cfg.keepTurns))
                || out.turns == c.turns)
            && (Tidy(c.turns) ==> Tidy(out.turns))
  {
    hide KeptSuffix, Tidy, DropDetails, TrimT, CompressT;
    if OverBudget(c, cfg) {
      var d := DropT(c, cfg.keepToolExchanges);
      var c' := Final(c, d);
      DropShape(c, cfg.keepToolExchanges);
      TrimKeepsSuffix(c', cfg.keepTurns);
      TrimFrame(c', cfg.keepTurns);
      if s.Some? && |c'.turns| > cfg.keepTurns {
        CompressKeepsSuffix(c', s, |c'.turns| - cfg.keepTurns);
        CompressFrame(c', s, |c'.turns| - cfg.keepTurns);
      }
    }
  }

  /** The pass leaves the call at i in the list: it did nothing, or it cut no later. */
  ghost predicate PassKeeps(c: Conv, cfg: ShrinkConfig, s: Summarizer, i: int) {
    var out := Final(c, ShrinkT(c, cfg, s)).turns;
    out == c.turns ||
    exists cut: nat :: cut <= i && KeptFrom(DropDetails(c.turns, NonNeg(cfg.keepToolExchanges)), out, cut)
  }

  /** No auto-shrink pass that keeps a turn ever drops an open call, under any configuration and
      summarizer, if and only if no usage was reported or nothing but outputs and reasoning has
      come after each open call. The source runs the pass while all calls of a response are open. */
  lemma ShrinkKeepsOpenIff(c: Conv)
    ensures (forall cfg: ShrinkConfig, s: Summarizer, i: int ::
               cfg.keepTurns >= 1 && Open(c.turns, i) ==> PassKeeps(c, cfg, s, i)) <==>
            c.usage.input <= 0 || OpenInPlace(c.turns)
  {
    hide PassKeeps, Open, OpenInPlace;
    if c.usage.input <= 0 || OpenInPlace(c.turns) {
      forall cfg: ShrinkConfig, s: Summarizer, i: int | cfg.keepTurns >= 1 && Open(c.turns, i)
        ensures PassKeeps(c, cfg, s, i)
      {
        PassKeepsInPlace(c, cfg, s, i);
      }
    } else {
      PassTears(c);
    }
  }

  lemma PassKeepsInPlace(c: Conv, cfg: ShrinkConfig, s: Summarizer, i: int)
    requires cfg.keepTurns >= 1 && Open(c.turns, i) && (c.usage.input <= 0 || OpenInPlace(c.turns))
    ensures PassKeeps(c, cfg, s, i)
  {
    hide ShrinkT, Answers;
    if c.usage.input <= 0 {
      NoPass(c, cfg, s);
    } else {
      ShrinkKeeps(c, cfg, s);
      var out := Final(c, ShrinkT(c, cfg, s)).turns;
      if out != c.turns {
        var d := DropDetails(c.turns, NonNeg(cfg.keepToolExchanges));
        assert InPlaceCall(d, i);
        var cut: nat :| KeptFrom(d, out, cut) && forall k :: InPlaceCall(d, k) ==> cut <= k;
      }
    }
  }

  /** The pass keeps a call and its output together: it did nothing, or did not cut between them. */
  ghost predicate PassKeepsPair(c: Conv, cfg: ShrinkConfig, s: Summarizer, i: int, j: int) {
    var out := Final(c, ShrinkT(c, cfg, s)).turns;
    out == c.turns ||
    exists cut: nat ::
      (cut <= i || cut > j) && KeptFrom(DropDetails(c.turns, NonNeg(cfg.keepToolExchanges)), out, cut)
  }

  /** No auto-shrink pass, under any configuration and summarizer, separates an output from its
      call if and only if no usage was reported or every pair is compact. */
  lemma ShrinkKeepsPairsIff(c: Conv)
    ensures (forall cfg: ShrinkConfig, s: Summarizer, i: int, j: int ::
               Pair(c.turns, i, j) ==> PassKeepsPair(c, cfg, s, i, j)) <==>
            c.usage.input <= 0 || Compact(c.turns)
  {
    hide PassKeepsPair, Pair, Compact;
    if c.usage.input <= 0 || Compact(c.turns) {
      forall cfg: ShrinkConfig, s: Summarizer, i: int, j: int | Pair(c.turns, i, j)
        ensures PassKeepsPair(c, cfg, s, i, j)
      {
        PassKeepsNear(c, cfg, s, i, j);
      }
    } else {
      PassTearsPair(c);
    }
  }

  lemma PassKeepsNear(c: Conv, cfg: ShrinkConfig, s: Summarizer, i: int, j: int)
    requires Pair(c.turns, i, j) && (c.usage.input <= 0 || Compact(c.turns))
    ensures PassKeepsPair(c, cfg, s, i, j)
  {
    hide ShrinkT, Pair, DropDetails;
    if c.usage.input <= 0 {
      NoPass(c, cfg, s);
    } else {
      ShrinkKeeps(c, cfg, s);
      var out := Final(c, ShrinkT(c, cfg, s)).turns;
      if out != c.turns {
        var d := DropDetails(c.turns, NonNeg(cfg.keepToolExchanges));
        PairRange(c.turns, i, j);
        DropPairs(c.turns, NonNeg(cfg.keepToolExchanges), i, j);
        assert NearPair(d, i, j);
        var cut: nat :| KeptFrom(d, out, cut) && NoNearPairCut(d, cut);
      }
    }
  }

  lemma DropPairs(turns: seq<Turn>, keep: nat, i: int, j: int)
    ensures Pair(turns, i, j) <==> Pair(DropDetails(turns, keep), i, j)
    ensures forall k :: 0 <= k < |turns| ==> (Rewinds(turns[k]) <==> Rewinds(DropDetails(turns, keep)[k]))
  {
    PairSameShape(turns, DropDetails(turns, keep), i, j);
  }

  lemma PassTearsPair(c: Conv)
    requires c.usage.input > 0 && !Compact(c.turns)
    ensures exists cfg: ShrinkConfig, s: Summarizer, i: int, j: int ::
              Pair(c.turns, i, j) && !PassKeepsPair(c, cfg, s, i, j)
  {
    hide ShrinkT, DropDetails;
    var i, j, k :| Pair(c.turns, i, j) && i < k < j && !Rewinds(c.turns[k]);
    PairRange(c.turns, i, j);
    var cfg, s: Summarizer := ShrinkConfig(1, 1.0, 0, |c.turns| - k), None;
    var d := DropDetails(c.turns, 0);
    assert Final(c, ShrinkT(c, cfg, s)).turns == d[k..] by { TrimAt(c, k); }
    assert !PassKeepsPair(c, cfg, s, i, j);
  }

  lemma NoPass(c: Conv, cfg: ShrinkConfig, s: Summarizer)
    requires c.usage.input <= 0
    ensures Final(c, ShrinkT(c, cfg, s)) == c
  {
  }

  /** A configuration under which a turn after an open call is where the pass cuts. */
  lemma PassTears(c: Conv)
    requires c.usage.input > 0 && !OpenInPlace(c.turns)
    ensures exists cfg: ShrinkConfig, s: Summarizer, i: int ::
              cfg.keepTurns >= 1 && Open(c.turns, i) && !PassKeeps(c, cfg, s, i)
  {
    hide Answers, ShrinkT, DropDetails;
    var i, k :| Open(c.turns, i) && i < k < |c.turns| && !Rewinds(c.turns[k]);
    var cfg, s: Summarizer := ShrinkConfig(1, 1.0, 0, |c.turns| - k), None;
    var d := DropDetails(c.turns, 0);
    TightBudget(c, |c.turns| - k);
    assert Final(c, ShrinkT(c, cfg, s)).turns == d[k..] by { TrimAt(c, k); }
    assert !PassKeeps(c, cfg, s, i);
  }

  lemma TightBudget(c: Conv, keep: int)
    requires c.usage.input > 0
    ensures OverBudget(c, ShrinkConfig(1, 1.0, 0, keep))
  {
    assert (1 as real * 1.0).Floor == 1;
  }

  lemma TrimAt(c: Conv, k: nat)
    requires 0 < k < |c.turns| && !Rewinds(c.turns[k]) && c.usage.input > 0
    ensures Final(c, ShrinkT(c, ShrinkConfig(1, 1.0, 0, |c.turns| - k), None)).turns == DropDetails(c.turns, 0)[k..]
  {
    hide DropDetails, DropT, OverBudget;
    var cfg := ShrinkConfig(1, 1.0, 0, |c.turns| - k);
    TightBudget(c, |c.turns| - k);
    DropShape(c, 0);
    var d := Final(c, DropT(c, 0));
    assert d.turns == DropDetails(c.turns, 0) && d.turns[k].role == c.turns[k].role;
    assert TrimT(d, |c.turns| - k) == [(Trimmed(|c.turns| - k), d.(turns := d.turns[k..]))];
    assert ShrinkT(c, cfg, None) == DropT(c, 0) + TrimT(d, |c.turns| - k);
  }

  lemma DropShape(c: Conv, keep: int)
    ensures Final(c, DropT(c, keep)) == c.(turns := DropDetails(c.turns, NonNeg(keep)))
    ensures Tidy(c.turns) ==> Tidy(DropDetails(c.turns, NonNeg(keep)))
  {
    hide Tidy;
    if Tidy(c.turns) {
      TidyDrop(c.turns, NonNeg(keep));
    }
    if DropT(c, keep) == [] {
      assert DropDetails(c.turns, NonNeg(keep)) == c.turns;
    }
  }

  lemma TrimFrame(c: Conv, keep: int)
    ensures var d := Final(c, TrimT(c, keep));
            d.instructions == c.instructions && d.tools == c.tools && d.usage == c.usage
  {
  }

  lemma CompressFrame(c: Conv, s: Summarizer, upto: int)
    ensures var d := Final(c, CompressT(c, s, upto).0);
            d.instructions == c.instructions && d.tools == c.tools && d.usage == c.usage
  {
  }

  /** Pairing over whole sessions: as long as each output is appended while its call can still be
      answered in place, no sequence of appends, trims, drops, compressions and auto-shrink passes
      ever leaves an output without its call. */
  ghost predicate InPlace(c: Conv, op: Op) {
    match op
    case Add(t) => t.role == ToolOutput ==> t.tool.Some? && CanAnswer(c.turns, t.tool.value.callId)
    case Replace(_, _, _) => false
    case _ => true
  }

  ghost predicate InPlaceAt(c: Conv, ops: seq<Op>, n: nat)
    requires n < |ops|
  {
    InPlace(Final(c, RunT(c, ops[..n])), ops[n])
  }

  lemma InPlacePrefix(c: Conv, ops: seq<Op>, m: nat)
    requires m < |ops| - 1 && InPlaceAt(c, ops, m)
    ensures InPlaceAt(c, ops[..|ops| - 1], m)
  {
    hide InPlace, RunT;
    assert ops[..|ops| - 1][..m] == ops[..m];
  }

  lemma {:induction false} SessionsStayTidy(c: Conv, ops: seq<Op>)
    requires Tidy(c.turns) && forall n :: 0 <= n < |ops| ==> InPlaceAt(c, ops, n)
    ensures Tidy(Final(c, RunT(c, ops)).turns)
  {
    hide Tidy, OpT, InPlace, RunT;
    if ops == [] {
      NothingRun(c);
    } else {
      var n := |ops| - 1;
      forall m | 0 <= m < n ensures InPlaceAt(c, ops[..n], m) { InPlacePrefix(c, ops, m); }
      SessionsStayTidy(c, ops[..n]);
      assert InPlaceAt(c, ops, n);
      OpStaysTidy(Final(c, RunT(c, ops[..n])), ops[n]);
      RunLast(c, ops);
    }
  }

  // ---------------------------------------------------------------- one call at a time

  /** The id of the call the caller still owes an output for. */
  function Awaited(ops: seq<Op>): Option<string> {
    if ops == [] then None
    else
      match ops[|ops| - 1]
      case Add(t) =>
        if t.role == ToolCall && t.tool.Some? then Some(t.tool.value.callId)
        else if t.role == ToolOutput then None
        else Awaited(ops[..|ops| - 1])
      case _ => Awaited(ops[..|ops| - 1])
  }

  /** The next operation of a caller that makes one call at a time, answers it before anything but
      reasoning follows, and meanwhile keeps at least one turn when it shrinks. */
  ghost predicate OneAtATime(c: Conv, w: Option<string>, op: Op) {
    match op
    case Add(t) =>
      && (t.role == ToolOutput ==> t.tool.Some? && w == Some(t.tool.value.callId))
      && (t.role == ToolCall ==> t.tool.Some? && w.None?)
      && (t.role == User || t.role == Assistant ==> w.None?)
    case Trim(keep) => w.None? || keep >= 1
    case Drop(_) => true
    case Replace(_, _, _) => false
    case Compress(_, upto) => w.None? || upto < |c.turns|
    case Record(_, cfg, _) => w.None? || cfg.keepTurns >= 1
  }

  lemma CutCanAnswer(turns: seq<Turn>, cut: nat, i: nat, id: string)
    requires cut <= i < |turns| && Calls(turns[i], id) && forall k :: i < k < |turns| ==> Rewinds(turns[k])
    ensures CanAnswer(turns[cut..], id)
  {
    var rest := turns[cut..];
    assert Calls(rest[i - cut], id);
    forall k | i - cut < k < |rest| ensures Rewinds(rest[k]) { assert rest[k] == turns[k + cut]; }
  }

  lemma PrependCanAnswer(all: seq<Turn>, id: string)
    requires all != [] && CanAnswer(all[1..], id)
    ensures CanAnswer(all, id)
  {
    var rest := all[1..];
    var i :| 0 <= i < |rest| && Calls(rest[i], id) && forall k :: i < k < |rest| ==> Rewinds(rest[k]);
    assert Calls(all[i + 1], id);
    forall k | i + 1 < k < |all| ensures Rewinds(all[k]) { assert all[k] == rest[k - 1]; }
  }

  lemma SuffixCanAnswer(turns: seq<Turn>, out: seq<Turn>, keep: nat, id: string)
    requires KeptSuffix(turns, out, keep) && keep >= 1 && CanAnswer(turns, id)
    ensures CanAnswer(out, id)
  {
    var i :| 0 <= i < |turns| && Calls(turns[i], id) && forall k :: i < k < |turns| ==> Rewinds(turns[k]);
    assert InPlaceCall(turns, i);
    var cut: nat :| KeptFrom(turns, out, cut) && cut <= i;
    hide CanAnswer;
    CutCanAnswer(turns, cut, i, id);
    if out == turns[cut..] {
    } else {
      PrependCanAnswer(out, id);
    }
  }

  lemma DropCanAnswer(turns: seq<Turn>, keep: nat, id: string)
    requires CanAnswer(turns, id)
    ensures CanAnswer(DropDetails(turns, keep), id)
  {
    var d := DropDetails(turns, keep);
    var i :| 0 <= i < |turns| && Calls(turns[i], id) && forall k :: i < k < |turns| ==> Rewinds(turns[k]);
    assert Calls(d[i], id) && forall k :: i < k < |d| ==> Rewinds(d[k]);
  }

  lemma AddCanAnswer(turns: seq<Turn>, t: Turn, id: string)
    requires if t.role == ToolCall then Calls(t, id) else Rewinds(t) && CanAnswer(turns, id)
    ensures CanAnswer(turns + [t], id)
  {
    var all := turns + [t];
    if t.role == ToolCall {
      assert Calls(all[|turns|], id);
    } else {
      var i :| 0 <= i < |turns| && Calls(turns[i], id) && forall k :: i < k < |turns| ==> Rewinds(turns[k]);
      assert Calls(all[i], id) && forall k :: i < k < |all| ==> Rewinds(all[k]);
    }
  }

  lemma ShrinkCanAnswer(c: Conv, cfg: ShrinkConfig, s: Summarizer, id: string)
    requires CanAnswer(c.turns, id) && cfg.keepTurns >= 1
    ensures CanAnswer(Final(c, ShrinkT(c, cfg, s)).turns, id)
  {
    hide CanAnswer, KeptSuffix, DropDetails, ShrinkT;
    ShrinkKeeps(c, cfg, s);
    var out := Final(c, ShrinkT(c, cfg, s)).turns;
    if out != c.turns {
      DropCanAnswer(c.turns, NonNeg(cfg.keepToolExchanges), id);
      SuffixCanAnswer(DropDetails(c.turns, NonNeg(cfg.keepToolExchanges)), out, NonNeg(cfg.keepTurns), id);
    }
  }

  lemma OpCanAnswer(c: Conv, ops: seq<Op>, op: Op)
    requires OneAtATime(c, Awaited(ops), op)
    requires Awaited(ops).Some? ==> CanAnswer(c.turns, Awaited(ops).value)
    ensures var w := Awaited(ops + [op]); w.Some? ==> CanAnswer(Final(c, OpT(c, op)).turns, w.value)
  {
    hide CanAnswer, KeptSuffix, TrimT, DropT, CompressT, ShrinkT, DropDetails;
    assert (ops + [op])[..|ops|] == ops;
    var w := Awaited(ops + [op]);
    if w.Some? {
      match op
      case Add(t) => AddCanAnswer(c.turns, t, w.value);
      case Trim(keep) =>
        TrimKeepsSuffix(c, keep);
        SuffixCanAnswer(c.turns, Final(c, TrimT(c, keep)).turns, NonNeg(keep), w.value);
      case Drop(keep) =>
        DropShape(c, keep);
        DropCanAnswer(c.turns, NonNeg(keep), w.value);
      case Compress(s, upto) =>
        CompressKeepsSuffix(c, s, upto);
        SuffixCanAnswer(c.turns, Final(c, CompressT(c, s, upto).0).turns, NonNeg(|c.turns| - upto), w.value);
      case Record(u, cfg, s) => ShrinkCanAnswer(c.(usage := u), cfg, s, w.value);
      case Replace(_, _, _) =>
    }
  }

  ghost predicate SerialAt(c: Conv, ops: seq<Op>, n: nat)
    requires n < |ops|
  {
    OneAtATime(Final(c, RunT(c, ops[..n])), Awaited(ops[..n]), ops[n])
  }

  lemma SerialPrefix(c: Conv, ops: seq<Op>, m: nat)
    requires m < |ops| - 1 && SerialAt(c, ops, m)
    ensures SerialAt(c, ops[..|ops| - 1], m)
  {
    hide OneAtATime, RunT, Awaited;
    assert ops[..|ops| - 1][..m] == ops[..m];
  }

  lemma RunLast(c: Conv, ops: seq<Op>)
    requires ops != []
    ensures var d, op := Final(c, RunT(c, ops[..|ops| - 1])), ops[|ops| - 1];
            Final(c, RunT(c, ops)) == Final(d, OpT(d, op))
  {
    hide OpT;
  }

  /** A caller that makes one call at a time is safe whatever is trimmed, dropped, compressed and
      auto-shrunk meanwhile: no output ever loses its call, and the awaited output can always
      still be appended in place. */
  lemma {:induction false} SerialSessionsStayTidy(c: Conv, ops: seq<Op>)
    requires Tidy(c.turns) && forall n :: 0 <= n < |ops| ==> SerialAt(c, ops, n)
    ensures var d := Final(c, RunT(c, ops));
            Tidy(d.turns) && (Awaited(ops).Some? ==> CanAnswer(d.turns, Awaited(ops).value))
  {
    hide Tidy, OpT, CanAnswer, OneAtATime, InPlace, Awaited, RunT, SerialAt, Final;
    if ops == [] {
      NothingAwaited();
      NothingRun(c);
    } else {
      var n := |ops| - 1;
      var front := ops[..n];
      forall m | 0 <= m < n ensures SerialAt(c, front, m) { SerialPrefix(c, ops, m); }
      SerialSessionsStayTidy(c, front);
      SerialStep(c, ops);
    }
  }

  lemma NothingRun(c: Conv)
    ensures Final(c, RunT(c, [])) == c
  {
  }

  lemma SerialStep(c: Conv, ops: seq<Op>)
    requires ops != [] && SerialAt(c, ops, |ops| - 1)
    requires var d, w := Final(c, RunT(c, ops[..|ops| - 1])), Awaited(ops[..|ops| - 1]);
             Tidy(d.turns) && (w.Some? ==> CanAnswer(d.turns, w.value))
    ensures var d := Final(c, RunT(c, ops));
            Tidy(d.turns) && (Awaited(ops).Some? ==> CanAnswer(d.turns, Awaited(ops).value))
  {
    hide Tidy, OpT, CanAnswer, OneAtATime, InPlace, Awaited, RunT;
    var front, op := ops[..|ops| - 1], ops[|ops| - 1];
    var d := Final(c, RunT(c, front));
    OneAtATimeIsInPlace(d, Awaited(front), op);
    OpStaysTidy(d, op);
    OpCanAnswer(d, front, op);
    RunLast(c, ops);
    assert front + [op] == ops;
  }

  lemma NothingAwaited()
    ensures Awaited([]) == None
  {
  }

  lemma OneAtATimeIsInPlace(c: Conv, w: Option<string>, op: Op)
    requires OneAtATime(c, w, op) && (w.Some? ==> CanAnswer(c.turns, w.value))
    ensures InPlace(c, op)
  {
    hide CanAnswer;
  }

  lemma OpStaysTidy(c: Conv, op: Op)
    requires Tidy(c.turns) && InPlace(c, op)
    ensures Tidy(Final(c, OpT(c, op)).turns)
  {
    hide Tidy, TrimT, DropT, CompressT, ShrinkT, CanAnswer;
    match op
    case Add(t) => TidyAdd(c.turns, t);
    case Trim(keep) => TrimKeepsSuffix(c, keep);
    case Drop(keep) => DropShape(c, keep);
    case Compress(s, upto) => CompressKeepsSuffix(c, s, upto);
    case Record(u, cfg, s) => ShrinkKeeps(c.(usage := u), cfg, s);
    case Replace(_, _, _) =>
  }

  // ---------------------------------------------------------------- what the edits do

  predicate IsOutput(t: Turn) { t.role == ToolOutput && t.tool.Some? }

  /** The outputs after position i. */
  function LaterOutputs(turns: seq<Turn>, i: int): set<int> {
    set j | i < j < |turns| && 0 <= j && IsOutput(turns[j])
  }

  lemma {:induction false} OutputsAreCounted(turns: seq<Turn>, i: nat)
    requires i <= |turns|
    ensures OutputsFrom(turns, i) == |LaterOutputs(turns, i - 1)|
    decreases |turns| - i
  {
    if i == |turns| {
      assert LaterOutputs(turns, i - 1) == {};
    } else {
      OutputsAreCounted(turns, i + 1);
      var rest := LaterOutputs(turns, i);
      assert LaterOutputs(turns, i - 1) == if IsOutput(turns[i]) then rest + {i} else rest;
    }
  }

  /** DropToolDetails keeps the last outputs word for word and cuts every earlier one that has a
      body down to a note of its length; nothing else moves. */
  lemma DropMeans(c: Conv, keep: int, i: nat)
    requires i < |c.turns|
    ensures var d := Final(c, OpT(c, Drop(keep)));
            && d.instructions == c.instructions && d.tools == c.tools && d.usage == c.usage && |d.turns| == |c.turns|
            && var t := c.turns[i];
            d.turns[i] ==
            if IsOutput(t) && t.tool.value.output != "" && |LaterOutputs(c.turns, i)| >= keep then
              t.(tool := Some(t.tool.value.(output :=
                "[tool output truncated; " + Digits(|t.tool.value.output|) + " bytes]")))
            else t
  {
    hide DropDetails;
    DropShape(c, keep);
    OutputsAreCounted(c.turns, i);
    OutputsAreCounted(c.turns, i + 1);
  }

  function Decimal(s: string): nat {
    if s == [] then 0
    else 10 * Decimal(s[..|s| - 1]) + if '0' <= s[|s| - 1] <= '9' then s[|s| - 1] as nat - '0' as nat else 0
  }

  /** The length in the note is that number, in decimal without leading zeros. */
  lemma {:induction false} DigitsMean(n: nat)
    ensures Decimal(Digits(n)) == n && Digits(n) != [] && (n > 0 ==> Digits(n)[0] != '0')
    ensures forall i :: 0 <= i < |Digits(n)| ==> '0' <= Digits(n)[i] <= '9'
  {
    if n >= 10 {
      DigitsMean(n / 10);
    } else {
      assert Digits(n)[..0] == [];
    }
  }

  predicate Skips(t: Turn) { t.role == ToolOutput || t.role == Reasoning }

  /** The cut asked for, moved back over outputs and reasoning; the end of the list stays. */
  predicate CutAt(turns: seq<Turn>, raw: nat, cut: nat) {
    && cut <= raw <= |turns| && (raw == |turns| ==> cut == raw)
    && (forall j :: cut < j <= raw && j < |turns| ==> Skips(turns[j]))
    && (cut == 0 || cut == |turns| || !Skips(turns[cut]))
  }

  lemma {:induction false} RewindMeans(turns: seq<Turn>, raw: nat)
    requires raw <= |turns|
    ensures CutAt(turns, raw, Rewind(turns, raw))
  {
    RewindBound(turns, raw);
    if 0 < raw < |turns| && Rewinds(turns[raw]) {
      RewindMeans(turns, raw - 1);
    }
  }

  lemma CutIsUnique(turns: seq<Turn>, raw: nat, a: nat, b: nat)
    requires CutAt(turns, raw, a) && CutAt(turns, raw, b)
    ensures a == b
  {
  }

  /** Trim leaves a list that is short enough alone and otherwise keeps the turns from the moved
      cut on. */
  lemma TrimMeans(c: Conv, keepLast: int)
    ensures var d, keep := Final(c, OpT(c, Trim(keepLast))), if keepLast < 0 then 0 else keepLast;
            && d.instructions == c.instructions && d.tools == c.tools && d.usage == c.usage
            && if |c.turns| <= keep then d.turns == c.turns
               else exists cut: nat :: CutAt(c.turns, |c.turns| - keep, cut) && d.turns == c.turns[cut..]
  {
    var keep := if keepLast < 0 then 0 else keepLast;
    if |c.turns| > keep {
      RewindMeans(c.turns, |c.turns| - keep);
    }
  }

  /** The cut Compress folds at, and whether the summarizer fails on the turns before it. */
  ghost predicate FoldsAt(turns: seq<Turn>, upto: int, cut: nat) {
    upto > 0 && cut > 0 && CutAt(turns, if upto > |turns| then |turns| else upto, cut)
  }

  ghost predicate SummaryFails(turns: seq<Turn>, s: Summarizer, upto: int) {
    s.Some? && exists cut: nat :: FoldsAt(turns, upto, cut) && s.value(turns[..cut]).Err?
  }

  /** `out` is the turns from `cut` on behind one assistant turn that says the prefix and the answer. */
  ghost predicate FoldedInto(turns: seq<Turn>, cut: nat, answer: string, out: seq<Turn>) {
    cut <= |turns| &&
    out == [Turn(Assistant, "Conversation summary (compressed history):\n" + answer, None, "")] + turns[cut..]
  }

  /** Compress puts one assistant turn, the prefix followed by the summarizer's answer on the
      folded turns, in front of the rest; without a summarizer, with nothing to fold or when the
      summarizer fails it changes nothing. */
  lemma CompressMeans(c: Conv, s: Summarizer, upto: int)
    ensures var d := Final(c, OpT(c, Compress(s, upto)));
            && d.instructions == c.instructions && d.tools == c.tools && d.usage == c.usage
            && (CompressT(c, s, upto).1 <==> SummaryFails(c.turns, s, upto))
            && if s.None? || (forall cut: nat :: !FoldsAt(c.turns, upto, cut)) || SummaryFails(c.turns, s, upto) then
                 d.turns == c.turns
               else
                 exists cut: nat ::
                   FoldsAt(c.turns, upto, cut) && cut <= |c.turns| && s.value(c.turns[..cut]).Ok? &&
                   FoldedInto(c.turns, cut, s.value(c.turns[..cut]).value, d.turns)
  {
    hide Rewind, CutAt, ReplaceT;
    var raw := if upto > |c.turns| then |c.turns| else upto;
    if upto > 0 {
      var cut := Rewind(c.turns, raw);
      RewindMeans(c.turns, raw);
      RewindBound(c.turns, raw);
      forall b: nat | FoldsAt(c.turns, upto, b) ensures b == cut { CutIsUnique(c.turns, raw, b, cut); }
      if s.Some? && cut > 0 {
        assert FoldsAt(c.turns, upto, cut);
        if s.value(c.turns[..cut]).Ok? {
          FoldMeans(c, cut, s.value(c.turns[..cut]).value);
        }
      }
    }
  }

  lemma FoldMeans(c: Conv, cut: nat, answer: string)
    requires cut <= |c.turns|
    ensures var d := Final(c, ReplaceT(c, 0, cut, [SummaryTurn(answer)]));
            && d.instructions == c.instructions && d.tools == c.tools && d.usage == c.usage
            && FoldedInto(c.turns, cut, answer, d.turns)
  {
    assert c.turns[..0] == [];
  }

  /** ReplaceRange keeps what lies before and after the clamped range and puts the replacement in
      between. */
  lemma ReplaceMeans(c: Conv, from: int, to: int, repl: seq<Turn>)
    ensures var d := Final(c, OpT(c, Replace(from, to, repl)));
            && d.instructions == c.instructions && d.tools == c.tools && d.usage == c.usage
            && if to < 0 then d.turns == c.turns
               else
                 var hi := if to < |c.turns| then to else |c.turns|;
                 var lo := if from < 0 then 0 else if from < hi then from else hi;
                 d.turns == c.turns[..lo] + repl + c.turns[hi..]
  {
  }

  /** The usage reported reaches the budget: the whole part of window times threshold, at least 1. */
  predicate Full(u: Usage, cfg: ShrinkConfig) {
    && cfg.contextWindow > 0 && cfg.threshold > 0.0
    && var budget := cfg.contextWindow as real * cfg.threshold;
    budget >= 1.0 && u.input as real + 1.0 > budget
  }

  /** recordUsage stores the usage and, when the budget is reached, runs the tiers in order: old
      tool outputs first, then a summary of the older turns, or a trim when there is no summarizer,
      little to fold or no summary to be had. */
  lemma RecordMeans(c: Conv, u: Usage, cfg: ShrinkConfig, s: Summarizer)
    ensures var c', out := c.(usage := u), Final(c, OpT(c, Record(u, cfg, s)));
            if !Full(u, cfg) then out == c'
            else
              var d := Final(c', OpT(c', Drop(cfg.keepToolExchanges)));
              var upto := |d.turns| - cfg.keepTurns;
              if s.Some? && upto > 0 && !SummaryFails(d.turns, s, upto) then out == Final(d, OpT(d, Compress(s, upto)))
              else out == Final(d, OpT(d, Trim(cfg.keepTurns)))
  {
    hide CompressT, TrimT, DropT, SummaryFails, FoldsAt;
    var c' := c.(usage := u);
    BudgetMeans(c', cfg);
    if OverBudget(c', cfg) {
      var d := Final(c', DropT(c', cfg.keepToolExchanges));
      CompressMeans(d, s, |d.turns| - cfg.keepTurns);
    }
  }

  lemma BudgetMeans(c: Conv, cfg: ShrinkConfig)
    ensures OverBudget(c, cfg) <==> Full(c.usage, cfg)
  {
    var x := cfg.contextWindow as real * cfg.threshold;
    var limit := x.Floor;
    assert limit as real <= x < limit as real + 1.0;
    assert c.usage.input >= limit <==> c.usage.input + 1 > limit;
    if c.usage.input >= limit {
      assert c.usage.input as real >= limit as real;
    } else {
      assert c.usage.input + 1 <= limit;
      assert (c.usage.input + 1) as real <= limit as real;
    }
    assert (c.usage.input + 1) as real == c.usage.input as real + 1.0;
  }

  /** Truncate keeps as many events as asked, from the first on, or the init events and no other. */
  lemma {:induction false} KeptMeans(log: seq<Event>, toSeq: int)
    ensures toSeq > 0 ==> Kept(log, toSeq) <= log && |Kept(log, toSeq)| == if toSeq < |log| then toSeq else |log|
    ensures toSeq <= 0 ==> forall ev :: ev in Kept(log, toSeq) <==> ev in log && ev.Init?
    ensures toSeq <= 0 ==> multiset(Kept(log, toSeq)) <= multiset(log)
  {
    if toSeq <= 0 && log != [] {
      var front, last := log[..|log| - 1], log[|log| - 1];
      KeptMeans(front, toSeq);
      assert log == front + [last];
    }
  }

  // ---------------------------------------------------------------- the conversation object

  function States(t: Trace): (r: seq<Conv>)
    ensures |r| == |t| && forall k :: 0 <= k < |t| ==> r[k] == t[k].1
  {
    seq(|t|, k requires 0 <= k < |t| => t[k].1)
  }

  /** The last of the states recorded with the events of a log. */
  function Latest(states: seq<Conv>): Conv { if states == [] then BLANK else states[|states| - 1] }

  /** A log in which every event came with the state that replay reaches there. */
  ghost predicate LogOk(log: seq<Event>, states: seq<Conv>) {
    |log| == |states| && forall k :: 0 <= k < |log| ==> Apply(Latest(states[..k]), log[k]) == Became(states[k])
  }

  lemma LogGrows(log: seq<Event>, states: seq<Conv>, t: Trace)
    requires LogOk(log, states) && Faithful(Latest(states), t)
    ensures LogOk(log + Events(t), states + States(t))
  {
    hide Apply, Latest, At;
    var log', states' := log + Events(t), states + States(t);
    forall k | 0 <= k < |log'| ensures Apply(Latest(states'[..k]), log'[k]) == Became(states'[k]) {
      if k < |log| {
        assert states'[..k] == states[..k];
        assert log'[k] == log[k] && states'[k] == states[k];
      } else {
        var j := k - |log|;
        assert StepOk(Latest(states), t, j);
        GrownState(states, t, j);
        assert log'[k] == t[j].0 && states'[k] == t[j].1;
      }
    }
  }

  lemma GrownState(states: seq<Conv>, t: Trace, j: nat)
    requires j <= |t|
    ensures Latest((states + States(t))[..|states| + j]) == At(Latest(states), t, j)
  {
    assert (states + States(t))[..|states| + j] == states + States(t)[..j];
  }

  lemma {:induction false} LogReplays(log: seq<Event>, states: seq<Conv>, k: nat)
    requires LogOk(log, states) && k <= |log|
    ensures Replay(BLANK, log[..k]) == Became(Latest(states[..k]))
  {
    hide Apply;
    if k > 0 {
      LogReplays(log, states, k - 1);
      assert log[..k][..k - 1] == log[..k - 1] && states[..k][..k - 1] == states[..k - 1];
    }
  }

  /** The states replay goes through. */
  function Through(log: seq<Event>): (states: seq<Conv>)
    requires Replay(BLANK, log).Became?
    ensures |states| == |log|
  {
    if log == [] then [] else Through(log[..|log| - 1]) + [Replay(BLANK, log).conv]
  }

  lemma {:induction false} ThroughIsOk(log: seq<Event>)
    requires Replay(BLANK, log).Became?
    ensures LogOk(log, Through(log)) && Latest(Through(log)) == Replay(BLANK, log).conv
  {
    hide Apply;
    if log != [] {
      var front := log[..|log| - 1];
      ThroughIsOk(front);
      var earlier, states := Through(front), Through(log);
      forall k | 0 <= k < |log| ensures Apply(Latest(states[..k]), log[k]) == Became(states[k]) {
        assert states[..k] == earlier[..k];
        if k == |front| {
          assert earlier[..k] == earlier;
        } else {
          assert log[k] == front[k];
        }
      }
    }
  }

  datatype Outcome = Done | Declined | Crashed

  function OutcomeOf(r: Replayed): Outcome {
    match r case Became(_) => Done case Refused => Declined case Panicked => Crashed
  }

  /** The state replay is in when it ends or fails. */
  function Reached(c: Conv, log: seq<Event>): Conv {
    if log == [] then c
    else
      var r := Replay(c, log[..|log| - 1]);
      if !r.Became? then Reached(c, log[..|log| - 1])
      else
        var last := Apply(r.conv, log[|log| - 1]);
        if last.Became? then last.conv else r.conv
  }

  lemma ReachedEnd(c: Conv, log: seq<Event>)
    requires Replay(c, log).Became?
    ensures Reached(c, log) == Replay(c, log).conv
  {
    hide Apply;
  }

  lemma OpenReached(c: Conv, log: seq<Event>)
    ensures Replay(c, log).Became? ==> Reached(c, log) == Replay(c, log).conv
  {
    if Replay(c, log).Became? {
      ReachedEnd(c, log);
    }
  }

  lemma {:induction false} ReplayStops(c: Conv, log: seq<Event>, i: nat, d: Conv)
    requires i < |log| && Replay(c, log[..i]) == Became(d) && !Apply(d, log[i]).Became?
    ensures Replay(c, log) == Apply(d, log[i]) && Reached(c, log) == d
    decreases |log|
  {
    hide Apply;
    var front := log[..|log| - 1];
    if i < |front| {
      assert front[..i] == log[..i] && front[i] == log[i];
      ReplayStops(c, front, i, d);
    } else {
      assert front == log[..i];
    }
  }

  function Inits(log: seq<Event>): seq<Event> {
    if log == [] then [] else Inits(log[..|log| - 1]) + if log[|log| - 1].Init? then [log[|log| - 1]] else []
  }

  function AtMost(n: int, size: nat): nat
    requires n >= 0
  {
    if n > size then size else n
  }

  /** What the store keeps: events numbered up to `toSeq`, or the init events. */
  function Kept(log: seq<Event>, toSeq: int): seq<Event> {
    if toSeq <= 0 then Inits(log) else log[..AtMost(toSeq, |log|)]
  }

  lemma {:induction false} InitsReplay(log: seq<Event>)
    ensures Replay(BLANK, Inits(log)).Became?
  {
    if log != [] {
      InitsReplay(log[..|log| - 1]);
      var front, ev := Inits(log[..|log| - 1]), log[|log| - 1];
      if ev.Init? {
        assert (front + [ev])[..|front|] == front;
      } else {
        assert front + [] == front;
      }
    }
  }

  lemma KeptReplays(log: seq<Event>, states: seq<Conv>, toSeq: int)
    requires LogOk(log, states)
    ensures Replay(BLANK, Kept(log, toSeq)).Became?
    ensures toSeq > 0 ==> Replay(BLANK, Kept(log, toSeq)).conv == Latest(states[..AtMost(toSeq, |states|)])
  {
    hide Apply;
    if toSeq <= 0 {
      InitsReplay(log);
    } else {
      LogReplays(log, states, AtMost(toSeq, |log|));
    }
  }

  // ---------------------------------------------------------------- opening a session

  /** What the stores hold under the session's id. */
  datatype Loaded = Missing | Found(events: seq<Event>) | Unreadable

  /** The store takes an event other than the first only behind an init event. */
  predicate Anchored(log: seq<Event>) { exists i :: 0 <= i < |log| && log[i].Init? }

  predicate RecordsUsage(log: seq<Event>) { exists i :: 0 <= i < |log| && log[i].Recorded? && log[i].usage.Some? }

  /** A missing session is seeded with an init event; events found are applied on top of the
      conversation as it is. */
  function OpenState(c: Conv, loaded: Loaded): Replayed {
    if c.turns != [] then Refused
    else match loaded case Missing => Became(c) case Found(es) => Replay(c, es) case Unreadable => Refused
  }

  function OpenLog(c: Conv, loaded: Loaded): seq<Event> {
    if loaded.Found? then loaded.events else [Init(c.instructions, c.tools)]
  }

  /** The log and the state after further operations: nothing is recorded without an anchor. */
  function LogAfter(c: Conv, log: seq<Event>, ops: seq<Op>): seq<Event> {
    if Anchored(log) then log + Events(RunT(c, ops)) else log
  }

  /** Replay depends on what it starts from only where the log does not say. */
  lemma {:induction false} ReplayOverlay(c: Conv, d: Conv, log: seq<Event>)
    requires c.turns == d.turns
    ensures match (Replay(c, log), Replay(d, log))
            case (Became(x), Became(y)) =>
              && x.turns == y.turns
              && (if Anchored(log) then x.instructions == y.instructions && x.tools == y.tools
                  else x.instructions == c.instructions && x.tools == c.tools)
              && (if RecordsUsage(log) then x.usage == y.usage else x.usage == c.usage && y.usage == d.usage)
            case (x, y) => x == y && !x.Became?
  {
    if log != [] {
      hide Apply;
      var front, ev := log[..|log| - 1], log[|log| - 1];
      ReplayOverlay(c, d, front);
      assert log == front + [ev];
      assert Anchored(log) <==> Anchored(front) || ev.Init? by { AnchoredMore(front, ev); }
      assert RecordsUsage(log) <==> RecordsUsage(front) || (ev.Recorded? && ev.usage.Some?) by {
        RecordsMore(front, ev);
      }
      var x, y := Replay(c, front), Replay(d, front);
      if x.Became? && y.Became? {
        ApplyOverlay(x.conv, y.conv, ev);
      }
    }
  }

  lemma AnchoredMore(log: seq<Event>, ev: Event)
    ensures Anchored(log + [ev]) <==> Anchored(log) || ev.Init?
  {
    var all := log + [ev];
    if Anchored(log) {
      var i :| 0 <= i < |log| && log[i].Init?;
      assert all[i].Init?;
    }
    assert all[|log|] == ev;
  }

  lemma RecordsMore(log: seq<Event>, ev: Event)
    ensures RecordsUsage(log + [ev]) <==> RecordsUsage(log) || (ev.Recorded? && ev.usage.Some?)
  {
    var all := log + [ev];
    if RecordsUsage(log) {
      var i :| 0 <= i < |log| && log[i].Recorded? && log[i].usage.Some?;
      assert all[i].Recorded?;
    }
    assert all[|log|] == ev;
  }

  lemma ApplyOverlay(x: Conv, y: Conv, ev: Event)
    requires x.turns == y.turns
    ensures match (Apply(x, ev), Apply(y, ev))
            case (Became(u), Became(v)) =>
              && u.turns == v.turns
              && (if ev.Init? then u.instructions == v.instructions && u.tools == v.tools
                  else u.instructions == x.instructions && u.tools == x.tools &&
                       v.instructions == y.instructions && v.tools == y.tools)
              && (if ev.Recorded? && ev.usage.Some? then u.usage == v.usage
                  else u.usage == x.usage && v.usage == y.usage)
            case (u, v) => u == v && !u.Became?
  {
    match ev
    case Trimmed(keep) =>
    case Dropped(keep) =>
    case Replaced(from, to, repl) =>
    case _ =>
  }

  /** Every mutator is recorded and the log replays to the state. */
  ghost predicate Agrees(c: Conv, log: seq<Event>) { Anchored(log) && Replay(BLANK, log) == Became(c) }

  /** What a caller can check before OpenSession: a missing session needs an unused conversation;
      an existing one needs its init event and, for a used conversation, a recorded usage. */
  predicate OpensWell(c: Conv, loaded: Loaded) {
    if loaded.Found? then Anchored(loaded.events) && (c.usage == NO_USAGE || RecordsUsage(loaded.events))
    else c.usage == NO_USAGE
  }

  lemma OpenAgreesIff(c: Conv, loaded: Loaded)
    requires OpenState(c, loaded).Became?
    ensures Agrees(OpenState(c, loaded).conv, OpenLog(c, loaded)) <==> OpensWell(c, loaded)
    ensures Replay(BLANK, OpenLog(c, loaded)).Became?
  {
    if loaded.Found? {
      ReplayOverlay(BLANK, c, loaded.events);
    } else {
      var log := [Init(c.instructions, c.tools)];
      assert log[..0] == [] && log[0].Init?;
      assert Replay(BLANK, log) == Became(BLANK.(instructions := c.instructions, tools := c.tools));
    }
  }

  /** Replay equals live for every sequence of mutators after OpenSession if and only if the
      conversation and the session were fit to be joined. */
  lemma SessionsReplayIff(c: Conv, loaded: Loaded)
    requires OpenState(c, loaded).Became?
    ensures var d, log := OpenState(c, loaded).conv, OpenLog(c, loaded);
            (forall ops: seq<Op> :: Replay(BLANK, LogAfter(d, log, ops)) == Became(Final(d, RunT(d, ops)))) <==>
            OpensWell(c, loaded)
  {
    hide RunT, OpensWell, Apply;
    var d, log := OpenState(c, loaded).conv, OpenLog(c, loaded);
    OpenAgreesIff(c, loaded);
    if OpensWell(c, loaded) {
      forall ops: seq<Op> ensures Replay(BLANK, LogAfter(d, log, ops)) == Became(Final(d, RunT(d, ops))) {
        AgreesAfter(d, log, ops);
      }
    } else if Anchored(log) {
      NothingRun(d);
      assert RunT(d, []) == [] by { NoTrace(d); }
      assert log + Events([]) == log;
      assert Replay(BLANK, LogAfter(d, log, [])) != Became(Final(d, RunT(d, [])));
    } else {
      var op := Add(Turn(User, "hello", None, ""));
      RunOne(d, op);
      SameTurns(c, loaded);
      assert Replay(BLANK, LogAfter(d, log, [op])) != Became(Final(d, RunT(d, [op])));
    }
  }

  lemma AgreesAfter(d: Conv, log: seq<Event>, ops: seq<Op>)
    requires Agrees(d, log)
    ensures Replay(BLANK, log + Events(RunT(d, ops))) == Became(Final(d, RunT(d, ops)))
  {
    hide RunT, Apply, Faithful;
    var t := RunT(d, ops);
    RunFaithful(d, ops);
    FaithfulReplays(d, t, |t|);
    assert Events(t)[..|t|] == Events(t);
    ReplayConcat(BLANK, log, Events(t));
  }

  lemma NoTrace(c: Conv)
    ensures RunT(c, []) == []
  {
  }

  lemma RunOne(c: Conv, op: Op)
    requires op.Add?
    ensures Final(c, RunT(c, [op])).turns == c.turns + [op.turn]
  {
    RunLast(c, [op]);
    assert [op][..0] == [];
    NothingRun(c);
  }

  lemma SameTurns(c: Conv, loaded: Loaded)
    requires loaded.Found? && OpenState(c, loaded).Became?
    ensures Replay(BLANK, loaded.events).Became? &&
            Replay(BLANK, loaded.events).conv.turns == OpenState(c, loaded).conv.turns
  {
    ReplayOverlay(BLANK, c, loaded.events);
  }

  /** A session file without events, which a refused append or a crash leaves behind, is not a
      missing session: it is bound without an init event and nothing is ever recorded. */
  lemma EmptySessionForgets(turn: Turn)
    ensures OpenState(BLANK, Found([])) == Became(BLANK) && OpenLog(BLANK, Found([])) == []
    ensures LogAfter(BLANK, [], [Add(turn)]) == []
    ensures Replay(BLANK, []) != Became(Final(BLANK, RunT(BLANK, [Add(turn)])))
  {
    RunOne(BLANK, Add(turn));
  }

  /** A conversation used and trimmed to nothing still carries its usage: OpenSession lets it
      through, and the log of the new session does not have it. */
  lemma UsedConversationForgets(turn: Turn, u: Usage, cfg: ShrinkConfig)
    requires u != NO_USAGE && cfg.contextWindow == 0
    ensures var c := Final(BLANK, RunT(BLANK, [Add(turn), Record(u, cfg, None), Trim(0)]));
            && c.turns == [] && OpenState(c, Missing) == Became(c)
            && Replay(BLANK, OpenLog(c, Missing)) != Became(c)
  {
    var a, b, t := Add(turn), Record(u, cfg, None), Trim(0);
    var c1, c2 := Final(BLANK, RunT(BLANK, [a])), Final(BLANK, RunT(BLANK, [a, b]));
    RunOne(BLANK, a);
    RunLast(BLANK, [a, b]);
    assert [a, b][..1] == [a];
    assert ShrinkT(c1.(usage := u), cfg, None) == [];
    assert c2 == c1.(usage := u);
    RunLast(BLANK, [a, b, t]);
    assert [a, b, t][..2] == [a, b];
    var c := Final(BLANK, RunT(BLANK, [a, b, t]));
    assert Rewind(c2.turns, 1) == 1;
    assert c.turns == [] && c.usage == u;
    OpenAgreesIff(c, Missing);
  }

  class Chat {
    var instructions: string
    var tools: seq<string>
    var turns: seq<Turn>
    var usage: Usage
    var cfg: ShrinkConfig
    var summarizer: Summarizer
    var bound: bool
    var replaying: bool
    var log: seq<Event>
    ghost var states: seq<Conv>

    ghost function View(): Conv
      reads this
    {
      Conv(instructions, tools, turns, usage)
    }

    /** A bound conversation that records and whose log agrees with it at every event. */
    ghost predicate Sound()
      reads this
    {
      bound && !replaying && Anchored(log) && LogOk(log, states) && Latest(states) == View()
    }

    /** The log and its states after recording a trace, unless unbound, replaying or refused by a
        store without an init event. */
    ghost predicate Wrote(log0: seq<Event>, states0: seq<Conv>, t: Trace)
      reads this
    {
      if bound && !replaying && Anchored(log0) then log == log0 + Events(t) && states == states0 + States(t)
      else log == log0 && states == states0
    }

    constructor (instructions: string, tools: seq<string>, cfg: ShrinkConfig, summarizer: Summarizer)
      ensures !bound && !replaying && View() == BLANK.(instructions := instructions, tools := tools)
    {
      this.instructions, this.tools, this.cfg, this.summarizer := instructions, tools, cfg, summarizer;
      turns, usage, bound, replaying, log, states := [], NO_USAGE, false, false, [], [];
    }

    method Emit(ev: Event)
      modifies this`log, this`states
      ensures Wrote(old(log), old(states), [(ev, View())])
    {
      if !bound || replaying || !Anchored(log) {
        return;
      }
      log, states := log + [ev], states + [View()];
      assert Events([(ev, View())]) == [ev] && States([(ev, View())]) == [View()];
    }

    method AppendTurn(turn: Turn)
      modifies this`turns, this`log, this`states
      ensures View() == Final(old(View()), AppendT(old(View()), turn))
      ensures Wrote(old(log), old(states), AppendT(old(View()), turn))
    {
      turns := turns + [turn];
      Emit(Appended(Some(turn)));
    }

    method AppendReasoning(text: string, raw: string)
      modifies this`turns, this`log, this`states
      ensures var t := if text == "" && raw == "" then [] else AppendT(old(View()), Turn(Reasoning, text, None, raw));
              View() == Final(old(View()), t) && Wrote(old(log), old(states), t)
    {
      if text == "" && raw == "" {
        return;
      }
      AppendTurn(Turn(Reasoning, text, None, raw));
    }

    method Trim(keepLast: int) returns (dropped: nat)
      modifies this`turns, this`log, this`states
      ensures View() == Final(old(View()), TrimT(old(View()), keepLast))
      ensures Wrote(old(log), old(states), TrimT(old(View()), keepLast))
      ensures dropped == |old(turns)| - |turns|
    {
      var keep := if keepLast < 0 then 0 else keepLast;
      if |turns| <= keep {
        return 0;
      }
      var cut := |turns| - keep;
      while 0 < cut < |turns| && (turns[cut].role == ToolOutput || turns[cut].role == Reasoning)
        invariant 0 <= cut <= |turns| && Rewind(turns, cut) == Rewind(turns, |turns| - keep)
        decreases cut
      {
        cut := cut - 1;
      }
      dropped := cut;
      turns := turns[cut..];
      Emit(Trimmed(keep));
    }

    method DropToolDetails(keepLast: int) returns (truncated: nat)
      modifies this`turns, this`log, this`states
      ensures View() == Final(old(View()), DropT(old(View()), keepLast))
      ensures Wrote(old(log), old(states), DropT(old(View()), keepLast))
      ensures truncated == Evictions(old(turns), NonNeg(keepLast), 0)
    {
      var keep := if keepLast < 0 then 0 else keepLast;
      truncated := EvictBodies(keep);
      assert keep == NonNeg(keepLast);
      if truncated > 0 {
        Emit(Dropped(keep));
      } else {
        assert turns == old(turns);
      }
    }

    method EvictBodies(keep: nat) returns (truncated: nat)
      modifies this`turns
      ensures turns == DropDetails(old(turns), keep)
      ensures truncated == Evictions(old(turns), keep, 0) && (truncated == 0 <==> NoneEvicted(old(turns), keep))
    {
      ghost var was := turns;
      var seen, i := 0, |turns|;
      truncated := 0;
      while i > 0
        invariant 0 <= i <= |was| == |turns|
        invariant seen == OutputsFrom(was, i)
        invariant forall k :: 0 <= k < i ==> turns[k] == was[k]
        invariant forall k :: i <= k < |was| ==> turns[k] == if Evicts(was, keep, k) then Truncated(was[k]) else was[k]
        invariant truncated == Evictions(was, keep, i)
        invariant truncated == 0 <==> forall k :: i <= k < |was| ==> !Evicts(was, keep, k)
      {
        i := i - 1;
        var t := turns[i];
        if t.role != ToolOutput || t.tool.None? {
          continue;
        }
        seen := seen + 1;
        if seen <= keep || t.tool.value.output == "" {
          continue;
        }
        assert Evicts(was, keep, i);
        turns := turns[i := Truncated(t)];
        truncated := truncated + 1;
      }
    }

    /** The slice expressions check the clamped bounds before anything is stored. */
    method ReplaceRange(from: int, to: int, replacement: seq<Turn>) returns (panicked: bool)
      modifies this`turns, this`log, this`states
      ensures panicked == ReplacePanics(old(turns), from, to)
      ensures View() == Final(old(View()), ReplaceT(old(View()), from, to, replacement))
      ensures Wrote(old(log), old(states), ReplaceT(old(View()), from, to, replacement))
    {
      var lo := if from < 0 then 0 else from;
      var hi := if to > |turns| then |turns| else to;
      if lo > hi {
        lo := hi;
      }
      if !(0 <= lo <= hi <= |turns|) {
        assert log + Events([]) == log && states + States([]) == states;
        return true;
      }
      turns := turns[..lo] + replacement + turns[hi..];
      Emit(Replaced(lo, hi, replacement));
      panicked := false;
    }

    method Compress(s: Summarizer, uptoTurn: int) returns (replaced: nat, failed: bool)
      modifies this`turns, this`log, this`states
      ensures failed == CompressT(old(View()), s, uptoTurn).1
      ensures View() == Final(old(View()), CompressT(old(View()), s, uptoTurn).0)
      ensures Wrote(old(log), old(states), CompressT(old(View()), s, uptoTurn).0)
      ensures replaced == if CompressT(old(View()), s, uptoTurn).0 == [] then 0 else CompressCut(old(turns), uptoTurn)
    {
      replaced, failed := 0, false;
      if s.None? || uptoTurn <= 0 {
        return;
      }
      var upto := if uptoTurn > |turns| then |turns| else uptoTurn;
      while 0 < upto < |turns| && (turns[upto].role == ToolOutput || turns[upto].role == Reasoning)
        invariant 0 <= upto <= |turns| && Rewind(turns, upto) == CompressCut(turns, uptoTurn)
        decreases upto
      {
        upto := upto - 1;
      }
      if upto <= 0 {
        return;
      }
      match s.value(turns[..upto])
      case Err => failed := true;
      case Ok(summary) =>
        var panicked := ReplaceRange(0, upto, [SummaryTurn(summary)]);
        replaced := upto;
    }

    method MaybeAutoShrink() returns (failed: bool)
      modifies this`turns, this`log, this`states
      ensures failed == ShrinkFails(old(View()), cfg, summarizer)
      ensures View() == Final(old(View()), ShrinkT(old(View()), cfg, summarizer))
      ensures Wrote(old(log), old(states), ShrinkT(old(View()), cfg, summarizer))
    {
      hide TrimT, DropT, CompressT, OverBudget, Events, States;
      failed := false;
      if !OverBudget(Conv(instructions, tools, turns, usage), cfg) {
        assert ShrinkT(View(), cfg, summarizer) == [];
        assert log + Events([]) == log && states + States([]) == states;
        return;
      }
      var n := DropToolDetails(cfg.keepToolExchanges);
      ghost var d := DropT(old(View()), cfg.keepToolExchanges);
      if Anchored(old(log)) {
        StillAnchored(old(log), Events(d));
      }
      failed := ShrinkTurns();
      TraceConcat(old(View()), old(log), old(states), d, ShrinkTurnsT(Final(old(View()), d), cfg, summarizer));
    }

    /** The second tier: compress, or trim when there is no summary to be had. */
    method ShrinkTurns() returns (failed: bool)
      modifies this`turns, this`log, this`states
      ensures failed == TurnsFail(old(View()), cfg, summarizer)
      ensures View() == Final(old(View()), ShrinkTurnsT(old(View()), cfg, summarizer))
      ensures Wrote(old(log), old(states), ShrinkTurnsT(old(View()), cfg, summarizer))
    {
      hide TrimT, CompressT;
      failed := false;
      if summarizer.Some? && |turns| > cfg.keepTurns {
        var n;
        n, failed := Compress(summarizer, |turns| - cfg.keepTurns);
        if !failed {
          return;
        }
        CompressFailed(old(View()), summarizer, |old(turns)| - cfg.keepTurns);
        assert View() == old(View()) && log == old(log) && states == old(states);
      }
      var n := Trim(cfg.keepTurns);
    }

    method RecordUsage(u: Usage) returns (failed: bool)
      modifies this`usage, this`turns, this`log, this`states
      ensures failed == ShrinkFails(old(View()).(usage := u), cfg, summarizer)
      ensures View() == Final(old(View()), UsageT(old(View()), u, cfg, summarizer))
      ensures Wrote(old(log), old(states), UsageT(old(View()), u, cfg, summarizer))
    {
      hide ShrinkT, Events, States;
      usage := u;
      ghost var c := View();
      Emit(Recorded(Some(u)));
      if Anchored(old(log)) {
        StillAnchored(old(log), Events([(Recorded(Some(u)), c)]));
      }
      failed := MaybeAutoShrink();
      TraceConcat(old(View()), old(log), old(states), [(Recorded(Some(u)), c)], ShrinkT(c, cfg, summarizer));
    }

    /** Event.apply: the same mutators, with recording switched off. */
    method ApplyEvent(ev: Event) returns (ok: bool, panicked: bool)
      requires replaying
      modifies this`instructions, this`tools, this`turns, this`usage, this`log, this`states
      ensures ok == Apply(old(View()), ev).Became? && panicked == Apply(old(View()), ev).Panicked?
      ensures View() == if ok then Apply(old(View()), ev).conv else old(View())
      ensures log == old(log) && states == old(states)
    {
      ok, panicked := true, false;
      match ev
      case Init(i, t) => instructions, tools := i, t;
      case Appended(turn) =>
        if turn.None? {
          ok := false;
        } else {
          turns := turns + [turn.value];
        }
      case Trimmed(keep) => var n := Trim(keep);
      case Dropped(keep) => var n := DropToolDetails(keep);
      case Replaced(from, to, repl) =>
        panicked := ReplaceRange(from, to, repl);
        ok := !panicked;
      case Recorded(u) =>
        if u.Some? {
          usage := u.value;
        }
      case Unknown => ok := false;
    }

    /** The replay loop of OpenSession and Truncate: it stops at the first event that fails. */
    method ReplayAll(events: seq<Event>) returns (outcome: Outcome)
      requires replaying
      modifies this`instructions, this`tools, this`turns, this`usage, this`log, this`states
      ensures outcome == OutcomeOf(Replay(old(View()), events)) && View() == Reached(old(View()), events)
      ensures log == old(log) && states == old(states)
    {
      hide Apply;
      ghost var c := View();
      for i := 0 to |events|
        invariant replaying && log == old(log) && states == old(states) && Replay(c, events[..i]) == Became(View())
      {
        ghost var before := View();
        var ok, panicked := ApplyEvent(events[i]);
        assert events[..i + 1][..i] == events[..i];
        if !ok {
          ReplayStops(c, events, i, before);
          return if panicked then Crashed else Declined;
        }
      }
      assert events[..|events|] == events;
      ReachedEnd(c, events);
      outcome := Done;
    }

    /** OpenSession with what the stores answered. A panic leaves `replaying` set. */
    method OpenSession(loaded: Loaded) returns (outcome: Outcome)
      modifies this
      ensures outcome == if old(bound) then Declined else OutcomeOf(OpenState(old(View()), loaded))
      ensures outcome == Done ==>
                && bound && log == OpenLog(old(View()), loaded) && View() == OpenState(old(View()), loaded).conv
                && (Sound() <==> OpensWell(old(View()), loaded) && (loaded.Found? || !old(replaying)))
      ensures outcome != Done ==> bound == old(bound) && log == old(log)
      ensures outcome != Done ==>
                View() == if !old(bound) && old(turns) == [] && loaded.Found? then Reached(old(View()), loaded.events)
                          else old(View())
      ensures replaying == if !old(bound) && old(turns) == [] && loaded.Found? then outcome == Crashed
                           else old(replaying)
    {
      hide Replay, Apply, Reached, LogOk, Through, OpensWell;
      if bound || turns != [] || loaded.Unreadable? {
        return Declined;
      }
      ghost var c := View();
      if loaded.Found? {
        replaying := true;
        outcome := ReplayAll(loaded.events);
        if outcome == Crashed {
          return;
        }
        replaying := false;
        if outcome == Declined {
          return;
        }
        log := loaded.events;
        OpenReached(c, loaded.events);
      } else {
        log := [Init(instructions, tools)];
      }
      bound := true;
      OpenAgreesIff(c, loaded);
      ThroughIsOk(log);
      states := Through(log);
      outcome := Done;
    }

    /** Truncate(toSeq): the store keeps a prefix, or the init events, and the state is rebuilt. */
    method Truncate(toSeq: int) returns (outcome: Outcome)
      modifies this
      ensures !old(bound) ==> outcome == Declined && View() == old(View()) && log == old(log) && !bound
      ensures old(bound) ==>
                && bound && !replaying && log == Kept(old(log), toSeq)
                && outcome == OutcomeOf(Replay(BLANK, log)) && View() == Reached(BLANK, log)
      ensures old(Sound()) ==> outcome == Done && (Sound() <==> Anchored(log))
      ensures old(Sound()) && toSeq > 0 ==> View() == Latest(old(states)[..AtMost(toSeq, |old(states)|)])
    {
      hide Replay, Apply, Reached, Through;
      if !bound {
        return Declined;
      }
      ghost var was, had, sound := log, states, Sound();
      log := Kept(log, toSeq);
      instructions, tools, turns, usage := "", [], [], NO_USAGE;
      replaying := true;
      outcome := ReplayAll(log);
      replaying := false;
      if Replay(BLANK, log).Became? {
        ThroughIsOk(log);
        OpenReached(BLANK, log);
        states := Through(log);
      }
      if sound {
        KeptReplays(was, had, toSeq);
        assert View() == Replay(BLANK, log).conv;
      }
    }

    /** Every mutator keeps a sound session in agreement with its log. */
    method Do(op: Op)
      requires op.Record? ==> op.cfg == cfg && op.summarizer == summarizer
      modifies this`usage, this`turns, this`log, this`states
      ensures View() == Final(old(View()), OpT(old(View()), op))
      ensures Wrote(old(log), old(states), OpT(old(View()), op))
      ensures old(Sound()) ==> Sound()
    {
      hide TrimT, DropT, CompressT, UsageT, Faithful, LogOk, Anchored;
      ghost var t := OpT(View(), op);
      OpFaithful(View(), op);
      if Sound() {
        LogGrows(log, states, t);
        StillAnchored(log, Events(t));
        LatestGrows(states, t);
      }
      match op
      case Add(turn) => AppendTurn(turn);
      case Trim(keep) => var n := Trim(keep);
      case Drop(keep) => var n := DropToolDetails(keep);
      case Replace(from, to, repl) => var p := ReplaceRange(from, to, repl);
      case Compress(s, upto) => var n, f := Compress(s, upto);
      case Record(u, _, _) => var f := RecordUsage(u);
    }
  }

  lemma StillAnchored(log: seq<Event>, more: seq<Event>)
    requires Anchored(log)
    ensures Anchored(log + more)
  {
    var i :| 0 <= i < |log| && log[i].Init?;
    assert (log + more)[i].Init?;
  }

  lemma LatestGrows(states: seq<Conv>, t: Trace)
    ensures Latest(states + States(t)) == Final(Latest(states), t)
  {
  }

  lemma TraceConcat(c: Conv, log: seq<Event>, states: seq<Conv>, a: Trace, b: Trace)
    ensures Final(c, a + b) == Final(Final(c, a), b)
    ensures log + Events(a + b) == log + Events(a) + Events(b)
    ensures states + States(a + b) == states + States(a) + States(b)
  {
  }

  lemma CompressFailed(c: Conv, s: Summarizer, upto: int)
    ensures CompressT(c, s, upto).1 ==> CompressT(c, s, upto).0 == []
  {
  }
}
