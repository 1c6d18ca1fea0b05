# Dango's coordination kernel, modelled and proved in Dafny

Dango runs plans of dependent nodes, streams what happens, keeps event-sourced
conversations and admits runners under a limit. Its hard parts are in-memory protocols over
unbounded runs. This project models those protocols one module per component and proves what
holds in every run. `dafny verify dfyconfig.toml` checks all of it.

How the modules are built:

- Code that updates fields is a `class` with those fields. Each method states its whole new
  state as a function of the old one; the theorems are then about that function, over every
  sequence of steps.
- A region the source runs under a lock, or one `select` arm, is one atomic step. What the
  runtime leaves open is a parameter of the step and the theorems hold for all its values: which
  ready `select` case is taken, the order a Go map is ranged in, which external calls fail, what
  a summarizer answers.
- Histories that only the theorems need (everything emitted, everything received, every run
  taken from a FIFO) are kept beside the source's fields.

| module | component |
|---|---|
| `DagEngine` | the engine loop that dispatches nodes of a growing dependency graph |
| `StreamEvents`, `StreamLog` | events, filters, bundles; the sequenced log, its replay buffer and subscribers |
| `JsonText`, `MergeFifo`, `MergeHub`, `MergeDepth` | JSON strings, joining of text deltas, the tick hub, streams merged into streams |
| `Conversation`, `SessionStore` | the event-sourced conversation; the JSON Lines file it is kept in |
| `AdmissionQueue`, `RunnerLimit` | bounded slots with a priority heap and lazy deletion; how many runners then execute |
| `SqlPushdown` | SQLite's pushed-down query against PostgreSQL's plain scan |
| `Lifecycle`, `Describe`, `EventLogQueue` | runner phases, the describe view, the compacting queue |
| `Wrappers`, `Text`, `JsonExtract` | shared values; trimming; cutting a JSON object out of a model's answer |

## What the code does not do

Natural claims that are false of the code. For each there is a lemma with the exact condition
under which the code meets it and a lemma with an input on which it does not.

- Trimming can tear a tool call from its output. An existing pair is never torn, for any keep
  count, if and only if nothing but outputs and reasoning lies between each call and its output
  (`Conversation.TrimKeepsPairsIff`, `CompressKeepsPairsIff`, `ShrinkKeepsPairsIff`, failing input
  `ParallelCallsAreTorn`). A call whose output is
  still to come is never dropped if and only if nothing but outputs and reasoning came after it
  (`TrimKeepsOpenIff`, `CompressKeepsOpenIff`, `ShrinkKeepsOpenIff`, failing input
  `OpenCallsAreTorn`), and the source runs the shrink pass while all calls of a response are open.
  A caller that makes one call at a time, and keeps at least one turn while it is open, is safe
  (`SerialSessionsStayTidy`). The comment on `Trim`
  promises pairs without a condition.
- "On a fresh session (no events on any store)" `OpenSession` promises an init event, and to replace
  the conversation's usage by the recorded one. A session that exists without events gets none, so
  nothing is ever recorded, and a usage the log does not mention stays. Replay equals live after
  OpenSession if and only if neither is the case (`Conversation.SessionsReplayIff`, failing inputs
  `EmptySessionForgets` and `UsedConversationForgets`; the store leaves such a session behind,
  `SessionStore.RefusedWriteLeavesEmpty`).
- `ReplaceRange` promises to clamp invalid ranges; the clamped bounds are legal if and only if `to`
  is not negative, and otherwise the slice expression panics (`Conversation.ClampingWorksIff`,
  `NegativeEndPanics`).
- `Subscribe` can block forever: a catch-up send that fails calls `Cancel`, which waits for the
  delivery lock that `Subscribe` holds (`StreamLog.SubscribeBlocksIff`, `SubscribeCanBlock`).
- An expanded subscription can lose part of its catch-up without an error: it gets all of it if and
  only if its buffer holds it (`StreamLog.CatchUpExactIff`, `CatchUpCanLose`). The default buffer is
  16, the default replay 1024 events.
- A merge that begins after a hub decided to stop and before it stops is refused without an error:
  the stop finds the hub idle throughout if and only if no merge began in between
  (`MergeHub.StopFindsIdleIff`, `LateMergeIsKilled`).
- An expanded subscription's catch-up expands a bundle nested in a bundle once more than live
  delivery does. Replay then meets live if and only if no replayed event is itself a bundle
  (`StreamLog.OwedIsDueIff`, `NestedReplayDiffers`); in a network of default subscriptions none
  ever is (`MergeDepth.BundlesNeverNest`).
- A subscriber with room can miss an event: it gets it in every visiting order if and only if it is
  owed nothing or no other subscriber refuses it, by overflow under the error policy or for a
  malformed bundle (`StreamLog.FanoutReachesIff`, `LaterSubscriberMisses`).
- More runners than the limit can execute: a start of a queued runner takes no slot, and a failed
  start of an executing runner gives its slot back. The limit will hold from a state on if and only
  if every executing runner holds a slot (`RunnerLimit.LimitHoldsIff`), which is so over a run if
  and only if neither happened (`SlotsCoverIff`, failing runs `QueuedStartExceeds` and
  `RestartExceeds`). The slot set itself always respects the limit (`AdmissionQueue.EveryRun`).
- `PhaseSettled` is not final: it is if and only if no polish stage is in flight and the engine
  goroutine can no longer report (`Lifecycle.SettledIsFinalIff`, failing runs `SettledCanBeLeft`).
- An event appended behind a partial last line is glued onto it. It is read back if and only if the
  complete lines are clean and only white space follows the last line break
  (`SessionStore.AppendReadIffBlank`, failing inputs `GlueLosesEvent`). Appending a refused event to
  a missing session still creates an empty file (`SessionStore.AppendRefines`).
- A fenced answer whose last fence mark lies in front of the object or inside one of its strings
  does not give the object back (`JsonExtract.ExtractFenced`, an if and only if, and
  `FenceInStringLosesObject`).

## Model

| member | source | states |
|---|---|---|
| DagEngine.EveryRun | runner/runner.go:482-720 | In every interleaving of batches, spawned nodes, results, failing external calls and cancellation: no node is dispatched twice, each only after all its parents completed and with exactly their recorded outputs; at each return to select the pending counters equal the unfinished parents with multiplicity, the edge lists mirror the parent lists, and the active count is started minus completed |
| DagEngine.OnlyGroundedDispatched | runner/runner.go:576-714 | A node on a dependency cycle, downstream of one or of a node never added is dispatched in no run |
| DagEngine.CycleIsNotGrounded | runner/runner.go:623-714 | A set whose every member waits for another member holds no node that can be dispatched |
| DagEngine.QuiescentIffGrounded | runner/runner.go:623-714 | No stall, both ways: when a live loop is at select with nothing active, the completed nodes are exactly those with all ancestors added and none on a cycle |
| DagEngine.AcyclicClosedCompletes | runner/runner.go:623-714 | If the added nodes are closed under parents and acyclic, an idle loop has completed all of them |
| DagEngine.OutputsAreBrought | runner/runner.go:671-687 | In every run a recorded output is the output a result of that node brought without failing, and while the loop lives every arrived result is recorded so |
| DagEngine.NodesAreOffered | runner/runner.go:623-685 | The nodes are first offers, and while the loop lives exactly the first node offered under each id by batches and by the spawned nodes of arrived results |
| DagEngine.EndsAreLast | runner/runner.go:661-681 | A failed result or a cancellation is the last step of its run and launches, records and adds nothing |
| DagEngine.StoppedIff | runner/runner.go:661-720 | A run has stopped if and only if it was cancelled, a node failed or one of the external calls it made failed |
| DagEngine.ReportsIdle | runner/runner.go:707-714 | The engine reports idle once for each result that leaves nothing running, and at no other moment |
| DagEngine.ReceiveMeans | runner/runner.go:671-714 | One result: its spawned nodes are offered, its output is the only one recorded unless it failed, and a failure records, adds and launches nothing |
| DagEngine.ReceiveKeeps | runner/runner.go:671-714 | The result arm restores the select invariant, or the loop has stopped with the dispatch log still sound |
| DagEngine.ReleaseOneKeeps | runner/runner.go:696-706 | Paying a child the one decrement it is owed keeps the counters exact and launches it exactly at 0 |
| DagEngine.RecordOwes | runner/runner.go:687-706 | Recording an output turns every edge from that node into one owed decrement |
| DagEngine.AddAllKeeps | runner/runner.go:623-659 | Adding a batch in the middle of the result arm keeps counters, edges and dispatch log |
| DagEngine.UnfinishedDrop | runner/runner.go:640-645 | Completing a node lowers a child's count of unfinished parents by the multiplicity of that parent |
| DagEngine.LinkCounts | runner/runner.go:636-638 | Linking a node adds it to each parent's child list once per mention |
| DagEngine.ApplyKeeps | runner/runner.go:661-716 | Every select arm keeps the invariant |
| DagEngine.Engine.Dispatch | runner/runner.go:576-621 | runNode hands over the parents' recorded outputs and counts the node active unless an external call fails |
| DagEngine.Engine.AddNode | runner/runner.go:625-656 | A known id is skipped; a new node is registered, linked, counted and dispatched when nothing is pending |
| DagEngine.Engine.AddNodes | runner/runner.go:623-659 | The batch loop, stopping at the first failed call |
| DagEngine.Engine.LinkParents | runner/runner.go:636-638 | The child lists after linking all parents in order |
| DagEngine.Engine.CountPending | runner/runner.go:640-646 | The count of parents without a recorded output, with multiplicity |
| DagEngine.Engine.HandleResult | runner/runner.go:671-714 | The whole result arm in its order: active count, spawned nodes, output, children, idle report |
| DagEngine.Engine.CompleteNode | runner/runner.go:687-714 | Recording the output and releasing the children, then the idle report |
| DagEngine.Engine.ReleaseChildren | runner/runner.go:696-706 | All children in list order, stopping at the first failed call |
| DagEngine.Engine.ReleaseChild | runner/runner.go:697-705 | One decrement, and a dispatch exactly when it reaches 0 |
| DagEngine.Engine.Loop | runner/runner.go:661-720 | The select loop run over any sequence of arrivals computes the run the theorems speak about |
| StreamEvents.SelectMembers | stream/filter.go:25-36 | Filtering keeps exactly the matching events |
| StreamEvents.SelectConcat | stream/bundle.go:92-105 | Filtering a concatenation is concatenating the filtered parts |
| StreamEvents.FilterMeans | stream/filter.go:25-100 | A filter is met exactly when each kind of condition it has is met by one of its values, event types and prefixes being one kind |
| StreamEvents.OneCondition | stream/filter.go:38-100 | One condition alone, in the event's own fields: type and status exact, prefix, selector and scope by the fields they name |
| StreamEvents.ExpandMeans | stream/bundle.go:67-86 | Expanding fails exactly for a bundle without events and otherwise gives every nested event once, in order, unchanged but for scope fields it lacked; a field of its own is kept |
| StreamEvents.RescopeComposes | stream/bundle.go:80-85 | Unpacking nested bundles from the inside out is unpacking once with the merged scope of the carriers; unpacking again by the same carrier changes nothing |
| StreamEvents.RescopeInherits | stream/bundle.go:80-85 | A nested event without a scope of its own meets a scope filter exactly when its carrier does |
| StreamLog.EveryHistory | stream/stream.go:88-249 | For every history of emits, subscribes, reads, cancellations and closes: sequence numbers are 1..n, the buffer is the last min(n, limit) events, channels stay within capacity, and what a subscriber received is a subsequence of what the log owes it |
| StreamLog.LogIsEmitted | stream/stream.go:88-133 | The log is exactly the acceptable events emitted before the close, in order, each as given but for number, time and the scope fields it lacked |
| StreamLog.PrepareMeans | stream/event.go:119-145 | Emit accepts an event exactly when type, source layer and status are there and its delta is JSON, and changes number, time and missing scope fields only |
| StreamLog.ReadsInOrder | stream/subscription.go:110-131 | What a reader has read followed by what is queued is everything its subscription received: once each and in order |
| StreamLog.ClosedIsFinal | stream/stream.go:149-175 | After Close nothing is logged and nobody is added |
| StreamLog.DetachedIsGone | stream/subscription.go:133-147 | A detached subscriber never comes back |
| StreamLog.SelectMeans | stream/subscription.go:149-190 | The choices of the model are exactly the outcomes of the select: any ready case, and the overflow policy when none is |
| StreamLog.ReplayMeetsLive | stream/stream.go:189-249 | A subscription whose catch-up fits, with room later, live contexts and nobody else refusing an event it is owed, has received exactly what it is owed, without gap or duplicate, at every later moment |
| StreamLog.CatchUpExactIff | stream/stream.go:226-249 | A subscription that Subscribe returns has received exactly what its window owes it if and only if it is raw or its buffer holds the whole catch-up |
| StreamLog.CatchUpCanLose | stream/stream.go:226-249 | A history in which Subscribe succeeds and a buffered event is lost |
| StreamLog.OwedIsDueIff | stream/subscription.go:149-190 | What a subscription is owed is filter-after-expand of the log from its replay start if and only if it is raw or no replayed event is itself a bundle |
| StreamLog.OwedOfFlatIsDue | stream/subscription.go:149-190 | In a log whose bundles hold no bundles the two always agree |
| StreamLog.ResentIsSameIff | stream/stream.go:243-247 | Catch-up hands the replayed events out unchanged if and only if none of them is a bundle |
| StreamLog.SubscribeBlocksIff | stream/stream.go:201-249 | Subscribe blocks forever if and only if the subscription is expanded and its catch-up overflows under the error policy or holds a malformed nested bundle |
| StreamLog.SubscribeCanBlock | stream/stream.go:201-249 | A history of one emit and one subscribe that ends blocked |
| StreamLog.EmitFailsIff | stream/stream.go:127-132 | With a live context Emit errs exactly when some subscriber refuses the event: malformed bundle, or overflow under the error policy while not cancelled |
| StreamLog.FanoutReachesIff | stream/stream.go:127-132 | A subscriber with room gets what an event owes it in every visiting order if and only if it is owed nothing or no other subscriber refuses the event |
| StreamLog.LaterSubscriberMisses | stream/stream.go:127-132 | A history in which a subscriber with room misses an event because one without room was visited first |
| StreamLog.NestedReplayDiffers | stream/stream.go:243-247 | A history in which catch-up of a bundle in a bundle differs from filter-after-expand of the log |
| StreamLog.RawReplayIsWindow | stream/stream.go:296-353 | Replay returns exactly the matching events of the requested window, cut to what is buffered |
| StreamLog.LogicalIsDue | stream/stream.go:280-294 | Logical replay succeeds exactly when every bundle is well formed, and is then expand-then-filter of the raw replay |
| StreamLog.ReplayIsDue | stream/stream.go:257-294 | Both replay modes hand out what the window owes a subscriber of that mode |
| StreamLog.AppendKeepsLast | stream/stream.go:135-145 | Appending to the bounded buffer keeps it the last events of the log |
| StreamLog.FanoutSound | stream/stream.go:127-132 | A fan-out changes no subscriber but by events it is owed, in order, whatever fails |
| StreamLog.FanoutExact | stream/stream.go:127-132 | A subscriber with room that nobody hinders gets everything the event owes it |
| StreamLog.SendOutcome | stream/subscription.go:149-190 | One send fails exactly on a malformed bundle or an overflow under the error policy, and with room delivers everything |
| StreamLog.SendAllOutcome | stream/stream.go:243-248 | Catch-up succeeds exactly when nothing in it is malformed and it fits or overflow is tolerated |
| StreamLog.OfferAllExact | stream/subscription.go:171-190 | With room and a live context everything offered arrives in order |
| StreamLog.DueOfFlatIsPlain | stream/bundle.go:67-86 | A log whose bundles hold no bundles owes an expanded subscriber no bundle |
| StreamLog.PushAll | stream/subscription.go:171-190 | The sendExpanded loop: channel, done, context or overflow policy per event |
| StreamLog.SendEvent | stream/subscription.go:149-190 | send: a bundle to an expanded subscriber goes event by event |
| StreamLog.SendReplay | stream/stream.go:243-248 | The catch-up loop of Subscribe |
| StreamLog.Stream.constructor | stream/stream.go:64-84 | A new stream is empty and open |
| StreamLog.Stream.Publish | stream/stream.go:88-133 | Emit: the new log, buffer and subscribers, and whether an error is returned |
| StreamLog.Stream.AppendBuffer | stream/stream.go:135-145 | The shift-left buffer is the bounded append |
| StreamLog.Stream.Deliver | stream/stream.go:106-132 | The fan-out loop with its early return |
| StreamLog.Stream.ReplayRaw | stream/stream.go:296-311 | The buffered events from the replay start that match |
| StreamLog.Stream.Start | stream/stream.go:313-346 | The replay start for every combination of options |
| StreamLog.Stream.ReplayEvents | stream/stream.go:257-294 | Raw or logical replay, failing on the first malformed bundle |
| StreamLog.Stream.Attach | stream/stream.go:189-249 | Subscribe: registration, catch-up and the blocked outcome |
| JsonText.CharsConcat | stream/merge.go:387-396 | String contents concatenate, and so do their code units (section 7 of RFC 8259) |
| JsonText.EscapesRoundTrip | stream/merge.go:369-399 | Every sequence of UTF-16 code units can be written as a string body and is read back (section 7 of RFC 8259) |
| JsonText.PlainSaysItself | stream/merge.go:369-399 | Text without quotes, escapes and control characters reads as itself |
| JsonText.EscapesSay | stream/merge.go:369-399 | Each two-character escape reads as its character |
| JsonText.PairSays | stream/merge.go:369-399 | A character beyond the basic plane reads as its surrogate pair |
| JsonText.QuoteTestIsStringTest | stream/merge.go:296-302 | Among all JSON texts the first-and-last-byte test singles out exactly the string literals |
| MergeFifo.RunLength | stream/merge.go:374-383 | The head's run is made of joinable events and cannot be extended |
| MergeFifo.JoinPreservesText | stream/merge.go:369-399 | A joined run is a valid JSON string under the same key whose decoded value is the concatenation of the parts |
| MergeFifo.JoinKeepsHead | stream/merge.go:369-399 | A joined event is the head of its run with only the delta changed, and a run of one is not changed at all |
| MergeFifo.CanJoinMeans | stream/merge.go:274-309 | Two events join exactly when source, type and status agree and both deltas are quoted |
| MergeFifo.GroupsPreserveText | stream/merge.go:369-399 | Over any sequence of joined runs the text under every join key is unchanged |
| MergeFifo.MergePreservesText | stream/merge.go:369-399 | However a sequence is cut into runs, the text per join key stays the same |
| MergeFifo.UpstreamFifo.constructor | stream/merge.go:334-345 | Depth 0 or less means 4096 |
| MergeFifo.UpstreamFifo.Enqueue | stream/merge.go:347-355 | Refused exactly when full, appended otherwise |
| MergeFifo.UpstreamFifo.Pop | stream/merge.go:357-367 | The oldest event leaves |
| MergeFifo.UpstreamFifo.PopJoinedHead | stream/merge.go:369-399 | The head leaves joined with its maximal run and nothing else moves |
| MergeFifo.TakeJoined | stream/merge.go:369-399 | The loops of popJoinedHead, which the hub runs on each FIFO: head and maximal run leave as one event |
| MergeFifo.JoinRun | stream/merge.go:387-396 | The byte-joining loop computes the joined event |
| MergeHub.EveryRun | stream/merge.go:104-170 | In every run: subscribed identities have a FIFO and exactly one feeder, closed ones a non-empty FIFO, the pending counter equals feeders awaiting a first event, tick ids are 1..n, and per upstream the runs taken plus the queue are what was enqueued |
| MergeHub.Conservation | stream/merge.go:606-745 | For each upstream not unregistered, the frames in tick order followed by its FIFO are the enqueued sequence with only adjacent same-key string deltas merged, and text per join key is unchanged |
| MergeHub.GivenIsConserved | stream/merge.go:606-745 | Against what the feeder gave: the frames in tick order followed by the FIFO are the given events, forwarded, with only adjacent same-key string deltas merged, and text per join key is the text given |
| MergeHub.EnqueuedIsFed | stream/merge.go:194-211 | The k-th enqueued event of an upstream is the k-th one its feeder gave, with type, source, status, delta and logical time unchanged |
| MergeHub.PreparedMeans | stream/merge.go:194-211 | Preparing an event moves its number into the metadata and fills missing scope fields; nothing else changes |
| MergeHub.StepFrame | stream/merge.go:568-640 | Only a flush moves another upstream's queue or adds a frame; a feeder that leaves takes its queue with it, one that closes leaves it behind |
| MergeHub.FeederProgresses | stream/merge.go:104-170 | No step takes a feeder back or gives it another identity, and each step of its own but an accepted event takes it further |
| MergeHub.StopsWhenIdle | stream/merge.go:574-745 | A step that leaves the hub idle decides to stop it |
| MergeHub.TickTakesMaximalRun | stream/merge.go:697-730 | A tick takes one event per non-empty FIFO, its maximal head run, and what stays behind cannot join it |
| MergeHub.CollectOnce | stream/merge.go:704-716 | A frame holds at most one event of each upstream |
| MergeHub.StopOnlyWhenIdle | stream/merge.go:668-670 | A self-stop is decided only when nothing is queued, nothing subscribed and no feeder awaits its first event |
| MergeHub.StopFindsIdleIff | stream/merge.go:568-671 | Between the decision to stop and the stop the hub is idle at every moment if and only if no merge began |
| MergeHub.LateMergeIsKilled | stream/merge.go:574-604 | A run in which a merge begins in between and its upstream is refused |
| MergeHub.ClosedOnlyShrinks | stream/merge.go:618-640 | No step grows the FIFO of a closed identity and a flush shrinks it, unless that identity registers again |
| MergeHub.DrainTerminates | stream/merge.go:642-657 | While others keep enqueuing and registering, after as many flushes as it had events a closed upstream has no FIFO left |
| MergeHub.FlushProgresses | stream/merge.go:642-650 | While a closed upstream has a FIFO a flush has something to emit |
| MergeHub.FeederHasFifo | stream/merge.go:606-616 | A feeding upstream never misses its FIFO |
| MergeHub.FlushKeeps | stream/merge.go:697-745 | A flush keeps the hub invariant |
| MergeHub.ApplyKeeps | stream/merge.go:568-745 | Every lock-held region keeps the hub invariant |
| MergeHub.TickHub.constructor | stream/merge.go:549-566 | A new hub is empty |
| MergeHub.TickHub.StopIfIdle | stream/merge.go:659-670 | Decides to stop exactly when idle |
| MergeHub.TickHub.BeginRegistration | stream/merge.go:568-572 | One more pending feeder |
| MergeHub.TickHub.CancelPendingRegistration | stream/merge.go:574-584 | One pending feeder fewer, and a stop when idle |
| MergeHub.TickHub.RegisterPendingUpstream | stream/merge.go:586-604 | Refused exactly after shutdown or when the identity has a FIFO; the pending count drops either way |
| MergeHub.TickHub.EnqueueEvent | stream/merge.go:606-616 | The prepared event joins its FIFO unless that is full |
| MergeHub.TickHub.Close | stream/merge.go:618-629 | A closed identity keeps only a non-empty FIFO |
| MergeHub.TickHub.Detach | stream/merge.go:631-640 | An unregistered identity loses its FIFO |
| MergeHub.TickHub.PopAll | stream/merge.go:704-716 | Every FIFO is popped once, in any map order, and emptied closed ones are deleted while ranging |
| MergeHub.TickHub.FlushTick | stream/merge.go:697-723 | The lock-held part of a flush |
| MergeDepth.BundlesNeverNest | stream/frame.go:54-82 | In every run of any network of streams, hubs and direct forwards fed by expanded subscriptions: every bundle in every log is well formed and holds no bundle, and each expanded subscription received a subsequence of filter-after-expand of its stream's log |
| MergeDepth.EveryRun | stream/merge.go:104-192 | Every step of such a network keeps logs flat, hubs free of bundles and received events plain |
| MergeDepth.HubStaysPlain | stream/merge.go:606-745 | A hub fed plain events queues and frames plain events only |
| MergeDepth.ReceivedIsPlain | stream/bundle.go:67-105 | What an expanded subscription of a flat log received is never a bundle |
| MergeDepth.EveryRunIsValid | stream/event.go:119-145 | In every run of a network whose Emit accepts only JSON, every delta that is emitted, received, queued or framed and looks like a string is one |
| MergeDepth.SubscriberReadsText | stream/merge.go:606-745 | End to end in every run of such a network: where the frames of one hub are emitted into a stream in tick order and one upstream alone has text under a key, an expanded subscriber is owed exactly the text that upstream's feeder gave, up to what is still queued |
| MergeDepth.TickMeans | stream/frame.go:54-82 | A frame emitted into an open stream adds one completed hub bundle with its tick, which expands to all of the frame's events in order, each unchanged but for scope fields it lacked |
| MergeDepth.LogCarries | stream/frame.go:54-82 | The log of a stream fed by the frames of one hub carries those frames in the order they were emitted |
| MergeDepth.HubRun | stream/merge.go:104-170 | A hub's part of a network run is a run of that hub |
| MergeDepth.GivenGrows | stream/merge.go:173-192 | A merge may forward whatever its upstream subscription ever received, also after that is gone |
| MergeDepth.DirectMeans | stream/merge.go:194-204 | A directly forwarded event is the one received but for its number, which moves to the metadata |
| Conversation.TruncateRestores | llm/conversation.go:378-410 | After any sequence of mutators, auto-shrink and Compress included, replaying the first t events gives exactly the state recorded with event t |
| Conversation.ReplayEqualsLive | llm/conversation.go:272-329 | Replaying the whole log rebuilds instructions, tools, turns and usage |
| Conversation.RunFaithful | llm/event.go:95-120 | Each event of a run, applied to the state before it, gives the state after it |
| Conversation.SessionsReplayIff | llm/conversation.go:272-329 | After OpenSession replay equals live for every sequence of mutators if and only if the session is missing and the conversation unused, or the log found has its init event and the conversation is unused or the log records a usage |
| Conversation.OpenAgreesIff | llm/conversation.go:272-329 | The same condition decides whether log and state agree, and are recorded, right after OpenSession |
| Conversation.ReplayOverlay | llm/conversation.go:288-309 | Replay on top of a conversation differs from replay on a blank one exactly where the log does not say: instructions and tools without an init event, usage without a recorded one |
| Conversation.EmptySessionForgets | llm/conversation.go:288-312 | A session found without events is bound without an init event, and a turn appended to it is not recorded |
| Conversation.UsedConversationForgets | llm/conversation.go:284-323 | A conversation used and trimmed to nothing opens a new session whose log lacks its usage |
| Conversation.TrimKeepsPairsIff | llm/conversation.go:634-658 | No keep count separates an existing output from its call if and only if only outputs and reasoning lie between each pair |
| Conversation.CompressKeepsPairsIff | llm/conversation.go:776-797 | The same condition decides it for Compress of any prefix |
| Conversation.ShrinkKeepsPairsIff | llm/conversation.go:741-768 | No auto-shrink pass, under any configuration and summarizer, separates an output from its call if and only if that condition holds or no usage was reported |
| Conversation.TrimKeepsOpenIff | llm/conversation.go:634-658 | No keep count from 1 on drops a call still to be answered if and only if only outputs and reasoning came after each open call |
| Conversation.CompressKeepsOpenIff | llm/conversation.go:776-797 | The same condition decides it for Compress of any proper prefix |
| Conversation.ShrinkKeepsOpenIff | llm/conversation.go:741-768 | No auto-shrink pass with KeepTurns of at least 1, under any configuration and summarizer, drops an open call if and only if that condition holds or no usage was reported |
| Conversation.OpenCallsAreTorn | llm/conversation.go:646-652 | Two open calls of one response: keeping one turn drops the first, and its output then arrives without its call |
| Conversation.ParallelCallsAreTorn | llm/conversation.go:646-652 | Two calls answered afterwards: keeping three turns keeps an output without its call |
| Conversation.CompactCutKeepsPairs | llm/conversation.go:646-652 | Under that condition every nudged cut keeps pairs |
| Conversation.TrimKeepsSuffix | llm/conversation.go:634-658 | Trim leaves a suffix at least as long as asked that starts no later than any call answerable in place, and keeps a tidy conversation tidy |
| Conversation.CompressKeepsSuffix | llm/conversation.go:776-810 | The same for Compress, behind its one summary turn, for every uptoTurn |
| Conversation.ShrinkKeeps | llm/conversation.go:741-768 | The same for the whole auto-shrink pass, with or without a summarizer and whether or not it fails; instructions, tools and usage do not move |
| Conversation.SessionsStayTidy | llm/conversation.go:545-810 | If each output is appended while its call can still be answered in place, no sequence of appends, trims, drops, compressions and shrink passes strands an output |
| Conversation.SerialSessionsStayTidy | llm/conversation.go:545-810 | A caller that makes one call at a time and keeps at least one turn while it is open never strands an output, whatever is trimmed, dropped, compressed and auto-shrunk meanwhile, and can always still answer in place |
| Conversation.DropMeans | llm/conversation.go:663-689 | The last keepLastN outputs come back unchanged, every earlier one with a body carries the placeholder with its old length, and no other turn or field moves |
| Conversation.DigitsMean | llm/conversation.go:861-866 | The length in the placeholder is that number in decimal, without leading zeros |
| Conversation.CompressMeans | llm/conversation.go:776-810 | A successful Compress leaves the turns from the moved cut on behind one assistant turn, the prefix followed by the summarizer's answer on the turns before it; otherwise nothing changes |
| Conversation.TrimMeans | llm/conversation.go:634-658 | A list that is short enough stays, a longer one keeps the turns from the moved cut on |
| Conversation.ReplaceMeans | llm/conversation.go:694-715 | What lies before and after the clamped range stays, with the replacement in between |
| Conversation.RecordMeans | llm/conversation.go:722-768 | The usage is stored; at the budget old tool outputs go first, then the older turns are summarized, or trimmed when no summary is to be had |
| Conversation.KeptMeans | llm/session.go:293-315 | Truncate keeps the events up to the number asked for, or the init events and no other |
| Conversation.TidyAdd | llm/conversation.go:611-625 | Appending an output whose call is followed only by outputs and reasoning keeps pairs together |
| Conversation.Chat.constructor | llm/conversation.go:169-217 | A new conversation is unbound and empty |
| Conversation.Chat.Emit | llm/conversation.go:412-423 | Recorded with the current state, unless unbound, replaying or refused by a store without an init event |
| Conversation.Chat.AppendTurn | llm/conversation.go:545-625 | The turn joins the end and is recorded |
| Conversation.Chat.AppendReasoning | llm/conversation.go:577-590 | Empty reasoning is ignored |
| Conversation.Chat.Trim | llm/conversation.go:634-658 | The nudged suffix, the event and the number dropped |
| Conversation.Chat.DropToolDetails | llm/conversation.go:663-689 | Old output bodies replaced, the count returned, an event only when something changed |
| Conversation.Chat.EvictBodies | llm/conversation.go:667-684 | The backward loop truncates exactly the non-empty outputs beyond the last keepLastN |
| Conversation.ClampingWorksIff | llm/conversation.go:694-707 | The clamped bounds are legal slice bounds if and only if to is not negative |
| Conversation.NegativeEndPanics | llm/conversation.go:694-707 | Two calls that panic |
| Conversation.Chat.ReplaceRange | llm/conversation.go:694-715 | The clamped splice and its event, or a panic that changes nothing |
| Conversation.Chat.Compress | llm/conversation.go:776-810 | The prefix becomes one summary turn; a summarizer error changes nothing |
| Conversation.Chat.MaybeAutoShrink | llm/conversation.go:741-768 | The tiers in order and whether the summarizer failed |
| Conversation.Chat.ShrinkTurns | llm/conversation.go:751-767 | Compress, or Trim as the fallback |
| Conversation.Chat.RecordUsage | llm/conversation.go:722-727 | Usage stored and recorded before the shrink pass |
| Conversation.Chat.ApplyEvent | llm/event.go:95-120 | Each kind's mutation without recording; a missing turn or unknown kind is an error, a replacement with illegal bounds a panic |
| Conversation.Chat.OpenSession | llm/conversation.go:272-329 | Declined when bound, when there are turns or when the stores cannot be read; otherwise seeded or replayed, with replay errors and panics reported and the state they leave; sound exactly when conversation and session were fit to be joined |
| Conversation.Chat.ReplayAll | llm/conversation.go:290-309 | The replay loop stops at the first event that fails and writes nothing |
| Conversation.Chat.Truncate | llm/conversation.go:378-410 | The kept log, the state its replay reaches and the outcome; in a sound session the state recorded with the kept event |
| Conversation.Chat.Do | llm/conversation.go:545-810 | Every mutator keeps a sound session in agreement with its log |
| SessionStore.StoreRefinesList | llm/session.go:164-438 | Over every run of appends, other processes' appends, truncations and deletions the file is an append-only list: numbers 1..n, init first and unique, Load returns it, the cache equals a rescan |
| SessionStore.AppendRefines | llm/session.go:164-241 | Append is appending to the list with number n+1 and leaves the cache at the new end; a second init or a missing one is refused |
| SessionStore.RefusedWriteLeavesEmpty | llm/session.go:177-210 | A first append refused for want of an init event leaves a session that loads without events and refuses every further append but an init event |
| SessionStore.WritesAreRead | llm/session.go:164-265 | Writing an init event and any others to a new session and loading it gives exactly those events, in order, numbered from 1 |
| SessionStore.ListIsWritten | llm/session.go:164-241 | Over every run each event of the list is one some append wrote, but for its number |
| SessionStore.CutMeans | llm/session.go:267-358 | Truncate keeps the first events asked for and at least the first; Delete leaves none |
| SessionStore.LinesMean | llm/session.go:396-438 | A line ends at the first line feed, without a carriage return in front of that |
| SessionStore.OutsideAppendRefines | llm/session.go:187-203 | Appends by other processes leave this one's cache sound |
| SessionStore.TruncateRefines | llm/session.go:267-336 | Truncate keeps the list's prefix, at least the init event, and errs on a missing session |
| SessionStore.CacheAgrees | llm/session.go:187-203 | The size-keyed cache equals a rescan of the file |
| SessionStore.RenderRepresents | llm/session.go:293-315 | Writing a list out and reading it back gives the list |
| SessionStore.AppendReadIff | llm/session.go:177-221 | For complete lines followed by any fragment: the appended event is read back behind everything read before if and only if the lines are clean, the glued line decodes to it and the fragment held no event of its own |
| SessionStore.AppendReadIffBlank | llm/session.go:177-221 | For any loadable file and a JSON-like codec: read back if and only if the complete lines are clean and only white space follows the last line break |
| SessionStore.GlueLosesEvent | llm/session.go:177-221 | Behind a fragment that does not complete it an append is lost silently, with any event the fragment held, and the next append makes the file unreadable |
| SessionStore.DebrisIgnored | llm/session.go:396-438 | One trailing bad line is ignored |
| SessionStore.BadStays | llm/session.go:396-438 | A bad line with another after it is an error however the file goes on |
| SessionStore.DecodeEvents | llm/session.go:396-438 | The one-pass loop with a held-back record computes the verdict on all lines |
| SessionStore.JsonStore.constructor | llm/session.go:110-119 | No files and no cache |
| SessionStore.JsonStore.AppendEvent | llm/session.go:164-241 | One session's file and cache move, all others stay; bad ids are refused |
| SessionStore.JsonStore.ScanLastSeq | llm/session.go:365-394 | The largest number and whether an init event is there |
| SessionStore.JsonStore.LoadEvents | llm/session.go:244-265 | The decoded file, an error when missing or badly named |
| SessionStore.JsonStore.TruncateTo | llm/session.go:267-336 | The file holds the kept events, the cache is dropped |
| SessionStore.JsonStore.DeleteSession | llm/session.go:339-358 | File and cache are gone; an error when there was none |
| AdmissionQueue.EveryRun | orchestrator/queue.go:11-144 | In any run the slot set stays within the limit, a free slot and a live entry never coexist at an unlock, the live map is the uncancelled heap entries, and no entry is handed out twice |
| AdmissionQueue.StartsBestFirst | orchestrator/queue.go:109-133 | One unlock starts live entries in priority-then-age order and none left behind beats one started |
| AdmissionQueue.StartsBySubmission | orchestrator/queue.go:109-180 | Over every run what a step starts was submitted with a higher priority than what it starts later or leaves waiting, or with the same priority earlier |
| AdmissionQueue.EntriesCame | orchestrator/queue.go:18-41 | Every entry waiting, started or aborted came from a submission of that runner with that priority which found no free slot |
| AdmissionQueue.OrderIsTime | orchestrator/queue.go:18-41 | The order of two entries is the order of their submissions |
| AdmissionQueue.SubmitMeans | orchestrator/queue.go:18-41 | A submission takes a free slot, or adds exactly one live entry with the submitted runner and priority and an order above all earlier ones |
| AdmissionQueue.NothingIsLost | orchestrator/queue.go:18-144 | Over every run the entry of each queued submission is waiting, cancelled, started or aborted |
| AdmissionQueue.CollectMeans | orchestrator/queue.go:109-133 | One unlock starts entries whose context is alive and aborts those whose context is over; every live entry stays live or is one of these |
| AdmissionQueue.CollectSlots | orchestrator/queue.go:109-133 | One unlock gives a slot to the runner of every entry it starts and to no other |
| AdmissionQueue.SlotsMean | orchestrator/queue.go:11-144 | Over every run at most the limit of slots are taken, and while fewer are no entry waits |
| AdmissionQueue.CancelMeans | orchestrator/queue.go:58-74 | A context that ends takes out its own entry if that still waits and does nothing otherwise |
| AdmissionQueue.StartLeavesQueue | orchestrator/queue.go:76-85 | A runner whose start began or that was removed no longer waits, and a start moves nothing else |
| AdmissionQueue.PopLivePicksBest | orchestrator/queue.go:135-144 | The popped entry is live and the best live one; none popped means none live |
| AdmissionQueue.CollectKeeps | orchestrator/queue.go:109-133 | Collecting fills the slots or empties the queue |
| AdmissionQueue.UpRestores | orchestrator/queue.go:171-188 | Sifting up restores the heap order |
| AdmissionQueue.DownRestores | orchestrator/queue.go:171-196 | Sifting down restores the heap order |
| AdmissionQueue.PushOk | orchestrator/queue.go:186-188 | Push gives a heap of the old entries and the new one |
| AdmissionQueue.PopOk | orchestrator/queue.go:190-196 | Pop removes an entry no other beats and leaves a heap of the rest |
| AdmissionQueue.SubmitKeeps | orchestrator/queue.go:18-41 | Submitting keeps the invariant |
| AdmissionQueue.UnqueueKeeps | orchestrator/queue.go:80-85 | Lazy deletion keeps the invariant |
| AdmissionQueue.ReleaseKeeps | orchestrator/queue.go:101-107 | Freeing a slot keeps the invariant |
| RunnerLimit.SlotsCoverIff | orchestrator/queue.go:76-107 | Over a run every executing runner holds a slot at every moment if and only if no slotless start succeeded and no failed start gave back an executing runner's slot |
| RunnerLimit.LimitHoldsIff | orchestrator/queue.go:76-107 | From a state, every continuation without such a step keeps the executing runners within the limit if and only if every executing runner holds a slot |
| RunnerLimit.QueuedStartExceeds | orchestrator/orchestrator.go:797-804 | Limit 1: StartRunner on a queued runner makes two execute |
| RunnerLimit.RestartExceeds | orchestrator/queue.go:86-97 | Limit 1: a second StartRunner on an executing runner frees its slot, and two execute |
| RunnerLimit.BreakMayFit | orchestrator/queue.go:76-98 | A slotless start in a run that never exceeds the limit, because the slot holder does not execute |
| RunnerLimit.EveryRun | orchestrator/queue.go:11-107 | In every run of submissions, starts, failures, settles and removals queued, slot-holding, starting and executing runners stay consistently recorded |
| RunnerLimit.RefinesQueue | orchestrator/queue.go:11-144 | The queue inside every run of the system goes through a run of its own, so what is proved of queue runs holds here |
| RunnerLimit.CollectMoves | orchestrator/queue.go:109-133 | Refilling slots gives them only to queued runners, which leave the queue |
| AdmissionQueue.Admission.constructor | orchestrator/orchestrator.go:426-438 | An empty queue with its limit |
| AdmissionQueue.Admission.PopQueued | orchestrator/queue.go:135-144 | The loop that skips cancelled entries |
| AdmissionQueue.Admission.CollectStarts | orchestrator/queue.go:109-133 | What is started and aborted in one unlock |
| AdmissionQueue.Admission.SubmitRunner | orchestrator/queue.go:18-41 | Started at once exactly when a slot is free, queued otherwise |
| AdmissionQueue.Admission.UnqueueRunner | orchestrator/queue.go:79-85 | The live entry is cancelled in place |
| AdmissionQueue.Admission.RemoveQueued | orchestrator/queue.go:58-74 | Only the runner's current entry is cancelled, then slots are refilled |
| AdmissionQueue.Admission.ReleaseSlot | orchestrator/queue.go:101-107 | The slot is freed and refilled |
| SqlPushdown.LoadersAgree | store/internal/sqlite/stream_store.go:123-174 | For every stored table, scope, start and filter the SQLite load equals the PostgreSQL load, errors included |
| SqlPushdown.PushdownIsSound | store/internal/sqlite/stream_store.go:251-308 | Every event the filter wants survives the pushed-down predicate |
| SqlPushdown.PrefixIsLike | store/internal/sqlite/db/queries.sql.go:264-279 | LIKE with the prefix as pattern matches every text with that prefix, wildcards and letter case included |
| SqlPushdown.LikeIsWider | store/internal/sqlite/db/queries.sql.go:264-279 | LIKE also matches a text without the prefix, so the recheck is needed |
| SqlPushdown.SqliteAnswers | store/internal/sqlite/stream_store.go:123-174 | The pushed-down load returns exactly the wanted events of the request, ascending |
| SqlPushdown.PostgresAnswers | store/internal/postgres/stream_store.go:65-109 | So does the plain scan |
| SqlPushdown.QueryOk | store/internal/sqlite/db/queries.sql.go:264-279 | A query over one request returns each selected row once, in sequence order |
| SqlPushdown.RawsOk | store/internal/sqlite/stream_store.go:154-173 | The recheck keeps exactly the wanted events, in order |
| SqlPushdown.AnswersUnique | store/internal/postgres/stream_store.go:86-109 | Ascending lists with the same events are the same list |
| SqlPushdown.AppendsAreStored | store/internal/sqlite/stream_store.go:34-68 | Every table built by appends has one row per request and sequence number whose columns match its event |
| SqlPushdown.AppendMeans | store/internal/sqlite/stream_store.go:34-68 | An append fails exactly for an event that is not storable or whose request and number are taken, and otherwise adds exactly its row |
| SqlPushdown.LoadAfterAppends | store/internal/sqlite/stream_store.go:34-174 | After any appends both stores load for a request exactly the accepted events of that request from the start on that scope and filter want, ascending |
| SqlPushdown.PushdownNarrows | store/internal/sqlite/stream_store.go:251-308 | What a single value in scope or filter decides, the query decides already |
| SqlPushdown.Recheck | store/internal/sqlite/stream_store.go:154-173 | The row loop computes the recheck |
| SqlPushdown.SqliteLoad | store/internal/sqlite/stream_store.go:123-174 | Validation, query and recheck |
| SqlPushdown.PostgresLoad | store/internal/postgres/stream_store.go:65-109 | Validation, scan and match |
| Lifecycle.EveryRun | runner/runner.go:314-428 | Over all interleavings, Complete included, the launch token is held by at most one caller or the engine goroutine, and phase, status and goroutine place agree |
| Lifecycle.SingleEngine | runner/runner.go:482-496 | At most one engine loop ever runs, none after an Abort that came first, and once polishing began only through an accept |
| Lifecycle.EngineSettles | runner/runner.go:405-428 | An engine goroutine that has ended leaves the runner settled for good |
| Lifecycle.StatusIsLastWritten | runner/runner.go:370-428 | Over every run the status is the last one written and pending until then; an Abort, a failed polish and the end of the goroutine settle the runner |
| Lifecycle.CallsPassIff | runner/lifecycle.go:21-162 | Each call gets past its check exactly in its phase and status, and accept and replan leave a plan behind |
| Lifecycle.AbortPreventsEngine | runner/runner.go:370-393 | An Abort before any loop was entered keeps every later step from entering one |
| Lifecycle.ReviewsAreSeparate | runner/lifecycle.go:78-116 | Over runs: between two reviews that both pass a polish stage completes, so of competing accepts and rejects only one passes |
| Lifecycle.SettledIsFinalIff | runner/runner.go:405-428 | From a settled state every continuation stays settled if and only if no polish stage is in flight and the engine goroutine can no longer report: not past its clean load, and not on its way there as a cancellation that Complete has cleared or may still clear |
| Lifecycle.NoLoopNoReport | runner/runner.go:405-428 | An engine goroutine that never entered its loop never reports |
| Lifecycle.SettledCanBeLeft | runner/lifecycle.go:351-370 | Runs that go from Settled to AwaitingReview and from Settled to Report |
| Lifecycle.Runner.constructor | runner/runner.go:120-149 | A created, pending runner |
| Lifecycle.Runner.PrepareEngineLaunch | runner/runner.go:314-331 | Passes exactly when the agents could be prepared, the status is pending and the phase is the given one; an accept installs its plan |
| Lifecycle.Runner.LaunchEngine | runner/runner.go:335-363 | Only the first launch starts a goroutine |
| Lifecycle.Runner.RunEngineCheck | runner/runner.go:482-496 | The loop is entered exactly when the status is still pending |
| Lifecycle.Runner.PolishNow | runner/lifecycle.go:48-69 | Polishing starts exactly from Created or AwaitingReplan with a plan and prepared agents |
| Lifecycle.Runner.CompletePolish | runner/lifecycle.go:351-366 | Completion writes AwaitingReview whatever the phase; an error aborts as Failed, or Canceled when it is a context error |
| Lifecycle.Runner.RejectPolishedPlan | runner/lifecycle.go:101-116 | Passes exactly in AwaitingReview |
| Lifecycle.Runner.ReplanWith | runner/lifecycle.go:124-162 | Passes exactly in AwaitingReplan with a plan and prepared agents |
| Lifecycle.Runner.BeginComplete | runner/lifecycle.go:21-29 | Complete gets past its check exactly in Executing |
| Lifecycle.Runner.StoreCompleted | runner/lifecycle.go:30-30 | The clean flag is set outside the lock, at any later moment |
| Lifecycle.Runner.SettleDecision | runner/runner.go:405-423 | settle reports exactly for a cancellation after a clean completion with a plan |
| Lifecycle.Runner.AbortRun | runner/runner.go:370-393 | The status and phase Abort leaves |
| Describe.ResumeEqualsFull | orchestrator/describe.go:88-160 | Resuming from the cursor saved after any prefix gives the view, or the error, of a full replay |
| Describe.FoldIsFlat | orchestrator/describe.go:128-141 | Up to the event cursor, replaying frames is replaying their logical events |
| Describe.BundlingIrrelevant | orchestrator/describe.go:128-141 | Logs with the same logical events give the same view however bundled |
| Describe.ArtifactsAreLatest | orchestrator/describe.go:245-278 | The view holds one artifact per node and path, the latest announced, and no other |
| Describe.NodesAreLatest | orchestrator/describe.go:200-244 | The view knows exactly the nodes some event spoke of, each with the latest status, failure and dependencies announced for it |
| Describe.SummaryIsLatest | orchestrator/describe.go:162-199 | Phase and status are the latest non-empty ones announced, a failure counting as the status failed; the runner is the first one named |
| Describe.TasksAreLatest | orchestrator/describe.go:200-221 | A node's task is the latest one announced that is not blank, and so is its skill once one was announced |
| Describe.SkillHint | orchestrator/describe.go:200-294 | A node without a skill takes the one in the metadata of an event about it |
| Describe.ArtifactMeans | orchestrator/describe.go:245-265 | Which events announce an artifact, and its fields |
| Describe.ApplyFailsIff | orchestrator/describe.go:162-268 | An event is refused exactly when it belongs to another request or its payload cannot be read or lacks its node or path; a status payload may be unreadable |
| Describe.ReplayMeans | orchestrator/describe.go:88-146 | A replay is refused for a missing or mismatching request id; its answer belongs to the request, keeps the larger checkpoint and has read every event of the log |
| Describe.ReplayIsLatest | orchestrator/describe.go:88-146 | The view replayed from a whole raw log holds the latest artifact per node and path, the latest node facts and the latest phase and status of its logical events |
| Describe.UpsertOk | orchestrator/describe.go:270-278 | An upsert replaces the artifact with the same key or adds it, and touches no other |
| Describe.UpsertArtifact | orchestrator/describe.go:270-278 | The search loop computes the upsert |
| Describe.ReplayDescribeView | orchestrator/describe.go:88-146 | Request id, cursor and view checks, then the replay from the cursor |
| Describe.ReplayRaws | orchestrator/describe.go:128-141 | The replay loop, stopping at the first error |
| EventLogQueue.EveryRun | orchestrator/request.go:200-275 | In every interleaving events come out once, in order, all before end-of-queue; the dead prefix is under 1024 or under half the slice; a waiting consumer with work or a close pending has a token |
| EventLogQueue.ReturnedAreOffered | orchestrator/request.go:212-268 | Accepted are exactly the events offered before the first close, and those returned are a prefix of them, all of them once the end was reported |
| EventLogQueue.TakeReturns | orchestrator/request.go:239-268 | A pass of Next that finds work returns one more event; otherwise it reports the end exactly when closed |
| EventLogQueue.WakesAreBounded | orchestrator/request.go:212-268 | The consumer wakes at most once per accepted event and once for the close |
| EventLogQueue.TakeKeeps | orchestrator/request.go:239-268 | One pass of Next returns the next accepted event and compacts without losing any |
| EventLogQueue.NextReady | orchestrator/request.go:239-268 | The slot at the head is the next accepted event, and an empty slice means all were returned |
| EventLogQueue.LogQueue.constructor | orchestrator/request.go:208-210 | An empty open queue |
| EventLogQueue.LogQueue.Put | orchestrator/request.go:212-224 | Accepted exactly while open, with a token |
| EventLogQueue.LogQueue.Shut | orchestrator/request.go:226-237 | Closed, with a token |
| EventLogQueue.LogQueue.TryNext | orchestrator/request.go:239-268 | The next event in order, end-of-queue only when all were returned, or nothing yet |
| JsonExtract.ExtractFromProse | runner/plan.go:57-71 | Every JSON object is recovered byte for byte from prose without an opening brace or leading fence, whatever follows |
| JsonExtract.ExtractFromFence | runner/plan.go:87-106 | From a fenced block with optional tag the object comes back if and only if a fence follows it or there is no further fence mark; its strings may hold braces, quotes and fences |
| JsonExtract.ExtractFenced | runner/plan.go:87-106 | The same for every fenced answer, with or without a tag line, on one line or several: the object comes back if and only if a fence follows it, or none lies behind the tag line in front of it or inside it |
| JsonExtract.FenceInStringLosesObject | runner/plan.go:87-106 | An unclosed block whose object holds a fence mark in a string is lost |
| JsonExtract.CutAtLastFence | runner/plan.go:102-105 | Cutting at the last fence keeps the object exactly when that fence follows it or there is none |
| JsonExtract.TagMeans | runner/plan.go:93-118 | A dropped tag line is space, then letters, digits, underscores and dashes, then space, each part possibly empty |
| JsonExtract.ObjectCloses | runner/plan.go:120-158 | On any JSON object (sections 4 and 7 of RFC 8259) the scanner closes exactly at its last brace |
| JsonExtract.BalancedFinds | runner/plan.go:120-158 | After brace-free text the scan returns exactly the object |
| JsonExtract.LastFence | runner/plan.go:102-104 | The position of the last fence mark, or none |
| JsonExtract.ExtractBalanced | runner/plan.go:120-158 | The byte loop computes the scan |
| Text.TrimLeftConcat | runner/plan.go:57-71 | Leading space is trimmed up to the first other character and no further |
| Text.TrimRightConcat | runner/plan.go:57-71 | Trailing space is trimmed back to the last other character and no further |
| Text.TrimMeans | runner/plan.go:57-71 | Trimming takes away the space on both sides, all of it and nothing else |

## Left out

- LLM transport, prompts and agents: network calls and text assembly; agents, planner and summarizer are arbitrary functions here.
- Workspace, file handoff and symlink code, terminal output, logging, CLI, HTTP server, MCP client, allowlists and approval policy: no in-memory protocol to state.
- `runner/store.go`, `runner/codec.go`: the append, scan and decode algorithm of `llm/session.go` without Truncate; modelled once.
- A nil delta becoming `null` on Emit, timestamps, `UpdatedAt`, `CreatedAt`, tick timing and deadlines: values the proved state does not depend on.
- JSON, YAML and TOML codecs: an injective round trip or a parameter; only string deltas and the object scanner have a concrete grammar. In that grammar a number or literal is any word of digits, lower-case letters and sign characters, which is wider than RFC 8259.
- Aliasing of heap objects: subscriptions, FIFOs, turns and describe views are values inside their owner's fields; `memorySessionStore` and its shallow copies are not modelled.
- Snapshots through `queryCh` and the error values behind an error: an error is only told apart from success.
- An unbuffered channel whose receiver is already waiting: a channel of capacity 0 is always full here.
- StreamLog.EveryHistory: reads and cancellations fall between the lock-held regions here; in the source a reader or Cancel's first half may come inside a fan-out, which only makes room or ends one subscriber's part. After a blocked Subscribe the model takes no further step, while reads and Close's first half still happen in the source.
- StreamLog.EmitFailsIff: judges each channel by its length when the fan-out begins; a reader that makes room meanwhile can spare an error.
- StreamLog.FanoutReachesIff: likewise judges refusal by the lengths when the fan-out begins.
- Context plumbing of the merge feeders: a feeder may leave at any moment.
- Write failures of the session stores and `lastErr`, several stores mirrored by one conversation, and the tool-registration check of OpenSession.
- The 8 MiB line limit of `decodeEvents`, cross-process Truncate and Delete, disk errors.
- SQL lock retries and SQLite's limit on the length of a LIKE pattern.
- SqlPushdown.LoadersAgree: PostgreSQL keeps the event as `jsonb` and reads it back as text, which may reorder keys and change spacing inside a delta; events are compared as values here, so byte-for-byte equality of such deltas is not promised.
- AdmissionQueue.EveryRun: a runner is submitted while it has no queued entry, because the caller creates it just before (orchestrator/request.go:398); context checks before the lock are left to the caller.
- AdmissionQueue.Admission.SubmitRunner: the entry's watcher goroutine and the start itself are later steps (`RunnerLimit`).
- RunnerLimit.EveryRun: the runner is a set membership; why StartManaged fails (context, plan, phase) is left open, except that it succeeds at most once per runner and not after Done.
- Conversation.SessionsStayTidy: leaves out ReplaceRange, whose caller may write any turns.
- Conversation.DropMeans: lengths count characters of a text, where the source counts bytes.
- Conversation.Chat.AppendTurn: AppendUser, AppendAssistantText, AppendToolCall and AppendToolOutput build a turn and append it; how the turn's fields are filled is not modelled.
- Conversation.ShrinkKeeps: the budget is computed with real arithmetic, not with float64 rounding.
- MergeHub.Conservation: speaks of frames in tick order, since flushTick emits after releasing the lock and has two callers.
- MergeHub.DrainTerminates: assumes the same identity is not registered again and says nothing about emit errors, which end the drain loop early.
- MergeDepth.BundlesNeverNest: producers emit no bundle of their own, and every merge keeps the default expanded subscription, as the source's callers do.
- Describe.ReplayDescribeView: the event log is a list in sequence order, and applying one event is a function on the view rather than an update in place.
- Lifecycle.EveryRun: node fan-out of polish and report stages and the records they write are not modelled, only when they begin and end; whether agents could be prepared is a parameter of the call.
- Lifecycle.Runner.SettleDecision: runs the load, the status write and the plan check of settle one after the other; in the theorems they are separate steps that others may come between.
- MergeDepth.SubscriberReadsText: assumes the frames are emitted in tick order and none is left out, which flushTick does not promise; what each emission puts into the log is proved.
