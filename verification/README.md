# Ringdown, verified

A Dafny 4.11 model of the parts of Ringdown that are hardest to get right, with proofs. `dafny verify dfyconfig.toml`
checks all of it.

**The agent queue** (`Queue*.dfy`, `Turnstone.dfy`) is the durable outbox between collectors and an unreliable remote
service that runs agents. Any number of collectors enqueue, any number of schedulers compete for one session lock, a
session can be lost at any point, and a request that was issued may take effect at the remote long after its sender is
gone. `QueueProtocol` is a step system: a step is one committed statement or transaction, one answer received, or one
thing that happens at the remote. `QueueScheduler` is the scheduler program itself, with its loops and branches, whose
waits are filled by an arbitrary script of what everyone else does; everything it does is a step of the protocol, so
what is proved of all runs holds of it. The invariants are in `QueueSlots`, `QueueLimits`, `QueueOutbox`, `QueueOrder`,
`QueueMessages` and `QueueIncidents`; the guarantees over all runs are in `QueueRuns`, `QueueSequence` and `QueueReads`.
`QueueLate` and `QueueStray` are complete concrete runs. `QueueKeys` shows that the texts by which the queue groups
firings tell them apart. `Turnstone` shows that the dispatcher's reading of HTTP answers is what the protocol assumes.

**The semantic judge** (`Judge*.dfy`) is split the same way: `JudgeCoverage` is the step system of the cursors of one
rule with several collectors, `JudgePacing` the arithmetic of the rolling-minute ceiling, the backoff and the outage
notices, and `Judge` the program with all its gates, proved against both.

**The collector's pipeline**: `Globs` and `Filters` (glob rewriting, first-match filters, live against history),
`Ingest` (one transaction per batch and its counters, over `Tallies`), `Routing` (ruleset and router), `Throttle`
(incidents of stateless targets). `LiveBuffer` is the sorted buffer of the live view.

Assumptions, all of them visible in the definitions: one clock that never goes back; the remote creates an agent only
under the handle asked for, never after answering with a client error other than 409, answers inspections truthfully,
and never reopens a closed agent (`QueueProtocol.Truthful`, `Turnstone.MeansCreate`, `Turnstone.MeansDetail`). Regular
expressions, template mining, case folding and the model's verdicts are arbitrary functions or arbitrary answers.

Where a natural claim is false of the code, the code is modelled as it is, and the claim is replaced by a
counterexample and the condition under which it holds:

- Deliveries of a group do not always follow the numbers of its rows, because a number is drawn before its transaction
  commits (`QueueLate.LateRowDeliveredBehind`). A smaller number goes out later just when it was committed after the
  delivery of the larger one was read (`QueueReads.InversionMeans`), and the batches end to end are in order if and only
  if the commits were (`QueueSequence.InOrderExactly`).
- One agent per incident fails when a rule goes from grouping by rule to grouping by host with events pending
  (`QueueStray.RegroupedIncidentHasTwo`), and when an inspection reports another project than the one asked for
  (`QueueStray.RelocatedIncidentHasTwo`). The row reserved is found again if and only if neither happens
  (`QueueIncidents.OwnReservationIsFound`, `QueueIncidents.InspectedRowIsFound`); without them the claim holds of every
  run (`QueueRuns.OneAgentPerIncident`).
- The judge's cursor can pass an event that becomes visible late, for the same reason as above, and then it is never
  judged (`JudgeCoverage.LateEventSkipped`, `JudgeCoverage.PassedForGood`). An event is judged if and only if some
  acknowledged window over it was read while it was visible (`JudgeCoverage.NothingSkipped`).
- A retried window starts where the failed one did, and ends no earlier just when the events now visible in its span
  still fit one window (`JudgeCoverage.GivenUpIsRetried`).
- An upgrade can start a rule after a failed window that no success followed, when two collectors left overlapping
  windows (`JudgeCoverage.OverlapStartsLate`); `JudgeCoverage.BaselineResumes` is the exact condition.
- Two pushes of one incident can both go out within the throttling interval (`Throttle.UnstampedRepeats`): within it, a
  firing pushes again if and only if the write that records the last attempt was lost
  (`Throttle.Coordinator.RepeatsExactly`).
- The judge's own LIKE pattern is unescaped and agrees with the live match for exactly the globs without `%`, `_` and
  backslash (`Globs.BareIsGlob`).

## Model

| member | source | states |
|---|---|---|
| QueueKeys.SharedGroup | ringdown/agent_queue.py:27-33 | two firings get the same key text if and only if rule, target, grouping, owner and project agree and, when grouped by host, the source does |
| QueueKeys.DumpsTells | ringdown/agent_queue.py:31-33 | the JSON text of a flat list, with its escapes and surrogate pairs, belongs to no other list |
| QueueScheduler.Configured | ringdown/agent_queue.py:77-84 | every accepted configuration is within the limits all runs rely on; only a `max_active` outside 1 to 4 is rejected |
| QueueRuns.InvariantAlways | ringdown/agent_queue.py:86-328 | every state of every run, with any collectors, schedulers, lost sessions and late effects, keeps the five invariants of slots, limits, outbox, history and messages |
| QueueRuns.SlotCap | ringdown/agent_queue.py:245-282 | every agent alive at the remote holds an unclosed row, and neither agents nor unclosed rows exceed the larger of the starting count and `max_active` |
| QueueRuns.ReservationRate | ringdown/agent_queue.py:246-252 | no minute contains more reservations than the rate ceiling |
| QueueRuns.CreatedOnce | ringdown/agent_queue.py:261-282 | a creation for a handle is repeated only after the remote definitely refused the one before, over any run including restarts |
| QueueRuns.StatusTellsAttempt | ringdown/agent_queue.py:138-170 | a row is opening exactly while not attempted, a seeded row is open or closed, and an opening row has no agent and only refused creations |
| QueueRuns.ClosedIsFinal | ringdown/agent_queue.py:146-155 | no row disappears, changes rule or target, or leaves closed, between any two states of a run |
| QueueRuns.QueuedIffPending | ringdown/agent_queue.py:92-102 | an event is queued if and only if exactly one outbox row holds it |
| QueueRuns.DispositionIsFinal | ringdown/agent_queue.py:315-323 | once opened, fed, resolved or cancelled, an event never changes again |
| QueueRuns.NoEventLost | ringdown/agent_queue.py:92-323 | every committed event waits in the outbox, was resolved or cancelled with its row, or was in a message the remote accepted |
| QueueRuns.NothingBehindClosure | ringdown/agent_queue.py:86-102 | with lookup and insertion as separate steps, no reachable state holds a pending event assigned to a closed workstream and created no later than the closure |
| QueueRuns.ClosureResolves | ringdown/agent_queue.py:150-170 | a closure resolves exactly the events assigned to its workstream and created by its closing time; all other rows and events stay |
| QueueRuns.DeliveredInOrder | ringdown/agent_queue.py:206-217 | of two deliveries of a group the later brings only larger numbers, rows committed after the earlier was read aside, and nothing is delivered twice |
| QueueReads.SeenAlways | ringdown/agent_queue.py:206-217 | in every state of every run, later deliveries and messages have seen at least as much as earlier ones, and each message carries the oldest rows its delivery had seen of the group, as far as they are pending |
| QueueReads.InversionMeans | ringdown/agent_queue.py:206-217 | of two rows of a group the smaller number goes out later if and only if it was committed after the delivery of the larger one was read |
| QueueLate.LateRowDeliveredBehind | ringdown/agent_queue.py:92-102 | a complete run that delivers row 1 of a group and then row 0, which was numbered first and committed late |
| QueueSequence.BatchesConcatenate | ringdown/agent_queue.py:206-323 | when a group's rows commit in number order and none is dropped, its batches end to end are a prefix of what was enqueued, and all of it once nothing is pending |
| QueueSequence.InOrderExactly | ringdown/agent_queue.py:206-323 | once nothing of a group is pending and none was dropped, its batches end to end are what was enqueued, ascending, if and only if its rows were committed in number order |
| QueueRuns.MessagesAreSafe | ringdown/agent_queue.py:283-314 | every message goes to an agent inspected alive with the events' project, for events of one group whose frozen identity is still the rule's; it repeats no recorded delivery and starts no earlier than the messages before it |
| QueueReads.SendsTheHead | ringdown/agent_queue.py:209-214 | every message carries the oldest pending rows of its group among those seen, and the first of them is due |
| QueueReads.NextMessageRepeats | ringdown/agent_queue.py:209-217 | while the first row of an unrecorded message is pending, the next message of the group starts with it if and only if no smaller number was committed since that message was read, and otherwise with such a number |
| QueueReads.NextMessageExtends | ringdown/agent_queue.py:209-217 | while all rows of an unrecorded message are pending and no smaller number came late, the next message repeats it, shorter or longer |
| QueueRuns.SendsAreSpaced | ringdown/agent_queue.py:290-294 | recorded sends on one handle are at least the feed interval apart over the whole run |
| QueueRuns.OneAgentPerIncident | ringdown/agent_queue.py:243-258 | while rules keep their grouping and inspections report the project asked for, two unclosed reservations never serve the same incident, however many creations time out or are refused; firings grouped by host under a rule grouped by rule included |
| QueueIncidents.OwnReservationIsFound | ringdown/agent_queue.py:174-179 | the next delivery finds the row reserved for its group if and only if the rule now groups by rule or the group was formed by host |
| QueueIncidents.InspectedRowIsFound | ringdown/agent_queue.py:138-155 | it still finds it after an inspection if and only if that did not find the agent gone and, if it found anything, reported the project of the events |
| QueueIncidents.StrayGroupReservesAgain | ringdown/agent_queue.py:241-258 | otherwise no workstream can be adopted, a second one is admitted just when there is room, and its reservation serves the same incident as the first |
| QueueStray.RegroupedIncidentHasTwo | ringdown/agent_queue.py:241-258 | a complete run that ends with two unclosed reservations for one incident, after a rule was regrouped |
| QueueStray.RelocatedIncidentHasTwo | ringdown/agent_queue.py:150-155 | a complete run that ends with two, after an inspection reported another project |
| QueueScheduler.Pack | ringdown/agent_queue.py:295-305 | the batch is the longest prefix that fits the message bound, and at least one row |
| QueueScheduler.SelectHead | ringdown/agent_queue.py:210-211 | the rows read are the first ones of the group by number, up to the batch size, with none left out |
| QueueScheduler.FindWorkstream | ringdown/agent_queue.py:173-179 | the row found matches and is the latest opened match; none found means none matches |
| QueueScheduler.DueGroups | ringdown/agent_queue.py:206-208 | the groups listed are due, distinct and ordered by their oldest row, and complete unless the limit is reached |
| QueueScheduler.ForeignStep | ringdown/agent_queue.py:117-131 | while a session keeps the lock, nobody else changes workstreams, the delivery in progress or existing outbox rows |
| QueueScheduler.AgentQueue.constructor | ringdown/agent_queue.py:77-84 | a scheduler may start at any point of any run, without the lock |
| QueueScheduler.AgentQueue.Execute | ringdown/agent_queue.py:68-73 | one statement of the program is one step of the protocol, so the run so far stays a run |
| QueueScheduler.AgentQueue.Await | ringdown/agent_queue.py:117-131 | whatever others do while the program waits, what it holds is untouched if the session survived |
| QueueScheduler.AgentQueue.PollAll | ringdown/agent_queue.py:181-195 | up to 64 stale rows are polled, the longest unchecked first and all of them if fewer, and each is checked unless it has no dispatcher, whether or not anything is pending |
| QueueScheduler.AgentQueue.PollOne | ringdown/agent_queue.py:138-171 | a poll changes one row only, also when the inspection or its write raises |
| QueueScheduler.AgentQueue.Obtain | ringdown/agent_queue.py:241-258 | a delivery ends up with the group's workstream, with a deferral whose stated reason holds, such as a cap or rate ceiling reached, or with a lost session |
| QueueScheduler.AgentQueue.CreateAgent | ringdown/agent_queue.py:261-282 | the creation is issued after its commit; it continues only with a creation accepted for the handle and an open row, and otherwise ends in a deferral whose reason holds |
| QueueScheduler.AgentQueue.Confirm | ringdown/agent_queue.py:283-286 | a delivery goes on only with an inspection that was answered and written; otherwise it is put off with its reason, or the session is lost |
| QueueScheduler.AgentQueue.SendBatch | ringdown/agent_queue.py:283-323 | one delivery of a prefix of the batch is recorded, or nothing is and its oldest row is put off for as long as the reason says, and the reason holds; a refusal puts off what was sent, an exception all rows read |
| QueueScheduler.AgentQueue.Postpone | ringdown/agent_queue.py:219-223 | a deferral moves the due time of exactly the given rows |
| QueueScheduler.AgentQueue.DeliverGroup | ringdown/agent_queue.py:225-323 | the whole delivery of one group records one prefix of the rows read, or puts them off because the cap or rate is reached, the identity or project differs, the interval has not passed, the inspection or the remote refused, a row is locked or a call raised, and that is so |
| QueueScheduler.AgentQueue.ServeGroup | ringdown/agent_queue.py:209-217 | a group is skipped only if its oldest row is gone or not due, or its rule is gone; otherwise its delivery begins |
| QueueScheduler.AgentQueue.DeliverAll | ringdown/agent_queue.py:206-217 | unless a query raises, every due group, up to 256 in the order of their oldest rows, is looked at, and at most one delivery is recorded for each |
| QueueScheduler.AgentQueue.Tick | ringdown/agent_queue.py:117-131 | a tick never leaves its session holding the lock; a completed one took the lock, polled the stale rows, cancelled, looked at every due group and let go, and one that gave up had a statement raise |
| Turnstone.OpenIsSafe | ringdown/dispatch/turnstone.py:54-112 | a creation is offered for retry just when it was never sent or was refused with a client error other than 409, so only when nothing was created; success means created under the reserved handle |
| Turnstone.FeedIsSafe | ringdown/dispatch/turnstone.py:114-139 | a send counts only if the remote has the message; 404 and 410 are refusals like any other |
| Turnstone.InspectIsTruthful | ringdown/dispatch/turnstone.py:149-182 | if the metadata is true of the workstream it names, the inspection is true of the one asked for |
| Turnstone.GoneMeans | ringdown/dispatch/turnstone.py:149-182 | a slot is released just when the owner's own workstream of that handle is reported closed or deleted |
| Turnstone.PrepareIsIdempotent | ringdown/dispatch/turnstone.py:141-147 | a frozen owner and project freeze to themselves |
| JudgeCoverage.InvariantAlways | ringdown/judge.py:208-280 | every cursor, durable or in memory, is reached through acknowledged windows without a gap, in every state of every run |
| JudgeCoverage.NothingSkipped | ringdown/judge.py:240-357 | in every state of every run an event was judged if and only if it was visible when some acknowledged window over it was read; and whatever a cursor has passed since the baseline lies in an acknowledged window, over any collectors, failures and restarts |
| JudgeCoverage.AllJudged | ringdown/judge.py:317-323 | with events that become visible in number order, every one of them was judged |
| JudgeCoverage.FiredIsServed | ringdown/judge.py:345-357 | a window that fired is acknowledged only after a dispatch to every target |
| JudgeCoverage.BaselineResumes | ringdown/judge.py:208-238 | after an upgrade a rule starts no later than a failed window that no success came after if and only if the last success, if any, ended by then; so always when the windows left are a chain |
| JudgeCoverage.OverlapStartsLate | ringdown/judge.py:208-238 | with overlapping windows it can start later |
| JudgeCoverage.GivenUpIsRetried | ringdown/judge.py:317-343 | over any run, a window that was given up is read again from the same start, and ends no earlier if and only if the events now in its span fit one window |
| JudgeCoverage.PassedForGood | ringdown/judge.py:269-280 | an unjudged event that every cursor has passed is never judged |
| JudgeCoverage.LateEventSkipped | ringdown/judge.py:317-323 | a complete run in which that happens |
| JudgePacing.RecentCounts | ringdown/judge.py:111-119 | the length of the trimmed queue is the number of calls of the last minute in the whole history |
| JudgePacing.LimitedMeans | ringdown/judge.py:111-122 | no minute holds more calls than the ceiling |
| JudgePacing.CallKeepsLimit | ringdown/judge.py:312-316 | a call made after a check that found room keeps that true |
| JudgePacing.DelayBounds | ringdown/judge.py:158-168 | delays never shrink with the streak and stay between tick and cap |
| JudgePacing.StreakTakes | ringdown/judge.py:155-172 | n failures in a row take at least the sum of the first n-1 delays |
| JudgePacing.NoticesAreDue | ringdown/judge.py:124-153 | the three fields send exactly what the history of notices makes due: one recovery at the first success after an outage notice, an outage notice at a failure not preceded by one for the interval |
| JudgePacing.NoticesKeepDistance | ringdown/judge.py:124-153 | outage notices are never closer than the interval and every recovery directly follows an outage notice |
| JudgePacing.FailureIsKnown | ringdown/judge.py:141-153 | right after a failure the last outage notice is less than an interval old |
| Judge.SelectWindow | ringdown/judge.py:317-323 | the window is the smallest unseen events, at most 5000, with none left out |
| Judge.SemanticJudge.Pacing | ringdown/judge.py:111-172 | after any passes over any rules: the ceiling, the backoff and minimum interval of every rule, and the spacing of notices hold |
| Judge.SemanticJudge.SuccessWaits | ringdown/judge.py:302-304 | of the attempts of any rule, after an acknowledged window the next pass that calls the model starts at least the minimum interval after the pass before, and the exact bound between the two calls |
| Judge.SemanticJudge.FailuresWait | ringdown/judge.py:155-172 | of the attempts of any rule, n failures in a row take at least the sum of the first n-1 delays |
| Judge.SemanticJudge.NothingSkipped | ringdown/judge.py:282-357 | every event of a rule was judged just when some acknowledged window over it was read while it was visible, and what the program's own cursor has passed lies in acknowledged windows |
| Judge.SemanticJudge.constructor | ringdown/judge.py:96-107 | a collector starts, or restarts, with nothing in memory |
| Judge.SemanticJudge.RateOk | ringdown/judge.py:111-119 | true if and only if the whole history has room in the last minute, or there is no ceiling |
| Judge.SemanticJudge.NoteCall | ringdown/judge.py:121-122 | recording a call after a check keeps the ceiling |
| Judge.SemanticJudge.TrackLlmHealth | ringdown/judge.py:124-153 | exactly the due notices are sent |
| Judge.SemanticJudge.RetryReady | ringdown/judge.py:155-156 | true just when the retry time of the rule, if any, has come |
| Judge.SemanticJudge.NoteFailure | ringdown/judge.py:158-168 | the streak grows by one and the next attempt waits for its delay |
| Judge.SemanticJudge.ClearFailure | ringdown/judge.py:170-172 | the streak and the retry time are gone |
| Judge.SemanticJudge.EnsureRuleState | ringdown/judge.py:240-267 | a rule not in memory gets the durable cursor, loaded, just created or created by another collector; true means its baseline was inserted here and it was never evaluated; none means a statement raised |
| Judge.SemanticJudge.Checkpoint | ringdown/judge.py:269-280 | the cursor advances in memory only after the durable write, to the end of a window with a usable verdict whose targets are all served; a failed write leaves everything pending |
| Judge.SemanticJudge.Gate | ringdown/judge.py:295-316 | the answer names the first gate that was closed, and it was: nothing new, minimum interval, too few events too soon, backoff, ceiling; a rule is admitted just when all are open |
| Judge.SemanticJudge.EvalRule | ringdown/judge.py:284-357 | the model is called once if the rule is admitted and not otherwise; a ceiling reached ends the pass, an exception raises, and everything else goes on to the next rule |
| Judge.SemanticJudge.JudgeOpened | ringdown/judge.py:327-357 | an attempt fails just when the answer was unusable; a usable one is acknowledged with the verdict and targets it was given, unless a dispatch or the checkpoint raised |
| Judge.SemanticJudge.JudgeWindow | ringdown/judge.py:316-357 | one window and one call; a failure puts the rule off and keeps its cursor, an acknowledged window moves it, and anything else was an exception and leaves it |
| Judge.SemanticJudge.Eval | ringdown/judge.py:282-357 | a pass over the rules keeps all of the above |
| Globs.LikePatternTranslates | ringdown/filters.py:215-219 | the five sequential replacements equal one per-character translation |
| Globs.GlobIsLike | ringdown/filters.py:215-219 | for every bracket-free glob and every string, LIKE on the rewritten pattern accepts exactly what the live match accepts, and the pattern is never rejected |
| Globs.BareIsGlob | ringdown/judge.py:289-291 | the judge's unescaped pattern agrees with the live match on every string if and only if the glob has no percent sign, underscore or backslash |
| Filters.CleanGlobMeans | ringdown/filters.py:44-58 | cleaning yields a glob just when the text is that glob between blanks and the glob is acceptable |
| Filters.LiveIsHistorical | ringdown/filters.py:222-251 | live and historical match agree just when the globs reject the event or the two text engines agree on the body; always for case-sensitive substrings |
| Filters.FirstMatchMeans | ringdown/filters.py:196-200 | the filter found is the first that matches; none found means none matches |
| Filters.SplitConserves | ringdown/filters.py:202-212 | accepted and dropped events together are the batch, and every dropped event is charged once |
| Filters.ChargedToFirst | ringdown/filters.py:202-212 | a dropped event is charged to the first filter that matches it, under its source |
| Filters.AcceptedSplits | ringdown/filters.py:202-212 | accepted events keep their order |
| Filters.IngressFilterSet.Reload | ringdown/filters.py:181-194 | the compiled filters are the rows that compile, in order, and the others are rejected, whatever the rows hold |
| Filters.IngressFilterSet.Match | ringdown/filters.py:196-200 | the loop finds the first match |
| Filters.IngressFilterSet.Partition | ringdown/filters.py:202-212 | the loop returns exactly the accepted events and counts every charge |
| Ingest.Flusher.Conservation | ringdown/collector.py:41-86 | template hits and source counters each sum to the stored events, and stored events plus drop counts plus charges of deleted filters equal the events of committed batches |
| Ingest.BooksKept | ringdown/collector.py:52-85 | a committed batch keeps all three kinds of counters equal to what they count, key by key |
| Ingest.Flusher.UpsertTemplates | ringdown/collector.py:56-62 | hits grow by the batch's counts and every fingerprint gets its template's one number |
| Ingest.Flusher.InsertEvents | ringdown/collector.py:63-69 | the batch is stored in order, each event with its template's number |
| Ingest.Flusher.Store | ringdown/collector.py:49-69 | every stored event refers to the template of its own fingerprint |
| Ingest.Flusher.UpsertSources | ringdown/collector.py:70-77 | source counters grow by the batch's counts |
| Ingest.Flusher.UpsertStats | ringdown/collector.py:78-85 | drop counters grow by the charges of filters that still exist, and by nothing else |
| Ingest.Flusher.Flush | ringdown/collector.py:41-86 | all of a batch is committed or, at whatever statement it fails, none of it |
| Ingest.Flusher.FlushBatch | ringdown/collector.py:139-147 | a failed batch changes nothing and routes nothing; a committed one stores and routes exactly the accepted events |
| Routing.RoutedMeans | ringdown/router.py:41-64 | a target is dispatched if and only if some matching rule at or before the first terminal match is bound to it, once, with the earliest such rule's context |
| Routing.PruningKeepsRoutes | ringdown/ruleset.py:50-59 | leaving out unbound rules that are not terminal changes the routing of no event |
| Routing.Ruleset.Reload | ringdown/ruleset.py:27-70 | the compiled ruleset routes every event as all enabled rules with all their bindings would |
| Routing.Router.ConsiderOne | ringdown/router.py:41-64 | the loop starts exactly the dispatches specified, in order |
| Routing.Router.Serve | ringdown/router.py:53-59 | one rule serves its targets except those served already |
| Routing.Router.Consider | ringdown/router.py:32-39 | a batch is routed event by event |
| Throttle.FiringPushes | ringdown/incidents.py:63-104 | a firing attempts to push, once, just when it gets as far as the row and the row admits a push; a throttled one is counted, and one reported as opened or fed went out and was stamped |
| Throttle.FiringKeeps | ringdown/incidents.py:63-104 | every firing, whatever raises on its way, keeps stamped attempts apart from all later ones, and leaves a row that admits a push after an attempt that was not stamped |
| Throttle.FiringCounts | ringdown/incidents.py:124-137 | every firing keeps the event count equal to the firings since the opening less those that left no mark |
| Throttle.UnstampedRepeats | ringdown/incidents.py:83-104 | two successful pushes of one key closer than any throttling interval |
| Throttle.Coordinator.Spacing | ringdown/incidents.py:63-104 | once an attempt has been stamped, every later attempt of its key comes no sooner than the smaller of feed interval and reuse time |
| Throttle.Coordinator.RepeatsExactly | ringdown/incidents.py:63-104 | within that time after the last attempt, a firing pushes again if and only if that attempt was not stamped |
| Throttle.Coordinator.CountMeans | ringdown/incidents.py:124-137 | an incident's event count is the number of firings since it was opened just when each of them reached its row |
| Throttle.Coordinator.Handle | ringdown/incidents.py:43-81 | one firing does to its row, its attempts and its count exactly what the specification says, and leaves all other keys alone |
| Throttle.Coordinator.Open | ringdown/incidents.py:83-92 | a push that went out leaves a fresh row that counts one firing; a failed push or a lost write leaves the row as it was |
| Throttle.Coordinator.FeedStateless | ringdown/incidents.py:94-104 | a repeat is throttled just when the last push is younger than the feed interval, and otherwise pushed and stamped, also when the push is refused |
| Throttle.Coordinator.Bump | ringdown/incidents.py:134-137 | one firing is counted at the time of the statement, and stamped with it if it pushed; nothing changes if the write was lost |
| LiveBuffer.OrderedSorts | ringdown/webui.py:1131-1135 | the specification holds the rows received, newest first by time and arrival |
| LiveBuffer.KeepsTheNewest | ringdown/webui.py:1163-1165 | a row is missing from the buffer just when the buffer is full of newer ones |
| LiveBuffer.InsertCapped | ringdown/webui.py:1152-1165 | inserting into the capped buffer equals capping the insertion into the whole history |
| LiveBuffer.PatchShows | ringdown/webui.py:1157-1162 | patching one row in, before the next row on display, and trimming shows what a rebuild would show |
| LiveBuffer.EvictionShows | ringdown/webui.py:1163-1165 | evicting the oldest row shows what a rebuild would show |
| LiveBuffer.LiveBuffer.FindIdx | ringdown/webui.py:1137-1142 | the binary search ends, and finds the place that keeps the buffer sorted |
| LiveBuffer.LiveBuffer.Trim | ringdown/webui.py:1143-1145 | the display is cut to its newest rows and the others lose their nodes |
| LiveBuffer.LiveBuffer.Rebuild | ringdown/webui.py:1146-1151 | the display is the first passing rows of the buffer |
| LiveBuffer.LiveBuffer.Ingest | ringdown/webui.py:1152-1166 | after any arrivals in any order, the buffer is the newest rows received and the display is what a rebuild would show |
| LiveBuffer.LiveBuffer.Refilter | ringdown/webui.py:1069-1075 | switching a kind rebuilds the display |
| LiveBuffer.LiveBuffer.Reset | ringdown/webui.py:1066-1066 | clearing forgets everything received |

## Left out

- QueueRuns.OneAgentPerIncident: assumes that rules keep their grouping and that no inspection changes a project, because the claim is false otherwise; both counterexamples are complete runs.
- QueueRuns.DeliveredInOrder: rows committed after a batch was read are exempt, because their numbers may be smaller.
- QueueScheduler.AgentQueue.Tick: does not say that a tick completes, because a session may be lost at once.
- Judge.SemanticJudge.Pacing: holds for one process; retry times are not durable, so a restart may retry at once.
- Throttle.Coordinator.Handle: one process handles one firing of a key at a time; several collector processes with locks of their own are not covered.
- Filters.LiveIsHistorical: is about filters without brackets, because the historical query rejects the others.
- Deleting rules, targets or filters with work pending, retention and purging.
- Row updates that wait for a share lock: an inspection whose write would wait is given up instead, and the others do not touch what an enqueue has read.
- Editing the scope of a semantic rule while its cursor stands.
- A returned handle other than the one asked for, and a dispatcher that is missing when a delivery starts.
- Legacy workstreams without an owner get one at their first inspection and keep it; how it is resolved is arbitrary.
- Text filters of the live view that are edited: the display is rebuilt only when the stream reconnects. Its counters.
- Bracket expressions in globs, case folding and regular expressions: what they match is arbitrary.
- The wording of seeds, messages and notices, audit rows, weekly partitions, token minting, JSON and HTTP transport.
- MCP tools, authentication, sessions and pages: access checks with only easy claims.
- Syslog and OTLP parsing, template masking and the parsing of the model's answer.
