# Multi-agent task pipeline: a verified model

The repository runs tasks through teams of coding agents. This project models the parts of it that keep
durable state consistent while agents, a watchdog and operators act on it at the same time, and proves
what those parts are for:

* **The wire** (`HiddenCodec`, `WireFragments`, `MessageLayout`, `FragmentBuffer`, `Reassembly`): an
  envelope is cut into headered chunks, written as invisible characters inside bounded Discord messages,
  and put together again from messages that arrive late, twice and mixed.
* **Locks, routing and planning** (`WorkspaceLocks`, `Routing`, `Planning`): path-subtree exclusion and
  agent choice under separation of duties.
* **Task rows and completion** (`TaskLifecycle`, `Completion`): the state machine, the team rows and the
  projection that may finish a task.
* **The run budget** (`RunBudget`, `RunChain`, `RunLimits`, `ProgressEvidence`, `LogLines`): a chain of
  runs with fixed deadlines, evidence that is counted once, and the log reader that feeds it.
* **Recovery** (`Worker`, `WorkerRuntime`, `Watchdog`, `ContinuationWatchdog`; `Claims`, `Continuations`,
  `PassOutcomes` and `RouteOutcomes` for what each step decides; and over runs `Fencing`, `Provenance`,
  `RecoveryBounds`, `Asides`, `RecoveryEnds`, `Abandonment`, `Handoffs`, `Rounds`, `Lineage`, with
  concrete runs in `Witnesses`): workers and watchdog passes as one transition system whose steps are the
  stretches of code between awaits.

## How the model is built

* The source's stores are classes whose methods change fields step by step. Each method is proved equal to
  a function on values (`View()` before and after), and the properties are lemmas about those functions,
  over single calls and over all runs. The recovery steps appear twice in this way: `Worker` and `Watchdog`
  hold the functions, `WorkerRuntime` and `ContinuationWatchdog` the objects that implement them.
* The runtime is single-threaded, so code between two awaits is one step. `Watchdog.Action` lists the
  steps of workers, passes, the scheduler and everybody else, in any order; `Watchdog.Run` is a run of
  them. `Watchdog.Entry` is a history that the model writes and never reads.
* Clocks, generated identifiers, process and message observations, the outcome of signals, and the
  registry are arguments. `updated_at` is an arbitrary reading: it is never assumed to differ between writes.
* The digest and the opening of a payload (integrity check aside, inflating and parsing) are function
  arguments; nothing is assumed about them beyond what a lemma states. Readings of free text in the
  completion gate and the matching of validation commands are predicates given as arguments.
* Integers of the source that count small things are unbounded here; byte and sextet arithmetic is modelled
  with exact ranges. Times are milliseconds.

## What was found

* A lock on a filesystem root excludes nothing below it: a root's text already ends in a separator, so the
  prefix test with another one appended fails (`RootLockExcludesNothing`). This is the only way in which
  two tasks can hold locks on a common path (`LocksMeetIff`).
* The scan for a lock stops at the task's own row. So a task that already holds a lock is handed its old
  token for whatever no earlier row overlaps, even if a later row has locked it (`ReacquireIff`,
  `ReacquireMayCoverNothing`); for the paths it holds the answer is right (`OwnScopeAgain`).
* QA planned before REVIEWER may share its agent with it (`SeparatedIff`).
* Reconciling a COMPLETED task may still write the team row and the candidate flag (`CompletedUnchangedIff`
  says exactly when it does not).
* The watchdog cannot give up a COMPLETED task that still has an unfinished role: the transition to
  CANCELLED throws before the role, the recovery row and the watch are written (`StoppedIs`). For every
  other task a stop takes effect for good (`StopsTakeEffect`).
* A pass that throws between acquiring its retry and recording an action leaves its wake flag set, for
  instance when the awaited health check fails (`ThrowAbandons`). With retries left, the role and round is
  then neither recovered nor given up any more until some pass observes progress (`AbandonedForGood`,
  `ProgressReclaims`); without, the next pass still gives it up (`UsedUpStillStops`).
* A trusted bot may ask an agent for a task that is not planned yet, and the agent claims it without a role
  row. If the team is planned before its ACK is out, its result finishes the row it has been given
  meanwhile: the currency check compares no row (`FinishesAnotherRowIff`, `UnclaimedRowFinished`).
* An ARCHITECT's outcome never moves the task forward: its verdict is not passed to the hand-off decision,
  so even a passing one asks an earlier implementer for a revision (`ArchitectHandsBack`). The comment at
  the call says that normal progress routes to the next role; the code is followed here.
* A hand-off uses role rows read before an await, so a target reassigned meanwhile gets an envelope its
  recipient cannot claim (`HandoffReachesIff`, `HandoffReachesNobody`).
* A fragment set is dropped five minutes after its first fragment even if it was touched since, although the
  comment at the constant speaks of sets not touched again (`KeptFiveMinutes`).
* The empty byte string is the one value the hidden codec does not return (`HiddenRoundTrip`); the splitter
  never writes it.

## Model

| member | source | states |
|---|---|---|
| HiddenCodec.Base64UrlRoundTrip | src/discord/control/types.ts:139-161 | base64url decoding (section 5 of RFC 4648) inverts encoding for every byte string |
| HiddenCodec.AlphabetIsUrl | src/discord/control/types.ts:261 | the program's own 64-character alphabet literal is the RFC's URL-safe table, position by position |
| HiddenCodec.ExpandCollapse | src/discord/control/types.ts:141-159 | three zero-width symbols per character collapse back to the same text, and the expansion holds nothing but symbols |
| HiddenCodec.CapturesBody | src/discord/control/types.ts:148-150 | the non-greedy search captures exactly the embedded body, whatever follows it, when the text before it has no start marker |
| HiddenCodec.HiddenRoundTrip | src/discord/control/types.ts:139-161 | for all bytes and all surrounding text with a marker-free prefix, decoding returns exactly the bytes; the empty string is the one value that does not come back |
| WireFragments.BuildEnvelopeWireFragments | src/discord/control/types.ts:164-184 | the loop writing headers in place produces exactly the split's fragments in order, or the too-large error exactly when more than 255 would be needed |
| WireFragments.SplitLosesNothing | src/discord/control/types.ts:172-182 | the chunks of every split concatenate to the payload |
| WireFragments.FragmentCountIsCeiling | src/discord/control/types.ts:173 | the fragment count is the least number of chunks that holds every byte |
| WireFragments.SplitWithinBudgetIff | src/discord/control/types.ts:168-182 | every wire fragment of a non-empty payload respects the budget, through header, base64 rounding and threefold expansion, exactly when the budget is at least 100 |
| WireFragments.FragmentWithinBudget | src/discord/control/types.ts:168-172 | any chunk of the computed size makes a fragment no longer than a budget of at least 100 |
| WireFragments.FragmentFitsIff | src/discord/control/types.ts:168-172 | for a budget of at least 100, a fragment fits exactly when its chunk is no longer than the computed size: the budget is used up |
| WireFragments.TooLargeIff | src/discord/control/types.ts:173-174 | the split is refused exactly for payloads longer than 255 full chunks |
| WireFragments.FragmentRoundTrip | src/discord/control/types.ts:196-205 | a fragment embedded after any marker-free text reads back with the same id, index, total, digest and chunk |
| MessageLayout.MessageFitsIff | src/discord/routing/multiBotGateway.ts:327-335 | a physical message is within 1950 code units exactly when fragment, mention and two line breaks are |
| MessageLayout.MessageDecodes | src/discord/routing/multiBotGateway.ts:327-335 | truncating the display and prepending the mention never damages the fragment in the message |
| MessageLayout.MessageShows | src/discord/routing/multiBotGateway.ts:327-336 | every message names its recipient, ends in its fragment, and shows as much of the text as is left of 1950 code units, all of it if there is room |
| MessageLayout.PublishedMessages | src/discord/routing/multiBotGateway.ts:327-336 | every message published for a payload is within the limit and decodes to its fragment, for every mention of at most 1748 code units |
| FragmentBuffer.EnvelopeFragmentBuffer.Ingest | src/discord/control/fragmentBuffer.ts:50-78 | one call answers and updates the stored sets as the specification function says: eviction, then feeding |
| FragmentBuffer.EnvelopeFragmentBuffer.EvictStale | src/discord/control/fragmentBuffer.ts:80-83 | the sets that stay are exactly those not older than the TTL |
| FragmentBuffer.KeptFiveMinutes | src/discord/control/fragmentBuffer.ts:80-83 | a set is kept exactly as long as its first fragment is at most five minutes old |
| FragmentBuffer.SingleFragment | src/discord/control/fragmentBuffer.ts:55-57 | a single-fragment envelope is answered at once, by digest and content, and stored nowhere |
| FragmentBuffer.Contradiction | src/discord/control/fragmentBuffer.ts:58-62 | a fragment that differs from its set in total, digest or author is refused and takes the set with it |
| FragmentBuffer.KnownOrFull | src/discord/control/fragmentBuffer.ts:63-68 | a completed set answers again; a new one is refused exactly when 500 are stored, and else kept and PENDING |
| FragmentBuffer.BufferAlwaysSound | src/discord/control/fragmentBuffer.ts:47-83 | after any inputs, authors and clock values: at most 500 sets, indices below the total, each set incomplete or holding a digest-checked envelope |
| FragmentBuffer.MissingChunkUnreachable | src/discord/control/fragmentBuffer.ts:71-73 | the defensive exit for a missing chunk is dead code (pigeonhole) |
| FragmentBuffer.CompleteIsAuthentic | src/discord/control/fragmentBuffer.ts:58-77 | a multi-fragment COMPLETE opens chunks that one author sent under one id, total and digest, in index order, matching the digest |
| Reassembly.BufferTracks | src/discord/control/fragmentBuffer.ts:50-78 | against any other traffic, the buffer holds for a genuine envelope exactly what has been delivered, and answers each delivery with what is due |
| Reassembly.ArrivedIff | src/discord/control/fragmentBuffer.ts:70-71 | an index counts as arrived exactly when some call delivered it |
| Reassembly.DueIsFinal | src/discord/control/fragmentBuffer.ts:64-76 | once COMPLETE is due, the same envelope stays due after any further calls |
| Reassembly.ExchangeReassembles | src/discord/control/fragmentBuffer.ts:50-78 | any number of envelopes, reordered, repeated and interleaved with any other traffic, as long as no more than 500 multi-fragment ids are seen in all: each claiming call gets PENDING until the last missing index and then the envelope |
| Reassembly.PublishedPayloadArrives | src/discord/control/types.ts:164-205 | end to end: messages carrying the wire fragments of one published payload, in any order and mixed with any traffic under other ids, are answered PENDING until the last fragment has come and then COMPLETE with what the payload opens to |
| Reassembly.PublishedIsGenuine | src/discord/control/types.ts:164-184 | what the splitter publishes in two or more fragments is such an envelope, with the published payload |
| Reassembly.WireDelivers | src/discord/control/types.ts:196-205 | a message carrying one of its wire fragments after marker-free text delivers that piece |
| WorkspaceLocks.StringOverlapIff | src/tasks/locks.ts:5-11 | on resolved paths the string prefix test is subtree intersection exactly between two non-roots or two roots |
| WorkspaceLocks.LockTable.Acquire | src/tasks/locks.ts:16-29 | the scan over the rows returns the task's own token, refuses, or appends one row, as specified |
| WorkspaceLocks.AlwaysExclusive | src/tasks/locks.ts:13-39 | in every reachable state each task has at most one row and no two rows overlap |
| WorkspaceLocks.GrantCovers | src/tasks/locks.ts:16-29 | a granted lock is one new row that covers exactly the subtrees of the named files in the workspace, or of the whole workspace |
| WorkspaceLocks.LocksMeetIff | src/tasks/locks.ts:5-29 | in every reachable state the locks of two tasks cover a common path if and only if one names a filesystem root and the other a path below that root |
| WorkspaceLocks.LockedSubtreesDisjoint | src/tasks/locks.ts:5-29 | so they never cover a common path as long as neither names a filesystem root |
| WorkspaceLocks.RootLockExcludesNothing | src/tasks/locks.ts:9 | the failing family: a lock on a root and a lock on any path below it are both granted |
| WorkspaceLocks.CanAcquireIff | src/tasks/locks.ts:31-35 | canAcquire implies that acquire succeeds; for a task without a lock it says exactly that acquire adds the requested row |
| WorkspaceLocks.ReacquireIff | src/tasks/locks.ts:20-23 | a holder asking again gets its old token exactly when no row before its own overlaps the request, and is refused otherwise; canAcquire denies what it is granted exactly when only rows of others behind its own overlap |
| WorkspaceLocks.OwnScopeAgain | src/tasks/locks.ts:20-35 | in every reachable state a holder asking for the paths it holds is granted them, and canAcquire agrees |
| WorkspaceLocks.ReacquireMayCoverNothing | src/tasks/locks.ts:20-23 | a holder in front is handed its old token for paths another task has locked; a holder behind is refused for the same kind of request |
| Routing.IneligibleReasons | src/routing/agentRouter.ts:78-86 | each reason is listed exactly when its condition holds, and none otherwise |
| Routing.RejectionReasons | src/routing/agentRouter.ts:38-42 | no reasons exactly for eligible agents, the busy reason alone exactly for agents that are only busy |
| Routing.Route | src/routing/agentRouter.ts:24-76 | the loops select and code what the specification chooses; every rejection has a reason; when an agent is chosen automatically or none is eligible, every registered agent but the chosen one is rejected exactly once, and for an override or an unavailable independent review exactly the ineligible ones are (a conflicting override once more); busy-only rejections show exactly temporary busyness |
| Routing.SortByScore | src/routing/agentRouter.ts:65-67 | a permutation of the pool, best first |
| Routing.EligibleIff | src/routing/agentRouter.ts:38-42 | an agent is eligible exactly if it is online, free or busy with this task, capable, reachable, lock-free, not excluded and in no conflict of duties |
| Routing.CandidateIff | src/routing/agentRouter.ts:43-64 | a reviewer must in addition hold no role whose work is reviewed |
| Routing.BetterIff | src/routing/agentRouter.ts:67-70 | what the weights amount to: agents without a role of the task first, then project at hand, then session, then alphabetical order |
| Routing.ScoreSpan | src/routing/agentRouter.ts:67-72 | reported scores lie between 10 and 60 above a hundred for each required capability, at the ends exactly for the extremes |
| Routing.ChosenWins | src/routing/agentRouter.ts:64-75 | an automatic choice is the unique maximum by score and then identifier among the candidates, and is made exactly when there is a candidate |
| Routing.OrderImmaterial | src/routing/agentRouter.ts:37-67 | the order of the registry does not matter |
| Routing.SelectedIsEligible | src/routing/agentRouter.ts:37-75 | a selected agent is registered, eligible, not excluded, not separated and not an implementer under review, overrides included |
| Planning.RequiredOnce | src/teams/planner.ts:16-17 | no role is planned twice, and named roles are exactly the planned ones |
| Planning.TeamPlanner.Plan | src/teams/planner.ts:13-24 | plans once; assignments, block, row states and one recorded decision per attempted role are those of the plan function |
| Planning.ChosenInOrder | src/teams/planner.ts:18-22 | each role's agent is the router's choice given exactly the earlier choices, which later ones keep |
| Planning.OverrideDecides | src/teams/planner.ts:18-22 | a role goes to the agent named for it if that agent could take it and otherwise stops the plan; without a name the plan stops exactly when nobody could take it |
| Planning.DefaultTeams | src/routing/taskClassifier.ts:3-8 | default teams for work end in a review and then QA, scripts without either and unknown work without QA |
| Planning.PlanSeparates | src/teams/planner.ts:18-22 | for any roles, overrides, registry and lock state, the pairs in the table never share an agent |
| Planning.ReviewIsIndependent | src/teams/planner.ts:18-22 | in either order, REVIEWER and QA never share an agent with DEVELOPER, DEBUGGER or REFACTORER |
| Planning.SeparatedIff | src/routing/agentRouter.ts:27-66 | the table is exact: a pair outside it does share an agent in some registry, for instance QA planned before REVIEWER |
| TaskLifecycle.ReachableIff | src/tasks/stateMachine.ts:3-17 | which status can be reached from which by legal transitions, for all pairs |
| TaskLifecycle.TaskStore.Transition | src/tasks/repository.ts:211-231 | refused without effect unless the edge is legal; otherwise every field of the row, next owner, evidence and lock token included, as specified |
| TaskLifecycle.TaskStore.SetCurrentTeamRole | src/tasks/repository.ts:174-178 | sets the sequence, and role and agent only when given |
| TaskLifecycle.TaskStore.SetCompletionCandidate | src/tasks/repository.ts:180-183 | changes the candidate flag and the version only |
| TaskLifecycle.RunKeeps | src/tasks/repository.ts:214-217 | over any run: timestamps tell whether work started and ended and are written once unless a patch names them, and final statuses stay |
| TaskLifecycle.PatchOverwrites | src/tasks/repository.ts:216 | a patch that names a timestamp overwrites the recorded one, so write-once holds exactly without it |
| TaskLifecycle.PassWithoutStart | src/tasks/stateMachine.ts:3-17 | a task reaches PASS without ever having started only through WAITING_MAIN |
| TaskLifecycle.TaskStore.Create | src/teams/repository.ts:10-17 | creating a team twice keeps the first; otherwise one pending row per role in order |
| TaskLifecycle.TaskStore.Assign | src/teams/repository.ts:27-29 | assigns one row, clears its completion and touches nothing else |
| TaskLifecycle.TaskStore.Block | src/teams/repository.ts:30-33 | blocks one row and the team, keeping the current sequence |
| TaskLifecycle.TaskStore.Activate | src/teams/repository.ts:34-37 | activates one row, keeps its first start time and makes it current |
| TaskLifecycle.TaskStore.Finish | src/teams/repository.ts:38-41 | finishes one row with its result and evidence, leaving the team alone |
| TaskLifecycle.TaskStore.Reopen | src/teams/repository.ts:42-45 | reactivates one row in the given round and makes it current |
| TaskLifecycle.TaskStore.CountAllPassed | src/teams/repository.ts:47 | the counting query is true exactly for a non-empty team whose rows all passed |
| TaskLifecycle.TaskStore.RecordDecision | src/teams/repository.ts:55-58 | the decision log only grows, by exactly this entry |
| TaskLifecycle.FinishThenReopen | src/teams/repository.ts:38-45 | result, evidence, agent and first start survive reopening; only the end is taken back, and no other row changes |
| TaskLifecycle.ActivateTwice | src/teams/repository.ts:34-37 | the first start survives any further activation, and the team is at the role activated last |
| TaskLifecycle.BlockThenAssign | src/teams/repository.ts:27-33 | assigning a blocked role frees it for its new agent with round, start and result kept, while the team stays blocked where it is |
| TaskLifecycle.CreatedOnce | src/teams/repository.ts:10-17 | the first creation is the only one: one unassigned, unstarted row a role, in order |
| Completion.GateIff | src/review/verdict.ts:190-208 | the gate opens exactly when all passed, reviewer and QA approved, the agents are independent and required validation is covered |
| Completion.TaskCompletionProjection.Reconcile | src/tasks/completionProjection.ts:12-41 | one call leaves rows and events and answers as the specification function says |
| Completion.TaskCompletionProjection.AuthoritativeCompletion | src/tasks/completionProjection.ts:92-109 | at most one COMPLETION event, and PASS becomes COMPLETED, only with a protocol attached |
| Completion.WalkIsLegal | src/tasks/completionProjection.ts:111-125 | every step of the projection is a legal edge, so it never throws, and ends in PASS with the final result |
| Completion.ProjectionIsSafe | src/tasks/completionProjection.ts:18-41 | a call changes the status only when every role passed, reviewer and QA approved independently and the chain is complete, and never touches roles |
| Completion.ReconcileDecides | src/tasks/completionProjection.ts:12-41 | one call exactly: nothing is written unless status, gate and latest verdict allow it; then the task ends in PASS with the last role's words, and in COMPLETED with its event where a protocol is attached |
| Completion.ReconcileIsIdempotent | src/tasks/completionProjection.ts:12-41 | a second call leaves what the first one left, whatever the clock |
| Completion.CompletedUnchangedIff | src/tasks/completionProjection.ts:25-33 | for a COMPLETED task status, result and events never change, and nothing at all changes exactly when the call is refused or team and candidate were already recorded |
| Completion.CompletedStillWritten | src/tasks/completionProjection.ts:32-33 | a COMPLETED task whose team was made active again is written by reconciling: its team is completed once more |
| Completion.CompletesOnce | src/tasks/completionProjection.ts:97-102 | at most one COMPLETION event in any run beside any other writers, and then the task is PASS or COMPLETED for good |
| Completion.FinishedThroughGate | src/tasks/completionProjection.ts:12-41 | in any run, a task others do not finish themselves is PASS or COMPLETED only if some call found the gate open |
| RunBudget.RunBudgetController.Start | src/runtime/runBudget.ts:171-183 | an existing run is returned or the extension refused; otherwise a new run with its limits |
| RunBudget.RunBudgetController.RearmRun | src/runtime/runBudget.ts:198-233 | errors in the source's order, duplicates answered from the log, otherwise one new run linked to its predecessor |
| RunBudget.RunBudgetController.Notice | src/runtime/runBudget.ts:250-339 | the record after reading event, process, worktree and log evidence |
| RunBudget.RunBudgetController.Evaluate | src/runtime/runBudget.ts:235-350 | persists the evidence and expires the run by wall clock first, then by no progress |
| RunBudget.RunBudgetController.Expire | src/runtime/runBudget.ts:354-368 | the run ends, one event per run is kept, the watch is disabled, the task's locks are gone, and of the running processes only those stay that do not obey their signal |
| RunChain.ChainIsSound | src/runtime/runBudget.ts:171-368 | over every history: limits fixed, ended runs untouched, one exhaustion event per ended run, current equals its copy, others ended, runs are answered requests plus one |
| RunChain.HistoryIsSound | src/runtime/runBudget.ts:171-368 | the same from the beginning: in every history of a task's budget the books are sound |
| RunLimits.StartDecides | src/runtime/runBudget.ts:171-183 | a start makes a run only where there was none, with a deadline one budget away; an existing run is handed out for its own limits only and never extended |
| RunLimits.RearmDecides | src/runtime/runBudget.ts:198-233 | an unanswered request makes a run with its own limits, link and intent exactly when it is in order, follows the ended current run and continues at the right round |
| RunLimits.RearmErrors | src/runtime/runBudget.ts:198-218 | which error each refused request gets, in the source's order |
| RunChain.RearmIff | src/runtime/runBudget.ts:205-232 | a request makes a new run exactly when it is well-formed, not answered before and names the current, exhausted run |
| RunChain.RepeatedRequest | src/runtime/runBudget.ts:205-209 | repeating an answered request id at any later time yields the same run and changes nothing |
| RunChain.DeadlineEnds | src/runtime/runBudget.ts:343-345 | an evaluation at or after the deadline ends the run, validation in flight or not |
| RunChain.EndsEarlyIff | src/runtime/runBudget.ts:345-346 | before the deadline a run ends exactly when nothing counted for the no-progress budget and no declared validation is under way |
| RunChain.CreditedIs | src/runtime/runBudget.ts:325-334 | progress is the latest candidate, first in order among ties, if it is news and not older than the run |
| ProgressEvidence.CreditIs | src/runtime/runBudget.ts:327-334 | what is credited is the latest of five signs read off the observation (event, process start, heartbeat, worktree change, new activity), if it is of this run and not the one credited last |
| ProgressEvidence.CandidatesAre | src/runtime/runBudget.ts:327-333 | the five signs and nothing else count, each under its own condition |
| ProgressEvidence.HeartbeatIgnored | src/runtime/runBudget.ts:329-330 | for REVIEWER and QA, and for a process that is not running, the heartbeat changes nothing |
| ProgressEvidence.HeartbeatCounts | src/runtime/runBudget.ts:329-330 | for other roles a running process seen later than every other sign moves the progress to when it was seen |
| ProgressEvidence.InFlightIff | src/runtime/runBudget.ts:290-321 | a declared validation is under way exactly when the last activity of the run's own process since its start runs one |
| ProgressEvidence.SilenceEnds | src/runtime/runBudget.ts:327-350 | before the deadline a run whose signs are all older than its budget ends for lack of progress, unless a validation is under way |
| ProgressEvidence.ProgressKeeps | src/runtime/runBudget.ts:327-350 | a new sign younger than the budget keeps the run going |
| RunChain.CreditsLatest | src/runtime/runBudget.ts:325-334 | an evaluation that credits progress passes over no later evidence and never dates it before the run's start |
| RunChain.BaselineEarnsNothing | src/runtime/runBudget.ts:262-271 | the first worktree signature of a run is a baseline and earns nothing |
| RunChain.ReplayEarnsNothing | src/runtime/runBudget.ts:292-306 | a log of activities all seen before leaves the record as an empty log would |
| RunChain.TakingsBounded | src/runtime/runBudget.ts:292-306 | evaluations of a run that take a new read-only activity are at most as many as the distinct activities its logs show |
| LogLines.CutOfMore | src/runtime/runBudget.ts:155-156 | cutting a text anywhere and carrying the unfinished piece over splits it as if it had not been cut |
| LogLines.LinesAreExact | src/runtime/runBudget.ts:155 | no line holds a break, and without carriage returns the lines glue back to the text |
| LogLines.ReadLines | src/runtime/runBudget.ts:140-160 | for every interleaving and cut, the lines inspected per stream, final flush included, are the line split of its dated chunks |
| WorkerRuntime.Runtime.Receive | src/worker/runtime.ts:55-73 | claim, activation, attempt and execution record as specified; a busy worker or an unclaimable envelope changes nothing |
| WorkerRuntime.Runtime.ResultReady | src/worker/runtime.ts:129-141 | currency check, finish of the role and RESULT in one step, or nothing but the end of the execution |
| WorkerRuntime.Runtime.Follow | src/worker/runtime.ts:283-434 | projection, budget gate, QA continuation and hand-off as specified |
| WorkerRuntime.Runtime.GoOn | src/worker/runtime.ts:296-434 | after the projection: close-out, QA dispatch, revision request or hand-off, each exactly under its conditions |
| Claims.StartsOnRowIff | src/worker/runtime.ts:55-76 | an idle agent starts on its row exactly when the envelope carries its round and the row has neither passed nor been skipped; otherwise nothing changes |
| Claims.StartsRowlessIff | src/worker/workerContract.ts:78-93 | an agent without a row starts exactly when the task is nobody's or its own and the envelope carries the attempt number |
| Claims.StartsNever | src/worker/runtime.ts:53-58 | a busy agent drops what arrives, and an envelope for a role it does not hold beside another it does is refused |
| Claims.DeliverySpares | src/worker/runtime.ts:59-69 | a delivery never touches a finished row, another agent's row or a row of another round |
| Claims.AcknowledgedIs | src/worker/runtime.ts:80-102 | after the ACK an execution remembers the version it finds, or ends over a changed binding with the task waiting |
| Claims.DroppedIff | src/worker/runtime.ts:129-141 | a result is dropped, with no other effect, exactly when the task is over or its attempt, assignee or version, or the claimed row's round or assignee, has changed |
| Claims.KeptWrites | src/worker/runtime.ts:254-276 | a kept result writes status, text and evidence into the agent's unfinished row of the executed role and nothing else |
| Continuations.ReviewReachesQaIff | src/worker/runtime.ts:326-377 | a passing review asks the next QA role's agent to test, in that row's round, exactly when QA was not asked, is not under way or done, and is independent; otherwise nothing changes |
| Continuations.ReviewInvitesExpert | src/worker/runtime.ts:403-412 | with an expert next, a passing review invites the expert and touches no row |
| Continuations.ReviewEnds | src/worker/runtime.ts:331-386 | a stale round, nobody next, or a next role of another kind ends a passing review |
| Continuations.RevisionIs | src/worker/runtime.ts:398-432 | a failing review and any architect's outcome reopen the nearest implementer one round up and ask it, or do nothing without one |
| Continuations.ProgressIs | src/worker/runtime.ts:393-432 | a passing outcome of any other role goes to the nearest assigned role after it in the same round, a failing one nowhere |
| Continuations.BudgetClosesOut | src/worker/runtime.ts:296-316 | with the budget used up nothing is sent; a failing outcome still fails or cancels an unfinished task |
| Continuations.PassingQaCompletes | src/worker/runtime.ts:129-295 | end to end: an undisturbed passing QA result with all others passed and the gate open completes the task, whatever the budget |
| Fencing.StepGrows | src/tasks/repository.ts:211-224 | in every step of anybody attempts only grow, a failed, cancelled or completed task stays so, PASS only becomes COMPLETED, and role rows keep their names |
| Fencing.RunBounded | src/worker/runtime.ts:72-74 | no live execution ever carries a later attempt than the task |
| Fencing.ClaimTakesRow | src/worker/runtime.ts:57-76 | a claim takes exactly the row it found, with its role and round, and the task's new attempt |
| Fencing.PersistsIff | src/worker/runtime.ts:129-141 | for an execution of a claimed row: a result is persisted exactly when nothing it was claimed under has changed, and then the finished row is the claimed row |
| Provenance.FinishesAnotherRowIff | src/worker/runtime.ts:254-276 | for any execution: a result finishes a row other than the claimed one exactly when the execution is current, claimed no row of its role, and its agent has come to hold an unfinished row of that role since |
| Provenance.ResultsWereCurrent | src/worker/runtime.ts:129-141 | over every run, each result was current in the step that persisted it and finished its agent's own row of the executed role, if one was unfinished |
| Provenance.ResultsFinishClaimedRows | src/worker/runtime.ts:254-276 | over every run, from a planned or an unplanned task on, whose envelopes reach agents with a role, each result finished the row its execution had claimed, or none if that row had passed already |
| Witnesses.UnclaimedRowFinished | src/worker/runtime.ts:55-82 | a run from an admitted, unplanned task: an agent claims it without a row, the team is planned and the task sent out before its ACK is, and its result finishes a row that did not exist when it claimed |
| Fencing.UndisturbedPersists | src/worker/runtime.ts:129-141 | an execution nobody disturbs does persist its result |
| Fencing.RedispatchIs | src/runtime/scopedContinuationWatchdog.ts:458-466 | a re-dispatch leaves the task DISPATCHED with exactly the next attempt |
| Fencing.RedispatchFences | src/runtime/scopedContinuationWatchdog.ts:458-466 | after a re-dispatch no execution alive at that moment ever persists a result, in any interleaving |
| Fencing.StoppedIs | src/runtime/scopedContinuationWatchdog.ts:562-575 | giving up leaves the task failed or cancelled, role and team blocked, nobody awake and the task unwatched; a COMPLETED task is not stopped |
| Fencing.DeadPersistsNothing | src/worker/runtime.ts:132-141 | after a stop no result is ever persisted |
| Fencing.RowsKept | src/worker/runtime.ts:134-136 | over every run roles stay distinct and an execution keeps holding the row it claimed |
| ContinuationWatchdog.ScopedContinuationWatchdog.StartPass | src/runtime/scopedContinuationWatchdog.ts:200-223 | observation, progress mark or recovery, up to the first await, as specified |
| ContinuationWatchdog.ScopedContinuationWatchdog.Recover | src/runtime/scopedContinuationWatchdog.ts:321-375 | bound, acquisition, currency, replay, cancel window or suspension before routing |
| ContinuationWatchdog.ScopedContinuationWatchdog.ReplayReviewRevision | src/runtime/scopedContinuationWatchdog.ts:518-547 | the lost revision request is sent again to the last implementer, one round up, or the task is given up |
| ContinuationWatchdog.ScopedContinuationWatchdog.RoutePass | src/runtime/scopedContinuationWatchdog.ts:377-479 | up to three routings with the real router, the recorded decision, refund, stop, suppression or re-dispatch |
| ContinuationWatchdog.ScopedContinuationWatchdog.Reassign | src/runtime/scopedContinuationWatchdog.ts:458-463 | the role is assigned and the task taken back and out again as far as its status allows |
| ContinuationWatchdog.ScopedContinuationWatchdog.SafeStop | src/runtime/scopedContinuationWatchdog.ts:562-575 | task, role, team, recovery row and watch after giving up, with the COMPLETED exception |
| ContinuationWatchdog.ScopedContinuationWatchdog.MarkAction | src/runtime/scopedContinuationWatchdog.ts:592-598 | nobody stays awake; the waits are cleared only when asked |
| PassOutcomes.CurrentInQuestion | src/runtime/scopedContinuationWatchdog.ts:231-232 | a pass is about the row the team or the task is at, while that has not passed |
| PassOutcomes.OpenInQuestion | src/runtime/scopedContinuationWatchdog.ts:232-233 | else about the first row that is neither passed nor skipped |
| PassOutcomes.TesterInQuestion | src/runtime/scopedContinuationWatchdog.ts:234-238 | else, with all passed and the gate closed, about a QA row tested by a contributor |
| PassOutcomes.StopIs | src/runtime/scopedContinuationWatchdog.ts:562-575 | giving up exactly: FAIL where that is a legal end, CANCELLED elsewhere, role and team blocked, nobody awake, unwatched, and only a log entry for a COMPLETED task |
| PassOutcomes.IdlePass | src/runtime/scopedContinuationWatchdog.ts:200-216 | a pass that may not attend changes nothing, one without anything to do ends the watch |
| PassOutcomes.WatchingPass | src/runtime/scopedContinuationWatchdog.ts:217-222 | on hold, or with nothing to act on, a pass only notes the row, or the progress it sees |
| PassOutcomes.BoundedPass | src/runtime/scopedContinuationWatchdog.ts:326-342 | with the retries used up the task is given up; before that somebody awake keeps others out |
| PassOutcomes.MisplacedPass | src/runtime/scopedContinuationWatchdog.ts:344-347 | a pass for a row the task is not at uses its retry and rests |
| PassOutcomes.ReplaySends | src/runtime/scopedContinuationWatchdog.ts:348-349 | a lost revision request is sent again to the nearest implementer, reopened one round up |
| PassOutcomes.ReplayGivesUp | src/runtime/scopedContinuationWatchdog.ts:518-547 | without an implementer or an agent of its own the review's task is given up |
| PassOutcomes.CancelWindow | src/runtime/scopedContinuationWatchdog.ts:350-371 | for a live process: within twice the result deadline of the first accepted request everything stays but the row, whose retry comes back; from then on, or without an accepted signal, the task is given up |
| PassOutcomes.WaitsForRoute | src/runtime/scopedContinuationWatchdog.ts:373-377 | in all other cases the pass holds its retry and waits with its snapshot to be routed |
| RouteOutcomes.ExcludedIff | src/runtime/scopedContinuationWatchdog.ts:392-402 | who is left out: the role's agent, everybody selected for it before, and for QA who passed or is reserved |
| RouteOutcomes.ChosenIff | src/runtime/scopedContinuationWatchdog.ts:403-432 | somebody new exactly when somebody new could take the role; failing that the same worker exactly when nobody suited is merely busy and it never really started |
| RouteOutcomes.CapacityWindow | src/runtime/scopedContinuationWatchdog.ts:433-451 | nobody chosen: with somebody suited merely busy and the wait younger than the deadline the retry comes back and the wait is open; otherwise the task is given up |
| RouteOutcomes.StaleRoute | src/runtime/scopedContinuationWatchdog.ts:452-456 | somebody chosen for a task that moved on: only the decision is recorded and the row rests |
| RouteOutcomes.RouteSendsOut | src/runtime/scopedContinuationWatchdog.ts:457-479 | somebody chosen for an unchanged task: role, team and task go to it as the next attempt, and the envelope is out |
| RouteOutcomes.GateStopsRoute | src/runtime/scopedContinuationWatchdog.ts:457-475 | at a human gate the task cannot be sent out and is cancelled |
| RouteOutcomes.EndIs | src/runtime/scopedContinuationWatchdog.ts:480-487 | after publication the row rests, with its waits cleared unless a replay was not delivered |
| RouteOutcomes.ScheduleIff | src/teams/scheduler.ts:54-70 | a queued task goes out to its role's agent, or the one newly routed, exactly when there is one |
| RecoveryBounds.AccountsBalance | src/runtime/scopedContinuationWatchdog.ts:339-346 | over every interleaving each row's count is acquisitions less refunds, covers holders and dispatches, and stays within the policy |
| RecoveryBounds.RedispatchesBounded | src/runtime/scopedContinuationWatchdog.ts:339-346 | over every run of a task never recovered before, no role and round is sent out again more than maxRecoveries times |
| RecoveryBounds.AttemptsRecoveredOnce | src/runtime/scopedContinuationWatchdog.ts:463 | however passes overlap, no two re-dispatches start from the same attempt |
| RecoveryBounds.StartSleeps | src/runtime/scopedContinuationWatchdog.ts:339-371 | a pass that acquired and returns in its first part leaves nobody awake |
| RecoveryBounds.RestSleeps | src/runtime/scopedContinuationWatchdog.ts:433-487 | a pass that returns after routing or publishing leaves nobody awake |
| RecoveryEnds.PassEnds | src/runtime/scopedContinuationWatchdog.ts:321-487 | a whole pass over a stuck task gives up, uses a retry, or refunds it inside its window, and nothing else |
| RecoveryEnds.PassLowers | src/runtime/scopedContinuationWatchdog.ts:352-370 | every pass that goes on lowers the potential by at least the time between passes |
| RecoveryEnds.StopsTakeEffect | src/runtime/scopedContinuationWatchdog.ts:562-575 | over every run, a task that was given up is over from then on, and unwatched unless it is COMPLETED |
| RecoveryEnds.StuckTaskIsGivenUp | src/runtime/scopedContinuationWatchdog.ts:321-487 | a task that stays actionable until it is given up is given up within (maxRecoveries + 1) times the two windows and five steps, from any recovery row at rest, whatever signals, routing and delivery do and whichever passes for other roles or suppressed duplicates overlap; it is then over, and unwatched unless it is COMPLETED |
| Abandonment.ThrowAbandons | src/runtime/scopedContinuationWatchdog.ts:339-378 | a pass cut short while it awaits the health check, with retries left after its own, leaves its row awake with nobody behind it |
| Abandonment.AbandonedForGood | src/runtime/scopedContinuationWatchdog.ts:339-342 | over every run, such a row is never acquired, dispatched, refunded or given up again, as long as no pass observes progress |
| Abandonment.UsedUpStillStops | src/runtime/scopedContinuationWatchdog.ts:326-338 | with the retries used up, the next pass over a stuck task gives it up whether or not somebody is awake |
| Abandonment.ProgressReclaims | src/runtime/scopedContinuationWatchdog.ts:217-221 | one observation of progress puts the row to sleep again |
| Handoffs.AcceptedIff | src/worker/workerContract.ts:78-93 | an envelope with a row's role and round is accepted exactly by the agent holding the row |
| Handoffs.MailIsClaimable | src/runtime/scopedContinuationWatchdog.ts:476-479 | in every reachable state an envelope just sent agrees with its row; scheduler, recovery, replay and QA envelopes are claimable by their recipient at once |
| Handoffs.HandoffReachesIff | src/worker/runtime.ts:404-432 | a hand-off is claimable exactly when its target was not reassigned since the outcome was applied |
| Witnesses.HandoffReachesNobody | src/worker/runtime.ts:404-432 | a run of a claim, a result, a reassignment of the reviewer and the hand-off, whose envelope its recipient cannot claim |
| Handoffs.ImplementationGoesTo | src/worker/runtime.ts:398-432 | a passing implementer's outcome goes to the nearest assigned role after it, reopened in the same round; a failing one goes nowhere |
| Handoffs.RevisionGoesTo | src/worker/runtime.ts:402-432 | a failing review goes back to the nearest implementer before it, reopened one round up |
| Handoffs.ArchitectHandsBack | src/worker/handoff.ts:22-25 | an ARCHITECT outcome, passed or not, asks the last implementer before it for revision and sends nothing if there is none |
| Rounds.RoundsStayPaired | src/worker/runtime.ts:420 | for implementer, reviewer and QA, outcomes applied in one step, the implementer's round is the reviewer's or one more |
| Lineage.RecoverySeparates | src/runtime/scopedContinuationWatchdog.ts:378-409 | a recovered execution role never gets the agent of a later REVIEWER or QA, a recovered QA never one that passed an earlier role |
| Lineage.ReturnsOnlyUnstarted | src/runtime/scopedContinuationWatchdog.ts:390-431 | an agent of the role's history returns only as the same worker, for the four not-started classifications |
| Lineage.FailedAreLastResort | src/runtime/scopedContinuationWatchdog.ts:403-424 | an agent whose latest attempt on the task failed takes over only when every other candidate failed too |
| Lineage.NewcomersRunOut | src/runtime/scopedContinuationWatchdog.ts:392-402 | over every run a role is given to somebody new at most four times |

## Left out

- Discord clients, HTTP control, command-line adapters, process spawning, git and file reads: they appear only as observations given to a step.
- Text classification by regular expressions (verdicts, authority, complexity, friction) and the matching of a command against a declared validation: opaque predicates.
- sha256, deflate, JSON and UUID internals, and the tamper checks of single-message parsing: arguments of the model.
- The regular expression that cuts a stream log into chunks, and which JSON payloads of a line are activities: `LogLines` starts from chunks, `RunBudget` from activities.
- Legacy single-agent completion, the migration of run records without an identifier, and operator retries and terminal recovery: they rewrite rows outside the protocols modelled here.
- Agent health and busy flags, workspace lock release, inbound message rows and process rows changed by recovery: routing and later observations take them as inputs.
- The selected-reason texts and the rejection lists stored with a decision by the recovery pass: only agent, code and role are kept in its decision log.
- Inbound deduplication, workrooms, meetings, collaboration, office reports, performance metrics, the model catalog: easy members or uniqueness of a database key.
- The scheduler beyond sending a queued task to a role's agent with the row's round: preflight, workrooms, and a first dispatch whose role row was read before an await.
- MailIsClaimable: says nothing of expert invitations, which deliberately carry no reopened round.
- RoundsStayPaired: takes the application of an outcome and its hand-off as one step and deliveries to agents that hold a role; between the two steps a revision may overtake.
- StuckTaskIsGivenUp: covers passes for its role and round that do not throw (for those see Abandonment), and overlapping passes that do not observe progress. Its measure is a sum of retries and windows, which implies the lexicographic one.
- AccountsBalance: assumes the policy does not change during the run.
- RedispatchFences: excludes operator actions that lower an attempt or reopen a failed or cancelled task.
- ExchangeReassembles: assumes that the clock stays within the TTL of an envelope's first fragment and that nobody else uses its id.
- ResultsFinishClaimedRows: takes deliveries to agents that hold a role row; for the others FinishesAnotherRowIff is exact.
