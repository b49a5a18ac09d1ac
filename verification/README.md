# RoboAgent kernel: a Dafny model

RoboAgent runs language-model agents against tools and the physical world. Its kernel is a handful of small
protocols with explicit state. This project models those protocols in Dafny 4.11 and proves what they keep,
over every input and every interleaving. `dafny verify dfyconfig.toml` checks all of it.

| module | component |
|---|---|
| `Messages`, `Transcript` | transcript messages; the validator and the grouping loop, two recognisers of one language |
| `EntityRefs`, `WorldTrimming`, `Compaction` | fitting a request into the context window: mentioned entities, ranked world entries, incremental summaries |
| `CanonicalData`, `SnapshotCodec` | JSON trees, digests, the strict snapshot codec, `restore` |
| `SessionDurability` | many handles on one stored session: capture, compare-and-swap, acknowledge |
| `SessionInput` | the input queue and append-only transcript of one handle |
| `ExecutionFacts`, `ExecutionTree` | the scope tree, contributions, usage totals, effect marks |
| `TurnLoop` | the turns of a root Run over that tree |
| `ScopeTeardown` | closing a subtree under concurrent use and concurrent closers |
| `BatchScheduler` | running a batch of tool calls with bounded concurrency |
| `PatchSyntax`, `PatchHunks`, `PatchSettlement` | the patch parser, hunk application, commit and rollback with honest reports |
| `ProviderSignals`, `ModelStream` | what a provider's chunks amount to; the chunk-to-event producer and the validating consumer |
| `EventDelivery` | bounded queues with replay and a terminal event |
| `PythonFence` | reading and writing the one Python block of an answer (section 4.5 of the CommonMark Spec) |
| `TextLines`, `Basics` | splitting and joining lines; shared vocabulary |

How it is modelled:

- An object whose methods change it is a class: `SessionInput.Session`, `ExecutionTree.Tree`,
  `BatchScheduler.Batch`, `PatchSettlement.PatchSettlement` over a `Disk`, `EventDelivery.Emitter`. Loops that
  update variables are methods with loops, proved against a specification function whose properties are
  lemmas.
- Protocols in which several actors meet are state machines: one step per stretch between two awaits, a run is
  any sequence of enabled steps (`SessionDurability`, `ScopeTeardown`). A compare-and-swap whose answer is
  lost and a closer that gives up are steps of their own.
- Any file operation of a patch may fail, a failing restore may have replaced the target already, and the
  timeouts of the settlement driver may strike before a step has begun or when it is done. The guarantees of a
  whole call hold while nobody else touches its targets; `RollBackOne` is stated for any content it may find
  there, so that what others wrote is never overwritten.
- In a batch, how each task settles is an input and which running tasks are seen to finish next is chosen
  freely, so a theorem about `Execute` is one about every completion order.
- Token estimation, summarising, JSON reading, made-up identities and how tools settle are parameters, so
  every theorem holds for all of them. Digests are injective: a digest stands for the canonical text itself.

## What the code does not keep

Five places where the code falls short of what its surroundings suggest. Each is proved from the code as it
is; where a guarantee survives in part, the exact condition is proved too.

- **Cancelled tasks drop effects** (roboagent/tool/executor.py:292-310, 325-329), in two places. The batch
  error that carries a cancelled task's effects is itself a cancellation. Raised in the inner handler it is
  caught again by the outer one, and only the effects of tasks that had already returned remain. Raised by a
  task that is being gathered it makes that task end cancelled, and gathering with `return_exceptions=True`
  puts a plain cancellation in its place, so an abort or a cancellation from outside loses it too.
  `BatchScheduler.CarriedIsComplete` says of every exit when it is complete, and `CanLose` is the exact
  condition on the calls and the concurrency bound alone: some call ends in its own cancellation while it, or
  another call that can be under way with it, has effects. Without it no exit of `Execute` loses anything;
  with it `Lose` is a run that does. `LoneCancelledTask` and `AbortForgetsGathered` are the smallest losses.
  Running the same calls one by one keeps everything (`ExecuteInTurn`).
- **A half-made add goes unreported** (roboagent/tool/apply_patch.py:557-558). When the link succeeds and the
  removal of the staged name fails, the new file stays although the outcome names no effect
  (`PatchSettlement.HalfMadeAddGoesUnreported`; the exact condition is in `NoEffectMeansBefore`). As any file
  operation may fail, that condition can only speak of how far the run got, not of the plans alone.
- **A stopped settlement driver rolls nothing back** (roboagent/runtime/execution.py:1064-1069, 1080-1092). A
  driver cancelled before it ran, or timed out twice before a step began, leaves committed changes in place
  and the outcome reports no effect; a retry blocker is all that tells of it
  (`PatchSettlement.InterruptedDriverRollsNothingBack`).
- **A second closer overtakes the first** (roboagent/runtime/execution.py:695-697). A closer takes all
  resources of a scope before it closes them one by one, so another closer finds none and may freeze the scope
  meanwhile (`ScopeTeardown.SecondCloserOvertakes`). Order and at-most-once survive (`ClosedInOrder`,
  `FrozenTakenOnce`), and a closer with no other closer above, at or below its target leaves everything torn
  down (`FinishedAlone`).
- **A refused contribution still counts** (roboagent/runtime/execution.py:304-316, 453-464). Its usage is
  merged before its effects are checked. The totals stay equal to the recomputation all the same
  (`ExecutionTree.Tree.Contribute`). An effect that names an unknown scope is stored, and makes every later
  mark fail (`MarkToolCallsCommitted`).

## Model

| member | source | states |
|---|---|---|
| `Transcript.Validate` | roboagent/message.py:531-554 | the validator accepts exactly the transcripts within the content limits that its automaton reads; demanding completeness, exactly the concatenations of whole exchanges |
| `Transcript.MessageGroups` | roboagent/context/manager.py:523-548 | grouping succeeds exactly on complete transcripts and returns the groups, which flatten back to the transcript |
| `Transcript.TakeGroup` | roboagent/context/manager.py:523-548 | one round of the grouping loop takes exactly the exchange that starts at the index, or names the fault |
| `Transcript.GroupsFactorise` | roboagent/context/manager.py:523-548 | the factorisation into exchanges is unique: any list of whole exchanges is found again from its concatenation |
| `Transcript.GroupsLanguage` | roboagent/context/manager.py:523-548 | grouping succeeds exactly when the transcript is a concatenation of whole exchanges |
| `Transcript.RecognisersAgree` | roboagent/message.py:531-554 | the validator's automaton and the grouping loop, written independently, accept the same transcripts |
| `Transcript.ValidatorLanguage` | roboagent/message.py:531-554 | the automaton accepts exactly the concatenations of whole exchanges |
| `Transcript.ScanAnswers` | roboagent/message.py:536-551 | while an exchange is open the automaton accepts only its remaining answers, in call order |
| `Transcript.CompleteConcat` | roboagent/context/manager.py:523-548 | appending a complete transcript appends its groups |
| `Transcript.CompleteCancel` | roboagent/context/manager.py:523-548 | cutting off a complete prefix changes nothing about whether the rest is complete |
| `Transcript.CutsAreBoundaries` | roboagent/context/budget.py:433-437 | a cut leaves a complete prefix, and a complete suffix, exactly at the group boundaries |
| `Transcript.GroupBoundaries` | roboagent/context/budget.py:433-437 | the loop computes every group boundary |
| `Transcript.SelectRecentGroups` | roboagent/context/manager.py:508-520 | the longest suffix of groups within the message limit, or the last group alone when it is larger |
| `Transcript.WindowIsCompleteSuffix` | roboagent/context/manager.py:389-427 | a window over a complete transcript is a complete suffix of it |
| `EntityRefs.RefsArePaths` | roboagent/context/world.py:32-60 | an entity is found in a value exactly when some path, never through another world's object or plain data, leads to an object that refers to it |
| `EntityRefs.FoundHasPath` | roboagent/context/world.py:32-60 | what is found is what some path leads to |
| `EntityRefs.PathIsFound` | roboagent/context/world.py:32-60 | whatever a path leads to is found |
| `WorldTrimming.BoundedEntries` | roboagent/context/world.py:173-180 | the first 64 entries in rank order plus all protected ones |
| `WorldTrimming.BoundedShape` | roboagent/context/world.py:173-180 | an entry among the first 64, or protected, is shown; at most 64 unprotected ones are |
| `WorldTrimming.KeepsProtected` | roboagent/context/world.py:150-170 | no trimming drops a protected entry |
| `WorldTrimming.DropLastUnprotected` | roboagent/context/world.py:225-270 | one round of the loop turns the selection with k unprotected entries into the one with k - 1 |
| `WorldTrimming.FitFromIsLargest` | roboagent/context/world.py:225-270 | the scan finds the largest k that fits, and none exactly when no selection, not even the protected entries alone, fits |
| `WorldTrimming.Trim` | roboagent/context/world.py:225-270 | the trimming loop ends with the protected entries and the first k unprotected ones, for the k the scan finds |
| `WorldTrimming.PrepareWorld` | roboagent/context/world.py:202-270 | the whole composition over transcript, tools and world: everything without a limit, otherwise the largest selection of ranked entries that fits; failure only when the protected entries alone do not |
| `WorldTrimming.MentionTable` | roboagent/context/world.py:110-121 | where each entity was mentioned last |
| `WorldTrimming.RankEntries` | roboagent/context/world.py:110-147 | every entry once, in strictly rising rank: mentioned, then depended upon, then the rest; later mentions, uncertain and newer entries first |
| `WorldTrimming.FindPlace` | roboagent/context/world.py:147 | the place of one more entry among the ranked ones |
| `WorldTrimming.RelevantFirst` | roboagent/context/world.py:128-170 | every relevant entry, and so every protected one, ranks before every irrelevant one |
| `Compaction.ProjectionIntact` | roboagent/context/manager.py:430-476 | a transcript projected behind a summary splits no exchange exactly when the summary ends at a group boundary |
| `Compaction.MinimumTailStart` | roboagent/context/budget.py:440-447 | the loop from the end finds the start of the tail that must stay verbatim |
| `Compaction.TailHoldsTurns` | roboagent/context/budget.py:440-447 | a tail that does not begin at the first group holds at least the required user turns |
| `Compaction.PrepareContext` | roboagent/context/budget.py:219-365 | the preparation with its loops and early returns computes the specified result, errors included |
| `Compaction.OrderWorld` | roboagent/context/world.py:110-147 | the preparation ranks the world entries by the transcript's mentions and the tools' dependencies |
| `Compaction.CompactContext` | roboagent/context/budget.py:279-365 | the compaction stage computes the specified result |
| `Compaction.CheckTailGroups` | roboagent/context/budget.py:286-295 | the loop over the tail groups finds the first that cannot fit |
| `Compaction.FindEnd` | roboagent/context/budget.py:297-324 | the loop over candidate boundaries finds the first whose compacted context fits the target |
| `Compaction.PrepareCases` | roboagent/context/budget.py:219-274 | a preparation succeeds by trimming alone or by a compaction, and in no third way |
| `Compaction.CompactShape` | roboagent/context/budget.py:279-365 | a compaction ends at one boundary past the earlier summary and before the kept tail |
| `Compaction.PreparedContextFits` | roboagent/context/budget.py:219-365 | every prepared context fits the window minus the reserve and splits no exchange |
| `Compaction.NewSummaryIsSafe` | roboagent/context/budget.py:378-389 | a new summary is valid, ends strictly past the usable earlier one, and leaves the required user turns verbatim |
| `Compaction.SummaryStaysValid` | roboagent/context/budget.py:378-389 | a valid summary stays valid when complete exchanges are appended |
| `Compaction.UpdateExpectsCurrent` | roboagent/context/budget.py:219-365 | an update names the digest of the summary the session still holds |
| `Compaction.PreparingAgainIsStable` | roboagent/context/budget.py:219-365 | preparing again on the committed state yields no further update; only an estimator that fails can make it fail |
| `SnapshotCodec.JsonRoundTrip` | roboagent/agent/persistence.py:501-524 | decoding an encoded JSON value gives it back, member order included |
| `SnapshotCodec.ContentRoundTrip` | roboagent/agent/persistence.py:188-247 | every canonical content part is decoded as it was encoded |
| `SnapshotCodec.MessageRoundTrip` | roboagent/agent/persistence.py:105-186 | every canonical message, with its identity and its calls, is decoded as it was encoded |
| `SnapshotCodec.PendingRoundTrip` | roboagent/agent/persistence.py:337-342 | a queued input comes back with its receipt and kind |
| `SnapshotCodec.CompactionRoundTrip` | roboagent/agent/persistence.py:299-335 | the summary of a snapshot comes back, whatever string it has for a digest |
| `SnapshotCodec.SnapshotRoundTrip` | roboagent/agent/persistence.py:254-335 | a canonical snapshot can be encoded, and decoding gives back the same snapshot |
| `SnapshotCodec.Restore` | roboagent/agent/session.py:577-660 | restoring accepts exactly the snapshots the session's own checks accept, and takes their content over |
| `SnapshotCodec.SaveAndRestore` | roboagent/agent/session.py:507-522 | for every live session state, restoring the decoded encoded snapshot gives the state back |
| `SnapshotCodec.RestoredIsLive` | roboagent/agent/session.py:577-660 | what was restored can be saved and restored again |
| `SnapshotCodec.PreparedSummarySurvives` | roboagent/agent/session.py:577-660 | a summary made by a preparation passes the checks of a restore |
| `SessionDurability.SwapExtends` | roboagent/agent/persistence.py:483-485 | a compare-and-swap that passes, however late, extends the line of stored snapshots instead of forking it |
| `SessionDurability.LateSwapKeeps` | roboagent/agent/persistence.py:397-398 | a save that goes on in its thread after its caller was cancelled leaves its handle in order |
| `SessionDurability.StepKeepsInvariant` | roboagent/agent/session.py:531-569 | every interleaved step of any number of handles, saves left running after their caller was cancelled included, keeps one line of growing transcripts and every promise already returned, for transcript, queue, summary and metadata |
| `SessionDurability.NoForkedHistory` | roboagent/agent/persistence.py:370-377 | at every point of every run the stored revisions strictly increase, each transcript is a prefix of the next, and a persist call that returned for a revision left a stored snapshot that is the handle's whole state at that revision or a later one |
| `SessionDurability.StepKeepsTrails` | roboagent/agent/session.py:507-569 | no step rewrites what a revision left behind |
| `SessionDurability.RunKeepsTrails` | roboagent/agent/session.py:507-569 | nothing stored, and nothing a revision stands for, is rewritten later in a run |
| `SessionDurability.StoredForever` | roboagent/agent/session.py:527-569 | what a returned persist call covers stays stored for the rest of the run |
| `SessionDurability.CoversContains` | roboagent/agent/session.py:536-541 | a snapshot stored at a revision contains every mutation up to it |
| `SessionInput.ExactlyOnePlace` | roboagent/agent/session.py:302-398 | every issued receipt is in exactly one of pending, committed and cleared |
| `SessionInput.CommitKeepsAccounts` | roboagent/agent/session.py:316-373 | moving the front of the queue into the transcript keeps the accounts |
| `SessionInput.CommitRecordsPositions` | roboagent/agent/session.py:316-373 | committed inputs stand in the transcript in receipt order |
| `SessionInput.EnqueueKeepsAccounts` | roboagent/agent/session.py:302-314 | a new receipt rises above all earlier ones |
| `SessionInput.Session.AcquireRun` | roboagent/agent/session.py:268-282 | one Run at a time owns an open session |
| `SessionInput.Session.ReleaseRun` | roboagent/agent/session.py:284-294 | only the owner can release it |
| `SessionInput.Session.Close` | roboagent/agent/session.py:670-677 | closing reports the queued receipts and is refused while a Run is active |
| `SessionInput.Session.Enqueue` | roboagent/agent/session.py:302-314 | an input gets the next receipt and goes to the end of the queue, unless the session is closed |
| `SessionInput.Session.CommitQueued` | roboagent/agent/session.py:316-373 | the first inputs and the Run's own message are appended together, or nothing changes |
| `SessionInput.Session.ConsumePending` | roboagent/agent/session.py:316-338 | the whole queue becomes transcript in order, for the owner only |
| `SessionInput.Session.CountThrough` | roboagent/agent/session.py:340-373 | the inputs up to a receipt are exactly the front of the queue |
| `SessionInput.Session.CommitInitialInput` | roboagent/agent/session.py:340-373 | the inputs up to the Run's receipt and its message are committed, or nothing changes |
| `SessionInput.Session.ClearPending` | roboagent/agent/session.py:379-398 | the queue is dropped and reported, never while a Run is active |
| `SessionInput.Session.CommitExchange` | roboagent/agent/session.py:477-505 | an exchange is appended whole exactly when it is complete and within limits, for the owner only |
| `SessionInput.Session.CommitCompaction` | roboagent/agent/session.py:234-256 | a compaction is accepted exactly when it was made from the summary still held |
| `SessionInput.Session.Interleave` | roboagent/agent/session.py:268-505 | over any sequence of operations, their locked parts also on their own after an outdated owner check, the transcript only grows, the accounts hold, and every change raises the revision |
| `SessionInput.Session.Perform` | roboagent/agent/session.py:268-668 | each operation is nothing or one mutation of the kind that handles save |
| `SessionInput.Session.ConsumeLocked` | roboagent/agent/session.py:322-335 | the part under the locks, whoever owns the session by then |
| `SessionInput.Session.InitialLocked` | roboagent/agent/session.py:349-370 | the part under the locks, whoever owns the session by then |
| `SessionInput.Session.ClearLocked` | roboagent/agent/session.py:390-397 | the part under the lock, even if a Run has become active |
| `SessionInput.Session.SetMetadata` | roboagent/agent/session.py:662-668 | replaces the metadata under one new revision unless the mappings compare equal |
| `SessionInput.Session.StateIsLive` | roboagent/agent/session.py:507-522 | whatever operations were done, the state of a session is one that can be saved and restored |
| `SessionInput.Session.Reopen` | roboagent/agent/session.py:577-660 | a session saved, loaded and restored is a session in the same state |
| `SessionInput.QueueBelow` | roboagent/agent/session.py:302-314 | no queued receipt is above the last one issued |
| `ExecutionFacts.MergeLaws` | roboagent/runtime/execution.py:1118-1126 | merging usage is commutative and associative, with unknown absorbing |
| `ExecutionFacts.DescendantIsLater` | roboagent/runtime/execution.py:212-240 | scope sequences strictly decrease towards the root, so the parent walks end |
| `ExecutionFacts.AncestorsAreNested` | roboagent/runtime/execution.py:556-563 | of two ancestors of a scope one is an ancestor of the other |
| `ExecutionFacts.GrowthKeepsAncestry` | roboagent/runtime/execution.py:212-240 | a new scope changes nobody else's ancestry |
| `ExecutionFacts.TotalIgnoresOrder` | roboagent/runtime/execution.py:321-334 | the merge of contributions does not depend on their order |
| `ExecutionFacts.UsageIsOwnPlusChildren` | roboagent/runtime/execution.py:502-523 | the usage of a scope is its own contributions merged with the subtree usage of every child |
| `ExecutionFacts.SiblingsDisjoint` | roboagent/runtime/execution.py:556-563 | siblings share no descendant |
| `ExecutionTree.MarkReachesExactly` | roboagent/runtime/execution.py:453-464 | a mark reaches exactly the effects below the top-level scopes of the accepted calls |
| `ExecutionTree.RetrySafe` | roboagent/tool/executor.py:1504-1527 | a retry is safe exactly when there is no blocker and every effect is harmless to repeat; with all effects committed, exactly when no side effect is in doubt |
| `ExecutionTree.Tree.AcceptNestedTool` | roboagent/runtime/execution.py:250-254 | the nested tool budget is counted and never exceeded |
| `ExecutionTree.Tree.AddScope` | roboagent/runtime/execution.py:212-240 | a scope is added under its parent with the next sequence and its depth |
| `ExecutionTree.Tree.NewToolScope` | roboagent/runtime/execution.py:620-640 | a tool scope is made only under an open scope |
| `ExecutionTree.Tree.NewChildRunScope` | roboagent/runtime/execution.py:256-283 | a child Run needs an open parent, depth left and budget left, in this order |
| `ExecutionTree.Tree.Contribute` | roboagent/runtime/execution.py:285-319 | a contribution is taken once, never in a frozen scope; replays change nothing; its usage counts even when one of its effects is then refused |
| `ExecutionTree.Tree.AddEffects` | roboagent/runtime/execution.py:307-316 | effects are stored up to the first that has no identity or reuses one |
| `ExecutionTree.Tree.UsageForScope` | roboagent/runtime/execution.py:502-523 | the recomputed usage is the merge over the subtree, and for the root it equals the running total |
| `ExecutionTree.Tree.MarkToolCallsCommitted` | roboagent/runtime/execution.py:453-464 | marks exactly what lies below the accepted calls; it fails, marking only such effects, exactly when an effect names an unknown scope |
| `ExecutionTree.Tree.WalkToTop` | roboagent/runtime/execution.py:457-462 | the walk ends at the ancestor just below the root |
| `ExecutionTree.Tree.FreezeSubtree` | roboagent/runtime/execution.py:568-588 | the subtree frozen, the rest untouched |
| `ExecutionTree.Tree.BeginClosing` | roboagent/runtime/execution.py:682-686 | one scope goes from open to closing, nothing else changes |
| `ExecutionTree.Tree.FreezeScope` | roboagent/runtime/execution.py:584-588 | one scope is frozen, nothing else changes |
| `TurnLoop.TakeStep` | roboagent/tool/executor.py:1179-1223 | whatever a tool of a batch does, a teardown scope by scope included, only the subtrees of the batch's own calls hold unmarked effects, and no effect is lost |
| `TurnLoop.RestatingKeepsBatch` | roboagent/runtime/execution.py:568-588 | the single steps of a teardown keep this |
| `TurnLoop.RunBatch` | roboagent/agent/loop.py:465-484 | a batch that returns leaves every call scope frozen |
| `TurnLoop.MarkBatch` | roboagent/agent/loop.py:492-521 | after the accepted exchange every effect of the tree is committed |
| `TurnLoop.RunLoop` | roboagent/agent/loop.py:465-541 | every batch starts with all effects committed and no live call scope; when the loop ends with an answer, with its turns used up or with a persistence error, all effects are committed, nested and child-Run ones included |
| `TurnLoop.MarkFor` | roboagent/runtime/execution.py:794-796 | only the root Run marks |
| `TurnLoop.RetryAfterNormalEnd` | roboagent/tool/executor.py:1504-1527 | after such an ending a retry is decided by unknown certainty and blockers alone |
| `TurnLoop.StoringOnlyMarks` | roboagent/runtime/execution.py:307-316 | storing effects loses and rewrites none |
| `ScopeTeardown.ClosingOrder` | roboagent/runtime/execution.py:568-588 | the subtree sorted by descending sequence: complete, children before parents |
| `ScopeTeardown.OrderAt` | roboagent/runtime/execution.py:568-588 | at every point of a run a closer of any scope finds its order and can start |
| `ScopeTeardown.StepKeepsInvariant` | roboagent/runtime/execution.py:568-731 | every step of every closer, tool and settlement, in any interleaving, keeps the lifecycle |
| `ScopeTeardown.RunKeepsInvariant` | roboagent/runtime/execution.py:568-731 | the lifecycle holds at every point of every run |
| `ScopeTeardown.LifecycleNested` | roboagent/runtime/execution.py:682-693 | a closing or frozen scope has no open descendant, a frozen one only frozen ones |
| `ScopeTeardown.CleanupWaits` | roboagent/runtime/execution.py:580-588 | no cleanup begins while a settlement is active in the closing subtree, and no open scope is frozen |
| `ScopeTeardown.ClosedInOrder` | roboagent/runtime/execution.py:695-731 | resources begin to close last in, first out, each at most once; of a frozen scope all have begun exactly when no closer still holds some |
| `ScopeTeardown.FrozenTakenOnce` | roboagent/runtime/execution.py:695-697 | a frozen scope's resources were all taken by one closer, and nobody else holds any |
| `ScopeTeardown.TakenForGood` | roboagent/runtime/execution.py:695-697 | who took a scope's resources never changes in a run |
| `ScopeTeardown.FinishedAt` | roboagent/runtime/execution.py:568-588 | a finished closer leaves a scope nobody else works on frozen, with all resources begun to close in order |
| `ScopeTeardown.FinishedAlone` | roboagent/runtime/execution.py:568-588 | a finished closer leaves its whole subtree frozen, with all resources begun to close in order, if no other closer was started above, at or below its target |
| `ScopeTeardown.NoDescendantAfterClose` | roboagent/runtime/execution.py:620-640 | from the moment a scope is shut its subtree never grows |
| `ScopeTeardown.FrozenForGood` | roboagent/runtime/execution.py:285-297 | a frozen scope stays frozen and takes no contribution, resource or settlement |
| `ScopeTeardown.SecondCloserOvertakes` | roboagent/runtime/execution.py:695-697 | a run in which a scope is frozen by a second closer while the first has a resource still to close |
| `ScopeTeardown.FreezingOrdered` | roboagent/runtime/execution.py:584-588 | freezing in the closing order never freezes a parent before a child |
| `BatchScheduler.Batch.Prepare` | roboagent/tool/executor.py:216-238 | every call is prepared before any runs; a failing preparation closes every call scope |
| `BatchScheduler.Batch.Fill` | roboagent/tool/executor.py:259-267 | tasks start in call order while there is room, and never more at a time than allowed |
| `BatchScheduler.Batch.StartNext` | roboagent/tool/executor.py:259-267 | one more task, below the limit, that was not started before |
| `BatchScheduler.Batch.CancelTasks` | roboagent/tool/executor.py:317-341 | gathering keeps the effects of every task that returns or aborts all the same, and drops those of a task that ends cancelled |
| `BatchScheduler.Batch.HandleCancellation` | roboagent/tool/executor.py:305-310 | the outer handler carries the recorded effects and what gathering kept |
| `BatchScheduler.Batch.EndAborted` | roboagent/tool/executor.py:279-291 | an abort carries the recorded effects, those it raised, and what gathering kept |
| `BatchScheduler.Batch.EndCancelled` | roboagent/tool/executor.py:292-310 | a task's own cancellation is caught a second time and carries only what had returned before |
| `BatchScheduler.Batch.SettleTask` | roboagent/tool/executor.py:275-303 | one finished task is recorded at its place or ends the batch |
| `BatchScheduler.Batch.RunTasks` | roboagent/tool/executor.py:269-315 | the loop of waits ends with every task settled, or with everything closed |
| `BatchScheduler.Batch.Execute` | roboagent/tool/executor.py:216-315 | never more tasks at a time than allowed, each started once in call order; results and effects in call order on return; every call scope closed; every failing exit carries exactly what had returned, what the failing task raised unless it was cancelled, and what gathering kept, which is all exactly under the stated condition, and always all if the batch cannot lose |
| `BatchScheduler.CancelledBatchIsComplete` | roboagent/tool/executor.py:292-310 | for given final phases: the returned effects are all the started ones exactly when the failing and the gathered tasks had none |
| `BatchScheduler.CarriedIsComplete` | roboagent/tool/executor.py:276-310 | an exit carries everything exactly when no gathered task was cancelled with effects; after a task's own cancellation, exactly when neither it nor a gathered task had any |
| `BatchScheduler.GatheringDrops` | roboagent/tool/executor.py:325-329 | gathering drops something exactly when it meets a cancelled task with effects |
| `BatchScheduler.NothingLost` | roboagent/tool/executor.py:276-310 | a batch that cannot lose, by its calls and its bound alone, loses nothing whichever way it ends |
| `BatchScheduler.OutstandingLoses` | roboagent/tool/executor.py:259-310 | two calls under way together, one cancelled and one with effects, mean that the batch can lose |
| `BatchScheduler.Batch.Lose` | roboagent/tool/executor.py:259-310 | whenever the batch can lose there is a run in which it does |
| `BatchScheduler.Batch.Round` | roboagent/tool/executor.py:271-304 | one wait: finished tasks are settled and others take their places, or everything ends and is closed |
| `BatchScheduler.LoneCancelledTask` | roboagent/tool/executor.py:292-310 | one task that is cancelled with an effect: the exit carries none, however it comes about |
| `BatchScheduler.AbortForgetsGathered` | roboagent/tool/executor.py:276-341 | one task aborts while another is cancelled with an effect: the exit carries none |
| `BatchScheduler.ExecuteInTurn` | roboagent/tool/executor.py:187-213 | run one by one, every ending carries the effects of every task that ran and closes every call scope, in order |
| `BatchScheduler.StartedByPhase` | roboagent/tool/executor.py:317-341 | the effects of the started tasks are spread over running, returned, failing and gathered ones |
| `PatchSettlement.Disk.Restore` | roboagent/tool/apply_patch.py:672-685 | a restore fails before the target is replaced or after it, and touches nothing else |
| `PatchSettlement.PatchSettlement.CommitOne` | roboagent/tool/apply_patch.py:553-566 | one plan is committed whole or not at all, save an add whose staged name cannot be removed |
| `PatchSettlement.PatchSettlement.Commit` | roboagent/tool/apply_patch.py:553-566 | the first plans hold their new content, the rest what they held before; on success no staged file is left |
| `PatchSettlement.PatchSettlement.TryRollBack` | roboagent/tool/apply_patch.py:588-618 | a target is only touched while it holds what the patch put there |
| `PatchSettlement.PatchSettlement.RollBackOne` | roboagent/tool/apply_patch.py:586-632 | whatever others did to the target, the recorded state is true of it |
| `PatchSettlement.PatchSettlement.RollBack` | roboagent/tool/apply_patch.py:586-632 | every state is true, every plan has one, and what was settled before is not touched again |
| `PatchSettlement.PatchSettlement.CleanupStaged` | roboagent/tool/apply_patch.py:634-638 | staged files are removed up to the first error; no target changes |
| `PatchSettlement.PatchSettlement.Settle` | roboagent/tool/apply_patch.py:568-572 | a failed commit is rolled back; after a full one nothing happens |
| `PatchSettlement.PatchSettlement.ForceSettle` | roboagent/tool/apply_patch.py:574-578 | rolls back again, keeping what is settled |
| `PatchSettlement.PatchSettlement.Drive` | roboagent/runtime/execution.py:1080-1100 | the driver, with either step timed out before it began or when it was done, converges only with nothing open; an open target, or no rollback without convergence, always leaves a retry blocker |
| `PatchSettlement.PatchSettlement.SettleInTime` | roboagent/runtime/execution.py:1080-1084 | a settlement timed out before it began changes nothing; a full commit is left as it is |
| `PatchSettlement.PatchSettlement.ForceInTime` | roboagent/runtime/execution.py:1085-1097 | forcing takes back what is committed, a full commit included |
| `PatchSettlement.PatchSettlement.FailureEffects` | roboagent/tool/apply_patch.py:640-669 | the reports are the targets that are not settled, in plan order |
| `PatchSettlement.PatchSettlement.Conclude` | roboagent/tool/apply_patch.py:135-184 | the outcome of the tool call for each way the settlement block is left |
| `PatchSettlement.SuccessMeansAfter` | roboagent/tool/apply_patch.py:152-160 | an outcome with success effects means every target holds its new content |
| `PatchSettlement.NoEffectMeansBefore` | roboagent/tool/apply_patch.py:135-184 | an outcome without effects means every target holds its old bytes and mode exactly when no add was half made and, if no rollback came to run, nothing committed changed anything |
| `PatchSettlement.ReportsAreHonest` | roboagent/tool/apply_patch.py:640-669 | after a rollback the reports name exactly the targets left committed or unknown, each truly; every other target holds what it held, save the one half-made add |
| `PatchSettlement.ReportedAre` | roboagent/tool/apply_patch.py:640-669 | the reported targets are exactly the unsettled ones |
| `PatchSettlement.Apply` | roboagent/tool/apply_patch.py:124-184 | the whole call: nothing outside the targets changes, success means all, no effects means none under the stated condition, reports are honest, forced settlements of full commits included |
| `PatchSettlement.HalfMadeAddGoesUnreported` | roboagent/tool/apply_patch.py:557-558 | the state in which a file is added and the outcome reports no effect |
| `PatchSettlement.InterruptedDriverRollsNothingBack` | roboagent/runtime/execution.py:1064-1069 | the state in which a driver stopped before any rollback leaves a changed target and the outcome reports no effect |
| `PatchSyntax.ParsePatch` | roboagent/tool/apply_patch.py:205-262 | the one-pass parser computes the specified sections or the first error |
| `PatchSyntax.CutSections` | roboagent/tool/apply_patch.py:227-248 | the nested loops cut the lines into sections |
| `PatchSyntax.CollectBody` | roboagent/tool/apply_patch.py:242-248 | a body ends at the next header |
| `PatchSyntax.ParseAdd` | roboagent/tool/apply_patch.py:353-372 | the added lines are read as specified, the no-newline marker only after the last |
| `PatchSyntax.ParseHunks` | roboagent/tool/apply_patch.py:375-391 | the hunks are read as specified |
| `PatchSyntax.AddRoundTrip` | roboagent/tool/apply_patch.py:353-372 | every content is read back from the body written for it |
| `PatchSyntax.HunksRoundTrip` | roboagent/tool/apply_patch.py:375-391 | every list of non-empty hunks is read back from its body |
| `PatchSyntax.ParseUndoesPrint` | roboagent/tool/apply_patch.py:205-262 | printed sections are parsed back, with either line end, with or without a final one |
| `PatchSyntax.PrintUndoesParse` | roboagent/tool/apply_patch.py:205-262 | printing what was parsed gives the text itself, up to line ends |
| `PatchSyntax.PatchRoundTrip` | roboagent/tool/apply_patch.py:205-391 | any non-empty list of proper changes with distinct paths is understood as printed |
| `PatchSyntax.SectionSaysChange` | roboagent/tool/apply_patch.py:353-391 | the printed section of a change still says what the change says |
| `TextLines.SplitJoin` | roboagent/tool/apply_patch.py:217 | splitting undoes joining |
| `TextLines.JoinSplit` | roboagent/tool/apply_patch.py:217 | joining undoes splitting |
| `TextLines.NormalizeJoined` | roboagent/tool/apply_patch.py:208-210 | either line end is normalised to the same text |
| `PatchHunks.FileLines` | roboagent/tool/apply_patch.py:394-404 | splitting a file into lines loses no character, and every ending is told apart from the text |
| `PatchHunks.ApplyHunk` | roboagent/tool/apply_patch.py:410-438 | a hunk applies exactly when one start matches, and replaces exactly that window |
| `PatchHunks.Matches` | roboagent/tool/apply_patch.py:412-425 | all the starts at which the old side matches, and no others |
| `PatchHunks.ReplacementIs` | roboagent/tool/apply_patch.py:429-438 | every context line keeps its place and its own ending, every addition gets the file's line end, removed lines are gone |
| `PatchHunks.AppliedOutside` | roboagent/tool/apply_patch.py:438 | lines outside the window are untouched and the line count changes by additions less removals |
| `PatchHunks.NothingDemanded` | roboagent/tool/apply_patch.py:412-428 | a hunk without old lines applies exactly to the empty file |
| `PatchHunks.InverseUndoes` | roboagent/tool/apply_patch.py:410-438 | the inverse hunk matches what a hunk made and restores the texts |
| `PatchHunks.DominantNewline` | roboagent/tool/apply_patch.py:442-450 | the line end most lines have; on a tie the first |
| `PatchHunks.ApplyUpdate` | roboagent/tool/apply_patch.py:407-439 | the hunks are applied one after the other to the evolving lines; the first without a unique match is a conflict |
| `PatchHunks.CourseCounts` | roboagent/tool/apply_patch.py:407-439 | over all hunks the line count changes by all additions less all removals |
| `PatchHunks.OneCourse` | roboagent/tool/apply_patch.py:407-439 | file and hunks determine every start and every intermediate state |
| `ModelStream.CollectModelStream` | roboagent/model/client.py:371-525 | the consumer's loop computes the fold over the events, then the error of the stream, then the final checks |
| `ModelStream.Observe` | roboagent/model/client.py:379-480 | one round of the consumer's checks |
| `ModelStream.BeginCall` | roboagent/model/client.py:704-712 | a new call is refused exactly for a negative index or an empty name; otherwise it is announced once with the fragment's identity and name, and the consumer accepts it while identities are distinct |
| `ModelStream.NameCall` | roboagent/model/client.py:713-726 | refused exactly when it contradicts the name the call has; otherwise the call has that name and nothing is yielded |
| `ModelStream.AddPiece` | roboagent/model/client.py:727-733 | the piece is yielded and appended to the call's arguments |
| `ModelStream.OnFragment` | roboagent/model/client.py:703-733 | a fragment is refused exactly when it contradicts its call; otherwise its call has grown by it |
| `ModelStream.OnChoice` | roboagent/model/client.py:692-733 | finish, reasoning, text and fragments of a choice are taken over in this order, up to the first contradiction |
| `ModelStream.OnUsage` | roboagent/model/client.py:683-691 | counts are refused exactly when one is negative; otherwise they are yielded and become the latest |
| `ModelStream.TracksFragment` | roboagent/model/client.py:703-733 | after a fragment the calls are what all fragments so far amount to |
| `ModelStream.OnChunk` | roboagent/model/client.py:679-733 | a chunk is refused exactly when its signals do not fit what was said before; otherwise the producer holds exactly what all signals amount to, and the consumer is in step with it |
| `ModelStream.CompleteCalls` | roboagent/model/client.py:734-763 | succeeds exactly when every call is named, readable and under an identity of its own; the calls are completed in index order from their accumulated text |
| `ModelStream.EndStream` | roboagent/model/client.py:734-779 | finishes exactly when the calls can be completed and something was said or called; the response has the accumulated text, reasoning, calls, finish and usage |
| `ModelStream.StreamChunks` | roboagent/model/client.py:664-779 | the producer finishes exactly when what the provider said is consistent and complete; then the response says just that, the deltas are the provider's own, and the consumer objected to nothing and holds the response |
| `ProviderSignals.ConsistentSnoc` | roboagent/model/client.py:683-733 | signals are consistent as a whole exactly when each is admitted after those before it |
| `ProviderSignals.NewIsFine` | roboagent/model/client.py:703-726 | what the producer checks of a new fragment is that it agrees with its call as a whole |
| `ProviderSignals.ConsistentPrefix` | roboagent/model/client.py:679-733 | a faulty beginning is not mended by what follows |
| `ModelStream.OnlyCapabilitiesRefuse` | roboagent/model/client.py:497-525 | what is left to refuse are the declared capabilities; otherwise the response is returned under the caller's identity |
| `EventDelivery.Enqueue` | roboagent/runtime/event.py:189-212 | the oldest ordinary event makes room, and only when the queue is full |
| `EventDelivery.EnqueuedOk` | roboagent/runtime/event.py:189-212 | an event keeps a queue the latest block of the events meant for it |
| `EventDelivery.EndedOk` | roboagent/runtime/event.py:214-217 | the end mark finds its place free |
| `EventDelivery.TakenOk` | roboagent/runtime/event.py:80-89 | taking an item keeps delivered, queued and dropped adding up; the end mark comes last |
| `EventDelivery.Replay` | roboagent/runtime/event.py:155-170 | a replay keeps exactly the latest events that fit, and counts the rest as dropped |
| `EventDelivery.Emitter.Retain` | roboagent/runtime/event.py:176-187 | the history keeps the newest events |
| `EventDelivery.Emitter.Emit` | roboagent/runtime/event.py:122-153 | every open subscription gets the event, numbers strictly increase, nothing follows the terminal event but one end mark |
| `EventDelivery.Emitter.Subscribe` | roboagent/runtime/event.py:155-170 | a subscription starts with the latest history; after the end it gets the terminal event and the end mark |
| `EventDelivery.Emitter.Get` | roboagent/runtime/event.py:80-89 | a reader takes the oldest item; the end mark only after everything else, once |
| `EventDelivery.Emitter.Close` | roboagent/runtime/event.py:219-223 | a closed subscription gets nothing more; a registered one is emptied, a late one keeps its queue |
| `PythonFence.ParsePythonFence` | examples/coding/protocol.py:68-126 | the nested loops compute the specified result, errors included |
| `PythonFence.FindClose` | examples/coding/protocol.py:98-105 | the inner loop stops at the first closing line |
| `PythonFence.AcceptedTextIsWhole` | examples/coding/protocol.py:117-126 | for an accepted text prefix, fence lines, code and suffix make up the text, and prefix and suffix are what is outside |
| `PythonFence.FenceRoundTrip` | examples/coding/model_adapter.py:369-372 | for every non-blank code, however many backticks it holds, the written fence is read back as one Python block with nothing outside |
| `PythonFence.ClosingIsShort` | examples/coding/model_adapter.py:369-372 | no line of the code can close a fence longer than its longest run of backticks |
| `TextLines.LinesJoin` | examples/coding/protocol.py:72 | splitting into lines loses nothing |

## Left out

- asyncio itself, wall clocks, deadlines and timeouts: a timeout or cancellation is an outcome that may occur at an await.
- Deleting a session: deleting and recreating an id allows revisions to be reused.
- SessionDurability.StepKeepsInvariant: one session id, which no handle deletes; a handle's mutations are any that append to the transcript and change the rest, as `SessionInput.Session.Perform` shows its operations to be.
- SessionInput.Session.Interleave: saving to the repository after each operation is in `SessionDurability`.
- Media-limit configuration beyond accept or reject, and starting Runs from a session; whether two metadata mappings compare equal is a parameter.
- SnapshotCodec.JsonRoundTrip: the text layer of JSON (`json.dumps`, `json.loads`, UTF-8) is taken as the identity on trees; a float is a real, so infinities and NaN do not occur. A container inside a scalar entry, which no encoder writes, is refused here and would be frozen by the code.
- SnapshotCodec.SnapshotRoundTrip: for the current schema version; the identities an older version is given on reading are a parameter.
- The file repository: locks, atomic replacement and fsync; and rewriting migrated snapshots.
- SHA-256, base64 and the regular-expression engine: injective functions and hand-written predicates stand for them.
- Compaction.PrepareContext: prompt rendering, token estimation and the summariser, with its own input check, are parameters.
- Compaction.PreparingAgainIsStable: for deterministic rendering and estimation, as the same request is prepared twice.
- WorldTrimming.PrepareWorld: tool schemas are taken to be valid ones; the text of the world segment and the default limits around the budget are not part of this model.
- ExecutionTree.Tree.Contribute: execution records, evidence, overflow counters and cleanup errors carried by a contribution.
- Deadlines of scopes: `cap_deadline` can lower a parent's later.
- One execution record per tool call: abort and policy-failure paths record twice.
- ScopeTeardown.RunKeepsInvariant: scopes are values in the state, and an error from a resource's close is a close that has begun.
- BatchScheduler.Batch.Execute: task failures are the batch errors and cancellation; other exceptions, and a second cancellation that arrives inside a handler, are not modelled.
- BatchScheduler.Batch.AwaitAny: tasks seen to finish together come in call order; its contract, on which everything else rests, allows any order.
- Policies, hooks, schema validation and argument preparation of a single call: preparing is one of four outcomes.
- ExecutionTree.Tree.FreezeSubtree: the outcome of a whole teardown at once; its waits, cleanups and interleavings are in `ScopeTeardown`.
- TurnLoop.RunBatch: a batch's teardowns proceed scope by scope among the other steps, and what is left of them at a normal return is done at once; effects are contributed under the identity of the contributing scope.
- TurnLoop.RunLoop: the model's answers, what tools contribute and whether a commit succeeds are free; context preparation and the wording of errors are not part of it.
- PatchSettlement.Apply: starts where the settlement block is entered and nobody else touches the targets; planning and its checks (existence, symbolic links, aliasing by inode, size limits), the refusals just before the block, and result texts are not modelled.
- PatchSettlement.PatchSettlement.RollBackOne: others do not change a target between its inspection and its replacement, and a temporary file left behind by a failed rollback is not counted as a target.
- PatchSyntax.ParsePatch: characters that UTF-8 cannot encode and the message texts.
- PatchHunks.ApplyUpdate: files are text; the refusal of files that are not UTF-8 happens in planning.
- ModelStream.StreamChunks: sending the request, rendering messages for the provider and closing the stream; an event that is not of a known type cannot be written down here.
- ModelStream.CollectModelStream: the caller's `on_event` callback, which only observes.
- EventDelivery.Emitter.Emit: payload, lineage and timestamp of an event; sinks besides subscriptions.
- PythonFence.ParsePythonFence: lower-casing is that of ASCII letters.
- The Python evaluator of the coding example, the chat interface, speech, command line, model registry, skills, the MCP adapter and the robotics examples.
