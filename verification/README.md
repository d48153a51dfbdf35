# Edera's DAG execution kernel in Dafny

A model of the parts of Edera that decide what a DAG run does, and proofs of what these parts promise.
Node execution and edge conditions are arbitrary functions; everything around them is modelled as the
code has it. Check the project with `dafny verify dfyconfig.toml`.

1. **Graphs.** `Graphs` defines walks, cycles and reachability. `Loader` builds the graph, `CycleCheck`
   and `Layers` are the two cycle tests, `Nesting` the static and the run-time limits on sub-DAGs,
   `Closure` the execution closure and its two-phase load, `Planning` the worklists of a retry. Each
   algorithm is measured against the one notion of walk.
2. **The scheduler.** `Jobs` has the tests and inputs that the runner derives from its tables.
   `Scheduler` is `DagRunner.run` as a state machine whose steps interleave in any order. `Reference`
   defines the outcome without any schedule, by recursion over the graph. `LocalView`, `Invariants`,
   `StreamItems` and `Safety` show what every step keeps; `Admission` which sources the start-up loop
   admits; `Confluence` when a run ends with the reference outcome; `Retry` when a partial run equals a
   full one, and `Refill`, `RefilledRetry` and `KeptNull` what the outputs that the controller rebuilds
   from its records make of it; `Permits` that permits are neither lost nor given back twice; `Progress`
   that runs end and skip nodes only for a reason; `StreamOnce` and `LostStream` what accumulating nodes
   receive, and `Results` what a run returns. `Traces` and `Runner` are the imperative code, a class over
   the runner's dictionaries, tied to the state machine.
3. **The semaphore.** `Semaphore` is the class, `SemaphoreProtocol` its callers in any interleaving.
4. **Triggers.** `Lexing`, `Parsing` and `Printing` are the expression language, `Evaluation` its meaning,
   `TriggerEngine`, `Quiescence` and `TriggerExecutor` the event set and what an emit does, `Waiting`
   the protocol of the wait nodes and `WaitNode` its code.
5. **Run control and permissions.** `RunControl` is the registry of active runs and its locks,
   `Permissions`, `EntityStore` and `NodeAccess` the field permissions of entities.

A graph is *barrier-only* when no node that has upstreams accumulates. A source may be marked so; then it
runs if the start-up loop admits it, and only then.

## What the code does not promise

These follow from the code and are stated as lemmas.

- A cancelled waiter of a semaphore can take a permit with it: one it had been granted, or one that came
  free before it unwound (`SemaphoreProtocol.CancelledAfterGrant`, `CancelledBeforeRelease`). The
  repository's own requirements for resources ask that a cancelled waiter holds no permit.
  `UnwindConservesExactly` gives the exact condition.
- An accumulating node that is fed by an accumulating node can be merged without its result
  (`LostStream.MergeLosesAccumulatedUpstream`); `StreamOnce.MergeMissesExactly` says exactly when, and
  `FirstUpstreamContributesOnce` which upstreams are safe.
- A success without payload that is filled in for a retry is not routed again, so a node that had run
  on it is skipped (`KeptNull.KeptNullIsSkipped`; `Retry.RetryEqualsFullRun` has the exact condition). What
  the controller fills in is worse: a success whose payload is empty comes back as a failure, and the node
  is blocked (`KeptNull.KeptNullBlocks`; `RefilledRetry.RefilledRetryIsExact` has the exact condition).
- A source in accumulate mode never runs if the sources before it take all free permits of its resource at
  the start, even when permits come free later (`Admission.RivalNeverRuns`; `StartAdmits` and
  `NotAdmittedNeverRuns` have the exact condition, and `Confluence.OutputsConfluent` what it means for runs).
- The static nesting check also counts references of looped nodes, which the runner never follows
  (`Nesting.LoopedSelfIsRefusedInVain`; `NestingCheckMatchesGuards` has the exact condition).
- With a copy of an entity made for the run, a field write can undo an earlier one
  (`NodeAccess.StaleCopyUndoesWrite`; `FieldWriteIsExact` has the exact condition).
- Firing a trigger does not clear the tokens of woken waiters (`Quiescence.WokenTokenStaysSet`), although
  the repository's requirements for events ask that, `startup` apart, every token of the expression that is
  set be cleared. `EmitStaysQuiet` says what follows from it.

## Model

| member | source | states |
|---|---|---|
| `CycleCheck.AssertAcyclic` | packages/core/src/edera_core/dag/loader.py:116-132 | the depth-first check raises exactly on graphs that have a cycle |
| `CycleCheck.CycleDetector.Visit` | packages/core/src/edera_core/dag/loader.py:120-129 | a visit that succeeds finishes every node it reaches; one that raises has met a node of its own path again, which is a cycle; nodes being visited are left as they were |
| `CycleCheck.FinishedMeansAcyclic` | packages/core/src/edera_core/dag/loader.py:116-132 | once every node has been visited without raising, the finishing order shows that no walk returns to its start |
| `CycleCheck.GreyAgainMeansCycle` | packages/core/src/edera_core/dag/loader.py:121-122 | meeting a node that is still being visited means that a walk leads from it back to it |
| `Layers.TopologicalLayers` | packages/core/src/edera_core/dag/loader.py:54-72 | it fails exactly on graphs with a cycle, as the depth-first check does; otherwise layer k holds, sorted and once each, exactly the nodes whose longest incoming walk has length k, also with repeated edges |
| `Layers.LayersOrderEdges` | packages/core/src/edera_core/dag/loader.py:54-72 | layers do not overlap and every edge leads to a strictly later layer |
| `Layers.LevelIsLongestWalk` | packages/core/src/edera_core/dag/loader.py:58-69 | the round in which the counters release a node is the length of the longest walk that leads to it |
| `Layers.StuckMeansCycle` | packages/core/src/edera_core/dag/loader.py:70-71 | nodes left over with no node ready contain a cycle |
| `Layers.ReleaseTargets` | packages/core/src/edera_core/dag/loader.py:62-67 | counting down the targets of a node takes off one per edge, repeated edges included, and makes ready exactly the targets that reach zero |
| `Graphs.AcyclicHasRank` | packages/core/src/edera_core/dag/loader.py:116-132 | a graph without a cycle can be numbered so that every edge goes up; recursion over the graph rests on it |
| `Graphs.NoSourceMeansCycle` | packages/core/src/edera_core/dag/loader.py:57-71 | a nonempty set of nodes that all have a predecessor in it contains a cycle |
| `Loader.LoadGraph` | packages/core/src/edera_core/dag/loader.py:14-51 | loading succeeds exactly when ids are distinct, node types are known, edges join known nodes, their types and roles fit, and no cycle arises; the graph returned has exactly the configured nodes, edges with their multiplicity in both directions, and flags, conditions and modes of the last edge between two nodes |
| `Loader.AddEdges` | packages/core/src/edera_core/dag/loader.py:28-49 | the edge loop stops at the first edge that fails a check, and otherwise has entered exactly the edges so far |
| `Loader.LinksMakeWellFormed` | packages/core/src/edera_core/dag/loader.py:22-50 | edges and reversed edges of a loaded graph mirror each other and stay inside the graph |
| `Nesting.ValidateSubDagNesting` | packages/core/src/edera_core/dag/loader.py:75-80 | every chain of references from the root names distinct DAGs and is no longer than the limit, exactly when the check accepts |
| `Nesting.AcceptedChainsWithinLimits` | packages/core/src/edera_core/dag/loader.py:135-154 | an accepted visit bounds every chain below the visited DAG, whatever nodes it goes through |
| `Nesting.RefusedChain` | packages/core/src/edera_core/dag/loader.py:135-154 | a refusal names a chain that repeats a DAG or exceeds the depth |
| `Nesting.RefsAgreeWhenResolved` | packages/core/src/edera_core/dag/loader.py:157-162 | the static check and the runner see the same DAG behind a node exactly when the reference of a loop-free node resolves or is absent, and when a looped node has none |
| `Nesting.DescendSucceeds` | packages/core/src/edera_core/dag/runner.py:755-781 | a sub-DAG call chain passes both run-time guards exactly when its names differ and its depth stays within the limit |
| `Nesting.GuardFiresExactly` | packages/core/src/edera_core/dag/runner.py:593-597 | where references resolve, a run-time guard can fire exactly if some chain of loop-free nodes repeats a DAG or goes too deep |
| `Nesting.NestingCheckMatchesGuards` | packages/core/src/edera_core/dag/loader.py:135-154 | what the static check accepts can never trip a run-time guard; what it refuses can, exactly if some chain that breaks a limit uses loop-free nodes only |
| `Nesting.LoopedSelfIsRefusedInVain` | packages/core/src/edera_core/dag/runner.py:593-597 | a DAG that refers to itself through a looped node is refused although no guard can fire |
| `Closure.BuildClosure` | packages/core/src/edera_core/snapshot.py:78-106 | closing succeeds exactly when every DAG and node type reachable from the root exists and no reachable DAG refers back to itself, and returns exactly the reachable DAGs and the node types they use |
| `Closure.ClosureBuilder.Visit` | packages/core/src/edera_core/snapshot.py:86-104 | one visit adds exactly what is reachable below its DAG, or stops at something missing or at a DAG on its own path |
| `Closure.LoadExecutionClosure` | packages/core/src/edera_core/dag_controller.py:1096-1121 | loading only what the root needs and closing that gives the same closure, and fails on the same roots, as closing the whole database |
| `Closure.ClosureLoader.Visit` | packages/core/src/edera_core/dag_controller.py:1100-1118 | the memoised visit loads everything reachable below a DAG, or stops at the first DAG that is missing |
| `Closure.PartClosesLikeWhole` | packages/core/src/edera_core/dag_controller.py:1096-1121 | a part of the database that holds all that is reachable closes to the same result as the whole |
| `Closure.SameReference` | packages/core/src/edera_core/snapshot.py:109-114 | an instance stands for the same sub-DAG in the loaded part as in the whole database |
| `Planning.DownstreamNodes` | packages/core/src/edera_core/dag_controller.py:1239-1248 | the worklist returns exactly the start node and everything it can reach |
| `Planning.DownstreamUnion` | packages/core/src/edera_core/dag_controller.py:1251-1255 | the plan of a cascade retry is the union of what its nodes reach, and is closed under the edges |
| `Planning.MissingPrefilledInputs` | packages/core/src/edera_core/dag_controller.py:1258-1269 | the list is empty exactly when every upstream of a retried node is retried, prefilled or allowed to be absent; otherwise it names, sorted and once each, the upstreams that are not |
| `Planning.SortedSet` | packages/core/src/edera_core/dag_controller.py:1269 | the sorted list of a set: its members, once each, in code-point order |
| `Jobs.ReadyBlockedOrUnrouted` | packages/core/src/edera_core/dag/runner.py:1002-1063 | once all upstreams have outputs a node is ready, or blocked by a required failure, and never both; it is neither only when a successful upstream did not route to it |
| `Jobs.BlockingMembers` | packages/core/src/edera_core/dag/runner.py:1049-1063 | the blocking upstreams are exactly those that failed, are required, and are not skippable sources |
| `Jobs.ReadyFromMeansAll` | packages/core/src/edera_core/dag/runner.py:1016-1025 | the loop of `_ready` lets a node run exactly if each upstream lets it |
| `Helpers.MergeAccountsForAll` | packages/core/src/edera_core/dag/_helpers.py:76-98 | the payloads of the successes in their order and nothing else; each failure with its text under its own key; success if any result did |
| `Helpers.Collect` | packages/core/src/edera_core/dag/_helpers.py:8-15 | lists are spliced into the result and other values, nulls included, appended, in order |
| `Helpers.FlattenAppends` | packages/core/src/edera_core/dag/_helpers.py:8-15 | collecting two lists one after the other is collecting them together |
| `Helpers.NatTextInjective` | packages/core/src/edera_core/dag/_helpers.py:78-90 | the decimal texts of different indices differ, so failures of different items are kept under different keys |
| `LocalView.ReadyMeansRuns` | packages/core/src/edera_core/dag/runner.py:1002-1025 | the code-level test on outputs and routed edges agrees with the schedule-free verdict that the node runs |
| `LocalView.BlockedMeansFails` | packages/core/src/edera_core/dag/runner.py:1027-1063 | the code-level test agrees with the schedule-free verdict that a required upstream failed |
| `LocalView.BlockedOutput` | packages/core/src/edera_core/dag/runner.py:411-430 | a node marked blocked gets the failure, with the error text of its failed upstreams in order, that the schedule-free evaluation gives it |
| `LocalView.ValuesAreFeeds` | packages/core/src/edera_core/dag/runner.py:891-914 | the lookup of an upstream payload cannot miss, and finds what that upstream put out |
| `LocalView.FanOutIsFeeds` | packages/core/src/edera_core/dag/runner.py:944-964 | the items of a fan-out are those of the successful upstreams that route over fan-out edges, in order |
| `LocalView.ExecutedOutput` | packages/core/src/edera_core/dag/runner.py:558-584 | whenever a task comes to read its input, it computes the output that the schedule-free evaluation gives its node |
| `Safety.StartIsSound` | packages/core/src/edera_core/dag/runner.py:119-151 | prefilled outputs and the start-up loop lead to a sound state |
| `Safety.StepSafe` | packages/core/src/edera_core/dag/runner.py:153-303 | every step of the main loop, in any order, keeps a state sound: a node is in at most one of running, queue and outputs; routed edges leave nodes with outputs; payloads match; failures are recorded for exactly the failed nodes; every running, queued or stored node has the result its upstreams call for |
| `Safety.RunSafe` | packages/core/src/edera_core/dag/runner.py:153-303 | so every state of every run is sound |
| `Safety.MergedNotStarted` | packages/core/src/edera_core/dag/runner.py:1246-1270 | the node that a merge stores an output for has not been dispatched |
| `Invariants.DispatchKeeps` | packages/core/src/edera_core/dag/runner.py:394-410 | a dispatched node has not been started before, and all its upstreams have outputs |
| `Invariants.StoreKeeps` | packages/core/src/edera_core/dag/runner.py:335-354 | storing an output routes exactly the edges that its conditions let through, or the optional ones of a failure, and disturbs no other node |
| `Invariants.PrefilledKeeps` | packages/core/src/edera_core/dag/runner.py:119-125 | the tables made of prefilled outputs are sound: a success with a payload is routed as if stored, and no failure is recorded for this run |
| `Confluence.OutputIsReference` | packages/core/src/edera_core/dag/runner.py:153-303 | an output that is stored at any time, on any schedule, is the one the schedule-free evaluation gives |
| `Confluence.ReferenceIsOutput` | packages/core/src/edera_core/dag/runner.py:1189-1225 | when the loop has ended, no node is missing that the schedule-free evaluation gives an output, once the accumulating sources were started |
| `Confluence.RegionIsReference` | packages/core/src/edera_core/dag/runner.py:153-303 | in a part of the graph that is closed under upstreams and barrier-only, whatever a run has stored at any time is what the recursive evaluation gives |
| `Admission.StartAdmits` | packages/core/src/edera_core/dag/runner.py:133-151 | the start-up loop starts a source exactly if it needs no permit or fewer earlier sources need one of its resource than are free |
| `Admission.NotAdmittedNeverRuns` | packages/core/src/edera_core/dag/runner.py:133-151 | an accumulating source that is not admitted there never gets an output, whatever comes free later, although the recursive evaluation gives it one |
| `Admission.RivalNeverRuns` | packages/core/src/edera_core/dag/runner.py:133-151 | two accumulating sources that share one permit: in no run does the second one run |
| `Confluence.RegionConfluence` | packages/core/src/edera_core/dag/runner.py:153-303 | in such a part every run that ends, whatever the order of completion and the permits, has exactly the outputs of the recursive evaluation, if and only if the start-up loop admits its accumulating sources |
| `Confluence.OutputsConfluent` | packages/core/src/edera_core/dag/runner.py:153-303 | on a barrier-only graph a run that ends has the outputs of the recursive evaluation if and only if the start-up loop admits every accumulating source |
| `Confluence.RunsReturnReferenceResult` | packages/core/src/edera_core/dag/runner.py:319-333 | and, under the same condition and no other, it returns the same outputs, failures and last payload, or refuses alike when all sources failed |
| `Results.EveryNodeLeadsToSink` | packages/core/src/edera_core/dag/runner.py:1380-1386 | every node of a graph without a cycle leads to a sink, so there are sinks to take the payload of the run from |
| `Results.LastPayloadIsSinks` | packages/core/src/edera_core/dag/runner.py:1380-1386 | the payload of a run is that of its only sink, or the list of the payloads of its sinks in node order |
| `Retry.RetryEqualsFullRun` | packages/core/src/edera_core/dag/runner.py:119-151 | retrying any nonempty set of nodes with the rest filled in from a full run gives every node what the full run gave it, if and only if no retried node had run on a success without payload that is now filled in |
| `Retry.RetriedRunEndsLikeFullRun` | packages/core/src/edera_core/dag/runner.py:119-151 | with the outputs of the full run filled in, a retry that ends, on any schedule, has the outputs of that run, if and only if its accumulating sources are admitted and no retried node had run on a success without payload that is now filled in |
| `Retry.KeptNullBreaksRetry` | packages/core/src/edera_core/dag/runner.py:123-125 | a filled-in success without payload is not routed, so a retried node that had run on it is skipped |
| `KeptNull.KeptNullIsSkipped` | packages/core/src/edera_core/dag/runner.py:123-125 | a concrete job in which this happens |
| `Refill.PrefilledOutputs` | packages/core/src/edera_core/dag_controller.py:799-829 | what is filled in: for every kept node of the graph its recorded payloads, or else a failure made of the first fact recorded about it |
| `Refill.GroupPayloads` | packages/core/src/edera_core/dag_controller.py:812-817 | the recorded payloads of every kept node of the graph, in order |
| `Refill.FillIsRefill` | packages/core/src/edera_core/node/executor.py:249-267 | after a run whose nodes are each executed once, a success comes back as it was if its payload is not empty; a success with an empty payload and a failure come back as failures, if somebody had read them; nothing else comes back |
| `Refill.AssignmentDecides` | packages/core/src/edera_core/dag/runner.py:558-584 | a node that is given the same inputs, or the same failures to report, comes out the same |
| `RefilledRetry.NodeUndisturbed` | packages/core/src/edera_core/dag/runner.py:1002-1063 | where its retried upstreams come out the same, a retried node is given the same to do exactly if it is undisturbed |
| `RefilledRetry.RefilledRetryIsExact` | packages/core/src/edera_core/dag_controller.py:405-470 | on what the controller fills in, every retried node is given the same inputs or failures as in the full run if and only if no node that ran did so on a kept success with an empty payload, none that was blocked gets other failures or texts, and none that was skipped is now run or blocked |
| `RefilledRetry.UndisturbedRunEndsLikeFullRun` | packages/core/src/edera_core/dag_controller.py:405-470 | then a retry that ends, on any schedule, has for every retried node what the full run had |
| `KeptNull.KeptNullBlocks` | packages/core/src/edera_core/dag_controller.py:821-828 | a concrete job whose retried node, which had run on a success without payload, is now blocked by it |
| `KeptNull.SilentFill` | packages/core/src/edera_core/dag_controller.py:799-829 | and this is what the records of that run are turned into |
| `Permits.StepBalanced` | packages/core/src/edera_core/dag/runner.py:1323-1349 | no step of the run changes how many permits of a resource are free or held by it |
| `Permits.StepLedger` | packages/core/src/edera_core/dag/runner.py:1323-1349 | `acquired` holds exactly the permits due: one for each running or queued node that has a resource and no loop, and one for each stream item under way |
| `Permits.RunReturnsPermits` | packages/core/src/edera_core/dag/runner.py:304-317 | the ledger is exact in every state of every run; when the loop has ended it is empty and every permit the run took is free again |
| `Permits.ReleaseAllEmpties` | packages/core/src/edera_core/dag/runner.py:1347-1349 | after an exception every permit of the run is free, and a stream item that finishes later releases nothing twice |
| `Progress.StepWork` | packages/core/src/edera_core/dag/runner.py:394-433 | on a barrier-only graph every start, completion and block leaves strictly less to do |
| `Progress.RunsAreBounded` | packages/core/src/edera_core/dag/runner.py:153-303 | so a run takes at most five steps for each node |
| `Progress.SomethingToDo` | packages/core/src/edera_core/dag/runner.py:153-191 | while the loop goes on, some step of the run is possible, at the latest once permits are free |
| `Progress.CanBeEnded` | packages/core/src/edera_core/dag/runner.py:153-303 | from every sound state some schedule leads to the end of the loop |
| `Progress.OutcomeIsReached` | packages/core/src/edera_core/dag/runner.py:153-303 | some run of a barrier-only graph ends, whatever the permits, and it has the outputs of the recursive evaluation exactly if the accumulating sources are admitted |
| `Progress.SkipIsJustified` | packages/core/src/edera_core/dag/runner.py:1189-1225 | at the end an allowed node without output has an upstream without output, or a successful upstream that did not route to it, or is an accumulating source that was passed over at the start |
| `Progress.UnconditionalRunCovers` | packages/core/src/edera_core/dag/runner.py:1189-1225 | a full run of a barrier-only graph without conditions gives every node an output, once its accumulating sources were started |
| `Progress.DispatchedOnce` | packages/core/src/edera_core/dag/runner.py:394-433 | no run dispatches a node twice, or dispatches it and also marks it blocked |
| `Traces.StartReadyMakesProgress` | packages/core/src/edera_core/dag/runner.py:160-191 | when the loop goes on with nothing running and no stop, and the permits are free, `_start_ready_nodes` starts or blocks some node |
| `Traces.StartReadyLeads` | packages/core/src/edera_core/dag/runner.py:378-433 | one call of `_start_ready_nodes` is a sequence of scheduler steps |
| `StreamOnce.StreamEdgeRunsOnce` | packages/core/src/edera_core/dag/runner.py:454-493 | the stream item of an edge is executed at most once in a run |
| `StreamOnce.MergeCoversScanned` | packages/core/src/edera_core/dag/runner.py:1246-1270 | a merge without a resource happens after all upstreams have outputs, and has exactly one result of each routed upstream whose output has been scanned |
| `StreamOnce.MergeMissesExactly` | packages/core/src/edera_core/dag/runner.py:454-493 | in a run that is not stopped, a merge misses a successful routed upstream exactly when their edge is not in `accumulated_edges`, which happens only to an accumulating upstream merged since the last scan |
| `StreamOnce.FirstUpstreamContributesOnce` | packages/core/src/edera_core/dag/runner.py:454-493 | in a full run no merge misses a routed upstream from which all other upstreams of the node are reached |
| `StreamOnce.PlainUpstreamsContributeOnce` | packages/core/src/edera_core/dag/runner.py:454-493 | where no upstream accumulates, every successful routed upstream contributes exactly one result |
| `LostStream.MergeLosesAccumulatedUpstream` | packages/core/src/edera_core/dag/runner.py:1246-1270 | a concrete run in which an accumulating node is merged without the result of its accumulating upstream |
| `StreamItems.ScanKeeps` | packages/core/src/edera_core/dag/runner.py:454-493 | after a scan every routed edge from a node with an output into a waiting accumulating node without a resource is accumulated and has its one item, which carries the payload of its upstream |
| `Runner.DagRun.Run` | packages/core/src/edera_core/dag/runner.py:92-333 | refuses exactly the cyclic graphs; otherwise the run follows the state machine, and when it has ended unstopped nothing is left to do, no permit is held, and on a barrier-only graph outputs and result are those of the recursive evaluation exactly if the accumulating sources are admitted |
| `Runner.DagRun.Prefill` | packages/core/src/edera_core/dag/runner.py:119-132 | the tables hold exactly the prefilled nodes of the graph, with payload and routes for the successes that have a payload |
| `Runner.DagRun.StartSources` | packages/core/src/edera_core/dag/runner.py:132-151 | the start-up loop dispatches, in order, the allowed sources whose permit is free |
| `Runner.DagRun.StartReadyNodes` | packages/core/src/edera_core/dag/runner.py:378-433 | the new state after a pass over the nodes, each dispatched, blocked or left alone on the state the earlier ones left |
| `Runner.DagRun.StoreOutput` | packages/core/src/edera_core/dag/runner.py:335-354 | an output stored, its permit given back, and its edges routed |
| `Runner.DagRun.AcquireResource` | packages/core/src/edera_core/dag/runner.py:1323-1335 | takes a permit and enters it in the ledger, or changes nothing |
| `Runner.DagRun.ReleaseResource` | packages/core/src/edera_core/dag/runner.py:1342-1345 | gives back the permit of the key, if it holds one |
| `Runner.DagRun.ReleaseEverything` | packages/core/src/edera_core/dag/runner.py:1347-1349 | the ledger is empty and every resource has back what the run held of it |
| `Runner.DagRun.LaunchStreams` | packages/core/src/edera_core/dag/runner.py:454-482 | the items launched by a scan of all accumulating nodes and their upstreams |
| `Runner.DagRun.CompleteAccumulateTasks` | packages/core/src/edera_core/dag/runner.py:1233-1271 | merges complete nodes as the state machine may, and leaves none complete when it reports nothing |
| `Runner.DagRun.DrainQueue` | packages/core/src/edera_core/dag/runner.py:233-285 | stores every completed node, each followed by its stream items and the nodes it makes ready, and ends with an empty queue |
| `Semaphore.ResourceSemaphore.AcquireNowait` | packages/core/src/edera_core/dag/resources.py:21-25 | takes a permit exactly if one is free |
| `Semaphore.ResourceSemaphore.Acquire` | packages/core/src/edera_core/dag/resources.py:30-36 | takes a free permit at once, or joins the end of the queue with a new future |
| `Semaphore.ResourceSemaphore.Release` | packages/core/src/edera_core/dag/resources.py:47-50 | gives the permit to the first live waiter, dropping the dead ones before it, or back to the free ones, and sets the released event |
| `Semaphore.ResourceSemaphore.WakeupNext` | packages/core/src/edera_core/dag/resources.py:52-58 | the queue loop equals the recursive wake-up |
| `Semaphore.ResourceSemaphore.OnCancelled` | packages/core/src/edera_core/dag/resources.py:37-45 | what the cancel branch does to count and queue |
| `SemaphoreProtocol.RunIsSafe` | packages/core/src/edera_core/dag/resources.py:21-58 | over all interleavings the count is never negative; free, held, granted and lost permits add up; nothing is lost without an unwinding cancelled caller; nobody waits while a permit is free |
| `SemaphoreProtocol.GrantsInOrder` | packages/core/src/edera_core/dag/resources.py:52-58 | first come, first served, over whole runs: while an older waiter still waits no younger one has been granted a permit |
| `SemaphoreProtocol.ReleaseWakesLongestWaiting` | packages/core/src/edera_core/dag/resources.py:47-58 | a release with somebody waiting wakes exactly the longest-waiting future and leaves the count at zero |
| `SemaphoreProtocol.FastPathOvertakesNobody` | packages/core/src/edera_core/dag/resources.py:21-33 | a caller that takes a permit without waiting overtakes no waiter |
| `SemaphoreProtocol.WakeUpFirst` | packages/core/src/edera_core/dag/resources.py:52-58 | exactly the first live waiter is woken |
| `SemaphoreProtocol.UnwindConservesExactly` | packages/core/src/edera_core/dag/resources.py:39-45 | a cancelled caller leaves all permits in use exactly if it had not been granted one and none is free |
| `SemaphoreProtocol.CancelledAfterGrant` | packages/core/src/edera_core/dag/resources.py:39-45 | a caller cancelled between grant and resumption loses the only permit |
| `SemaphoreProtocol.CancelledBeforeRelease` | packages/core/src/edera_core/dag/resources.py:39-45 | a caller cancelled while waiting loses a permit that comes free before it unwinds |
| `SemaphoreProtocol.ThrownLeavesQueue` | packages/core/src/edera_core/dag/resources.py:39-41 | a caller stopped while its future is pending leaves the queue, and no permit, holder or other waiter is touched |
| `SemaphoreProtocol.AllLostBlocksForever` | packages/core/src/edera_core/dag/resources.py:21-58 | once all permits are lost nobody ever holds one again |
| `Lexing.Lex` | packages/core/src/edera_core/trigger.py:462-500 | the lexer loops compute the lexemes of the text, or its first error, or refuse a blank text |
| `Lexing.ScanWord` | packages/core/src/edera_core/trigger.py:475-489 | where a word ends, quoted parts included, or that a quote stays open |
| `Lexing.LexInside` | packages/core/src/edera_core/trigger.py:462-500 | what comes before a position does not influence the lexemes after it |
| `Lexing.LexedWordsAreLexable` | packages/core/src/edera_core/trigger.py:475-497 | every token the lexer yields is a text that it accepts as one token on its own |
| `Parsing.ParserDecidesGrammar` | packages/core/src/edera_core/trigger.py:413-459 | the parser accepts exactly the lexeme sequences of the precedence grammar, with all lexemes consumed, and returns the one expression they form |
| `Parsing.Parser.ParseOr` | packages/core/src/edera_core/trigger.py:424-428 | the rule reads a maximal left-associative chain and leaves the parser behind it |
| `Parsing.Parser.ParseAnd` | packages/core/src/edera_core/trigger.py:430-434 | likewise for AND, which binds more tightly |
| `Parsing.Parser.ParsePrimary` | packages/core/src/edera_core/trigger.py:436-443 | a token, or a parenthesised expression with its closing parenthesis |
| `Parsing.Parser.ParseAll` | packages/core/src/edera_core/trigger.py:418-422 | lexemes left over are an error |
| `Parsing.ParseExpression` | packages/core/src/edera_core/trigger.py:44-46 | lexing and parsing a text |
| `Printing.RoundTrip` | packages/core/src/edera_core/trigger.py:413-500 | printing an expression with only the parentheses it needs, then lexing and parsing, gives the expression back exactly if its tokens are texts the lexer accepts |
| `Printing.PrintingNormalises` | packages/core/src/edera_core/trigger.py:413-500 | any text that parses may be replaced by the print of its expression |
| `Printing.PrintedIsShortest` | packages/core/src/edera_core/trigger.py:424-443 | no other way to write the expression has fewer lexemes, so no parentheses can be left out |
| `Printing.ParsedTokensAreLexable` | packages/core/src/edera_core/trigger.py:462-500 | the tokens of a parsed expression are texts the lexer accepts |
| `Evaluation.EvalIsMonotone` | packages/core/src/edera_core/trigger.py:399-404 | more events never make an expression false |
| `Evaluation.EvalOwnTokens` | packages/core/src/edera_core/trigger.py:399-404 | the value depends only on the tokens of the expression |
| `Evaluation.MatchedTokensDecide` | packages/core/src/edera_core/trigger.py:52-53 | the matched tokens alone satisfy an expression that is true |
| `Evaluation.FlippedByOwnToken` | packages/core/src/edera_core/trigger.py:399-404 | an event that makes an expression true is one of its tokens |
| `Evaluation.EvaluateExpression` | packages/core/src/edera_core/trigger.py:49-53 | a true expression has a nonempty set of active tokens of its own that makes it true |
| `Quiescence.IndexedExactlyOnce` | packages/core/src/edera_core/trigger.py:185-193 | a trigger is listed under each of its tokens exactly as often as it is configured and under no other token |
| `Quiescence.FlippedIsIndexed` | packages/core/src/edera_core/trigger.py:272-273 | a trigger that an event makes true is found under that event |
| `Quiescence.EmitSettles` | packages/core/src/edera_core/trigger.py:195-231 | after a successful emit an enabled trigger is true only if it was true before without the event, or is true on protected tokens alone |
| `Quiescence.EmitStaysQuiet` | packages/core/src/edera_core/trigger.py:195-231 | if no enabled trigger was true before a successful emit, none is after it, exactly if none is then true on `startup` and the tokens of woken waiters alone |
| `Quiescence.QuietIsForeseen` | packages/core/src/edera_core/trigger.py:195-231 | so it is if, before the emit, no enabled trigger is true on the tokens that `startup` and the waiters it will wake protect |
| `Quiescence.RunsStayQuiet` | packages/core/src/edera_core/trigger.py:195-231 | over any sequence of successful emits an engine stays quiet throughout exactly if no enabled trigger ever becomes true on protected tokens alone |
| `Quiescence.ForeseenRunsStayQuiet` | packages/core/src/edera_core/trigger.py:195-231 | so it does if each emit is foreseen to leave none so |
| `Quiescence.FiresExactlyWhenTrue` | packages/core/src/edera_core/trigger.py:217-231 | a successful emit fires nothing exactly if no enabled trigger it looks at is true, and then changes nothing further |
| `Quiescence.FiringIsExact` | packages/core/src/edera_core/trigger.py:225-228 | after a trigger has fired, exactly its own unprotected tokens and the event its target clears are no longer set |
| `Quiescence.OneshotIsDisabled` | packages/core/src/edera_core/trigger.py:229-230 | a trigger with a cron token for particular days is disabled once it has fired, and nothing else is |
| `Quiescence.ManualEventNamesTarget` | packages/core/src/edera_core/trigger.py:351-357 | a manual event is accepted exactly if what follows the prefix is a DAG target with a name or a node target with a slash, and fires that target |
| `Quiescence.HandleAllSettles` | packages/core/src/edera_core/trigger.py:217-231 | no trigger handled early becomes true again through those handled later |
| `Quiescence.EmitServes` | packages/core/src/edera_core/trigger.py:212-231 | whatever is emitted, and even if it fails, a registered waiter is not left pending with a true expression if it was not so before |
| `Quiescence.PlainEventServes` | packages/core/src/edera_core/trigger.py:212-213 | after setting an event no registered waiter at all is pending with a true expression |
| `Quiescence.WokenTokensSurvive` | packages/core/src/edera_core/trigger.py:228 | triggers never consume a token that a woken waiter holds; only a trigger whose target clears it can remove it |
| `Quiescence.WokenHoldsTrueTokens` | packages/core/src/edera_core/trigger.py:118-124 | a woken waiter gets the payload, and tokens that were set and make its expression true |
| `Quiescence.WokenTokenStaysSet` | packages/core/src/edera_core/trigger.py:228 | a concrete emit that fires a trigger and leaves its token set, because it also woke a waiter |
| `TriggerExecutor.Executor.EmitOne` | packages/core/src/edera_core/trigger.py:195-231 | the emit over the fields of the three classes does what the specification says, errors included, and overlooks no waiter |
| `TriggerExecutor.Executor.EmitPlain` | packages/core/src/edera_core/trigger.py:211-231 | set, wake, look up the index, and handle the affected triggers until one fails |
| `TriggerExecutor.Executor.HandleTrigger` | packages/core/src/edera_core/trigger.py:217-230 | one trigger: skipped, fired and consumed, disabled if it fires once only, or failing without having consumed anything |
| `TriggerExecutor.Executor.ReverseIndex` | packages/core/src/edera_core/trigger.py:185-193 | under every token exactly the triggers that mention it, in order; or the first malformed condition |
| `TriggerExecutor.Executor.DisableTrigger` | packages/core/src/edera_core/trigger.py:320-324 | the trigger with that id, and no other, is disabled |
| `TriggerExecutor.EventGroup.ConsumeAll` | packages/core/src/edera_core/trigger.py:91-95 | all the given events except `startup` are cleared |
| `TriggerExecutor.EventGroup.Set` | packages/core/src/edera_core/trigger.py:68-71 | a blank event is an error and changes nothing |
| `TriggerExecutor.WaitRegistry.Ready` | packages/core/src/edera_core/trigger.py:118-124 | every pending waiter whose expression is true is woken with its matched tokens, the others are left alone |
| `TriggerExecutor.WaitRegistry.UnregisterWaiter` | packages/core/src/edera_core/trigger.py:114-116 | the waiters of other futures stay, in order |
| `Waiting.NoWakeUpIsLost` | packages/core/src/edera_core/node/executor.py:191-228 | over all interleavings with emits and other wait nodes: whenever a suspended node's expression is true, its future already has its result |
| `Waiting.PassesRightly` | packages/core/src/edera_core/node/executor.py:191-228 | a wait node passes only with tokens that make its expression true, and afterwards they are cleared, or nothing is, as configured |
| `Waiting.OtherEventsDoNotWake` | packages/core/src/edera_core/node/executor.py:207-219 | an event that is none of a suspended node's tokens does not wake it |
| `Waiting.StepKeeps` | packages/core/src/edera_core/node/executor.py:191-228 | check, registration, second check, wake-up, timeout, stop and consumption by one node leave the registration and wake-up of all others intact |
| `Waiting.EmitOnFuture` | packages/core/src/edera_core/trigger.py:118-124 | an emit leaves a future as it was, or wakes it with the emitted payload and tokens that satisfy a waiter registered for it |
| `WaitNode.WaitRun.ReadPayload` | packages/core/src/edera_core/trigger.py:242-248 | nothing while the expression is false; otherwise the newest payload among the matched tokens, found from the end of the records, and these tokens |
| `WaitNode.WaitRun.Begin` | packages/core/src/edera_core/node/executor.py:191-200 | the stretch up to the registration is the protocol step that passes at once or registers |
| `WaitNode.WaitRun.LookAgain` | packages/core/src/edera_core/node/executor.py:202-208 | the second look is the protocol step that passes or suspends |
| `WaitNode.WaitRun.GiveUp` | packages/core/src/edera_core/node/executor.py:212-219 | timeout and stop cancel the future and unregister it, and consume nothing |
| `WaitNode.WaitRun.Conclude` | packages/core/src/edera_core/node/executor.py:222-228 | the end is the protocol step that consumes if asked to and unregisters, and it returns the payload that was found |
| `Waiting.LatestPayload` | packages/core/src/edera_core/trigger.py:302-308 | the payload of the most recent record among the tokens |
| `RunControl.OneActiveRun` | packages/core/src/edera_core/dag_controller.py:179-221 | over all interleavings of start, run_now, node trigger, retry and resume with finishing tasks and late callbacks, a DAG has at most one unfinished task and `active_runs` names it with its run id |
| `RunControl.RefusedExactlyWhileRunning` | packages/core/src/edera_core/dag_controller.py:589-591 | a start is refused exactly while a run of the DAG has not finished, and the refusal names that run |
| `RunControl.CallbackSparesSuccessor` | packages/core/src/edera_core/dag_controller.py:609-617 | a callback, for whichever task and however late, does not evict the context of an unfinished run |
| `RunControl.LookedStaysIdle` | packages/core/src/edera_core/dag_controller.py:420-463 | a retry or resume that looked for an active run and then waited under the lock launches while nothing else runs |
| `RunControl.StepKeeps` | packages/core/src/edera_core/dag_controller.py:319-355 | every step of every caller keeps the locks, the registry and the looks in agreement |
| `RunControl.RunRegistry.StartRunLocked` | packages/core/src/edera_core/dag_controller.py:580-607 | launches and registers a task, or refuses with the id of the run that is going on and changes nothing |
| `RunControl.RunRegistry.ClearFinishedTask` | packages/core/src/edera_core/dag_controller.py:609-617 | removes the context only if it is that of the given task and the task is done |
| `Permissions.FieldPermission` | packages/core/src/edera_core/config/entities.py:517-530 | the permission of a field, its dotted ancestors and an override taken together |
| `Permissions.LongestDeclaredDecides` | packages/core/src/edera_core/config/entities.py:522-528 | the longest declared ancestor of a dotted name decides, and without one everything is allowed |
| `Permissions.ChildInherits` | packages/core/src/edera_core/config/entities.py:522-528 | a nested field without a declaration of its own has the permission of its parent |
| `Permissions.ValidatePermissionOverrides` | packages/core/src/edera_core/config/entities.py:541-556 | accepts exactly the overrides of known types all of whose fields are acceptable; an error names a real offence |
| `Permissions.AcceptedExactlyWithoutDowngrade` | packages/core/src/edera_core/config/entities.py:25-30 | overrides are accepted exactly if they are permissions and take no capability to read or write away from any field |
| `EntityStore.WritableAttributes` | packages/core/src/edera_core/config/entities.py:421-442 | every field of the result is the submitted, the current or no value, as its permission says |
| `EntityStore.UnwritableFieldsStay` | packages/core/src/edera_core/config/entities.py:421-442 | a field that may not be written is never changed by a save |
| `EntityStore.SavingIsIdempotent` | packages/core/src/edera_core/config/entities.py:421-442 | saving the same thing twice is saving it once |
| `EntityStore.UnmodifiedSaveChangesNothing` | packages/core/src/edera_core/node/models.py:35-51 | saving what was read, unreadable fields stripped, changes nothing exactly if what was read agrees with what is stored on the fields that can be read and written |
| `EntityStore.WriteChangesOneField` | packages/core/src/edera_core/node/models.py:72-86 | a field write changes that field and no other exactly if what was read agrees with what is stored on the other fields that can be read and written |
| `NodeAccess.NodeContext.GetEntity` | packages/core/src/edera_core/node/models.py:35-46 | the resolved entity with exactly its readable fields, or the error |
| `NodeAccess.NodeContext.Save` | packages/core/src/edera_core/config/entities.py:332-372 | the save over the three tiers: refused with the reason and no change, or stored in the tier that holds the id |
| `NodeAccess.NodeContext.WriteEntityField` | packages/core/src/edera_core/node/models.py:72-86 | reports whether the field was written, and leaves the store alone if not |
| `NodeAccess.SaveChangesOneEntity` | packages/core/src/edera_core/config/entities.py:332-372 | a save changes the entity with that id and no other, in whichever tier it is |
| `NodeAccess.WriteBackChangesNothing` | packages/core/src/edera_core/node/models.py:35-51 | saving an unmodified `get_entity` result leaves everything stored as it was, where no copy was made for the run |
| `NodeAccess.FieldWriteIsExact` | packages/core/src/edera_core/node/models.py:72-86 | a successful field write stores exactly that field of exactly that entity if and only if what was read agrees with what is stored; without a copy for the run it always does |
| `NodeAccess.SaveRespectsPermissions` | packages/core/src/edera_core/config/entities.py:332-372 | no save through a node's permissions touches a field it may not write |
| `NodeAccess.StaleCopyUndoesWrite` | packages/core/src/edera_core/config/entities.py:63-72 | with a copy made for the run, the second of two field writes undoes the first |
| `NodeAccess.FirstMatch` | packages/core/src/edera_core/config/entities.py:63-72 | the entity found is the one a save by its id would find |

## Left out

- Handlers, agents, sessions, sub-DAG execution, loops, fallbacks, and node types that are themselves DAG
  configurations: a node's execution is an arbitrary total function of its slot and input; exceptions from it
  end in `ReleaseEverything`, and are not part of `Run`.
- `metadata["warnings"]`, recorders, events on the bus and everything stored in the database: the warnings list
  depends on the order of execution, the rest does not influence a run.
- Error texts of configuration errors, path strings in nesting errors, and the order in which a dictionary is
  iterated where only the choice among several errors depends on it; the memoised loader may report another of
  several errors than closing the whole database would.
- Maximum depths below one: the configuration schema does not allow them.
- Scheduler.Apply: dispatching a node takes its permit and creates its task in one step, although the code
  awaits a recorder in between, under the same coroutine.
- Scheduler.ExecuteNode: a task reads its input and finishes in one step; reading earlier gives the same input,
  because the outputs of its upstreams no longer change.
- Runner.DagRun.Run: an exception in a task, a stop in the middle of `_start_ready_nodes`, and the waiting for a
  resource to be released are not part of it; the deliveries stand for whatever the event loop does. The steps of
  the state machine also allow a dispatch after a stop.
- Ledger keys are a node, or a node and an upstream; that the text of a stream key could equal a node id is not
  modelled.
- Accumulating nodes: no claim that they are merged at all; the code retries stream items only after a later
  success.
- `_prefilled_outputs`: the database query and its limit of 10000 records. `Refill.FillIsRefill` describes what is
  recorded of a run whose nodes each record at most one payload; fan-outs, loops and sub-DAGs, which record
  several, are not compared with their retry. That a retry is refused when an upstream is not filled in at all is
  `Planning.MissingPrefilledInputs`.
- Permits.ReleaseAllEmpties: the cancelling and gathering of the running tasks before the release.
- Semaphore.ResourceSemaphore: the registry of semaphores by resource id; futures are numbers, so that two
  semaphores sharing a future cannot be expressed.
- Lexing: characters outside Unicode scalar values; whether a quoted part is valid JSON is a parameter.
- Cron matching and the emitter's clock; the persisted event bits and records; sources recorded with a run.
- TriggerExecutor.Executor.EmitOne: an emit is atomic. Starting a DAG or a node does not emit in turn, and the
  awaits on the database between setting an event and waking waiters are not modelled.
- Waiting.NoWakeUpIsLost: emits are atomic here too, so the time between setting an event and waking the waiters is
  not covered.
- WaitNode.WaitRun.ReadPayload: records in memory only, as for the next one.
- Waiting.LatestPayload: records in memory only; the payload of an older event would come from the database.
- RunControl: what a run does, waiting for an idle DAG, stopping, and the lock's queue of waiters.
- EntityStore and NodeAccess: relations, queries, creation and deletion; a returned entity is a value, so that
  changing it in place after a save is not captured.
