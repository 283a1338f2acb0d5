# The Harness authority kernel, modelled and proved in Dafny

The Harness daemon decides what an agent may do to a workspace and keeps the record of what it did. This
project models that part of the daemon and proves properties of it. `dafny verify dfyconfig.toml` checks
everything.

**The closed loop** (`ClosedLoop`, `LoopEffects`, `LoopStore`, `WorkScope`). A run moves through Context, Execute, Verify,
Recover and Learn. `ClosedLoop.Tx` lists the transactions that touch its rows, and a history is any sequence of
them, for any number of runs in one workspace. A tool call is at least two transactions, so calls overlap.
Where the daemon reads a row first and decides in a later transaction, the transaction carries the row it was
decided on, which may be any row at all. It is *fresh* when nothing moved in between, but the daemon does not
make sure of that, so no result takes it for granted. The class `HarnessStore` runs the daemon's functions step by
step; each of its driver methods is proved to be a fresh history when it runs alone, and to leave the rows it owes,
which `LoopEffects` tells by the columns before and after.

What stale decisions can do is divided by what they can harm, and each part has its exact condition on the row
that a decision meets. `LoopInvariants` has what holds in every history, and the learning ledger, which needs
decisions that are *harmless*; `LoopRaces` proves that condition exact. `LoopTraces` has the verification
discipline, which needs decisions that are *warranted*, and proves that exact for one transaction;
`LoopEscapes` proves it exact for what can follow. `LoopPlans` has the work shape and scope of a cycle, which
need plans that *fit*, and proves that exact for one transaction and for a whole cycle.

**Authority** (`Policies`, `Capability`, `Delegation`, `Registry`). The registry resolves under a profile, a run
delegates a narrowed snapshot, and a child's snapshot is recomputed from the live registry to tell whether it
is stale.

**Approvals and dispatch** (`Approvals`, `NativeApprovals`, `NativeOverlaps`, `Decision`, `Dispatch`,
`ToolPipeline`). One-shot approvals bound to an exact intent; the answers native callers get when their
statements interleave; and a state machine over every database write of a tool call, in which calls, answers,
expiry and crashes interleave freely. In it the choice of an approval and its consumption are apart, so another
call may come in between. `ToolPipeline.Pipeline` runs a whole call and is tied to that machine.

**Around it.** `Recovery` classifies an interrupted run over the states of `Dispatch` and files checkpoints.
`EventLog` is the per-run log with its writers and a paging reader. `Evaluation` is the deterministic evaluator
with its judge. `Lease`, `RateLimiter`, `Outbox` and `EnvFile` are four independent parts.

## What turned out not to hold

- A freshly delegated child is stale at once when its parent has a sandbox override: the child copies the
  override's top-level mark, and a refresh rebuilds the snapshot without it.
  `Delegation.FreshChildIsCurrentExactlyWhen` has the exact condition, `Delegation.OverrideEndsTheChain` the
  consequence.
- A mutation can get past the gates unverified: a cycle restarts as read-only while the mutating call is in flight
  (`LoopEscapes.ReadOnlyRestartIsSafeExactlyWhen`, `LoopEscapes.StaleTicketEscapes`); a native finish that saw a
  read-only cycle skips verification after a mutation has come in between, with no restart involved
  (`LoopEscapes.StaleSkipEscapes`); a Verify that read its row before a mutation, or before a restart, closes the
  cycle by the selection it read, or as read-only, while the proof that the row selects by now has not passed
  (`LoopEscapes.StaleVerifyEscapes`, `LoopEscapes.OlderSelectionCompletes`); or a completion or publication that
  saw a settled run goes through after a mutation has finished (`LoopEscapes.StaleGateEscapes`). `LoopTraces.StepKeepsHoldExactlyWhen` and
  `LoopEscapes.StepLetsEscapeExactlyWhen` have the exact condition for every transaction.
- "In flight" covers the calls of the tool pipeline only: a native execution begun before a restart into a read-only
  cycle and finished after it is skipped by a decision that is not even stale
  (`LoopEscapes.NativeAcrossRestartIsSkipped`).
- The proof that pays for a mutation may be older than the mutation, because rows of the proof table outlive later
  mutations of their cycle (`LoopEscapes.EarlierProofDischarges`).
- The shape of a cycle can fall, and its scope go wrong, when two calls begin on the same
  row: the one that writes later writes an old plan, and selects the proof that goes with it
  (`LoopPlans.OldPlanLowersShape`). `LoopPlans.PlanIsRightExactlyWhen` and `LoopPlans.CycleFoldsExactlyWhen` have
  the exact conditions.
- Recoveries can outgrow failures when two Verify calls read the loop row before either commits
  (`LoopRaces.RecoveriesOutgrowFailures`). `LoopRaces.StaleDecisionIsSafeExactlyWhen` has the exact condition.
- A recovery can be under way without a failure on record: a start that saw a failure open comes after the cycle was
  verified and restarted (`LoopRaces.RecoveryWithoutFailure`). `LoopInvariants.StepKeepsRecordExactlyWhen` and
  `LoopInvariants.RecoveriesStayOnRecordExactlyWhen` have the exact condition.
- One native intent can get two approval rows, and then two allows, when the statements of two calls overlap:
  both look before either inserts (`NativeOverlaps.OverlappingLookupsAllowTwice`), or a request is made and
  answered between another caller's look and its insertion (`NativeOverlaps.LateInsertionAllowsTwice`).
  `NativeApprovals.OneRowAndSettledExactlyWhen` has the exact condition.
- A reader that hands back the cursor of an empty page starts over.
  `EventLog.EmptyPageCursorContinuesExactlyWhen` has the exact condition.
- `delivered` is final because there is one worker, not because of a guard.
  `Outbox.LeftoverTicketKeepsDeliveredExactlyWhen` says what a second one does.
- The 300-second cap on the callback delay is never reached: `Outbox.DelaysInUse`.

## Conventions

Tables are maps and each transaction is one step. Ids that the daemon draws at random are parameters that must
be new. SHA-256 digests of arguments, snapshots and facts are taken to be injective, so the digested value
itself is compared. The clock is an integer that never runs backwards. What comes from outside (repository
discovery, proof catalogues, keyword classifiers, plugin policies, the Git head, network outcomes) is a
parameter.

## Model

| member | source | states |
|---|---|---|
| WorkScope.FoldShapeIsRankMaximum | src/harness_tool_pipeline.rs:545-572 | over any sequence of Execute requests the cycle's work shape is the maximum, by rank, of the shape it began with and the shapes the requests demand |
| WorkScope.ShapeIsOrderIndependent | src/harness_tool_pipeline.rs:556-572 | two request sequences with the same members give the same shape, whatever their order or repetitions |
| WorkScope.ComputeCommonScope | src/harness_tool_pipeline.rs:454-480 | the truncating loop computes the path of the longest common segment prefix of all paths, or none |
| WorkScope.CountShared | src/harness_tool_pipeline.rs:454-480 | the inner comparison finds the first segment at which two paths differ |
| WorkScope.CommonScopeSegments | src/harness_tool_pipeline.rs:454-480 | the segments of the common scope are exactly the longest common prefix of all paths; the root scope stands for an empty prefix |
| WorkScope.PartsCount | src/harness_tool_pipeline.rs:456-466 | empty parts and dots of a path say nothing, every other part is one of its segments |
| WorkScope.LcpIsGreatest | src/harness_tool_pipeline.rs:454-480 | every common prefix of two segment lists is a prefix of the one that is computed |
| WorkScope.SegmentsOfJoin | src/harness_tool_pipeline.rs:454-480 | splitting a joined scope gives its segments back, so scopes can be compared by segments |
| WorkScope.MergeScopeSegments | src/harness_tool_pipeline.rs:482-489 | merging two scopes yields the longest common prefix of their segments |
| WorkScope.FoldScopeIsGreatestCommonPrefix | src/harness_tool_pipeline.rs:454-489 | after any sequence of observations the scope is the greatest common segment prefix of the initial scope and every observed one, and absent exactly when there was none |
| WorkScope.ScopeIsOrderIndependent | src/harness_tool_pipeline.rs:482-489 | the segments of the resulting scope depend only on which scopes were observed, not on their order or repetition |
| WorkScope.StaleShapeIsRightExactlyWhen | src/harness_tool_pipeline.rs:556-600 | a shape planned on an older row is the one the current row calls for if and only if the rows have the same shape or the request outranks both |
| WorkScope.StaleScopeIsRightExactlyWhen | src/harness.rs:1413-1432 | a scope planned on an older row is the right one if and only if both rows share equally much of the call's path or, for a call without a path, the older row had no scope or the same one |
| LoopInvariants.StepKeepsConserved | src/harness.rs:1118-1727 | no transaction, however old the row it was decided on, breaks the agreement of a row's verification columns or the count of confirmations |
| LoopInvariants.ReachableIsConserved | src/harness.rs:1118-1727 | so both hold after every history |
| LoopInvariants.LoopRowsAgree | src/harness.rs:1217-1727 | in every loop row any history reaches, a required verification is pending or failed, and the learn phase means not required and passed |
| LoopInvariants.ConfirmationsAreConserved | src/harness.rs:1163-1197 | after every history and for every key, confirmations equal the exposures that ended as passed |
| LoopInvariants.ExposuresOnlyMoveForward | src/harness.rs:1118-1197 | an exposure moves pending to exercised to passed, or from either of the first two to failed, and is never removed |
| LoopInvariants.SettledExposureStays | src/harness.rs:1118-1197 | an exposure that passed or failed keeps that outcome for ever, so it counts once |
| LoopInvariants.StepKeepsBalanced | src/harness.rs:1118-1727 | a transaction that is harmless - its start still finds unresolved what it saw unresolved, its Verify still finds open what it closes - keeps every ledger covered |
| LoopInvariants.ReachableIsBalanced | src/harness.rs:1118-1727 | so every interleaving of harmless transactions does |
| LoopInvariants.RecoveriesNeverExceedFailures | src/harness.rs:1118-1255 | after every history of harmless transactions and for every key, recoveries plus the runs whose unresolved last failure has that key never exceed failures |
| LoopInvariants.StepKeepsRecordExactlyWhen | src/harness.rs:1386-1488 | a transaction decided on any row at all leaves a failure behind every recovery under way if and only if it is not a start that saw a recovery open and meets a row without a failed tool |
| LoopInvariants.RecoveriesStayOnRecordExactlyWhen | src/harness.rs:1217-1488 | throughout a history every recovery under way has its failure if and only if every start that saw one open meets a row with a failed tool |
| LoopInvariants.UnresolvedHasFailure | src/harness.rs:1217-1488 | from an empty workspace, with such starts alone, a recovery under way has its failed tool and category on record |
| LoopEffects.ExposureMovesExactlyWhen | src/harness.rs:1118-1197 | whatever the transaction, a pending exposure is exercised exactly by a success of its tool, an open one fails exactly with a failure of its tool, an exercised one passes exactly when the cycle closes, and nothing else moves one |
| LoopEffects.CountersCount | src/harness.rs:1118-1255 | after every history a key's failures are the failures recorded for exactly its tool and category, and its recoveries the closing Verifies that had seen it open |
| LoopEffects.EndedRunsStayEnded | src/harness.rs:1818-1860 | a run that has been completed, cancelled or gone stale never runs again |
| LoopEffects.StepKeepsEnded | src/harness.rs:2368-2456 | a status only moves from running to completed or stale, and from running or stale to cancelled |
| LoopEffects.FailureIsRecorded | src/harness.rs:1217-1255 | a recorded failure opens a recovery, is counted once, fails the open exposures of its tool and settles nothing |
| LoopEffects.VerifyIsVerified | src/harness.rs:1588-1682 | a successful Verify records its proof as passed and then closes the cycle, confirming what was tested and counting the open failure as recovered, or demands the selected proof |
| LoopEffects.VerifySettlesExactlyWhen | src/harness.rs:1588-1682 | it leaves nothing to settle if and only if the selected proof is in the table as passed and an open recovery has its failure on record |
| LoopEffects.ExecuteBegins | src/harness.rs:1404-1432 | an Execute begun on the row it read takes up an open recovery, raises the shape to the maximum, narrows the scope to the common part, selects the proof asked for and changes no other column |
| LoopStore.FinishTxsOwe | src/harness.rs:1490-1727 | the transactions of a finished call owe the rows that FinishTool promises |
| LoopStore.StartTxsOwe | src/harness.rs:1386-1488 | the transactions of a call that begins write the start of an Execute or of a Verify and nothing for any other call |
| LoopStore.NothingBeginsAfterTheEnd | src/harness_tool_pipeline.rs:1044-1056 | after any history, no call begins on a run that was once completed, cancelled or stale, apart from later looks at jobs |
| LoopRaces.StaleDecisionIsSafeExactlyWhen | src/harness.rs:1386-1682 | a transaction decided on any rows at all is safe for the ledger in every workspace if and only if it is harmless |
| LoopRaces.DoubleVerifyRecoversTwice | src/harness.rs:1596-1682 | two Verify calls that read the row before either commits count one failure as recovered twice |
| LoopRaces.RecoveriesOutgrowFailures | src/harness.rs:1596-1682 | from an empty workspace that leaves two recoveries of one failure |
| LoopRaces.RecoveryWithoutFailure | src/harness.rs:1386-1488 | from an empty workspace a start that saw a failure open, made after the cycle was verified and restarted, leaves a running run in a recovery without a failed tool |
| LoopTraces.StepKeepsHoldExactlyWhen | src/harness.rs:1281-1727 | a transaction decided on any row at all keeps the verification discipline if and only if the row it meets warrants it |
| LoopTraces.HeldOrDischarged | src/harness.rs:1281-1727 | a run that is held stays held until a Verify closes the cycle while the proof selected at that moment is recorded as passed, whatever else happens by timely decisions |
| LoopTraces.MutationIsVerifiedBeforeGate | src/harness.rs:1386-1727 | when every decision is warranted, stale or not, between a mutation that finished and any later completion, publication or new cycle lies a Verify that closed the cycle while the proof the row then selected was recorded as passed |
| LoopTraces.MutationIsProvedBeforeGate | src/harness_tool_pipeline.rs:331-388 | from the first run of a workspace on, at that Verify the latest result in the cycle of the proof the row then selects, not just of the one it had read, is "passed" and comes from the selected source |
| LoopTraces.ProofRowIsLatestResult | src/harness.rs:1257-1279 | a row of the proof table is the latest result of that proof in the current cycle |
| LoopTraces.DischargeRestsOnPassingProof | src/harness.rs:1596-1682 | when a Verify pays a debt, the latest result in the cycle of the proof selected in the row it meets is "passed" |
| LoopTraces.SafeRestartsWarrant | src/harness_context_gate.rs:133-163 | when no pipeline Execute is in flight across a restart into a read-only cycle, timely decisions are warranted |
| LoopEscapes.VerifiedMutationCompletes | src/harness.rs:2400-2458 | the gates do open: execute, finish, verify with the selected proof and complete brings any running run whose context was read to completed |
| LoopEscapes.VerifiedCycleIsFresh | src/harness.rs:1386-1727 | every transaction of that history is decided on the row it meets, and nothing is restarted |
| LoopEscapes.GateReachableExactlyWhen | src/harness.rs:2400-2458 | from a live run a gate can be reached without a discharging Verify if and only if the run is not held |
| LoopEscapes.StepLetsEscapeExactlyWhen | src/harness_http.rs:402-437 | a transaction that finishes a mutation or meets a held run lets the run past a gate unverified if and only if it is not warranted |
| LoopEscapes.ReadOnlyRestartIsSafeExactlyWhen | src/harness_context_gate.rs:133-163 | a run that enters a read-only cycle can later carry an unverified mutation past a gate by timely decisions if and only if an Execute call of it by the tool pipeline was in flight at that moment; native executions take no ticket and are not counted |
| LoopEscapes.StaleTicketEscapes | src/harness_http.rs:402-437 | the run that does it: the late finish raises the debt, the native skip of the read-only cycle drops it, the run completes |
| LoopEscapes.StaleSkipEscapes | src/harness_http.rs:402-437 | with no restart and nothing in flight: a native skip decided before a mutation began drops its debt, and the run completes |
| LoopEscapes.StaleGateEscapes | src/harness.rs:2429-2458 | a completion or publication decided before a mutation began goes through unverified |
| LoopEscapes.OlderSelectionCompletes | src/harness.rs:1596-1682 | a Verify that read any older row, also one from before a restart, closes the cycle with the proof selected there, and the run completes with the proof it selects now missing from the table |
| LoopEscapes.StaleVerifyEscapes | src/harness.rs:1589-1682 | from a settled run: a Verify reads the row, a mutation that calls for another proof starts and finishes, the Verify closes its cycle; the completed row selects a proof that is not in the table |
| LoopEscapes.EarlierProofDischarges | src/harness.rs:1386-1682 | with nothing stale: a proof that passed before a mutation of the same cycle pays for it, by a Verify that records none |
| LoopEscapes.NativeAcrossRestartIsSkipped | src/harness_http.rs:402-437 | a native execution that is finished after a restart into a read-only cycle is skipped by a fresh decision, with no pipeline call in flight |
| LoopPlans.PlanIsRightExactlyWhen | src/harness_tool_pipeline.rs:574-600 | the shape and scope an Execute writes are those the current row calls for if and only if its plan still fits that row |
| LoopPlans.CycleFoldsRequests | src/harness.rs:1413-1432 | as long as every plan fits, the loop row holds the fold of all Execute requests of the cycle over its initial shape and scope |
| LoopPlans.CycleFoldsExactlyWhen | src/harness.rs:1413-1432 | the row holds that fold throughout a cycle if and only if every plan fits when it is written |
| LoopPlans.FoldedRowIsExtreme | src/harness_tool_pipeline.rs:454-489 | a row that holds the fold has the maximal shape and the greatest common scope of all requests |
| LoopPlans.OldPlanLowersShape | src/harness_tool_pipeline.rs:1294-1311 | two overlapping calls planned on one row: the later write lowers the shape from invariant to bounded and selects the weaker proof |
| LoopStore.HarnessStore.constructor | src/harness.rs:2001-2244 | a workspace starts without runs, patterns or calls |
| LoopStore.HarnessStore.RecordLearningFailure | src/harness.rs:1118-1145 | one failure counted, the failed tool's open exposures failed, nothing else touched |
| LoopStore.HarnessStore.ConfirmExercisedLearning | src/harness.rs:1163-1197 | the loop adds exactly one confirmation per exercised exposure and passes them all |
| LoopStore.HarnessStore.RecordClosedLoopFailure | src/harness.rs:1217-1255 | the loop row, the pattern and the exposures after a failure |
| LoopStore.HarnessStore.EnterLearn | src/harness.rs:1281-1329 | the rows after a cycle has closed, with or without a recovery |
| LoopStore.HarnessStore.VerifyFinished | src/harness.rs:1596-1682 | a successful Verify runs as the commit transaction on the row it read |
| LoopStore.HarnessStore.BeginTool | src/harness_tool_pipeline.rs:331-388 | a call begins if and only if its run is running (or it is a later look at a job), its context was read before it changes or publishes anything, and nothing unverified or unrecovered is published; each refusal has its exact condition and changes nothing |
| LoopStore.HarnessStore.FinishTool | src/harness.rs:1490-1727 | a finished call leaves the rows it owes: a failed Verify or Execute an open failure with everything required still required, a successful Execute a pending verification, a successful Verify a closed cycle or a pending one by what is selected, a read one more context read, anything else nothing |
| LoopStore.HarnessStore.NativeExecutionStart | src/harness_http.rs:370-400 | the native driver starts exactly a running run, takes up an open recovery and changes no other column |
| LoopStore.HarnessStore.NativeExecutionFinish | src/harness_http.rs:402-437 | a native success owes verification unless the cycle is read-only, in which case it learns at once; a native failure is recorded and settles nothing |
| LoopStore.HarnessStore.NativeVerificationStart | src/harness_http.rs:439-640 | verification is skipped unless required; otherwise it selects the live proof and starts, or runs the transactions of a proof that is not available |
| LoopStore.HarnessStore.NoProofAvailable | src/harness_http.rs:485-523 | the wanted proof is selected and in the table as failed, and the failure is open and on record |
| LoopStore.HarnessStore.BeginRun | src/harness.rs:2152-2237 | a new run begins settled, with at most five exposures pending |
| LoopStore.HarnessStore.RefreshRunning | src/harness.rs:1818-1860 | a running run whose workspace moved on becomes stale, any other is left alone |
| LoopStore.HarnessStore.Cancel | src/harness.rs:2368-2398 | running and stale runs are cancelled, ended runs keep how they ended |
| LoopStore.HarnessStore.StartCycle | src/harness_context_gate.rs:133-163 | a cycle restarts exactly when the run is running and its loop is settled |
| LoopStore.HarnessStore.LookAtCompletion | src/harness.rs:2406-2443 | the loop row a completion is decided on, and the reasons for which it is refused |
| LoopStore.HarnessStore.CommitCompletion | src/harness.rs:2445-2456 | a run that is still running is completed, whatever its loop row has become |
| LoopStore.HarnessStore.Complete | src/harness.rs:2400-2458 | run without interruption, a run completes exactly when it is running, current and settled, or was complete already |
| Evaluation.ChecksAgreeWithCompletion | src/harness_eval.rs:173-178 | after every history the evaluator's recovery and verification checks accept exactly when the loop conditions of completion hold |
| Evaluation.EvaluatorAcceptsWhatCompleteAccepts | src/harness.rs:2429-2443 | for a current running run those checks accept exactly the runs that complete accepts |
| Evaluation.JudgeOnlyLowers | src/harness_eval.rs:105-129 | whatever is recorded later, an evaluation keeps its checks, takes at most one judge, and never turns from fail to pass |
| Evaluation.FinalPassNeedsEveryCheck | src/harness_eval.rs:105-129 | a final pass means that every deterministic check passed |
| Evaluation.FinalPassExactlyWhen | src/harness_eval.rs:105-129 | after any sequence of actions the final verdict is a pass if and only if the first evaluation's evidence was acceptable and the first judge recorded after it, if any, passed |
| Evaluation.EvaluationStore.Evaluate | src/harness_eval.rs:144-280 | the stored verdict is a pass if and only if the turn has ended within its limit, the run is healthy and current, nothing is unrecovered or unverified, and the selected proof has passed |
| Evaluation.EvaluationStore.RecordJudge | src/harness_eval.rs:315-392 | the judge is written once; the same judge again is a replay, another one is refused |
| Policies.StricterIsMeet | src/harness_capability.rs:95-102 | stricter is the greatest policy below both arguments |
| Policies.StricterSpellingsAgree | src/harness.rs:422-440 | the rank-based spelling on strings is the same meet as the two on enums, and fails exactly on unknown names |
| Capability.DeriveChild | src/harness.rs:602-700 | the child holds exactly the parent's kernel and requested entries, in order, each with its facts, the most liberal policy that parent and profile permit, and available unless the parent's was not or that denies it; it succeeds exactly for clean ids that the parent owns and a profile that widens nothing |
| Capability.RefusalExactlyWhen | src/harness.rs:602-642 | each reason a delegation is refused for, with its exact condition in the order of the checks |
| Capability.RefreshChild | src/harness.rs:702-785 | what is left are the first stored entries of each id that is still live, in order, each with the live facts and the most liberal policy that the stored and the last live entry permit |
| Capability.Resolve | src/harness_capability.rs:231-261 | every draft keeps its place and its facts, gets the most liberal policy that its profile, its source and the workspace permit, and is available unless that denies it |
| Capability.ResolutionIsUnique | src/harness_capability.rs:231-261 | nothing else resolves the registry in this sense |
| Delegation.FreshChildIsCurrentExactlyWhen | src/harness.rs:602-823 | a freshly delegated child is current under the same registry if and only if its parent has no sandbox override |
| Delegation.BegunRootDelegatesExactlyWhen | src/harness.rs:515-580 | a root run begins current, in a sandbox its profile allows, and its children are current if and only if it began without an override |
| Delegation.DelegatedRunIsCurrentAtAnyDepth | src/harness.rs:602-823 | below a current root without an override every delegated run is current, at any depth |
| Delegation.OverrideEndsTheChain | src/harness.rs:582-590 | below a root with an override the first children are stale at once and cannot delegate further |
| Delegation.RestrictIsIdentityExactlyWhen | src/harness.rs:731-775 | a refresh gives back what is stored if and only if no id repeats and every entry fits its live entry |
| Delegation.NarrowedFits | src/harness.rs:650-689 | narrowing makes the meet with the live entry equal to the narrowed entry |
| Delegation.DerivedIsWithin | src/harness.rs:485-513 | a derived child has a lower or equal sandbox and policies, a subset of ids, lower approvals, and nothing newly available |
| Delegation.RefreshedIsWithin | src/harness.rs:731-775 | a refresh under any registry never gives a child more than it stored |
| Delegation.AuthorityOnlyNarrows | src/harness.rs:650-785 | along any chain of delegations and refreshes, each under its own registry, ids, approvals, availability, sandbox and all six policies only shrink |
| Delegation.OnlyAskedForIsHandedDown | src/harness.rs:654-656 | at the end of any chain of delegations and refreshes, every entry was handed on by each delegation on the way because it was the kernel's there or asked for by name |
| Registry.CapabilityRegistry.Register | src/harness_capability.rs:202-229 | a draft is inserted at its place, or refused with each error under its exact condition; order, distinct ids and the core's monopoly are kept |
| Registry.CapabilityRegistry.Capture | src/harness_capability.rs:231-261 | what a run captures is the resolution of the registry under its profile, with distinct ids |
| Registry.BeforeIsLexical | src/harness_capability.rs:196-199 | the registry enumerates its ids in the order of the first characters in which they differ |
| Registry.AscendingIsDistinct | src/harness_capability.rs:202-229 | an ordered registry has no id twice |
| Approvals.ApprovalStore.Expire | src/harness_approval.rs:189-198 | pending and allowed rows of the run that have run out are expired, all other rows are untouched |
| Approvals.ApprovalStore.SelectAllowed | src/harness_approval.rs:302-328 | the scan finds the live allowed row for the exact intent that was answered last, or shows there is none |
| Approvals.ApprovalStore.Consume | src/harness_approval.rs:302-338 | that row, and only that row, becomes consumed |
| Approvals.ApprovalStore.SelectPending | src/harness_approval.rs:230-262 | the scan finds the live pending row for the exact intent that was requested last, or shows there is none |
| Approvals.ApprovalStore.RequestApproval | src/harness_approval.rs:230-300 | that row is reused, otherwise one is inserted that expires after 300 seconds |
| Approvals.ApprovalStore.SelectLatest | src/harness_approval.rs:790-814 | the scan finds the newest row for the exact intent, whatever its status |
| Approvals.ApprovalStore.ResolveNativeIntent | src/harness_approval.rs:816-921 | no row: one is requested and the answer is pending; newest row allowed: allow exactly if one is consumed; pending: pending; anything else: deny |
| Approvals.ApprovalStore.Answer | src/harness_approval.rs:971-1048 | an answer takes effect exactly on a row that is still pending and unexpired; repeating it is a replay and changes nothing |
| NativeApprovals.OneRowPerNativeIntentExactlyWhen | src/harness_approval.rs:230-300 | over any interleaving of the statements of native calls, at most one approval row ever exists for the intent if and only if no call inserts after another one has |
| NativeApprovals.NativeAnswersSettle | src/harness_approval.rs:816-921 | as long as none does, the answers read pending, then at most one allow, then deny |
| NativeApprovals.OneRowAndSettledExactlyWhen | src/harness_approval.rs:230-300 | one row and settled answers together hold if and only if every insertion is alone |
| NativeApprovals.StepAgrees | src/harness_approval.rs:189-338 | every statement keeps the stage of the row and what its callers know in agreement, and answers by that stage |
| NativeApprovals.AllowNeedsGrant | src/harness_approval.rs:302-338 | allow is only answered on a row of the intent that a responder allowed and that has not run out, and it uses the row up |
| NativeApprovals.WholeCallIsResolveNative | src/harness_approval.rs:816-921 | run without interruption, the statements of a call do what resolve_native does |
| NativeApprovals.UninterruptedCallsSettle | src/harness_approval.rs:816-921 | when the statements of inserting calls are not interrupted, there is one row and the answers settle |
| NativeOverlaps.BothLookFirst | src/harness_approval.rs:790-814 | two callers that both look before either inserts leave two pending rows |
| NativeOverlaps.OverlappingLookupsAllowTwice | src/harness_approval.rs:816-921 | from any table without a row for the intent, those rows yield two allows |
| NativeOverlaps.LateInsertionAllowsTwice | src/harness_approval.rs:230-300 | a caller that looked before another's request was made and allowed inserts after it; its answer is pending after an allow, and a second allow follows |
| Decision.Rule | src/harness_tool_pipeline.rs:1290-1329 | a process gets exactly the sandbox it names, or its profile's, and finds that name in its arguments; nothing else gets one or has an argument touched; each error means exactly its fault |
| Decision.RulingSandboxIsTheNamed | src/harness_tool_pipeline.rs:650-711 | the sandbox of a ruling is the named one or the profile's, workspace-write for a long-running process under full access, and the graphical one is charged to its own capability |
| Decision.RulingFailsExactlyWhen | src/harness_tool_pipeline.rs:650-711 | a ruling fails with an error if and only if the call has that fault, for each of the six errors |
| Decision.RulingPolicyExactlyWhen | src/harness_tool_pipeline.rs:715-728 | a call of a run is denied if and only if some part of its authority denies it, and runs unasked if and only if every part allows it and no elevated sandbox is involved |
| Decision.ExceedingSandboxIsAsked | src/harness_tool_pipeline.rs:650-745 | a sandbox above the profile is an elevated one, an elevated one never runs unasked, and the arguments to be approved name it |
| Decision.SandboxNamesAreDistinct | src/harness_tool_pipeline.rs:640-648 | sandbox names are read back as written and differ between modes |
| Dispatch.StepKeepsSound | src/harness_tool_pipeline.rs:1330-1545 | every step of any call, responder, crash or clock keeps the dispatch invariant |
| Dispatch.ReachableIsSound | src/harness_tool_pipeline.rs:1330-1545 | so it holds in every reachable state |
| Dispatch.EveryDispatchWasApproved | src/harness_approval.rs:302-338 | every call dispatched under "ask" consumed an approval of its own that agrees on all seven intent fields, was allowed while pending and unexpired, and was consumed unexpired, at most 300 seconds after it was requested |
| Dispatch.DispatchesNeverExceedGrants | src/harness_approval.rs:971-1048 | for any set of intents, the calls dispatched under "ask" never outnumber the allow answers given to open approvals for them |
| Dispatch.GrantsAreCounted | src/harness_approval.rs:971-1048 | the approvals ever granted are as many as the effective allow answers |
| Dispatch.NoDispatchAgainstDeny | src/harness_tool_pipeline.rs:1386-1392 | a dispatched call of a run was denied by no part of its authority, and unless it was asked for every part allowed it |
| Dispatch.ElevatedDispatchWasApproved | src/harness_tool_pipeline.rs:650-745 | a dispatched process whose sandbox is elevated or above the profile consumed an approval whose arguments name that sandbox |
| Dispatch.OverStaysOver | src/harness_tool_pipeline.rs:1594-1612 | the row of a call that was given up never changes again and its effects neither begin nor vanish |
| Dispatch.UndispatchedNeverActs | src/harness_tool_pipeline.rs:1532-1535 | a call given up before its row said dispatched has had no effect and never will |
| ToolPipeline.Pipeline.constructor | src/harness_tool_pipeline.rs:1217-1222 | the pipeline starts with no rows and no calls |
| ToolPipeline.Pipeline.ClaimApproval | src/harness_tool_pipeline.rs:1354-1376 | the run's approvals are swept and the best matching one, if needed and there, is consumed for this call |
| ToolPipeline.Pipeline.RecordCall | src/harness_tool_pipeline.rs:1394-1415 | the row says what was decided, not yet dispatched |
| ToolPipeline.Pipeline.ClaimAndRecord | src/harness_tool_pipeline.rs:1354-1415 | both together are the specified steps |
| ToolPipeline.Pipeline.ParkCall | src/harness_tool_pipeline.rs:1462-1482 | an unapproved call is left behind the newest live pending approval for exactly its intent, created if there is none |
| ToolPipeline.Pipeline.HandOutTicket | src/harness_tool_pipeline.rs:1532-1535 | the row says dispatched before the ticket exists |
| ToolPipeline.Pipeline.Begin | src/harness_tool_pipeline.rs:1217-1555 | a ticket is handed out exactly when the ruling allows the call or a matching approval was consumed; the row says dispatched exactly then, and names the denied capability, the consumed approval or the live pending one that the caller was told |
| ToolPipeline.Pipeline.FinishCall | src/harness_tool_pipeline.rs:1594-1612 | the row takes the outcome and is complete |
| ToolPipeline.Pipeline.Answer | src/harness_approval.rs:971-1048 | an answer through the pipeline's store is one answer step, granted exactly when it took effect |
| Recovery.UncertainEffectRequiresReview | src/harness_recovery.rs:249-290 | at any point of any interleaving, crashes included, a live run with an unfinished call that may have changed something is sent to review as uncertain |
| Recovery.ResumableExactlyWhen | src/harness_recovery.rs:249-307 | a live run is called resumable if and only if no approval is pending and each call it began has finished or can be repeated safely |
| Recovery.InspectJudges | src/harness_recovery.rs:249-307 | the verdict is the first that applies: ended, out of date (with the recorded reason, the head or the capabilities), uncertain, blocked, waiting for an approval, and otherwise resumable for its reason |
| Recovery.OnlyCurrentRunsGoOn | src/harness_recovery.rs:243-262 | a run is sent to review or resumed if and only if it is running, no stale reason is recorded, and head and capabilities are the ones it began with |
| Recovery.ActThenCrashIsInDoubt | src/harness_recovery.rs:249-290 | a mutating call with a ticket that acts and is then cut off by a crash is in doubt |
| Recovery.CrashLeavesDoubt | src/harness_recovery.rs:249-290 | a crash at any point leaves every run whose effects were in doubt by then uncertain for as long as it is live |
| Recovery.DoubtRemains | src/harness_recovery.rs:249-290 | after a crash the verdict stays uncertain for as long as the run is live |
| Recovery.FilingKeepsSound | src/harness_recovery.rs:122-181 | after filing, the verdict is on file once, every log is dense and every run's counter agrees with its log |
| Recovery.InspectingTwiceAddsNothing | src/harness_recovery.rs:183-340 | filing a checkpoint raises the run's own event counter and still changes no fact: a second inspection gives the same verdict, and filing it adds nothing |
| Recovery.CheckpointStore.BeginRun | src/harness.rs:2175-2237 | a new run has event 0 in its log and its counter behind it, and the records stay sound |
| Recovery.CheckpointStore.FindMatching | src/harness_recovery.rs:104-120 | the lookup finds a checkpoint with the same run and digest, or shows there is none |
| Recovery.CheckpointStore.Persist | src/harness_recovery.rs:122-181 | a verdict on file changes nothing; otherwise one checkpoint and one event are added and the run's counter is raised, and no verdict is ever on file twice |
| Recovery.CheckpointStore.InspectRun | src/harness_recovery.rs:183-340 | the verdict is the first that applies to the run as it is, it is the same of the records before and after, and they change by one filing at most |
| EventLog.PagingIsExact | src/harness.rs:2314-2366 | however appends and pages interleave, sequence numbers are exactly 0 up to the counter and a reader has collected the beginning of its log, each event once |
| EventLog.ReadFailsExactlyWhen | src/harness.rs:2315-2340 | a page is refused exactly for a limit outside 1 to 200, an unknown run or a cursor below -1, checked in this order |
| EventLog.PageContinues | src/harness.rs:2340-2360 | a page with a limit from 1 to 200 adds exactly the next events that exist |
| EventLog.SelectIsSlice | src/harness.rs:2340-2348 | ordered selection after a cursor returns a contiguous slice of a dense log |
| EventLog.LogOnlyGrows | src/harness.rs:850-887 | a later log extends an earlier one |
| EventLog.AppendExtends | src/harness_approval.rs:162-187 | each append takes a number that is free and adds one event at the end, in all four copies |
| EventLog.EmptyPageCursorContinuesExactlyWhen | src/harness.rs:2360-2366 | handing back the cursor a page returned continues correctly if and only if the reader had not caught up; the absent cursor of an empty page starts over |
| EventLog.EventStore.BeginRun | src/harness.rs:2218-2237 | a run begins with event 0 and the counter at 1 |
| EventLog.EventStore.Allocate | src/harness.rs:850-861 | the number returned is the counter before it was raised |
| EventLog.EventStore.Append | src/harness.rs:863-887 | a refused append leaves the log as it was, an accepted one adds the event under the allocated number |
| Lease.AtMostOneHolder | src/coordination.rs:53-70 | at any moment at most one handle of a resource passes assert_current |
| Lease.LostIsLostForever | src/coordination.rs:53-118 | a handle that once fails its check - expired, released or taken over - never passes again |
| Lease.TokensIncrease | src/coordination.rs:133-180 | a handle that comes to a resource later has a strictly higher token |
| Lease.RowTokenNeverFalls | src/coordination.rs:148-158 | the token in the row never falls |
| Lease.LateCallsLeaveSuccessorAlone | src/coordination.rs:94-118 | once there is a later handle, a renewal or release by an earlier one changes nothing, however late |
| Lease.HolderIsUndisturbed | src/coordination.rs:148-158 | until its time is up or it is released, nothing anybody else does takes a lease away |
| Lease.LeaseStore.Acquire | src/coordination.rs:133-214 | acquiring fails exactly for a bad key or while somebody holds an unexpired lease, and otherwise raises the token by one |
| Lease.LeaseStore.AssertCurrent | src/coordination.rs:53-70 | the check passes exactly for the current holder |
| Lease.LeaseStore.Renew | src/coordination.rs:72-91 | a renewal takes effect exactly while the lease is current |
| Lease.LeaseStore.Release | src/coordination.rs:94-118 | a release clears the row only if it is still the handle's |
| Lease.LeaseStore.RenewalLoop | src/coordination.rs:182-205 | the ten-second loop stops at the first renewal that came too late, which takes a delay of at least twenty seconds |
| RateLimiter.NoWindowHoldsMore | src/desktop_broker.rs:559-580 | no window (start, start + window] shows more than the limit of admissions of a key |
| RateLimiter.RefusalMeansFullWindow | src/desktop_broker.rs:559-580 | a call is only refused when the window that ends with it holds exactly the limit |
| RateLimiter.NoWindowHoldsMoreClosedOpen | src/desktop_broker.rs:559-580 | nor does a window that includes its start and not its end |
| RateLimiter.KeysAreIndependent | src/desktop_broker.rs:559-580 | what happens to a key does not depend on other keys |
| RateLimiter.RateLimiter.Prune | src/desktop_broker.rs:568-573 | the loop drops exactly the entries that have left the window |
| RateLimiter.RateLimiter.Allow | src/desktop_broker.rs:565-580 | for every history of calls, allow answers true exactly when fewer than the limit of admissions of the key lie in the window that ends now |
| Lease.TakeoverSucceedsExactlyWhen | src/coordination.rs:133-214 | an acquisition ends with a passing handle, one token higher, if and only if nobody had the resource or the one who had it let the lease run out |
| Outbox.AttemptsAreBounded | src/callback.rs:430-494 | attempts count the claims since the last manual retry, and never exceed five plus the interrupted deliveries |
| Outbox.DeliveredIsFinal | src/callback.rs:702-759 | nothing ever changes a delivered row again |
| Outbox.LeftoverTicketKeepsDeliveredExactlyWhen | src/callback.rs:707-757 | persisting has no guard on the status: a ticket left over from before a restart leaves a delivered row delivered if and only if its attempt succeeded |
| Outbox.WorkSettlesRow | src/callback.rs:452-494 | undisturbed, each claim and each outcome strictly lowers what a row is still good for |
| Outbox.FiveAttemptsSettle | src/callback.rs:718-757 | so five claims and five outcomes leave it delivered or failed |
| Outbox.DelayIsKept | src/callback.rs:452-465 | a row waiting for its next attempt is left alone until its time, restarts included |
| Outbox.RetryDelayClosedFormExactlyWhen | src/callback.rs:702-705 | the delay equals min(2^min(attempts, 9), 300) if and only if there was an attempt |
| Outbox.RetryDelayIsMonotone | src/callback.rs:702-705 | the delay never falls as attempts grow |
| Outbox.DelaysInUse | src/callback.rs:702-705 | the delays ever used are 2, 4, 8 and 16 seconds; the cap is out of reach |
| Outbox.OutboxStore.Claim | src/callback.rs:452-494 | the scan claims the first due row and counts the attempt, or shows that none is due |
| Outbox.OutboxStore.PersistOutcome | src/callback.rs:707-759 | a success delivers, a fifth failure fails, and an earlier one waits two, four, eight or sixteen seconds; no other row is touched |
| Outbox.OutboxStore.ConfigureRuntime | src/callback.rs:363-378 | a restart makes every interrupted delivery pending again |
| Outbox.OutboxStore.Retry | src/callback.rs:430-450 | exactly a failed row can be retried by hand, and starts over |
| Outbox.OutcomeDecidesNextAttempt | src/callback.rs:702-757 | in every reachable state a success delivers the row, a fifth failure ends it, and after an earlier failure it is due again exactly after two, four, eight or sixteen seconds |
| Outbox.OutboxStore.Enqueue | migrations/0010_callback_outbox.sql:40-66 | a new event is queued with no attempts and due at once; an event that has its row is ignored |
| EnvFile.MapsRoundTrip | src/env_file.rs:39-64 | any map from valid names to any strings, written line by line in any order and escaped, is read back unchanged |
| EnvFile.ParseInvertsRender | src/env_file.rs:39-64 | a written list of assignments is read back as the map in which later ones win |
| EnvFile.AppendedAssignmentWins | src/env_file.rs:60-61 | an assignment appended to any readable text sets its key and nothing else |
| EnvFile.FirstBadLineIsReported | src/env_file.rs:42-58 | reading fails if and only if some line is bad, with the problem and the number of the first one |
| EnvFile.UnescapeInvertsEscape | src/env_file.rs:111-136 | reading escapes inverts writing them |
| EnvFile.UnescapeFailsExactlyWhen | src/env_file.rs:118-120 | double-quoted content is refused if and only if it ends in an odd number of backslashes |
| EnvFile.CommentStartIsFirst | src/env_file.rs:99-106 | a comment begins at the first # that stands at the start or after ASCII white space, and nowhere when there is none |
| EnvFile.UnquotedValueIsCut | src/env_file.rs:99-108 | an unquoted value is what stands before its comment, without trailing white space |
| EnvFile.SingleQuotesAreVerbatim | src/env_file.rs:92-97 | single-quoted content comes back unchanged |
| EnvFile.AssignmentLineIsRead | src/env_file.rs:42-61 | a line with an =, whatever white space surrounds its name, is a comment, shell syntax, a bad name, or assigns what follows its first =, decided in this order |
| EnvFile.OtherLineIsRead | src/env_file.rs:42-54 | a line without an = is ignored if it is blank or a comment, and otherwise refused |
| EnvFile.TrimIs | src/env_file.rs:44-44 | trimming takes away exactly the white space around |
| EnvFile.QuotesMustClose | src/env_file.rs:82-97 | a value that opens a quote is unterminated if and only if it does not end in the same quote, and double-quoted content is unescaped |
| EnvFile.ForeignEscapesStay | src/env_file.rs:121-132 | a backslash stays in front of any character that it does not escape |
| EnvFile.NewlineEndsLine | src/env_file.rs:42-42 | a line ends with a newline, with or without a carriage return before it |
| EnvFile.TakeLine | src/env_file.rs:42-61 | one line more either assigns its key or ends the parse with its number and problem |
| EnvFile.UnescapeDoubleQuoted | src/env_file.rs:111-136 | the character loop computes the specified reading |
| EnvFile.ComputeValue | src/env_file.rs:82-109 | quoted, unquoted and empty values and their errors, as specified |
| EnvFile.ReadLine | src/env_file.rs:42-61 | one line yields nothing, an assignment or its first problem |
| EnvFile.ParseEnvFile | src/env_file.rs:39-64 | the loop over the lines computes the specified parse |

## Left out

- Pruning of old execution rows: `Dispatch` and `Recovery` keep every row, so their crash results hold for rows that pruning has not removed yet.
- The blocker's kind, id and tool in recovery facts, and the order in which a blocker is chosen: the facts carry the counts and everything the verdict rests on.
- Ownership and conversation checks in front of each operation: they only refuse more calls.
- Length and character checks on ids, payloads and native requests, apart from those in the modelled functions.
- Classification of native approval requests and of protected commands: the resulting intent is a parameter.
- The choice of which learning patterns a new run is shown: any set of at most five.
- Keyword classifiers and proof selection in the context gate and in repository discovery: their results are parameters.
- Diagnostics, display text, metrics, tracing, JSON encoding and SQL text.
- Tasks, task transactions, plugins and the code behind jobs: a job counts as active or not, as a parameter.
- Enabling and disabling callbacks, the HTTP request of a delivery and its envelope: a delivery succeeds, fails or loses its outcome.
- Desktop broker operations other than the rate limiter, and lease status reports.
- Setting the process environment from the parsed file: `EnvFile` ends with the parsed map.
- EventLog.ValidEventType: counts characters where the daemon counts bytes; all event types in use are ASCII.
- Approvals.ApprovalStore.ResolveNativeIntent: runs the statements of one call without interruption; how those of several calls interleave is in `NativeApprovals` and `NativeOverlaps`.
- LoopStore.HarnessStore.Complete: runs its two halves without interruption; a completion that is overtaken is `CompleteRun` with an older observed row.
- RateLimiter.RateLimiter.Allow: requires the same limit and window in every call on one limiter, as the broker's only caller passes them.
