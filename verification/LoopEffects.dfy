/**
 What the transactions of the loop leave behind, told by the columns before and after: what
 a start and a finish owe, when an exposure moves, and what the learning counters count.
*/
module LoopEffects {
  import opened Wrappers
  import opened WorkScope
  import opened ClosedLoop
  import opened LoopInvariants

  /* ---------- before and after ---------- */

  /** Of all runs only `id` has other rows now, and it is in the status it was in. */
  predicate OnlyRowsOf(before: Db, after: Db, id: RunId) {
    && id in before.runs && id in after.runs
    && after.runs == before.runs[id := after.runs[id]]
    && after.runs[id].status == before.runs[id].status
  }

  /** A successful call of `tool` puts its pending exposures to the test; no other exposure is touched. */
  ghost predicate Exercises(before: map<Key, Outcome>, after: map<Key, Outcome>, tool: string) {
    && after.Keys == before.Keys
    && forall key | key in before ::
         after[key] == if key.tool == tool && before[key] == Pending then Exercised else before[key]
  }

  /** One more context read, and nothing else but the way out of a finished cycle. */
  ghost predicate ContextAdded(before: Db, after: Db, id: RunId) {
    && OnlyRowsOf(before, after, id)
    && after.patterns == before.patterns && after.tickets == before.tickets
    && var was, now := before.runs[id], after.runs[id];
       && now == was.(loop := now.loop)
       && now.loop == was.loop.(contextReads := was.loop.contextReads + 1, phase := now.loop.phase)
       && now.loop.phase == if was.loop.phase == Learn then Context else was.loop.phase
  }

  /** Verification is required and pending from now on; recovery, proofs and counters are as they were. */
  ghost predicate VerificationOwed(before: Db, after: Db, id: RunId, tool: string) {
    && OnlyRowsOf(before, after, id) && after.patterns == before.patterns
    && var was, now := before.runs[id], after.runs[id];
       && now.loop.verificationRequired && now.loop.verification == VerificationPending && now.loop.phase == Verify
       && was.loop == now.loop.(phase := was.loop.phase, verificationRequired := was.loop.verificationRequired,
                                  verification := was.loop.verification)
       && now.proofs == was.proofs && Exercises(was.exposures, now.exposures, tool)
  }

  /**
   The failure is open and on record, and it has settled nothing: the requirement to verify, the recoveries and the
   confirmations are as they were, and the tool's exposures have failed.
  */
  ghost predicate FailureRecorded(before: Db, after: Db, id: RunId, tool: string, category: string,
                                  verification: bool) {
    && OnlyRowsOf(before, after, id)
    && FailureInRun(before.runs[id], after.runs[id], tool, category, verification)
    && (forall key ::
          PatternAt(after, key) ==
          if key == Key(tool, category) then PatternAt(before, key).(failures := PatternAt(before, key).failures + 1)
          else PatternAt(before, key))
  }

  ghost predicate FailureInRun(was: Run, now: Run, tool: string, category: string, verification: bool) {
    && now.loop.recovery == Needed && now.loop.phase == Recover
    && now.loop.lastTool == Some(tool) && now.loop.lastCategory == Some(category)
    && now.loop.failures == was.loop.failures + 1
    && now.loop.verification == (if verification then VerificationFailed else was.loop.verification)
    && was.loop == now.loop.(phase := was.loop.phase, recovery := was.loop.recovery,
                               lastTool := was.loop.lastTool, lastCategory := was.loop.lastCategory,
                               failures := was.loop.failures, verification := was.loop.verification)
    && now.exposures.Keys == was.exposures.Keys
    && (forall key | key in was.exposures ::
          now.exposures[key] ==
          if key.tool == tool && was.exposures[key] in {Pending, Exercised} then Failed else was.exposures[key])
  }

  /** The exposure was exercised before the cycle closed, by `tool` at the last moment or earlier. */
  predicate Tested(exposures: map<Key, Outcome>, key: Key, tool: string) {
    key in exposures && (exposures[key] == Exercised || (exposures[key] == Pending && key.tool == tool))
  }

  /**
   The cycle is closed: nothing is required any more, `recovered` is counted as recovered if there is such a
   failure, and every exposure that was put to the test is passed and confirmed.
  */
  ghost predicate Learned(before: Db, after: Db, id: RunId, tool: string, recovered: Option<Key>) {
    && OnlyRowsOf(before, after, id)
    && var was, now := before.runs[id], after.runs[id];
       && !now.loop.verificationRequired && now.loop.verification == VerificationPassed && now.loop.phase == Learn
       && now.loop.lessons == was.loop.lessons + 1
       && now.loop.recovery == (if recovered.Some? then Recovered else was.loop.recovery)
       && was.loop == now.loop.(phase := was.loop.phase, verificationRequired := was.loop.verificationRequired,
                                  verification := was.loop.verification, recovery := was.loop.recovery,
                                  lessons := was.loop.lessons)
       && now.exposures.Keys == was.exposures.Keys
       && (forall key | key in was.exposures ::
             now.exposures[key] == if Tested(was.exposures, key, tool) then Passed else was.exposures[key])
       && after.patterns.Keys == before.patterns.Keys
       && forall key | key in before.patterns ::
            after.patterns[key] ==
            Pattern(before.patterns[key].failures,
                    before.patterns[key].recoveries + One(recovered == Some(key)),
                    before.patterns[key].confirmations + One(Tested(was.exposures, key, tool)))
  }

  /** The proof is in the table with this result, and every other row of the table is as it was. */
  ghost predicate ProofRecorded(before: Db, after: Db, id: RunId, tool: string, proof: Proof, passed: bool)
    requires id in before.runs && id in after.runs
  {
    after.runs[id].proofs == before.runs[id].proofs[proof.proofType := ProofRow(proof.source, passed, tool)]
  }

  /** What a successful Verify recovers: the last failure, as long as its recovery is open and it is on record. */
  function OpenFailure(loop: LoopRow): Option<Key> {
    if loop.recovery !in {Needed, InProgress} then None
    else match (loop.lastTool, loop.lastCategory)
      case (Some(tool), Some(category)) => Some(Key(tool, category))
      case _ => None
  }

  /** The selected proof is in the table as passed; without a selection only a read-only cycle needs none. */
  predicate SelectedHasPassed(run: Run) {
    match run.loop.selection.proofType
    case None => run.loop.shape == ReadOnly
    case Some(proofType) =>
      && proofType in run.proofs && run.proofs[proofType].passed
      && (run.loop.selection.source.None? || run.loop.selection.source == run.proofs[proofType].source)
  }

  /** A successful Verify closes the cycle if the selected proof has passed by now, and otherwise asks for it. */
  ghost predicate Verified(before: Db, after: Db, id: RunId, tool: string) {
    && OnlyRowsOf(before, after, id)
    && if SelectedHasPassed(before.runs[id].(proofs := after.runs[id].proofs))
       then Learned(before, after, id, tool, OpenFailure(before.runs[id].loop))
       else VerificationOwed(before.(runs := before.runs[id := before.runs[id].(proofs := after.runs[id].proofs)]),
                             after, id, tool)
  }

  /* ---------- what the transactions do ---------- */

  lemma FailureIsRecorded(db: Db, tx: Tx)
    requires tx.RecordFailure? && Enabled(db, tx)
    ensures var after := Exec(db, tx); var category := if tx.category.Some? then tx.category.value else "tool-error";
            && FailureRecorded(db, after, tx.run, tx.tool, category, tx.verification)
            && after.runs[tx.run].proofs == db.runs[tx.run].proofs
            && after.tickets == if tx.closing.Some? then db.tickets - {tx.closing.value} else db.tickets
  {
  }

  lemma MutationOwesVerification(db: Db, id: RunId, ticket: TicketId, tool: string)
    requires id in db.runs && Enabled(db, ExecuteFinish(id, ticket))
    ensures var after := Exec(Exec(db, Exercise(id, tool)), ExecuteFinish(id, ticket));
            VerificationOwed(db, after, id, tool) && after.tickets == db.tickets - {ticket}
  {
  }

  lemma ProofFailureIsRecorded(db: Db, id: RunId, tool: string, proof: Proof, category: Option<string>)
    requires id in db.runs
    ensures var after := Exec(Exec(db, ProofFailed(id, tool, proof)), RecordFailure(id, None, tool, category, true));
            && FailureRecorded(db, after, id, tool, if category.Some? then category.value else "tool-error", true)
            && ProofRecorded(db, after, id, tool, proof, false) && after.tickets == db.tickets
  {
    var failed := Exec(db, ProofFailed(id, tool, proof));
    FailureIsRecorded(failed, RecordFailure(id, None, tool, category, true));
    assert forall key :: PatternAt(failed, key) == PatternAt(db, key);
  }

  lemma LearningAfterExercise(db: Db, id: RunId, tool: string, recovered: Option<Key>)
    requires id in db.runs
    ensures Learned(db, LearnFrom(Exec(db, Exercise(id, tool)), id, recovered), id, tool, recovered)
  {
  }

  lemma DemandAfterExercise(db: Db, id: RunId, tool: string)
    requires id in db.runs
    ensures var exercised := Exec(db, Exercise(id, tool));
            VerificationOwed(db, WithLoop(exercised, id, VerificationDemanded(exercised.runs[id].loop)), id, tool)
  {
  }

  /** Exercising and recording a proof touch different columns. */
  lemma ExerciseCommutes(db: Db, id: RunId, tool: string, proof: Proof)
    requires id in db.runs
    ensures var exercised := Exec(db, Exercise(id, tool));
            var recorded := WithRun(db, id, RecordProof(db.runs[id], tool, Some(proof), true));
            && exercised.runs[id].loop == db.runs[id].loop
            && WithRun(exercised, id, RecordProof(exercised.runs[id], tool, Some(proof), true)) ==
               Exec(recorded, Exercise(id, tool))
  {
  }

  /** What a commit does to rows in which the proof is recorded already and the exposures are not yet exercised. */
  lemma CommitCloses(recorded: Db, after: Db, id: RunId, tool: string)
    requires id in recorded.runs
    requires var loop := recorded.runs[id].loop; var next := Exec(recorded, Exercise(id, tool));
             after == if SelectionSatisfied(loop.shape, loop.selection, recorded.runs[id].proofs)
                      then LearnFrom(next, id, RecoveredKey(loop))
                      else WithLoop(next, id, VerificationDemanded(next.runs[id].loop))
    ensures id in after.runs && after.runs[id].proofs == recorded.runs[id].proofs && after.tickets == recorded.tickets
    ensures if SelectedHasPassed(recorded.runs[id])
            then Learned(recorded, after, id, tool, OpenFailure(recorded.runs[id].loop))
            else VerificationOwed(recorded, after, id, tool)
  {
    LearningAfterExercise(recorded, id, tool, RecoveredKey(recorded.runs[id].loop));
    DemandAfterExercise(recorded, id, tool);
  }

  /** A Verify that succeeds records its proof as passed, and what the selection says then decides. */
  lemma VerifyIsVerified(db: Db, id: RunId, tool: string, proof: Proof)
    requires id in db.runs
    ensures var after := Exec(Exec(db, Exercise(id, tool)), VerifyCommit(id, db.runs[id].loop, tool, Some(proof)));
            && Verified(db, after, id, tool) && ProofRecorded(db, after, id, tool, proof, true)
            && after.tickets == db.tickets
  {
    var recorded := WithRun(db, id, RecordProof(db.runs[id], tool, Some(proof), true));
    var exercised := Exec(db, Exercise(id, tool));
    ExerciseCommutes(db, id, tool, proof);
    CommitIsOnRecorded(db, recorded, exercised, id, tool, proof);
    var after := CommitVerify(exercised, id, db.runs[id].loop, tool, Some(proof));
    CommitCloses(recorded, after, id, tool);
    FromRecorded(db, recorded, after, id, tool, proof);
  }

  lemma CommitIsOnRecorded(db: Db, recorded: Db, exercised: Db, id: RunId, tool: string, proof: Proof)
    requires id in db.runs && recorded == WithRun(db, id, RecordProof(db.runs[id], tool, Some(proof), true))
    requires id in exercised.runs && exercised.runs[id].proofs == db.runs[id].proofs
    requires var next := WithRun(exercised, id, RecordProof(exercised.runs[id], tool, Some(proof), true));
             next == Exec(recorded, Exercise(id, tool))
    ensures var loop := db.runs[id].loop; var next := Exec(recorded, Exercise(id, tool));
            CommitVerify(exercised, id, loop, tool, Some(proof)) ==
            if SelectionSatisfied(loop.shape, loop.selection, recorded.runs[id].proofs)
            then LearnFrom(next, id, RecoveredKey(loop))
            else WithLoop(next, id, VerificationDemanded(next.runs[id].loop))
  {
  }

  lemma FromRecorded(db: Db, recorded: Db, after: Db, id: RunId, tool: string, proof: Proof)
    requires id in db.runs && recorded == WithRun(db, id, RecordProof(db.runs[id], tool, Some(proof), true))
    requires id in after.runs && after.runs[id].proofs == recorded.runs[id].proofs
    requires if SelectedHasPassed(recorded.runs[id])
             then Learned(recorded, after, id, tool, OpenFailure(db.runs[id].loop))
             else VerificationOwed(recorded, after, id, tool)
    ensures Verified(db, after, id, tool)
  {
  }

  /** What a successful Verify means for the gates. */
  lemma VerifySettlesExactlyWhen(before: Db, after: Db, id: RunId, tool: string)
    requires Verified(before, after, id, tool)
    ensures var was, now := before.runs[id].loop, after.runs[id].loop;
            !now.verificationRequired && now.recovery !in {Needed, InProgress} <==>
            && SelectedHasPassed(after.runs[id])
            && (was.recovery in {Needed, InProgress} ==> was.lastTool.Some? && was.lastCategory.Some?)
  {
  }

  /* ---------- starts ---------- */

  /** The scope is the common part of what it was and what the call names, and stays as it was if it names nothing. */
  ghost predicate NarrowsScope(was: Option<string>, named: Option<string>, now: Option<string>) {
    && (now.None? <==> was.None? && named.None?)
    && (now.Some? ==> IsGreatestCommonPrefix(Segments(now.value), was, [named]))
    && (named.None? ==> now == was)
  }

  /** What an Execute that begins on a fresh row writes: an open recovery is taken up, and nothing is settled. */
  ghost predicate ExecuteBegun(was: LoopRow, now: LoopRow, request: ExecuteRequest) {
    && now.executions == was.executions + 1
    && now.recovery == (if was.recovery in {Needed, InProgress} then InProgress else was.recovery)
    && now.phase == (if was.recovery in {Needed, InProgress} then Recover else Execute)
    && IsRankMaximum(now.shape, was.shape, [request.shape])
    && NarrowsScope(was.scope, request.scope, now.scope)
    && now.selection == request.selection
    && was == now.(executions := was.executions, recovery := was.recovery, phase := was.phase, shape := was.shape,
                   scope := was.scope, selection := was.selection)
  }

  lemma ExecuteBegins(db: Db, id: RunId, ticket: TicketId, request: ExecuteRequest)
    requires id in db.runs && db.runs[id].loop.contextReads > 0 && ticket !in db.tickets
    ensures var after := Exec(db, ExecuteStart(id, ticket, db.runs[id].loop, db.runs[id].loop, request));
            && id in after.runs && ExecuteBegun(db.runs[id].loop, after.runs[id].loop, request)
            && after == db.(runs := db.runs[id := db.runs[id].(loop := after.runs[id].loop)],
                            tickets := db.tickets[ticket := id])
  {
    var loop := db.runs[id].loop;
    FoldShapeIsRankMaximum(loop.shape, [request.shape]);
    assert FoldShape(loop.shape, []) == loop.shape && [request.shape][..0] == [];
    FoldScopeIsGreatestCommonPrefix(loop.scope, [request.scope]);
    assert FoldScope(loop.scope, []) == loop.scope && [request.scope][..0] == [];
    var scope := FoldScope(loop.scope, [request.scope]);
    assert scope == MergeScope(loop.scope, request.scope);
    if loop.scope.Some? {
      assert Contributes(loop.scope.value, loop.scope, [request.scope]);
    }
    if request.scope.Some? {
      assert Contributes(request.scope.value, loop.scope, [request.scope]);
    }
  }

  /* ---------- what moves an exposure ---------- */

  /** A transaction that closes the cycle of the run. */
  predicate ClosesCycle(db: Db, tx: Tx) {
    && tx.run in db.runs
    && ((tx.NativeFinish? && tx.observed.shape == ReadOnly)
        || (tx.VerifyCommit?
            && SelectionSatisfied(tx.observed.shape, tx.observed.selection,
                                  RecordProof(db.runs[tx.run], tx.tool, tx.proof, true).proofs)))
  }

  /**
   A pending exposure is exercised by a success of its tool; an open one fails with a failure of its tool; an
   exercised one passes when the cycle closes; and nothing else moves any.
  */
  lemma ExposureMovesExactlyWhen(db: Db, tx: Tx, id: RunId, key: Key)
    requires id in db.runs && key in db.runs[id].exposures
    ensures id in Exec(db, tx).runs && key in Exec(db, tx).runs[id].exposures
    ensures var was, now := db.runs[id].exposures[key], Exec(db, tx).runs[id].exposures[key];
            && (was != now ==> tx.run == id && Enabled(db, tx))
            && (tx.run == id && Enabled(db, tx) ==>
                  && (was == Pending && now == Exercised <==> was == Pending && tx.Exercise? && tx.tool == key.tool)
                  && (was != Failed && now == Failed <==>
                      was in {Pending, Exercised} && tx.RecordFailure? && tx.tool == key.tool)
                  && (was != Passed && now == Passed <==> was == Exercised && ClosesCycle(db, tx)))
  {
    ExposuresOnlyMoveForward(db, tx, id, key);
    if tx.run != id || !Enabled(db, tx) || !TouchesExposures(tx) {
      ExposuresUntouched(db, tx, id);
    } else if tx.VerifyCommit? {
      CommitPassesExercised(db, tx, key);
    }
  }

  lemma CommitPassesExercised(db: Db, tx: Tx, key: Key)
    requires tx.VerifyCommit? && tx.run in db.runs && key in db.runs[tx.run].exposures
    ensures var after := Exec(db, tx); var was := db.runs[tx.run].exposures[key];
            && tx.run in after.runs && key in after.runs[tx.run].exposures
            && after.runs[tx.run].exposures[key] == if ClosesCycle(db, tx) && was == Exercised then Passed else was
  {
    assert RecordProof(db.runs[tx.run], tx.tool, tx.proof, true).exposures == db.runs[tx.run].exposures;
  }

  /* ---------- what the learning counters count ---------- */

  /** The transaction records a failure of exactly this tool and category. */
  predicate RecordsFailure(db: Db, tx: Tx, key: Key) {
    && tx.RecordFailure? && Enabled(db, tx)
    && tx.tool == key.tool && key.category == if tx.category.Some? then tx.category.value else "tool-error"
  }

  /** The transaction is a Verify that closes its cycle and has seen this failure open. */
  predicate RecordsRecovery(db: Db, tx: Tx, key: Key) {
    tx.VerifyCommit? && ClosesCycle(db, tx) && OpenFailure(tx.observed) == Some(key) && key in db.patterns
  }

  lemma StepCounts(db: Db, tx: Tx, key: Key)
    ensures PatternAt(Exec(db, tx), key).failures == PatternAt(db, key).failures + One(RecordsFailure(db, tx, key))
    ensures PatternAt(Exec(db, tx), key).recoveries == PatternAt(db, key).recoveries + One(RecordsRecovery(db, tx, key))
  {
    if tx.RecordFailure? && Enabled(db, tx) {
      FailureIsRecorded(db, tx);
    } else if tx.VerifyCommit? && Enabled(db, tx) {
      CommitCounts(db, tx, key);
    } else {
      OthersCountNothing(db, tx, key);
    }
  }

  lemma CommitCounts(db: Db, tx: Tx, key: Key)
    requires tx.VerifyCommit? && Enabled(db, tx)
    ensures PatternAt(Exec(db, tx), key).failures == PatternAt(db, key).failures
    ensures PatternAt(Exec(db, tx), key).recoveries == PatternAt(db, key).recoveries + One(RecordsRecovery(db, tx, key))
  {
  }

  lemma OthersCountNothing(db: Db, tx: Tx, key: Key)
    requires !(tx.RecordFailure? && Enabled(db, tx)) && !(tx.VerifyCommit? && Enabled(db, tx))
    ensures PatternAt(Exec(db, tx), key).failures == PatternAt(db, key).failures
    ensures PatternAt(Exec(db, tx), key).recoveries == PatternAt(db, key).recoveries
  {
  }

  function FailureCount(start: Db, history: History, n: nat, key: Key): nat
    requires n <= |history|
  {
    if n == 0 then 0
    else
      var earlier := FailureCount(start, history, n - 1, key);
      if RecordsFailure(After(start, history, n - 1), history[n - 1], key) then earlier + 1 else earlier
  }

  function RecoveryCount(start: Db, history: History, n: nat, key: Key): nat
    requires n <= |history|
  {
    if n == 0 then 0
    else
      var earlier := RecoveryCount(start, history, n - 1, key);
      if RecordsRecovery(After(start, history, n - 1), history[n - 1], key) then earlier + 1 else earlier
  }

  /** In every history, stale decisions or not, the two counters count the failures and the recoveries of their key. */
  lemma {:induction false} CountersCount(history: History, n: nat, key: Key)
    requires n <= |history|
    ensures PatternAt(After(EMPTY, history, n), key).failures == FailureCount(EMPTY, history, n, key)
    ensures PatternAt(After(EMPTY, history, n), key).recoveries == RecoveryCount(EMPTY, history, n, key)
  {
    if n > 0 {
      CountersCount(history, n - 1, key);
      StepCounts(After(EMPTY, history, n - 1), history[n - 1], key);
    }
  }

  /* ---------- runs that have ended ---------- */

  /** A run that has stopped running never runs again. */
  lemma {:induction false} EndedRunsStayEnded(start: Db, history: History, m: nat, n: nat, id: RunId)
    requires m <= n <= |history|
    requires id in After(start, history, m).runs && After(start, history, m).runs[id].status != Running
    ensures id in After(start, history, n).runs && After(start, history, n).runs[id].status != Running
  {
    if m < n {
      EndedRunsStayEnded(start, history, m, n - 1, id);
      StepKeepsEnded(After(start, history, n - 1), history[n - 1], id);
    }
  }

  /** A status only ever moves to an ended one, completed only from running and cancelled from running or stale. */
  lemma StepKeepsEnded(db: Db, tx: Tx, id: RunId)
    requires id in db.runs
    ensures id in Exec(db, tx).runs
    ensures var was, now := db.runs[id].status, Exec(db, tx).runs[id].status;
            was != now ==>
              || (now == Completed && was == Running && tx.CompleteRun?)
              || (now == Stale && was == Running && tx.GoStale?)
              || (now == Cancelled && was in {Running, Stale} && tx.CancelRun?)
  {
  }
}
