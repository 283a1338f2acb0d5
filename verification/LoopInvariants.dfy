/**
 What holds in every reachable state of the closed loop, over every interleaving of runs
 in a workspace: the columns of a loop row agree and confirmations are conserved, in every
 history at all; recoveries are covered by failures as long as no stale decision takes up
 or closes a recovery that is no longer open; and a recovery under way has its failure on
 record exactly as long as no stale start takes one up in a row without a failure.
*/
module LoopInvariants {
  import opened Wrappers
  import opened WorkScope
  import opened ClosedLoop

  /* ---------- a single loop row ---------- */

  ghost predicate RowBasics(loop: LoopRow) {
    && (loop.lastTool.Some? <==> loop.lastCategory.Some?)
    && (loop.verificationRequired ==>
        loop.verification == VerificationPending || loop.verification == VerificationFailed)
    && (loop.phase == Learn ==> !loop.verificationRequired && loop.verification == VerificationPassed)
  }

  /** A recovery that is under way is the recovery of something. */
  ghost predicate RecoveryHasFailure(loop: LoopRow) {
    Unresolved(loop) ==> loop.lastTool.Some?
  }

  ghost predicate RowConsistent(loop: LoopRow) {
    RowBasics(loop) && RecoveryHasFailure(loop)
  }

  /* ---------- the ledger of one learning key ---------- */

  predicate OpenOn(run: Run, key: Key) {
    RecoveredKey(run.loop) == Some(key)
  }

  predicate PassedOn(run: Run, key: Key) {
    key in run.exposures && run.exposures[key] == Passed
  }

  /** The runs whose unresolved failure is `key`. */
  function OpenRuns(runs: map<RunId, Run>, key: Key): set<RunId> {
    set id | id in runs && OpenOn(runs[id], key)
  }

  /** The runs whose exposure to `key` was confirmed. */
  function PassedRuns(runs: map<RunId, Run>, key: Key): set<RunId> {
    set id | id in runs && PassedOn(runs[id], key)
  }

  function PatternAt(db: Db, key: Key): Pattern {
    if key in db.patterns then db.patterns[key] else Pattern(0, 0, 0)
  }

  /** Every failure of `key` is recovered at most once, with room for every failure that is still open. */
  ghost predicate Covered(db: Db, key: Key) {
    PatternAt(db, key).recoveries + |OpenRuns(db.runs, key)| <= PatternAt(db, key).failures
  }

  /** Every confirmation of `key` has its exposure. */
  ghost predicate Confirmed(db: Db, key: Key) {
    PatternAt(db, key).confirmations == |PassedRuns(db.runs, key)|
  }

  ghost predicate RunConserved(db: Db, run: Run) {
    RowBasics(run.loop) && run.exposures.Keys <= db.patterns.Keys
  }

  /** What no transaction can break, however old the row it was decided on. */
  ghost predicate Conserved(db: Db) {
    && (forall id | id in db.runs :: RunConserved(db, db.runs[id]))
    && (forall key :: Confirmed(db, key))
  }

  /** What a stale decision can break. */
  ghost predicate Balanced(db: Db) {
    && (forall id | id in db.runs :: RecoveryHasFailure(db.runs[id].loop))
    && (forall key :: Covered(db, key))
  }

  ghost predicate Consistent(db: Db) {
    Conserved(db) && Balanced(db)
  }

  /* ---------- one transaction ---------- */

  function One(holds: bool): int {
    if holds then 1 else 0
  }

  lemma OpenRunsAfterUpdate(runs: map<RunId, Run>, id: RunId, run: Run, key: Key)
    ensures |OpenRuns(runs[id := run], key)|
         == |OpenRuns(runs, key)| - One(id in runs && OpenOn(runs[id], key)) + One(OpenOn(run, key))
  {
    var before, after := OpenRuns(runs, key), OpenRuns(runs[id := run], key);
    assert after == if OpenOn(run, key) then before + {id} else before - {id};
  }

  lemma PassedRunsAfterUpdate(runs: map<RunId, Run>, id: RunId, run: Run, key: Key)
    ensures |PassedRuns(runs[id := run], key)|
         == |PassedRuns(runs, key)| - One(id in runs && PassedOn(runs[id], key)) + One(PassedOn(run, key))
  {
    var before, after := PassedRuns(runs, key), PassedRuns(runs[id := run], key);
    assert after == if PassedOn(run, key) then before + {id} else before - {id};
  }

  /** Between the two states only run `id`, the patterns and the tickets have changed. */
  ghost predicate OnlyRun(before: Db, after: Db, id: RunId) {
    id in after.runs && after.runs == before.runs[id := after.runs[id]]
  }

  /** Each confirmation that is added or lost goes with an exposure of this run. */
  ghost predicate ConfirmsOwn(before: Db, after: Db, id: RunId)
    requires id in after.runs
  {
    && before.patterns.Keys + after.runs[id].exposures.Keys <= after.patterns.Keys
    && forall key ::
         PatternAt(after, key).confirmations - PatternAt(before, key).confirmations
         == One(PassedOn(after.runs[id], key)) - One(id in before.runs && PassedOn(before.runs[id], key))
  }

  /** Each recovery that is added or opened is paid for by a failure of this run. */
  ghost predicate PaysOwn(before: Db, after: Db, id: RunId)
    requires id in after.runs
  {
    forall key ::
      PatternAt(after, key).recoveries - PatternAt(before, key).recoveries + One(OpenOn(after.runs[id], key))
      <= PatternAt(after, key).failures - PatternAt(before, key).failures
         + One(id in before.runs && OpenOn(before.runs[id], key))
  }

  lemma ConservedAfter(before: Db, after: Db, id: RunId)
    requires Conserved(before) && OnlyRun(before, after, id) && ConfirmsOwn(before, after, id)
    requires RowBasics(after.runs[id].loop)
    ensures Conserved(after)
  {
    forall key ensures Confirmed(after, key) {
      assert Confirmed(before, key);
      PassedRunsAfterUpdate(before.runs, id, after.runs[id], key);
    }
  }

  lemma BalancedAfter(before: Db, after: Db, id: RunId)
    requires Balanced(before) && OnlyRun(before, after, id) && PaysOwn(before, after, id)
    requires RecoveryHasFailure(after.runs[id].loop)
    ensures Balanced(after)
  {
    forall key ensures Covered(after, key) {
      assert Covered(before, key);
      OpenRunsAfterUpdate(before.runs, id, after.runs[id], key);
    }
  }

  /** The transactions that count something. */
  predicate Counts(tx: Tx) {
    tx.BeginRun? || tx.RecordFailure? || tx.VerifyCommit? || tx.NativeFinish? || tx.Exercise?
  }

  /* ---------- confirmations: every history ---------- */

  lemma LearningConfirms(db: Db, id: RunId, recovered: Option<Key>)
    requires id in db.runs && db.runs[id].exposures.Keys <= db.patterns.Keys
    ensures var after := LearnFrom(db, id, recovered);
            OnlyRun(db, after, id) && ConfirmsOwn(db, after, id) &&
              (RowBasics(db.runs[id].loop) ==> RowBasics(after.runs[id].loop))
  {
  }

  lemma FailureConfirmsNothing(db: Db, id: RunId, failed: Key, verification: bool)
    requires id in db.runs && db.runs[id].exposures.Keys <= db.patterns.Keys
    ensures var after := NoteFailure(db, id, failed, verification);
            OnlyRun(db, after, id) && ConfirmsOwn(db, after, id) &&
              (RowBasics(db.runs[id].loop) ==> RowBasics(after.runs[id].loop))
  {
  }

  lemma CommitKeepsConserved(db: Db, id: RunId, observed: LoopRow, tool: string, proof: Option<Proof>)
    requires Conserved(db) && id in db.runs
    ensures Conserved(CommitVerify(db, id, observed, tool, proof))
  {
    var run := RecordProof(db.runs[id], tool, proof, true);
    var recorded := WithRun(db, id, run);
    assert run.loop == db.runs[id].loop && run.exposures == db.runs[id].exposures;
    ConservedAfter(db, recorded, id);
    if SelectionSatisfied(observed.shape, observed.selection, run.proofs) {
      LearningConfirms(recorded, id, RecoveredKey(observed));
      ConservedAfter(recorded, LearnFrom(recorded, id, RecoveredKey(observed)), id);
    } else {
      ConservedAfter(recorded, WithLoop(recorded, id, VerificationDemanded(run.loop)), id);
    }
  }

  lemma QuietConfirmsNothing(db: Db, tx: Tx)
    requires Enabled(db, tx) && !Counts(tx) && db.runs[tx.run].exposures.Keys <= db.patterns.Keys
    ensures OnlyRun(db, Exec(db, tx), tx.run) && ConfirmsOwn(db, Exec(db, tx), tx.run)
    ensures RowBasics(db.runs[tx.run].loop) ==> RowBasics(Exec(db, tx).runs[tx.run].loop)
  {
  }

  lemma BeginConfirmsNothing(db: Db, tx: Tx)
    requires Enabled(db, tx) && tx.BeginRun?
    ensures OnlyRun(db, Exec(db, tx), tx.run) && ConfirmsOwn(db, Exec(db, tx), tx.run)
    ensures RowBasics(Exec(db, tx).runs[tx.run].loop)
  {
  }

  lemma ExerciseConfirmsNothing(db: Db, tx: Tx)
    requires Enabled(db, tx) && tx.Exercise? && db.runs[tx.run].exposures.Keys <= db.patterns.Keys
    ensures OnlyRun(db, Exec(db, tx), tx.run) && ConfirmsOwn(db, Exec(db, tx), tx.run)
    ensures Exec(db, tx).runs[tx.run].loop == db.runs[tx.run].loop
  {
  }

  lemma NativeFinishConfirms(db: Db, tx: Tx)
    requires Enabled(db, tx) && tx.NativeFinish? && db.runs[tx.run].exposures.Keys <= db.patterns.Keys
    ensures OnlyRun(db, Exec(db, tx), tx.run) && ConfirmsOwn(db, Exec(db, tx), tx.run)
    ensures RowBasics(db.runs[tx.run].loop) ==> RowBasics(Exec(db, tx).runs[tx.run].loop)
  {
    LearningConfirms(db, tx.run, None);
  }

  /** No transaction other than a Verify's commit confirms more than it should. */
  lemma StepConfirmsOwn(db: Db, tx: Tx)
    requires Conserved(db) && Enabled(db, tx) && !tx.VerifyCommit?
    ensures OnlyRun(db, Exec(db, tx), tx.run) && ConfirmsOwn(db, Exec(db, tx), tx.run)
    ensures RowBasics(Exec(db, tx).runs[tx.run].loop)
  {
    if !tx.BeginRun? {
      assert RunConserved(db, db.runs[tx.run]);
    }
    match tx {
      case BeginRun(_, _, _) => BeginConfirmsNothing(db, tx);
      case Exercise(_, _) => ExerciseConfirmsNothing(db, tx);
      case NativeFinish(_, _) => NativeFinishConfirms(db, tx);
      case RecordFailure(id, ticket, tool, category, verification) =>
        var key := FailureKey(tool, category);
        FailureConfirmsNothing(db, id, key, verification);
        assert Exec(db, tx) == WithoutTicket(NoteFailure(db, id, key, verification), ticket);
      case _ => QuietConfirmsNothing(db, tx);
    }
  }

  lemma StepKeepsConserved(db: Db, tx: Tx)
    requires Conserved(db)
    ensures Conserved(Exec(db, tx))
  {
    if Enabled(db, tx) {
      if tx.VerifyCommit? {
        CommitKeepsConserved(db, tx.run, tx.observed, tx.tool, tx.proof);
      } else {
        StepConfirmsOwn(db, tx);
        ConservedAfter(db, Exec(db, tx), tx.run);
      }
    }
  }

  lemma EmptyIsConsistent()
    ensures Consistent(EMPTY)
  {
    forall key ensures Confirmed(EMPTY, key) && Covered(EMPTY, key) {
      assert OpenRuns(EMPTY.runs, key) == {} == PassedRuns(EMPTY.runs, key);
    }
  }

  /** Every state any history reaches is conserved, stale decisions or not. */
  lemma {:induction false} ReachableIsConserved(start: Db, history: History, n: nat)
    requires Conserved(start) && n <= |history|
    ensures Conserved(After(start, history, n))
  {
    if n > 0 {
      ReachableIsConserved(start, history, n - 1);
      StepKeepsConserved(After(start, history, n - 1), history[n - 1]);
    }
  }

  /** Confirmations are exactly the exposures that passed. */
  lemma ConfirmationsAreConserved(history: History, key: Key)
    ensures var db := After(EMPTY, history, |history|);
            PatternAt(db, key).confirmations == |PassedRuns(db.runs, key)|
  {
    EmptyIsConsistent();
    ReachableIsConserved(EMPTY, history, |history|);
    assert Confirmed(After(EMPTY, history, |history|), key);
  }

  /** What the gates and the evaluator may take for granted about any loop row. */
  lemma LoopRowsAgree(history: History, n: nat, id: RunId)
    requires n <= |history| && id in After(EMPTY, history, n).runs
    ensures var loop := After(EMPTY, history, n).runs[id].loop;
            && (loop.verificationRequired ==> loop.verification in {VerificationPending, VerificationFailed})
            && (loop.phase == Learn ==> !loop.verificationRequired && loop.verification == VerificationPassed)
  {
    EmptyIsConsistent();
    ReachableIsConserved(EMPTY, history, n);
    assert RunConserved(After(EMPTY, history, n), After(EMPTY, history, n).runs[id]);
  }

  /* ---------- recoveries: histories without harmful stale decisions ---------- */

  /** The failure the Verify is about to count as recovered is still the open one. */
  predicate StillOpen(observed: LoopRow, current: LoopRow) {
    RecoveredKey(observed).Some? ==> RecoveredKey(current) == RecoveredKey(observed)
  }

  /** A recovery that was seen open when a call started still is. */
  predicate StillUnresolved(observed: LoopRow, current: LoopRow) {
    Unresolved(observed) ==> Unresolved(current)
  }

  /** The decision, however old, does the ledger no harm when it meets the run as it is now. */
  predicate HarmlessOn(run: Run, tx: Tx) {
    match tx
    case ExecuteStart(_, _, planned, observed, _) => planned.contextReads > 0 ==> StillUnresolved(observed, run.loop)
    case NativeStart(_, observed) => StillUnresolved(observed, run.loop)
    case VerifyCommit(_, observed, tool, proof) =>
      || StillOpen(observed, run.loop)
      || !SelectionSatisfied(observed.shape, observed.selection, RecordProof(run, tool, proof, true).proofs)
    case _ => true
  }

  predicate Harmless(db: Db, tx: Tx) {
    tx.run in db.runs ==> HarmlessOn(db.runs[tx.run], tx)
  }

  ghost predicate AllHarmless(start: Db, history: History) {
    forall i | 0 <= i < |history| :: Harmless(After(start, history, i), history[i])
  }

  lemma LearningPays(db: Db, id: RunId, recovered: Option<Key>)
    requires id in db.runs && (recovered.None? || recovered == RecoveredKey(db.runs[id].loop))
    ensures var after := LearnFrom(db, id, recovered);
            && OnlyRun(db, after, id) && PaysOwn(db, after, id)
            && (RecoveryHasFailure(db.runs[id].loop) ==> RecoveryHasFailure(after.runs[id].loop))
  {
  }

  lemma FailurePays(db: Db, id: RunId, failed: Key, verification: bool)
    requires id in db.runs
    ensures var after := NoteFailure(db, id, failed, verification);
            OnlyRun(db, after, id) && PaysOwn(db, after, id) && RecoveryHasFailure(after.runs[id].loop)
  {
  }

  lemma CommitKeepsBalanced(db: Db, id: RunId, observed: LoopRow, tool: string, proof: Option<Proof>)
    requires Balanced(db) && id in db.runs && Harmless(db, VerifyCommit(id, observed, tool, proof))
    ensures Balanced(CommitVerify(db, id, observed, tool, proof))
  {
    var run := RecordProof(db.runs[id], tool, proof, true);
    var recorded := WithRun(db, id, run);
    assert run.loop == db.runs[id].loop;
    BalancedAfter(db, recorded, id);
    if SelectionSatisfied(observed.shape, observed.selection, run.proofs) {
      LearningPays(recorded, id, RecoveredKey(observed));
      BalancedAfter(recorded, LearnFrom(recorded, id, RecoveredKey(observed)), id);
    } else {
      BalancedAfter(recorded, WithLoop(recorded, id, VerificationDemanded(run.loop)), id);
    }
  }

  lemma QuietPays(db: Db, tx: Tx)
    requires Enabled(db, tx) && Harmless(db, tx) && !Counts(tx)
    ensures OnlyRun(db, Exec(db, tx), tx.run) && PaysOwn(db, Exec(db, tx), tx.run)
    ensures RecoveryHasFailure(db.runs[tx.run].loop) ==> RecoveryHasFailure(Exec(db, tx).runs[tx.run].loop)
  {
  }

  lemma NativeFinishPays(db: Db, tx: Tx)
    requires Enabled(db, tx) && tx.NativeFinish?
    ensures OnlyRun(db, Exec(db, tx), tx.run) && PaysOwn(db, Exec(db, tx), tx.run)
    ensures RecoveryHasFailure(db.runs[tx.run].loop) ==> RecoveryHasFailure(Exec(db, tx).runs[tx.run].loop)
  {
    LearningPays(db, tx.run, None);
  }

  lemma BeginPaysNothing(db: Db, tx: Tx)
    requires Enabled(db, tx) && (tx.BeginRun? || tx.Exercise?)
    ensures OnlyRun(db, Exec(db, tx), tx.run) && PaysOwn(db, Exec(db, tx), tx.run)
    ensures (tx.run in db.runs ==> RecoveryHasFailure(db.runs[tx.run].loop)) ==>
              RecoveryHasFailure(Exec(db, tx).runs[tx.run].loop)
  {
  }

  lemma StepPaysOwn(db: Db, tx: Tx)
    requires Balanced(db) && Enabled(db, tx) && Harmless(db, tx) && !tx.VerifyCommit?
    ensures OnlyRun(db, Exec(db, tx), tx.run) && PaysOwn(db, Exec(db, tx), tx.run)
    ensures RecoveryHasFailure(Exec(db, tx).runs[tx.run].loop)
  {
    match tx {
      case BeginRun(_, _, _) => BeginPaysNothing(db, tx);
      case Exercise(_, _) => BeginPaysNothing(db, tx);
      case NativeFinish(_, _) => NativeFinishPays(db, tx);
      case RecordFailure(id, ticket, tool, category, verification) =>
        var key := FailureKey(tool, category);
        FailurePays(db, id, key, verification);
        assert Exec(db, tx) == WithoutTicket(NoteFailure(db, id, key, verification), ticket);
      case _ => QuietPays(db, tx);
    }
  }

  lemma StepKeepsBalanced(db: Db, tx: Tx)
    requires Balanced(db) && Harmless(db, tx)
    ensures Balanced(Exec(db, tx))
  {
    if Enabled(db, tx) {
      if tx.VerifyCommit? {
        CommitKeepsBalanced(db, tx.run, tx.observed, tx.tool, tx.proof);
      } else {
        StepPaysOwn(db, tx);
        BalancedAfter(db, Exec(db, tx), tx.run);
      }
    }
  }

  lemma {:induction false} ReachableIsBalanced(start: Db, history: History, n: nat)
    requires Balanced(start) && n <= |history| && AllHarmless(start, history)
    ensures Balanced(After(start, history, n))
  {
    if n > 0 {
      ReachableIsBalanced(start, history, n - 1);
      StepKeepsBalanced(After(start, history, n - 1), history[n - 1]);
    }
  }

  /** Recoveries never exceed failures, with room for every failure that is still open. */
  lemma RecoveriesNeverExceedFailures(history: History, key: Key)
    requires AllHarmless(EMPTY, history)
    ensures var db := After(EMPTY, history, |history|);
            PatternAt(db, key).recoveries + |OpenRuns(db.runs, key)| <= PatternAt(db, key).failures
  {
    EmptyIsConsistent();
    ReachableIsBalanced(EMPTY, history, |history|);
    assert Covered(After(EMPTY, history, |history|), key);
  }

  /* ---------- a recovery under way is the recovery of something ---------- */

  ghost predicate RecoveryOnRecord(db: Db) {
    forall id | id in db.runs :: RecoveryHasFailure(db.runs[id].loop)
  }

  /** A start that has seen a recovery open meets a row that has a failure on record, if not an open one. */
  predicate StartsOnRecord(db: Db, tx: Tx) {
    Enabled(db, tx) && (tx.ExecuteStart? || tx.NativeStart?) && Unresolved(tx.observed) ==>
      db.runs[tx.run].loop.lastTool.Some?
  }

  ghost predicate StartsOnRecordAt(start: Db, history: History, k: int) {
    0 <= k < |history| ==> StartsOnRecord(After(start, history, k), history[k])
  }

  lemma OtherRunsKeepRecord(db: Db, tx: Tx, id: RunId)
    requires Enabled(db, tx) && id != tx.run
    ensures id in Exec(db, tx).runs <==> id in db.runs
    ensures id in db.runs ==> Exec(db, tx).runs[id] == db.runs[id]
  {
  }

  lemma CommitKeepsRecord(db: Db, id: RunId, observed: LoopRow, tool: string, proof: Option<Proof>)
    requires id in db.runs && RecoveryHasFailure(db.runs[id].loop)
    ensures RecoveryHasFailure(CommitVerify(db, id, observed, tool, proof).runs[id].loop)
  {
    assert RecordProof(db.runs[id], tool, proof, true).loop == db.runs[id].loop;
  }

  lemma OwnRunKeepsRecordExactlyWhen(db: Db, tx: Tx)
    requires Enabled(db, tx) && (tx.run in db.runs ==> RecoveryHasFailure(db.runs[tx.run].loop))
    ensures tx.run in Exec(db, tx).runs
    ensures RecoveryHasFailure(Exec(db, tx).runs[tx.run].loop) <==> StartsOnRecord(db, tx)
  {
    if tx.VerifyCommit? {
      CommitKeepsRecord(db, tx.run, tx.observed, tx.tool, tx.proof);
    }
  }

  /**
   A transaction decided on any row at all leaves a failure behind every recovery under way exactly when it is not
   a start that takes up a recovery in a row without a failure.
  */
  lemma StepKeepsRecordExactlyWhen(db: Db, tx: Tx)
    requires RecoveryOnRecord(db)
    ensures RecoveryOnRecord(Exec(db, tx)) <==> StartsOnRecord(db, tx)
  {
    if Enabled(db, tx) {
      OwnRunKeepsRecordExactlyWhen(db, tx);
      forall id | id in Exec(db, tx).runs && id != tx.run ensures RecoveryHasFailure(Exec(db, tx).runs[id].loop) {
        OtherRunsKeepRecord(db, tx, id);
      }
    }
  }

  ghost predicate RecordAt(start: Db, history: History, k: int) {
    0 <= k <= |history| ==> RecoveryOnRecord(After(start, history, k))
  }

  lemma {:induction false} StartsKeepRecord(start: Db, history: History, n: nat)
    requires n <= |history| && RecoveryOnRecord(start) && forall k | k < n :: StartsOnRecordAt(start, history, k)
    ensures RecordAt(start, history, n)
  {
    if n > 0 {
      StartsKeepRecord(start, history, n - 1);
      assert StartsOnRecordAt(start, history, n - 1);
      StepKeepsRecordExactlyWhen(After(start, history, n - 1), history[n - 1]);
    }
  }

  lemma RecordNeedsStart(start: Db, history: History, k: int)
    requires RecordAt(start, history, k) && RecordAt(start, history, k + 1)
    ensures StartsOnRecordAt(start, history, k)
  {
    if 0 <= k < |history| {
      StepKeepsRecordExactlyWhen(After(start, history, k), history[k]);
    }
  }

  /** Throughout a history every recovery under way has its failure on record exactly when every such start does. */
  lemma RecoveriesStayOnRecordExactlyWhen(start: Db, history: History)
    requires RecoveryOnRecord(start)
    ensures (forall k :: RecordAt(start, history, k)) <==> (forall k :: StartsOnRecordAt(start, history, k))
  {
    if forall k :: RecordAt(start, history, k) {
      forall k ensures StartsOnRecordAt(start, history, k) {
        assert RecordAt(start, history, k) && RecordAt(start, history, k + 1);
        RecordNeedsStart(start, history, k);
      }
    } else {
      var k :| !RecordAt(start, history, k);
      if forall j :: StartsOnRecordAt(start, history, j) {
        StartsKeepRecord(start, history, k);
      }
    }
  }

  /** With such starts alone, a recovery under way has its failed tool and category on record. */
  lemma UnresolvedHasFailure(history: History, n: nat, id: RunId)
    requires forall k :: StartsOnRecordAt(EMPTY, history, k)
    requires n <= |history| && id in After(EMPTY, history, n).runs
    ensures var loop := After(EMPTY, history, n).runs[id].loop;
            Unresolved(loop) ==> loop.lastTool.Some? && loop.lastCategory.Some?
  {
    EmptyIsConsistent();
    ReachableIsConserved(EMPTY, history, n);
    RecoveriesStayOnRecordExactlyWhen(EMPTY, history);
    assert RecordAt(EMPTY, history, n);
    var db := After(EMPTY, history, n);
    assert RunConserved(db, db.runs[id]) && RecoveryHasFailure(db.runs[id].loop);
  }

  /* ---------- the life of an exposure ---------- */

  predicate Moves(before: Outcome, after: Outcome) {
    || before == after
    || (before == Pending && (after == Exercised || after == Failed))
    || (before == Exercised && (after == Passed || after == Failed))
  }

  /** Confirming, failing and exercising are the only things that touch an exposure. */
  lemma LearningMovesForward(db: Db, id: RunId, recovered: Option<Key>, key: Key)
    requires id in db.runs && key in db.runs[id].exposures
    ensures key in LearnFrom(db, id, recovered).runs[id].exposures
    ensures Moves(db.runs[id].exposures[key], LearnFrom(db, id, recovered).runs[id].exposures[key])
  {
  }

  lemma CommitMovesForward(db: Db, id: RunId, observed: LoopRow, tool: string, proof: Option<Proof>, key: Key)
    requires id in db.runs && key in db.runs[id].exposures
    ensures id in CommitVerify(db, id, observed, tool, proof).runs
    ensures key in CommitVerify(db, id, observed, tool, proof).runs[id].exposures
    ensures Moves(db.runs[id].exposures[key], CommitVerify(db, id, observed, tool, proof).runs[id].exposures[key])
  {
    var run := RecordProof(db.runs[id], tool, proof, true);
    assert run.exposures == db.runs[id].exposures;
    LearningMovesForward(WithRun(db, id, run), id, RecoveredKey(observed), key);
  }

  predicate TouchesExposures(tx: Tx) {
    tx.VerifyCommit? || tx.NativeFinish? || tx.Exercise? || tx.RecordFailure?
  }

  lemma ExposuresUntouched(db: Db, tx: Tx, id: RunId)
    requires id in db.runs && (!Enabled(db, tx) || tx.run != id || !TouchesExposures(tx))
    ensures id in Exec(db, tx).runs && Exec(db, tx).runs[id].exposures == db.runs[id].exposures
  {
  }

  /** No transaction, fresh or not, removes a run or an exposure or moves an outcome backwards. */
  lemma ExposuresOnlyMoveForward(db: Db, tx: Tx, id: RunId, key: Key)
    requires id in db.runs && key in db.runs[id].exposures
    ensures id in Exec(db, tx).runs && key in Exec(db, tx).runs[id].exposures
    ensures Moves(db.runs[id].exposures[key], Exec(db, tx).runs[id].exposures[key])
  {
    if !Enabled(db, tx) || tx.run != id || !TouchesExposures(tx) {
      ExposuresUntouched(db, tx, id);
    } else {
      match tx {
        case VerifyCommit(_, observed, tool, proof) => CommitMovesForward(db, id, observed, tool, proof, key);
        case NativeFinish(_, _) => LearningMovesForward(db, id, None, key);
        case Exercise(_, _) =>
        case RecordFailure(_, _, _, _, _) =>
      }
    }
  }

  /** An exposure that passed or failed keeps that outcome to the end of any history. */
  lemma {:induction false} SettledExposureStays(start: Db, history: History, m: nat, n: nat, id: RunId, key: Key)
    requires m <= n <= |history|
    requires id in After(start, history, m).runs && key in After(start, history, m).runs[id].exposures
    requires After(start, history, m).runs[id].exposures[key] in {Passed, Failed}
    ensures id in After(start, history, n).runs && key in After(start, history, n).runs[id].exposures
    ensures After(start, history, n).runs[id].exposures[key] == After(start, history, m).runs[id].exposures[key]
  {
    if m < n {
      SettledExposureStays(start, history, m, n - 1, id, key);
      ExposuresOnlyMoveForward(After(start, history, n - 1), history[n - 1], id, key);
    }
  }
}
