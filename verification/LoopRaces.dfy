/**
 The reads that the closed loop makes outside its transactions, and what a stale one can do
 to the learning ledger: exactly which decisions are safe in every workspace, a history in
 which an unsafe one lets recoveries outgrow failures, and one that ends in a recovery of nothing.
*/
module LoopRaces {
  import opened Wrappers
  import opened WorkScope
  import opened ClosedLoop
  import opened LoopInvariants

  /** Every consistent workspace in which the run has these rows stays consistent under `tx`. */
  ghost predicate AlwaysSafe(run: Run, tx: Tx) {
    forall db: Db | Consistent(db) && tx.run in db.runs && db.runs[tx.run] == run :: Consistent(Exec(db, tx))
  }

  /** A workspace with this one run in which the ledger of `key` has no slack. */
  function TightDb(id: RunId, run: Run, key: Key): Db {
    var open := if RecoveredKey(run.loop).Some? then {RecoveredKey(run.loop).value} else {};
    var keys := run.exposures.Keys + {key} + open;
    Db(map[id := run],
       map k | k in keys :: Pattern(if OpenOn(run, k) then 2 else 1, 1, if PassedOn(run, k) then 1 else 0),
       map[])
  }

  lemma RunsOfOne(id: RunId, run: Run, key: Key)
    ensures OpenRuns(map[id := run], key) == if OpenOn(run, key) then {id} else {}
    ensures PassedRuns(map[id := run], key) == if PassedOn(run, key) then {id} else {}
  {
  }

  lemma TightDbIsConsistent(id: RunId, run: Run, key: Key)
    requires RowConsistent(run.loop)
    ensures Consistent(TightDb(id, run, key))
  {
    forall k ensures Confirmed(TightDb(id, run, key), k) && Covered(TightDb(id, run, key), k) {
      RunsOfOne(id, run, k);
    }
  }

  /** A Verify that closes a failure which is no longer the open one overdraws a ledger without slack. */
  lemma HarmfulVerifyUnbalances(run: Run, tx: Tx)
    requires RowConsistent(run.loop) && tx.VerifyCommit? && !HarmlessOn(run, tx)
    ensures !AlwaysSafe(run, tx)
  {
    var key := RecoveredKey(tx.observed).value;
    var db := TightDb(tx.run, run, key);
    TightDbIsConsistent(tx.run, run, key);
    assert PatternAt(Exec(db, tx), key).recoveries == 2 && PatternAt(Exec(db, tx), key).failures == 1;
    assert !Covered(Exec(db, tx), key);
  }

  /** A start that takes up a recovery the row no longer has breaks a ledger without slack, or the row itself. */
  lemma HarmfulStartUnbalances(run: Run, tx: Tx)
    requires RowConsistent(run.loop) && (tx.ExecuteStart? || tx.NativeStart?) && !HarmlessOn(run, tx)
    ensures !AlwaysSafe(run, tx)
  {
    var key :=
      if run.loop.lastTool.Some? then Key(run.loop.lastTool.value, run.loop.lastCategory.value) else Key("", "");
    TightDbIsConsistent(tx.run, run, key);
    StartReopens(run, tx, key);
  }

  lemma StartReopens(run: Run, tx: Tx, key: Key)
    requires RowConsistent(run.loop) && (tx.ExecuteStart? || tx.NativeStart?) && !HarmlessOn(run, tx)
    requires run.loop.lastTool.Some? ==> key == Key(run.loop.lastTool.value, run.loop.lastCategory.value)
    ensures !Consistent(Exec(TightDb(tx.run, run, key), tx))
  {
    var next := Exec(TightDb(tx.run, run, key), tx);
    assert next.runs == map[tx.run := next.runs[tx.run]];
    if run.loop.lastTool.Some? {
      RunsOfOne(tx.run, next.runs[tx.run], key);
      assert !Covered(next, key);
    } else {
      assert !RecoveryHasFailure(next.runs[tx.run].loop);
    }
  }

  /**
   A transaction decided on any rows at all is safe for the learning ledger, in every workspace its run may be
   part of, exactly when it is harmless: a start still finds unresolved what it saw unresolved, and a Verify
   still finds open what it counts as recovered, or closes nothing.
  */
  lemma StaleDecisionIsSafeExactlyWhen(run: Run, tx: Tx)
    requires RowConsistent(run.loop)
    ensures AlwaysSafe(run, tx) <==> HarmlessOn(run, tx)
  {
    if HarmlessOn(run, tx) {
      forall db: Db | Consistent(db) && tx.run in db.runs && db.runs[tx.run] == run
        ensures Consistent(Exec(db, tx))
      {
        StepKeepsConserved(db, tx);
        StepKeepsBalanced(db, tx);
      }
    } else if tx.VerifyCommit? {
      HarmfulVerifyUnbalances(run, tx);
    } else {
      HarmfulStartUnbalances(run, tx);
    }
  }

  /* ---------- one failure, two recoveries ---------- */

  /**
   Two Verify calls that both read the row before either commits: one open failure
   is counted as recovered twice.
  */
  lemma DoubleVerifyRecoversTwice(db: Db, id: RunId, tool: string, proof: Option<Proof>, key: Key)
    requires id in db.runs && RecoveredKey(db.runs[id].loop) == Some(key) && key in db.patterns
    requires SelectionSatisfied(db.runs[id].loop.shape, db.runs[id].loop.selection,
                                RecordProof(db.runs[id], tool, proof, true).proofs)
    ensures var tx := VerifyCommit(id, db.runs[id].loop, tool, proof);
            var once, twice := Exec(db, tx), Exec(Exec(db, tx), tx);
            && Fresh(db, tx) && !Fresh(once, tx)
            && key in once.patterns && key in twice.patterns
            && once.patterns[key].recoveries == db.patterns[key].recoveries + 1
            && twice.patterns[key].recoveries == db.patterns[key].recoveries + 2
            && twice.patterns[key].failures == db.patterns[key].failures
  {
    var tx := VerifyCommit(id, db.runs[id].loop, tool, proof);
    var once := Exec(db, tx);
    assert once.runs[id].loop.recovery == Recovered;
    assert RecordProof(once.runs[id], tool, proof, true).proofs == RecordProof(db.runs[id], tool, proof, true).proofs;
  }

  /** A read-only run fails once, and two Verify calls that saw the failure succeed. */
  function DoubleVerify(id: RunId, key: Key, proof: Proof): History {
    var failed := FailureNoted(InitialRow(ReadOnly), key, true);
    var commit := VerifyCommit(id, failed, key.tool, Some(proof));
    [BeginRun(id, ReadOnly, {}), RecordFailure(id, None, key.tool, Some(key.category), true), commit, commit]
  }

  lemma FailureOpens(db: Db, id: RunId, key: Key)
    requires id in db.runs && db.runs[id].loop == InitialRow(ReadOnly) && key !in db.patterns
    ensures var after := Exec(db, RecordFailure(id, None, key.tool, Some(key.category), true));
            && id in after.runs && after.runs[id].loop == FailureNoted(InitialRow(ReadOnly), key, true)
            && key in after.patterns && after.patterns[key] == Pattern(1, 0, 0)
  {
  }

  lemma BeginsInitial(db: Db, id: RunId)
    requires id !in db.runs
    ensures var after := Exec(db, BeginRun(id, ReadOnly, {}));
            id in after.runs && after.runs[id].loop == InitialRow(ReadOnly) && after.patterns == db.patterns
  {
  }

  /** From an empty workspace, that leaves more recoveries than failures. */
  lemma RecoveriesOutgrowFailures(id: RunId, key: Key, proof: Proof)
    ensures var db := After(EMPTY, DoubleVerify(id, key, proof), 4);
            PatternAt(db, key).recoveries == 2 && PatternAt(db, key).failures == 1
    ensures !AllHarmless(EMPTY, DoubleVerify(id, key, proof))
  {
    var history := DoubleVerify(id, key, proof);
    var begun := After(EMPTY, history, 1);
    assert After(EMPTY, history, 0) == EMPTY;
    assert begun == Exec(EMPTY, history[0]);
    BeginsInitial(EMPTY, id);
    var open := After(EMPTY, history, 2);
    assert open == Exec(begun, history[1]);
    FailureOpens(begun, id, key);
    DoubleVerifyRecoversTwice(open, id, key.tool, Some(proof), key);
    assert After(EMPTY, history, 3) == Exec(open, history[2]);
    assert After(EMPTY, history, 4) == Exec(After(EMPTY, history, 3), history[3]);
    if AllHarmless(EMPTY, history) {
      RecoveriesNeverExceedFailures(history, key);
    }
  }

  /* ---------- a recovery of nothing ---------- */

  /**
   A read-only run fails, is verified and begins a new cycle, which clears the failure columns; a native execution
   that saw the failure open starts late.
  */
  function LateStart(id: RunId, key: Key, proof: Proof): History {
    var failed := FailureNoted(InitialRow(ReadOnly), key, true);
    [BeginRun(id, ReadOnly, {}), RecordFailure(id, None, key.tool, Some(key.category), true),
     VerifyCommit(id, failed, key.tool, Some(proof)), StartCycle(id, ReadOnly, None, NO_SELECTION),
     NativeStart(id, failed)]
  }

  lemma FailsWhileRunning(db: Db, id: RunId, key: Key)
    requires id in db.runs && db.runs[id].loop == InitialRow(ReadOnly) && db.runs[id].status == Running
    ensures var after := Exec(db, RecordFailure(id, None, key.tool, Some(key.category), true));
            && id in after.runs && after.runs[id].status == Running
            && after.runs[id].loop == FailureNoted(InitialRow(ReadOnly), key, true)
  {
  }

  lemma RecoveryRestarts(db: Db, id: RunId, key: Key, proof: Proof)
    requires id in db.runs && db.runs[id].status == Running
    requires db.runs[id].loop == FailureNoted(InitialRow(ReadOnly), key, true)
    ensures var verified := Exec(db, VerifyCommit(id, db.runs[id].loop, key.tool, Some(proof)));
            var restarted := Exec(verified, StartCycle(id, ReadOnly, None, NO_SELECTION));
            && id in restarted.runs && restarted.runs[id].status == Running
            && restarted.runs[id].loop == CycleRow(ReadOnly, None, NO_SELECTION)
  {
    var verified := Exec(db, VerifyCommit(id, db.runs[id].loop, key.tool, Some(proof)));
    assert verified.runs[id].loop == LessonLearned(db.runs[id].loop, true) && verified.runs[id].status == Running;
  }

  lemma StartTakesUpNothing(db: Db, id: RunId, observed: LoopRow)
    requires id in db.runs && db.runs[id].status == Running && db.runs[id].loop.lastTool.None? && Unresolved(observed)
    ensures var after := Exec(db, NativeStart(id, observed));
            && id in after.runs && after.runs[id].status == Running
            && Unresolved(after.runs[id].loop) && after.runs[id].loop.lastTool.None?
  {
  }

  /** From an empty workspace, that leaves a running run in a recovery without a failure. */
  lemma RecoveryWithoutFailure(id: RunId, key: Key, proof: Proof)
    ensures var db := After(EMPTY, LateStart(id, key, proof), 5);
            && id in db.runs && db.runs[id].status == Running
            && Unresolved(db.runs[id].loop) && db.runs[id].loop.lastTool.None?
  {
    var history := LateStart(id, key, proof);
    assert After(EMPTY, history, 0) == EMPTY;
    var begun := Exec(EMPTY, history[0]);
    assert After(EMPTY, history, 1) == begun && begun.runs[id].status == Running;
    BeginsInitial(EMPTY, id);
    var failed := Exec(begun, history[1]);
    assert After(EMPTY, history, 2) == failed;
    FailsWhileRunning(begun, id, key);
    RecoveryRestarts(failed, id, key, proof);
    assert After(EMPTY, history, 3) == Exec(failed, history[2]);
    var restarted := Exec(After(EMPTY, history, 3), history[3]);
    assert After(EMPTY, history, 4) == restarted;
    StartTakesUpNothing(restarted, id, history[4].observed);
    assert After(EMPTY, history, 5) == Exec(restarted, history[4]);
  }
}
