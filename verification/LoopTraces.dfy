/**
 The verification discipline over whole histories: a mutation that finished is verified
 before the run is published, completed or given a new cycle. The discipline needs the
 decisions of the loop to be warranted by the rows they meet, and it says exactly when a
 decision made on an older row is.
*/
module LoopTraces {
  import opened Wrappers
  import opened WorkScope
  import opened ClosedLoop
  import opened LoopInvariants

  /** An Execute that succeeded and whose result has to be verified. */
  predicate MutationFinished(db: Db, tx: Tx, id: RunId) {
    && tx.run == id && Enabled(db, tx)
    && (tx.ExecuteFinish? || (tx.NativeFinish? && tx.observed.shape != ReadOnly))
  }

  /** A completion, a publishing tool or a new cycle that the loop let through. */
  predicate GatePassed(db: Db, tx: Tx, id: RunId) {
    && tx.run == id && Enabled(db, tx)
    && (tx.CompleteRun? || tx.Publish? || tx.StartCycle?)
  }

  /**
   A Verify that closes the cycle while the proof that the row selects at that moment is in the table as passed,
   from the selected source. It decides to close by the selection it has read; the debt is the row's own.
  */
  predicate Discharges(db: Db, tx: Tx, id: RunId) {
    && tx.VerifyCommit? && tx.run == id && id in db.runs
    && Closes(db, tx)
    && var loop := db.runs[id].loop;
       loop.selection.proofType.Some? && SelectionSatisfied(loop.shape, loop.selection, Recorded(db, tx))
  }

  /** The proof table with what a Verify brings along. */
  function Recorded(db: Db, tx: Tx): map<string, ProofRow>
    requires tx.VerifyCommit? && tx.run in db.runs
  {
    RecordProof(db.runs[tx.run], tx.tool, tx.proof, true).proofs
  }

  predicate Closes(db: Db, tx: Tx)
    requires tx.VerifyCommit? && tx.run in db.runs
  {
    SelectionSatisfied(tx.observed.shape, tx.observed.selection, Recorded(db, tx))
  }

  /** The gates have to hold the run: something is unsettled, in a cycle whose verification may not be skipped. */
  predicate Held(db: Db, id: RunId) {
    id in db.runs && db.runs[id].loop.shape != ReadOnly && !Settled(db.runs[id].loop)
  }

  /* ---------- one transaction ---------- */

  /** The discipline, for one transaction. */
  predicate KeepsHold(db: Db, tx: Tx, id: RunId) {
    && (Held(db, id) ==> Held(Exec(db, tx), id) || Discharges(db, tx, id))
    && (MutationFinished(db, tx, id) ==> Held(Exec(db, tx), id))
    && (GatePassed(db, tx, id) ==> !Held(db, id))
  }

  /**
   The row as it is now warrants a decision made on an older one: a skip for a read-only cycle finds the run
   free or leaves its recovery open, a demand for verification does not come into a read-only cycle, a Verify
   that closes the cycle of a held run finds the proof passed that the row selects now, or leaves its recovery
   open, and a gate opens on a run that is free.
  */
  predicate Timely(db: Db, tx: Tx, id: RunId) {
    tx.run == id && Enabled(db, tx) ==>
      match tx {
        case NativeFinish(_, observed) =>
          if observed.shape == ReadOnly then Held(db, id) ==> Unresolved(db.runs[id].loop)
          else db.runs[id].loop.shape != ReadOnly
        case VerifyCommit(_, observed, _, _) =>
          Held(db, id) && Closes(db, tx) ==>
            var loop := db.runs[id].loop;
            || (Unresolved(loop) && RecoveredKey(observed).None?)
            || SelectionSatisfied(loop.shape, loop.selection, Recorded(db, tx))
        case Publish(_, _) => !Held(db, id)
        case CompleteRun(_, _, _) => !Held(db, id)
        case _ => true
      }
  }

  /** And a pipeline mutation does not finish into a read-only cycle. */
  predicate Warranted(db: Db, tx: Tx, id: RunId) {
    && Timely(db, tx, id)
    && (tx.ExecuteFinish? && tx.run == id && Enabled(db, tx) ==> db.runs[id].loop.shape != ReadOnly)
  }

  lemma FreshIsTimely(db: Db, tx: Tx, id: RunId)
    requires Fresh(db, tx)
    ensures Timely(db, tx, id)
  {
  }

  lemma CommitKeepsHoldExactlyWhen(db: Db, id: RunId, observed: LoopRow, tool: string, proof: Option<Proof>)
    requires Held(db, id)
    ensures var tx := VerifyCommit(id, observed, tool, proof);
            Held(CommitVerify(db, id, observed, tool, proof), id) || Discharges(db, tx, id) <==> Timely(db, tx, id)
  {
    var run := RecordProof(db.runs[id], tool, proof, true);
    assert run.loop == db.runs[id].loop;
    assert CommitVerify(db, id, observed, tool, proof).runs[id].proofs == run.proofs;
  }

  lemma NativeFinishKeepsHoldExactlyWhen(db: Db, id: RunId, observed: LoopRow)
    requires id in db.runs
    ensures KeepsHold(db, NativeFinish(id, observed), id) <==> Timely(db, NativeFinish(id, observed), id)
  {
  }

  lemma ForeignStepKeepsHold(db: Db, tx: Tx, id: RunId)
    requires tx.run != id
    ensures KeepsHold(db, tx, id)
  {
  }

  /** The transactions whose decision may be stale, and the finish that may come into another cycle. */
  predicate Decides(tx: Tx) {
    tx.VerifyCommit? || tx.NativeFinish? || tx.ExecuteFinish? || tx.CompleteRun? || tx.Publish?
  }

  lemma OtherStepKeepsHold(db: Db, tx: Tx, id: RunId)
    requires tx.run == id && Enabled(db, tx) && !Decides(tx)
    ensures KeepsHold(db, tx, id)
  {
  }

  lemma FinishKeepsHoldExactlyWhen(db: Db, tx: Tx, id: RunId)
    requires tx.run == id && Enabled(db, tx) && (tx.ExecuteFinish? || tx.CompleteRun? || tx.Publish?)
    ensures KeepsHold(db, tx, id) <==> Warranted(db, tx, id)
  {
  }

  /** A transaction decided on any row at all keeps the discipline exactly when the row it meets warrants it. */
  lemma StepKeepsHoldExactlyWhen(db: Db, tx: Tx, id: RunId)
    ensures KeepsHold(db, tx, id) <==> Warranted(db, tx, id)
  {
    if tx.run != id {
      ForeignStepKeepsHold(db, tx, id);
    } else if !Enabled(db, tx) {
    } else if tx.VerifyCommit? {
      if Held(db, id) {
        CommitKeepsHoldExactlyWhen(db, id, tx.observed, tx.tool, tx.proof);
      }
    } else if tx.NativeFinish? {
      NativeFinishKeepsHoldExactlyWhen(db, id, tx.observed);
    } else if Decides(tx) {
      FinishKeepsHoldExactlyWhen(db, tx, id);
    } else {
      OtherStepKeepsHold(db, tx, id);
    }
  }

  /* ---------- histories ---------- */

  ghost predicate DischargedAt(start: Db, history: History, k: int, id: RunId) {
    0 <= k < |history| && Discharges(After(start, history, k), history[k], id)
  }

  ghost predicate MutationFinishedAt(start: Db, history: History, i: int, id: RunId) {
    0 <= i < |history| && MutationFinished(After(start, history, i), history[i], id)
  }

  ghost predicate GatePassedAt(start: Db, history: History, j: int, id: RunId) {
    0 <= j < |history| && GatePassed(After(start, history, j), history[j], id)
  }

  ghost predicate WarrantedAt(start: Db, history: History, k: int, id: RunId) {
    0 <= k < |history| ==> Warranted(After(start, history, k), history[k], id)
  }

  ghost predicate AllWarranted(start: Db, history: History, id: RunId) {
    forall k :: WarrantedAt(start, history, k, id)
  }

  ghost predicate TimelyAt(start: Db, history: History, k: int, id: RunId) {
    0 <= k < |history| ==> Timely(After(start, history, k), history[k], id)
  }

  ghost predicate AllTimely(start: Db, history: History, id: RunId) {
    forall k :: TimelyAt(start, history, k, id)
  }

  lemma WarrantedIsTimely(start: Db, history: History, id: RunId)
    requires AllWarranted(start, history, id)
    ensures AllTimely(start, history, id)
  {
    forall k ensures TimelyAt(start, history, k, id) {
      assert WarrantedAt(start, history, k, id);
    }
  }

  ghost predicate HeldAt(start: Db, history: History, n: int, id: RunId) {
    0 <= n <= |history| && Held(After(start, history, n), id)
  }

  lemma HeldStep(start: Db, history: History, n: nat, id: RunId)
    requires n < |history| && TimelyAt(start, history, n, id) && HeldAt(start, history, n, id)
    ensures HeldAt(start, history, n + 1, id) || DischargedAt(start, history, n, id)
  {
    StepKeepsHoldExactlyWhen(After(start, history, n), history[n], id);
  }

  /** A flag that only falls at a marked position is still up, or fell at one. */
  lemma {:induction false} StillUpOrMarked(up: seq<bool>, marked: seq<bool>, i: nat, n: nat) returns (k: int)
    requires i <= n < |up| && n <= |marked| && up[i]
    requires forall m | i <= m < n :: up[m] ==> up[m + 1] || marked[m]
    ensures up[n] || (i <= k < n && marked[k])
  {
    k := i;
    if i < n {
      k := StillUpOrMarked(up, marked, i, n - 1);
      if up[n - 1] {
        k := n - 1;
      }
    }
  }

  ghost function HeldFlags(start: Db, history: History, id: RunId): (flags: seq<bool>)
    ensures |flags| == |history| + 1
    ensures forall k | 0 <= k <= |history| :: flags[k] == HeldAt(start, history, k, id)
  {
    seq(|history| + 1, k requires 0 <= k <= |history| => HeldAt(start, history, k, id))
  }

  ghost function DischargeFlags(start: Db, history: History, id: RunId): (flags: seq<bool>)
    ensures |flags| == |history|
    ensures forall k | 0 <= k < |history| :: flags[k] == DischargedAt(start, history, k, id)
  {
    seq(|history|, k requires 0 <= k < |history| => DischargedAt(start, history, k, id))
  }

  /** A run that is held after `i` transactions is held after `n`, or one of those between discharged it. */
  lemma HeldOrDischarged(start: Db, history: History, i: nat, n: nat, id: RunId) returns (k: int)
    requires i <= n <= |history| && AllTimely(start, history, id)
    requires HeldAt(start, history, i, id)
    ensures HeldAt(start, history, n, id) || (i <= k < n && DischargedAt(start, history, k, id))
  {
    var up, marked := HeldFlags(start, history, id), DischargeFlags(start, history, id);
    forall m | i <= m < n && up[m] ensures up[m + 1] || marked[m] {
      assert TimelyAt(start, history, m, id);
      HeldStep(start, history, m, id);
    }
    k := StillUpOrMarked(up, marked, i, n);
  }

  lemma GateIsFree(start: Db, history: History, j: nat, id: RunId)
    requires GatePassedAt(start, history, j, id) && TimelyAt(start, history, j, id)
    ensures !HeldAt(start, history, j, id)
  {
    StepKeepsHoldExactlyWhen(After(start, history, j), history[j], id);
  }

  lemma MutationHolds(start: Db, history: History, i: nat, id: RunId)
    requires MutationFinishedAt(start, history, i, id) && WarrantedAt(start, history, i, id)
    ensures HeldAt(start, history, i + 1, id)
  {
    StepKeepsHoldExactlyWhen(After(start, history, i), history[i], id);
  }

  /**
   Between a mutation that finished and any later completion, publication or new cycle
   of the same run lies a Verify at which the proof selected at that moment had passed.
  */
  lemma MutationIsVerifiedBeforeGate(start: Db, history: History, i: nat, j: nat, id: RunId) returns (k: int)
    requires i < j && AllWarranted(start, history, id)
    requires MutationFinishedAt(start, history, i, id) && GatePassedAt(start, history, j, id)
    ensures i < k < j && DischargedAt(start, history, k, id)
  {
    WarrantedIsTimely(start, history, id);
    assert WarrantedAt(start, history, i, id) && TimelyAt(start, history, j, id);
    MutationHolds(start, history, i, id);
    GateIsFree(start, history, j, id);
    k := HeldOrDischarged(start, history, i + 1, j, id);
  }

  /* ---------- what a row of the proof table stands for ---------- */

  /** The proof row a transaction writes into the table of `id`. */
  function Written(tx: Tx, id: RunId): Option<(string, ProofRow)> {
    match tx
    case ProofFailed(run, tool, failed) =>
      if run == id then Some((failed.proofType, ProofRow(failed.source, false, tool))) else None
    case VerifyCommit(run, _, tool, proof) =>
      if run == id && proof.Some? then Some((proof.value.proofType, ProofRow(proof.value.source, true, tool))) else None
    case _ => None
  }

  /** Leaves the row of `proofType` alone: neither a new result for it nor a new cycle. */
  predicate KeepsProof(db: Db, tx: Tx, id: RunId, proofType: string) {
    && (Written(tx, id).Some? ==> Written(tx, id).value.0 != proofType)
    && !(tx.StartCycle? && tx.run == id && Enabled(db, tx))
  }

  /** `history[m]` recorded `row`, and nothing up to `n` superseded it. */
  ghost predicate LatestResult(start: Db, history: History, m: nat, n: nat, id: RunId, proofType: string,
                               row: ProofRow) {
    && m < n <= |history|
    && Written(history[m], id) == Some((proofType, row))
    && forall k | m < k < n :: KeepsProof(After(start, history, k), history[k], id, proofType)
  }

  lemma LatestExtends(start: Db, history: History, m: nat, n: nat, id: RunId, proofType: string, row: ProofRow)
    requires n < |history| && LatestResult(start, history, m, n, id, proofType, row)
    requires KeepsProof(After(start, history, n), history[n], id, proofType)
    ensures LatestResult(start, history, m, n + 1, id, proofType, row)
  {
  }

  /** A row of the proof table is the latest result of that proof in the current cycle. */
  lemma {:induction false} ProofRowIsLatestResult(start: Db, history: History, n: nat, id: RunId, proofType: string)
    returns (m: nat)
    requires n <= |history| && id !in start.runs
    requires id in After(start, history, n).runs && proofType in After(start, history, n).runs[id].proofs
    ensures LatestResult(start, history, m, n, id, proofType, After(start, history, n).runs[id].proofs[proofType])
  {
    var db, tx := After(start, history, n - 1), history[n - 1];
    var row := After(start, history, n).runs[id].proofs[proofType];
    if tx.run == id && Enabled(db, tx) && !KeepsProof(db, tx, id, proofType) {
      m := n - 1;
      assert Written(tx, id) == Some((proofType, row));
    } else {
      assert id in db.runs && proofType in db.runs[id].proofs && db.runs[id].proofs[proofType] == row by {
        RowSurvives(db, tx, id, proofType);
      }
      m := ProofRowIsLatestResult(start, history, n - 1, id, proofType);
      LatestExtends(start, history, m, n - 1, id, proofType, row);
    }
  }

  lemma RowSurvives(db: Db, tx: Tx, id: RunId, proofType: string)
    requires id in Exec(db, tx).runs && proofType in Exec(db, tx).runs[id].proofs
    requires !(tx.run == id && Enabled(db, tx)) || KeepsProof(db, tx, id, proofType)
    ensures id in db.runs && proofType in db.runs[id].proofs
    ensures db.runs[id].proofs[proofType] == Exec(db, tx).runs[id].proofs[proofType]
  {
    if tx.VerifyCommit? && tx.run == id && Enabled(db, tx) {
      CommitKeepsOtherProofs(db, id, tx.observed, tx.tool, tx.proof, proofType);
    }
  }

  lemma CommitKeepsOtherProofs(db: Db, id: RunId, observed: LoopRow, tool: string, proof: Option<Proof>,
                               proofType: string)
    requires id in db.runs && (proof.Some? ==> proof.value.proofType != proofType)
    ensures var after := CommitVerify(db, id, observed, tool, proof).runs;
            && id in after && (proofType in after[id].proofs <==> proofType in db.runs[id].proofs)
            && (proofType in after[id].proofs ==> after[id].proofs[proofType] == db.runs[id].proofs[proofType])
  {
    assert CommitVerify(db, id, observed, tool, proof).runs[id].proofs ==
      RecordProof(db.runs[id], tool, proof, true).proofs;
  }

  /** When a Verify pays the debt, the latest result in the cycle of the proof it meets as selected is "passed". */
  lemma DischargeRestsOnPassingProof(start: Db, history: History, k: nat, id: RunId) returns (m: nat, row: ProofRow)
    requires id !in start.runs && DischargedAt(start, history, k, id)
    ensures var selection := After(start, history, k).runs[id].loop.selection;
            && LatestResult(start, history, m, k + 1, id, selection.proofType.value, row)
            && row.passed
            && (selection.source.Some? ==> row.source == selection.source)
  {
    var proofType := After(start, history, k).runs[id].loop.selection.proofType.value;
    DischargeKeepsTable(After(start, history, k), history[k], id);
    m := ProofRowIsLatestResult(start, history, k + 1, id, proofType);
    row := After(start, history, k + 1).runs[id].proofs[proofType];
  }

  lemma DischargeKeepsTable(db: Db, tx: Tx, id: RunId)
    requires Discharges(db, tx, id)
    ensures id in Exec(db, tx).runs && Exec(db, tx).runs[id].proofs == Recorded(db, tx)
  {
  }

  /**
   The whole discipline, from the first run of a workspace on: no mutation gets past a gate without a Verify
   in between that closed the cycle while the latest result of the proof selected at that moment was "passed".
  */
  lemma MutationIsProvedBeforeGate(history: History, i: nat, j: nat, id: RunId) returns (k: int, m: nat, row: ProofRow)
    requires i < j && AllWarranted(EMPTY, history, id)
    requires MutationFinishedAt(EMPTY, history, i, id) && GatePassedAt(EMPTY, history, j, id)
    ensures i < k < j && DischargedAt(EMPTY, history, k, id)
    ensures var selection := After(EMPTY, history, k).runs[id].loop.selection;
            && LatestResult(EMPTY, history, m, k + 1, id, selection.proofType.value, row)
            && row.passed
            && (selection.source.Some? ==> row.source == selection.source)
  {
    k := MutationIsVerifiedBeforeGate(EMPTY, history, i, j, id);
    m, row := DischargeRestsOnPassingProof(EMPTY, history, k, id);
  }

  /* ---------- calls in flight across a restart ---------- */

  /** An Execute of this run by the tool pipeline is between its begin and its finish; native ones take no ticket. */
  predicate InFlight(db: Db, id: RunId) {
    id in db.tickets.Values
  }

  /** A restart into a read-only cycle happens only while no Execute of the run is in flight. */
  predicate SafeRestart(db: Db, tx: Tx, id: RunId) {
    tx.StartCycle? && tx.run == id && Enabled(db, tx) && tx.shape == ReadOnly ==> !InFlight(db, id)
  }

  ghost predicate SafeRestarts(start: Db, history: History, id: RunId) {
    forall i | 0 <= i < |history| :: SafeRestart(After(start, history, i), history[i], id)
  }

  /** Whoever holds a ticket of the run has made its shape more than read-only. */
  predicate TicketsMutate(db: Db, id: RunId) {
    InFlight(db, id) ==> id in db.runs && db.runs[id].loop.shape != ReadOnly
  }

  lemma StepKeepsTicketsMutate(db: Db, tx: Tx, id: RunId)
    requires TicketsMutate(db, id) && SafeRestart(db, tx, id)
    ensures TicketsMutate(Exec(db, tx), id)
  {
    var next := Exec(db, tx);
    if Enabled(db, tx) && InFlight(next, id) {
      if tx.ExecuteStart? && tx.run == id {
        assert next.runs[id].loop.shape != ReadOnly;
      } else {
        var ticket :| ticket in next.tickets && next.tickets[ticket] == id;
        assert ticket in db.tickets && db.tickets[ticket] == id;
        if tx.VerifyCommit? && tx.run == id {
          assert next.runs[id].loop.shape == db.runs[id].loop.shape;
        }
      }
    }
  }

  lemma {:induction false} TicketsMutateAlways(start: Db, history: History, n: nat, id: RunId)
    requires n <= |history| && TicketsMutate(start, id) && SafeRestarts(start, history, id)
    ensures TicketsMutate(After(start, history, n), id)
  {
    if n > 0 {
      TicketsMutateAlways(start, history, n - 1, id);
      StepKeepsTicketsMutate(After(start, history, n - 1), history[n - 1], id);
    }
  }

  /** As long as no call is in flight across a restart, timely decisions are warranted. */
  lemma SafeRestartsWarrant(start: Db, history: History, id: RunId)
    requires TicketsMutate(start, id) && SafeRestarts(start, history, id) && AllTimely(start, history, id)
    ensures AllWarranted(start, history, id)
  {
    forall k ensures WarrantedAt(start, history, k, id) {
      assert TimelyAt(start, history, k, id);
      if 0 <= k < |history| && history[k].ExecuteFinish? && Enabled(After(start, history, k), history[k]) {
        TicketsMutateAlways(start, history, k, id);
        assert After(start, history, k).tickets[history[k].ticket] == history[k].run;
      }
    }
  }
}
