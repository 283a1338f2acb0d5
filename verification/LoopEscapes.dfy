/**
 When the verification discipline can fail, exactly: from which states, by which stale
 decisions, and after which restarts an unverified mutation can still get past a gate.
 And that the gates do open for one that is verified.
*/
module LoopEscapes {
  import opened Wrappers
  import opened WorkScope
  import opened ClosedLoop
  import opened LoopInvariants
  import opened LoopTraces

  /* ---------- the gates do open ---------- */

  /** Execute, finish, verify with the selected proof, complete; each on the row the one before it left. */
  function VerifiedCycle(loop: LoopRow, id: RunId, ticket: TicketId, request: ExecuteRequest, tool: string,
                         proof: Proof): History {
    var started := ExecuteStarted(Planned(loop, loop, request), Unresolved(loop));
    var verifying := VerifyStarted(VerificationDemanded(started));
    var settled := LessonLearned(verifying, RecoveredKey(verifying).Some?);
    [ExecuteStart(id, ticket, loop, loop, request), ExecuteFinish(id, ticket), VerifyStart(id),
     VerifyCommit(id, verifying, tool, Some(proof)), CompleteRun(id, settled, true)]
  }

  lemma ExecuteStartsAndFinishes(db: Db, id: RunId, ticket: TicketId, request: ExecuteRequest)
    requires id in db.runs && db.runs[id].loop.contextReads > 0 && ticket !in db.tickets
    ensures var loop := db.runs[id].loop;
            var started := ExecuteStarted(Planned(loop, loop, request), Unresolved(loop));
            var one := Exec(db, ExecuteStart(id, ticket, loop, loop, request));
            && one.runs == db.runs[id := db.runs[id].(loop := started)]
            && Enabled(one, ExecuteFinish(id, ticket))
            && Exec(one, ExecuteFinish(id, ticket)).runs ==
                 db.runs[id := db.runs[id].(loop := VerificationDemanded(started))]
  {
  }

  lemma SelectedProofDischarges(db: Db, id: RunId, tool: string, proof: Proof)
    requires id in db.runs
    requires var loop := db.runs[id].loop;
             && loop.selection.proofType == Some(proof.proofType)
             && (loop.selection.source.Some? ==> loop.selection.source == proof.source)
             && (Unresolved(loop) ==> RecoveredKey(loop).Some?)
    ensures var loop := db.runs[id].loop; var tx := VerifyCommit(id, loop, tool, Some(proof));
            && Discharges(db, tx, id)
            && id in Exec(db, tx).runs && Exec(db, tx).runs[id].status == db.runs[id].status
            && Exec(db, tx).runs[id].loop == LessonLearned(loop, RecoveredKey(loop).Some?)
            && Settled(LessonLearned(loop, RecoveredKey(loop).Some?))
  {
    var recorded := RecordProof(db.runs[id], tool, Some(proof), true);
    assert SelectionSatisfied(recorded.loop.shape, recorded.loop.selection, recorded.proofs);
  }

  lemma SelectedProofCompletes(db: Db, id: RunId, tool: string, proof: Proof)
    requires id in db.runs && db.runs[id].status == Running
    requires var loop := db.runs[id].loop;
             && loop.selection.proofType == Some(proof.proofType)
             && (loop.selection.source.Some? ==> loop.selection.source == proof.source)
             && (Unresolved(loop) ==> RecoveredKey(loop).Some?)
    ensures var loop := db.runs[id].loop; var tx := VerifyCommit(id, loop, tool, Some(proof));
            var after := Exec(db, tx);
            var complete := CompleteRun(id, LessonLearned(loop, RecoveredKey(loop).Some?), true);
            && Discharges(db, tx, id) && GatePassed(after, complete, id) && Fresh(after, complete)
            && id in Exec(after, complete).runs && Exec(after, complete).runs[id].status == Completed
  {
    SelectedProofDischarges(db, id, tool, proof);
  }

  /** The run as the first three transactions leave it. */
  lemma CycleReachesVerify(db: Db, id: RunId, ticket: TicketId, request: ExecuteRequest, tool: string, proof: Proof)
    requires id in db.runs && db.runs[id].loop.contextReads > 0 && ticket !in db.tickets
    ensures var history := VerifiedCycle(db.runs[id].loop, id, ticket, request, tool, proof);
            && MutationFinishedAt(db, history, 1, id)
            && After(db, history, 3).runs == db.runs[id := db.runs[id].(loop := history[3].observed)]
  {
    var history := VerifiedCycle(db.runs[id].loop, id, ticket, request, tool, proof);
    ExecuteStartsAndFinishes(db, id, ticket, request);
    AfterThree(db, history);
    var two := Exec(Exec(db, history[0]), history[1]);
    assert two.runs[id := two.runs[id].(loop := history[3].observed)] ==
      db.runs[id := db.runs[id].(loop := history[3].observed)];
  }

  lemma AfterThree(db: Db, history: History)
    requires |history| == 5
    ensures After(db, history, 1) == Exec(db, history[0])
    ensures After(db, history, 3) == Exec(Exec(Exec(db, history[0]), history[1]), history[2])
  {
    assert After(db, history, 0) == db;
    assert After(db, history, 2) == Exec(After(db, history, 1), history[1]);
  }

  /** A mutation that is verified with its selected proof does complete the run. */
  lemma VerifiedMutationCompletes(db: Db, id: RunId, ticket: TicketId, request: ExecuteRequest,
                                  tool: string, proof: Proof)
    requires id in db.runs && db.runs[id].status == Running
    requires db.runs[id].loop.contextReads > 0 && ticket !in db.tickets
    requires request.selection.proofType == Some(proof.proofType)
    requires request.selection.source.Some? ==> request.selection.source == proof.source
    requires Unresolved(db.runs[id].loop) ==> RecoveredKey(db.runs[id].loop).Some?
    ensures var history := VerifiedCycle(db.runs[id].loop, id, ticket, request, tool, proof);
            && MutationFinishedAt(db, history, 1, id)
            && DischargedAt(db, history, 3, id) && GatePassedAt(db, history, 4, id)
            && id in After(db, history, 5).runs && After(db, history, 5).runs[id].status == Completed
  {
    var history := VerifiedCycle(db.runs[id].loop, id, ticket, request, tool, proof);
    CycleReachesVerify(db, id, ticket, request, tool, proof);
    SelectedProofCompletes(After(db, history, 3), id, tool, proof);
    AfterTwoMore(db, history);
  }

  lemma AfterTwoMore(db: Db, history: History)
    requires |history| == 5
    ensures After(db, history, 4) == Exec(After(db, history, 3), history[3])
    ensures After(db, history, 5) == Exec(Exec(After(db, history, 3), history[3]), history[4])
  {
    assert After(db, history, 5) == Exec(After(db, history, 4), history[4]);
  }

  /** Its history is one the discipline speaks about. */
  lemma VerifiedCycleIsFresh(db: Db, id: RunId, ticket: TicketId, request: ExecuteRequest, tool: string, proof: Proof)
    requires id in db.runs && db.runs[id].status == Running
    requires db.runs[id].loop.contextReads > 0 && ticket !in db.tickets
    requires request.selection.proofType == Some(proof.proofType)
    requires request.selection.source.Some? ==> request.selection.source == proof.source
    requires Unresolved(db.runs[id].loop) ==> RecoveredKey(db.runs[id].loop).Some?
    ensures var history := VerifiedCycle(db.runs[id].loop, id, ticket, request, tool, proof);
            AllFresh(db, history) && SafeRestarts(db, history, id)
  {
    var history := VerifiedCycle(db.runs[id].loop, id, ticket, request, tool, proof);
    CycleReachesVerify(db, id, ticket, request, tool, proof);
    LastTwoAreFresh(db, history, id, tool, proof);
    FirstThreeAreFresh(db, history, id);
    NoRestartIsSafe(db, history, id);
  }

  lemma FirstThreeAreFresh(db: Db, history: History, id: RunId)
    requires |history| == 5 && id in db.runs
    requires history[0].ExecuteStart? && history[0].run == id &&
             history[0].planned == history[0].observed == db.runs[id].loop
    requires history[1].ExecuteFinish? && history[2].VerifyStart?
    ensures forall k | 0 <= k < 3 :: Fresh(After(db, history, k), history[k])
  {
    assert After(db, history, 0) == db;
    assert Fresh(After(db, history, 1), history[1]) && Fresh(After(db, history, 2), history[2]);
  }

  lemma NoRestartIsSafe(db: Db, history: History, id: RunId)
    requires forall k | 0 <= k < |history| :: !history[k].StartCycle?
    ensures SafeRestarts(db, history, id)
  {
  }

  lemma LastTwoAreFresh(db: Db, history: History, id: RunId, tool: string, proof: Proof)
    requires |history| == 5 && id in After(db, history, 3).runs && After(db, history, 3).runs[id].status == Running
    requires var loop := After(db, history, 3).runs[id].loop;
             && loop.selection.proofType == Some(proof.proofType)
             && (loop.selection.source.Some? ==> loop.selection.source == proof.source)
             && (Unresolved(loop) ==> RecoveredKey(loop).Some?)
             && history[3] == VerifyCommit(id, loop, tool, Some(proof))
             && history[4] == CompleteRun(id, LessonLearned(loop, RecoveredKey(loop).Some?), true)
    ensures Fresh(After(db, history, 3), history[3]) && Fresh(After(db, history, 4), history[4])
  {
    SelectedProofCompletes(After(db, history, 3), id, tool, proof);
    AfterTwoMore(db, history);
  }

  /* ---------- from which states a gate can be reached unverified ---------- */

  /** `history` gets the run past a gate without a discharging Verify before it. */
  ghost predicate ReachesGate(db: Db, history: History, id: RunId) {
    exists j :: GatePassedAt(db, history, j, id) && forall k | 0 <= k < j :: !DischargedAt(db, history, k, id)
  }

  /** However it goes on, a run that is held stays held until a Verify discharges it. */
  lemma HeldReachesNoGate(db: Db, history: History, id: RunId)
    requires Held(db, id) && AllTimely(db, history, id)
    ensures !ReachesGate(db, history, id)
  {
    forall j: int | GatePassedAt(db, history, j, id)
      ensures exists k :: 0 <= k < j && DischargedAt(db, history, k, id)
    {
      assert TimelyAt(db, history, j, id);
      GateIsFree(db, history, j, id);
      assert HeldAt(db, history, 0, id);
      var k := HeldOrDischarged(db, history, 0, j, id);
    }
  }

  lemma SettledRunCompletes(db: Db, id: RunId)
    requires id in db.runs && db.runs[id].status == Running && Settled(db.runs[id].loop)
    ensures var history := [CompleteRun(id, db.runs[id].loop, true)];
            AllFresh(db, history) && ReachesGate(db, history, id)
  {
    var history := [CompleteRun(id, db.runs[id].loop, true)];
    assert After(db, history, 0) == db;
    assert GatePassedAt(db, history, 0, id);
  }

  lemma SkippedRunCompletes(db: Db, id: RunId)
    requires id in db.runs && db.runs[id].status == Running
    requires db.runs[id].loop.shape == ReadOnly && !Unresolved(db.runs[id].loop)
    ensures var loop := db.runs[id].loop;
            var history := [NativeFinish(id, loop), CompleteRun(id, LessonLearned(loop, false), true)];
            AllFresh(db, history) && ReachesGate(db, history, id)
  {
    var loop := db.runs[id].loop;
    var history := [NativeFinish(id, loop), CompleteRun(id, LessonLearned(loop, false), true)];
    assert After(db, history, 0) == db;
    assert After(db, history, 1) == Exec(db, history[0]);
    assert GatePassedAt(db, history, 1, id);
  }

  const NO_PROOF := Proof("", None)

  lemma RecoveredRunCompletes(db: Db, id: RunId)
    requires id in db.runs && db.runs[id].status == Running
    requires db.runs[id].loop.shape == ReadOnly && RecoveredKey(db.runs[id].loop).Some?
    ensures var loop := db.runs[id].loop.(selection := NO_SELECTION);
            var history := [SelectProof(id, NO_SELECTION), VerifyCommit(id, loop, "", Some(NO_PROOF)),
                            CompleteRun(id, LessonLearned(loop, true), true)];
            AllFresh(db, history) && ReachesGate(db, history, id)
  {
    var loop := db.runs[id].loop.(selection := NO_SELECTION);
    var history := [SelectProof(id, NO_SELECTION), VerifyCommit(id, loop, "", Some(NO_PROOF)),
                    CompleteRun(id, LessonLearned(loop, true), true)];
    assert After(db, history, 0) == db;
    var one := Exec(db, history[0]);
    assert After(db, history, 1) == one && one.runs[id].loop == loop;
    var two := Exec(one, history[1]);
    assert After(db, history, 2) == two && two.runs[id].loop == LessonLearned(loop, true);
    assert GatePassedAt(db, history, 2, id);
  }

  /**
   From a live run a gate can be reached unverified, and then even with nothing stale, exactly when the run is
   not held; from one that is held, not even a history with stale decisions gets there as long as they are timely.
  */
  lemma GateReachableExactlyWhen(db: Db, id: RunId)
    requires id in db.runs && db.runs[id].status == Running && RowConsistent(db.runs[id].loop)
    ensures (exists history :: AllFresh(db, history) && ReachesGate(db, history, id)) <==> !Held(db, id)
    ensures (exists history :: AllTimely(db, history, id) && ReachesGate(db, history, id)) <==> !Held(db, id)
  {
    if Held(db, id) {
      forall history ensures !(AllTimely(db, history, id) && ReachesGate(db, history, id)) {
        if AllTimely(db, history, id) {
          HeldReachesNoGate(db, history, id);
        }
      }
      forall history ensures !(AllFresh(db, history) && ReachesGate(db, history, id)) {
        if AllFresh(db, history) {
          FreshIsAllTimely(db, history, id);
        }
      }
    } else {
      var history := FreeRunReachesGate(db, id);
      FreshIsAllTimely(db, history, id);
    }
  }

  lemma FreeRunReachesGate(db: Db, id: RunId) returns (history: History)
    requires id in db.runs && db.runs[id].status == Running && RowConsistent(db.runs[id].loop) && !Held(db, id)
    ensures AllFresh(db, history) && ReachesGate(db, history, id)
  {
    var loop := db.runs[id].loop;
    if Settled(loop) {
      history := [CompleteRun(id, loop, true)];
      SettledRunCompletes(db, id);
    } else if Unresolved(loop) {
      var chosen := loop.(selection := NO_SELECTION);
      history := [SelectProof(id, NO_SELECTION), VerifyCommit(id, chosen, "", Some(NO_PROOF)),
                  CompleteRun(id, LessonLearned(chosen, true), true)];
      RecoveredRunCompletes(db, id);
    } else {
      history := [NativeFinish(id, loop), CompleteRun(id, LessonLearned(loop, false), true)];
      SkippedRunCompletes(db, id);
    }
  }

  lemma FreshIsAllTimely(db: Db, history: History, id: RunId)
    requires AllFresh(db, history)
    ensures AllTimely(db, history, id)
  {
    forall k ensures TimelyAt(db, history, k, id) {
      if 0 <= k < |history| {
        FreshIsTimely(After(db, history, k), history[k], id);
      }
    }
  }

  /**
   A transaction that finishes a mutation, or meets a run that is held, lets the run get past a gate afterwards
   without a Verify in between - exactly when it is not warranted.
  */
  lemma StepLetsEscapeExactlyWhen(db: Db, tx: Tx, id: RunId)
    requires MutationFinished(db, tx, id) || Held(db, id)
    requires !Discharges(db, tx, id) && !GatePassed(db, tx, id)
    requires id in Exec(db, tx).runs && Exec(db, tx).runs[id].status == Running &&
             RowConsistent(Exec(db, tx).runs[id].loop)
    ensures (exists history :: AllFresh(Exec(db, tx), history) && ReachesGate(Exec(db, tx), history, id)) <==>
            !Warranted(db, tx, id)
  {
    GateReachableExactlyWhen(Exec(db, tx), id);
    StepKeepsHoldExactlyWhen(db, tx, id);
  }

  /* ---------- restarts ---------- */

  /** `history` lets a mutation through a gate without a Verify in between. */
  ghost predicate Escapes(start: Db, history: History, id: RunId) {
    exists i, j | 0 <= i < j < |history| ::
      && MutationFinishedAt(start, history, i, id)
      && GatePassedAt(start, history, j, id)
      && forall k | i < k < j :: !DischargedAt(start, history, k, id)
  }

  /** A live run at the start of a read-only cycle. */
  ghost predicate FreshReadOnlyCycle(db: Db, id: RunId) {
    && id in db.runs && db.runs[id].status == Running
    && exists scope, selection :: db.runs[id].loop == CycleRow(ReadOnly, scope, selection)
  }

  lemma WarrantedNeverEscapes(start: Db, history: History, id: RunId)
    requires AllWarranted(start, history, id)
    ensures !Escapes(start, history, id)
  {
    if Escapes(start, history, id) {
      var i: nat, j: nat :| i < j < |history|
        && MutationFinishedAt(start, history, i, id)
        && GatePassedAt(start, history, j, id)
        && forall k | i < k < j :: !DischargedAt(start, history, k, id);
      var k := MutationIsVerifiedBeforeGate(start, history, i, j, id);
    }
  }

  /**
   A run that enters a read-only cycle can later carry an unverified mutation through a gate by timely
   decisions exactly when one of its pipeline Execute calls was still in flight at that moment.
  */
  lemma ReadOnlyRestartIsSafeExactlyWhen(db: Db, id: RunId)
    requires FreshReadOnlyCycle(db, id)
    ensures (exists history ::
               AllTimely(db, history, id) && SafeRestarts(db, history, id) && Escapes(db, history, id)) <==>
            InFlight(db, id)
  {
    if InFlight(db, id) {
      var ticket :| ticket in db.tickets && db.tickets[ticket] == id;
      StaleTicketEscapes(db, id, ticket);
    } else {
      forall history | AllTimely(db, history, id) && SafeRestarts(db, history, id)
        ensures !Escapes(db, history, id)
      {
        SafeRestartsWarrant(db, history, id);
        WarrantedNeverEscapes(db, history, id);
      }
    }
  }

  /** The late finish raises the debt; the native skip of the read-only cycle drops it; the run completes. */
  lemma StaleTicketEscapes(db: Db, id: RunId, ticket: TicketId)
    requires FreshReadOnlyCycle(db, id) && ticket in db.tickets && db.tickets[ticket] == id
    ensures exists history :: AllTimely(db, history, id) && SafeRestarts(db, history, id) && Escapes(db, history, id)
  {
    var owed := VerificationDemanded(db.runs[id].loop);
    var history :=
      [ExecuteFinish(id, ticket), NativeFinish(id, owed), CompleteRun(id, LessonLearned(owed, false), true)];
    var one, two := Exec(db, history[0]), Exec(Exec(db, history[0]), history[1]);
    assert After(db, history, 0) == db;
    assert After(db, history, 1) == one;
    assert After(db, history, 2) == two;
    assert two.runs[id].loop == LessonLearned(owed, false);
    assert AllFresh(db, history);
    FreshIsAllTimely(db, history, id);
    assert MutationFinishedAt(db, history, 0, id) && GatePassedAt(db, history, 2, id);
  }

  /* ---------- stale decisions, with no restart involved ---------- */

  /** A mutation starts and finishes after somebody has looked at the run, and before that look is acted upon. */
  function Overtaken(loop: LoopRow, id: RunId, ticket: TicketId, request: ExecuteRequest): History {
    [ExecuteStart(id, ticket, loop, loop, request), ExecuteFinish(id, ticket)]
  }

  function Mutated(loop: LoopRow, request: ExecuteRequest): LoopRow {
    VerificationDemanded(ExecuteStarted(Planned(loop, loop, request), Unresolved(loop)))
  }

  lemma AfterOvertaken(db: Db, id: RunId, ticket: TicketId, request: ExecuteRequest, more: History)
    requires id in db.runs && db.runs[id].loop.contextReads > 0 && ticket !in db.tickets
    ensures var history := Overtaken(db.runs[id].loop, id, ticket, request) + more;
            && MutationFinishedAt(db, history, 1, id)
            && After(db, history, 2).runs == db.runs[id := db.runs[id].(loop := Mutated(db.runs[id].loop, request))]
  {
    var history := Overtaken(db.runs[id].loop, id, ticket, request) + more;
    ExecuteStartsAndFinishes(db, id, ticket, request);
    assert After(db, history, 0) == db;
    assert After(db, history, 1) == Exec(db, history[0]);
    assert After(db, history, 2) == Exec(Exec(db, history[0]), history[1]);
  }

  lemma OvertakenEscapes(db: Db, history: History, j: nat, id: RunId)
    requires 1 < j && MutationFinishedAt(db, history, 1, id) && GatePassedAt(db, history, j, id)
    requires forall k | 0 <= k < |history| :: !history[k].StartCycle? && !history[k].VerifyCommit?
    ensures SafeRestarts(db, history, id) && Escapes(db, history, id)
  {
    NoRestartIsSafe(db, history, id);
    assert forall k | 1 < k < j :: !DischargedAt(db, history, k, id);
  }

  lemma LateSkipPasses(db: Db, id: RunId, looked: LoopRow)
    requires id in db.runs && db.runs[id].status == Running && looked.shape == ReadOnly
    requires !Unresolved(db.runs[id].loop)
    ensures var complete := CompleteRun(id, LessonLearned(db.runs[id].loop, false), true);
            GatePassed(Exec(db, NativeFinish(id, looked)), complete, id)
  {
  }

  /**
   A native finish looks at a read-only cycle; a pipeline mutation starts and finishes; the skip that was
   decided on comes late and drops the debt; the run completes. Nothing is restarted.
  */
  lemma StaleSkipEscapes(db: Db, id: RunId, ticket: TicketId, request: ExecuteRequest)
    requires FreshReadOnlyCycle(db, id) && ticket !in db.tickets
    ensures exists history :: SafeRestarts(db, history, id) && Escapes(db, history, id)
  {
    var loop := db.runs[id].loop;
    var skipped := LessonLearned(Mutated(loop, request), false);
    var more := [NativeFinish(id, loop), CompleteRun(id, skipped, true)];
    var history := Overtaken(loop, id, ticket, request) + more;
    AfterOvertaken(db, id, ticket, request, more);
    LateSkipPasses(After(db, history, 2), id, loop);
    AfterFour(db, history);
    OvertakenEscapes(db, history, 3, id);
  }

  /** A gate looks at a settled run; a mutation starts and finishes; the gate opens all the same. */
  lemma StaleGateEscapes(db: Db, id: RunId, ticket: TicketId, request: ExecuteRequest, gate: Tx)
    requires id in db.runs && db.runs[id].status == Running && Settled(db.runs[id].loop)
    requires db.runs[id].loop.contextReads > 0 && ticket !in db.tickets
    requires gate == CompleteRun(id, db.runs[id].loop, true) || gate == Publish(id, db.runs[id].loop)
    ensures var history := Overtaken(db.runs[id].loop, id, ticket, request) + [gate];
            SafeRestarts(db, history, id) && Escapes(db, history, id)
  {
    var history := Overtaken(db.runs[id].loop, id, ticket, request) + [gate];
    AfterOvertaken(db, id, ticket, request, [gate]);
    assert GatePassedAt(db, history, 2, id);
    OvertakenEscapes(db, history, 2, id);
  }

  /* ---------- a Verify that satisfies an older selection ---------- */

  /** It closes the cycle although the proof that the row selects by now has not passed. */
  lemma OlderSelectionCloses(db: Db, id: RunId, observed: LoopRow, tool: string, proof: Option<Proof>)
    requires id in db.runs && (Unresolved(db.runs[id].loop) ==> RecoveredKey(observed).Some?)
    requires var proofs := RecordProof(db.runs[id], tool, proof, true).proofs; var loop := db.runs[id].loop;
             && SelectionSatisfied(observed.shape, observed.selection, proofs)
             && !SelectionSatisfied(loop.shape, loop.selection, proofs)
    ensures var tx := VerifyCommit(id, observed, tool, proof); var after := Exec(db, tx);
            && !Discharges(db, tx, id)
            && id in after.runs && after.runs[id].status == db.runs[id].status
            && after.runs[id].proofs == RecordProof(db.runs[id], tool, proof, true).proofs
            && after.runs[id].loop == LessonLearned(db.runs[id].loop, RecoveredKey(observed).Some?)
            && Settled(after.runs[id].loop)
  {
  }

  /** And the run completes. */
  lemma OlderSelectionCompletes(db: Db, id: RunId, observed: LoopRow, tool: string, proof: Proof)
    requires id in db.runs && db.runs[id].status == Running &&
             (Unresolved(db.runs[id].loop) ==> RecoveredKey(observed).Some?)
    requires observed.selection.proofType == Some(proof.proofType)
    requires observed.selection.source.Some? ==> observed.selection.source == proof.source
    requires var selected := db.runs[id].loop.selection.proofType;
             selected.Some? && selected.value != proof.proofType && selected.value !in db.runs[id].proofs
    ensures var tx := VerifyCommit(id, observed, tool, Some(proof)); var after := Exec(db, tx);
            var complete := CompleteRun(id, LessonLearned(db.runs[id].loop, RecoveredKey(observed).Some?), true);
            && !Discharges(db, tx, id) && GatePassed(after, complete, id)
            && var runs := Exec(after, complete).runs;
               && id in runs && runs[id].status == Completed
               && runs[id].loop == LessonLearned(db.runs[id].loop, RecoveredKey(observed).Some?)
               && db.runs[id].loop.selection.proofType.value !in runs[id].proofs
  {
    assert proof.proofType in RecordProof(db.runs[id], tool, Some(proof), true).proofs;
    OlderSelectionCloses(db, id, observed, tool, Some(proof));
  }

  /** The run from its last look before the mutation to its completion. */
  function StaleVerify(loop: LoopRow, id: RunId, ticket: TicketId, request: ExecuteRequest, tool: string,
                       proof: Proof): History {
    Overtaken(loop, id, ticket, request) +
    [VerifyCommit(id, loop, tool, Some(proof)),
     CompleteRun(id, LessonLearned(Mutated(loop, request), RecoveredKey(loop).Some?), true)]
  }

  /**
   A Verify reads a row that selects the proof it brings along; a mutation that calls for another proof starts and
   finishes; the Verify closes its cycle and the run completes. Nothing is restarted, and the proof that the
   completed row selects is not in the table at all.
  */
  lemma StaleVerifyEscapes(db: Db, id: RunId, ticket: TicketId, request: ExecuteRequest, tool: string, proof: Proof)
    requires id in db.runs && db.runs[id].status == Running && Settled(db.runs[id].loop)
    requires db.runs[id].loop.contextReads > 0 && ticket !in db.tickets
    requires var selection := db.runs[id].loop.selection;
             && selection.proofType == Some(proof.proofType)
             && (selection.source.Some? ==> selection.source == proof.source)
    requires request.selection.proofType.Some? && request.selection.proofType.value != proof.proofType
    requires request.selection.proofType.value !in db.runs[id].proofs
    ensures var history := StaleVerify(db.runs[id].loop, id, ticket, request, tool, proof);
            && SafeRestarts(db, history, id) && Escapes(db, history, id)
            && var run := After(db, history, 4).runs[id];
               && run.status == Completed && run.loop.selection == request.selection
               && run.loop.shape == ProposedShape(db.runs[id].loop.shape, request.shape)
               && request.selection.proofType.value !in run.proofs
  {
    var loop := db.runs[id].loop;
    var history := StaleVerify(loop, id, ticket, request, tool, proof);
    AfterOvertaken(db, id, ticket, request, history[2..]);
    assert history == Overtaken(loop, id, ticket, request) + history[2..];
    OlderSelectionCompletes(After(db, history, 2), id, loop, tool, proof);
    AfterFour(db, history);
    NoRestartIsSafe(db, history, id);
    EscapesInFour(db, history, id);
  }

  lemma EscapesInFour(db: Db, history: History, id: RunId)
    requires |history| == 4 && MutationFinishedAt(db, history, 1, id)
    requires GatePassedAt(db, history, 3, id) && !DischargedAt(db, history, 2, id)
    ensures Escapes(db, history, id)
  {
  }

  lemma AfterFour(db: Db, history: History)
    requires |history| == 4
    ensures After(db, history, 3) == Exec(After(db, history, 2), history[2])
    ensures After(db, history, 4) == Exec(After(db, history, 3), history[3])
  {
  }

  /* ---------- what a discharge does not promise ---------- */

  lemma TableDischarges(db: Db, id: RunId, tool: string)
    requires id in db.runs && db.runs[id].status == Running
    requires var loop := db.runs[id].loop;
             && loop.selection.proofType.Some? && SelectionSatisfied(loop.shape, loop.selection, db.runs[id].proofs)
             && (Unresolved(loop) ==> RecoveredKey(loop).Some?)
    ensures var loop := db.runs[id].loop; var tx := VerifyCommit(id, loop, tool, None); var after := Exec(db, tx);
            var complete := CompleteRun(id, LessonLearned(loop, RecoveredKey(loop).Some?), true);
            && Discharges(db, tx, id) && GatePassed(after, complete, id) && Fresh(after, complete)
            && id in after.runs && after.runs[id].proofs == db.runs[id].proofs
  {
  }

  /**
   A proof that passed before a mutation pays for it: rows of the proof table outlive later mutations of their
   cycle, so a Verify that brings no proof along closes the cycle, and not one decision is stale.
  */
  lemma EarlierProofDischarges(db: Db, id: RunId, ticket: TicketId, request: ExecuteRequest, tool: string)
    requires id in db.runs && db.runs[id].status == Running
    requires db.runs[id].loop.contextReads > 0 && ticket !in db.tickets
    requires request.selection.proofType.Some? && SelectionSatisfied(ReadOnly, request.selection, db.runs[id].proofs)
    requires Unresolved(db.runs[id].loop) ==> RecoveredKey(db.runs[id].loop).Some?
    ensures var mutated := Mutated(db.runs[id].loop, request);
            var history := Overtaken(db.runs[id].loop, id, ticket, request) +
                           [VerifyCommit(id, mutated, tool, None),
                            CompleteRun(id, LessonLearned(mutated, RecoveredKey(mutated).Some?), true)];
            && AllFresh(db, history)
            && MutationFinishedAt(db, history, 1, id)
            && DischargedAt(db, history, 2, id) && GatePassedAt(db, history, 3, id)
            && forall k | 0 <= k < |history| :: Written(history[k], id).None?
  {
    var mutated := Mutated(db.runs[id].loop, request);
    var more := [VerifyCommit(id, mutated, tool, None),
                 CompleteRun(id, LessonLearned(mutated, RecoveredKey(mutated).Some?), true)];
    var history := Overtaken(db.runs[id].loop, id, ticket, request) + more;
    AfterOvertaken(db, id, ticket, request, more);
    TableDischarges(After(db, history, 2), id, tool);
    AfterFour(db, history);
    FreshInFour(db, history, id);
  }

  lemma FreshInFour(db: Db, history: History, id: RunId)
    requires |history| == 4 && id in db.runs && history[1].ExecuteFinish?
    requires history[0].ExecuteStart? && history[0].run == id &&
             history[0].planned == history[0].observed == db.runs[id].loop
    requires Fresh(After(db, history, 2), history[2]) && Fresh(After(db, history, 3), history[3])
    ensures AllFresh(db, history)
  {
    assert After(db, history, 0) == db;
    assert Fresh(After(db, history, 1), history[1]);
  }

  /* ---------- native executions ---------- */

  /** A transaction that is decided on the row it meets and is neither a mutation to verify nor a discharge. */
  predicate Quiet(db: Db, tx: Tx, id: RunId) {
    Fresh(db, tx) && !MutationFinished(db, tx, id) && !Discharges(db, tx, id)
  }

  lemma NativeStartsQuietly(db: Db, id: RunId)
    requires id in db.runs && db.runs[id].status == Running && Settled(db.runs[id].loop)
    ensures var start := NativeStart(id, db.runs[id].loop); var after := Exec(db, start);
            && Quiet(db, start, id) && after.tickets == db.tickets
            && id in after.runs && after.runs[id].status == Running && Settled(after.runs[id].loop)
  {
  }

  lemma RestartThenSkip(db: Db, id: RunId, restart: Tx, row: LoopRow)
    requires id in db.runs && db.runs[id].status == Running && Settled(db.runs[id].loop)
    requires restart.StartCycle? && restart.run == id && restart.shape == ReadOnly
    requires row == CycleRow(ReadOnly, restart.scope, restart.selection)
    ensures var skip, complete := NativeFinish(id, row), CompleteRun(id, LessonLearned(row, false), true);
            var one := Exec(db, restart); var two := Exec(one, skip);
            && Quiet(db, restart, id) && Quiet(one, skip, id) && Quiet(two, complete, id)
            && GatePassed(two, complete, id)
  {
  }

  lemma FourQuietSteps(db: Db, history: History, id: RunId)
    requires |history| == 4 && !InFlight(db, id) && Exec(db, history[0]).tickets == db.tickets
    requires !history[0].StartCycle? && !history[2].StartCycle? && !history[3].StartCycle?
    requires var one := Exec(db, history[0]); var two := Exec(one, history[1]); var three := Exec(two, history[2]);
             && Quiet(db, history[0], id) && Quiet(one, history[1], id)
             && Quiet(two, history[2], id) && Quiet(three, history[3], id) && GatePassed(three, history[3], id)
    ensures SafeRestarts(db, history, id) && GatePassedAt(db, history, 3, id)
    ensures forall k | 0 <= k < 4 :: Quiet(After(db, history, k), history[k], id)
  {
    AfterFirstTwo(db, history);
    AfterFour(db, history);
    assert !InFlight(After(db, history, 1), id);
  }

  lemma AfterFirstTwo(db: Db, history: History)
    requires |history| >= 2
    ensures After(db, history, 0) == db && After(db, history, 1) == Exec(db, history[0])
    ensures After(db, history, 2) == Exec(Exec(db, history[0]), history[1])
  {
    assert After(db, history, 1) == Exec(After(db, history, 0), history[0]);
  }

  /**
   A native execution takes no ticket. One that is begun in a cycle of any shape and finished after a restart into
   a read-only cycle is skipped by a fresh decision, and the run completes without a Verify or a mark of the
   mutation; so `InFlight`, and with it a safe restart, speaks of the pipeline's calls alone.
  */
  lemma NativeAcrossRestartIsSkipped(db: Db, id: RunId, scope: Option<string>, selection: Selection)
    requires id in db.runs && db.runs[id].status == Running && Settled(db.runs[id].loop) && !InFlight(db, id)
    ensures var row := CycleRow(ReadOnly, scope, selection);
            var history := [NativeStart(id, db.runs[id].loop), StartCycle(id, ReadOnly, scope, selection),
                            NativeFinish(id, row), CompleteRun(id, LessonLearned(row, false), true)];
            && SafeRestarts(db, history, id) && GatePassedAt(db, history, 3, id)
            && forall k | 0 <= k < 4 :: Quiet(After(db, history, k), history[k], id)
  {
    var row := CycleRow(ReadOnly, scope, selection);
    var history := [NativeStart(id, db.runs[id].loop), StartCycle(id, ReadOnly, scope, selection),
                    NativeFinish(id, row), CompleteRun(id, LessonLearned(row, false), true)];
    NativeStartsQuietly(db, id);
    RestartThenSkip(Exec(db, history[0]), id, history[1], row);
    FourQuietSteps(db, history, id);
  }
}
