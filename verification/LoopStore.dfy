/**
 The tables of the closed loop as mutable state, and the functions of the source
 that step them: the learning helpers, the tool hooks, and the pipeline and native
 drivers. Every method is tied to the transactions it stands for, and every read a
 method makes before its transaction is fresh when the method runs alone.
*/
module LoopStore {
  import opened Wrappers
  import opened WorkScope
  import opened ClosedLoop
  import opened LoopInvariants
  import opened LoopEffects

  datatype Role = ContextRole | ExecuteRole | VerifyRole | IgnoreRole

  /** The tools whose success has to be verified. */
  predicate MutatesWorkspace(tool: string) {
    tool in {"patch_apply", "workspace_file_put", "workspace_file_write", "workspace_file_delete",
             "workspace_exec", "workspace_process_start", "task_apply_patch"}
  }

  /** The tools that publish a result and therefore need a settled loop. */
  predicate Publishes(tool: string) {
    tool in {"git_commit", "git_push", "git_commit_push", "task_git_commit", "task_git_push",
             "github_pull_create", "github_pull_merge", "task_github_pull_create", "task_github_pull_merge",
             "task_provider_pull_create", "task_provider_pull_merge"}
  }

  function RoleOf(tool: string, readOnly: bool, proof: Option<Proof>): Role {
    if proof.Some? then VerifyRole
    else if readOnly then ContextRole
    else if MutatesWorkspace(tool) then ExecuteRole
    else IgnoreRole
  }

  /** A tool call as the pipeline classifies it. */
  datatype ToolCall = ToolCall(
    tool: string, operation: Option<string>, readOnly: bool, proof: Option<Proof>, request: ExecuteRequest)
  {
    function Role(): Role {
      RoleOf(tool, readOnly, proof)
    }

    /** Jobs of a run that has ended or gone stale can still be looked at, but not started. */
    predicate NeedsRunning() {
      tool != "harness_job_call" || operation == Some("start")
    }
  }

  datatype Refusal = UnknownRun | NotRunning | NeedsContext | NeedsVerification | NeedsRecovery | IsStale

  /* ---------- the transactions a call stands for ---------- */

  function StartTxs(id: RunId, loop: LoopRow, ticket: TicketId, call: ToolCall): seq<Tx> {
    match call.Role()
    case ExecuteRole => [ExecuteStart(id, ticket, loop, loop, call.request)]
    case VerifyRole => [VerifyStart(id)]
    case _ => []
  }

  function FinishTxs(id: RunId, loop: LoopRow, ticket: TicketId, call: ToolCall, success: bool,
                     category: Option<string>): seq<Tx> {
    match call.Role()
    case ContextRole => if success then [ContextFinish(id)] else []
    case IgnoreRole => []
    case ExecuteRole =>
      if success then [Exercise(id, call.tool), ExecuteFinish(id, ticket)]
      else [RecordFailure(id, Some(ticket), call.tool, category, false)]
    case VerifyRole =>
      if success then [Exercise(id, call.tool), VerifyCommit(id, loop, call.tool, call.proof)]
      else [ProofFailed(id, call.tool, call.proof.value), RecordFailure(id, None, call.tool, category, true)]
  }

  /** A call that changes the workspace, as far as the loop is concerned; a Verify or a read does not. */
  predicate Mutates(call: ToolCall) {
    call.proof.None? && !call.readOnly && MutatesWorkspace(call.tool)
  }

  predicate Reads(call: ToolCall) {
    call.proof.None? && call.readOnly
  }

  /** A later look at a job, which needs no running run. */
  predicate LooksAtJob(call: ToolCall) {
    call.tool == "harness_job_call" && call.operation != Some("start")
  }

  predicate Bound(db: Db, id: RunId, call: ToolCall) {
    id in db.runs && (db.runs[id].status == Running || LooksAtJob(call))
  }

  /**
   When a call may begin on a run: the run is running, its context was read before anything is changed or
   published, and nothing is published over a verification or a recovery that is still open.
  */
  predicate MayBegin(db: Db, id: RunId, call: ToolCall) {
    && Bound(db, id, call)
    && (Mutates(call) || Publishes(call.tool) ==> db.runs[id].loop.contextReads > 0)
    && (Publishes(call.tool) ==>
          !db.runs[id].loop.verificationRequired && db.runs[id].loop.recovery !in {Needed, InProgress})
  }

  /** Nothing begins any more on a run that has been completed, cancelled or gone stale, but for later looks at jobs. */
  lemma NothingBeginsAfterTheEnd(start: Db, history: History, m: nat, n: nat, id: RunId, call: ToolCall)
    requires m <= n <= |history|
    requires id in After(start, history, m).runs && After(start, history, m).runs[id].status != Running
    requires MayBegin(After(start, history, n), id, call)
    ensures call.tool == "harness_job_call" && call.operation != Some("start")
  {
    EndedRunsStayEnded(start, history, m, n, id);
  }

  /** What a call that begins leaves in the rows. */
  ghost predicate BeginOwes(before: Db, after: Db, id: RunId, ticket: TicketId, call: ToolCall) {
    && id in before.runs && id in after.runs
    && var was, now := before.runs[id].loop, after.runs[id].loop;
       && after == before.(runs := before.runs[id := before.runs[id].(loop := now)], tickets := after.tickets)
       && after.tickets == (if Mutates(call) then before.tickets[ticket := id] else before.tickets)
       && (Mutates(call) ==> ExecuteBegun(was, now, call.request))
       && (call.proof.Some? ==> now == was.(phase := Verify, verification := VerificationPending))
       && (call.proof.None? && !Mutates(call) ==> now == was)
  }

  lemma StartTxsOwe(before: Db, after: Db, id: RunId, ticket: TicketId, call: ToolCall)
    requires MayBegin(before, id, call) && ticket !in before.tickets
    requires Ran(before, StartTxs(id, before.runs[id].loop, ticket, call), after)
    ensures BeginOwes(before, after, id, ticket, call)
  {
    RanUnfolds(before, StartTxs(id, before.runs[id].loop, ticket, call), after);
    if Mutates(call) {
      ExecuteBegins(before, id, ticket, call.request);
    }
  }

  /** What a finished call owes to the rows, by what kind of call it was and whether it succeeded. */
  ghost predicate FinishOwes(before: Db, after: Db, id: RunId, ticket: TicketId, call: ToolCall, success: bool,
                             category: Option<string>)
  {
    var kind := if category.Some? then category.value else "tool-error";
    && id in before.runs && id in after.runs
    && after.tickets == (if Mutates(call) then before.tickets - {ticket} else before.tickets)
    && (call.proof.Some? && success ==>
          Verified(before, after, id, call.tool) && ProofRecorded(before, after, id, call.tool, call.proof.value, true))
    && (call.proof.Some? && !success ==>
          && FailureRecorded(before, after, id, call.tool, kind, true)
          && ProofRecorded(before, after, id, call.tool, call.proof.value, false))
    && (Mutates(call) && success ==> VerificationOwed(before, after, id, call.tool))
    && (Mutates(call) && !success ==>
          FailureRecorded(before, after, id, call.tool, kind, false) && after.runs[id].proofs == before.runs[id].proofs)
    && (Reads(call) && success ==> ContextAdded(before, after, id))
    && (call.proof.None? && !Mutates(call) && !(Reads(call) && success) ==> after == before)
  }

  lemma FinishTxsOwe(before: Db, after: Db, id: RunId, ticket: TicketId, call: ToolCall, success: bool,
                     category: Option<string>)
    requires id in before.runs && (Mutates(call) ==> ticket in before.tickets && before.tickets[ticket] == id)
    requires Ran(before, FinishTxs(id, before.runs[id].loop, ticket, call, success, category), after)
    ensures FinishOwes(before, after, id, ticket, call, success, category)
  {
    RanUnfolds(before, FinishTxs(id, before.runs[id].loop, ticket, call, success, category), after);
    if call.proof.Some? {
      VerifyTxsOwe(before, after, id, ticket, call, success, category);
    } else if Mutates(call) {
      ExecuteTxsOwe(before, after, id, ticket, call, success, category);
    }
  }

  lemma VerifyTxsOwe(before: Db, after: Db, id: RunId, ticket: TicketId, call: ToolCall, success: bool,
                     category: Option<string>)
    requires id in before.runs && call.proof.Some?
    requires var txs := FinishTxs(id, before.runs[id].loop, ticket, call, success, category);
             |txs| == 2 && after == Exec(Exec(before, txs[0]), txs[1])
    ensures FinishOwes(before, after, id, ticket, call, success, category)
  {
    if success {
      VerifyIsVerified(before, id, call.tool, call.proof.value);
    } else {
      ProofFailureIsRecorded(before, id, call.tool, call.proof.value, category);
    }
  }

  lemma ExecuteTxsOwe(before: Db, after: Db, id: RunId, ticket: TicketId, call: ToolCall, success: bool,
                      category: Option<string>)
    requires id in before.runs && Mutates(call) && ticket in before.tickets && before.tickets[ticket] == id
    requires var txs := FinishTxs(id, before.runs[id].loop, ticket, call, success, category);
             if success then |txs| == 2 && after == Exec(Exec(before, txs[0]), txs[1])
             else |txs| == 1 && after == Exec(before, txs[0])
    ensures FinishOwes(before, after, id, ticket, call, success, category)
  {
    if success {
      MutationOwesVerification(before, id, ticket, call.tool);
    } else {
      FailureIsRecorded(before, RecordFailure(id, Some(ticket), call.tool, category, false));
    }
  }

  lemma RanUnfolds(before: Db, txs: History, after: Db)
    requires Ran(before, txs, after) && |txs| <= 2
    ensures |txs| == 0 ==> after == before
    ensures |txs| == 1 ==> after == Exec(before, txs[0])
    ensures |txs| == 2 ==> after == Exec(Exec(before, txs[0]), txs[1])
  {
    if |txs| == 2 {
      assert After(before, txs, 1) == Exec(before, txs[0]);
    }
  }

  function NativeFinishTxs(id: RunId, loop: LoopRow, success: bool, category: Option<string>): seq<Tx> {
    if success then [Exercise(id, "native-codex"), NativeFinish(id, loop)]
    else [RecordFailure(id, None, "native-codex", category, false)]
  }

  /** A native execution that begins takes up an open recovery and counts; shape, scope and selection stay. */
  predicate NativeBegun(was: LoopRow, now: LoopRow) {
    && now.executions == was.executions + 1
    && now.recovery == (if was.recovery in {Needed, InProgress} then InProgress else was.recovery)
    && now.phase == (if was.recovery in {Needed, InProgress} then Recover else Execute)
    && was == now.(executions := was.executions, recovery := was.recovery, phase := was.phase)
  }

  /** What a finished native execution owes: a mutation in any but a read-only cycle has to be verified. */
  ghost predicate NativeFinishOwes(before: Db, after: Db, id: RunId, success: bool, category: Option<string>) {
    var kind := if category.Some? then category.value else "tool-error";
    && id in before.runs && id in after.runs
    && after.tickets == before.tickets && after.runs[id].proofs == before.runs[id].proofs
    && if !success then FailureRecorded(before, after, id, "native-codex", kind, false)
       else if before.runs[id].loop.shape != ReadOnly then VerificationOwed(before, after, id, "native-codex")
       else Learned(before, after, id, "native-codex", None)
  }

  lemma NativeFinishTxsOwe(before: Db, after: Db, id: RunId, success: bool, category: Option<string>)
    requires id in before.runs
    requires Ran(before, NativeFinishTxs(id, before.runs[id].loop, success, category), after)
    ensures NativeFinishOwes(before, after, id, success, category)
  {
    var txs := NativeFinishTxs(id, before.runs[id].loop, success, category);
    RanUnfolds(before, txs, after);
    if success {
      LearningAfterExercise(before, id, "native-codex", None);
      DemandAfterExercise(before, id, "native-codex");
    } else {
      FailureIsRecorded(before, txs[0]);
    }
  }

  /** What a native verification without a proof to run owes: the wanted proof is selected and has failed. */
  ghost predicate NoProofOwes(before: Db, after: Db, id: RunId, desired: Option<string>)
    requires id in before.runs
  {
    var chosen := WithLoop(before, id, before.runs[id].loop.(selection := Selection(desired, None, None)));
    && FailureRecorded(chosen, after, id, "native-proof", "proof-unavailable", true)
    && after.tickets == before.tickets
    && after.runs[id].proofs ==
       if desired.None? then before.runs[id].proofs
       else before.runs[id].proofs[desired.value := ProofRow(None, false, "native-proof")]
  }

  /** The rows with the wanted proof selected and recorded as failed, before the failure is noted. */
  predicate AboutToFail(before: Db, failing: Db, id: RunId, desired: Option<string>)
    requires id in before.runs
  {
    var run := before.runs[id];
    var loop := run.loop.(selection := Selection(desired, None, None), phase := Verify,
                          verification := VerificationPending);
    var proofs := if desired.None? then run.proofs
                  else run.proofs[desired.value := ProofRow(None, false, "native-proof")];
    failing == WithRun(before, id, run.(loop := loop, proofs := proofs))
  }

  lemma NoProofIsOwed(before: Db, failing: Db, after: Db, id: RunId, desired: Option<string>)
    requires id in before.runs && id in failing.runs && AboutToFail(before, failing, id, desired)
    requires FailureRecorded(failing, after, id, "native-proof", "proof-unavailable", true)
    requires after.tickets == failing.tickets && after.runs[id].proofs == failing.runs[id].proofs
    ensures NoProofOwes(before, after, id, desired)
  {
    var chosen := WithLoop(before, id, before.runs[id].loop.(selection := Selection(desired, None, None)));
    assert forall key :: PatternAt(failing, key) == PatternAt(chosen, key);
  }

  /** The history `txs` ran from `before` to `after`, every transaction on the rows it was decided on. */
  ghost predicate Ran(before: Db, txs: History, after: Db) {
    AllFresh(before, txs) && after == After(before, txs, |txs|)
  }

  lemma RanNone(db: Db)
    ensures Ran(db, [], db)
  {
  }

  lemma RanOne(before: Db, tx: Tx)
    requires Fresh(before, tx)
    ensures Ran(before, [tx], Exec(before, tx))
  {
    assert After(before, [tx], 1) == Exec(before, tx);
  }

  lemma RanTwo(before: Db, first: Tx, second: Tx)
    requires Fresh(before, first) && Fresh(Exec(before, first), second)
    ensures Ran(before, [first, second], Exec(Exec(before, first), second))
  {
    var txs := [first, second];
    assert After(before, txs, 1) == Exec(before, first);
    assert After(before, txs, 2) == Exec(Exec(before, first), second);
  }

  lemma {:induction false} AfterPrefix(start: Db, txs: History, more: History, n: nat)
    requires n <= |txs|
    ensures After(start, txs + more, n) == After(start, txs, n)
  {
    if n > 0 {
      AfterPrefix(start, txs, more, n - 1);
    }
  }

  lemma RanThen(before: Db, txs: History, middle: Db, tx: Tx)
    requires Ran(before, txs, middle) && Fresh(middle, tx)
    ensures Ran(before, txs + [tx], Exec(middle, tx))
  {
    var all := txs + [tx];
    forall i | 0 <= i < |all| ensures Fresh(After(before, all, i), all[i]) {
      AfterPrefix(before, txs, [tx], i);
    }
    AfterPrefix(before, txs, [tx], |txs|);
  }

  function SelectTxs(id: RunId, desired: Option<string>): seq<Tx> {
    [SelectProof(id, Selection(desired, None, None)), VerifyStart(id)]
    + if desired.Some? then [ProofFailed(id, "native-proof", Proof(desired.value, None))] else []
  }

  /** What a native verification does when the repository offers no proof to run. */
  function NoProofTxs(id: RunId, desired: Option<string>): seq<Tx> {
    SelectTxs(id, desired) + [RecordFailure(id, None, "native-proof", Some("proof-unavailable"), true)]
  }

  /** One more confirmation on each exercised row is what confirming means. */
  lemma ConfirmedIs(before: map<Key, Pattern>, exposures: map<Key, Outcome>, rows: set<Key>, after: map<Key, Pattern>)
    requires rows == set key | key in exposures && exposures[key] == Exercised
    requires after.Keys == before.Keys
    requires forall key | key in after ::
               after[key] ==
               if key in rows then before[key].(confirmations := before[key].confirmations + 1) else before[key]
    ensures after == Confirm(before, exposures)
  {
    var confirmed := Confirm(before, exposures);
    assert confirmed.Keys == before.Keys;
    forall key | key in after ensures after[key] == confirmed[key] {
    }
  }

  /* ---------- the store ---------- */

  /**
   Reading a run through harness::get is RefreshRunning followed by a look at its rows, so a run
   that passes for running in the methods below is also current.
  */

  class HarnessStore {
    var runs: map<RunId, Run>
    var patterns: map<Key, Pattern>
    var tickets: map<TicketId, RunId>

    ghost function Rows(): Db
      reads this
    {
      Db(runs, patterns, tickets)
    }

    constructor ()
      ensures Rows() == EMPTY
    {
      runs, patterns, tickets := map[], map[], map[];
    }

    method WriteLoop(id: RunId, loop: LoopRow)
      requires id in runs
      modifies this`runs
      ensures Rows() == WithLoop(old(Rows()), id, loop)
    {
      runs := runs[id := runs[id].(loop := loop)];
    }

    method WriteExposures(id: RunId, exposures: map<Key, Outcome>)
      requires id in runs
      modifies this`runs
      ensures Rows() == WithRun(old(Rows()), id, old(runs)[id].(exposures := exposures))
    {
      runs := runs[id := runs[id].(exposures := exposures)];
    }

    /** Insert the pattern or count one more failure, then close the exposures of the failed tool. */
    method RecordLearningFailure(id: RunId, key: Key)
      requires id in runs
      modifies this`runs, this`patterns
      ensures patterns == CountFailure(old(patterns), key)
      ensures runs == old(runs)[id := old(runs)[id].(exposures := FailExposures(old(runs)[id].exposures, key.tool))]
    {
      var pattern := if key in patterns then patterns[key] else Pattern(0, 0, 0);
      patterns := patterns[key := pattern.(failures := pattern.failures + 1)];
      WriteExposures(id, FailExposures(runs[id].exposures, key.tool));
    }

    /** Count one confirmation per exercised exposure, row by row, then mark them passed. */
    method ConfirmExercisedLearning(id: RunId) returns (confirmed: nat)
      requires id in runs
      modifies this`runs, this`patterns
      ensures patterns == Confirm(old(patterns), old(runs)[id].exposures)
      ensures runs == old(runs)[id := old(runs)[id].(exposures := PassExposures(old(runs)[id].exposures))]
      ensures confirmed == |set key | key in old(runs)[id].exposures && old(runs)[id].exposures[key] == Exercised|
    {
      var exposures := runs[id].exposures;
      var rows := set key | key in exposures && exposures[key] == Exercised;
      confirmed := |rows|;
      var todo := rows;
      while todo != {}
        invariant todo <= rows
        invariant runs == old(runs)
        invariant patterns.Keys == old(patterns).Keys
        invariant forall key | key in patterns ::
            patterns[key] == if key in rows - todo
                             then old(patterns)[key].(confirmations := old(patterns)[key].confirmations + 1)
                             else old(patterns)[key]
        decreases todo
      {
        var key :| key in todo;
        if key in patterns {
          patterns := patterns[key := patterns[key].(confirmations := patterns[key].confirmations + 1)];
        }
        todo := todo - {key};
      }
      ConfirmedIs(old(patterns), exposures, rows, patterns);
      WriteExposures(id, PassExposures(exposures));
    }

    method RecordClosedLoopFailure(id: RunId, tool: string, category: Option<string>, verification: bool)
      requires id in runs
      modifies this`runs, this`patterns
      ensures Rows() == NoteFailure(old(Rows()), id, FailureKey(tool, category), verification)
    {
      var key := Key(tool, if category.Some? then category.value else "tool-error");
      var loop := runs[id].loop;
      WriteLoop(id, loop.(phase := Recover, recovery := Needed, failures := loop.failures + 1,
                          verification := if verification then VerificationFailed else loop.verification,
                          lastTool := Some(tool), lastCategory := Some(key.category)));
      RecordLearningFailure(id, key);
    }

    /** The learn step that ends a cycle, after a Verify or as the read-only skip. */
    method EnterLearn(id: RunId, recovered: Option<Key>)
      requires id in runs
      modifies this`runs, this`patterns
      ensures Rows() == LearnFrom(old(Rows()), id, recovered)
    {
      if recovered.Some? && recovered.value in patterns {
        var pattern := patterns[recovered.value];
        patterns := patterns[recovered.value := pattern.(recoveries := pattern.recoveries + 1)];
      }
      var _ := ConfirmExercisedLearning(id);
      var loop := runs[id].loop;
      WriteLoop(id, loop.(phase := Learn, verificationRequired := false, verification := VerificationPassed,
                          recovery := if recovered.Some? then Recovered else loop.recovery,
                          lessons := loop.lessons + 1));
    }

    /** A successful Verify: record the proof, look the selected one up, then wait or learn. */
    method VerifyFinished(id: RunId, tool: string, proof: Option<Proof>)
      requires id in runs
      modifies this`runs, this`patterns
      ensures Rows() == Exec(old(Rows()), VerifyCommit(id, old(runs)[id].loop, tool, proof))
    {
      var row := runs[id].loop;
      var recovered := RecoveredKey(row);
      if proof.Some? {
        var proofs := runs[id].proofs[proof.value.proofType := ProofRow(proof.value.source, true, tool)];
        runs := runs[id := runs[id].(proofs := proofs)];
      }
      if SelectionSatisfied(row.shape, row.selection, runs[id].proofs) {
        EnterLearn(id, recovered);
      } else {
        var loop := runs[id].loop;
        WriteLoop(id, loop.(phase := Verify, verificationRequired := true, verification := VerificationPending));
      }
    }

    /* ---------- the tool pipeline ---------- */

    /**
     What the run binding and the two gates say to a tool call that is otherwise allowed. The run has just been
     refreshed, so one that is no longer current is stale by now.
    */
    function Gate(id: RunId, call: ToolCall): Option<Refusal>
      reads this
    {
      if id !in runs then Some(UnknownRun)
      else if call.NeedsRunning() && runs[id].status != Running then Some(NotRunning)
      else if runs[id].loop.contextReads == 0 && (call.Role() == ExecuteRole || Publishes(call.tool)) then
        Some(NeedsContext)
      else if Publishes(call.tool) && runs[id].loop.verificationRequired then Some(NeedsVerification)
      else if Publishes(call.tool) && Unresolved(runs[id].loop) then Some(NeedsRecovery)
      else None
    }

    /** The loop's part of begin: check the gates, then step the loop for the call's role. */
    method BeginTool(id: RunId, ticket: TicketId, call: ToolCall) returns (outcome: Result<(), Refusal>)
      requires ticket !in tickets
      modifies this`runs, this`tickets
      ensures outcome.Success? <==> MayBegin(old(Rows()), id, call)
      ensures outcome == Failure(UnknownRun) <==> id !in old(runs)
      ensures outcome == Failure(NotRunning) <==>
                id in old(runs) && old(runs)[id].status != Running && !LooksAtJob(call)
      ensures outcome == Failure(NeedsContext) <==>
                && Bound(old(Rows()), id, call)
                && (Mutates(call) || Publishes(call.tool)) && old(runs)[id].loop.contextReads == 0
      ensures outcome == Failure(NeedsVerification) <==>
                && Bound(old(Rows()), id, call) && Publishes(call.tool) && old(runs)[id].loop.contextReads > 0
                && old(runs)[id].loop.verificationRequired
      ensures outcome == Failure(NeedsRecovery) <==>
                && Bound(old(Rows()), id, call) && Publishes(call.tool) && old(runs)[id].loop.contextReads > 0
                && !old(runs)[id].loop.verificationRequired && old(runs)[id].loop.recovery in {Needed, InProgress}
      ensures outcome.Failure? ==> Rows() == old(Rows())
      ensures outcome.Success? ==> Ran(old(Rows()), StartTxs(id, old(runs)[id].loop, ticket, call), Rows())
      ensures outcome.Success? ==> BeginOwes(old(Rows()), Rows(), id, ticket, call)
      ensures outcome.Success? && Publishes(call.tool) ==> Enabled(old(Rows()), Publish(id, old(runs)[id].loop))
    {
      var refusal := Gate(id, call);
      if refusal.Some? {
        return Failure(refusal.value);
      }
      ghost var before := Rows();
      StepBegin(id, ticket, call);
      StartTxsOwe(before, Rows(), id, ticket, call);
      outcome := Success(());
    }

    /** Its statements, role by role. */
    method StepBegin(id: RunId, ticket: TicketId, call: ToolCall)
      requires id in runs && ticket !in tickets
      requires call.Role() == ExecuteRole ==> runs[id].loop.contextReads > 0
      modifies this`runs, this`tickets
      ensures Ran(old(Rows()), StartTxs(id, old(runs)[id].loop, ticket, call), Rows())
    {
      var loop := runs[id].loop;
      match call.Role() {
        case ExecuteRole =>
          RanOne(Rows(), ExecuteStart(id, ticket, loop, loop, call.request));
          var recovering := loop.recovery == Needed || loop.recovery == InProgress;
          var scope := MergeScope(loop.scope, call.request.scope);
          tickets := tickets[ticket := id];
          WriteLoop(id, loop.(phase := if recovering then Recover else Execute,
                              executions := loop.executions + 1,
                              recovery := if recovering then InProgress else loop.recovery,
                              shape := ProposedShape(loop.shape, call.request.shape),
                              scope := if scope.Some? then scope else loop.scope,
                              selection := call.request.selection));
        case VerifyRole =>
          RanOne(Rows(), VerifyStart(id));
          WriteLoop(id, loop.(phase := Verify, verification := VerificationPending));
        case _ =>
          RanNone(Rows());
      }
    }

    /** closed_loop_tool_finished for a call of the pipeline. */
    method FinishTool(id: RunId, ticket: TicketId, call: ToolCall, success: bool, category: Option<string>)
      requires id in runs
      requires call.Role() == ExecuteRole ==> ticket in tickets && tickets[ticket] == id
      modifies this
      ensures Ran(old(Rows()), FinishTxs(id, old(runs)[id].loop, ticket, call, success, category), Rows())
      ensures FinishOwes(old(Rows()), Rows(), id, ticket, call, success, category)
    {
      ghost var before := Rows();
      StepFinish(id, ticket, call, success, category);
      FinishTxsOwe(before, Rows(), id, ticket, call, success, category);
    }

    /** Its statements, role by role. */
    method StepFinish(id: RunId, ticket: TicketId, call: ToolCall, success: bool, category: Option<string>)
      requires id in runs
      requires call.Role() == ExecuteRole ==> ticket in tickets && tickets[ticket] == id
      modifies this
      ensures Ran(old(Rows()), FinishTxs(id, old(runs)[id].loop, ticket, call, success, category), Rows())
    {
      var loop := runs[id].loop;
      match call.Role() {
        case ContextRole =>
          if success {
            RanOne(Rows(), ContextFinish(id));
            WriteLoop(id, loop.(contextReads := loop.contextReads + 1,
                                phase := if loop.phase == Learn then Context else loop.phase));
          } else {
            RanNone(Rows());
          }
        case IgnoreRole =>
          RanNone(Rows());
        case ExecuteRole =>
          if success {
            RanTwo(Rows(), Exercise(id, call.tool), ExecuteFinish(id, ticket));
            WriteExposures(id, ExerciseExposures(runs[id].exposures, call.tool));
            WriteLoop(id, loop.(phase := Verify, verificationRequired := true, verification := VerificationPending));
          } else {
            RanOne(Rows(), RecordFailure(id, Some(ticket), call.tool, category, false));
            RecordClosedLoopFailure(id, call.tool, category, false);
          }
          tickets := tickets - {ticket};
        case VerifyRole =>
          if success {
            RanTwo(Rows(), Exercise(id, call.tool), VerifyCommit(id, loop, call.tool, call.proof));
            WriteExposures(id, ExerciseExposures(runs[id].exposures, call.tool));
            VerifyFinished(id, call.tool, call.proof);
          } else {
            var proof := call.proof.value;
            RanTwo(Rows(), ProofFailed(id, call.tool, proof), RecordFailure(id, None, call.tool, category, true));
            RecordFailedProof(id, call.tool, proof);
            RecordClosedLoopFailure(id, call.tool, category, true);
          }
      }
    }

    method RecordFailedProof(id: RunId, tool: string, proof: Proof)
      requires id in runs
      modifies this`runs
      ensures Rows() == Exec(old(Rows()), ProofFailed(id, tool, proof))
    {
      var proofs := runs[id].proofs[proof.proofType := ProofRow(proof.source, false, tool)];
      runs := runs[id := runs[id].(proofs := proofs)];
    }

    /* ---------- the native driver ---------- */

    method NativeExecutionStart(id: RunId) returns (outcome: Result<(), Refusal>)
      modifies this`runs
      ensures outcome.Success? <==> id in old(runs) && old(runs)[id].status == Running
      ensures outcome.Success? ==> Ran(old(Rows()), [NativeStart(id, old(runs)[id].loop)], Rows())
      ensures outcome.Success? ==>
                && id in runs && NativeBegun(old(runs)[id].loop, runs[id].loop)
                && Rows() == WithLoop(old(Rows()), id, runs[id].loop)
      ensures outcome.Failure? ==> Rows() == old(Rows())
    {
      if id !in runs {
        return Failure(UnknownRun);
      }
      if runs[id].status != Running {
        return Failure(NotRunning);
      }
      var loop := runs[id].loop;
      RanOne(Rows(), NativeStart(id, loop));
      var recovering := loop.recovery == Needed || loop.recovery == InProgress;
      WriteLoop(id, loop.(phase := if recovering then Recover else Execute,
                          executions := loop.executions + 1,
                          recovery := if recovering then InProgress else loop.recovery));
      outcome := Success(());
    }

    /** Demand verification unless the cycle is read-only; a read-only cycle learns at once. */
    method NativeExecutionFinish(id: RunId, success: bool, category: Option<string>)
      returns (outcome: Result<(), Refusal>)
      modifies this`runs, this`patterns
      ensures outcome.Success? <==> id in old(runs) && old(runs)[id].status == Running
      ensures outcome.Success? ==> Ran(old(Rows()), NativeFinishTxs(id, old(runs)[id].loop, success, category), Rows())
      ensures outcome.Success? ==> NativeFinishOwes(old(Rows()), Rows(), id, success, category)
      ensures outcome.Failure? ==> Rows() == old(Rows())
    {
      if id !in runs {
        return Failure(UnknownRun);
      }
      if runs[id].status != Running {
        return Failure(NotRunning);
      }
      ghost var before := Rows();
      StepNativeFinish(id, success, category);
      NativeFinishTxsOwe(before, Rows(), id, success, category);
      outcome := Success(());
    }

    method StepNativeFinish(id: RunId, success: bool, category: Option<string>)
      requires id in runs
      modifies this`runs, this`patterns
      ensures Ran(old(Rows()), NativeFinishTxs(id, old(runs)[id].loop, success, category), Rows())
    {
      var loop := runs[id].loop;
      var requiresVerification := loop.shape != ReadOnly;
      if success {
        RanTwo(Rows(), Exercise(id, "native-codex"), NativeFinish(id, loop));
        WriteExposures(id, ExerciseExposures(runs[id].exposures, "native-codex"));
        if requiresVerification {
          WriteLoop(id, loop.(phase := Verify, verificationRequired := true, verification := VerificationPending));
        } else {
          EnterLearn(id, None);
        }
      } else {
        RanOne(Rows(), RecordFailure(id, None, "native-codex", category, false));
        RecordClosedLoopFailure(id, "native-codex", category, false);
      }
    }

    /**
     native_verification_run up to the point where the proof command starts: `live` is the
     proof the repository offers now, `fallback` its preferred type when it offers none.
    */
    method NativeVerificationStart(id: RunId, live: Option<Selection>, fallback: Option<string>)
      returns (outcome: Result<Option<Proof>, Refusal>)
      requires live.Some? ==> live.value.proofType.Some?
      modifies this`runs, this`patterns
      ensures outcome.Failure? <==> id !in old(runs) || old(runs)[id].status != Running
      ensures outcome.Failure? ==> Rows() == old(Rows())
      ensures outcome.Success? && !old(runs)[id].loop.verificationRequired ==>
                outcome.value == None && Rows() == old(Rows())
      ensures outcome.Success? && old(runs)[id].loop.verificationRequired && live.Some? ==>
                && outcome.value == Some(Proof(live.value.proofType.value, live.value.source))
                && Ran(old(Rows()), [SelectProof(id, live.value), VerifyStart(id)], Rows())
                && var loop := old(runs)[id].loop;
                   Rows() == WithLoop(old(Rows()), id, loop.(selection := live.value, phase := Verify,
                                                             verification := VerificationPending))
      ensures outcome.Success? && old(runs)[id].loop.verificationRequired && live.None? ==>
                && outcome.value == None
                && var wanted := if fallback.Some? then fallback else old(runs)[id].loop.selection.proofType;
                   Ran(old(Rows()), NoProofTxs(id, wanted), Rows()) && NoProofOwes(old(Rows()), Rows(), id, wanted)
    {
      if id !in runs {
        return Failure(UnknownRun);
      }
      if runs[id].status != Running {
        return Failure(NotRunning);
      }
      var loop := runs[id].loop;
      if !loop.verificationRequired {
        return Success(None);
      }
      if live.Some? {
        RanTwo(Rows(), SelectProof(id, live.value), VerifyStart(id));
        WriteLoop(id, loop.(selection := live.value));
        WriteLoop(id, runs[id].loop.(phase := Verify, verification := VerificationPending));
        return Success(Some(Proof(live.value.proofType.value, live.value.source)));
      }
      var desired := if fallback.Some? then fallback else loop.selection.proofType;
      NoProofAvailable(id, desired);
      outcome := Success(None);
    }

    /** Select the proof that is wanted, fail it, and record the failure. */
    method NoProofAvailable(id: RunId, desired: Option<string>)
      requires id in runs
      modifies this`runs, this`patterns
      ensures Ran(old(Rows()), NoProofTxs(id, desired), Rows())
      ensures NoProofOwes(old(Rows()), Rows(), id, desired)
    {
      ghost var before := Rows();
      FailSelection(id, desired);
      ghost var failing := Rows();
      ghost var failure := RecordFailure(id, None, "native-proof", Some("proof-unavailable"), true);
      RanThen(before, SelectTxs(id, desired), failing, failure);
      RecordClosedLoopFailure(id, "native-proof", Some("proof-unavailable"), true);
      FailureIsRecorded(failing, failure);
      NoProofIsOwed(before, failing, Rows(), id, desired);
    }

    method FailSelection(id: RunId, desired: Option<string>)
      requires id in runs
      modifies this`runs
      ensures Ran(old(Rows()), SelectTxs(id, desired), Rows())
      ensures id in runs && AboutToFail(old(Rows()), Rows(), id, desired)
    {
      ghost var before := Rows();
      var selection := Selection(desired, None, None);
      ghost var txs := [SelectProof(id, selection), VerifyStart(id)];
      RanTwo(before, txs[0], txs[1]);
      WriteLoop(id, runs[id].loop.(selection := selection));
      WriteLoop(id, runs[id].loop.(phase := Verify, verification := VerificationPending));
      if desired.Some? {
        RanThen(before, txs, Rows(), ProofFailed(id, "native-proof", Proof(desired.value, None)));
        var proofs := runs[id].proofs[desired.value := ProofRow(None, false, "native-proof")];
        runs := runs[id := runs[id].(proofs := proofs)];
      }
    }

    /* ---------- run lifecycle ---------- */

    /** begin: a new run with its loop row; `exposed` are the patterns a root run is shown, none for a child. */
    method BeginRun(id: RunId, shape: Shape, exposed: set<Key>)
      requires id !in runs && exposed <= patterns.Keys && |exposed| <= MAX_LEARNING_HINTS
      modifies this`runs
      ensures Rows() == Exec(old(Rows()), Tx.BeginRun(id, shape, exposed))
      ensures id in runs && runs == old(runs)[id := runs[id]]
      ensures runs[id].status == Running && runs[id].proofs == map[]
      ensures runs[id].exposures.Keys == exposed && forall key | key in exposed :: runs[id].exposures[key] == Pending
      ensures var loop := runs[id].loop;
              && !loop.verificationRequired && loop.recovery == NoRecovery && loop.lastTool.None?
              && loop.contextReads == 0 && loop.shape == shape && loop.scope.None? && loop.selection == NO_SELECTION
    {
      runs := runs[id := Run(Running, InitialRow(shape), map[], map key | key in exposed :: Pending)];
    }

    /** refresh_running_run: a running run whose workspace has moved on becomes stale. */
    method RefreshRunning(id: RunId, current: bool)
      modifies this`runs
      ensures Rows() == if current then old(Rows()) else Exec(old(Rows()), GoStale(id))
      ensures runs == if !current && id in old(runs) && old(runs)[id].status == Running
                      then old(runs)[id := old(runs)[id].(status := Stale)] else old(runs)
    {
      if !current && id in runs && runs[id].status == Running {
        runs := runs[id := runs[id].(status := Stale)];
      }
    }

    /** cancel: a run that has already ended is left as it ended. */
    method Cancel(id: RunId) returns (outcome: Result<(), Refusal>)
      modifies this`runs
      ensures Rows() == Exec(old(Rows()), CancelRun(id))
      ensures outcome.Success? <==> id in old(runs)
      ensures runs == if id in old(runs) && old(runs)[id].status in {Running, Stale}
                      then old(runs)[id := old(runs)[id].(status := Cancelled)] else old(runs)
    {
      if id !in runs {
        return Failure(UnknownRun);
      }
      if runs[id].status == Running || runs[id].status == Stale {
        runs := runs[id := runs[id].(status := Cancelled)];
      }
      outcome := Success(());
    }

    /** route with start_cycle: refuse while anything is unresolved, else reset row and proofs. */
    method StartCycle(id: RunId, shape: Shape, scope: Option<string>, selection: Selection)
      returns (outcome: Result<(), Refusal>)
      modifies this`runs
      ensures Rows() == Exec(old(Rows()), Tx.StartCycle(id, shape, scope, selection))
      ensures outcome.Success? <==>
                && id in old(runs) && old(runs)[id].status == Running
                && !old(runs)[id].loop.verificationRequired && old(runs)[id].loop.recovery !in {Needed, InProgress}
      ensures outcome == Failure(NeedsVerification) <==>
                id in old(runs) && old(runs)[id].status == Running && old(runs)[id].loop.verificationRequired
      ensures outcome.Failure? ==> Rows() == old(Rows())
      ensures outcome.Success? ==>
                && id in runs && runs == old(runs)[id := old(runs)[id].(loop := runs[id].loop, proofs := map[])]
                && var loop := runs[id].loop;
                   && loop.contextReads == 1 && !loop.verificationRequired && loop.recovery == NoRecovery
                   && loop.lastTool.None? && loop.lastCategory.None?
                   && loop.shape == shape && loop.scope == scope && loop.selection == selection
    {
      if id !in runs {
        return Failure(UnknownRun);
      }
      if runs[id].status != Running {
        return Failure(NotRunning);
      }
      var loop := runs[id].loop;
      if loop.verificationRequired {
        return Failure(NeedsVerification);
      }
      if loop.recovery == Needed || loop.recovery == InProgress {
        return Failure(NeedsRecovery);
      }
      runs := runs[id := runs[id].(proofs := map[])];
      WriteLoop(id, LoopRow(Context, 1, 0, false, NotVerified, NoRecovery, 0, 0, None, None, shape, scope, selection));
      outcome := Success(());
    }

    /** The first half of complete: what it says to the run as it is, and the loop row it decides on. */
    method LookAtCompletion(id: RunId, current: bool) returns (outcome: Result<LoopRow, Refusal>)
      ensures outcome.Success? <==>
                && id in runs && runs[id].status == Running && current
                && !runs[id].loop.verificationRequired && runs[id].loop.recovery !in {Needed, InProgress}
      ensures outcome.Success? ==> outcome.value == runs[id].loop
      ensures outcome == Failure(IsStale) <==> id in runs && runs[id].status == Running && !current
      ensures outcome == Failure(NeedsVerification) <==>
                id in runs && runs[id].status == Running && current && runs[id].loop.verificationRequired
    {
      if id !in runs {
        return Failure(UnknownRun);
      }
      if runs[id].status != Running {
        return Failure(NotRunning);
      }
      if !current {
        return Failure(IsStale);
      }
      if runs[id].loop.verificationRequired {
        return Failure(NeedsVerification);
      }
      if runs[id].loop.recovery == Needed || runs[id].loop.recovery == InProgress {
        return Failure(NeedsRecovery);
      }
      outcome := Success(runs[id].loop);
    }

    /** The second half: complete the run if it is still running, whatever its loop row has become since. */
    method CommitCompletion(id: RunId, observed: LoopRow)
      requires Settled(observed)
      modifies this`runs
      ensures Rows() == Exec(old(Rows()), CompleteRun(id, observed, true))
      ensures runs == if id in old(runs) && old(runs)[id].status == Running
                      then old(runs)[id := old(runs)[id].(status := Completed)] else old(runs)
    {
      if id in runs && runs[id].status == Running {
        runs := runs[id := runs[id].(status := Completed)];
      }
    }

    /** complete: idempotent, and only for a current run whose loop is settled. */
    method Complete(id: RunId, current: bool) returns (outcome: Result<(), Refusal>)
      modifies this`runs
      ensures outcome.Success? <==>
                && id in old(runs)
                && (|| old(runs)[id].status == Completed
                    || (&& old(runs)[id].status == Running && current
                        && !old(runs)[id].loop.verificationRequired
                        && old(runs)[id].loop.recovery !in {Needed, InProgress}))
      ensures outcome.Success? ==> runs == old(runs)[id := old(runs)[id].(status := Completed)]
      ensures outcome.Success? && old(runs)[id].status != Completed ==>
                Ran(old(Rows()), [CompleteRun(id, old(runs)[id].loop, true)], Rows())
      ensures outcome.Failure? || old(runs)[id].status == Completed ==> Rows() == old(Rows())
    {
      if id in runs && runs[id].status == Completed {
        return Success(());
      }
      var looked := LookAtCompletion(id, current);
      if looked.Failure? {
        return Failure(looked.error);
      }
      RanOne(Rows(), CompleteRun(id, looked.value, true));
      CommitCompletion(id, looked.value);
      outcome := Success(());
    }
  }
}
