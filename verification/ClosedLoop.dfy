/**
 The Context -> Execute -> Verify -> Recover -> Learn loop of a Harness run, one
 transaction at a time. `Db` holds the rows the loop lives in; `Tx` is the alphabet
 of transactions that touch them; `Exec` is what each transaction does.

 Some functions of the source read the loop row first and decide in a later
 transaction. Such a transaction carries the row it was decided on as `observed`
 (and an Execute the earlier one its plan was made on as `planned`). It is fresh
 when nothing has moved in between; nothing in the source makes sure of that.
*/
module ClosedLoop {
  import opened Wrappers
  import opened WorkScope

  type RunId = string
  type TicketId = nat

  datatype Phase = Context | Execute | Verify | Recover | Learn
  datatype VerificationStatus = NotVerified | VerificationPending | VerificationPassed | VerificationFailed
  datatype RecoveryStatus = NoRecovery | Needed | InProgress | Recovered
  datatype RunStatus = Running | Stale | Completed | Cancelled | RunFailed

  /** The selected_proof_* columns. */
  datatype Selection = Selection(proofType: Option<string>, source: Option<string>, command: Option<string>)

  const NO_SELECTION := Selection(None, None, None)

  /** A row of harness_run_loops. */
  datatype LoopRow = LoopRow(
    phase: Phase,
    contextReads: nat,
    executions: nat,
    verificationRequired: bool,
    verification: VerificationStatus,
    recovery: RecoveryStatus,
    failures: nat,
    lessons: nat,
    lastTool: Option<string>,
    lastCategory: Option<string>,
    shape: Shape,
    scope: Option<string>,
    selection: Selection)

  /** What a Verify call observed about the proof it ran. */
  datatype Proof = Proof(proofType: string, source: Option<string>)

  /** A row of harness_run_proofs; its key is the proof type. */
  datatype ProofRow = ProofRow(source: Option<string>, passed: bool, tool: string)

  /** The key of a learning pattern inside one workspace. */
  datatype Key = Key(tool: string, category: string)

  datatype Outcome = Pending | Exercised | Passed | Failed

  datatype Pattern = Pattern(failures: nat, recoveries: nat, confirmations: nat)

  datatype Run = Run(status: RunStatus, loop: LoopRow, proofs: map<string, ProofRow>, exposures: map<Key, Outcome>)

  /** One workspace. `tickets` are the Execute calls between their begin and their finish. */
  datatype Db = Db(runs: map<RunId, Run>, patterns: map<Key, Pattern>, tickets: map<TicketId, RunId>)

  const EMPTY := Db(map[], map[], map[])
  const MAX_LEARNING_HINTS := 5

  /** What an Execute call of the tool pipeline brings along to be merged into the loop row. */
  datatype ExecuteRequest = ExecuteRequest(shape: ShapeRequest, scope: Option<string>, selection: Selection)

  datatype Tx =
    | BeginRun(run: RunId, shape: Shape, exposed: set<Key>)
    | ExecuteStart(run: RunId, ticket: TicketId, planned: LoopRow, observed: LoopRow, request: ExecuteRequest)
    | NativeStart(run: RunId, observed: LoopRow)
    | VerifyStart(run: RunId)
    | Exercise(run: RunId, tool: string)
    | ContextFinish(run: RunId)
    | ExecuteFinish(run: RunId, ticket: TicketId)
    | NativeFinish(run: RunId, observed: LoopRow)
    | ProofFailed(run: RunId, tool: string, failed: Proof)
    | RecordFailure(run: RunId, closing: Option<TicketId>, tool: string, category: Option<string>, verification: bool)
    | VerifyCommit(run: RunId, observed: LoopRow, tool: string, proof: Option<Proof>)
    | SelectProof(run: RunId, selection: Selection)
    | StartCycle(run: RunId, shape: Shape, scope: Option<string>, selection: Selection)
    | Publish(run: RunId, observed: LoopRow)
    | CompleteRun(run: RunId, observed: LoopRow, current: bool)
    | CancelRun(run: RunId)
    | GoStale(run: RunId)

  /* ---------- the loop row ---------- */

  function InitialRow(shape: Shape): LoopRow {
    LoopRow(Context, 0, 0, false, NotVerified, NoRecovery, 0, 0, None, None, shape, None, NO_SELECTION)
  }

  predicate Unresolved(loop: LoopRow) {
    loop.recovery == Needed || loop.recovery == InProgress
  }

  function ExecuteStarted(loop: LoopRow, recovering: bool): LoopRow {
    loop.(phase := if recovering then Recover else Execute,
          executions := loop.executions + 1,
          recovery := if recovering then InProgress else loop.recovery)
  }

  /** The columns a pipeline Execute overwrites, computed from the row its plan was made on. */
  function Planned(loop: LoopRow, planned: LoopRow, request: ExecuteRequest): LoopRow {
    loop.(shape := ProposedShape(planned.shape, request.shape),
          scope := PlannedScope(planned.scope, loop.scope, request.scope),
          selection := request.selection)
  }

  function VerifyStarted(loop: LoopRow): LoopRow {
    loop.(phase := Verify, verification := VerificationPending)
  }

  function ContextRead(loop: LoopRow): LoopRow {
    loop.(contextReads := loop.contextReads + 1, phase := if loop.phase == Learn then Context else loop.phase)
  }

  function VerificationDemanded(loop: LoopRow): LoopRow {
    loop.(phase := Verify, verificationRequired := true, verification := VerificationPending)
  }

  function FailureNoted(loop: LoopRow, key: Key, verification: bool): LoopRow {
    loop.(phase := Recover, recovery := Needed, failures := loop.failures + 1,
          verification := if verification then VerificationFailed else loop.verification,
          lastTool := Some(key.tool), lastCategory := Some(key.category))
  }

  function LessonLearned(loop: LoopRow, recovered: bool): LoopRow {
    loop.(phase := Learn, verificationRequired := false, verification := VerificationPassed,
          recovery := if recovered then Recovered else loop.recovery, lessons := loop.lessons + 1)
  }

  function CycleRow(shape: Shape, scope: Option<string>, selection: Selection): LoopRow {
    InitialRow(shape).(contextReads := 1, scope := scope, selection := selection)
  }

  /** Is the selected proof in the table as passed, from the selected source? */
  predicate SelectionSatisfied(shape: Shape, selection: Selection, proofs: map<string, ProofRow>) {
    if selection.proofType.Some? then
      && selection.proofType.value in proofs
      && proofs[selection.proofType.value].passed
      && (selection.source.None? || proofs[selection.proofType.value].source == selection.source)
    else
      shape == ReadOnly
  }

  /** The failure a successful Verify counts as recovered, if any. */
  function RecoveredKey(loop: LoopRow): Option<Key> {
    if Unresolved(loop) && loop.lastTool.Some? && loop.lastCategory.Some?
    then Some(Key(loop.lastTool.value, loop.lastCategory.value))
    else None
  }

  /* ---------- learning rows ---------- */

  function CountFailure(patterns: map<Key, Pattern>, key: Key): map<Key, Pattern> {
    if key in patterns then patterns[key := patterns[key].(failures := patterns[key].failures + 1)]
    else patterns[key := Pattern(1, 0, 0)]
  }

  function CountRecovery(patterns: map<Key, Pattern>, recovered: Option<Key>): map<Key, Pattern> {
    if recovered.Some? && recovered.value in patterns
    then patterns[recovered.value := patterns[recovered.value].(recoveries := patterns[recovered.value].recoveries + 1)]
    else patterns
  }

  function Confirm(patterns: map<Key, Pattern>, exposures: map<Key, Outcome>): map<Key, Pattern> {
    map key | key in patterns ::
      if key in exposures && exposures[key] == Exercised
      then patterns[key].(confirmations := patterns[key].confirmations + 1)
      else patterns[key]
  }

  function ExerciseExposures(exposures: map<Key, Outcome>, tool: string): map<Key, Outcome> {
    map key | key in exposures :: if key.tool == tool && exposures[key] == Pending then Exercised else exposures[key]
  }

  function FailExposures(exposures: map<Key, Outcome>, tool: string): map<Key, Outcome> {
    map key | key in exposures ::
      if key.tool == tool && (exposures[key] == Pending || exposures[key] == Exercised) then Failed else exposures[key]
  }

  function PassExposures(exposures: map<Key, Outcome>): map<Key, Outcome> {
    map key | key in exposures :: if exposures[key] == Exercised then Passed else exposures[key]
  }

  /* ---------- transactions ---------- */

  function WithRun(db: Db, id: RunId, run: Run): Db {
    db.(runs := db.runs[id := run])
  }

  function WithLoop(db: Db, id: RunId, loop: LoopRow): Db
    requires id in db.runs
  {
    WithRun(db, id, db.runs[id].(loop := loop))
  }

  function WithoutTicket(db: Db, ticket: Option<TicketId>): Db {
    if ticket.Some? then db.(tickets := db.tickets - {ticket.value}) else db
  }

  function FailureKey(tool: string, category: Option<string>): Key {
    Key(tool, if category.Some? then category.value else "tool-error")
  }

  function NoteFailure(db: Db, id: RunId, key: Key, verification: bool): Db
    requires id in db.runs
  {
    var run := db.runs[id];
    WithRun(db, id, run.(loop := FailureNoted(run.loop, key, verification),
                         exposures := FailExposures(run.exposures, key.tool)))
    .(patterns := CountFailure(db.patterns, key))
  }

  /** Close the cycle: confirm what was exercised and enter the learn phase. */
  function LearnFrom(db: Db, id: RunId, recovered: Option<Key>): Db
    requires id in db.runs
  {
    var run := db.runs[id];
    WithRun(db, id, run.(loop := LessonLearned(run.loop, recovered.Some?), exposures := PassExposures(run.exposures)))
    .(patterns := Confirm(CountRecovery(db.patterns, recovered), run.exposures))
  }

  function RecordProof(run: Run, tool: string, proof: Option<Proof>, passed: bool): Run {
    if proof.None? then run
    else run.(proofs := run.proofs[proof.value.proofType := ProofRow(proof.value.source, passed, tool)])
  }

  /** A Verify that succeeded: record its proof, then either wait for the selected one or learn. */
  function CommitVerify(db: Db, id: RunId, observed: LoopRow, tool: string, proof: Option<Proof>): Db
    requires id in db.runs
  {
    var run := RecordProof(db.runs[id], tool, proof, true);
    var recorded := WithRun(db, id, run);
    if SelectionSatisfied(observed.shape, observed.selection, run.proofs)
    then LearnFrom(recorded, id, RecoveredKey(observed))
    else WithLoop(recorded, id, VerificationDemanded(run.loop))
  }

  /** May the run be published, completed or restarted as far as its loop is concerned? */
  predicate Settled(loop: LoopRow) {
    !loop.verificationRequired && !Unresolved(loop)
  }

  /** The guard of each transaction; a transaction whose guard is off leaves the rows alone. */
  predicate Enabled(db: Db, tx: Tx) {
    if tx.BeginRun? then
      tx.run !in db.runs && tx.exposed <= db.patterns.Keys && |tx.exposed| <= MAX_LEARNING_HINTS
    else
      && tx.run in db.runs
      && match tx {
           case ExecuteStart(_, ticket, planned, _, _) => ticket !in db.tickets && planned.contextReads > 0
           case ExecuteFinish(run, ticket) => ticket in db.tickets && db.tickets[ticket] == run
           case RecordFailure(run, closing, _, _, _) =>
             closing.Some? ==> closing.value in db.tickets && db.tickets[closing.value] == run
           case StartCycle(run, _, _, _) => db.runs[run].status == Running && Settled(db.runs[run].loop)
           case Publish(run, observed) =>
             db.runs[run].status == Running && observed.contextReads > 0 && Settled(observed)
           case CompleteRun(run, observed, current) => db.runs[run].status == Running && current && Settled(observed)
           case CancelRun(run) => db.runs[run].status == Running || db.runs[run].status == Stale
           case GoStale(run) => db.runs[run].status == Running
           case _ => true
         }
  }

  function Exec(db: Db, tx: Tx): Db {
    if !Enabled(db, tx) then db
    else match tx {
      case BeginRun(id, shape, exposed) =>
        WithRun(db, id, Run(Running, InitialRow(shape), map[], map key | key in exposed :: Pending))
      case ExecuteStart(id, ticket, planned, observed, request) =>
        WithLoop(db, id, ExecuteStarted(Planned(db.runs[id].loop, planned, request), Unresolved(observed)))
        .(tickets := db.tickets[ticket := id])
      case NativeStart(id, observed) =>
        WithLoop(db, id, ExecuteStarted(db.runs[id].loop, Unresolved(observed)))
      case VerifyStart(id) =>
        WithLoop(db, id, VerifyStarted(db.runs[id].loop))
      case Exercise(id, tool) =>
        WithRun(db, id, db.runs[id].(exposures := ExerciseExposures(db.runs[id].exposures, tool)))
      case ContextFinish(id) =>
        WithLoop(db, id, ContextRead(db.runs[id].loop))
      case ExecuteFinish(id, ticket) =>
        WithoutTicket(WithLoop(db, id, VerificationDemanded(db.runs[id].loop)), Some(ticket))
      case NativeFinish(id, observed) =>
        if observed.shape == ReadOnly then LearnFrom(db, id, None)
        else WithLoop(db, id, VerificationDemanded(db.runs[id].loop))
      case ProofFailed(id, tool, proof) =>
        WithRun(db, id, RecordProof(db.runs[id], tool, Some(proof), false))
      case RecordFailure(id, ticket, tool, category, verification) =>
        WithoutTicket(NoteFailure(db, id, FailureKey(tool, category), verification), ticket)
      case VerifyCommit(id, observed, tool, proof) =>
        CommitVerify(db, id, observed, tool, proof)
      case SelectProof(id, selection) =>
        WithLoop(db, id, db.runs[id].loop.(selection := selection))
      case StartCycle(id, shape, scope, selection) =>
        WithRun(db, id, db.runs[id].(loop := CycleRow(shape, scope, selection), proofs := map[]))
      case Publish(_, _) => db
      case CompleteRun(id, _, _) => WithRun(db, id, db.runs[id].(status := Completed))
      case CancelRun(id) => WithRun(db, id, db.runs[id].(status := Cancelled))
      case GoStale(id) => WithRun(db, id, db.runs[id].(status := Stale))
    }
  }

  /** The row a transaction was decided on is still the row it is applied to. */
  predicate Fresh(db: Db, tx: Tx) {
    tx.run in db.runs ==>
      match tx {
        case ExecuteStart(id, _, planned, observed, _) => planned == observed == db.runs[id].loop
        case NativeStart(id, observed) => observed == db.runs[id].loop
        case NativeFinish(id, observed) => observed == db.runs[id].loop
        case VerifyCommit(id, observed, _, _) => observed == db.runs[id].loop
        case Publish(id, observed) => observed == db.runs[id].loop
        case CompleteRun(id, observed, _) => observed == db.runs[id].loop
        case _ => true
      }
  }

  /* ---------- histories ---------- */

  type History = seq<Tx>

  /** The rows after the first `n` transactions of a history that starts from `start`. */
  function After(start: Db, history: History, n: nat): Db
    requires n <= |history|
  {
    if n == 0 then start else Exec(After(start, history, n - 1), history[n - 1])
  }

  ghost predicate AllFresh(start: Db, history: History) {
    forall i | 0 <= i < |history| :: Fresh(After(start, history, i), history[i])
  }
}
