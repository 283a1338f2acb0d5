/**
 What an interrupted run may do next: the classification of its open executions, approvals
 and jobs, and the checkpoints that record it without changing it.
*/
module Recovery {
  import opened Wrappers
  import opened Approvals
  import opened Decision
  import Dispatch
  import ClosedLoop
  import EventLog

  type Executions = map<Dispatch.ExecutionId, Dispatch.Execution>

  /** The columns of the run that bear on recovery. */
  datatype RunRow = RunRow(
    id: string, workspace: string, profile: string, status: ClosedLoop.RunStatus, staleReason: Option<string>,
    baseHead: string, capabilities: string, nextEventSeq: int)

  /** The workspace as it is now; `capabilities` stands for the snapshot's digest. */
  datatype Snapshot = Snapshot(head: string, capabilities: string)

  datatype RecoveryState = Terminal | StaleRun | RequiresReview | Resumable

  datatype Reason =
    | RunEnded(status: ClosedLoop.RunStatus)
    | RunStale(why: string)
    | PostDispatchMutationUncertain
    | NonIdempotentPreDispatch
    | ApprovalPending
    | ReconcileActiveJobs
    | SafeRetryAvailable
    | Ready

  /* ---------- freshness ---------- */

  function StaleReason(row: RunRow, current: Snapshot): Option<string> {
    if current.head != row.baseHead then Some("git_head_changed")
    else if current.capabilities != row.capabilities then Some("capability_snapshot_changed")
    else None
  }

  /** A recorded reason wins over a newly observed one. */
  function Freshness(row: RunRow, current: Snapshot): Option<string> {
    if row.staleReason.Some? then row.staleReason else StaleReason(row, current)
  }

  predicate Live(row: RunRow, current: Snapshot) {
    row.status == ClosedLoop.Running && Freshness(row, current).None?
  }

  /* ---------- the open executions of a run ---------- */

  predicate OpenIn(executions: Executions, run: string, execution: Dispatch.ExecutionId) {
    && execution in executions && executions[execution].call.run == Some(run) && !executions[execution].completed
  }

  function UncertainMutations(executions: Executions, run: string): set<Dispatch.ExecutionId> {
    set e | e in executions && OpenIn(executions, run, e) && executions[e].dispatched && !executions[e].call.readOnly
  }

  function RetryableReads(executions: Executions, run: string): set<Dispatch.ExecutionId> {
    set e | e in executions && OpenIn(executions, run, e) && executions[e].dispatched && executions[e].call.readOnly
  }

  predicate BeforeDispatch(execution: Dispatch.Execution) {
    !execution.dispatched && execution.category == Dispatch.Started
  }

  function RetryablePreDispatch(executions: Executions, run: string): set<Dispatch.ExecutionId> {
    set e | e in executions && OpenIn(executions, run, e)
      && BeforeDispatch(executions[e]) && executions[e].call.idempotent
  }

  function BlockedPreDispatch(executions: Executions, run: string): set<Dispatch.ExecutionId> {
    set e | e in executions && OpenIn(executions, run, e)
      && BeforeDispatch(executions[e]) && !executions[e].call.idempotent
  }

  function PendingApprovals(approvals: Table, run: string, now: int): set<ApprovalId> {
    set id | id in approvals && approvals[id].intent.run == run
      && approvals[id].status == Pending && approvals[id].expiresAt > now
  }

  /* ---------- inspection ---------- */

  /** Everything the verdict rests on; a checkpoint is filed under its digest, taken to be injective. */
  datatype Facts = Facts(
    workspace: string, profile: string, status: ClosedLoop.RunStatus, freshness: Option<string>,
    baseHead: string, capabilities: string, current: Snapshot, pending: nat, activeJobs: nat,
    uncertain: nat, retryableReads: nat, retryablePreDispatch: nat, blockedPreDispatch: nat)

  datatype Verdict = Verdict(state: RecoveryState, reason: Reason, facts: Facts)

  function FactsOf(world: Dispatch.World, row: RunRow, current: Snapshot, activeJobs: nat): Facts {
    Facts(row.workspace, row.profile, row.status, Freshness(row, current), row.baseHead, row.capabilities, current,
          |PendingApprovals(world.approvals, row.id, world.clock)|, activeJobs,
          |UncertainMutations(world.executions, row.id)|, |RetryableReads(world.executions, row.id)|,
          |RetryablePreDispatch(world.executions, row.id)|, |BlockedPreDispatch(world.executions, row.id)|)
  }

  function Classify(facts: Facts): (RecoveryState, Reason) {
    if facts.status in {ClosedLoop.Completed, ClosedLoop.Cancelled, ClosedLoop.RunFailed} then
      (Terminal, RunEnded(facts.status))
    else if facts.status == ClosedLoop.Stale || facts.freshness.Some? then
      (StaleRun, RunStale(if facts.freshness.Some? then facts.freshness.value else "run_stale"))
    else if facts.uncertain > 0 then (RequiresReview, PostDispatchMutationUncertain)
    else if facts.blockedPreDispatch > 0 then (RequiresReview, NonIdempotentPreDispatch)
    else if facts.pending > 0 then (RequiresReview, ApprovalPending)
    else if facts.activeJobs > 0 then (Resumable, ReconcileActiveJobs)
    else if facts.retryableReads > 0 || facts.retryablePreDispatch > 0 then (Resumable, SafeRetryAvailable)
    else (Resumable, Ready)
  }

  function Inspect(world: Dispatch.World, row: RunRow, current: Snapshot, activeJobs: nat): Verdict {
    var facts := FactsOf(world, row, current, activeJobs);
    var (state, reason) := Classify(facts);
    Verdict(state, reason, facts)
  }

  /* ---------- what the verdict says ---------- */

  predicate Ended(row: RunRow) {
    row.status == ClosedLoop.Completed || row.status == ClosedLoop.Cancelled || row.status == ClosedLoop.RunFailed
  }

  /** The run is known to be stale, or the workspace has moved away from under it. */
  predicate OutOfDate(row: RunRow, current: Snapshot) {
    || row.status == ClosedLoop.Stale || row.staleReason.Some?
    || current.head != row.baseHead || current.capabilities != row.capabilities
  }

  /** The recorded reason comes first, then the head, then the capabilities. */
  predicate WhyStale(row: RunRow, current: Snapshot, why: string) {
    if row.staleReason.Some? then why == row.staleReason.value
    else if current.head != row.baseHead then why == "git_head_changed"
    else if current.capabilities != row.capabilities then why == "capability_snapshot_changed"
    else why == "run_stale"
  }

  /** An unfinished call of the run that fits the description. */
  ghost predicate SomeOpen(world: Dispatch.World, run: string, fits: Dispatch.Execution -> bool) {
    exists e | e in world.executions ::
      var row := world.executions[e];
      row.call.run == Some(run) && !row.completed && fits(row)
  }

  ghost predicate SomePending(world: Dispatch.World, run: string) {
    exists id | id in world.approvals ::
      var row := world.approvals[id];
      row.intent.run == run && row.status == Pending && row.expiresAt > world.clock
  }

  ghost predicate Uncertain(world: Dispatch.World, run: string) {
    SomeOpen(world, run, (row: Dispatch.Execution) => row.dispatched && !row.call.readOnly)
  }

  ghost predicate Blocked(world: Dispatch.World, run: string) {
    SomeOpen(world, run, (row: Dispatch.Execution) =>
      !row.dispatched && row.category == Dispatch.Started && !row.call.idempotent)
  }

  ghost predicate Retryable(world: Dispatch.World, run: string) {
    || SomeOpen(world, run, (row: Dispatch.Execution) => row.dispatched && row.call.readOnly)
    || SomeOpen(world, run, (row: Dispatch.Execution) =>
         !row.dispatched && row.category == Dispatch.Started && row.call.idempotent)
  }

  /** The first of these that applies, in this order. */
  ghost predicate Judges(verdict: Verdict, world: Dispatch.World, row: RunRow, current: Snapshot, activeJobs: nat) {
    if Ended(row) then verdict.state == Terminal && verdict.reason == RunEnded(row.status)
    else if OutOfDate(row, current) then
      verdict.state == StaleRun && verdict.reason.RunStale? && WhyStale(row, current, verdict.reason.why)
    else if Uncertain(world, row.id) then
      verdict.state == RequiresReview && verdict.reason == PostDispatchMutationUncertain
    else if Blocked(world, row.id) then verdict.state == RequiresReview && verdict.reason == NonIdempotentPreDispatch
    else if SomePending(world, row.id) then verdict.state == RequiresReview && verdict.reason == ApprovalPending
    else
      && verdict.state == Resumable
      && verdict.reason == if activeJobs > 0 then ReconcileActiveJobs
                           else if Retryable(world, row.id) then SafeRetryAvailable else Ready
  }

  lemma InspectJudges(world: Dispatch.World, row: RunRow, current: Snapshot, activeJobs: nat)
    ensures Judges(Inspect(world, row, current, activeJobs), world, row, current, activeJobs)
  {
    var executions := world.executions;
    SetOfOpen(world, row.id, UncertainMutations(executions, row.id),
              (e: Dispatch.Execution) => e.dispatched && !e.call.readOnly);
    SetOfOpen(world, row.id, BlockedPreDispatch(executions, row.id),
              (e: Dispatch.Execution) => !e.dispatched && e.category == Dispatch.Started && !e.call.idempotent);
    SetOfOpen(world, row.id, RetryableReads(executions, row.id),
              (e: Dispatch.Execution) => e.dispatched && e.call.readOnly);
    SetOfOpen(world, row.id, RetryablePreDispatch(executions, row.id),
              (e: Dispatch.Execution) => !e.dispatched && e.category == Dispatch.Started && e.call.idempotent);
    SetOfPending(world, row.id);
  }

  lemma SetOfOpen(world: Dispatch.World, run: string, found: set<Dispatch.ExecutionId>,
                  fits: Dispatch.Execution -> bool)
    requires forall e :: e in found <==> OpenIn(world.executions, run, e) && fits(world.executions[e])
    ensures |found| > 0 <==> SomeOpen(world, run, fits)
  {
    if |found| > 0 {
      var e :| e in found;
    }
  }

  lemma SetOfPending(world: Dispatch.World, run: string)
    ensures |PendingApprovals(world.approvals, run, world.clock)| > 0 <==> SomePending(world, run)
  {
    var found := PendingApprovals(world.approvals, run, world.clock);
    if |found| > 0 {
      var id :| id in found;
    } else {
      assert forall id | id in world.approvals :: id !in found;
    }
  }

  /** What can be resumed or reviewed is running, and nothing it was begun on has changed. */
  lemma OnlyCurrentRunsGoOn(world: Dispatch.World, row: RunRow, current: Snapshot, activeJobs: nat)
    ensures var state := Inspect(world, row, current, activeJobs).state;
            && (state == Terminal <==> row.status in {ClosedLoop.Completed, ClosedLoop.Cancelled, ClosedLoop.RunFailed})
            && (state == Resumable || state == RequiresReview <==>
                && row.status == ClosedLoop.Running && row.staleReason.None?
                && current.head == row.baseHead && current.capabilities == row.capabilities)
  {
    InspectJudges(world, row, current, activeJobs);
  }

  /* ---------- what the verdict guarantees ---------- */

  /** The call may have changed something, and nothing says how it ended. */
  predicate MayHaveMutated(world: Dispatch.World, run: string, execution: Dispatch.ExecutionId) {
    execution in world.effects && OpenIn(world.executions, run, execution) && !world.executions[execution].call.readOnly
  }

  /** At any point of any interleaving, crashes included: a live run whose effects are in doubt is sent to review. */
  lemma UncertainEffectRequiresReview(clock: int, steps: seq<Dispatch.Step>, n: nat, row: RunRow, current: Snapshot,
                                      activeJobs: nat, execution: Dispatch.ExecutionId)
    requires n <= |steps| && Live(row, current)
    requires MayHaveMutated(Dispatch.After(Dispatch.Initial(clock), steps, n), row.id, execution)
    ensures var verdict := Inspect(Dispatch.After(Dispatch.Initial(clock), steps, n), row, current, activeJobs);
            verdict.state == RequiresReview && verdict.reason == PostDispatchMutationUncertain
  {
    Dispatch.ReachableIsSound(clock, steps, n);
    var world := Dispatch.After(Dispatch.Initial(clock), steps, n);
    assert Dispatch.ActSound(world, execution);
    assert execution in UncertainMutations(world.executions, row.id);
  }

  /** The call was given up before its effect and can be made again as it stands. */
  predicate SafeToRepeat(world: Dispatch.World, execution: Dispatch.ExecutionId)
    requires execution in world.executions
  {
    var row := world.executions[execution];
    (row.dispatched && row.call.readOnly) || (!row.dispatched && row.call.idempotent && execution !in world.effects)
  }

  /** Neither denied nor sent away to wait for an approval. */
  predicate Begun(execution: Dispatch.Execution) {
    execution.category != Dispatch.DeniedCall && execution.category != Dispatch.ApprovalRequired
  }

  predicate AllSafeToRepeat(world: Dispatch.World, run: string) {
    forall e | e in world.executions && OpenIn(world.executions, run, e) && Begun(world.executions[e]) ::
      SafeToRepeat(world, e)
  }

  lemma ReviewExactlyWhen(world: Dispatch.World, run: string)
    requires Dispatch.Sound(world)
    ensures |UncertainMutations(world.executions, run)| == 0 && |BlockedPreDispatch(world.executions, run)| == 0 <==>
            AllSafeToRepeat(world, run)
  {
    var uncertain, blocked := UncertainMutations(world.executions, run), BlockedPreDispatch(world.executions, run);
    forall e | OpenIn(world.executions, run, e) && Begun(world.executions[e])
      ensures SafeToRepeat(world, e) <==> e !in uncertain && e !in blocked
    {
      assert Dispatch.RowSound(world, e);
      assert e in world.effects ==> Dispatch.ActSound(world, e);
    }
    forall e | e in uncertain + blocked ensures OpenIn(world.executions, run, e) && Begun(world.executions[e]) {
      assert Dispatch.RowSound(world, e);
    }
    if AllSafeToRepeat(world, run) {
      assert uncertain + blocked == {};
    }
  }

  /**
   A run is only called resumable when every call it started has either finished or can be
   repeated safely; and exactly then, as far as its executions and approvals go.
  */
  lemma ResumableExactlyWhen(clock: int, steps: seq<Dispatch.Step>, n: nat, row: RunRow, current: Snapshot,
                             activeJobs: nat)
    requires n <= |steps| && Live(row, current)
    ensures var world := Dispatch.After(Dispatch.Initial(clock), steps, n);
            Inspect(world, row, current, activeJobs).state == Resumable <==>
              && PendingApprovals(world.approvals, row.id, world.clock) == {}
              && AllSafeToRepeat(world, row.id)
  {
    Dispatch.ReachableIsSound(clock, steps, n);
    var world := Dispatch.After(Dispatch.Initial(clock), steps, n);
    ReviewExactlyWhen(world, row.id);
    assert PendingApprovals(world.approvals, row.id, world.clock) == {} <==>
      |PendingApprovals(world.approvals, row.id, world.clock)| == 0;
  }

  /** After a crash the doubt does not go away by itself: it stands for as long as the run is live. */
  lemma DoubtRemains(clock: int, steps: seq<Dispatch.Step>, m: nat, n: nat, row: RunRow, current: Snapshot,
                     activeJobs: nat, execution: Dispatch.ExecutionId)
    requires m <= n <= |steps| && Live(row, current)
    requires Dispatch.IsOver(Dispatch.After(Dispatch.Initial(clock), steps, m), execution)
    requires execution in UncertainMutations(Dispatch.After(Dispatch.Initial(clock), steps, m).executions, row.id)
    ensures Inspect(Dispatch.After(Dispatch.Initial(clock), steps, n), row, current, activeJobs).reason ==
              PostDispatchMutationUncertain
  {
    Dispatch.OverStaysOver(clock, steps, m, n, execution);
    var world := Dispatch.After(Dispatch.Initial(clock), steps, n);
    assert execution in UncertainMutations(world.executions, row.id);
  }

  /** A mutating call with a ticket may act, and a crash right after that leaves it in doubt. */
  lemma ActThenCrashIsInDoubt(clock: int, steps: seq<Dispatch.Step>, run: string, execution: Dispatch.ExecutionId)
    requires var world := Dispatch.After(Dispatch.Initial(clock), steps, |steps|);
             && Dispatch.AtStage(world, execution, Dispatch.Ticketed) && !world.calls[execution].call.readOnly
             && world.calls[execution].call.run == Some(run)
    ensures var world := Dispatch.After(Dispatch.Initial(clock), steps, |steps|);
            var crashed := Dispatch.Exec(Dispatch.Exec(world, Dispatch.Act(execution)), Dispatch.Crash);
            MayHaveMutated(crashed, run, execution)
  {
    Dispatch.ReachableIsSound(clock, steps, |steps|);
    Dispatch.TicketedCallActs(Dispatch.After(Dispatch.Initial(clock), steps, |steps|), execution);
  }

  /** A crash gives up every call: what may have changed something by then stays in doubt for good. */
  lemma CrashLeavesDoubt(clock: int, steps: seq<Dispatch.Step>, m: nat, n: nat, row: RunRow, current: Snapshot,
                         activeJobs: nat, execution: Dispatch.ExecutionId)
    requires m < n <= |steps| && steps[m] == Dispatch.Crash && Live(row, current)
    requires MayHaveMutated(Dispatch.After(Dispatch.Initial(clock), steps, m), row.id, execution)
    ensures Inspect(Dispatch.After(Dispatch.Initial(clock), steps, n), row, current, activeJobs).reason ==
              PostDispatchMutationUncertain
  {
    Dispatch.ReachableIsSound(clock, steps, m);
    var world := Dispatch.After(Dispatch.Initial(clock), steps, m);
    assert Dispatch.ActSound(world, execution);
    assert Dispatch.After(Dispatch.Initial(clock), steps, m + 1) == Dispatch.Exec(world, Dispatch.Crash);
    DoubtRemains(clock, steps, m + 1, n, row, current, activeJobs, execution);
  }

  /* ---------- checkpoints ---------- */

  type CheckpointId = string

  /** A row of harness_checkpoints. */
  datatype Checkpoint = Checkpoint(run: string, eventSeq: int, verdict: Verdict)

  predicate IsMatch(checkpoints: map<CheckpointId, Checkpoint>, id: CheckpointId, run: string, verdict: Verdict) {
    id in checkpoints && checkpoints[id].run == run && checkpoints[id].verdict == verdict
  }

  ghost predicate OnePerVerdict(checkpoints: map<CheckpointId, Checkpoint>) {
    forall a, b | a in checkpoints && b in checkpoints && a != b ::
      checkpoints[a].run != checkpoints[b].run || checkpoints[a].verdict != checkpoints[b].verdict
  }

  /** What filing a checkpoint touches: the runs' rows with their event counters, the log, and the checkpoints. */
  datatype Records = Records(
    runs: map<string, RunRow>, log: EventLog.Table, checkpoints: map<CheckpointId, Checkpoint>)

  ghost predicate Sound(records: Records) {
    && EventLog.AllDense(records.log) && OnePerVerdict(records.checkpoints)
    && forall run | run in records.runs ::
         records.runs[run].id == run && run in records.log && records.runs[run].nextEventSeq == records.log[run].next
  }

  predicate OnFile(records: Records, run: string, verdict: Verdict) {
    exists id | id in records.checkpoints :: IsMatch(records.checkpoints, id, run, verdict)
  }

  /** persist_checkpoint: one more checkpoint and one more event, unless the verdict is on file already. */
  function Filed(records: Records, run: string, verdict: Verdict, newId: CheckpointId, created: EventLog.Event): Records
    requires run in records.runs && run in records.log
  {
    if OnFile(records, run, verdict) then records
    else
      var number := records.log[run].next;
      Records(records.runs[run := records.runs[run].(nextEventSeq := number + 1)],
              EventLog.Appended(records.log, EventLog.Kernel, run, created),
              records.checkpoints[newId := Checkpoint(run, number, verdict)])
  }

  /** inspect, with its checkpoint; the verdict is taken from the run's row as it is. */
  function Inspected(records: Records, world: Dispatch.World, run: string, current: Snapshot, activeJobs: nat): Verdict
    requires run in records.runs
  {
    Inspect(world, records.runs[run], current, activeJobs)
  }

  lemma FilingKeepsSound(records: Records, run: string, verdict: Verdict, newId: CheckpointId, created: EventLog.Event)
    requires Sound(records) && run in records.runs
    requires newId !in records.checkpoints && EventLog.ValidEventType(created.eventType)
    ensures var after := Filed(records, run, verdict, newId, created);
            Sound(after) && run in after.runs && OnFile(after, run, verdict)
  {
    var after := Filed(records, run, verdict, newId, created);
    if !OnFile(records, run, verdict) {
      EventLog.AppendExtends(records.log, EventLog.Kernel, run, created);
      forall a | a in records.checkpoints
        ensures records.checkpoints[a].run != run || records.checkpoints[a].verdict != verdict
      {
        assert !IsMatch(records.checkpoints, a, run, verdict);
      }
      assert IsMatch(after.checkpoints, newId, run, verdict);
    }
  }

  /**
   Filing raises the run's own event counter and still does not change what is filed: a second inspection
   gives the same verdict, and filing it adds nothing.
  */
  lemma InspectingTwiceAddsNothing(records: Records, world: Dispatch.World, run: string, current: Snapshot,
                                   activeJobs: nat, ids: (CheckpointId, CheckpointId),
                                   events: (EventLog.Event, EventLog.Event))
    requires Sound(records) && run in records.runs
    requires ids.0 !in records.checkpoints && EventLog.ValidEventType(events.0.eventType)
    ensures var verdict := Inspected(records, world, run, current, activeJobs);
            var once := Filed(records, run, verdict, ids.0, events.0);
            && run in once.runs && run in once.log
            && Inspected(once, world, run, current, activeJobs) == verdict
            && Filed(once, run, verdict, ids.1, events.1) == once
            && (once != records ==> once.runs[run].nextEventSeq == records.runs[run].nextEventSeq + 1)
  {
    FilingKeepsSound(records, run, Inspected(records, world, run, current, activeJobs), ids.0, events.0);
  }

  class CheckpointStore {
    const log: EventLog.EventStore
    var runs: map<string, RunRow>
    var checkpoints: map<CheckpointId, Checkpoint>

    ghost function State(): Records
      reads this, log
    {
      Records(runs, log.table, checkpoints)
    }

    ghost predicate Valid()
      reads this, log
    {
      Sound(State())
    }

    constructor (events: EventLog.EventStore)
      requires EventLog.AllDense(events.table)
      ensures Valid() && log == events && runs == map[] && checkpoints == map[]
    {
      log, runs, checkpoints := events, map[], map[];
    }

    /** A new run: its row, with the counter behind the event that begins its log. */
    method BeginRun(row: RunRow, started: EventLog.Event)
      requires Valid() && row.id !in runs && row.id !in log.table
      requires row.status == ClosedLoop.Running && row.staleReason.None? && row.nextEventSeq == 1
      modifies this`runs, log
      ensures Valid() && runs == old(runs)[row.id := row] && checkpoints == old(checkpoints)
      ensures log.table == EventLog.Begun(old(log.table), row.id, started)
      ensures EventLog.Contents(log.table[row.id]) == [started]
    {
      log.BeginRun(row.id, started);
      runs := runs[row.id := row];
    }

    method FindMatching(run: string, verdict: Verdict) returns (found: Option<CheckpointId>)
      ensures found.Some? ==> IsMatch(checkpoints, found.value, run, verdict)
      ensures found.None? ==> forall id :: !IsMatch(checkpoints, id, run, verdict)
    {
      if id :| id in checkpoints && IsMatch(checkpoints, id, run, verdict) {
        return Some(id);
      }
      assert forall id | IsMatch(checkpoints, id, run, verdict) :: id in checkpoints;
      found := None;
    }

    /** persist_checkpoint; the append raises the counter in the run's own row. */
    method Persist(run: string, verdict: Verdict, newId: CheckpointId, created: EventLog.Event)
      returns (id: CheckpointId)
      requires Valid() && run in runs && newId !in checkpoints && EventLog.ValidEventType(created.eventType)
      modifies this`runs, this`checkpoints, log
      ensures Valid() && run in old(log.table) && State() == Filed(old(State()), run, verdict, newId, created)
      ensures IsMatch(checkpoints, id, run, verdict)
    {
      FilingKeepsSound(State(), run, verdict, newId, created);
      var existing := FindMatching(run, verdict);
      if existing.Some? {
        return existing.value;
      }
      var appended := log.Append(EventLog.Kernel, run, created);
      runs := runs[run := runs[run].(nextEventSeq := appended.value + 1)];
      checkpoints := checkpoints[newId := Checkpoint(run, appended.value, verdict)];
      id := newId;
    }

    /** inspect: the verdict, and its checkpoint, which is filed on request. */
    method InspectRun(world: Dispatch.World, run: string, current: Snapshot, activeJobs: nat, persist: bool,
                      newId: CheckpointId, created: EventLog.Event)
      returns (verdict: Verdict, checkpoint: Option<CheckpointId>)
      requires Valid() && run in runs && newId !in checkpoints && EventLog.ValidEventType(created.eventType)
      modifies this`runs, this`checkpoints, log
      ensures Valid() && run in runs && run in old(log.table)
      ensures verdict == Inspected(old(State()), world, run, current, activeJobs) ==
                Inspected(State(), world, run, current, activeJobs)
      ensures Judges(verdict, world, old(runs)[run], current, activeJobs)
      ensures State() == if persist then Filed(old(State()), run, verdict, newId, created) else old(State())
      ensures checkpoint.Some? <==> OnFile(State(), run, verdict)
      ensures checkpoint.Some? ==> IsMatch(checkpoints, checkpoint.value, run, verdict)
    {
      verdict := Inspect(world, runs[run], current, activeJobs);
      InspectJudges(world, runs[run], current, activeJobs);
      if persist {
        var filed := Persist(run, verdict, newId, created);
        checkpoint := Some(filed);
      } else {
        checkpoint := FindMatching(run, verdict);
      }
    }
  }
}
