/**
 Tool dispatch as a state machine over its database writes: any number of calls between
 their begin and their finish, approvals being asked for, answered, expiring and being
 consumed in between, and the process crashing at any point.

 A request may check for a pending row and insert one in a single step, or insert later, when
 another one has come in between.

 `consumers`, `granted` and `effects` are history: which call consumed an approval, which
 approvals were answered "allow" while they were open, and which calls have started to act.
*/
module Dispatch {
  import opened Wrappers
  import opened Policies
  import opened Approvals
  import opened Decision

  datatype ExecutionId = ExecutionId(number: int)

  datatype Category = DeniedCall | ApprovalRequired | Started | Succeeded | Errored

  /** A row of harness_tool_executions. */
  datatype Execution = Execution(
    call: Call, ruling: Ruling, category: Category, dispatched: bool, approval: Option<ApprovalId>, completed: bool)

  /** How far a call has come: its approval claimed, its row inserted, its ticket handed out. */
  datatype Stage = Claimed | Recorded | Ticketed

  datatype Live = Live(call: Call, ruling: Ruling, approval: Option<ApprovalId>, stage: Stage)

  datatype World = World(
    clock: int,
    approvals: Table,
    executions: map<ExecutionId, Execution>,
    calls: map<ExecutionId, Live>,
    consumers: map<ApprovalId, ExecutionId>,
    granted: set<ApprovalId>,
    effects: set<ExecutionId>)

  datatype Step =
    | Tick(seconds: nat)
    | Expiry(run: string)
    | Request(intent: Intent, id: ApprovalId)
    | LateInsert(intent: Intent, id: ApprovalId)
    | Answered(id: ApprovalId, allow: bool)
    | NativeConsume(id: ApprovalId)
    | Claim(execution: ExecutionId, call: Call, chosen: Option<ApprovalId>)
    | Record(execution: ExecutionId)
    | Park(execution: ExecutionId, id: ApprovalId, linked: ApprovalId)
    | Dispatched(execution: ExecutionId)
    | Act(execution: ExecutionId)
    | Finish(execution: ExecutionId, success: bool)
    | Abandon(execution: ExecutionId)
    | Crash

  predicate Approved(live: Live) {
    live.ruling.policy == Allow || (live.ruling.policy == Ask && live.approval.Some?)
  }

  function CategoryOf(live: Live): Category {
    if live.ruling.policy == Deny then DeniedCall
    else if Approved(live) then Started
    else ApprovalRequired
  }

  /** A call that has been decided and whose query for an allowed approval found `chosen`. */
  predicate CanClaim(world: World, execution: ExecutionId, call: Call, chosen: Option<ApprovalId>) {
    && execution !in world.executions && execution !in world.calls
    && Decide(call).Success?
    && (chosen.Some? ==>
          && call.run.Some? && Decide(call).value.policy == Ask
          && chosen.value in world.approvals
          && world.approvals[chosen.value].intent == IntentOf(call, Decide(call).value))
  }

  predicate AtStage(world: World, execution: ExecutionId, stage: Stage) {
    execution in world.calls && world.calls[execution].stage == stage
  }

  predicate CanPark(world: World, execution: ExecutionId, id: ApprovalId, linked: ApprovalId) {
    && AtStage(world, execution, Recorded) && execution in world.executions
    && world.calls[execution].ruling.policy == Ask && !Approved(world.calls[execution])
    && world.calls[execution].call.run.Some?
    && id !in world.approvals
    && var live := world.calls[execution];
       var intent := IntentOf(live.call, live.ruling);
       IsNewestPending(RequestPending(world.approvals, intent, world.clock, id), linked, intent, world.clock)
  }

  predicate Enabled(world: World, step: Step) {
    match step
    case Request(_, id) => id !in world.approvals
    case LateInsert(_, id) => id !in world.approvals
    case Claim(execution, call, chosen) => CanClaim(world, execution, call, chosen)
    case Record(execution) => AtStage(world, execution, Claimed)
    case Park(execution, id, linked) => CanPark(world, execution, id, linked)
    case Dispatched(execution) =>
      AtStage(world, execution, Recorded) && execution in world.executions && Approved(world.calls[execution])
    case Act(execution) => AtStage(world, execution, Ticketed)
    case Finish(execution, _) => AtStage(world, execution, Ticketed) && execution in world.executions
    case _ => true
  }

  /** An answer that turns an open approval into an allowed one. */
  predicate Grants(world: World, step: Step) {
    && step.Answered? && step.allow && step.id in world.approvals
    && CanRespond(ExpireRun(world.approvals, world.approvals[step.id].intent.run, world.clock), step.id, world.clock)
  }

  function ClaimOf(world: World, execution: ExecutionId, call: Call, chosen: Option<ApprovalId>): World
    requires CanClaim(world, execution, call, chosen)
  {
    var ruling := Decide(call).value;
    if chosen.Some? && CanConsume(world.approvals, chosen.value, world.clock) then
      world.(approvals := ConsumeOne(world.approvals, chosen.value, world.clock),
             consumers := world.consumers[chosen.value := execution],
             calls := world.calls[execution := Live(call, ruling, chosen, Claimed)])
    else
      world.(calls := world.calls[execution := Live(call, ruling, None, Claimed)])
  }

  function Exec(world: World, step: Step): World {
    if !Enabled(world, step) then world
    else match step {
      case Tick(seconds) => world.(clock := world.clock + seconds)
      case Expiry(run) => world.(approvals := ExpireRun(world.approvals, run, world.clock))
      case Request(intent, id) => world.(approvals := RequestPending(world.approvals, intent, world.clock, id))
      case LateInsert(intent, id) => world.(approvals := world.approvals[id := NewApproval(intent, world.clock)])
      case Answered(id, allow) =>
        world.(approvals := Respond(world.approvals, id, allow, world.clock),
               granted := world.granted + if Grants(world, step) then {id} else {})
      case NativeConsume(id) => world.(approvals := ConsumeOne(world.approvals, id, world.clock))
      case Claim(execution, call, chosen) => ClaimOf(world, execution, call, chosen)
      case Record(execution) =>
        var live := world.calls[execution];
        world.(executions := world.executions[execution :=
                 Execution(live.call, live.ruling, CategoryOf(live), false, live.approval, false)],
               calls := world.calls[execution := live.(stage := Recorded)])
      case Park(execution, id, linked) =>
        var live := world.calls[execution];
        world.(approvals := RequestPending(world.approvals, IntentOf(live.call, live.ruling), world.clock, id),
               executions := world.executions[execution := world.executions[execution].(approval := Some(linked))],
               calls := world.calls - {execution})
      case Dispatched(execution) =>
        world.(executions := world.executions[execution := world.executions[execution].(dispatched := true)],
               calls := world.calls[execution := world.calls[execution].(stage := Ticketed)])
      case Act(execution) => world.(effects := world.effects + {execution})
      case Finish(execution, success) =>
        world.(executions := world.executions[execution := world.executions[execution].(
                 category := if success then Succeeded else Errored, completed := true)],
               calls := world.calls - {execution})
      case Abandon(execution) => world.(calls := world.calls - {execution})
      case Crash => world.(calls := map[])
    }
  }

  function After(world: World, steps: seq<Step>, n: nat): World
    requires n <= |steps|
  {
    if n == 0 then world else Exec(After(world, steps, n - 1), steps[n - 1])
  }

  function Initial(clock: int): World {
    World(clock, map[], map[], map[], map[], {}, {})
  }

  /* ---------- the invariant ---------- */

  /** Answered "allow" while pending and unexpired. */
  predicate WasGranted(row: Approval) {
    row.resolvedAt.Some? && row.requestedAt <= row.resolvedAt.value < row.expiresAt
  }

  /** Then consumed, still unexpired. */
  predicate WasConsumed(row: Approval) {
    WasGranted(row) && row.consumedAt.Some? && row.resolvedAt.value <= row.consumedAt.value < row.expiresAt
  }

  predicate ApprovalSound(row: Approval, clock: int, granted: bool) {
    && row.expiresAt == row.requestedAt + APPROVAL_TTL_SECONDS
    && row.requestedAt <= clock
    && (row.resolvedAt.Some? ==> row.resolvedAt.value <= clock)
    && (row.status == Pending ==> !granted)
    && (row.status == Allowed ==> granted && WasGranted(row))
    && (row.status == Consumed ==> granted && WasConsumed(row))
  }

  predicate ApprovalsSound(table: Table, clock: int, granted: set<ApprovalId>) {
    && granted <= table.Keys
    && forall id | id in table :: ApprovalSound(table[id], clock, id in granted)
  }

  /** `id` was consumed by `execution`, and covers exactly the call it makes. */
  predicate Covers(world: World, id: ApprovalId, execution: ExecutionId, call: Call, ruling: Ruling) {
    && id in world.approvals && world.approvals[id].status == Consumed
    && id in world.consumers && world.consumers[id] == execution
    && call.run.Some? && ruling.policy == Ask
    && world.approvals[id].intent == IntentOf(call, ruling)
  }

  predicate CallSound(world: World, execution: ExecutionId)
    requires execution in world.calls
  {
    var live := world.calls[execution];
    && Decide(live.call) == Success(live.ruling)
    && (live.approval.Some? ==> Covers(world, live.approval.value, execution, live.call, live.ruling))
    && (live.stage == Claimed <==> execution !in world.executions)
    && (live.stage == Ticketed ==> Approved(live))
    && (execution in world.executions ==>
          world.executions[execution] ==
          Execution(live.call, live.ruling, CategoryOf(live), live.stage == Ticketed, live.approval, false))
  }

  /** What a row says about a call that was dispatched. */
  predicate RowSound(world: World, execution: ExecutionId)
    requires execution in world.executions
  {
    var row := world.executions[execution];
    && Decide(row.call) == Success(row.ruling)
    && (row.completed ==> row.dispatched)
    && (row.completed <==> row.category == Succeeded || row.category == Errored)
    && (row.dispatched && !row.completed ==> row.category == Started)
    && (row.dispatched ==> row.ruling.policy != Deny)
    && (row.dispatched && row.ruling.policy == Ask ==>
          row.approval.Some? && Covers(world, row.approval.value, execution, row.call, row.ruling))
  }

  predicate ActSound(world: World, execution: ExecutionId) {
    execution in world.executions && world.executions[execution].dispatched
  }

  predicate Sound(world: World) {
    && ApprovalsSound(world.approvals, world.clock, world.granted)
    && (forall execution | execution in world.calls :: CallSound(world, execution))
    && (forall execution | execution in world.executions :: RowSound(world, execution))
    && (forall execution | execution in world.effects :: ActSound(world, execution))
  }

  /* ---------- every step keeps it ---------- */

  lemma RequestKeepsApprovals(table: Table, clock: int, granted: set<ApprovalId>, intent: Intent, id: ApprovalId)
    requires ApprovalsSound(table, clock, granted) && id !in table
    ensures ApprovalsSound(RequestPending(table, intent, clock, id), clock, granted)
  {
  }

  lemma AnswerKeepsApprovals(world: World, step: Step)
    requires ApprovalsSound(world.approvals, world.clock, world.granted) && step.Answered?
    ensures ApprovalsSound(Exec(world, step).approvals, world.clock, Exec(world, step).granted)
  {
  }

  lemma StepKeepsApprovals(world: World, step: Step)
    requires ApprovalsSound(world.approvals, world.clock, world.granted)
    ensures ApprovalsSound(Exec(world, step).approvals, Exec(world, step).clock, Exec(world, step).granted)
  {
    match step {
      case Answered(_, _) => AnswerKeepsApprovals(world, step);
      case Request(intent, id) =>
        if Enabled(world, step) {
          RequestKeepsApprovals(world.approvals, world.clock, world.granted, intent, id);
        }
      case Park(execution, id, linked) =>
        if Enabled(world, step) {
          var live := world.calls[execution];
          RequestKeepsApprovals(world.approvals, world.clock, world.granted, IntentOf(live.call, live.ruling), id);
        }
      case _ =>
    }
  }

  /** A consumed approval stays consumed by the same call, for the same intent. */
  lemma CoverLasts(world: World, step: Step, id: ApprovalId, execution: ExecutionId, call: Call, ruling: Ruling)
    requires Covers(world, id, execution, call, ruling)
    ensures Covers(Exec(world, step), id, execution, call, ruling)
  {
  }

  /** The step moves this call on: it records it or hands out its ticket. */
  predicate Advances(step: Step, execution: ExecutionId) {
    (step.Record? || step.Dispatched?) && step.execution == execution
  }

  lemma OtherStepLeavesCall(world: World, step: Step, execution: ExecutionId)
    requires execution in world.calls && execution in Exec(world, step).calls && !Advances(step, execution)
    ensures Exec(world, step).calls[execution] == world.calls[execution]
    ensures execution in Exec(world, step).executions <==> execution in world.executions
    ensures execution in world.executions ==> Exec(world, step).executions[execution] == world.executions[execution]
  {
  }

  /** A call that was there before the step, and still is. */
  lemma StepKeepsCall(world: World, step: Step, execution: ExecutionId)
    requires Sound(world) && execution in world.calls && execution in Exec(world, step).calls
    ensures CallSound(Exec(world, step), execution)
  {
    assert CallSound(world, execution);
    var live, after := world.calls[execution], Exec(world, step);
    assert live.approval.Some? ==> Covers(after, live.approval.value, execution, live.call, live.ruling) by {
      if live.approval.Some? {
        CoverLasts(world, step, live.approval.value, execution, live.call, live.ruling);
      }
    }
    if !Advances(step, execution) {
      OtherStepLeavesCall(world, step, execution);
    }
  }

  /** A call that the step begins. */
  lemma ClaimStartsCall(world: World, step: Step, execution: ExecutionId)
    requires execution !in world.calls && execution in Exec(world, step).calls
    ensures CallSound(Exec(world, step), execution)
  {
    assert step.Claim? && step.execution == execution && Enabled(world, step);
  }

  /** The step writes to the execution's row. */
  predicate Writes(step: Step, execution: ExecutionId) {
    (step.Record? || step.Park? || step.Dispatched? || step.Finish?) && step.execution == execution
  }

  lemma OtherStepLeavesRow(world: World, step: Step, execution: ExecutionId)
    requires execution in Exec(world, step).executions && !Writes(step, execution)
    ensures execution in world.executions && Exec(world, step).executions[execution] == world.executions[execution]
  {
  }

  /** Writing a row keeps it in line with the live call. */
  lemma WriteKeepsRow(world: World, step: Step, execution: ExecutionId)
    requires Sound(world) && Writes(step, execution) && Enabled(world, step)
    ensures execution in Exec(world, step).executions && RowSound(Exec(world, step), execution)
  {
    assert CallSound(world, execution);
    var live, after := world.calls[execution], Exec(world, step);
    assert live.approval.Some? ==> Covers(after, live.approval.value, execution, live.call, live.ruling) by {
      if live.approval.Some? {
        CoverLasts(world, step, live.approval.value, execution, live.call, live.ruling);
      }
    }
  }

  lemma StepKeepsRow(world: World, step: Step, execution: ExecutionId)
    requires Sound(world) && execution in Exec(world, step).executions
    ensures RowSound(Exec(world, step), execution)
  {
    if Writes(step, execution) && Enabled(world, step) {
      WriteKeepsRow(world, step, execution);
    } else {
      if Enabled(world, step) {
        OtherStepLeavesRow(world, step, execution);
      }
      assert RowSound(world, execution);
      var row := world.executions[execution];
      if row.dispatched && row.ruling.policy == Ask {
        CoverLasts(world, step, row.approval.value, execution, row.call, row.ruling);
      }
    }
  }

  lemma StepKeepsEffects(world: World, step: Step, execution: ExecutionId)
    requires Sound(world) && execution in Exec(world, step).effects
    ensures ActSound(Exec(world, step), execution)
  {
    if execution in world.calls {
      assert CallSound(world, execution);
    }
    if execution in world.effects {
      assert ActSound(world, execution);
    }
  }

  lemma StepKeepsSound(world: World, step: Step)
    requires Sound(world)
    ensures Sound(Exec(world, step))
  {
    var after := Exec(world, step);
    StepKeepsApprovals(world, step);
    forall execution | execution in after.calls ensures CallSound(after, execution) {
      if execution in world.calls {
        StepKeepsCall(world, step, execution);
      } else {
        ClaimStartsCall(world, step, execution);
      }
    }
    forall execution | execution in after.executions ensures RowSound(after, execution) {
      StepKeepsRow(world, step, execution);
    }
    forall execution | execution in after.effects ensures ActSound(after, execution) {
      StepKeepsEffects(world, step, execution);
    }
  }

  lemma {:induction false} ReachableIsSound(clock: int, steps: seq<Step>, n: nat)
    requires n <= |steps|
    ensures Sound(After(Initial(clock), steps, n))
  {
    if n > 0 {
      ReachableIsSound(clock, steps, n - 1);
      StepKeepsSound(After(Initial(clock), steps, n - 1), steps[n - 1]);
    }
  }

  /* ---------- one approval per dispatch ---------- */

  predicate DispatchedAsk(world: World, execution: ExecutionId) {
    && execution in world.executions
    && world.executions[execution].dispatched && world.executions[execution].ruling.policy == Ask
  }

  /** Every call dispatched under "ask" used up an approval of its own, for exactly its intent, in time. */
  lemma EveryDispatchWasApproved(clock: int, steps: seq<Step>, n: nat, execution: ExecutionId)
    requires n <= |steps| && DispatchedAsk(After(Initial(clock), steps, n), execution)
    ensures var world := After(Initial(clock), steps, n);
            var row := world.executions[execution];
            && row.call.run.Some? && row.approval.Some? && row.approval.value in world.approvals
            && var approval := world.approvals[row.approval.value];
               && approval.intent == IntentOf(row.call, row.ruling)
               && row.approval.value in world.granted
               && approval.status == Consumed && approval.resolvedAt.Some? && approval.consumedAt.Some?
               && approval.requestedAt <= approval.resolvedAt.value <= approval.consumedAt.value
               && approval.consumedAt.value < approval.requestedAt + APPROVAL_TTL_SECONDS
               && forall other | DispatchedAsk(world, other) && other != execution ::
                    world.executions[other].approval != row.approval
  {
    ReachableIsSound(clock, steps, n);
    var world := After(Initial(clock), steps, n);
    assert RowSound(world, execution);
    var id := world.executions[execution].approval.value;
    assert ApprovalSound(world.approvals[id], world.clock, id in world.granted);
    forall other | DispatchedAsk(world, other) && other != execution
      ensures world.executions[other].approval != Some(id)
    {
      assert RowSound(world, other);
    }
  }

  /** No call runs against a deny, and a call that runs unasked is allowed by every part of its authority. */
  lemma NoDispatchAgainstDeny(clock: int, steps: seq<Step>, n: nat, execution: ExecutionId)
    requires n <= |steps| && execution in After(Initial(clock), steps, n).executions
    requires After(Initial(clock), steps, n).executions[execution].dispatched
    ensures var row := After(Initial(clock), steps, n).executions[execution];
            row.call.run.Some? ==>
              && !SomeDeny(row.call, row.ruling)
              && (row.ruling.policy != Ask ==> AllAllow(row.call, row.ruling))
  {
    ReachableIsSound(clock, steps, n);
    var row := After(Initial(clock), steps, n).executions[execution];
    assert RowSound(After(Initial(clock), steps, n), execution);
    if row.call.run.Some? {
      RulingPolicyExactlyWhen(row.call);
    }
  }

  /**
   A process that runs in an elevated sandbox, or in one above its run's profile, used up an
   approval of its own whose arguments name that very sandbox.
  */
  lemma ElevatedDispatchWasApproved(clock: int, steps: seq<Step>, n: nat, execution: ExecutionId)
    requires n <= |steps| && execution in After(Initial(clock), steps, n).executions
    requires var row := After(Initial(clock), steps, n).executions[execution];
             && row.dispatched && row.ruling.sandbox.Some?
             && (Elevated(row.ruling.sandbox.value)
                 || SandboxRank(row.ruling.sandbox.value) > SandboxRank(row.call.authority.sandbox))
    ensures var world := After(Initial(clock), steps, n);
            var row := world.executions[execution];
            && row.call.run.Some? && row.ruling.policy == Ask
            && row.approval.Some? && row.approval.value in world.approvals
            && row.approval.value in world.granted
            && var approved := world.approvals[row.approval.value].intent;
               && approved == IntentOf(row.call, row.ruling)
               && approved.arguments.Some? && "sandbox" in approved.arguments.value
               && approved.arguments.value["sandbox"] == Text(SandboxName(row.ruling.sandbox.value))
  {
    ReachableIsSound(clock, steps, n);
    var world := After(Initial(clock), steps, n);
    assert RowSound(world, execution);
    ExceedingSandboxIsAsked(world.executions[execution].call);
    EveryDispatchWasApproved(clock, steps, n, execution);
  }

  /* ---------- dispatches never outnumber grants ---------- */

  /** The calls dispatched under "ask" whose intent is in `scope`. */
  function DispatchedIn(world: World, scope: Intent -> bool): set<ExecutionId> {
    set execution | execution in world.executions && DispatchedAsk(world, execution)
      && world.executions[execution].call.run.Some?
      && scope(IntentOf(world.executions[execution].call, world.executions[execution].ruling))
  }

  function GrantedIn(world: World, scope: Intent -> bool): set<ApprovalId> {
    set id | id in world.granted && id in world.approvals && scope(world.approvals[id].intent)
  }

  predicate GrantsIn(world: World, step: Step, scope: Intent -> bool) {
    Grants(world, step) && scope(world.approvals[step.id].intent)
  }

  /** How many of the first `n` steps answered "allow" to an open approval whose intent is in `scope`. */
  function GrantCount(world: World, steps: seq<Step>, n: nat, scope: Intent -> bool): nat
    requires n <= |steps|
  {
    if n == 0 then 0
    else
      var earlier := GrantCount(world, steps, n - 1, scope);
      if GrantsIn(After(world, steps, n - 1), steps[n - 1], scope) then earlier + 1 else earlier
  }

  lemma IntentsNeverChange(world: World, step: Step, id: ApprovalId)
    requires id in world.approvals
    ensures id in Exec(world, step).approvals && Exec(world, step).approvals[id].intent == world.approvals[id].intent
  {
  }

  lemma StepGrants(world: World, step: Step, scope: Intent -> bool)
    requires Sound(world)
    ensures GrantedIn(Exec(world, step), scope) ==
            GrantedIn(world, scope) + if GrantsIn(world, step, scope) then {step.id} else {}
    ensures Grants(world, step) ==> step.id !in world.granted
  {
    var after := Exec(world, step);
    forall id | id in world.approvals
      ensures id in after.approvals && after.approvals[id].intent == world.approvals[id].intent
    {
      IntentsNeverChange(world, step, id);
    }
    if Grants(world, step) {
      assert ApprovalSound(world.approvals[step.id], world.clock, step.id in world.granted);
    }
  }

  lemma {:induction false} GrantsAreCounted(clock: int, steps: seq<Step>, n: nat, scope: Intent -> bool)
    requires n <= |steps|
    ensures |GrantedIn(After(Initial(clock), steps, n), scope)| == GrantCount(Initial(clock), steps, n, scope)
  {
    if n > 0 {
      GrantsAreCounted(clock, steps, n - 1, scope);
      ReachableIsSound(clock, steps, n - 1);
      var world, step := After(Initial(clock), steps, n - 1), steps[n - 1];
      StepGrants(world, step, scope);
      if GrantsIn(world, step, scope) {
        assert step.id !in GrantedIn(world, scope);
      }
    }
  }

  /** Distinct calls in `ids` have distinct approvals in `grants`. */
  lemma {:induction false} NoMoreThan(world: World, ids: set<ExecutionId>, grants: set<ApprovalId>)
    requires forall execution <- ids :: execution in world.executions && world.executions[execution].approval.Some?
    requires forall execution <- ids :: world.executions[execution].approval.value in grants
    requires forall a <- ids, b <- ids :: a != b ==> world.executions[a].approval != world.executions[b].approval
    ensures |ids| <= |grants|
  {
    if ids != {} {
      var execution :| execution in ids;
      var id := world.executions[execution].approval.value;
      NoMoreThan(world, ids - {execution}, grants - {id});
    }
  }

  /** For one intent, for one run, or altogether: approved dispatches never outnumber allow answers. */
  lemma DispatchesNeverExceedGrants(clock: int, steps: seq<Step>, n: nat, scope: Intent -> bool)
    requires n <= |steps|
    ensures |DispatchedIn(After(Initial(clock), steps, n), scope)| <= GrantCount(Initial(clock), steps, n, scope)
  {
    var world := After(Initial(clock), steps, n);
    var ids := DispatchedIn(world, scope);
    GrantsAreCounted(clock, steps, n, scope);
    forall execution <- ids
      ensures world.executions[execution].approval.Some?
      ensures world.executions[execution].approval.value in GrantedIn(world, scope)
    {
      EveryDispatchWasApproved(clock, steps, n, execution);
    }
    forall a <- ids, b <- ids | a != b ensures world.executions[a].approval != world.executions[b].approval {
      EveryDispatchWasApproved(clock, steps, n, a);
    }
    NoMoreThan(world, ids, GrantedIn(world, scope));
  }

  /* ---------- crashes ---------- */

  /** A call that has been recorded and then given up, by a crash or otherwise. */
  /** A call that has its ticket can act; a crash then gives it up, and its row says nothing of how it ended. */
  lemma TicketedCallActs(world: World, execution: ExecutionId)
    requires Sound(world) && AtStage(world, execution, Ticketed)
    ensures var crashed := Exec(Exec(world, Act(execution)), Crash);
            && execution in crashed.effects && IsOver(crashed, execution)
            && crashed.executions[execution].call == world.calls[execution].call
            && crashed.executions[execution].dispatched && !crashed.executions[execution].completed
  {
    assert CallSound(world, execution);
  }

  predicate IsOver(world: World, execution: ExecutionId) {
    execution in world.executions && execution !in world.calls
  }

  lemma StepLeavesOver(world: World, step: Step, execution: ExecutionId)
    requires IsOver(world, execution)
    ensures IsOver(Exec(world, step), execution)
    ensures Exec(world, step).executions[execution] == world.executions[execution]
    ensures execution in Exec(world, step).effects <==> execution in world.effects
  {
  }

  /** Its row never changes again, and what it has not begun to do it never does. */
  lemma {:induction false} OverStaysOver(clock: int, steps: seq<Step>, m: nat, n: nat, execution: ExecutionId)
    requires m <= n <= |steps| && IsOver(After(Initial(clock), steps, m), execution)
    ensures IsOver(After(Initial(clock), steps, n), execution)
    ensures After(Initial(clock), steps, n).executions[execution] ==
              After(Initial(clock), steps, m).executions[execution]
    ensures execution in After(Initial(clock), steps, n).effects <==>
              execution in After(Initial(clock), steps, m).effects
  {
    if m < n {
      OverStaysOver(clock, steps, m, n - 1, execution);
      StepLeavesOver(After(Initial(clock), steps, n - 1), steps[n - 1], execution);
    }
  }

  /** A call whose row still says "not dispatched" when it is given up has done nothing and never will. */
  lemma UndispatchedNeverActs(clock: int, steps: seq<Step>, m: nat, n: nat, execution: ExecutionId)
    requires m <= n <= |steps| && IsOver(After(Initial(clock), steps, m), execution)
    requires !After(Initial(clock), steps, m).executions[execution].dispatched
    ensures execution !in After(Initial(clock), steps, n).effects
  {
    ReachableIsSound(clock, steps, m);
    OverStaysOver(clock, steps, m, n, execution);
    assert execution in After(Initial(clock), steps, m).effects ==>
      ActSound(After(Initial(clock), steps, m), execution);
  }
}
