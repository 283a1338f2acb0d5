/**
 The tool pipeline as an object over the approval store and the table of executions. Each
 method is tied to the steps of `Dispatch` it stands for; the steps of several calls may
 interleave there, while a method here runs its own without interruption.
*/
module ToolPipeline {
  import opened Wrappers
  import opened Policies
  import opened Approvals
  import opened Decision
  import opened Dispatch

  datatype BeginError =
    Undecided(error: RulingError) | PolicyDenied(capability: string) | ApprovalNeeded(id: ApprovalId)

  /** The approval a call would consume. */
  ghost function Chosen(world: World, call: Call, ruling: Ruling): Option<ApprovalId> {
    if ruling.policy == Ask && call.run.Some? then
      BestAllowed(ExpireRun(world.approvals, call.run.value, world.clock), IntentOf(call, ruling), world.clock)
    else None
  }

  /** The steps of a begin that has been decided, up to its row. */
  ghost function ClaimSteps(world: World, execution: ExecutionId, call: Call): seq<Step>
    requires Decide(call).Success?
  {
    var ruling := Decide(call).value;
    (if ruling.policy == Ask && call.run.Some? then [Expiry(call.run.value)] else [])
    + [Claim(execution, call, Chosen(world, call, ruling)), Record(execution)]
  }

  /** Its last step: hand out a ticket, refuse, or park the call behind a pending approval. */
  ghost function LastStep(world: World, execution: ExecutionId, call: Call, newId: ApprovalId,
                          outcome: Result<(), BeginError>): Step
    requires Decide(call).Success?
  {
    if outcome.Success? then Dispatched(execution)
    else match outcome.error
      case ApprovalNeeded(linked) => Park(execution, newId, linked)
      case _ => Abandon(execution)
  }

  ghost predicate Ran(before: World, steps: seq<Step>, after: World) {
    after == After(before, steps, |steps|)
  }

  lemma {:induction false} PrefixSuffices(world: World, steps: seq<Step>, more: seq<Step>, n: nat)
    requires n <= |steps|
    ensures After(world, steps + more, n) == After(world, steps, n)
  {
    if n > 0 {
      PrefixSuffices(world, steps, more, n - 1);
      assert (steps + more)[n - 1] == steps[n - 1];
    }
  }

  lemma RanThen(before: World, steps: seq<Step>, middle: World, step: Step)
    requires Ran(before, steps, middle)
    ensures Ran(before, steps + [step], Exec(middle, step))
  {
    PrefixSuffices(before, steps, [step], |steps|);
    assert (steps + [step])[|steps|] == step;
  }

  /** The run's approvals are swept for expired ones before one is chosen. */
  function Swept(world: World, call: Call, ruling: Ruling): World {
    if ruling.policy == Ask && call.run.Some? then Exec(world, Expiry(call.run.value)) else world
  }

  lemma RanClaim(before: World, execution: ExecutionId, call: Call)
    requires Decide(call).Success?
    ensures var ruling := Decide(call).value;
            var claimed := Exec(Swept(before, call, ruling), Claim(execution, call, Chosen(before, call, ruling)));
            Ran(before, ClaimSteps(before, execution, call), Exec(claimed, Record(execution)))
  {
    var ruling := Decide(call).value;
    var swept := Swept(before, call, ruling);
    var sweep := if ruling.policy == Ask && call.run.Some? then [Expiry(call.run.value)] else [];
    assert Ran(before, sweep, swept) by {
      if sweep != [] {
        RanThen(before, [], before, Expiry(call.run.value));
        assert [] + sweep == sweep;
      }
    }
    var claim := Claim(execution, call, Chosen(before, call, ruling));
    RanThen(before, sweep, swept, claim);
    RanThen(before, sweep + [claim], Exec(swept, claim), Record(execution));
    assert sweep + [claim] + [Record(execution)] == ClaimSteps(before, execution, call);
  }

  /** The row of a call that has begun says what was decided about it, and what the caller was told. */
  predicate Begun(row: Execution, call: Call, ruling: Ruling, outcome: Result<(), BeginError>) {
    && row.call == call && row.ruling == ruling && !row.completed
    && row.dispatched == outcome.Success?
    && match ruling.policy
       case Deny => outcome == Failure(PolicyDenied(ruling.capability)) && row.category == DeniedCall
       case Allow => outcome.Success? && row.category == Started && row.approval.None?
       case Ask =>
         if outcome.Success? then row.category == Started && row.approval.Some?
         else
           && outcome.error.ApprovalNeeded? && row.category == ApprovalRequired
           && row.approval == Some(outcome.error.id)
  }

  class Pipeline {
    const store: ApprovalStore
    var clock: int
    var executions: map<ExecutionId, Execution>
    var calls: map<ExecutionId, Live>
    var consumers: map<ApprovalId, ExecutionId>
    var granted: set<ApprovalId>
    var effects: set<ExecutionId>

    ghost function State(): World
      reads this, store
    {
      World(clock, store.table, executions, calls, consumers, granted, effects)
    }

    constructor (now: int)
      ensures State() == Initial(now)
      ensures fresh(store)
    {
      store := new ApprovalStore();
      clock, executions, calls := now, map[], map[];
      consumers, granted, effects := map[], {}, {};
    }

    method Tick(seconds: nat)
      modifies this`clock
      ensures State() == Exec(old(State()), Step.Tick(seconds))
    {
      clock := clock + seconds;
    }

    /** Consume the approval the call needs, if it needs one and there is one. */
    method ClaimApproval(execution: ExecutionId, call: Call, ruling: Ruling) returns (approval: Option<ApprovalId>)
      requires Decide(call) == Success(ruling)
      requires execution !in executions && execution !in calls
      modifies this`consumers, this`calls, store
      ensures approval == Chosen(old(State()), call, ruling)
      ensures State() == Exec(Swept(old(State()), call, ruling), Claim(execution, call, approval))
      ensures calls == old(calls)[execution := Live(call, ruling, approval, Claimed)]
      ensures store.table.Keys == old(store.table).Keys
      ensures approval.Some? ==>
                && call.run.Some? && approval.value in store.table && store.table[approval.value].status == Consumed
                && store.table[approval.value].intent == IntentOf(call, ruling)
    {
      approval := TakeApproval(call, ruling);
      if approval.Some? {
        consumers := consumers[approval.value := execution];
      }
      calls := calls[execution := Live(call, ruling, approval, Claimed)];
    }

    /** Sweep the run's approvals and consume the best matching one. */
    method TakeApproval(call: Call, ruling: Ruling) returns (approval: Option<ApprovalId>)
      requires Decide(call) == Success(ruling)
      modifies store
      ensures approval == Chosen(old(State()), call, ruling)
      ensures var swept := Swept(old(State()), call, ruling).approvals;
              && store.table == (if approval.Some? then ConsumeOne(swept, approval.value, clock) else swept)
              && (approval.Some? ==>
                    && ruling.policy == Ask && call.run.Some?
                    && IsBestAllowed(swept, approval.value, IntentOf(call, ruling), clock))
    {
      approval := None;
      if ruling.policy == Ask && call.run.Some? {
        approval := store.Consume(IntentOf(call, ruling), clock);
      }
    }

    /** Insert the call's row. */
    method RecordCall(execution: ExecutionId)
      requires AtStage(State(), execution, Claimed)
      modifies this`executions, this`calls
      ensures State() == Exec(old(State()), Record(execution))
    {
      var live := calls[execution];
      executions :=
        executions[execution := Execution(live.call, live.ruling, CategoryOf(live), false, live.approval, false)];
      calls := calls[execution := live.(stage := Recorded)];
    }

    /** From the decision to the inserted row. */
    method ClaimAndRecord(execution: ExecutionId, call: Call, ruling: Ruling) returns (approval: Option<ApprovalId>)
      requires Decide(call) == Success(ruling)
      requires execution !in executions && execution !in calls
      modifies this, store
      ensures Ran(old(State()), ClaimSteps(old(State()), execution, call), State())
      ensures approval == Chosen(old(State()), call, ruling)
      ensures store.table.Keys == old(store.table).Keys
      ensures approval.Some? ==>
                && call.run.Some? && approval.value in store.table && store.table[approval.value].status == Consumed
                && store.table[approval.value].intent == IntentOf(call, ruling)
      ensures var live := Live(call, ruling, approval, Recorded);
              && execution in calls && calls[execution] == live
              && executions ==
                 old(executions)[execution := Execution(call, ruling, CategoryOf(live), false, approval, false)]
    {
      ghost var before := State();
      approval := ClaimApproval(execution, call, ruling);
      RecordCall(execution);
      RanClaim(before, execution, call);
    }

    method AbandonCall(execution: ExecutionId)
      modifies this`calls
      ensures State() == Exec(old(State()), Abandon(execution))
      ensures execution !in calls
    {
      calls := calls - {execution};
    }

    /** Leave the call behind the newest pending approval for its intent, a live one or a new one. */
    method ParkCall(execution: ExecutionId, newId: ApprovalId) returns (linked: ApprovalId)
      requires AtStage(State(), execution, Recorded) && execution in executions && newId !in store.table
      requires calls[execution].ruling.policy == Ask && !Approved(calls[execution]) && calls[execution].call.run.Some?
      modifies this`executions, this`calls, store
      ensures State() == Exec(old(State()), Park(execution, newId, linked))
      ensures execution !in calls
      ensures executions == old(executions)[execution := old(executions)[execution].(approval := Some(linked))]
    {
      var intent := IntentOf(calls[execution].call, calls[execution].ruling);
      var created;
      linked, created := store.RequestApproval(intent, clock, newId);
      executions := executions[execution := executions[execution].(approval := Some(linked))];
      calls := calls - {execution};
    }

    method HandOutTicket(execution: ExecutionId)
      requires AtStage(State(), execution, Recorded) && execution in executions && Approved(calls[execution])
      modifies this`executions, this`calls
      ensures State() == Exec(old(State()), Dispatched(execution))
      ensures execution in calls
      ensures executions == old(executions)[execution := old(executions)[execution].(dispatched := true)]
    {
      executions := executions[execution := executions[execution].(dispatched := true)];
      calls := calls[execution := calls[execution].(stage := Ticketed)];
    }

    /** begin: decide, claim an approval if one is needed, record the call, and hand out a ticket or refuse. */
    method Begin(execution: ExecutionId, call: Call, newId: ApprovalId) returns (outcome: Result<(), BeginError>)
      requires execution !in executions && execution !in calls && newId !in store.table
      modifies this, store
      ensures Decide(call).Failure? ==> outcome == Failure(Undecided(Decide(call).error)) && State() == old(State())
      ensures Decide(call).Success? ==>
                var steps := ClaimSteps(old(State()), execution, call);
                Ran(old(State()), steps + [LastStep(old(State()), execution, call, newId, outcome)], State())
      ensures outcome.Success? <==>
              && Decide(call).Success?
              && var ruling := Decide(call).value;
                 ruling.policy == Allow || (ruling.policy == Ask && Chosen(old(State()), call, ruling).Some?)
      ensures outcome.Success? <==> execution in calls
      ensures Decide(call).Success? ==>
                && execution in executions && executions == old(executions)[execution := executions[execution]]
                && Begun(executions[execution], call, Decide(call).value, outcome)
      ensures outcome.Success? && Decide(call).value.policy == Ask ==>
                && executions[execution].approval.Some? && executions[execution].approval.value in store.table
                && var row := store.table[executions[execution].approval.value];
                   row.status == Consumed && row.intent == IntentOf(call, Decide(call).value)
      ensures outcome.Failure? && outcome.error.ApprovalNeeded? ==>
                && call.run.Some? && outcome.error.id in store.table
                && LiveRow(store.table[outcome.error.id], IntentOf(call, Decide(call).value), Pending, clock)
    {
      var ruled := Rule(call);
      if ruled.Failure? {
        return Failure(Undecided(ruled.error));
      }
      var ruling := ruled.value;
      ghost var before := State();
      ghost var steps := ClaimSteps(before, execution, call);
      var approval := ClaimAndRecord(execution, call, ruling);
      ghost var recorded := State();
      assert recorded == After(before, steps, |steps|);
      if ruling.policy == Deny {
        AbandonCall(execution);
        RanThen(before, steps, recorded, Abandon(execution));
        outcome := Failure(PolicyDenied(ruling.capability));
      } else if ruling.policy == Ask && approval.None? {
        var linked := ParkCall(execution, newId);
        RanThen(before, steps, recorded, Park(execution, newId, linked));
        outcome := Failure(ApprovalNeeded(linked));
      } else {
        HandOutTicket(execution);
        RanThen(before, steps, recorded, Dispatched(execution));
        outcome := Success(());
      }
    }

    /** finish_with_display. */
    method FinishCall(execution: ExecutionId, success: bool)
      requires AtStage(State(), execution, Ticketed) && execution in executions
      modifies this`executions, this`calls
      ensures State() == Exec(old(State()), Finish(execution, success))
      ensures execution !in calls
      ensures executions == old(executions)[execution := old(executions)[execution].(
                              category := if success then Succeeded else Errored, completed := true)]
    {
      executions := executions[execution := executions[execution].(
          category := if success then Succeeded else Errored, completed := true)];
      calls := calls - {execution};
    }

    /** Answer an approval; only an answer to an open one has an effect. */
    method Answer(id: ApprovalId, allow: bool) returns (outcome: Result<bool, string>)
      modifies this, store
      ensures State() == Exec(old(State()), Answered(id, allow))
      ensures granted == old(granted) +
                if && allow && id in old(store.table) && old(store.table)[id].status == Pending
                   && clock < old(store.table)[id].expiresAt then {id} else {}
    {
      ghost var before := State();
      outcome := store.Answer(id, allow, clock);
      if outcome == Success(false) && allow {
        granted := granted + {id};
      }
    }
  }
}
