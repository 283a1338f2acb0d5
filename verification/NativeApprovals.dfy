/**
 The answers native callers get over all time for one exact intent. A call looks the newest
 approval up and then, in separate statements, either checks again and inserts a request or
 chooses an allowed row and consumes it; the statements of many callers interleave with
 everything else that happens to the table.

 There is one row for the intent, and the answers are pending for a while, then at most one
 allow, then deny for ever, exactly as long as no call inserts after another one has.
*/
module NativeApprovals {
  import opened Wrappers
  import opened Approvals

  type CallerId = string

  /** What a caller has learned from its statements so far. */
  datatype Phase = SawNothing | FoundNoPending | SawAllowed | Chose(id: ApprovalId)

  datatype Caller = Caller(intent: Intent, phase: Phase)

  datatype State = State(clock: int, table: Table, callers: map<CallerId, Caller>)

  /** Everything that can happen: to the clock and the table, and the statements of native callers. */
  datatype Step =
    | Tick(seconds: nat)
    | Request(intent: Intent, id: ApprovalId)
    | Consume(intent: Intent)
    | Answered(id: ApprovalId, allow: bool)
    | Expiry(run: string)
    | Lookup(caller: CallerId, intent: Intent)
    | Recheck(caller: CallerId)
    | Insert(caller: CallerId, id: ApprovalId)
    | Choose(caller: CallerId)
    | Take(caller: CallerId)
    | GiveUp(caller: CallerId)

  predicate AtPhase(state: State, caller: CallerId, phase: Phase) {
    caller in state.callers && state.callers[caller].phase == phase
  }

  predicate Enabled(state: State, step: Step) {
    match step
    case Request(_, id) => id !in state.table
    case Lookup(caller, _) => caller !in state.callers
    case Recheck(caller) => AtPhase(state, caller, SawNothing)
    case Insert(caller, id) => AtPhase(state, caller, FoundNoPending) && id !in state.table
    case Choose(caller) => AtPhase(state, caller, SawAllowed)
    case Take(caller) => caller in state.callers && state.callers[caller].phase.Chose?
    case _ => true
  }

  function Swept(state: State, intent: Intent): State {
    state.(table := ExpireRun(state.table, intent.run, state.clock))
  }

  function Waits(state: State, caller: CallerId, intent: Intent, phase: Phase): State {
    state.(callers := state.callers[caller := Caller(intent, phase)])
  }

  function Leaves(state: State, caller: CallerId): State {
    state.(callers := state.callers - {caller})
  }

  /** latest_matching, and what resolve_native makes of it. */
  ghost function LookedUp(state: State, caller: CallerId, intent: Intent): (State, Option<Answer>) {
    var swept := Swept(state, intent);
    var latest := Latest(swept.table, intent);
    if latest.None? then (Waits(swept, caller, intent, SawNothing), None)
    else match swept.table[latest.value].status
      case Allowed => (Waits(swept, caller, intent, SawAllowed), None)
      case Pending => (swept, Some(AnswerPending))
      case _ => (swept, Some(AnswerDeny))
  }

  /** The first half of request_pending: reuse a live pending row, if there is one. */
  function Rechecked(state: State, caller: CallerId, intent: Intent): (State, Option<Answer>) {
    var swept := Swept(state, intent);
    if exists id | id in swept.table :: Matches(swept.table, id, intent, Pending, swept.clock)
    then (Leaves(swept, caller), Some(AnswerPending))
    else (Waits(swept, caller, intent, FoundNoPending), None)
  }

  /** The first half of consume_matching. */
  ghost function Chosen(state: State, caller: CallerId, intent: Intent): (State, Option<Answer>) {
    var swept := Swept(state, intent);
    var best := BestAllowed(swept.table, intent, swept.clock);
    if best.None? then (Leaves(swept, caller), Some(AnswerDeny))
    else (Waits(swept, caller, intent, Chose(best.value)), None)
  }

  /** The second half: the guarded update. */
  function Taken(state: State, caller: CallerId, id: ApprovalId): (State, Option<Answer>) {
    (Leaves(state, caller).(table := ConsumeOne(state.table, id, state.clock)),
     Some(if CanConsume(state.table, id, state.clock) then AnswerAllow else AnswerDeny))
  }

  /** The next state, and the answer the step gives to its caller. */
  ghost function Perform(state: State, step: Step): (State, Option<Answer>) {
    if !Enabled(state, step) then (state, None)
    else match step {
      case Tick(seconds) => (state.(clock := state.clock + seconds), None)
      case Request(intent, id) => (state.(table := RequestPending(state.table, intent, state.clock, id)), None)
      case Consume(intent) => (state.(table := ConsumeMatching(state.table, intent, state.clock).0), None)
      case Answered(id, allow) => (state.(table := Respond(state.table, id, allow, state.clock)), None)
      case Expiry(run) => (state.(table := ExpireRun(state.table, run, state.clock)), None)
      case Lookup(caller, intent) => LookedUp(state, caller, intent)
      case Recheck(caller) => Rechecked(state, caller, state.callers[caller].intent)
      case Insert(caller, id) =>
        (Leaves(state, caller).(table := state.table[id := NewApproval(state.callers[caller].intent, state.clock)]),
         Some(AnswerPending))
      case Choose(caller) => Chosen(state, caller, state.callers[caller].intent)
      case Take(caller) => Taken(state, caller, state.callers[caller].phase.id)
      case GiveUp(caller) => (Leaves(state, caller), None)
    }
  }

  ghost function Exec(state: State, step: Step): State {
    Perform(state, step).0
  }

  ghost function After(start: State, steps: seq<Step>, n: nat): State
    requires n <= |steps|
  {
    if n == 0 then start else Exec(After(start, steps, n - 1), steps[n - 1])
  }

  /** The statement is one of a native call for the intent. */
  predicate IsFor(state: State, step: Step, intent: Intent) {
    match step
    case Lookup(_, other) => other == intent
    case Recheck(caller) => caller in state.callers && state.callers[caller].intent == intent
    case Insert(caller, _) => caller in state.callers && state.callers[caller].intent == intent
    case Choose(caller) => caller in state.callers && state.callers[caller].intent == intent
    case Take(caller) => caller in state.callers && state.callers[caller].intent == intent
    case _ => false
  }

  /** The answers given for the intent by the first `n` steps, in order. */
  ghost function Answers(start: State, steps: seq<Step>, n: nat, intent: Intent): seq<Answer>
    requires n <= |steps|
  {
    if n == 0 then []
    else
      var state := After(start, steps, n - 1);
      var answer := Perform(state, steps[n - 1]).1;
      Answers(start, steps, n - 1, intent)
      + if answer.Some? && IsFor(state, steps[n - 1], intent) then [answer.value] else []
  }

  /** pending*, then at most one allow, then deny*. */
  predicate Settles(answers: seq<Answer>) {
    forall i, j | 0 <= i < j < |answers| && answers[i] != AnswerPending :: answers[j] == AnswerDeny
  }

  /** The tool pipeline never asks for or consumes this intent. */
  predicate Allowable(step: Step, intent: Intent) {
    match step
    case Request(other, _) => other != intent
    case Consume(other) => other != intent
    case _ => true
  }

  predicate AllAllowable(steps: seq<Step>, intent: Intent) {
    forall k | 0 <= k < |steps| :: Allowable(steps[k], intent)
  }

  /* ---------- rows and stages ---------- */

  predicate IsRow(table: Table, id: ApprovalId, intent: Intent) {
    id in table && table[id].intent == intent
  }

  ghost predicate NoRow(table: Table, intent: Intent) {
    forall id :: !IsRow(table, id, intent)
  }

  ghost predicate AtMostOneRow(table: Table, intent: Intent) {
    forall a, b | IsRow(table, a, intent) && IsRow(table, b, intent) :: a == b
  }

  datatype Stage = Nothing | Waiting | Granted | Closed

  /** Where a row is in its life; one that has run out is closed, whether it has been swept or not. */
  function StageOf(row: Approval, clock: int): Stage {
    if Open(row.status) && row.expiresAt <= clock then Closed
    else match row.status
      case Pending => Waiting
      case Allowed => Granted
      case _ => Closed
  }

  predicate Later(from: Stage, to: Stage) {
    || from == to
    || (from == Waiting && (to == Granted || to == Closed))
    || (from == Granted && to == Closed)
  }

  /** The rows for the intent are the same, and each has only moved on. */
  ghost predicate RowsMoveOn(before: State, after: State, intent: Intent) {
    forall id {:trigger IsRow(after.table, id, intent)} {:trigger IsRow(before.table, id, intent)} ::
      && (IsRow(after.table, id, intent) <==> IsRow(before.table, id, intent))
      && (IsRow(before.table, id, intent) ==>
            Later(StageOf(before.table[id], before.clock), StageOf(after.table[id], after.clock)))
  }

  ghost predicate OnlyRow(state: State, id: ApprovalId, intent: Intent, stage: Stage) {
    && IsRow(state.table, id, intent) && StageOf(state.table[id], state.clock) == stage
    && forall other | IsRow(state.table, other, intent) :: other == id
  }

  ghost predicate InStage(state: State, intent: Intent, stage: Stage) {
    if stage == Nothing then NoRow(state.table, intent)
    else exists id :: OnlyRow(state, id, intent, stage)
  }

  lemma MoveOnStage(before: State, after: State, intent: Intent, stage: Stage) returns (next: Stage)
    requires InStage(before, intent, stage) && RowsMoveOn(before, after, intent)
    ensures InStage(after, intent, next) && Later(stage, next)
  {
    next := stage;
    if stage == Nothing {
      forall id ensures !IsRow(after.table, id, intent) {
        assert !IsRow(before.table, id, intent);
      }
    } else {
      var id :| OnlyRow(before, id, intent, stage);
      assert IsRow(after.table, id, intent);
      next := StageOf(after.table[id], after.clock);
      forall other | IsRow(after.table, other, intent) ensures other == id {
        assert IsRow(before.table, other, intent);
      }
      assert OnlyRow(after, id, intent, next);
    }
  }

  /* ---------- what each step does to the rows ---------- */

  /** A caller that has chosen a row has chosen one of its own intent. */
  predicate CallersSound(state: State) {
    forall caller | caller in state.callers && state.callers[caller].phase.Chose? ::
      IsRow(state.table, state.callers[caller].phase.id, state.callers[caller].intent)
  }

  /** An insertion for the intent. */
  predicate Inserts(state: State, step: Step, intent: Intent) {
    step.Insert? && Enabled(state, step) && state.callers[step.caller].intent == intent
  }

  lemma SweepMovesOn(state: State, run: string, intent: Intent)
    ensures RowsMoveOn(state, state.(table := ExpireRun(state.table, run, state.clock)), intent)
  {
  }

  lemma ConsumeMovesOn(state: State, other: Intent, intent: Intent)
    requires other != intent
    ensures RowsMoveOn(state, state.(table := ConsumeMatching(state.table, other, state.clock).0), intent)
  {
    var current := ExpireRun(state.table, other.run, state.clock);
    var best := BestAllowed(current, other, state.clock);
    if best.Some? {
      assert current[best.value].intent == other;
    }
  }

  lemma TakeMovesOn(state: State, step: Step, intent: Intent)
    requires step.Take? && Enabled(state, step) && CallersSound(state)
    ensures RowsMoveOn(state, Exec(state, step), intent)
  {
  }

  lemma StatementMovesOn(state: State, step: Step, intent: Intent)
    requires step.Lookup? || step.Recheck? || step.Choose?
    ensures RowsMoveOn(state, Exec(state, step), intent)
  {
    if Enabled(state, step) {
      var own := if step.Lookup? then step.intent else state.callers[step.caller].intent;
      SweepMovesOn(state, own.run, intent);
      assert Exec(state, step).table == Swept(state, own).table && Exec(state, step).clock == state.clock;
    }
  }

  /** Nothing but an insertion of its own adds a row to an intent, and every row only moves on. */
  lemma StepMovesOn(state: State, step: Step, intent: Intent)
    requires Allowable(step, intent) && CallersSound(state) && !Inserts(state, step, intent)
    ensures RowsMoveOn(state, Exec(state, step), intent)
  {
    match step {
      case Consume(other) => ConsumeMovesOn(state, other, intent);
      case Expiry(run) => SweepMovesOn(state, run, intent);
      case Take(_) =>
        if Enabled(state, step) {
          TakeMovesOn(state, step, intent);
        }
      case Lookup(_, _) => StatementMovesOn(state, step, intent);
      case Recheck(_) => StatementMovesOn(state, step, intent);
      case Choose(_) => StatementMovesOn(state, step, intent);
      case Request(_, _) =>
      case Tick(_) =>
      case Answered(_, _) =>
      case Insert(_, _) =>
      case GiveUp(_) =>
    }
  }

  lemma IntentsNeverChange(state: State, step: Step, id: ApprovalId)
    requires id in state.table
    ensures id in Exec(state, step).table && Exec(state, step).table[id].intent == state.table[id].intent
  {
  }

  lemma StepKeepsCallersSound(state: State, step: Step)
    requires CallersSound(state)
    ensures CallersSound(Exec(state, step))
  {
    var after := Exec(state, step);
    forall caller | caller in after.callers && after.callers[caller].phase.Chose?
      ensures IsRow(after.table, after.callers[caller].phase.id, after.callers[caller].intent)
    {
      if caller in state.callers && state.callers[caller] == after.callers[caller] {
        IntentsNeverChange(state, step, after.callers[caller].phase.id);
      }
    }
  }

  /* ---------- an insertion that is alone ---------- */

  ghost predicate AloneAt(start: State, steps: seq<Step>, k: int, intent: Intent) {
    0 <= k < |steps| && Inserts(After(start, steps, k), steps[k], intent) ==>
      NoRow(After(start, steps, k).table, intent)
  }

  /** No insertion for the intent comes after another one. */
  ghost predicate AllAlone(start: State, steps: seq<Step>, intent: Intent) {
    forall k :: AloneAt(start, steps, k, intent)
  }

  /** Nothing has happened for the intent yet. */
  ghost predicate Untouched(state: State, intent: Intent) {
    && NoRow(state.table, intent) && CallersSound(state)
    && forall caller | caller in state.callers :: state.callers[caller].intent != intent
  }

  lemma {:induction false} SoundAfter(start: State, steps: seq<Step>, n: nat)
    requires n <= |steps| && CallersSound(start)
    ensures CallersSound(After(start, steps, n))
  {
    if n > 0 {
      SoundAfter(start, steps, n - 1);
      StepKeepsCallersSound(After(start, steps, n - 1), steps[n - 1]);
    }
  }

  /* ---------- answers and stages ---------- */

  /** What callers of the intent may know in this stage of its row. */
  predicate CallersFit(state: State, intent: Intent, stage: Stage) {
    forall caller | caller in state.callers && state.callers[caller].intent == intent ::
      state.callers[caller].phase == SawAllowed || state.callers[caller].phase.Chose? ==>
        stage == Granted || stage == Closed
  }

  /** Stage and callers agree. */
  ghost predicate Agrees(state: State, intent: Intent, stage: Stage) {
    CallersSound(state) && InStage(state, intent, stage) && CallersFit(state, intent, stage)
  }

  lemma LatestIsOnlyRow(table: Table, id: ApprovalId, intent: Intent)
    requires IsRow(table, id, intent) && forall other | IsRow(table, other, intent) :: other == id
    ensures Latest(table, intent) == Some(id)
  {
    var latest := Latest(table, intent);
    assert latest.Some? ==> IsRow(table, latest.value, intent);
  }

  lemma LatestOfNone(table: Table, intent: Intent)
    requires NoRow(table, intent)
    ensures Latest(table, intent).None?
  {
    var latest := Latest(table, intent);
    assert latest.Some? ==> IsRow(table, latest.value, intent);
  }

  /** A lookup tells the stage of the row. */
  lemma LookupTells(state: State, caller: CallerId, intent: Intent, stage: Stage)
    requires InStage(state, intent, stage)
    ensures LookedUp(state, caller, intent) ==
            (if stage == Nothing then (Waits(Swept(state, intent), caller, intent, SawNothing), None)
             else if stage == Granted then (Waits(Swept(state, intent), caller, intent, SawAllowed), None)
             else (Swept(state, intent), Some(if stage == Waiting then AnswerPending else AnswerDeny)))
  {
    var swept := Swept(state, intent);
    if stage == Nothing {
      forall id ensures !IsRow(swept.table, id, intent) {
        assert !IsRow(state.table, id, intent);
      }
      LatestOfNone(swept.table, intent);
    } else {
      var id :| OnlyRow(state, id, intent, stage);
      forall other | IsRow(swept.table, other, intent) ensures other == id {
        assert IsRow(state.table, other, intent);
      }
      LatestIsOnlyRow(swept.table, id, intent);
    }
  }

  /** A second look answers only for a row that waits. */
  lemma RecheckTells(state: State, caller: CallerId, intent: Intent, stage: Stage)
    requires InStage(state, intent, stage)
    ensures Rechecked(state, caller, intent).1 == if stage == Waiting then Some(AnswerPending) else None
  {
    var swept := Swept(state, intent);
    if stage == Nothing {
      forall id ensures !Matches(swept.table, id, intent, Pending, swept.clock) {
        assert !IsRow(state.table, id, intent);
      }
    } else {
      var id :| OnlyRow(state, id, intent, stage);
      forall other | Matches(swept.table, other, intent, Pending, swept.clock) ensures other == id {
        assert IsRow(state.table, other, intent);
      }
      if stage == Waiting {
        assert Matches(swept.table, id, intent, Pending, swept.clock);
      }
    }
  }

  /** A caller that saw the row allowed is denied only once the row is closed. */
  lemma ChooseTells(state: State, caller: CallerId, intent: Intent, stage: Stage)
    requires InStage(state, intent, stage) && (stage == Granted || stage == Closed)
    ensures Chosen(state, caller, intent).1 == if stage == Granted then None else Some(AnswerDeny)
  {
    var swept := Swept(state, intent);
    var id :| OnlyRow(state, id, intent, stage);
    var best := BestAllowed(swept.table, intent, swept.clock);
    if stage == Granted {
      assert Matches(swept.table, id, intent, Allowed, swept.clock);
    } else if best.Some? {
      assert IsRow(state.table, best.value, intent);
    }
  }

  /** The guarded update allows exactly while the row is granted, and closes it. */
  lemma TakeTells(state: State, step: Step, intent: Intent, stage: Stage)
    requires step.Take? && Enabled(state, step) && IsFor(state, step, intent) && CallersSound(state)
    requires InStage(state, intent, stage) && (stage == Granted || stage == Closed)
    ensures Perform(state, step).1 == Some(if stage == Granted then AnswerAllow else AnswerDeny)
    ensures InStage(Exec(state, step), intent, Closed)
  {
    var id :| OnlyRow(state, id, intent, stage);
    var chosen := state.callers[step.caller].phase.id;
    assert IsRow(state.table, chosen, intent) && chosen == id;
    var after := Exec(state, step);
    forall other | IsRow(after.table, other, intent) ensures other == id {
      assert IsRow(state.table, other, intent);
    }
    assert OnlyRow(after, id, intent, Closed);
  }

  /** An insertion that is alone leaves one waiting row. */
  lemma InsertTells(state: State, step: Step, intent: Intent)
    requires Inserts(state, step, intent) && NoRow(state.table, intent)
    ensures InStage(Exec(state, step), intent, Waiting)
  {
    var after := Exec(state, step);
    forall other | IsRow(after.table, other, intent) ensures other == step.id {
      assert other != step.id ==> !IsRow(state.table, other, intent);
    }
    assert OnlyRow(after, step.id, intent, Waiting);
  }

  lemma AskingFits(state: State, step: Step, intent: Intent, stage: Stage, next: Stage)
    requires Agrees(state, intent, stage) && Enabled(state, step)
    requires step.Lookup? || step.Recheck? || step.Choose?
    requires InStage(Exec(state, step), intent, next) && stage == next
    ensures CallersFit(Exec(state, step), intent, next)
  {
    if step.Lookup? && step.intent == intent {
      LookupTells(state, step.caller, intent, stage);
    }
  }

  /** Every step keeps stage and callers in agreement, unless it inserts a second row. */
  lemma StepAgrees(state: State, step: Step, intent: Intent, stage: Stage) returns (next: Stage)
    requires Agrees(state, intent, stage) && Allowable(step, intent)
    requires Inserts(state, step, intent) ==> NoRow(state.table, intent)
    ensures Agrees(Exec(state, step), intent, next)
    ensures stage == Closed ==> next == Closed
    ensures var answer := Perform(state, step).1;
            answer.Some? && IsFor(state, step, intent) ==>
              && (stage == Closed ==> answer.value == AnswerDeny)
              && (answer.value != AnswerPending ==> next == Closed)
  {
    StepKeepsCallersSound(state, step);
    if Inserts(state, step, intent) {
      next := Waiting;
      InsertTells(state, step, intent);
      StageIsUnique(state, intent, stage, Nothing);
    } else {
      StepMovesOn(state, step, intent);
      next := MoveOnStage(state, Exec(state, step), intent, stage);
      next := AnswerTells(state, step, intent, stage, next);
    }
  }

  lemma StageIsUnique(state: State, intent: Intent, a: Stage, b: Stage)
    requires InStage(state, intent, a) && InStage(state, intent, b)
    ensures a == b
  {
    assert forall id, stage | OnlyRow(state, id, intent, stage) :: IsRow(state.table, id, intent);
    if a != Nothing && b != Nothing {
      var id, other :| OnlyRow(state, id, intent, a) && OnlyRow(state, other, intent, b);
    }
  }

  /** The sweep in front of every look leaves the stage as it is. */
  lemma SweepKeepsStage(state: State, own: Intent, intent: Intent, stage: Stage)
    requires InStage(state, intent, stage)
    ensures InStage(Swept(state, own), intent, stage)
  {
    var swept := Swept(state, own);
    if stage == Nothing {
      forall id ensures !IsRow(swept.table, id, intent) {
        assert !IsRow(state.table, id, intent);
      }
    } else {
      var id :| OnlyRow(state, id, intent, stage);
      forall other | IsRow(swept.table, other, intent) ensures other == id {
        assert IsRow(state.table, other, intent);
      }
      assert OnlyRow(swept, id, intent, stage);
    }
  }

  /** A look leaves the stage as it is. */
  lemma LookKeepsStage(state: State, step: Step, intent: Intent, stage: Stage)
    requires Enabled(state, step) && (step.Lookup? || step.Recheck? || step.Choose?)
    requires InStage(state, intent, stage)
    ensures InStage(Exec(state, step), intent, stage)
  {
    var own := if step.Lookup? then step.intent else state.callers[step.caller].intent;
    SweepKeepsStage(state, own, intent, stage);
    SameRowsSameStage(Swept(state, own), Exec(state, step), intent, stage);
  }

  /** What a look answers for the intent. */
  lemma LookTells(state: State, step: Step, intent: Intent, stage: Stage)
    requires Agrees(state, intent, stage) && Enabled(state, step) && IsFor(state, step, intent)
    requires step.Lookup? || step.Recheck? || step.Choose?
    ensures var answer := Perform(state, step).1;
            answer.Some? ==>
              (stage == Closed ==> answer.value == AnswerDeny) && (answer.value != AnswerPending ==> stage == Closed)
  {
    match step {
      case Lookup(caller, _) => LookupTells(state, caller, intent, stage);
      case Recheck(caller) => RecheckTells(state, caller, intent, stage);
      case Choose(caller) => ChooseTells(state, caller, intent, stage);
    }
  }

  lemma AnswerTells(state: State, step: Step, intent: Intent, stage: Stage, moved: Stage) returns (next: Stage)
    requires Agrees(state, intent, stage) && Allowable(step, intent) && !Inserts(state, step, intent)
    requires InStage(Exec(state, step), intent, moved) && Later(stage, moved)
    ensures next == moved && CallersFit(Exec(state, step), intent, next)
    ensures stage == Closed ==> next == Closed
    ensures var answer := Perform(state, step).1;
            answer.Some? && IsFor(state, step, intent) ==>
              && (stage == Closed ==> answer.value == AnswerDeny)
              && (answer.value != AnswerPending ==> next == Closed)
  {
    next := moved;
    if Enabled(state, step) && (step.Lookup? || step.Recheck? || step.Choose?) {
      LookKeepsStage(state, step, intent, stage);
      StageIsUnique(Exec(state, step), intent, stage, moved);
      AskingFits(state, step, intent, stage, moved);
      if IsFor(state, step, intent) {
        LookTells(state, step, intent, stage);
      }
    } else if step.Take? && Enabled(state, step) && IsFor(state, step, intent) {
      TakeTells(state, step, intent, stage);
      StageIsUnique(Exec(state, step), intent, Closed, moved);
    }
  }

  lemma SameRowsSameStage(a: State, b: State, intent: Intent, stage: Stage)
    requires InStage(a, intent, stage) && a.table == b.table && a.clock == b.clock
    ensures InStage(b, intent, stage)
  {
    if stage != Nothing {
      var id :| OnlyRow(a, id, intent, stage);
      assert OnlyRow(b, id, intent, stage);
    }
  }

  /* ---------- histories ---------- */

  /** The stage the history has brought the intent to, together with the answers so far. */
  ghost predicate Progress(start: State, steps: seq<Step>, n: nat, intent: Intent, stage: Stage)
    requires n <= |steps|
  {
    var answers := Answers(start, steps, n, intent);
    && Agrees(After(start, steps, n), intent, stage)
    && Settles(answers)
    && (stage != Closed ==> forall i | 0 <= i < |answers| :: answers[i] == AnswerPending)
  }

  lemma {:induction false} AloneHistoryProgresses(start: State, steps: seq<Step>, n: nat, intent: Intent)
    returns (stage: Stage)
    requires n <= |steps| && Untouched(start, intent) && AllAllowable(steps, intent)
    requires forall k | 0 <= k < n :: AloneAt(start, steps, k, intent)
    ensures Progress(start, steps, n, intent, stage)
  {
    stage := Nothing;
    if n > 0 {
      var before := AloneHistoryProgresses(start, steps, n - 1, intent);
      assert AloneAt(start, steps, n - 1, intent);
      stage := StepAgrees(After(start, steps, n - 1), steps[n - 1], intent, before);
    }
  }

  lemma StageHasOneRow(state: State, intent: Intent, stage: Stage)
    requires InStage(state, intent, stage)
    ensures AtMostOneRow(state.table, intent)
  {
    if stage != Nothing {
      var id :| OnlyRow(state, id, intent, stage);
    }
  }

  /** At every point of the history there is at most one row for the intent. */
  ghost predicate NeverTwoRows(start: State, steps: seq<Step>, intent: Intent) {
    forall n | 0 <= n <= |steps| :: AtMostOneRow(After(start, steps, n).table, intent)
  }

  /** For a native intent there is never more than one approval row, exactly when every insertion is alone. */
  lemma OneRowPerNativeIntentExactlyWhen(start: State, steps: seq<Step>, intent: Intent)
    requires Untouched(start, intent) && AllAllowable(steps, intent)
    ensures NeverTwoRows(start, steps, intent) <==> AllAlone(start, steps, intent)
  {
    if AllAlone(start, steps, intent) {
      forall n | 0 <= n <= |steps| ensures AtMostOneRow(After(start, steps, n).table, intent) {
        assert forall k :: AloneAt(start, steps, k, intent);
        var stage := AloneHistoryProgresses(start, steps, n, intent);
        StageHasOneRow(After(start, steps, n), intent, stage);
      }
    }
    if NeverTwoRows(start, steps, intent) {
      forall k ensures AloneAt(start, steps, k, intent) {
        if 0 <= k < |steps| && Inserts(After(start, steps, k), steps[k], intent) {
          assert AtMostOneRow(After(start, steps, k + 1).table, intent);
          InsertionAddsRow(After(start, steps, k), steps[k], intent);
        }
      }
    }
  }

  lemma InsertionAddsRow(state: State, step: Step, intent: Intent)
    requires Inserts(state, step, intent) && AtMostOneRow(Exec(state, step).table, intent)
    ensures NoRow(state.table, intent)
  {
    var after := Exec(state, step);
    assert IsRow(after.table, step.id, intent);
    forall id ensures !IsRow(state.table, id, intent) {
      assert id != step.id ==> (IsRow(state.table, id, intent) <==> IsRow(after.table, id, intent));
    }
  }

  /** As long as every insertion is alone, the answers are pending*, then at most one allow, then deny*. */
  lemma NativeAnswersSettle(start: State, steps: seq<Step>, n: nat, intent: Intent)
    requires n <= |steps| && Untouched(start, intent) && AllAllowable(steps, intent) && AllAlone(start, steps, intent)
    ensures Settles(Answers(start, steps, n, intent))
  {
    assert forall k :: AloneAt(start, steps, k, intent);
    var stage := AloneHistoryProgresses(start, steps, n, intent);
  }

  /** One row and settled answers, exactly when every insertion is alone. */
  lemma OneRowAndSettledExactlyWhen(start: State, steps: seq<Step>, intent: Intent)
    requires Untouched(start, intent) && AllAllowable(steps, intent)
    ensures NeverTwoRows(start, steps, intent) && Settles(Answers(start, steps, |steps|, intent)) <==>
            AllAlone(start, steps, intent)
  {
    OneRowPerNativeIntentExactlyWhen(start, steps, intent);
    if AllAlone(start, steps, intent) {
      NativeAnswersSettle(start, steps, |steps|, intent);
    }
  }

  /** An allow is only ever given on a row of the intent that a responder allowed, and it uses the row up. */
  lemma AllowNeedsGrant(state: State, step: Step, intent: Intent)
    requires CallersSound(state) && IsFor(state, step, intent) && Perform(state, step).1 == Some(AnswerAllow)
    ensures step.Take? && step.caller in state.callers && state.callers[step.caller].phase.Chose?
    ensures var id := state.callers[step.caller].phase.id;
            && IsRow(state.table, id, intent) && StageOf(state.table[id], state.clock) == Granted
            && Exec(state, step).table[id].status == Consumed
  {
  }

  /* ---------- calls that run alone ---------- */

  /** The statements of one call, when nothing comes in between. */
  ghost function WholeCall(state: State, caller: CallerId, intent: Intent, id: ApprovalId): seq<Step> {
    var looked := Exec(state, Lookup(caller, intent));
    if caller !in looked.callers then
      [Lookup(caller, intent)]
    else if looked.callers[caller].phase == SawNothing then
      [Lookup(caller, intent), Recheck(caller), Insert(caller, id)]
    else
      var chose := Exec(looked, Choose(caller));
      [Lookup(caller, intent), Choose(caller)] + if caller in chose.callers then [Take(caller)] else []
  }

  lemma SweepTwice(table: Table, run: string, now: int)
    ensures ExpireRun(ExpireRun(table, run, now), run, now) == ExpireRun(table, run, now)
  {
  }

  /** A call that found nothing inserts a row that is alone. */
  lemma InsertingCallIsResolveNative(state: State, caller: CallerId, intent: Intent, id: ApprovalId)
    requires caller !in state.callers && id !in state.table
    requires Latest(Swept(state, intent).table, intent).None?
    ensures var one := Exec(state, Lookup(caller, intent)); var two := Exec(one, Recheck(caller));
            && Perform(state, Lookup(caller, intent)).1.None? && Perform(one, Recheck(caller)).1.None?
            && Inserts(two, Insert(caller, id), intent) && NoRow(two.table, intent)
            && Perform(two, Insert(caller, id)).1 ==
                 Some(ResolveNative(state.table, intent, state.clock, state.clock, id).1)
            && Exec(two, Insert(caller, id)).table == ResolveNative(state.table, intent, state.clock, state.clock, id).0
  {
    var swept := Swept(state, intent);
    SweepTwice(state.table, intent.run, state.clock);
    var one := Exec(state, Lookup(caller, intent));
    forall other
      ensures !IsRow(swept.table, other, intent) && !Matches(swept.table, other, intent, Pending, state.clock)
    {
    }
    assert Swept(one, intent).table == swept.table;
  }

  /** A call that found the newest row allowed consumes the best one. */
  lemma ConsumingCallIsResolveNative(state: State, caller: CallerId, intent: Intent, id: ApprovalId)
    requires caller !in state.callers
    requires var latest := Latest(Swept(state, intent).table, intent);
             latest.Some? && Swept(state, intent).table[latest.value].status == Allowed
    ensures var one := Exec(state, Lookup(caller, intent)); var two := Exec(one, Choose(caller));
            var (table, answer) := ResolveNative(state.table, intent, state.clock, state.clock, id);
            && Perform(state, Lookup(caller, intent)).1.None? && Perform(one, Choose(caller)).1.None?
            && Perform(two, Take(caller)).1 == Some(answer) && answer == AnswerAllow
            && Exec(two, Take(caller)).table == table
  {
    var swept := Swept(state, intent);
    SweepTwice(state.table, intent.run, state.clock);
    var latest := Latest(swept.table, intent).value;
    assert Matches(swept.table, latest, intent, Allowed, state.clock);
    var one := Exec(state, Lookup(caller, intent));
    assert Swept(one, intent).table == swept.table;
  }

  /** Run without interruption, the statements of a call do what resolve_native does. */
  lemma WholeCallIsResolveNative(state: State, caller: CallerId, intent: Intent, id: ApprovalId)
    requires caller !in state.callers && id !in state.table
    ensures var call := WholeCall(state, caller, intent, id);
            var (table, answer) := ResolveNative(state.table, intent, state.clock, state.clock, id);
            && After(state, call, |call|).table == table
            && Answers(state, call, |call|, intent) == [answer]
  {
    var call := WholeCall(state, caller, intent, id);
    var latest := Latest(Swept(state, intent).table, intent);
    if latest.None? {
      InsertingCallIsResolveNative(state, caller, intent, id);
      ThreeSteps(state, call, intent);
    } else if Swept(state, intent).table[latest.value].status == Allowed {
      ConsumingCallIsResolveNative(state, caller, intent, id);
      ThreeSteps(state, call, intent);
    } else {
      AnsweredCallIsResolveNative(state, caller, intent, id);
      OneStep(state, call, intent);
    }
  }

  /** A call that found the newest row in any other state is answered at once. */
  lemma AnsweredCallIsResolveNative(state: State, caller: CallerId, intent: Intent, id: ApprovalId)
    requires caller !in state.callers
    requires var latest := Latest(Swept(state, intent).table, intent);
             latest.Some? && Swept(state, intent).table[latest.value].status != Allowed
    ensures WholeCall(state, caller, intent, id) == [Lookup(caller, intent)]
    ensures var (table, answer) := ResolveNative(state.table, intent, state.clock, state.clock, id);
            && Perform(state, Lookup(caller, intent)).1 == Some(answer)
            && Exec(state, Lookup(caller, intent)).table == table
  {
  }

  lemma OneStep(state: State, call: seq<Step>, intent: Intent)
    requires |call| == 1
    ensures After(state, call, 1) == Exec(state, call[0])
    ensures Answers(state, call, 1, intent) ==
            if Perform(state, call[0]).1.Some? && IsFor(state, call[0], intent)
              then [Perform(state, call[0]).1.value] else []
  {
    assert After(state, call, 0) == state && Answers(state, call, 0, intent) == [];
  }

  lemma ThreeSteps(state: State, call: seq<Step>, intent: Intent)
    requires |call| == 3
    requires Perform(state, call[0]).1.None? && Perform(Exec(state, call[0]), call[1]).1.None?
    ensures var two := Exec(Exec(state, call[0]), call[1]);
            && After(state, call, 2) == two && After(state, call, 3) == Exec(two, call[2])
            && Answers(state, call, 3, intent) ==
               if Perform(two, call[2]).1.Some? && IsFor(two, call[2], intent)
                 then [Perform(two, call[2]).1.value] else []
  {
    assert After(state, call, 0) == state && Answers(state, call, 0, intent) == [];
    assert After(state, call, 1) == Exec(state, call[0]) && Answers(state, call, 1, intent) == [];
    assert After(state, call, 2) == Exec(Exec(state, call[0]), call[1]) && Answers(state, call, 2, intent) == [];
  }

  /** Whoever inserts for the intent has just looked, found nothing, and checked again. */
  ghost predicate Uninterrupted(start: State, steps: seq<Step>, intent: Intent) {
    forall k | 0 <= k < |steps| && Inserts(After(start, steps, k), steps[k], intent) ::
      InsertsAtOnce(start, steps, k, intent)
  }

  ghost predicate InsertsAtOnce(start: State, steps: seq<Step>, k: int, intent: Intent)
    requires 0 <= k < |steps| && steps[k].Insert?
  {
    && k >= 2 && steps[k - 2] == Lookup(steps[k].caller, intent) && Enabled(After(start, steps, k - 2), steps[k - 2])
    && steps[k - 1] == Recheck(steps[k].caller) && Enabled(After(start, steps, k - 1), steps[k - 1])
  }

  lemma LookupFoundNothing(state: State, caller: CallerId, intent: Intent)
    requires Enabled(state, Lookup(caller, intent)) && Enabled(Exec(state, Lookup(caller, intent)), Recheck(caller))
    ensures NoRow(Exec(Exec(state, Lookup(caller, intent)), Recheck(caller)).table, intent)
  {
    var one := Exec(state, Lookup(caller, intent));
    var latest := Latest(Swept(state, intent).table, intent);
    assert latest.None?;
    var two := Exec(one, Recheck(caller));
    forall id ensures !IsRow(two.table, id, intent) {
      assert !IsRow(Swept(state, intent).table, id, intent);
    }
  }

  /** The serial case: when inserting calls are not interrupted, one row exists and the answers settle. */
  lemma UninterruptedCallsSettle(start: State, steps: seq<Step>, intent: Intent)
    requires Untouched(start, intent) && AllAllowable(steps, intent) && Uninterrupted(start, steps, intent)
    ensures NeverTwoRows(start, steps, intent) && Settles(Answers(start, steps, |steps|, intent))
  {
    forall k ensures AloneAt(start, steps, k, intent) {
      if 0 <= k < |steps| && Inserts(After(start, steps, k), steps[k], intent) {
        assert InsertsAtOnce(start, steps, k, intent);
        LookupFoundNothing(After(start, steps, k - 2), steps[k].caller, intent);
        assert After(start, steps, k - 1) == Exec(After(start, steps, k - 2), steps[k - 2]);
        assert After(start, steps, k) == Exec(After(start, steps, k - 1), steps[k - 1]);
      }
    }
    OneRowAndSettledExactlyWhen(start, steps, intent);
  }
}
