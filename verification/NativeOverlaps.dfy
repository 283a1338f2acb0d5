/**
 What happens when insertions of native calls are not alone: the two ways in which the
 statements of two callers can overlap so that both insert, and the two allows that follow.
*/
module NativeOverlaps {
  import opened Wrappers
  import opened Approvals
  import opened NativeApprovals

  type Rows = map<ApprovalId, Approval>

  /** `rows` are the rows of the intent, and none of them has run out. */
  ghost predicate Shows(state: State, intent: Intent, rows: Rows) {
    && (forall id :: IsRow(state.table, id, intent) <==> id in rows)
    && (forall id | id in rows ::
          state.table[id] == rows[id] && rows[id].intent == intent && rows[id].expiresAt > state.clock)
  }

  /** `steps` lead from one state to the other and give these answers for the intent. */
  ghost predicate Leads(start: State, steps: seq<Step>, end: State, answers: seq<Answer>, intent: Intent) {
    After(start, steps, |steps|) == end && Answers(start, steps, |steps|, intent) == answers
  }

  ghost function Given(state: State, step: Step, intent: Intent): seq<Answer> {
    var answer := Perform(state, step).1;
    if answer.Some? && IsFor(state, step, intent) then [answer.value] else []
  }

  lemma {:induction false} PrefixSuffices(start: State, steps: seq<Step>, more: seq<Step>, n: nat, intent: Intent)
    requires n <= |steps|
    ensures After(start, steps + more, n) == After(start, steps, n)
    ensures Answers(start, steps + more, n, intent) == Answers(start, steps, n, intent)
  {
    if n > 0 {
      PrefixSuffices(start, steps, more, n - 1, intent);
      assert (steps + more)[n - 1] == steps[n - 1];
    }
  }

  lemma LeadsThen(start: State, steps: seq<Step>, middle: State, answers: seq<Answer>, step: Step, intent: Intent)
    requires Leads(start, steps, middle, answers, intent)
    ensures Leads(start, steps + [step], Exec(middle, step), answers + Given(middle, step, intent), intent)
  {
    PrefixSuffices(start, steps, [step], |steps|, intent);
    assert (steps + [step])[|steps|] == step;
  }

  /* ---------- one statement ---------- */

  lemma SweepShows(state: State, own: Intent, intent: Intent, rows: Rows)
    requires Shows(state, intent, rows)
    ensures Shows(Swept(state, own), intent, rows)
  {
    var swept := Swept(state, own);
    forall id ensures IsRow(swept.table, id, intent) <==> id in rows {
      assert IsRow(state.table, id, intent) <==> id in rows;
    }
  }

  /** The statement finds nothing to answer: the caller goes on to `phase`. */
  ghost predicate GoesOn(state: State, step: Step, caller: CallerId, intent: Intent, phase: Phase, rows: Rows) {
    && Given(state, step, intent) == []
    && Exec(state, step).callers == state.callers[caller := Caller(intent, phase)]
    && Exec(state, step).clock == state.clock && Exec(state, step).table.Keys == state.table.Keys
    && Shows(Exec(state, step), intent, rows)
  }

  lemma LookupGoesOn(state: State, caller: CallerId, intent: Intent)
    requires Shows(state, intent, map[]) && caller !in state.callers
    ensures GoesOn(state, Lookup(caller, intent), caller, intent, SawNothing, map[])
  {
    SweepShows(state, intent, intent, map[]);
    LatestOfNone(Swept(state, intent).table, intent);
  }

  lemma RecheckGoesOn(state: State, caller: CallerId, intent: Intent, rows: Rows)
    requires Shows(state, intent, rows) && AtPhase(state, caller, SawNothing) && state.callers[caller].intent == intent
    requires forall id | id in rows :: rows[id].status != Pending
    ensures GoesOn(state, Recheck(caller), caller, intent, FoundNoPending, rows)
  {
    var swept := Swept(state, intent);
    SweepShows(state, intent, intent, rows);
    forall id ensures !Matches(swept.table, id, intent, Pending, swept.clock) {
      assert IsRow(swept.table, id, intent) <==> id in rows;
    }
  }

  lemma InsertShows(state: State, caller: CallerId, id: ApprovalId, intent: Intent, rows: Rows)
    requires Shows(state, intent, rows) && AtPhase(state, caller, FoundNoPending) &&
             state.callers[caller].intent == intent
    requires id !in state.table
    ensures var after := Exec(state, Insert(caller, id));
            && Given(state, Insert(caller, id), intent) == [AnswerPending]
            && after.callers == state.callers - {caller} && after.clock == state.clock
            && after.table.Keys == state.table.Keys + {id}
            && Shows(after, intent, rows[id := NewApproval(intent, state.clock)])
  {
    var after := Exec(state, Insert(caller, id));
    assert !IsRow(state.table, id, intent);
    forall other ensures IsRow(after.table, other, intent) <==> other in rows[id := NewApproval(intent, state.clock)] {
      assert IsRow(state.table, other, intent) <==> other in rows;
    }
  }

  lemma AnswerShows(state: State, id: ApprovalId, intent: Intent, rows: Rows)
    requires Shows(state, intent, rows) && id in rows && rows[id].status == Pending
    ensures var after := Exec(state, Answered(id, true));
            && Given(state, Answered(id, true), intent) == []
            && after.callers == state.callers && after.clock == state.clock && after.table.Keys == state.table.Keys
            && Shows(after, intent, rows[id := rows[id].(status := Allowed, resolvedAt := Some(state.clock))])
  {
    assert IsRow(state.table, id, intent);
    SweepShows(state, intent, intent, rows);
    var after := Exec(state, Answered(id, true));
    forall other ensures IsRow(after.table, other, intent) <==> other in rows {
      assert IsRow(Swept(state, intent).table, other, intent) <==> other in rows;
    }
  }

  lemma TickShows(state: State, intent: Intent, rows: Rows)
    requires Shows(state, intent, rows) && forall id | id in rows :: rows[id].expiresAt > state.clock + 1
    ensures Shows(Exec(state, Tick(1)), intent, rows) && Given(state, Tick(1), intent) == []
  {
  }

  /** `best` is the allowed row that was answered last, and some newest row is allowed. */
  ghost predicate Picks(rows: Rows, newest: ApprovalId, best: ApprovalId) {
    && newest in rows && rows[newest].status == Allowed && best in rows && rows[best].status == Allowed
    && (forall id | id in rows :: NotAfter(rows[id].requestedAt, id, rows[newest].requestedAt, newest))
    && (forall id | id in rows && rows[id].status == Allowed ::
        NotAfter(ResolvedStamp(rows[id]), id, ResolvedStamp(rows[best]), best))
  }

  function Used(rows: Rows, id: ApprovalId, now: int): Rows
    requires id in rows
  {
    rows[id := rows[id].(status := Consumed, consumedAt := Some(now))]
  }

  lemma AllowedRowIsFound(state: State, intent: Intent, rows: Rows, newest: ApprovalId, best: ApprovalId)
    requires Shows(state, intent, rows) && Picks(rows, newest, best)
    ensures Latest(state.table, intent) == Some(newest)
    ensures BestAllowed(state.table, intent, state.clock) == Some(best)
  {
    assert IsRow(state.table, newest, intent) && IsRow(state.table, best, intent);
    assert Matches(state.table, best, intent, Allowed, state.clock);
    var latest, chosen := Latest(state.table, intent), BestAllowed(state.table, intent, state.clock);
    assert IsRow(state.table, latest.value, intent) && IsRow(state.table, chosen.value, intent);
  }

  lemma LookupSeesAllowed(state: State, caller: CallerId, intent: Intent, rows: Rows, newest: ApprovalId,
                          best: ApprovalId)
    requires Shows(state, intent, rows) && Picks(rows, newest, best) && caller !in state.callers
    ensures GoesOn(state, Lookup(caller, intent), caller, intent, SawAllowed, rows)
  {
    SweepShows(state, intent, intent, rows);
    AllowedRowIsFound(Swept(state, intent), intent, rows, newest, best);
  }

  lemma ChoosePicks(state: State, caller: CallerId, intent: Intent, rows: Rows, newest: ApprovalId, best: ApprovalId)
    requires Shows(state, intent, rows) && Picks(rows, newest, best)
    requires AtPhase(state, caller, SawAllowed) && state.callers[caller].intent == intent
    ensures GoesOn(state, Choose(caller), caller, intent, Chose(best), rows)
  {
    SweepShows(state, intent, intent, rows);
    AllowedRowIsFound(Swept(state, intent), intent, rows, newest, best);
  }

  lemma TakeAllows(state: State, caller: CallerId, intent: Intent, rows: Rows, best: ApprovalId)
    requires Shows(state, intent, rows) && best in rows && rows[best].status == Allowed
    requires AtPhase(state, caller, Chose(best)) && state.callers[caller].intent == intent
    ensures var after := Exec(state, Take(caller));
            && Given(state, Take(caller), intent) == [AnswerAllow]
            && after.callers == state.callers - {caller} && after.clock == state.clock
            && after.table.Keys == state.table.Keys
            && Shows(after, intent, Used(rows, best, state.clock))
  {
    assert IsRow(state.table, best, intent);
    var after := Exec(state, Take(caller));
    forall other ensures IsRow(after.table, other, intent) <==> other in rows {
      assert IsRow(state.table, other, intent) <==> other in rows;
    }
  }

  /* ---------- a history, statement by statement ---------- */

  /** A history so far: its steps, the state it has led to, and the answers it has given for the intent. */
  datatype Story = Story(steps: seq<Step>, state: State, answers: seq<Answer>)

  ghost predicate Told(start: State, story: Story, length: nat, intent: Intent) {
    && length == |story.steps| && AllAllowable(story.steps, intent)
    && Leads(start, story.steps, story.state, story.answers, intent)
  }

  /** Quantified over the length, so that a story is only looked into where its length is named. */
  ghost predicate Happens(start: State, story: Story, intent: Intent) {
    forall length: nat | length == |story.steps| :: Told(start, story, length, intent)
  }

  lemma Continues(start: State, story: Story, step: Step, given: seq<Answer>, intent: Intent) returns (next: Story)
    requires Happens(start, story, intent) && Allowable(step, intent) && Given(story.state, step, intent) == given
    ensures Happens(start, next, intent)
    ensures next == Story(story.steps + [step], Exec(story.state, step), story.answers + given)
  {
    assert Told(start, story, |story.steps|, intent);
    LeadsThen(start, story.steps, story.state, story.answers, step, intent);
    next := Story(story.steps + [step], Exec(story.state, step), story.answers + given);
  }

  lemma TellLookup(start: State, story: Story, caller: CallerId, intent: Intent) returns (next: Story)
    requires Happens(start, story, intent) && Shows(story.state, intent, map[]) && caller !in story.state.callers
    ensures Happens(start, next, intent) && next.answers == story.answers && Shows(next.state, intent, map[])
    ensures next.state.callers == story.state.callers[caller := Caller(intent, SawNothing)]
    ensures next.state.clock == story.state.clock && next.state.table.Keys == story.state.table.Keys
  {
    LookupGoesOn(story.state, caller, intent);
    next := Continues(start, story, Lookup(caller, intent), [], intent);
  }

  lemma TellRecheck(start: State, story: Story, caller: CallerId, intent: Intent, rows: Rows) returns (next: Story)
    requires Happens(start, story, intent) && Shows(story.state, intent, rows)
    requires caller in story.state.callers && story.state.callers[caller] == Caller(intent, SawNothing)
    requires forall id | id in rows :: rows[id].status != Pending
    ensures Happens(start, next, intent) && next.answers == story.answers && Shows(next.state, intent, rows)
    ensures next.state.callers == story.state.callers[caller := Caller(intent, FoundNoPending)]
    ensures next.state.clock == story.state.clock && next.state.table.Keys == story.state.table.Keys
  {
    RecheckGoesOn(story.state, caller, intent, rows);
    next := Continues(start, story, Recheck(caller), [], intent);
  }

  lemma TellInsert(start: State, story: Story, caller: CallerId, id: ApprovalId, intent: Intent, rows: Rows)
    returns (next: Story)
    requires Happens(start, story, intent) && Shows(story.state, intent, rows) && id !in story.state.table
    requires caller in story.state.callers && story.state.callers[caller] == Caller(intent, FoundNoPending)
    ensures Happens(start, next, intent) && next.answers == story.answers + [AnswerPending]
    ensures Shows(next.state, intent, rows[id := NewApproval(intent, story.state.clock)])
    ensures next.state.callers == story.state.callers - {caller}
    ensures next.state.clock == story.state.clock && next.state.table.Keys == story.state.table.Keys + {id}
  {
    InsertShows(story.state, caller, id, intent, rows);
    next := Continues(start, story, Insert(caller, id), [AnswerPending], intent);
  }

  function GrantedRow(row: Approval, now: int): Approval {
    row.(status := Allowed, resolvedAt := Some(now))
  }

  lemma TellGrant(start: State, story: Story, id: ApprovalId, intent: Intent, rows: Rows) returns (next: Story)
    requires Happens(start, story, intent) && Shows(story.state, intent, rows) && id in rows &&
             rows[id].status == Pending
    ensures Happens(start, next, intent) && next.answers == story.answers
    ensures Shows(next.state, intent, rows[id := GrantedRow(rows[id], story.state.clock)])
    ensures next.state.callers == story.state.callers
    ensures next.state.clock == story.state.clock && next.state.table.Keys == story.state.table.Keys
  {
    AnswerShows(story.state, id, intent, rows);
    next := Continues(start, story, Answered(id, true), [], intent);
  }

  lemma TellTick(start: State, story: Story, intent: Intent, rows: Rows) returns (next: Story)
    requires Happens(start, story, intent) && Shows(story.state, intent, rows)
    requires forall id | id in rows :: rows[id].expiresAt > story.state.clock + 1
    ensures Happens(start, next, intent) && next.answers == story.answers && Shows(next.state, intent, rows)
    ensures next.state.callers == story.state.callers && next.state.table == story.state.table
    ensures next.state.clock == story.state.clock + 1
  {
    TickShows(story.state, intent, rows);
    next := Continues(start, story, Tick(1), [], intent);
  }

  lemma TellLookupAllowed(start: State, story: Story, caller: CallerId, intent: Intent, rows: Rows, newest: ApprovalId,
                          best: ApprovalId)
    returns (next: Story)
    requires Happens(start, story, intent) && Shows(story.state, intent, rows) && Picks(rows, newest, best)
    requires caller !in story.state.callers
    ensures Happens(start, next, intent) && next.answers == story.answers && Shows(next.state, intent, rows)
    ensures next.state.callers == story.state.callers[caller := Caller(intent, SawAllowed)]
    ensures next.state.clock == story.state.clock && next.state.table.Keys == story.state.table.Keys
  {
    LookupSeesAllowed(story.state, caller, intent, rows, newest, best);
    next := Continues(start, story, Lookup(caller, intent), [], intent);
  }

  lemma TellChoose(start: State, story: Story, caller: CallerId, intent: Intent, rows: Rows, newest: ApprovalId,
                   best: ApprovalId)
    returns (next: Story)
    requires Happens(start, story, intent) && Shows(story.state, intent, rows) && Picks(rows, newest, best)
    requires caller in story.state.callers && story.state.callers[caller] == Caller(intent, SawAllowed)
    ensures Happens(start, next, intent) && next.answers == story.answers && Shows(next.state, intent, rows)
    ensures next.state.callers == story.state.callers[caller := Caller(intent, Chose(best))]
    ensures next.state.clock == story.state.clock && next.state.table.Keys == story.state.table.Keys
  {
    ChoosePicks(story.state, caller, intent, rows, newest, best);
    next := Continues(start, story, Choose(caller), [], intent);
  }

  lemma TellTake(start: State, story: Story, caller: CallerId, intent: Intent, rows: Rows, best: ApprovalId)
    returns (next: Story)
    requires Happens(start, story, intent) && Shows(story.state, intent, rows)
    requires best in rows && rows[best].status == Allowed
    requires caller in story.state.callers && story.state.callers[caller] == Caller(intent, Chose(best))
    ensures Happens(start, next, intent) && next.answers == story.answers + [AnswerAllow]
    ensures Shows(next.state, intent, Used(rows, best, story.state.clock)) &&
            next.state.callers == story.state.callers - {caller}
    ensures next.state.clock == story.state.clock && next.state.table.Keys == story.state.table.Keys
  {
    TakeAllows(story.state, caller, intent, rows, best);
    next := Continues(start, story, Take(caller), [AnswerAllow], intent);
  }

  /** A whole call that finds an allowed row: it is allowed, and the best row is used up. */
  lemma TellAsk(start: State, story: Story, caller: CallerId, intent: Intent, rows: Rows, newest: ApprovalId,
                best: ApprovalId)
    returns (next: Story)
    requires Happens(start, story, intent) && Shows(story.state, intent, rows) && Picks(rows, newest, best)
    requires caller !in story.state.callers
    ensures Happens(start, next, intent) && next.answers == story.answers + [AnswerAllow]
    ensures Shows(next.state, intent, Used(rows, best, story.state.clock)) && next.state.callers == story.state.callers
    ensures next.state.clock == story.state.clock && next.state.table.Keys == story.state.table.Keys
  {
    next := TellLookupAllowed(start, story, caller, intent, rows, newest, best);
    next := TellChoose(start, next, caller, intent, rows, newest, best);
    next := TellTake(start, next, caller, intent, rows, best);
    ComesAndGoes(story.state.callers, caller, Caller(intent, SawAllowed), Caller(intent, Chose(best)));
  }

  lemma ComesAndGoes(callers: map<CallerId, Caller>, caller: CallerId, first: Caller, second: Caller)
    ensures callers[caller := first] - {caller} == callers - {caller}
    ensures callers[caller := first][caller := second] - {caller} == callers - {caller}
    ensures caller !in callers ==> callers - {caller} == callers
  {
  }

  lemma Opening(start: State, intent: Intent) returns (story: Story)
    requires Untouched(start, intent)
    ensures Happens(start, story, intent) && story.state == start && story.answers == [] && Shows(start, intent, map[])
  {
    story := Story([], start, []);
  }

  /* ---------- both look before either inserts ---------- */

  lemma BothLookFirst(start: State, intent: Intent, callers: (CallerId, CallerId), ids: (ApprovalId, ApprovalId))
    returns (story: Story)
    requires Untouched(start, intent)
    requires callers.0 != callers.1 && callers.0 !in start.callers && callers.1 !in start.callers
    requires ids.0 != ids.1 && ids.0 !in start.table && ids.1 !in start.table
    ensures Happens(start, story, intent) && story.answers == [AnswerPending, AnswerPending]
    ensures story.state.clock == start.clock + 1
    ensures Shows(story.state, intent,
                  map[ids.0 := NewApproval(intent, start.clock), ids.1 := NewApproval(intent, start.clock + 1)])
    ensures callers.0 !in story.state.callers && callers.1 !in story.state.callers
  {
    story := Opening(start, intent);
    story := TellLookup(start, story, callers.0, intent);
    story := TellLookup(start, story, callers.1, intent);
    story := TellRecheck(start, story, callers.0, intent, map[]);
    story := TellRecheck(start, story, callers.1, intent, map[]);
    story := TellInsert(start, story, callers.0, ids.0, intent, map[]);
    var first: Rows := map[ids.0 := NewApproval(intent, start.clock)];
    story := TellTick(start, story, intent, first);
    story := TellInsert(start, story, callers.1, ids.1, intent, first);
  }

  /** Both rows are allowed, the later request first. */
  lemma GrantBoth(start: State, story: Story, ids: (ApprovalId, ApprovalId), intent: Intent, rows: Rows)
    returns (next: Story, both: Rows)
    requires Happens(start, story, intent) && Shows(story.state, intent, rows)
    requires ids.0 != ids.1 && rows.Keys == {ids.0, ids.1}
    requires forall id | id in rows :: rows[id].status == Pending && rows[id].expiresAt > story.state.clock + 1
    ensures Happens(start, next, intent) && next.answers == story.answers && Shows(next.state, intent, both)
    ensures next.state.callers == story.state.callers && both.Keys == rows.Keys
    ensures both[ids.0] == GrantedRow(rows[ids.0], story.state.clock + 1) &&
            both[ids.1] == GrantedRow(rows[ids.1], story.state.clock)
  {
    var now := story.state.clock;
    next := TellGrant(start, story, ids.1, intent, rows);
    var one := rows[ids.1 := GrantedRow(rows[ids.1], now)];
    next := TellTick(start, next, intent, one);
    next := TellGrant(start, next, ids.0, intent, one);
    both := one[ids.0 := GrantedRow(one[ids.0], now + 1)];
  }

  /** The newer request is found, the older one was answered last and is taken; then the newer one is. */
  lemma AskTwice(start: State, story: Story, callers: (CallerId, CallerId), ids: (ApprovalId, ApprovalId),
                 intent: Intent, rows: Rows)
    returns (next: Story)
    requires Happens(start, story, intent) && Shows(story.state, intent, rows)
    requires ids.0 != ids.1 && rows.Keys == {ids.0, ids.1}
    requires rows[ids.0].status == rows[ids.1].status == Allowed
    requires rows[ids.0].requestedAt < rows[ids.1].requestedAt &&
             ResolvedStamp(rows[ids.1]) < ResolvedStamp(rows[ids.0])
    requires callers.0 !in story.state.callers && callers.1 !in story.state.callers
    ensures Happens(start, next, intent) && next.answers == story.answers + [AnswerAllow] + [AnswerAllow]
  {
    assert Picks(rows, ids.1, ids.0);
    next := TellAsk(start, story, callers.0, intent, rows, ids.1, ids.0);
    var left := Used(rows, ids.0, story.state.clock);
    assert Picks(left, ids.1, ids.1);
    next := TellAsk(start, next, callers.1, intent, left, ids.1, ids.1);
  }

  /**
   Two callers that both look before either inserts leave two rows; allowed in the opposite order of their
   requests, the rows yield two allows.
  */
  lemma OverlappingLookupsAllowTwice(start: State, intent: Intent, callers: (CallerId, CallerId),
                                     ids: (ApprovalId, ApprovalId))
    returns (steps: seq<Step>)
    requires Untouched(start, intent)
    requires callers.0 != callers.1 && callers.0 !in start.callers && callers.1 !in start.callers
    requires ids.0 != ids.1 && ids.0 !in start.table && ids.1 !in start.table
    ensures AllAllowable(steps, intent)
    ensures Answers(start, steps, |steps|, intent) == [AnswerPending, AnswerPending, AnswerAllow, AnswerAllow]
    ensures !NeverTwoRows(start, steps, intent) && !AllAlone(start, steps, intent)
  {
    var story := BothLookFirst(start, intent, callers, ids);
    var rows: Rows := map[ids.0 := NewApproval(intent, start.clock), ids.1 := NewApproval(intent, start.clock + 1)];
    var both: Rows;
    story, both := GrantBoth(start, story, ids, intent, rows);
    story := AskTwice(start, story, callers, ids, intent, both);
    steps := story.steps;
    Ends(start, story, intent, [AnswerPending, AnswerPending, AnswerAllow, AnswerAllow]);
    NotSettled(start, steps, intent, 2, 3);
  }

  lemma Ends(start: State, story: Story, intent: Intent, answers: seq<Answer>)
    requires Happens(start, story, intent) && story.answers == answers
    ensures AllAllowable(story.steps, intent) && Answers(start, story.steps, |story.steps|, intent) == answers
  {
    assert Told(start, story, |story.steps|, intent);
  }

  lemma NotSettled(start: State, steps: seq<Step>, intent: Intent, i: nat, j: nat)
    requires Untouched(start, intent) && AllAllowable(steps, intent)
    requires var answers := Answers(start, steps, |steps|, intent);
             i < j < |answers| && answers[i] == AnswerAllow && answers[j] != AnswerDeny
    ensures !NeverTwoRows(start, steps, intent) && !AllAlone(start, steps, intent)
  {
    OneRowPerNativeIntentExactlyWhen(start, steps, intent);
    OneRowAndSettledExactlyWhen(start, steps, intent);
    var answers := Answers(start, steps, |steps|, intent);
    assert !Settles(answers);
  }

  /* ---------- the first is answered before the second checks again ---------- */

  /** One request is made, allowed and consumed while the other caller has looked and found nothing. */
  lemma FirstCallerIsServed(start: State, intent: Intent, callers: (CallerId, CallerId), id: ApprovalId)
    returns (story: Story, used: Rows)
    requires Untouched(start, intent)
    requires callers.0 != callers.1 && callers.0 !in start.callers && callers.1 !in start.callers && id !in start.table
    ensures Happens(start, story, intent) && story.answers == [AnswerPending, AnswerAllow]
    ensures story.state.clock == start.clock && story.state.table.Keys == start.table.Keys + {id}
    ensures Shows(story.state, intent, used) && used.Keys == {id}
    ensures used[id].status == Consumed && used[id].requestedAt == start.clock &&
            used[id].expiresAt == start.clock + APPROVAL_TTL_SECONDS
    ensures callers.0 !in story.state.callers
    ensures callers.1 in story.state.callers && story.state.callers[callers.1] == Caller(intent, SawNothing)
  {
    var row := NewApproval(intent, start.clock);
    story := Opening(start, intent);
    story := TellLookup(start, story, callers.0, intent);
    story := TellLookup(start, story, callers.1, intent);
    story := TellRecheck(start, story, callers.0, intent, map[]);
    story := TellInsert(start, story, callers.0, id, intent, map[]);
    var rows: Rows := map[][id := row];
    story := TellGrant(start, story, id, intent, rows);
    rows := rows[id := GrantedRow(row, start.clock)];
    assert Picks(rows, id, id);
    story := TellAsk(start, story, callers.0, intent, rows, id, id);
    used := Used(rows, id, start.clock);
  }

  /** The other caller finds no pending request and inserts its own, which is allowed and taken in its turn. */
  lemma SecondCallerIsServed(start: State, story: Story, intent: Intent, callers: (CallerId, CallerId),
                             ids: (ApprovalId, ApprovalId), used: Rows)
    returns (next: Story)
    requires Happens(start, story, intent) && Shows(story.state, intent, used) && used.Keys == {ids.0}
    requires ids.0 != ids.1 && ids.1 !in story.state.table && callers.0 !in story.state.callers &&
             callers.0 != callers.1
    requires callers.1 in story.state.callers && story.state.callers[callers.1] == Caller(intent, SawNothing)
    requires used[ids.0].status == Consumed && used[ids.0].requestedAt <= story.state.clock < used[ids.0].expiresAt - 1
    ensures Happens(start, next, intent) && next.answers == story.answers + [AnswerPending] + [AnswerAllow]
  {
    var rows: Rows;
    next, rows := SecondInserts(start, story, intent, callers.1, ids, used);
    next := TellGrant(start, next, ids.1, intent, rows);
    rows := rows[ids.1 := GrantedRow(rows[ids.1], next.state.clock)];
    assert Picks(rows, ids.1, ids.1);
    next := TellAsk(start, next, callers.0, intent, rows, ids.1, ids.1);
  }

  lemma SecondInserts(start: State, story: Story, intent: Intent, caller: CallerId,
                      ids: (ApprovalId, ApprovalId), used: Rows)
    returns (next: Story, rows: Rows)
    requires Happens(start, story, intent) && Shows(story.state, intent, used) && used.Keys == {ids.0}
    requires ids.0 != ids.1 && ids.1 !in story.state.table
    requires caller in story.state.callers && story.state.callers[caller] == Caller(intent, SawNothing)
    requires used[ids.0].status == Consumed && used[ids.0].expiresAt > story.state.clock + 1
    ensures Happens(start, next, intent) && next.answers == story.answers + [AnswerPending]
    ensures next.state.callers == story.state.callers - {caller}
    ensures rows.Keys == {ids.0, ids.1} && rows[ids.0] == used[ids.0]
    ensures rows[ids.1] == NewApproval(intent, story.state.clock + 1) && Shows(next.state, intent, rows)
  {
    next := TellRecheck(start, story, caller, intent, used);
    next := TellTick(start, next, intent, used);
    next := TellInsert(start, next, caller, ids.1, intent, used);
    rows := used[ids.1 := NewApproval(intent, story.state.clock + 1)];
    ComesAndGoes(story.state.callers, caller, Caller(intent, FoundNoPending), Caller(intent, FoundNoPending));
  }

  /**
   A caller looks and finds nothing; another one's request is made, allowed and consumed; the first caller
   checks for a pending request, finds none, and inserts its own. Its answer is pending after an allow, and
   once its request is allowed as well there is a second allow.
  */
  lemma LateInsertionAllowsTwice(start: State, intent: Intent, callers: (CallerId, CallerId),
                                 ids: (ApprovalId, ApprovalId))
    returns (steps: seq<Step>)
    requires Untouched(start, intent)
    requires callers.0 != callers.1 && callers.0 !in start.callers && callers.1 !in start.callers
    requires ids.0 != ids.1 && ids.0 !in start.table && ids.1 !in start.table
    ensures AllAllowable(steps, intent)
    ensures Answers(start, steps, |steps|, intent) == [AnswerPending, AnswerAllow, AnswerPending, AnswerAllow]
    ensures !NeverTwoRows(start, steps, intent) && !AllAlone(start, steps, intent)
  {
    var story, used := FirstCallerIsServed(start, intent, callers, ids.0);
    story := SecondCallerIsServed(start, story, intent, callers, ids, used);
    steps := story.steps;
    Ends(start, story, intent, [AnswerPending, AnswerAllow, AnswerPending, AnswerAllow]);
    NotSettled(start, steps, intent, 1, 3);
  }
}
