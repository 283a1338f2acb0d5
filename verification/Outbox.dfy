/**
 The callback outbox: rows claimed one at a time by the worker, delivered, retried with
 growing delays, given up after five attempts, and picked up again after a crash.

 `claims` and `interrupts` are history, both since the row's last manual retry: how often
 it was claimed, and how often a restart found it still being delivered.
*/
module Outbox {
  import opened Wrappers

  /** The integer primary key. */
  datatype RowId = RowId(number: int)

  const MAX_ATTEMPTS := 5
  const BASE_DELAY_SECONDS := 2
  const MAX_DELAY_SECONDS := 300

  datatype Status = Pending | Delivering | Delivered | Failed

  /** A row of callback_outbox. */
  datatype Row = Row(status: Status, attempts: int, nextAttemptAt: int)

  type Table = map<RowId, Row>

  /** The row as the worker read it back after claiming it. */
  datatype Ticket = Ticket(id: RowId, attempts: int)

  datatype State = State(
    now: int, table: Table, worker: Option<Ticket>, claims: map<RowId, nat>, interrupts: map<RowId, nat>)

  datatype Step =
    | Tick(seconds: nat)
    | Enqueue(id: RowId)
    | ClaimDue(id: RowId)
    | Persist(success: bool)
    | PersistFails
    | Restart
    | RetryFailed(id: RowId)

  /* ---------- the delay ---------- */

  function Pow2(n: nat): nat {
    if n == 0 then 1 else 2 * Pow2(n - 1)
  }

  function Clamp(x: int, low: int, high: int): int {
    if x < low then low else if x > high then high else x
  }

  /** retry_delay. */
  function RetryDelay(attempts: int): int {
    Min(BASE_DELAY_SECONDS * Pow2(Clamp(attempts - 1, 0, 8)), MAX_DELAY_SECONDS)
  }

  lemma {:induction false} Pow2Grows(m: nat, n: nat)
    requires m <= n
    ensures Pow2(m) <= Pow2(n)
  {
    if m < n {
      Pow2Grows(m, n - 1);
    }
  }

  /** Doubling from two seconds, capped; the closed form holds from the first attempt on. */
  lemma RetryDelayClosedFormExactlyWhen(attempts: nat)
    ensures RetryDelay(attempts) == Min(Pow2(Min(attempts, 9)), MAX_DELAY_SECONDS) <==> attempts >= 1
  {
    if attempts >= 1 {
      assert Pow2(Min(attempts, 9)) == 2 * Pow2(Clamp(attempts - 1, 0, 8));
    }
  }

  lemma RetryDelayIsMonotone(a: int, b: int)
    requires a <= b
    ensures RetryDelay(a) <= RetryDelay(b)
  {
    Pow2Grows(Clamp(a - 1, 0, 8), Clamp(b - 1, 0, 8));
  }

  /** The delays that are ever used double without reaching the cap. */
  lemma DelaysInUse(attempts: int)
    requires 1 <= attempts < MAX_ATTEMPTS
    ensures RetryDelay(attempts) == Pow2(attempts) <= 16
  {
    assert Pow2(4) == 16;
    Pow2Grows(attempts, 4);
  }

  /* ---------- the statements ---------- */

  predicate Due(table: Table, id: RowId, now: int) {
    id in table && table[id].status == Pending && table[id].nextAttemptAt <= now
  }

  /** ORDER BY id LIMIT 1. */
  predicate IsFirstDue(table: Table, id: RowId, now: int) {
    Due(table, id, now) && forall other | other in table && Due(table, other, now) :: id.number <= other.number
  }

  function Claimed(row: Row): Row {
    row.(status := Delivering, attempts := row.attempts + 1)
  }

  /** persist_outcome: it overwrites the row whatever its status. */
  function Settled(row: Row, ticket: Ticket, success: bool, now: int): Row {
    if success then row.(status := Delivered)
    else if ticket.attempts >= MAX_ATTEMPTS then row.(status := Failed)
    else row.(status := Pending, nextAttemptAt := now + RetryDelay(ticket.attempts))
  }

  /** configure_runtime at startup. */
  function Recovered(row: Row, now: int): Row {
    if row.status == Delivering then row.(status := Pending, nextAttemptAt := now) else row
  }

  function Retried(row: Row, now: int): Row {
    if row.status == Failed then Row(Pending, 0, now) else row
  }

  predicate Enabled(state: State, step: Step) {
    match step
    case Enqueue(id) => id !in state.table
    case ClaimDue(id) => state.worker.None? && IsFirstDue(state.table, id, state.now)
    case Persist(_) => state.worker.Some? && state.worker.value.id in state.table
    case PersistFails => state.worker.Some?
    case RetryFailed(id) => id in state.table && state.table[id].status == Failed
    case _ => true
  }

  function CountOf(counts: map<RowId, nat>, id: RowId): nat {
    if id in counts then counts[id] else 0
  }

  function Exec(state: State, step: Step): State {
    if !Enabled(state, step) then state
    else match step {
      case Tick(seconds) => state.(now := state.now + seconds)
      case Enqueue(id) =>
        state.(table := state.table[id := Row(Pending, 0, 0)],
               claims := state.claims[id := 0], interrupts := state.interrupts[id := 0])
      case ClaimDue(id) =>
        state.(table := state.table[id := Claimed(state.table[id])],
               worker := Some(Ticket(id, state.table[id].attempts + 1)),
               claims := state.claims[id := CountOf(state.claims, id) + 1])
      case Persist(success) =>
        var ticket := state.worker.value;
        state.(table := state.table[ticket.id := Settled(state.table[ticket.id], ticket, success, state.now)],
               worker := None)
      case PersistFails => state.(worker := None)
      case Restart =>
        state.(table := map id | id in state.table :: Recovered(state.table[id], state.now),
               worker := None,
               interrupts := map id | id in state.table ::
                 CountOf(state.interrupts, id) + if state.table[id].status == Delivering then 1 else 0)
      case RetryFailed(id) =>
        state.(table := state.table[id := Retried(state.table[id], state.now)],
               claims := state.claims[id := 0], interrupts := state.interrupts[id := 0])
    }
  }

  function After(state: State, steps: seq<Step>, n: nat): State
    requires n <= |steps|
  {
    if n == 0 then state else Exec(After(state, steps, n - 1), steps[n - 1])
  }

  function Initial(now: int): State {
    State(now, map[], None, map[], map[])
  }

  /* ---------- attempts are bounded ---------- */

  /** Attempts count the claims, and each claim beyond the fifth was paid for by an interruption. */
  predicate RowSound(row: Row, claims: nat, interrupts: nat) {
    && row.attempts == claims
    && row.attempts <= (if row.status == Pending then MAX_ATTEMPTS - 1 else MAX_ATTEMPTS) + interrupts
    && (row.status == Delivering || row.status == Delivered ==> row.attempts >= 1)
    && (row.status == Failed ==> row.attempts >= MAX_ATTEMPTS)
  }

  predicate WorkerSound(state: State) {
    state.worker.Some? ==>
      && state.worker.value.id in state.table
      && state.table[state.worker.value.id].status == Delivering
      && state.table[state.worker.value.id].attempts == state.worker.value.attempts
  }

  predicate Sound(state: State) {
    && WorkerSound(state)
    && forall id | id in state.table ::
         RowSound(state.table[id], CountOf(state.claims, id), CountOf(state.interrupts, id))
  }

  lemma StepKeepsRow(state: State, step: Step, id: RowId)
    requires Sound(state) && id in Exec(state, step).table
    ensures var after := Exec(state, step);
            RowSound(after.table[id], CountOf(after.claims, id), CountOf(after.interrupts, id))
  {
    if id in state.table {
      assert RowSound(state.table[id], CountOf(state.claims, id), CountOf(state.interrupts, id));
    }
  }

  lemma StepKeepsWorker(state: State, step: Step)
    requires Sound(state)
    ensures WorkerSound(Exec(state, step))
  {
  }

  lemma {:induction false} ReachableIsSound(now: int, steps: seq<Step>, n: nat)
    requires n <= |steps|
    ensures Sound(After(Initial(now), steps, n))
  {
    if n > 0 {
      ReachableIsSound(now, steps, n - 1);
      var before, step := After(Initial(now), steps, n - 1), steps[n - 1];
      StepKeepsWorker(before, step);
      var after := Exec(before, step);
      forall id | id in after.table
        ensures RowSound(after.table[id], CountOf(after.claims, id), CountOf(after.interrupts, id))
      {
        StepKeepsRow(before, step, id);
      }
    }
  }

  /** A row is attempted at most five times, plus once for every delivery that a crash interrupted. */
  lemma AttemptsAreBounded(now: int, steps: seq<Step>, n: nat, id: RowId)
    requires n <= |steps| && id in After(Initial(now), steps, n).table
    ensures var state := After(Initial(now), steps, n);
            && state.table[id].attempts == CountOf(state.claims, id)
            && CountOf(state.claims, id) <= MAX_ATTEMPTS + CountOf(state.interrupts, id)
            && (state.table[id].status == Failed ==> CountOf(state.claims, id) >= MAX_ATTEMPTS)
  {
    ReachableIsSound(now, steps, n);
    var state := After(Initial(now), steps, n);
    assert RowSound(state.table[id], CountOf(state.claims, id), CountOf(state.interrupts, id));
  }

  /* ---------- delivered is final ---------- */

  lemma StepKeepsDelivered(state: State, step: Step, id: RowId)
    requires Sound(state) && id in state.table && state.table[id].status == Delivered
    ensures id in Exec(state, step).table && Exec(state, step).table[id] == state.table[id]
  {
  }

  /** Nothing ever changes a delivered row again: no crash, no retry, no later attempt. */
  lemma {:induction false} DeliveredIsFinal(now: int, steps: seq<Step>, m: nat, n: nat, id: RowId)
    requires m <= n <= |steps|
    requires id in After(Initial(now), steps, m).table && After(Initial(now), steps, m).table[id].status == Delivered
    ensures id in After(Initial(now), steps, n).table
    ensures After(Initial(now), steps, n).table[id] == After(Initial(now), steps, m).table[id]
  {
    if m < n {
      DeliveredIsFinal(now, steps, m, n - 1, id);
      ReachableIsSound(now, steps, n - 1);
      StepKeepsDelivered(After(Initial(now), steps, n - 1), steps[n - 1], id);
    }
  }

  /**
   It rests on there being one worker. Persisting has no guard on the status: a second worker, left over
   with a ticket from before a restart, leaves a delivered row delivered exactly when it succeeded as well.
  */
  lemma LeftoverTicketKeepsDeliveredExactlyWhen(row: Row, ticket: Ticket, success: bool, now: int)
    requires row.status == Delivered
    ensures Settled(row, ticket, success, now) == row <==> success
  {
  }

  /* ---------- every row is settled ---------- */

  predicate Open(row: Row) {
    row.status == Pending || row.status == Delivering
  }

  /** How many claims and outcomes the row is still good for. */
  function Remaining(row: Row): int {
    match row.status
    case Pending => 2 * (MAX_ATTEMPTS - row.attempts)
    case Delivering => if row.attempts >= MAX_ATTEMPTS then 1 else 2 * (MAX_ATTEMPTS - row.attempts) + 1
    case _ => 0
  }

  /** The step claims the row or records how its attempt ended. */
  predicate WorksOn(state: State, step: Step, id: RowId) {
    Enabled(state, step) && ((step.ClaimDue? && step.id == id) || (step.Persist? && state.worker.value.id == id))
  }

  /** A restart, a lost outcome, or somebody retrying the row by hand. */
  predicate Disturbs(step: Step, id: RowId) {
    step.Restart? || step.PersistFails? || (step.RetryFailed? && step.id == id)
  }

  lemma StepWorksOff(state: State, step: Step, id: RowId)
    requires Sound(state) && id in state.table && !Disturbs(step, id)
    requires state.table[id].attempts <= if state.table[id].status == Pending then MAX_ATTEMPTS - 1 else MAX_ATTEMPTS
    ensures id in Exec(state, step).table
    ensures var row := Exec(state, step).table[id];
            && row.attempts <= (if row.status == Pending then MAX_ATTEMPTS - 1 else MAX_ATTEMPTS)
            && 0 <= Remaining(row) <= Remaining(state.table[id]) - if WorksOn(state, step, id) then 1 else 0
  {
  }

  /** How often the worker worked on the row between two points. */
  function WorkBetween(state: State, steps: seq<Step>, m: nat, n: nat, id: RowId): nat
    requires m <= n <= |steps|
  {
    if m == n then 0
    else
      var earlier := WorkBetween(state, steps, m, n - 1, id);
      if WorksOn(After(state, steps, n - 1), steps[n - 1], id) then earlier + 1 else earlier
  }

  /** Undisturbed, every claim and every outcome brings the row strictly closer to being settled. */
  lemma {:induction false} WorkSettlesRow(now: int, steps: seq<Step>, m: nat, n: nat, id: RowId)
    requires m <= n <= |steps| && id in After(Initial(now), steps, m).table
    requires forall k | m <= k < n :: !Disturbs(steps[k], id)
    requires CountOf(After(Initial(now), steps, m).interrupts, id) == 0
    ensures id in After(Initial(now), steps, n).table
    ensures var row := After(Initial(now), steps, n).table[id];
            && row.attempts <= (if row.status == Pending then MAX_ATTEMPTS - 1 else MAX_ATTEMPTS)
            && 0 <= Remaining(row)
            && Remaining(row) + WorkBetween(Initial(now), steps, m, n, id) <=
                 Remaining(After(Initial(now), steps, m).table[id])
  {
    ReachableIsSound(now, steps, m);
    var start := After(Initial(now), steps, m);
    assert RowSound(start.table[id], CountOf(start.claims, id), CountOf(start.interrupts, id));
    if m < n {
      WorkSettlesRow(now, steps, m, n - 1, id);
      ReachableIsSound(now, steps, n - 1);
      StepWorksOff(After(Initial(now), steps, n - 1), steps[n - 1], id);
    }
  }

  /** So after five claims and five outcomes at the latest it is delivered or failed. */
  lemma FiveAttemptsSettle(now: int, steps: seq<Step>, m: nat, n: nat, id: RowId)
    requires m <= n <= |steps| && id in After(Initial(now), steps, m).table
    requires forall k | m <= k < n :: !Disturbs(steps[k], id)
    requires CountOf(After(Initial(now), steps, m).interrupts, id) == 0
    requires WorkBetween(Initial(now), steps, m, n, id) >= 2 * MAX_ATTEMPTS
    ensures id in After(Initial(now), steps, n).table && !Open(After(Initial(now), steps, n).table[id])
  {
    WorkSettlesRow(now, steps, m, n, id);
    ReachableIsSound(now, steps, m);
    var start := After(Initial(now), steps, m);
    assert RowSound(start.table[id], CountOf(start.claims, id), CountOf(start.interrupts, id));
  }

  /* ---------- the delay is kept ---------- */

  lemma StepKeepsWaiting(state: State, step: Step, id: RowId)
    requires Sound(state) && id in state.table && state.table[id].status == Pending &&
             state.now < state.table[id].nextAttemptAt
    ensures id in Exec(state, step).table && Exec(state, step).table[id] == state.table[id]
  {
  }

  lemma {:induction false} ClockNeverRunsBack(now: int, steps: seq<Step>, m: nat, n: nat)
    requires m <= n <= |steps|
    ensures After(Initial(now), steps, m).now <= After(Initial(now), steps, n).now
  {
    if m < n {
      ClockNeverRunsBack(now, steps, m, n - 1);
    }
  }

  /** Until its time has come a waiting row is left alone, restarts included. */
  lemma {:induction false} DelayIsKept(now: int, steps: seq<Step>, m: nat, n: nat, id: RowId)
    requires 1 <= m <= n <= |steps|
    requires id in After(Initial(now), steps, m).table && After(Initial(now), steps, m).table[id].status == Pending
    requires After(Initial(now), steps, n - 1).now < After(Initial(now), steps, m).table[id].nextAttemptAt
    ensures id in After(Initial(now), steps, n).table
    ensures After(Initial(now), steps, n).table[id] == After(Initial(now), steps, m).table[id]
  {
    if m < n {
      ClockNeverRunsBack(now, steps, n - 2, n - 1);
      DelayIsKept(now, steps, m, n - 1, id);
      ReachableIsSound(now, steps, n - 1);
      StepKeepsWaiting(After(Initial(now), steps, n - 1), steps[n - 1], id);
    }
  }

  /** What the outcome of an attempt leaves in its row, given how often the row has been attempted. */
  ghost predicate OutcomeKept(before: Row, after: Row, success: bool, now: int) {
    && after.attempts == before.attempts
    && (success ==> after.status == Delivered)
    && (!success && before.attempts >= 5 ==> after.status == Failed)
    && (!success && 1 <= before.attempts < 5 ==>
          after.status == Pending && after.nextAttemptAt == now + [2, 4, 8, 16][before.attempts - 1])
  }

  lemma SettledIsKept(row: Row, ticket: Ticket, success: bool, now: int)
    requires ticket.attempts == row.attempts
    ensures OutcomeKept(row, Settled(row, ticket, success, now), success, now)
  {
    if 1 <= row.attempts < 5 {
      DelaysInUse(row.attempts);
      assert Pow2(1) == 2 && Pow2(2) == 4 && Pow2(3) == 8 && Pow2(4) == 16;
    }
  }

  /**
   In every reachable state: a success delivers the row for good, a fifth failure ends it, and after an earlier one
   the row comes due again exactly when two, four, eight or sixteen seconds have passed. No other row is touched.
  */
  lemma OutcomeDecidesNextAttempt(now: int, steps: seq<Step>, n: nat, success: bool)
    requires n <= |steps| && After(Initial(now), steps, n).worker.Some?
    ensures var before := After(Initial(now), steps, n); var id := before.worker.value.id;
            var after := Exec(before, Persist(success));
            && id in before.table && after.table == before.table[id := after.table[id]]
            && OutcomeKept(before.table[id], after.table[id], success, before.now)
            && before.table[id].attempts >= 1
            && forall t: int | !success && before.table[id].attempts < 5 ::
                 Due(after.table, id, t) <==> t - before.now >= [2, 4, 8, 16][before.table[id].attempts - 1]
  {
    ReachableIsSound(now, steps, n);
    var before := After(Initial(now), steps, n);
    var ticket := before.worker.value;
    assert RowSound(before.table[ticket.id], CountOf(before.claims, ticket.id), CountOf(before.interrupts, ticket.id));
    SettledIsKept(before.table[ticket.id], ticket, success, before.now);
  }

  /* ---------- the store ---------- */

  class OutboxStore {
    var now: int
    var table: Table
    var worker: Option<Ticket>
    ghost var claims: map<RowId, nat>
    ghost var interrupts: map<RowId, nat>

    ghost function Rows(): State
      reads this
    {
      State(now, table, worker, claims, interrupts)
    }

    constructor (start: int)
      ensures Rows() == Initial(start)
    {
      now, table, worker, claims, interrupts := start, map[], None, map[], map[];
    }

    method Tick(seconds: nat)
      modifies this`now
      ensures Rows() == Exec(old(Rows()), Step.Tick(seconds))
    {
      now := now + seconds;
    }

    /** The triggers' INSERT OR IGNORE: due at once, unless the event has its row already. */
    method Enqueue(id: RowId) returns (added: bool)
      modifies this`table, this`claims, this`interrupts
      ensures added <==> id !in old(table)
      ensures added ==> table == old(table)[id := Row(Pending, 0, 0)] && (0 <= now ==> Due(table, id, now))
      ensures Rows() == Exec(old(Rows()), Step.Enqueue(id))
    {
      added := id !in table;
      if added {
        table := table[id := Row(Pending, 0, 0)];
        claims := claims[id := 0];
        interrupts := interrupts[id := 0];
      }
    }

    /** claim_due: the first due row, if there is one. */
    method Claim() returns (ticket: Option<Ticket>)
      requires worker.None?
      modifies this`table, this`worker, this`claims
      ensures ticket == worker
      ensures ticket.None? ==> Rows() == old(Rows()) && forall id | id in table :: !Due(table, id, now)
      ensures ticket.Some? ==> IsFirstDue(old(table), ticket.value.id, now)
      ensures ticket.Some? ==> Rows() == Exec(old(Rows()), ClaimDue(ticket.value.id))
      ensures ticket.Some? ==>
                var row := old(table)[ticket.value.id];
                && ticket.value.attempts == row.attempts + 1
                && table == old(table)[ticket.value.id := Row(Delivering, row.attempts + 1, row.nextAttemptAt)]
    {
      ticket := None;
      var first: Option<RowId> := None;
      var todo := table.Keys;
      while todo != {}
        invariant todo <= table.Keys
        invariant first.Some? ==>
                    && first.value in table && Due(table, first.value, now)
                    && forall other | other in table.Keys - todo && Due(table, other, now) ::
                         first.value.number <= other.number
        invariant first.None? ==> forall other | other in table.Keys - todo :: !Due(table, other, now)
        decreases todo
      {
        var id :| id in todo;
        if Due(table, id, now) && (first.None? || id.number < first.value.number) {
          first := Some(id);
        }
        todo := todo - {id};
      }
      if first.Some? {
        var id := first.value;
        assert IsFirstDue(table, id, now);
        table := table[id := table[id].(status := Delivering, attempts := table[id].attempts + 1)];
        claims := claims[id := CountOf(claims, id) + 1];
        ticket := Some(Ticket(id, table[id].attempts));
        worker := ticket;
      }
    }

    /** persist_outcome. */
    method PersistOutcome(success: bool)
      requires worker.Some? && worker.value.id in table
      modifies this`table, this`worker
      ensures Rows() == Exec(old(Rows()), Persist(success))
      ensures worker.None? && var id := old(worker).value.id; id in table && table == old(table)[id := table[id]]
      ensures old(table)[old(worker).value.id].attempts == old(worker).value.attempts ==>
                OutcomeKept(old(table)[old(worker).value.id], table[old(worker).value.id], success, now)
    {
      if table[worker.value.id].attempts == worker.value.attempts {
        SettledIsKept(table[worker.value.id], worker.value, success, now);
      }
      var ticket := worker.value;
      var row := table[ticket.id];
      if success {
        table := table[ticket.id := row.(status := Delivered)];
      } else if ticket.attempts >= MAX_ATTEMPTS {
        table := table[ticket.id := row.(status := Failed)];
      } else {
        var delay := RetryDelay(ticket.attempts);
        table := table[ticket.id := row.(status := Pending, nextAttemptAt := now + delay)];
      }
      worker := None;
    }

    /** The update failed: the worker goes on, and the row stays as it was claimed. */
    method LoseOutcome()
      requires worker.Some?
      modifies this`worker
      ensures Rows() == Exec(old(Rows()), PersistFails) && table == old(table)
    {
      worker := None;
    }

    /** configure_runtime: a new process finds what the old one was delivering. */
    method ConfigureRuntime()
      modifies this`table, this`worker, this`interrupts
      ensures Rows() == Exec(old(Rows()), Restart)
      ensures worker.None? && table.Keys == old(table).Keys
      ensures forall id | id in table ::
                table[id] == if old(table)[id].status == Delivering
                             then Row(Pending, old(table)[id].attempts, now) else old(table)[id]
    {
      var todo := table.Keys;
      ghost var before := Rows();
      while todo != {}
        invariant todo <= table.Keys == old(table).Keys
        invariant forall id | id in table ::
            table[id] == if id in todo then old(table)[id] else Recovered(old(table)[id], now)
        decreases todo
      {
        var id :| id in todo;
        if table[id].status == Delivering {
          table := table[id := table[id].(status := Pending, nextAttemptAt := now)];
        }
        todo := todo - {id};
      }
      worker := None;
      interrupts := Exec(before, Restart).interrupts;
      assert table == Exec(before, Restart).table;
    }

    /** retry_failed: only a failed delivery can be retried by hand. */
    method Retry(id: RowId) returns (retried: bool)
      modifies this`table, this`claims, this`interrupts
      ensures retried <==> id in old(table) && old(table)[id].status == Failed
      ensures table == if retried then old(table)[id := Row(Pending, 0, now)] else old(table)
      ensures Rows() == Exec(old(Rows()), RetryFailed(id))
    {
      retried := id in table && table[id].status == Failed;
      if retried {
        table := table[id := Row(Pending, 0, now)];
        claims := claims[id := 0];
        interrupts := interrupts[id := 0];
      }
    }
  }
}
