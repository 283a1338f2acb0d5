/**
 Fenced mutation leases: one row per resource, a time to live, renewal, release when the
 holder is dropped, and a token that grows with every takeover. Any number of instances
 interleave; an acquisition inserts first and reads its token back in a second query, and
 renewals and releases may come arbitrarily late.
*/
module Lease {
  import opened Wrappers

  type Resource = string
  type HandleId = string

  /** A random lease id. */
  datatype LeaseId = LeaseId(number: int)

  const LEASE_TTL_SECONDS := 30
  const LEASE_RENEW_SECONDS := 10
  const MAX_RESOURCE_KEY := 256

  datatype Holder = Holder(instance: string, lease: LeaseId)

  /** A row of mutation_leases. */
  datatype Row = Row(holder: Option<Holder>, token: int, acquiredAt: int, renewedAt: int, expiresAt: int)

  type Table = map<Resource, Row>

  /** What a MutationLease keeps in memory. */
  datatype Handle = Handle(resource: Resource, holder: Holder, token: int)

  predicate ValidResource(resource: Resource) {
    0 < |resource| <= MAX_RESOURCE_KEY && forall c <- resource :: !(c < ' ' || '\U{7F}' <= c <= '\U{9F}')
  }

  /* ---------- the four statements ---------- */

  /** The upsert takes effect: nobody has the lease, or the one who has it let it run out. */
  predicate Free(table: Table, resource: Resource, now: int) {
    resource in table ==> table[resource].holder.None? || table[resource].expiresAt <= now
  }

  function Upserted(table: Table, resource: Resource, holder: Holder, now: int): Table {
    if !Free(table, resource, now) then table
    else
      var token := if resource in table then table[resource].token + 1 else 1;
      table[resource := Row(Some(holder), token, now, now, now + LEASE_TTL_SECONDS)]
  }

  /** The row is still the handle's. */
  predicate Holds(table: Table, handle: Handle) {
    && handle.resource in table
    && table[handle.resource].holder == Some(handle.holder)
    && table[handle.resource].token == handle.token
  }

  /** assert_current. */
  predicate Current(table: Table, handle: Handle, now: int) {
    Holds(table, handle) && table[handle.resource].expiresAt > now
  }

  function Renewed(table: Table, handle: Handle, now: int): Table {
    if Current(table, handle, now)
    then table[handle.resource := table[handle.resource].(renewedAt := now, expiresAt := now + LEASE_TTL_SECONDS)]
    else table
  }

  function Released(table: Table, handle: Handle, now: int): Table {
    if Holds(table, handle)
    then table[handle.resource := table[handle.resource].(holder := None, renewedAt := now, expiresAt := 0)]
    else table
  }

  /* ---------- interleavings ---------- */

  /** An acquisition between its upsert and the query for its token. */
  datatype Claim = Claim(resource: Resource, holder: Holder)

  datatype State = State(
    now: int, table: Table, claims: map<HandleId, Claim>, handles: map<HandleId, Handle>, used: set<LeaseId>)

  datatype Step =
    | Tick(seconds: nat)
    | Upsert(id: HandleId, resource: Resource, instance: string, lease: LeaseId)
    | ReadToken(id: HandleId)
    | Renew(id: HandleId)
    | Release(id: HandleId)

  predicate Enabled(state: State, step: Step) {
    match step
    case Tick(_) => true
    case Upsert(id, resource, _, lease) =>
      ValidResource(resource) && id !in state.claims && id !in state.handles && lease !in state.used
    case ReadToken(id) => id in state.claims
    case Renew(id) => id in state.handles
    case Release(id) => id in state.handles
  }

  function HandleOf(table: Table, claim: Claim): Option<Handle> {
    if claim.resource in table && table[claim.resource].holder == Some(claim.holder)
    then Some(Handle(claim.resource, claim.holder, table[claim.resource].token))
    else None
  }

  function Exec(state: State, step: Step): State {
    if !Enabled(state, step) then state
    else match step {
      case Tick(seconds) => state.(now := state.now + seconds)
      case Upsert(id, resource, instance, lease) =>
        var claimed := state.(used := state.used + {lease});
        if Free(state.table, resource, state.now) then
          claimed.(table := Upserted(state.table, resource, Holder(instance, lease), state.now),
                   claims := state.claims[id := Claim(resource, Holder(instance, lease))])
        else claimed
      case ReadToken(id) =>
        var handle := HandleOf(state.table, state.claims[id]);
        var read := state.(claims := state.claims - {id});
        if handle.Some? then read.(handles := state.handles[id := handle.value]) else read
      case Renew(id) => state.(table := Renewed(state.table, state.handles[id], state.now))
      case Release(id) => state.(table := Released(state.table, state.handles[id], state.now))
    }
  }

  function After(state: State, steps: seq<Step>, n: nat): State
    requires n <= |steps|
  {
    if n == 0 then state else Exec(After(state, steps, n - 1), steps[n - 1])
  }

  function Initial(now: int): State {
    State(now, map[], map[], map[], {})
  }

  /* ---------- the invariant ---------- */

  /** The handle's token is at most the row's, and lower unless the row is still its own or has been let go. */
  predicate HandleSound(state: State, id: HandleId)
    requires id in state.handles
  {
    var handle := state.handles[id];
    && handle.holder.lease in state.used
    && handle.resource in state.table
    && handle.token <= state.table[handle.resource].token
    && (state.table[handle.resource].holder.Some? && state.table[handle.resource].holder != Some(handle.holder) ==>
          handle.token < state.table[handle.resource].token)
  }

  /** No two acquisitions share a lease id. */
  predicate LeasesDistinct(state: State) {
    && (forall a, b | a in state.handles && b in state.handles && a != b ::
          state.handles[a].holder.lease != state.handles[b].holder.lease)
    && (forall a, b | a in state.claims && b in state.claims && a != b ::
          state.claims[a].holder.lease != state.claims[b].holder.lease)
    && (forall a, b | a in state.claims && b in state.handles ::
          state.claims[a].holder.lease != state.handles[b].holder.lease)
  }

  predicate RowSound(state: State, resource: Resource)
    requires resource in state.table
  {
    state.table[resource].holder.Some? ==>
      && state.table[resource].holder.value.lease in state.used
      && state.table[resource].expiresAt <= state.now + LEASE_TTL_SECONDS
  }

  predicate LeasesUsed(state: State) {
    && (forall id | id in state.handles :: state.handles[id].holder.lease in state.used)
    && (forall id | id in state.claims :: state.claims[id].holder.lease in state.used)
  }

  predicate Sound(state: State) {
    && (forall id | id in state.handles :: HandleSound(state, id))
    && (forall resource | resource in state.table :: RowSound(state, resource))
    && LeasesUsed(state)
    && LeasesDistinct(state)
  }

  lemma StepKeepsHandle(state: State, step: Step, id: HandleId)
    requires Sound(state) && id in Exec(state, step).handles
    ensures HandleSound(Exec(state, step), id)
  {
    if id in state.handles {
      assert HandleSound(state, id);
    }
    if step.Upsert? && step.resource in state.table {
      assert RowSound(state, step.resource);
    }
  }

  lemma StepKeepsRow(state: State, step: Step, resource: Resource)
    requires Sound(state) && resource in Exec(state, step).table
    ensures RowSound(Exec(state, step), resource)
  {
    if resource in state.table {
      assert RowSound(state, resource);
    }
  }

  lemma StepKeepsLeasesUsed(state: State, step: Step)
    requires LeasesUsed(state)
    ensures LeasesUsed(Exec(state, step))
  {
  }

  lemma StepKeepsLeasesDistinct(state: State, step: Step)
    requires LeasesUsed(state) && LeasesDistinct(state)
    ensures LeasesDistinct(Exec(state, step))
  {
    match step {
      case Upsert(id, resource, instance, lease) =>
        assert forall a | a in state.handles :: state.handles[a].holder.lease != lease || lease in state.used;
      case ReadToken(id) =>
        assert id in state.claims && HandleOf(state.table, state.claims[id]).Some? ==>
            HandleOf(state.table, state.claims[id]).value.holder == state.claims[id].holder;
      case _ =>
    }
  }

  lemma StepKeepsSound(state: State, step: Step)
    requires Sound(state)
    ensures Sound(Exec(state, step))
  {
    var after := Exec(state, step);
    StepKeepsLeasesUsed(state, step);
    StepKeepsLeasesDistinct(state, step);
    forall id | id in after.handles ensures HandleSound(after, id) {
      StepKeepsHandle(state, step, id);
    }
    forall resource | resource in after.table ensures RowSound(after, resource) {
      StepKeepsRow(state, step, resource);
    }
  }

  lemma {:induction false} ReachableIsSound(now: int, steps: seq<Step>, n: nat)
    requires n <= |steps|
    ensures Sound(After(Initial(now), steps, n))
  {
    if n > 0 {
      ReachableIsSound(now, steps, n - 1);
      StepKeepsSound(After(Initial(now), steps, n - 1), steps[n - 1]);
    }
  }

  /** The `n`th state has this handle, and it passes its check. */
  predicate PassesAt(now: int, steps: seq<Step>, n: nat, id: HandleId)
    requires n <= |steps|
  {
    var state := After(Initial(now), steps, n);
    id in state.handles && Current(state.table, state.handles[id], state.now)
  }

  /* ---------- mutual exclusion ---------- */

  /** At any moment at most one handle of a resource passes its check. */
  lemma AtMostOneHolder(now: int, steps: seq<Step>, n: nat, a: HandleId, b: HandleId)
    requires n <= |steps| && PassesAt(now, steps, n, a) && PassesAt(now, steps, n, b)
    requires After(Initial(now), steps, n).handles[a].resource == After(Initial(now), steps, n).handles[b].resource
    ensures a == b
  {
    ReachableIsSound(now, steps, n);
  }

  /* ---------- handles over time ---------- */

  /** Handles never change. */
  lemma {:induction false} HandleStays(now: int, steps: seq<Step>, m: nat, n: nat, id: HandleId)
    requires m <= n <= |steps| && id in After(Initial(now), steps, m).handles
    ensures id in After(Initial(now), steps, n).handles
    ensures After(Initial(now), steps, n).handles[id] == After(Initial(now), steps, m).handles[id]
  {
    if m < n {
      HandleStays(now, steps, m, n - 1, id);
      HandleIsNotReplaced(now, steps, n - 1, id);
    }
  }

  predicate ClaimsAreNew(state: State) {
    forall id | id in state.claims :: id !in state.handles
  }

  lemma {:induction false} ReachableClaimsAreNew(now: int, steps: seq<Step>, n: nat)
    requires n <= |steps|
    ensures ClaimsAreNew(After(Initial(now), steps, n))
  {
    if n > 0 {
      ReachableClaimsAreNew(now, steps, n - 1);
    }
  }

  lemma HandleIsNotReplaced(now: int, steps: seq<Step>, n: nat, id: HandleId)
    requires n < |steps| && id in After(Initial(now), steps, n).handles
    ensures id in After(Initial(now), steps, n + 1).handles
    ensures After(Initial(now), steps, n + 1).handles[id] == After(Initial(now), steps, n).handles[id]
  {
    ReachableClaimsAreNew(now, steps, n);
  }

  lemma StepNeverRevives(state: State, step: Step, id: HandleId)
    requires Sound(state) && id in state.handles && !Current(state.table, state.handles[id], state.now)
    ensures !Current(Exec(state, step).table, state.handles[id], Exec(state, step).now)
  {
    assert HandleSound(state, id);
  }

  /** Once a handle fails its check - expired, released or taken over - it never passes again. */
  lemma {:induction false} LostIsLostForever(now: int, steps: seq<Step>, m: nat, n: nat, id: HandleId)
    requires m <= n <= |steps| && id in After(Initial(now), steps, m).handles && !PassesAt(now, steps, m, id)
    ensures !PassesAt(now, steps, n, id)
  {
    if m < n {
      LostIsLostForever(now, steps, m, n - 1, id);
      HandleStays(now, steps, m, n - 1, id);
      ReachableIsSound(now, steps, n - 1);
      HandleIsNotReplaced(now, steps, n - 1, id);
      StepNeverRevives(After(Initial(now), steps, n - 1), steps[n - 1], id);
    }
  }

  /** The step hands out this handle. */
  lemma NewTokenIsHighest(state: State, step: Step, id: HandleId, older: HandleId)
    requires Sound(state) && older in state.handles && id !in state.handles && id in Exec(state, step).handles
    requires state.handles[older].resource == Exec(state, step).handles[id].resource
    ensures state.handles[older].token < Exec(state, step).handles[id].token
  {
    assert HandleSound(state, older);
    assert step == ReadToken(id);
    assert state.claims[id].holder.lease != state.handles[older].holder.lease;
  }

  /** Tokens strictly increase: a handle that comes to a resource later has a higher token. */
  lemma {:induction false} TokensIncrease(now: int, steps: seq<Step>, m: nat, n: nat, older: HandleId, newer: HandleId)
    requires m <= n <= |steps|
    requires older in After(Initial(now), steps, m).handles && newer !in After(Initial(now), steps, m).handles
    requires newer in After(Initial(now), steps, n).handles
    requires After(Initial(now), steps, m).handles[older].resource ==
               After(Initial(now), steps, n).handles[newer].resource
    ensures After(Initial(now), steps, m).handles[older].token < After(Initial(now), steps, n).handles[newer].token
  {
    HandleStays(now, steps, m, n - 1, older);
    if newer in After(Initial(now), steps, n - 1).handles {
      HandleIsNotReplaced(now, steps, n - 1, newer);
      TokensIncrease(now, steps, m, n - 1, older, newer);
    } else {
      ReachableIsSound(now, steps, n - 1);
      NewTokenIsHighest(After(Initial(now), steps, n - 1), steps[n - 1], newer, older);
    }
  }

  /** The row's token never falls. */
  lemma {:induction false} RowTokenNeverFalls(now: int, steps: seq<Step>, m: nat, n: nat, resource: Resource)
    requires m <= n <= |steps| && resource in After(Initial(now), steps, m).table
    ensures resource in After(Initial(now), steps, n).table
    ensures After(Initial(now), steps, m).table[resource].token <= After(Initial(now), steps, n).table[resource].token
  {
    if m < n {
      RowTokenNeverFalls(now, steps, m, n - 1, resource);
    }
  }

  /** A renewal or release by a handle that has a successor changes nothing, however late it comes. */
  lemma LateCallsLeaveSuccessorAlone(now: int, steps: seq<Step>, m: nat, n: nat, older: HandleId, newer: HandleId)
    requires m <= n <= |steps|
    requires older in After(Initial(now), steps, m).handles && newer !in After(Initial(now), steps, m).handles
    requires newer in After(Initial(now), steps, n).handles
    requires After(Initial(now), steps, m).handles[older].resource ==
               After(Initial(now), steps, n).handles[newer].resource
    ensures Exec(After(Initial(now), steps, n), Renew(older)) == After(Initial(now), steps, n)
    ensures Exec(After(Initial(now), steps, n), Release(older)) == After(Initial(now), steps, n)
  {
    TokensIncrease(now, steps, m, n, older, newer);
    HandleStays(now, steps, m, n, older);
    ReachableIsSound(now, steps, n);
    assert HandleSound(After(Initial(now), steps, n), newer);
  }

  /* ---------- the holder is left alone ---------- */

  lemma StepLeavesHolder(state: State, step: Step, id: HandleId)
    requires Sound(state) && id in state.handles && Current(state.table, state.handles[id], state.now)
    requires step != Release(id)
    ensures Holds(Exec(state, step).table, state.handles[id])
    ensures Exec(state, step).table[state.handles[id].resource].expiresAt >=
            state.table[state.handles[id].resource].expiresAt
  {
    var handle := state.handles[id];
    assert RowSound(state, handle.resource);
    if (step.Renew? || step.Release?) && step.id in state.handles && step.id != id {
      assert state.handles[step.id].holder.lease != handle.holder.lease;
    }
  }

  lemma {:induction false} ClockNeverRunsBack(now: int, steps: seq<Step>, m: nat, n: nat)
    requires m <= n <= |steps|
    ensures After(Initial(now), steps, m).now <= After(Initial(now), steps, n).now
  {
    if m < n {
      ClockNeverRunsBack(now, steps, m, n - 1);
    }
  }

  /** Until its time is up or it is released, nothing anybody else does takes a lease away. */
  lemma {:induction false} HolderIsUndisturbed(now: int, steps: seq<Step>, m: nat, n: nat, id: HandleId)
    requires m <= n <= |steps| && PassesAt(now, steps, m, id)
    requires forall k | m <= k < n :: steps[k] != Release(id)
    requires var before := After(Initial(now), steps, m);
             After(Initial(now), steps, n).now < before.table[before.handles[id].resource].expiresAt
    ensures PassesAt(now, steps, n, id)
    ensures var before, after := After(Initial(now), steps, m), After(Initial(now), steps, n);
            before.table[before.handles[id].resource].expiresAt <= after.table[after.handles[id].resource].expiresAt
    ensures After(Initial(now), steps, n).handles[id] == After(Initial(now), steps, m).handles[id]
  {
    if m < n {
      ClockNeverRunsBack(now, steps, n - 1, n);
      HolderIsUndisturbed(now, steps, m, n - 1, id);
      ReachableIsSound(now, steps, n - 1);
      HandleIsNotReplaced(now, steps, n - 1, id);
      StepLeavesHolder(After(Initial(now), steps, n - 1), steps[n - 1], id);
    }
  }

  /**
   Once its upsert and its query have run, an acquisition has a handle exactly when nobody had the resource or the
   one who had it let the lease run out; the handle passes, and its token is one higher.
  */
  lemma TakeoverSucceedsExactlyWhen(state: State, id: HandleId, resource: Resource, instance: string, lease: LeaseId)
    requires Enabled(state, Upsert(id, resource, instance, lease))
    ensures var after := Exec(Exec(state, Upsert(id, resource, instance, lease)), ReadToken(id));
            var taken := resource in state.table && state.table[resource].holder.Some?;
            && (id in after.handles <==> !taken || state.table[resource].expiresAt <= state.now)
            && (id in after.handles ==>
                  && Current(after.table, after.handles[id], after.now)
                  && after.handles[id].resource == resource && after.handles[id].holder == Holder(instance, lease)
                  && after.table[resource].expiresAt == state.now + 30
                  && (resource in state.table ==> after.handles[id].token == state.table[resource].token + 1))
            && (id !in after.handles ==> after.table == state.table)
  {
  }

  /* ---------- the store ---------- */

  datatype LeaseError = BadResource | Busy | Lost

  class LeaseStore {
    var now: int
    var table: Table
    var used: set<LeaseId>

    constructor (start: int)
      ensures now == start && table == map[] && used == {}
    {
      now, table, used := start, map[], {};
    }

    /** acquire: it fails exactly when somebody holds the resource and has not let the lease run out. */
    method Acquire(resource: Resource, instance: string, lease: LeaseId) returns (outcome: Result<Handle, LeaseError>)
      requires lease !in used
      modifies this`table, this`used
      ensures !ValidResource(resource) <==> outcome == Failure(BadResource)
      ensures outcome == Failure(Busy) <==>
                && ValidResource(resource) && resource in old(table)
                && old(table)[resource].holder.Some? && old(table)[resource].expiresAt > now
      ensures outcome.Failure? ==> table == old(table)
      ensures outcome.Success? ==>
                && table == Upserted(old(table), resource, Holder(instance, lease), now)
                && HandleOf(table, Claim(resource, Holder(instance, lease))) == Some(outcome.value)
                && Current(table, outcome.value, now)
      ensures outcome.Success? ==>
                var token := if resource in old(table) then old(table)[resource].token + 1 else 1;
                && outcome.value == Handle(resource, Holder(instance, lease), token)
                && table == old(table)[resource := Row(Some(Holder(instance, lease)), token, now, now, now + 30)]
    {
      if !ValidResource(resource) {
        return Failure(BadResource);
      }
      used := used + {lease};
      var holder := Holder(instance, lease);
      if resource !in table {
        table := table[resource := Row(Some(holder), 1, now, now, now + LEASE_TTL_SECONDS)];
      } else if table[resource].holder.None? || table[resource].expiresAt <= now {
        table := table[resource := Row(Some(holder), table[resource].token + 1, now, now, now + LEASE_TTL_SECONDS)];
      } else {
        return Failure(Busy);
      }
      outcome := Success(Handle(resource, holder, table[resource].token));
    }

    method AssertCurrent(handle: Handle) returns (outcome: Result<(), LeaseError>)
      ensures outcome == if Current(table, handle, now) then Success(()) else Failure(Lost)
    {
      if Current(table, handle, now) {
        return Success(());
      }
      outcome := Failure(Lost);
    }

    method Renew(handle: Handle) returns (renewed: bool)
      modifies this`table
      ensures table == Renewed(old(table), handle, now)
      ensures renewed <==> Current(old(table), handle, now)
      ensures renewed ==>
                var row := old(table)[handle.resource];
                table == old(table)[handle.resource := row.(renewedAt := now, expiresAt := now + 30)]
    {
      renewed := Current(table, handle, now);
      if renewed {
        table :=
          table[handle.resource := table[handle.resource].(renewedAt := now, expiresAt := now + LEASE_TTL_SECONDS)];
      }
    }

    method Release(handle: Handle)
      modifies this`table
      ensures table == Released(old(table), handle, now)
      ensures !Holds(table, handle) && (handle.resource in table <==> handle.resource in old(table))
      ensures Holds(old(table), handle) ==> Free(table, handle.resource, now)
      ensures forall other | other in old(table) :: other in table && table[other].token == old(table)[other].token
      ensures forall other | other in old(table) && other != handle.resource :: table[other] == old(table)[other]
    {
      if Holds(table, handle) {
        table := table[handle.resource := table[handle.resource].(holder := None, renewedAt := now, expiresAt := 0)];
      }
    }

    /**
     The renewal task, woken every ten seconds or, under load, `delays[i]` seconds late. It stops at the
     first renewal that comes after the lease ran out, which no delay below the slack of 20 seconds causes.
    */
    method RenewalLoop(handle: Handle, delays: seq<nat>) returns (rounds: nat)
      requires Current(table, handle, now) && table[handle.resource].expiresAt == now + LEASE_TTL_SECONDS
      modifies this`now, this`table
      ensures rounds <= |delays|
      ensures forall i | 0 <= i < rounds :: delays[i] < LEASE_TTL_SECONDS - LEASE_RENEW_SECONDS
      ensures rounds < |delays| ==>
                && delays[rounds] >= LEASE_TTL_SECONDS - LEASE_RENEW_SECONDS
                && Holds(table, handle) && !Current(table, handle, now)
      ensures rounds == |delays| ==>
                Current(table, handle, now) && table[handle.resource].expiresAt == now + LEASE_TTL_SECONDS
    {
      rounds := 0;
      while rounds < |delays|
        invariant rounds <= |delays|
        invariant Current(table, handle, now) && table[handle.resource].expiresAt == now + LEASE_TTL_SECONDS
        invariant forall i | 0 <= i < rounds :: delays[i] < LEASE_TTL_SECONDS - LEASE_RENEW_SECONDS
      {
        now := now + LEASE_RENEW_SECONDS + delays[rounds];
        var renewed := Renew(handle);
        if !renewed {
          break;
        }
        rounds := rounds + 1;
      }
    }
  }
}
