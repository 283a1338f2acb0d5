/**
 One-shot approvals: a pending request for one exact intent is answered once, expires,
 and can be consumed at most once.
*/
module Approvals {
  import opened Wrappers

  /** A random id; `order` is its place in the database's ordering of ids. */
  datatype ApprovalId = ApprovalId(order: int)

  const APPROVAL_TTL_SECONDS := 300

  /** A JSON argument value: a string, or anything else in its serialized form. */
  datatype Json = Text(text: string) | Other(serialized: string)

  type Arguments = map<string, Json>

  /** The seven fields an approval is bound to. The argument digest is taken to be injective. */
  datatype Intent = Intent(
    run: string, principal: string, workspace: string, tool: string, capability: string,
    arguments: Option<Arguments>, head: string)

  datatype Status = Pending | Allowed | Denied | Consumed | Expired

  /** A row of harness_approvals. */
  datatype Approval = Approval(
    intent: Intent, status: Status, requestedAt: int, expiresAt: int, resolvedAt: Option<int>, consumedAt: Option<int>)

  type Table = map<ApprovalId, Approval>

  function NewApproval(intent: Intent, now: int): Approval {
    Approval(intent, Pending, now, now + APPROVAL_TTL_SECONDS, None, None)
  }

  predicate Open(status: Status) {
    status == Pending || status == Allowed
  }

  function ExpireOne(approval: Approval, run: string, now: int): Approval {
    if approval.intent.run == run && Open(approval.status) && approval.expiresAt <= now
    then approval.(status := Expired,
                   resolvedAt := if approval.resolvedAt.Some? then approval.resolvedAt else Some(now))
    else approval
  }

  /** expire_for_run. */
  function ExpireRun(table: Table, run: string, now: int): Table {
    map id | id in table :: ExpireOne(table[id], run, now)
  }

  /** Of the run's rows, those that were open and have run out are expired; every other row is as it was. */
  ghost predicate OnlyExpired(before: Table, after: Table, run: string, now: int) {
    && after.Keys == before.Keys
    && forall id | id in before ::
         var was := before[id];
         if was.intent.run == run && was.status in {Pending, Allowed} && was.expiresAt <= now
         then after[id] == Approval(was.intent, Expired, was.requestedAt, was.expiresAt,
                                    if was.resolvedAt.None? then Some(now) else was.resolvedAt, was.consumedAt)
         else after[id] == was
  }

  /** The row is one of this exact intent, in this status, and has not run out. */
  predicate LiveRow(row: Approval, intent: Intent, status: Status, now: int) {
    row.intent == intent && row.status == status && now < row.expiresAt
  }

  /** A row that a matching query with this status and an expiry check would return. */
  predicate Matches(table: Table, id: ApprovalId, intent: Intent, status: Status, now: int) {
    id in table && table[id].intent == intent && table[id].status == status && table[id].expiresAt > now
  }

  /** ORDER BY stamp DESC, id DESC. */
  predicate NotAfter(stamp: int, id: ApprovalId, otherStamp: int, otherId: ApprovalId) {
    stamp < otherStamp || (stamp == otherStamp && id.order <= otherId.order)
  }

  function ResolvedStamp(approval: Approval): int {
    if approval.resolvedAt.Some? then approval.resolvedAt.value else approval.requestedAt - 1
  }

  ghost predicate IsLatest(table: Table, id: ApprovalId, intent: Intent) {
    && id in table && table[id].intent == intent
    && forall other | other in table && table[other].intent == intent ::
         NotAfter(table[other].requestedAt, other, table[id].requestedAt, id)
  }

  ghost predicate IsBestAllowed(table: Table, id: ApprovalId, intent: Intent, now: int) {
    && Matches(table, id, intent, Allowed, now)
    && forall other | Matches(table, other, intent, Allowed, now) ::
         NotAfter(ResolvedStamp(table[other]), other, ResolvedStamp(table[id]), id)
  }

  /** The row request_pending reuses: the live pending one that was requested last. */
  predicate IsNewestPending(table: Table, id: ApprovalId, intent: Intent, now: int) {
    && Matches(table, id, intent, Pending, now)
    && forall other | other in table && Matches(table, other, intent, Pending, now) ::
         NotAfter(table[other].requestedAt, other, table[id].requestedAt, id)
  }

  /** The unique row `id` of `ids` that no other row comes after. */
  lemma {:induction false} SomeRowIsLast(ids: set<ApprovalId>, stamp: ApprovalId -> int) returns (last: ApprovalId)
    requires ids != {}
    ensures last in ids && forall other <- ids :: NotAfter(stamp(other), other, stamp(last), last)
  {
    last :| last in ids;
    var rest := ids - {last};
    if rest != {} {
      var best := SomeRowIsLast(rest, stamp);
      if NotAfter(stamp(last), last, stamp(best), best) {
        last := best;
      }
    }
  }

  /** latest_matching without its expiry: the newest row for the intent. */
  ghost function Latest(table: Table, intent: Intent): (found: Option<ApprovalId>)
    ensures found.Some? ==> IsLatest(table, found.value, intent)
    ensures found.None? ==> forall id | id in table :: table[id].intent != intent
  {
    var ids := set id | id in table && table[id].intent == intent;
    if ids == {} then
      assert forall id | id in table && table[id].intent == intent :: id in ids;
      None
    else
      assert exists id :: IsLatest(table, id, intent) by {
        var stamp := id => if id in table then table[id].requestedAt else 0;
        var last := SomeRowIsLast(ids, stamp);
        forall other | other in table && table[other].intent == intent
          ensures NotAfter(table[other].requestedAt, other, table[last].requestedAt, last)
        {
          assert other in ids && NotAfter(stamp(other), other, stamp(last), last);
        }
        assert IsLatest(table, last, intent);
      }
      var id :| IsLatest(table, id, intent);
      Some(id)
  }

  /** The row consume_matching selects: the allowed, unexpired one that was answered last. */
  ghost function BestAllowed(table: Table, intent: Intent, now: int): (found: Option<ApprovalId>)
    ensures found.Some? ==> IsBestAllowed(table, found.value, intent, now)
    ensures found.None? ==> forall id :: !Matches(table, id, intent, Allowed, now)
  {
    var ids := set id | id in table && Matches(table, id, intent, Allowed, now);
    if ids == {} then
      assert forall id | Matches(table, id, intent, Allowed, now) :: id in ids;
      None
    else
      assert exists id :: IsBestAllowed(table, id, intent, now) by {
        var stamp := id => if id in table then ResolvedStamp(table[id]) else 0;
        var last := SomeRowIsLast(ids, stamp);
        forall other | Matches(table, other, intent, Allowed, now)
          ensures NotAfter(ResolvedStamp(table[other]), other, ResolvedStamp(table[last]), last)
        {
          assert other in ids && NotAfter(stamp(other), other, stamp(last), last);
        }
        assert IsBestAllowed(table, last, intent, now);
      }
      var id :| IsBestAllowed(table, id, intent, now);
      Some(id)
  }

  /* ---------- what each call does to the table ---------- */

  /** request_pending: reuse a live pending row for the intent, or insert one. */
  function RequestPending(table: Table, intent: Intent, now: int, newId: ApprovalId): Table {
    var current := ExpireRun(table, intent.run, now);
    if exists id | id in current :: Matches(current, id, intent, Pending, now) then current
    else current[newId := NewApproval(intent, now)]
  }

  /** The guarded update at the heart of consumption; it matches at most once per row. */
  predicate CanConsume(table: Table, id: ApprovalId, now: int) {
    id in table && table[id].status == Allowed && table[id].expiresAt > now
  }

  function ConsumeOne(table: Table, id: ApprovalId, now: int): Table {
    if CanConsume(table, id, now) then table[id := table[id].(status := Consumed, consumedAt := Some(now))] else table
  }

  /** consume_matching. */
  ghost function ConsumeMatching(table: Table, intent: Intent, now: int): (result: (Table, Option<ApprovalId>))
  {
    var current := ExpireRun(table, intent.run, now);
    var best := BestAllowed(current, intent, now);
    if best.None? then (current, None) else (ConsumeOne(current, best.value, now), best)
  }

  /** respond: effective only on a row that is still pending and unexpired. */
  predicate CanRespond(table: Table, id: ApprovalId, now: int) {
    id in table && table[id].status == Pending && table[id].expiresAt > now
  }

  function Respond(table: Table, id: ApprovalId, allow: bool, now: int): Table {
    if id !in table then table
    else
      var current := ExpireRun(table, table[id].intent.run, now);
      if CanRespond(current, id, now)
      then current[id := current[id].(status := if allow then Allowed else Denied, resolvedAt := Some(now))]
      else current
  }

  /* ---------- native approvals ---------- */

  datatype Answer = AnswerPending | AnswerAllow | AnswerDeny

  /** resolve_native; the consumption may happen later than the lookup. */
  ghost function ResolveNative(table: Table, intent: Intent, now: int, later: int, newId: ApprovalId): (Table, Answer)
  {
    var current := ExpireRun(table, intent.run, now);
    var latest := Latest(current, intent);
    if latest.None? then (RequestPending(current, intent, now, newId), AnswerPending)
    else match current[latest.value].status
      case Allowed =>
        var (after, consumed) := ConsumeMatching(current, intent, later);
        (after, if consumed.Some? then AnswerAllow else AnswerDeny)
      case Pending => (current, AnswerPending)
      case _ => (current, AnswerDeny)
  }

  /* ---------- the store ---------- */

  class ApprovalStore {
    var table: Table

    constructor ()
      ensures table == map[]
    {
      table := map[];
    }

    method Expire(run: string, now: int)
      modifies this
      ensures table == ExpireRun(old(table), run, now)
      ensures OnlyExpired(old(table), table, run, now)
    {
      var todo := table.Keys;
      while todo != {}
        invariant todo <= table.Keys == old(table).Keys
        invariant forall id | id in table ::
            table[id] == if id in todo then old(table)[id] else ExpireOne(old(table)[id], run, now)
        decreases todo
      {
        var id :| id in todo;
        var row := table[id];
        if row.intent.run == run && (row.status == Pending || row.status == Allowed) && row.expiresAt <= now {
          var resolved := if row.resolvedAt.Some? then row.resolvedAt else Some(now);
          table := table[id := row.(status := Expired, resolvedAt := resolved)];
        }
        todo := todo - {id};
      }
    }

    /** Scan for the matching allowed row that was answered last. */
    method SelectAllowed(intent: Intent, now: int) returns (found: Option<ApprovalId>)
      ensures found.Some? ==> IsBestAllowed(table, found.value, intent, now)
      ensures found.None? ==> forall id :: !Matches(table, id, intent, Allowed, now)
    {
      found := None;
      var todo := table.Keys;
      while todo != {}
        invariant todo <= table.Keys
        invariant found.Some? ==> found.value in table.Keys - todo && Matches(table, found.value, intent, Allowed, now)
        invariant found.Some? ==>
                    forall id | id in table.Keys - todo && Matches(table, id, intent, Allowed, now) ::
                      NotAfter(ResolvedStamp(table[id]), id, ResolvedStamp(table[found.value]), found.value)
        invariant found.None? ==> forall id | id in table.Keys - todo :: !Matches(table, id, intent, Allowed, now)
        decreases todo
      {
        var id :| id in todo;
        if Matches(table, id, intent, Allowed, now) {
          if found.None? || NotAfter(ResolvedStamp(table[found.value]), found.value, ResolvedStamp(table[id]), id) {
            found := Some(id);
          }
        }
        todo := todo - {id};
      }
    }

    lemma BestAllowedIsUnique(a: ApprovalId, b: ApprovalId, intent: Intent, now: int)
      requires IsBestAllowed(table, a, intent, now) && IsBestAllowed(table, b, intent, now)
      ensures a == b
    {
    }

    method Consume(intent: Intent, now: int) returns (consumed: Option<ApprovalId>)
      modifies this
      ensures (table, consumed) == ConsumeMatching(old(table), intent, now)
      ensures consumed.None? <==> forall id | id in old(table) :: !LiveRow(old(table)[id], intent, Allowed, now)
      ensures consumed.None? ==> OnlyExpired(old(table), table, intent.run, now)
      ensures consumed.Some? ==>
                && consumed.value in old(table) && LiveRow(old(table)[consumed.value], intent, Allowed, now)
                && consumed.value in table
                && table[consumed.value] ==
                   old(table)[consumed.value].(status := Consumed, consumedAt := Some(now))
                && OnlyExpired(old(table), table[consumed.value := old(table)[consumed.value]], intent.run, now)
    {
      Expire(intent.run, now);
      consumed := SelectAllowed(intent, now);
      assert forall id | id in old(table) ::
          LiveRow(old(table)[id], intent, Allowed, now) <==> Matches(table, id, intent, Allowed, now);
      if consumed.Some? {
        BestAllowedIsUnique(consumed.value, BestAllowed(table, intent, now).value, intent, now);
        table := table[consumed.value := table[consumed.value].(status := Consumed, consumedAt := Some(now))];
      }
    }

    /** Scan for the live pending row that was requested last. */
    method SelectPending(intent: Intent, now: int) returns (found: Option<ApprovalId>)
      ensures found.Some? ==> IsNewestPending(table, found.value, intent, now)
      ensures found.None? ==> forall id :: !Matches(table, id, intent, Pending, now)
    {
      found := None;
      var todo := table.Keys;
      while todo != {}
        invariant todo <= table.Keys
        invariant found.Some? ==> found.value in table.Keys - todo && Matches(table, found.value, intent, Pending, now)
        invariant found.Some? ==>
                    forall id | id in table.Keys - todo && Matches(table, id, intent, Pending, now) ::
                      NotAfter(table[id].requestedAt, id, table[found.value].requestedAt, found.value)
        invariant found.None? ==> forall id | id in table.Keys - todo :: !Matches(table, id, intent, Pending, now)
        decreases todo
      {
        var id :| id in todo;
        if Matches(table, id, intent, Pending, now) {
          if found.None? || NotAfter(table[found.value].requestedAt, found.value, table[id].requestedAt, id) {
            found := Some(id);
          }
        }
        todo := todo - {id};
      }
    }

    /** request_pending: the approval that now stands for the intent, and whether it had to be created. */
    method RequestApproval(intent: Intent, now: int, newId: ApprovalId) returns (id: ApprovalId, created: bool)
      requires newId !in table
      modifies this
      ensures table == RequestPending(old(table), intent, now, newId)
      ensures IsNewestPending(table, id, intent, now)
      ensures created <==> newId in table
      ensures created <==> forall other | other in old(table) :: !LiveRow(old(table)[other], intent, Pending, now)
      ensures OnlyExpired(old(table), table - {newId}, intent.run, now)
      ensures created ==> id == newId && table[newId] == Approval(intent, Pending, now, now + 300, None, None)
    {
      Expire(intent.run, now);
      var existing := SelectPending(intent, now);
      if existing.Some? {
        return existing.value, false;
      }
      ghost var swept := table;
      table := table[newId := NewApproval(intent, now)];
      assert forall other | other != newId :: Matches(table, other, intent, Pending, now) ==>
        Matches(swept, other, intent, Pending, now);
      id, created := newId, true;
    }

    lemma LatestIsUnique(a: ApprovalId, b: ApprovalId, intent: Intent)
      requires IsLatest(table, a, intent) && IsLatest(table, b, intent)
      ensures a == b
    {
    }

    /** Scan for the newest row of the intent, whatever its status. */
    method SelectLatest(intent: Intent) returns (found: Option<ApprovalId>)
      ensures found == Latest(table, intent)
    {
      found := None;
      var todo := table.Keys;
      while todo != {}
        invariant todo <= table.Keys
        invariant found.Some? ==>
                    && found.value in table.Keys - todo && table[found.value].intent == intent
                    && forall id | id in table.Keys - todo && table[id].intent == intent ::
                         NotAfter(table[id].requestedAt, id, table[found.value].requestedAt, found.value)
        invariant found.None? ==> forall id | id in table.Keys - todo :: table[id].intent != intent
        decreases todo
      {
        var id :| id in todo;
        if table[id].intent == intent
           && (found.None? || NotAfter(table[found.value].requestedAt, found.value, table[id].requestedAt, id)) {
          found := Some(id);
        }
        todo := todo - {id};
      }
      if found.Some? {
        LatestIsUnique(found.value, Latest(table, intent).value, intent);
      }
    }

    /** resolve_native for a classified intent; `later` is when an allowed row comes to be consumed. */
    method ResolveNativeIntent(intent: Intent, now: int, later: int, newId: ApprovalId) returns (answer: Answer)
      requires newId !in table
      modifies this
      ensures (table, answer) == ResolveNative(old(table), intent, now, later, newId)
      ensures answer == AnswerAllow ==>
                exists id :: Matches(old(table), id, intent, Allowed, now) && table[id].status == Consumed
      ensures (forall id | id in old(table) :: old(table)[id].intent != intent) ==>
                && answer == AnswerPending
                && newId in table && table[newId] == Approval(intent, Pending, now, now + 300, None, None)
      ensures forall id | IsLatest(old(table), id, intent) ::
                && (answer == AnswerPending <==> LiveRow(old(table)[id], intent, Pending, now))
                && (answer == AnswerAllow <==>
                    && LiveRow(old(table)[id], intent, Allowed, now)
                    && exists other | other in old(table) ::
                         && LiveRow(old(table)[other], intent, Allowed, now)
                         && LiveRow(old(table)[other], intent, Allowed, later))
    {
      Expire(intent.run, now);
      var existing := SelectLatest(intent);
      if existing.None? {
        var _, _ := RequestApproval(intent, now, newId);
        return AnswerPending;
      }
      match table[existing.value].status {
        case Allowed =>
          var consumed := Consume(intent, later);
          answer := if consumed.Some? then AnswerAllow else AnswerDeny;
        case Pending => answer := AnswerPending;
        case _ => answer := AnswerDeny;
      }
    }

    /** Answer a pending approval; repeating the effective answer is a replay, anything else is refused. */
    method Answer(id: ApprovalId, allow: bool, now: int) returns (outcome: Result<bool, string>)
      modifies this
      ensures table == Respond(old(table), id, allow, now)
      ensures outcome == Success(false) <==>
                id in old(table) && old(table)[id].status == Pending && now < old(table)[id].expiresAt
      ensures outcome == Success(false) ==>
                && id in table
                && table[id] ==
                   old(table)[id].(status := if allow then Allowed else Denied, resolvedAt := Some(now))
                && OnlyExpired(old(table), table[id := old(table)[id]], old(table)[id].intent.run, now)
      ensures outcome == Success(true) <==>
                && id in old(table)
                && if allow then old(table)[id].status == Allowed && now < old(table)[id].expiresAt
                   else old(table)[id].status == Denied
      ensures outcome != Success(false) && id in old(table) ==>
                OnlyExpired(old(table), table, old(table)[id].intent.run, now)
      ensures outcome.Success? ==> id in table && table[id].status == if allow then Allowed else Denied
      ensures outcome == Success(true) ==> table == ExpireRun(old(table), table[id].intent.run, now)
    {
      if id !in table {
        return Failure("harness approval not found");
      }
      Expire(table[id].intent.run, now);
      var target := if allow then Allowed else Denied;
      if table[id].status == target {
        return Success(true);
      }
      if table[id].status == Expired {
        return Failure("harness approval has expired");
      }
      if table[id].status != Pending {
        return Failure("harness approval is already resolved");
      }
      assert table[id].expiresAt > now;
      table := table[id := table[id].(status := target, resolvedAt := Some(now))];
      outcome := Success(false);
    }
  }
}
