/**
 Work shape and work scope over a cycle. Every pipeline Execute brings a plan along that was
 made on the row as it was when the call began; the row holds the fold of all requests of the
 cycle exactly as long as no such plan is too old.
*/
module LoopPlans {
  import opened Wrappers
  import opened WorkScope
  import opened ClosedLoop

  /** An Execute of this run writes its plan into the row. */
  predicate Plans(db: Db, tx: Tx, id: RunId) {
    tx.ExecuteStart? && tx.run == id && Enabled(db, tx)
  }

  /** The Execute requests of `id` among the first `n` transactions. */
  function Requests(start: Db, history: History, n: nat, id: RunId): seq<ExecuteRequest>
    requires n <= |history|
  {
    if n == 0 then []
    else
      var before := Requests(start, history, n - 1, id);
      if Plans(After(start, history, n - 1), history[n - 1], id) then before + [history[n - 1].request] else before
  }

  function Shapes(requests: seq<ExecuteRequest>): seq<ShapeRequest> {
    seq(|requests|, i requires 0 <= i < |requests| => requests[i].shape)
  }

  function Scopes(requests: seq<ExecuteRequest>): seq<Option<string>> {
    seq(|requests|, i requires 0 <= i < |requests| => requests[i].scope)
  }

  /** The row holds what the requests so far make of the row the cycle began with. */
  predicate FoldAt(start: Db, history: History, n: int, id: RunId)
    requires id in start.runs
  {
    && 0 <= n <= |history| && id in After(start, history, n).runs
    && var first, now := start.runs[id].loop, After(start, history, n).runs[id].loop;
       var requests := Requests(start, history, n, id);
       && now.shape == FoldShape(first.shape, Shapes(requests))
       && SameScope(now.scope, FoldScope(first.scope, Scopes(requests)))
  }

  /** The plan still fits the row: its shape and its share of the call's path are what they would be now. */
  predicate PlanFits(planned: LoopRow, current: LoopRow, request: ExecuteRequest) {
    var demanded := DemandedShape(request.shape);
    && (|| planned.shape == current.shape
        || (Rank(planned.shape) <= Rank(demanded) && Rank(current.shape) <= Rank(demanded)))
    && (if request.scope.Some?
        then Depth(planned.scope, request.scope.value) == Depth(current.scope, request.scope.value)
        else planned.scope.None? || SameScope(planned.scope, current.scope))
  }

  ghost predicate PlanFitsAt(start: Db, history: History, k: int, id: RunId) {
    0 <= k < |history| && Plans(After(start, history, k), history[k], id) ==>
      PlanFits(history[k].planned, After(start, history, k).runs[id].loop, history[k].request)
  }

  lemma PlanIsWritten(db: Db, tx: Tx, id: RunId)
    requires Plans(db, tx, id)
    ensures id in Exec(db, tx).runs
    ensures var before, after := db.runs[id].loop, Exec(db, tx).runs[id].loop;
            && after.shape == ProposedShape(tx.planned.shape, tx.request.shape)
            && after.scope == PlannedScope(tx.planned.scope, before.scope, tx.request.scope)
            && after.selection == tx.request.selection && after.contextReads == before.contextReads
  {
  }

  lemma OthersKeepPlan(db: Db, tx: Tx, id: RunId)
    requires id in db.runs && !Plans(db, tx, id) && !(tx.StartCycle? && tx.run == id)
    ensures id in Exec(db, tx).runs
    ensures Exec(db, tx).runs[id].loop.shape == db.runs[id].loop.shape
    ensures Exec(db, tx).runs[id].loop.scope == db.runs[id].loop.scope
  {
    if tx.VerifyCommit? && tx.run == id {
      assert RecordProof(db.runs[id], tx.tool, tx.proof, true).loop == db.runs[id].loop;
    }
  }

  /** The plan that is written is the one the current row calls for, exactly when it still fits that row. */
  lemma PlanIsRightExactlyWhen(db: Db, tx: Tx, id: RunId)
    requires Plans(db, tx, id)
    ensures id in Exec(db, tx).runs
    ensures var before, after := db.runs[id].loop, Exec(db, tx).runs[id].loop;
            && after.shape == ProposedShape(before.shape, tx.request.shape)
            && SameScope(after.scope, MergeScope(before.scope, tx.request.scope)) <==>
            PlanFits(tx.planned, before, tx.request)
  {
    PlanIsWritten(db, tx, id);
    var before := db.runs[id].loop;
    StaleShapeIsRightExactlyWhen(tx.planned.shape, before.shape, tx.request.shape);
    StaleScopeIsRightExactlyWhen(tx.planned.scope, before.scope, tx.request.scope);
  }

  lemma FoldsAppend(shape: Shape, scope: Option<string>, requests: seq<ExecuteRequest>, request: ExecuteRequest)
    ensures FoldShape(shape, Shapes(requests + [request])) ==
              ProposedShape(FoldShape(shape, Shapes(requests)), request.shape)
    ensures FoldScope(scope, Scopes(requests + [request])) ==
              MergeScope(FoldScope(scope, Scopes(requests)), request.scope)
  {
    var shapes, scopes := Shapes(requests + [request]), Scopes(requests + [request]);
    assert shapes[..|shapes| - 1] == Shapes(requests);
    assert scopes[..|scopes| - 1] == Scopes(requests);
  }

  lemma StepFoldsExactlyWhen(start: Db, history: History, n: nat, id: RunId)
    requires id in start.runs && n < |history| && FoldAt(start, history, n, id)
    requires !(history[n].StartCycle? && history[n].run == id)
    ensures FoldAt(start, history, n + 1, id) <==> PlanFitsAt(start, history, n, id)
  {
    var db, tx := After(start, history, n), history[n];
    if Plans(db, tx, id) {
      var first, before := start.runs[id].loop, db.runs[id].loop;
      var requests := Requests(start, history, n, id);
      PlanIsRightExactlyWhen(db, tx, id);
      FoldsAppend(first.shape, first.scope, requests, tx.request);
      MergeRespectsSame(before.scope, FoldScope(first.scope, Scopes(requests)), tx.request.scope);
    } else {
      OthersKeepPlan(db, tx, id);
    }
  }

  /** As long as no new cycle starts and every plan fits, the row holds the fold of all Execute requests so far. */
  lemma {:induction false} CycleFoldsRequests(start: Db, history: History, n: nat, id: RunId)
    requires n <= |history| && id in start.runs
    requires forall k | 0 <= k < n :: !(history[k].StartCycle? && history[k].run == id)
    requires forall k | 0 <= k < n :: PlanFitsAt(start, history, k, id)
    ensures FoldAt(start, history, n, id)
  {
    if n == 0 {
      assert Shapes([]) == [] && Scopes([]) == [];
    } else {
      CycleFoldsRequests(start, history, n - 1, id);
      assert PlanFitsAt(start, history, n - 1, id);
      StepFoldsExactlyWhen(start, history, n - 1, id);
    }
  }

  /** Over a whole cycle the row holds the fold at every point exactly when every plan still fits when it is written. */
  lemma CycleFoldsExactlyWhen(start: Db, history: History, id: RunId)
    requires id in start.runs
    requires forall k | 0 <= k < |history| :: !(history[k].StartCycle? && history[k].run == id)
    ensures (forall n | 0 <= n <= |history| :: FoldAt(start, history, n, id)) <==>
            (forall k | 0 <= k < |history| :: PlanFitsAt(start, history, k, id))
  {
    if forall k | 0 <= k < |history| :: PlanFitsAt(start, history, k, id) {
      forall n | 0 <= n <= |history| ensures FoldAt(start, history, n, id) {
        CycleFoldsRequests(start, history, n, id);
      }
    }
    if forall n | 0 <= n <= |history| :: FoldAt(start, history, n, id) {
      forall k | 0 <= k < |history| ensures PlanFitsAt(start, history, k, id) {
        assert FoldAt(start, history, k, id) && FoldAt(start, history, k + 1, id);
        StepFoldsExactlyWhen(start, history, k, id);
      }
    }
  }

  /** And a fold is the rank maximum of the shapes and the greatest common prefix of the scopes, in any order. */
  lemma FoldedRowIsExtreme(start: Db, history: History, n: nat, id: RunId)
    requires id in start.runs && n <= |history| && FoldAt(start, history, n, id)
    ensures var first, now := start.runs[id].loop, After(start, history, n).runs[id].loop;
            var requests := Requests(start, history, n, id);
            && IsRankMaximum(now.shape, first.shape, Shapes(requests))
            && (now.scope.None? <==> forall path :: !Contributes(path, first.scope, Scopes(requests)))
            && (now.scope.Some? ==> IsGreatestCommonPrefix(Segments(now.scope.value), first.scope, Scopes(requests)))
  {
    var first, requests := start.runs[id].loop, Requests(start, history, n, id);
    FoldShapeIsRankMaximum(first.shape, Shapes(requests));
    FoldScopeIsGreatestCommonPrefix(first.scope, Scopes(requests));
  }

  /* ---------- a plan that is too old ---------- */

  /** Two calls begin on the same row; then each writes its plan. */
  function Overlap(loop: LoopRow, id: RunId, tickets: (TicketId, TicketId), first: ExecuteRequest,
                   second: ExecuteRequest): History {
    [ExecuteStart(id, tickets.0, loop, loop, first), ExecuteStart(id, tickets.1, loop, loop, second)]
  }

  /**
   The first call touches an invariant path and makes the cycle one of invariants; the second, planned before,
   makes it a bounded one again and selects the proof of a bounded one.
  */
  lemma OldPlanLowersShape(db: Db, id: RunId, tickets: (TicketId, TicketId), first: ExecuteRequest,
                           second: ExecuteRequest)
    requires id in db.runs && db.runs[id].loop.shape == Bounded && db.runs[id].loop.contextReads > 0
    requires tickets.0 != tickets.1 && tickets.0 !in db.tickets && tickets.1 !in db.tickets
    requires DemandedShape(first.shape) == Invariant && DemandedShape(second.shape) == Bounded
    ensures var history := Overlap(db.runs[id].loop, id, tickets, first, second);
            var one, two := After(db, history, 1), After(db, history, 2);
            && id in one.runs && one.runs[id].loop.shape == Invariant && one.runs[id].loop.selection == first.selection
            && id in two.runs && two.runs[id].loop.shape == Bounded && two.runs[id].loop.selection == second.selection
            && !FoldAt(db, history, 2, id)
  {
    var history := Overlap(db.runs[id].loop, id, tickets, first, second);
    assert After(db, history, 0) == db;
    var one := Exec(db, history[0]);
    assert After(db, history, 1) == one;
    PlanIsWritten(db, history[0], id);
    assert one.tickets == db.tickets[tickets.0 := id];
    var two := Exec(one, history[1]);
    assert After(db, history, 2) == two;
    PlanIsWritten(one, history[1], id);
    assert Requests(db, history, 0, id) == [];
    assert Requests(db, history, 1, id) == [first];
    assert Requests(db, history, 2, id) == [first, second];
    FoldShapeIsRankMaximum(Bounded, Shapes([first, second]));
    assert first.shape == Shapes([first, second])[0];
  }
}
