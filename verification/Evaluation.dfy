/**
 The agent evaluator: seven deterministic checks over a finished turn, and one
 optional judge verdict per evaluation that is written at most once.
*/
module Evaluation {
  import opened Wrappers
  import opened WorkScope
  import opened ClosedLoop
  import opened LoopInvariants

  type EvaluationId = string

  /** What the evaluator looks at: the agent turn, the run and its loop. */
  datatype Evidence = Evidence(
    turnRunning: bool, iterations: nat, maxIterations: nat,
    runStatus: RunStatus, current: bool,
    loop: LoopRow, passedProofs: set<string>)

  predicate VerificationSatisfied(loop: LoopRow) {
    !loop.verificationRequired || loop.verification == VerificationPassed
  }

  predicate ProofSatisfied(evidence: Evidence) {
    evidence.loop.selection.proofType.Some? ==> evidence.loop.selection.proofType.value in evidence.passedProofs
  }

  /** The checks in the order in which they are reported. */
  function Checks(evidence: Evidence): seq<bool> {
    [!evidence.turnRunning,
     evidence.iterations <= evidence.maxIterations,
     evidence.runStatus !in {Stale, Cancelled, RunFailed},
     evidence.current,
     !Unresolved(evidence.loop),
     VerificationSatisfied(evidence.loop),
     ProofSatisfied(evidence)]
  }

  /** A turn that has ended within its limit, on a healthy and current run whose loop has nothing left to settle. */
  predicate Acceptable(evidence: Evidence) {
    && !evidence.turnRunning && evidence.iterations <= evidence.maxIterations
    && evidence.runStatus != Stale && evidence.runStatus != Cancelled && evidence.runStatus != RunFailed
    && evidence.current
    && evidence.loop.recovery != Needed && evidence.loop.recovery != InProgress
    && (evidence.loop.verificationRequired ==> evidence.loop.verification == VerificationPassed)
    && (evidence.loop.selection.proofType.Some? ==> evidence.loop.selection.proofType.value in evidence.passedProofs)
  }

  lemma ChecksAccept(evidence: Evidence)
    ensures AllPassed(Checks(evidence)) <==> Acceptable(evidence)
  {
    var checks := Checks(evidence);
    assert AllPassed(checks) <==>
      checks[0] && checks[1] && checks[2] && checks[3] && checks[4] && checks[5] && checks[6];
  }

  predicate AllPassed(checks: seq<bool>) {
    forall i | 0 <= i < |checks| :: checks[i]
  }

  /**
   In every state any history reaches, the recovery and the verification check accept a
   run exactly when `complete` finds its loop settled.
  */
  lemma ChecksAgreeWithCompletion(history: History, n: nat, id: RunId)
    requires n <= |history| && id in After(EMPTY, history, n).runs
    ensures var loop := After(EMPTY, history, n).runs[id].loop;
            !Unresolved(loop) && VerificationSatisfied(loop) <==> Settled(loop)
  {
    LoopRowsAgree(history, n, id);
  }

  /** For a current running run, the evaluator's loop checks accept exactly the runs `complete` accepts. */
  lemma EvaluatorAcceptsWhatCompleteAccepts(history: History, n: nat, id: RunId)
    requires n <= |history| && id in After(EMPTY, history, n).runs
    requires After(EMPTY, history, n).runs[id].status == Running
    ensures var db := After(EMPTY, history, n); var loop := db.runs[id].loop;
            Enabled(db, CompleteRun(id, loop, true)) <==> !Unresolved(loop) && VerificationSatisfied(loop)
  {
    ChecksAgreeWithCompletion(history, n, id);
  }

  /* ---------- the judge ---------- */

  datatype Judge = Judge(passes: bool, provider: string, model: string)

  /** A row of harness_agent_evaluations. */
  datatype EvaluationRow = EvaluationRow(deterministic: bool, checks: seq<bool>, judge: Option<Judge>)

  /** The final verdict that evaluation_view derives. */
  predicate FinalPass(row: EvaluationRow) {
    !(!row.deterministic || (row.judge.Some? && !row.judge.value.passes))
  }

  datatype Action = Evaluate(id: EvaluationId, evidence: Evidence) | RecordJudge(id: EvaluationId, judge: Judge)

  type Table = map<EvaluationId, EvaluationRow>

  function Act(table: Table, action: Action): Table {
    match action
    case Evaluate(id, evidence) =>
      if id in table then table
      else table[id := EvaluationRow(AllPassed(Checks(evidence)), Checks(evidence), None)]
    case RecordJudge(id, judge) =>
      if id in table && table[id].judge.None? then table[id := table[id].(judge := Some(judge))] else table
  }

  function Replay(table: Table, actions: seq<Action>): Table {
    if actions == [] then table else Act(Replay(table, actions[..|actions| - 1]), actions[|actions| - 1])
  }

  /** `later` is `earlier` with at most its missing judge filled in. */
  predicate JudgedFrom(earlier: EvaluationRow, later: EvaluationRow) {
    && later.deterministic == earlier.deterministic && later.checks == earlier.checks
    && (earlier.judge.Some? ==> later.judge == earlier.judge)
  }

  /** Rows are never lost, a judge is written at most once, and it can only lower the verdict. */
  lemma {:induction false} JudgeOnlyLowers(table: Table, actions: seq<Action>, id: EvaluationId)
    requires id in table
    ensures id in Replay(table, actions)
    ensures JudgedFrom(table[id], Replay(table, actions)[id])
    ensures FinalPass(Replay(table, actions)[id]) ==> FinalPass(table[id])
  {
    if actions != [] {
      JudgeOnlyLowers(table, actions[..|actions| - 1], id);
    }
  }

  /** A final pass means that every one of the checks passed, whatever the judge says. */
  lemma {:induction false} FinalPassNeedsEveryCheck(actions: seq<Action>, id: EvaluationId)
    requires id in Replay(map[], actions)
    ensures var row := Replay(map[], actions)[id];
            && row.deterministic == AllPassed(row.checks)
            && (FinalPass(row) ==> forall i | 0 <= i < |row.checks| :: row.checks[i])
  {
    var front, last := actions[..|actions| - 1], actions[|actions| - 1];
    if id in Replay(map[], front) {
      FinalPassNeedsEveryCheck(front, id);
    }
  }

  /** The first evaluation under this id, the one that counts. */
  predicate EvaluatedAt(actions: seq<Action>, k: nat, id: EvaluationId) {
    && k < |actions| && actions[k].Evaluate? && actions[k].id == id
    && forall i | 0 <= i < k :: !(actions[i].Evaluate? && actions[i].id == id)
  }

  /** The first judge recorded after it, likewise. */
  predicate JudgedAt(actions: seq<Action>, k: nat, j: nat, id: EvaluationId) {
    && k < j < |actions| && actions[j].RecordJudge? && actions[j].id == id
    && forall i | k < i < j :: !(actions[i].RecordJudge? && actions[i].id == id)
  }

  lemma {:induction false} NotYetEvaluated(actions: seq<Action>, id: EvaluationId)
    requires forall i | 0 <= i < |actions| :: !(actions[i].Evaluate? && actions[i].id == id)
    ensures id !in Replay(map[], actions)
  {
    if actions != [] {
      NotYetEvaluated(actions[..|actions| - 1], id);
    }
  }

  lemma {:induction false} RowOfEvaluation(actions: seq<Action>, k: nat, id: EvaluationId) returns (judged: Option<nat>)
    requires EvaluatedAt(actions, k, id)
    ensures judged.Some? ==> JudgedAt(actions, k, judged.value, id)
    ensures judged.None? ==> forall i | k < i < |actions| :: !(actions[i].RecordJudge? && actions[i].id == id)
    ensures id in Replay(map[], actions)
    ensures var row := Replay(map[], actions)[id];
            && (row.deterministic <==> Acceptable(actions[k].evidence))
            && row.judge == if judged.Some? then Some(actions[judged.value].judge) else None
  {
    var front, last := actions[..|actions| - 1], actions[|actions| - 1];
    if k == |front| {
      NotYetEvaluated(front, id);
      ChecksAccept(last.evidence);
      judged := None;
    } else {
      judged := RowOfEvaluation(front, k, id);
      if judged.None? && last.RecordJudge? && last.id == id {
        judged := Some(|front|);
      }
    }
  }

  /** A final pass means exactly that the evidence was acceptable and the first judge, if any, passed it too. */
  lemma FinalPassExactlyWhen(actions: seq<Action>, k: nat, id: EvaluationId)
    requires EvaluatedAt(actions, k, id)
    ensures id in Replay(map[], actions)
    ensures FinalPass(Replay(map[], actions)[id]) <==>
            && Acceptable(actions[k].evidence)
            && forall j: nat | JudgedAt(actions, k, j, id) :: actions[j].judge.passes
  {
    var judged := RowOfEvaluation(actions, k, id);
    assert forall j: nat | JudgedAt(actions, k, j, id) :: judged == Some(j);
  }

  class EvaluationStore {
    var table: Table

    constructor ()
      ensures table == map[]
    {
      table := map[];
    }

    method Evaluate(id: EvaluationId, evidence: Evidence) returns (row: EvaluationRow)
      requires id !in table
      modifies this
      ensures table == Act(old(table), Action.Evaluate(id, evidence)) && id in table && row == table[id]
      ensures row.deterministic <==> Acceptable(evidence)
      ensures row.judge.None? && table == old(table)[id := row]
    {
      var checks := Checks(evidence);
      var passed, i := true, 0;
      while i < |checks|
        invariant 0 <= i <= |checks|
        invariant passed <==> forall j | 0 <= j < i :: checks[j]
      {
        passed := passed && checks[i];
        i := i + 1;
      }
      ChecksAccept(evidence);
      row := EvaluationRow(passed, checks, None);
      table := table[id := row];
    }

    /** Write the judge once; repeating the same judge replays it, a different one is refused. */
    method RecordJudge(id: EvaluationId, judge: Judge) returns (outcome: Result<EvaluationRow, string>)
      modifies this
      ensures table == Act(old(table), Action.RecordJudge(id, judge))
      ensures outcome.Success? <==>
                id in old(table) && (old(table)[id].judge.None? || old(table)[id].judge == Some(judge))
      ensures outcome.Success? ==> id in table && outcome.value == table[id] && outcome.value.judge == Some(judge)
    {
      if id !in table {
        return Failure("agent evaluation not found");
      }
      if table[id].judge.Some? {
        if table[id].judge.value != judge {
          return Failure("agent evaluation already has a different judge result");
        }
        return Success(table[id]);
      }
      table := table[id := table[id].(judge := Some(judge))];
      outcome := Success(table[id]);
    }
  }
}
