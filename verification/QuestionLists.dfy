/**
 Answers against the question list: in step as long as the list is not edited while a report is
 open.
 */
module QuestionLists {
  import opened DmEngine
  import opened Protocol
  import opened RowOps
  import opened Lifecycle

  /** An open report's answers belong to the leading questions, and a question is left. */
  ghost predicate Fits(questions: seq<Question>, r: Report) {
    r.status == InProgress ==> Follows(questions, r.answers) && |r.answers| < |questions|
  }

  ghost predicate InStep(s: State) {
    Dated(s) && forall k :: k in s.reports ==> Fits(Questions(s, k), s.reports[k])
  }

  /** A configuration leaves the question list of an open report alone. */
  ghost predicate KeepsLists(s: State, a: Stimulus) {
    a.Configure? ==>
      forall k :: Open(s, k) && k.run.standupId in s.standups && k.run.standupId in a.standups ==>
        a.standups[k.run.standupId].questions == Questions(s, k)
  }

  /** No question list was edited while a report was open under it. */
  ghost predicate Steady(states: seq<State>, acts: seq<Stimulus>)
    requires |states| == |acts| + 1
  {
    forall i :: 0 <= i < |acts| ==> KeepsLists(states[i], acts[i])
  }

  /** A report that was open has the same question list. */
  ghost predicate SameLists(s: State, t: State) {
    forall k :: Open(s, k) && k.run.standupId in s.standups && k.run.standupId in t.standups ==>
      Questions(t, k) == Questions(s, k)
  }

  lemma OpInStep(s: State, op: Op)
    requires InStep(s) && Can(s, op) && !op.ConfigureOp?
    ensures InStep(Do(s, op)) && Do(s, op).standups == s.standups
  {
    OpDated(s, op);
    OpMoves(s, op);
    forall k | k in Do(s, op).reports ensures Fits(Questions(Do(s, op), k), Do(s, op).reports[k]) {
      if k in s.reports {
        MoveFits(Questions(s, k), s.reports[k], Do(s, op).reports[k]);
      }
    }
  }

  lemma MoveFits(questions: seq<Question>, r: Report, t: Report)
    requires Fits(questions, r) && Moves(questions, r, t) && questions != []
    ensures Fits(questions, t)
  {
  }

  lemma {:induction false} PlanInStep(s: State, plan: Plan)
    requires InStep(s) && Possible(s, plan) && !Configures(plan)
    ensures InStep(Outcome(s, plan)) && Outcome(s, plan).standups == s.standups
    decreases plan
  {
    match plan
    case Done =>
    case Then(op, rest) =>
      OpInStep(s, op);
      PlanInStep(Do(s, op), rest);
  }

  lemma StepInStep(s: State, a: Stimulus)
    requires InStep(s) && Enabled(s, a) && KeepsLists(s, a)
    ensures InStep(Apply(s, a))
    ensures SameLists(s, Apply(s, a))
  {
    if a.Configure? {
      ConfigureInStep(s, a);
    } else {
      OtherInStep(s, a);
    }
  }

  lemma OtherInStep(s: State, a: Stimulus)
    requires InStep(s) && Enabled(s, a) && !a.Configure?
    ensures InStep(Apply(s, a)) && Apply(s, a).standups == s.standups
  {
    StepRefines(s, a);
    StepConfigures(s, a);
    PlanInStep(s, StepPlan(s, a));
  }

  lemma ConfigureInStep(s: State, a: Stimulus)
    requires InStep(s) && Enabled(s, a) && a.Configure? && KeepsLists(s, a)
    ensures InStep(Apply(s, a))
    ensures SameLists(s, Apply(s, a))
  {
    StepMoves(s, a);
  }

  /**
   In every run of the system without such an edit, the answers of an open report match the leading
   questions by id and text, and a question is left.
   */
  lemma {:induction false} RunInStep(states: seq<State>, acts: seq<Stimulus>, i: nat)
    requires IsRun(states, acts) && i < |states| && Steady(states, acts)
    ensures InStep(states[i])
  {
    if i > 0 {
      RunInStep(states, acts, i - 1);
      StepInStep(states[i - 1], acts[i - 1]);
    }
  }

  /** The answers are in step with the question list, and there is one per question just if complete. */
  ghost predicate Answers(questions: seq<Question>, answers: seq<Answer>, complete: bool) {
    Follows(questions, answers) && (complete <==> |answers| == |questions|)
  }

  /**
   In every run of the system without such an edit, a report that is not open was closed by a step
   at which its answers belonged to the leading questions of the list in force, one for every
   question if it is completed and fewer if it timed out.
   */
  lemma ClosedInStep(states: seq<State>, acts: seq<Stimulus>, j: nat, k: Key) returns (i: nat)
    requires IsRun(states, acts) && j < |states| && Steady(states, acts)
    requires k in states[j].reports && states[j].reports[k].status != InProgress
    ensures i < j && ClosedIn(states[i], states[i + 1], k, states[j].reports[k])
    ensures Answers(Questions(states[i], k), states[j].reports[k].answers, states[j].reports[k].status == Completed)
  {
    i := ClosedInForce(states, acts, j, k);
    RunInStep(states, acts, i);
    LastMoveFits(Questions(states[i], k), states[i].reports[k], states[j].reports[k]);
  }

  lemma LastMoveFits(questions: seq<Question>, r: Report, t: Report)
    requires Fits(questions, r) && Moves(questions, r, t) && r.status == InProgress && t.status != InProgress
    ensures Answers(questions, t.answers, t.status == Completed)
  {
  }

  /** While a report stays open its question list stays the same. */
  lemma {:induction false} ListStays(states: seq<State>, acts: seq<Stimulus>, k: Key, i: nat, j: nat)
    requires IsRun(states, acts) && Steady(states, acts) && i <= j < |states|
    requires forall n :: i <= n <= j ==> Open(states[n], k)
    ensures InStep(states[i]) && InStep(states[j]) && Open(states[i], k) && Open(states[j], k)
    ensures Questions(states[j], k) == Questions(states[i], k)
    decreases j
  {
    RunInStep(states, acts, j);
    if i < j {
      ListStays(states, acts, k, i, j - 1);
      StepInStep(states[j - 1], acts[j - 1]);
    }
  }
}
