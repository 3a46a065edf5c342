/** The life of a report: one step of the system moves it at most one stage along. */
module Lifecycle {
  import opened Wrappers
  import opened DmEngine
  import opened Protocol
  import opened RowOps

  /** No report was created in the future, and a completed one says when it was reported. */
  ghost predicate Dated(s: State) {
    && Known(s)
    && forall k :: k in s.reports ==>
         var r := s.reports[k];
         && r.createdAt <= s.now
         && (r.status == Completed ==> r.reportedAt.Some? && r.createdAt <= r.reportedAt.value)
  }

  /** The stages of a report, as one relation between the row before and after; questions is the list in force. */
  ghost predicate Moves(questions: seq<Question>, r: Report, t: Report) {
    || t == r                                                                                // untouched
    || (r.status == InProgress && t.status == InProgress                                     // next answer
        && Extends(questions, r.answers, t.answers) && |t.answers| < |questions|)
    || (r.status == InProgress && t.status == Completed                                      // last answer
        && Extends(questions, r.answers, t.answers) && |t.answers| == |questions|)
    || (r.status == InProgress && t.status == TimedOut && t.answers == r.answers)            // given up
    || (r.status == TimedOut && t.status == InProgress && t.answers == [])                   // started again
  }

  ghost predicate ReportsMove(s: State, t: State) {
    && Grows(s, t)
    && (forall k :: k in s.reports ==>
          k.run.standupId in s.standups && Moves(Questions(s, k), s.reports[k], t.reports[k]))
    && (forall k :: k in t.reports && k !in s.reports ==>
          t.reports[k].status == InProgress && t.reports[k].answers == [])
  }

  /** No report row changes, and none appears. */
  ghost predicate Quiet(s: State, t: State) {
    Grows(s, t) && t.standups == s.standups && t.reports == s.reports
  }

  predicate Touches(op: Op) {
    op.OpenOp? || op.GiveUpOp? || op.AcceptOp? || op.FinishOp?
  }

  /** The report an operation may change. */
  function Target(op: Op): Key
    requires Touches(op)
  {
    op.key
  }

  /** The row an operation leaves for its report: what it says and where it stands. */
  ghost predicate Row(s: State, op: Op, r: Report)
    requires Touches(op) && Known(s) && Can(s, op)
  {
    match op
    case OpenOp(k, _) => r == FreshReport(s, k)
    case GiveUpOp(k, _) => r == s.reports[k].(status := TimedOut)
    case AcceptOp(k, answers) => r == s.reports[k].(answers := answers, timeoutAt := Some(s.now + s.timeoutMs))
    case FinishOp(k, answers, _) =>
      r == s.reports[k].(answers := answers, status := Completed, reportedAt := Some(s.now),
                         channelPostTs := r.channelPostTs, postedAs := r.postedAs)
  }

  /** An operation changes its own report only, and configuration or clock only by name. */
  lemma OpEffect(s: State, op: Op)
    requires Known(s) && Can(s, op)
    ensures Touches(op) ==>
              && Target(op) in Do(s, op).reports
              && Row(s, op, Do(s, op).reports[Target(op)])
              && Do(s, op).reports == s.reports[Target(op) := Do(s, op).reports[Target(op)]]
    ensures !Touches(op) ==> Do(s, op).reports == s.reports
    ensures !op.ConfigureOp? ==> Do(s, op).standups == s.standups
    ensures !op.TickOp? ==> Do(s, op).now == s.now
  {
    match op
    case GiveUpOp(k, event) => GiveUpFrame(s, k, event);
    case FinishOp(k, answers, net) => FinishFrame(s, k, answers, net);
    case OpenOp(_, _) =>
    case AcceptOp(_, _) =>
    case _ => QuietEffect(s, op);
  }

  lemma QuietEffect(s: State, op: Op)
    requires Known(s) && Can(s, op) && !Touches(op)
    ensures Do(s, op).reports == s.reports
    ensures !op.ConfigureOp? ==> Do(s, op).standups == s.standups
    ensures !op.TickOp? ==> Do(s, op).now == s.now
  {
    match op
    case CreateOp(run, net) => CreateEffect(s, run, s.standups[run.standupId].teamId, net);
    case RunningOp(k) =>
    case FanOutOp(run, exclude, immediate) =>
    case EnqueueOp(job, due) =>
    case NudgeOp(k) =>
    case AckOp(item) =>
    case TickOp(to) =>
    case ConfigureOp(_, _, _) =>
  }

  lemma CreateEffect(s: State, run: RunId, team: Option<TeamId>, net: Net)
    ensures var t := CreateRun(s, run, team, net);
            t.reports == s.reports && t.standups == s.standups && t.now == s.now
  {
  }

  lemma RowMoves(s: State, op: Op, r: Report)
    requires Dated(s) && Can(s, op) && Touches(op) && Row(s, op, r)
    ensures Target(op).run in s.runs
    ensures r.createdAt <= s.now && (r.status == Completed ==> r.reportedAt.Some? && r.createdAt <= r.reportedAt.value)
    ensures Target(op) in s.reports ==> Moves(Questions(s, Target(op)), s.reports[Target(op)], r)
    ensures Target(op) !in s.reports ==> r.status == InProgress && r.answers == []
  {
  }

  lemma OpDated(s: State, op: Op)
    requires Dated(s) && Can(s, op)
    ensures Dated(Do(s, op))
  {
    OpKnown(s, op);
    OpEffect(s, op);
    if Touches(op) {
      RowMoves(s, op, Do(s, op).reports[Target(op)]);
    }
  }

  lemma OpMoves(s: State, op: Op)
    requires Dated(s) && Can(s, op) && !op.ConfigureOp?
    ensures ReportsMove(s, Do(s, op)) && Do(s, op).standups == s.standups
    ensures !Touches(op) ==> Quiet(s, Do(s, op))
  {
    OpKnown(s, op);
    OpEffect(s, op);
    if Touches(op) {
      RowMoves(s, op, Do(s, op).reports[Target(op)]);
      OneRowMoves(s, Do(s, op), Target(op));
    }
  }

  lemma OneRowMoves(s: State, t: State, k: Key)
    requires Known(s) && Grows(s, t)
    requires k in t.reports && t.reports == s.reports[k := t.reports[k]]
    requires if k in s.reports then Moves(Questions(s, k), s.reports[k], t.reports[k])
             else t.reports[k].status == InProgress && t.reports[k].answers == []
    ensures ReportsMove(s, t)
  {
  }

  // ---- Whole plans ----

  function TouchCount(plan: Plan): nat {
    match plan
    case Done => 0
    case Then(op, rest) => (if Touches(op) then 1 else 0) + TouchCount(rest)
  }

  lemma {:induction false} ChainTouches(plan: Plan, last: Plan)
    ensures TouchCount(Chain(plan, last)) == TouchCount(plan) + TouchCount(last)
  {
    match plan
    case Done =>
    case Then(_, rest) => ChainTouches(rest, last);
  }

  /** A handler changes at most one report. */
  lemma StepTouchesOne(s: State, a: Stimulus)
    requires Known(s) && Enabled(s, a)
    ensures TouchCount(StepPlan(s, a)) <= 1
  {
    if a.Deliver? {
      JobTouchesOne(s, a.item.job, a.net);
      ChainTouches(JobPlan(s, a.item.job, a.net), Then(AckOp(a.item), Done));
    }
  }

  lemma JobTouchesOne(s: State, job: Job, net: Net)
    ensures TouchCount(JobPlan(s, job, net)) <= 1
  {
    if job.RetriggerJob? && Startable(s, job.standupId) {
      var run := Today(s, job.standupId);
      var k := Key(run, job.user);
      assert TouchCount(Then(FanOutOp(run, Some(job.user), false), Done)) == 0;
      assert TouchCount(Then(RunningOp(k), Then(FanOutOp(run, Some(job.user), false), Done))) == 0;
      assert TouchCount(Then(RunningOp(k), Done)) == 0;
    }
    if job.OpenRunJob? && job.standupId in s.standups {
      assert TouchCount(Then(FanOutOp(Today(s, job.standupId), None, job.force), Done)) == 0;
    }
  }

  lemma {:induction false} PlanMoves(s: State, plan: Plan)
    requires Dated(s) && Possible(s, plan) && TouchCount(plan) <= 1 && !Configures(plan)
    ensures Dated(Outcome(s, plan)) && ReportsMove(s, Outcome(s, plan))
    ensures Outcome(s, plan).standups == s.standups
    ensures TouchCount(plan) == 0 ==> Quiet(s, Outcome(s, plan))
    decreases plan
  {
    match plan
    case Done =>
    case Then(op, rest) =>
      OpDated(s, op);
      OpMoves(s, op);
      PlanMoves(Do(s, op), rest);
      GrowsTransitive(s, Do(s, op), Outcome(s, plan));
      ComposeMoves(s, Do(s, op), Outcome(s, plan), Touches(op));
  }

  lemma ComposeMoves(s: State, t: State, u: State, first: bool)
    requires Grows(s, u) && ReportsMove(s, t) && ReportsMove(t, u)
    requires if first then Quiet(t, u) else Quiet(s, t)
    ensures ReportsMove(s, u)
    ensures !first && Quiet(t, u) ==> Quiet(s, u)
  {
  }

  /**
   One step of the system moves each report at most one stage: completed is final and has one answer
   per question of the list in force, answers grow by one at the end, recorded under the question
   at that position in the list in force, and start again from none only out of timed_out.
   */
  lemma StepMoves(s: State, a: Stimulus)
    requires Dated(s) && Enabled(s, a)
    ensures Dated(Apply(s, a)) && ReportsMove(s, Apply(s, a))
    ensures !a.Configure? ==> Apply(s, a).standups == s.standups
  {
    if !a.Configure? {
      StepRefines(s, a);
      StepTouchesOne(s, a);
      StepConfigures(s, a);
      PlanMoves(s, StepPlan(s, a));
    }
  }

  /** Each state moves every report at most one stage on from the state before. */
  ghost predicate Moving(states: seq<State>) {
    forall i :: 0 < i < |states| ==> ReportsMove(states[i - 1], states[i])
  }

  lemma {:induction false} RunDated(states: seq<State>, acts: seq<Stimulus>, i: nat)
    requires IsRun(states, acts) && i < |states|
    ensures Dated(states[i])
    ensures i > 0 ==> ReportsMove(states[i - 1], states[i])
  {
    if i > 0 {
      RunDated(states, acts, i - 1);
      StepMoves(states[i - 1], acts[i - 1]);
    }
  }

  lemma RunMoving(states: seq<State>, acts: seq<Stimulus>)
    requires IsRun(states, acts)
    ensures Moving(states)
  {
    forall i | 0 < i < |states| ensures ReportsMove(states[i - 1], states[i]) {
      RunDated(states, acts, i);
    }
  }

  /** The step from s to t closed the report k, leaving the row r. */
  ghost predicate ClosedIn(s: State, t: State, k: Key, r: Report) {
    && Open(s, k) && k.run.standupId in s.standups && k in t.reports && t.reports[k] == r
    && Moves(Questions(s, k), s.reports[k], r) && r.status != InProgress
  }

  lemma {:induction false} ClosedAlong(states: seq<State>, j: nat, k: Key) returns (i: nat)
    requires Moving(states) && j < |states| && states[0].reports == map[]
    requires k in states[j].reports && states[j].reports[k].status != InProgress
    ensures i < j && ClosedIn(states[i], states[i + 1], k, states[j].reports[k])
  {
    assert j > 0;
    assert ReportsMove(states[j - 1], states[j]);
    if Open(states[j - 1], k) {
      i := j - 1;
    } else {
      i := ClosedAlong(states, j - 1, k);
    }
  }

  /**
   In every run of the system, a report that is not open was closed by some step with the answers
   it has: if it is completed, one for every question of the list in force at that step, the last
   recorded under the last question; if it timed out, those it had.
   */
  lemma ClosedInForce(states: seq<State>, acts: seq<Stimulus>, j: nat, k: Key) returns (i: nat)
    requires IsRun(states, acts) && j < |states|
    requires k in states[j].reports && states[j].reports[k].status != InProgress
    ensures i < j && ClosedIn(states[i], states[i + 1], k, states[j].reports[k])
  {
    RunMoving(states, acts);
    i := ClosedAlong(states, j, k);
  }

  lemma FinalStep(s: State, t: State, k: Key)
    requires ReportsMove(s, t) && k in s.reports && s.reports[k].status == Completed
    ensures k in t.reports && t.reports[k] == s.reports[k]
  {
  }

  lemma {:induction false} FinalAlong(states: seq<State>, i: nat, j: nat, k: Key)
    requires Moving(states) && i <= j < |states|
    requires k in states[i].reports && states[i].reports[k].status == Completed
    ensures k in states[j].reports && states[j].reports[k] == states[i].reports[k]
    decreases j
  {
    if i < j {
      FinalAlong(states, i, j - 1, k);
      assert ReportsMove(states[j - 1], states[j]);
      FinalStep(states[j - 1], states[j], k);
    }
  }

  /** In every run of the system, the row of a report once completed never changes again. */
  lemma CompletedIsFinal(states: seq<State>, acts: seq<Stimulus>, i: nat, j: nat, k: Key)
    requires IsRun(states, acts) && i <= j < |states|
    requires k in states[i].reports && states[i].reports[k].status == Completed
    ensures k in states[j].reports && states[j].reports[k] == states[i].reports[k]
  {
    RunMoving(states, acts);
    FinalAlong(states, i, j, k);
  }
}
