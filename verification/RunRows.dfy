/** What a run row says, against what happened: its header message, its completion. */
module RunRows {
  import opened Wrappers
  import opened DmEngine
  import opened Instants
  import opened Protocol
  import opened RowOps
  import opened History

  /** A stored header reference was posted; a completed run says since when, and finalize said so. */
  ghost predicate RowTrue(log: seq<Event>, now: Instant, run: RunId, row: Run) {
    && row.status != RunPending
    && (row.openingTs.Some? ==> HeaderPosted(run, row.openingTs.value) in log)
    && (row.status == RunCompleted ==> row.completedAt.Some?)
    && (row.completedAt.Some? ==> row.completedAt.value <= now && Finalized(run) in log)
  }

  /** Every header posted is stored in its run row. */
  ghost predicate HeadersStored(log: seq<Event>, runs: map<RunId, Run>) {
    forall e :: e in log && e.HeaderPosted? ==> e.run in runs && runs[e.run].openingTs == Some(e.ts)
  }

  ghost predicate RowsTrue(s: State) {
    && HeadersStored(s.log, s.runs)
    && forall run :: run in s.runs ==> RowTrue(s.log, s.now, run, s.runs[run])
  }

  /** Run rows stay as they are, no header is posted. */
  lemma OthersTrue(s: State, t: State)
    requires RowsTrue(s) && t.runs == s.runs && s.now <= t.now && s.log <= t.log
    requires forall i :: |s.log| <= i < |t.log| ==> !t.log[i].HeaderPosted?
    ensures RowsTrue(t)
  {
    forall e | e in t.log && e.HeaderPosted? ensures e in s.log {
      var i :| 0 <= i < |t.log| && t.log[i] == e;
      assert t.log[i] == s.log[i];
    }
    assert forall e :: e in s.log ==> e in t.log;
  }

  lemma FinalizeTrue(s: State, run: RunId)
    requires RowsTrue(s)
    ensures RowsTrue(Finalize(s, run))
  {
    assert Finalized(run) in s.log + [Finalized(run)];
  }

  lemma RunningTrue(s: State, run: RunId)
    requires RowsTrue(s) && run in s.runs
    ensures RowsTrue(SetRunning(s, run))
  {
    assert forall e :: e in s.log ==> e in SetRunning(s, run).log;
  }

  lemma CreateTrue(s: State, run: RunId, team: Option<TeamId>, net: Net)
    requires RowsTrue(s) && run !in s.runs
    ensures RowsTrue(CreateRun(s, run, team, net))
  {
    var t := CreateRun(s, run, team, net);
    assert forall e :: e in s.log ==> e in t.log;
    assert t.runs[run].openingTs.Some? ==> t.log[|s.log| + 1] == HeaderPosted(run, t.runs[run].openingTs.value);
  }

  lemma FinishTrue(s: State, k: Key, answers: seq<Answer>, net: Net)
    requires Known(s) && RowsTrue(s) && Can(s, FinishOp(k, answers, net))
    ensures RowsTrue(Do(s, FinishOp(k, answers, net)))
  {
    var done := CompleteReport(s, k, answers);
    var posted := Broadcast(done, k, s.standups[k.run.standupId].teamId, net);
    OthersTrue(s, posted);
    FinalizeTrue(posted, k.run);
  }

  lemma GiveUpTrue(s: State, k: Key, event: Event)
    requires Known(s) && RowsTrue(s) && Can(s, GiveUpOp(k, event))
    ensures RowsTrue(Do(s, GiveUpOp(k, event)))
  {
    OthersTrue(s, Close(s, k, event));
    FinalizeTrue(Close(s, k, event), k.run);
  }

  predicate LeavesRuns(op: Op) {
    !op.CreateOp? && !op.RunningOp? && !op.FinishOp? && !op.GiveUpOp?
  }

  lemma QuietTrue(s: State, op: Op)
    requires Known(s) && RowsTrue(s) && Can(s, op) && LeavesRuns(op)
    ensures RowsTrue(Do(s, op))
  {
    OpSays(s, op);
    JobsGrow(s, op);
    var t := Do(s, op);
    forall i | |s.log| <= i < |t.log| ensures !t.log[i].HeaderPosted? {
      assert Says(s, op, t.log[i]);
    }
    RunsLeft(s, op);
    OthersTrue(s, t);
  }

  lemma RunsLeft(s: State, op: Op)
    requires Known(s) && Can(s, op) && LeavesRuns(op)
    ensures Do(s, op).runs == s.runs
  {
  }

  lemma OpRowsTrue(s: State, op: Op)
    requires Known(s) && RowsTrue(s) && Can(s, op)
    ensures RowsTrue(Do(s, op))
  {
    match op
    case CreateOp(run, net) => CreateTrue(s, run, s.standups[run.standupId].teamId, net);
    case RunningOp(k) => RunningTrue(s, k.run);
    case FinishOp(k, answers, net) => FinishTrue(s, k, answers, net);
    case GiveUpOp(k, event) => GiveUpTrue(s, k, event);
    case _ => QuietTrue(s, op);
  }

  lemma {:induction false} PlanRowsTrue(s: State, plan: Plan)
    requires Possible(s, plan) && RowsTrue(s)
    ensures RowsTrue(Outcome(s, plan))
    decreases plan
  {
    match plan
    case Done =>
    case Then(op, rest) =>
      OpKnown(s, op);
      OpRowsTrue(s, op);
      PlanRowsTrue(Do(s, op), rest);
  }

  lemma StepRowsTrue(s: State, a: Stimulus)
    requires Known(s) && RowsTrue(s) && Enabled(s, a)
    ensures RowsTrue(Apply(s, a))
  {
    StepRefines(s, a);
    PlanRowsTrue(s, StepPlan(s, a));
  }

  /**
   In every run of the system: every header posted for a run is stored in its row and every stored
   reference was posted; a completed run has a completion time, none of which lies ahead or was
   written without finalize having returned true.
   */
  lemma {:induction false} RunRowsTrue(states: seq<State>, acts: seq<Stimulus>, i: nat)
    requires IsRun(states, acts) && i < |states|
    ensures RowsTrue(states[i])
  {
    if i > 0 {
      RunRowsTrue(states, acts, i - 1);
      RunKnown(states, acts, i - 1);
      StepRowsTrue(states[i - 1], acts[i - 1]);
    }
  }
}
