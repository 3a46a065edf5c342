/** Completed runs with an open report: the one step that makes them, and how it comes about. */
module LateSends {
  import opened Wrappers
  import opened DmEngine
  import opened Protocol
  import opened RowOps
  import opened Runs
  import opened Scenarios

  /** No completed run has an open report. */
  ghost predicate Tidy(s: State) {
    forall k :: Open(s, k) ==> !IsCompleted(s, k.run)
  }

  /** The delivery of a send-dm into a completed run for a user who has no report in it. */
  ghost predicate LateSend(s: State, a: Stimulus) {
    && a.Deliver? && a.item.job.SendDmJob?
    && IsCompleted(s, a.item.job.run) && Key(a.item.job.run, a.item.job.user) !in s.reports
  }

  // ---- Operations ----

  lemma FinalizeTidy(s: State, run: RunId)
    requires Tidy(s)
    ensures Tidy(Finalize(s, run))
  {
  }

  /** At most the report k changes, and it is not open any more; no run row changes. */
  lemma ClosedTidy(s: State, t: State, k: Key)
    requires Tidy(s) && t.runs == s.runs && k in t.reports && t.reports[k].status != InProgress
    requires t.reports == s.reports[k := t.reports[k]]
    ensures Tidy(t)
  {
    forall j | Open(t, j) ensures !IsCompleted(t, j.run) {
      assert Open(s, j);
    }
  }

  lemma GiveUpTidy(s: State, k: Key, event: Event)
    requires Known(s) && Tidy(s) && Can(s, GiveUpOp(k, event))
    ensures Tidy(Do(s, GiveUpOp(k, event)))
  {
    ClosedTidy(s, Close(s, k, event), k);
    FinalizeTidy(Close(s, k, event), k.run);
  }

  lemma FinishTidy(s: State, k: Key, answers: seq<Answer>, net: Net)
    requires Known(s) && Tidy(s) && Can(s, FinishOp(k, answers, net))
    ensures Tidy(Do(s, FinishOp(k, answers, net)))
  {
    var done := CompleteReport(s, k, answers);
    var posted := Broadcast(done, k, s.standups[k.run.standupId].teamId, net);
    ClosedTidy(s, posted, k);
    FinalizeTidy(posted, k.run);
  }

  /** No other operation closes a report or completes a run; opening one matters in a completed run only. */
  lemma OthersTidy(s: State, op: Op)
    requires Known(s) && Tidy(s) && Can(s, op) && !op.GiveUpOp? && !op.FinishOp?
    requires op.OpenOp? ==> !IsCompleted(s, op.key.run)
    ensures Tidy(Do(s, op))
  {
    var t := Do(s, op);
    forall j | Open(t, j) ensures !IsCompleted(t, j.run) {
      assert Open(s, j) || (op.OpenOp? && j == op.key);
    }
  }

  lemma OpTidy(s: State, op: Op)
    requires Known(s) && Tidy(s) && Can(s, op)
    requires op.OpenOp? ==> !IsCompleted(s, op.key.run)
    ensures Tidy(Do(s, op))
  {
    match op
    case GiveUpOp(k, event) => GiveUpTidy(s, k, event);
    case FinishOp(k, answers, net) => FinishTidy(s, k, answers, net);
    case _ => OthersTidy(s, op);
  }

  // ---- Steps ----

  predicate Opens(plan: Plan) {
    plan.Then? && (plan.op.OpenOp? || Opens(plan.rest))
  }

  lemma {:induction false} PlanTidy(s: State, plan: Plan)
    requires Possible(s, plan) && Tidy(s) && !Opens(plan)
    ensures Tidy(Outcome(s, plan))
    decreases plan
  {
    match plan
    case Done =>
    case Then(op, rest) =>
      OpTidy(s, op);
      PlanTidy(Do(s, op), rest);
  }

  /** Reopening a report sets its run running, so a completed one is completed no longer. */
  lemma ReopenTidy(s: State, k: Key, first: Question, interval: int)
    requires Tidy(s) && k.run in s.runs
    ensures Tidy(SetRunning(OpenReport(s, k, first, interval), k.run))
  {
    var t := SetRunning(OpenReport(s, k, first, interval), k.run);
    forall j | Open(t, j) ensures !IsCompleted(t, j.run) {
      assert j.run != k.run ==> Open(s, j);
    }
  }

  lemma RetriggerTidy(s: State, id: StandupId, user: UserId, net: Net)
    requires Known(s) && Tidy(s)
    ensures Tidy(Retrigger(s, id, user, net))
  {
    if Startable(s, id) {
      var run := Today(s, id);
      var ready := EnsureRunOpen(s, id, net);
      if run !in s.runs {
        OpTidy(s, CreateOp(run, net));
      }
      ReopenTidy(ready, Key(run, user), s.standups[id].questions[0], s.standups[id].reminderIntervalMinutes);
    }
  }

  lemma JobTidy(s: State, job: Job, net: Net)
    requires Known(s) && Tidy(s)
    requires job.SendDmJob? ==>
               && job.run in s.runs && job.standupId == job.run.standupId
               && (IsCompleted(s, job.run) ==> Key(job.run, job.user) in s.reports)
    requires job.ReminderJob? ==> ReminderDue(s, job.key)
    ensures HandleJob(s, job, net).Some? && Tidy(HandleJob(s, job, net).value)
  {
    JobRefines(s, job, net);
    match job
    case RetriggerJob(id, user) => RetriggerTidy(s, id, user, net);
    case SendDmJob(run, id, user) => SendTidy(s, run, user);
    case OpenRunJob(id, force) =>
      OpenRunOpensNone(s, id, force, net);
      PlanTidy(s, OpenRunPlan(s, id, force, net));
    case _ => PlanTidy(s, JobPlan(s, job, net));
  }

  lemma OpenRunOpensNone(s: State, id: StandupId, force: bool, net: Net)
    ensures !Opens(OpenRunPlan(s, id, force, net))
  {
    if id in s.standups {
      assert !Opens(Then(FanOutOp(Today(s, id), None, force), Done));
    }
  }

  lemma SendTidy(s: State, run: RunId, user: UserId)
    requires Known(s) && Tidy(s) && run in s.runs
    requires IsCompleted(s, run) ==> Key(run, user) in s.reports
    ensures SendDm(s, run, run.standupId, user).Some? && Tidy(SendDm(s, run, run.standupId, user).value)
  {
    if Key(run, user) !in s.reports {
      OpTidy(s, OpenOp(Key(run, user), s.standups[run.standupId].reminderIntervalMinutes));
    }
  }

  /**
   A completed run may hold an open report: send-dm for a member who joined late opens one and
   leaves the run completed.
   */
  lemma LateSendLeavesRunCompleted(s: State, run: RunId, user: UserId)
    requires Known(s) && IsCompleted(s, run) && Key(run, user) !in s.reports
    ensures SendDm(s, run, run.standupId, user).Some?
    ensures var t := SendDm(s, run, run.standupId, user).value;
            IsCompleted(t, run) && Open(t, Key(run, user)) && !AllTerminal(t, run)
  {
    var t := SendDm(s, run, run.standupId, user).value;
    assert t.reports[Key(run, user)].status == InProgress;
  }

  lemma LateSendUntidy(s: State, a: Stimulus)
    requires Known(s) && Enabled(s, a) && LateSend(s, a)
    ensures !Tidy(Apply(s, a))
  {
    var k := Key(a.item.job.run, a.item.job.user);
    LateSendLeavesRunCompleted(s, k.run, k.user);
    assert Open(Apply(s, a), k) && IsCompleted(Apply(s, a), k.run);
  }

  /**
   A step leaves no completed run with an open report, if there was none before, exactly unless it
   delivers a send-dm into a completed run for a user without a report in it.
   */
  lemma StepTidyExactly(s: State, a: Stimulus)
    requires Known(s) && Enabled(s, a) && Tidy(s)
    ensures Tidy(Apply(s, a)) <==> !LateSend(s, a)
  {
    if LateSend(s, a) {
      LateSendUntidy(s, a);
    } else if a.Deliver? {
      JobTidy(s, a.item.job, a.net);
      AckTidy(HandleJob(s, a.item.job, a.net).value, a.item);
    } else {
      StepRefines(s, a);
      PlanTidy(s, StepPlan(s, a));
    }
  }

  lemma AckTidy(s: State, item: Queued)
    requires Tidy(s)
    ensures Tidy(Ack(s, item))
  {
    assert forall k :: Open(Ack(s, item), k) ==> Open(s, k);
  }

  // ---- Whole runs ----

  ghost predicate TidyUpTo(states: seq<State>, i: nat)
    requires i < |states|
  {
    forall j :: 0 <= j <= i ==> Tidy(states[j])
  }

  ghost predicate NoLateSendBefore(states: seq<State>, acts: seq<Stimulus>, i: nat)
    requires i <= |acts| && i < |states|
  {
    forall j :: 0 <= j < i ==> !LateSend(states[j], acts[j])
  }

  lemma StepOfRun(states: seq<State>, acts: seq<Stimulus>, i: nat)
    requires IsRun(states, acts) && 0 < i < |states| && Tidy(states[i - 1])
    ensures Tidy(states[i]) <==> !LateSend(states[i - 1], acts[i - 1])
  {
    RunKnown(states, acts, i - 1);
    StepTidyExactly(states[i - 1], acts[i - 1]);
  }

  /**
   In every run of the system no completed run ever had an open report if and only if no send-dm
   was delivered into a completed run for a user without a report in it.
   */
  lemma {:induction false} RunTidyExactly(states: seq<State>, acts: seq<Stimulus>, i: nat)
    requires IsRun(states, acts) && i < |states|
    ensures TidyUpTo(states, i) <==> NoLateSendBefore(states, acts, i)
  {
    if i > 0 {
      RunTidyExactly(states, acts, i - 1);
      assert TidyUpTo(states, i) <==> TidyUpTo(states, i - 1) && Tidy(states[i]);
      assert NoLateSendBefore(states, acts, i)
        <==> NoLateSendBefore(states, acts, i - 1) && !LateSend(states[i - 1], acts[i - 1]);
      if TidyUpTo(states, i - 1) {
        StepOfRun(states, acts, i);
      }
    } else {
      assert Tidy(states[0]);
    }
  }

  // ---- A run that gets there ----

  function Pair(): seq<Member> {
    [Member(Some("team"), "first", None, true), Member(Some("team"), "second", None, true)]
  }

  /** Two members of one team. */
  function FreshSystem(timeoutMs: nat): State {
    State(0, timeoutMs, map["daily" := Daily("team", Question("q", "What did you do?"))], {}, Pair(),
          map[], map[], multiset{}, 0, [])
  }

  lemma PairReports()
    ensures "first" in Roster(Pair(), Some("team")) && "second" in Roster(Pair(), Some("team"))
  {
    assert Reports(Pair()[0], Some("team")) && Reports(Pair()[1], Some("team"));
  }

  /** The first member's report is open, its timer armed, while the second send is queued. */
  lemma OneAsked(timeoutMs: nat) returns (t: State)
    ensures var run := RunId("daily", 0);
            var k := Key(run, "first");
            && Reachable(t) && t.standups == FreshSystem(timeoutMs).standups
            && t.now == 0 && run in t.runs && t.reports.Keys == {k} && Open(t, k)
            && t.reports[k].timeoutAt == Some(timeoutMs)
            && Queued(TimeoutJob(k), timeoutMs) in t.jobs && SendTo(run, "second", 0) in t.jobs
  {
    var s := FreshSystem(timeoutMs);
    var run := RunId("daily", 0);
    StartReachable(s);
    PairReports();
    assert Today(s, "daily") == run;
    t := ForcedOpen(s, "daily");
    t := SendDelivered(t, run, "first", 0);
  }

  /** Whatever the timeout: the first member times out, which completes the run, before the second is asked. */
  lemma LateSendIsReachable(timeoutMs: nat) returns (t: State)
    ensures Reachable(t) && !Tidy(t)
  {
    var run := RunId("daily", 0);
    t := OneAsked(timeoutMs);
    t := TimePasses(t, timeoutMs);
    t := TimedOutAt(t, Key(run, "first"));
    t := SendDelivered(t, run, "second", 0);
    assert Open(t, Key(run, "second")) && IsCompleted(t, run);
  }
}
