/**
 The inactivity timeout (README.md:333-339): a report is given up after timeoutMs without a reply,
 never before, and its timer is never lost.
 */
module Timers {
  import opened Wrappers
  import opened Instants
  import opened Reminders
  import opened Protocol
  import opened RowOps
  import opened History
  import opened Lifecycle
  import opened QuestionLists

  // ---- A timer is queued for every open report ----

  /** A timer job for k is queued, due no later than the limit. */
  ghost predicate TimerBy(jobs: multiset<Queued>, k: Key, limit: Instant) {
    exists due :: due <= limit && Queued(TimeoutJob(k), due) in jobs
  }

  ghost predicate Armed(s: State, k: Key)
    requires k in s.reports
  {
    var deadline := s.reports[k].timeoutAt;
    deadline.Some? && deadline.value <= s.now + s.timeoutMs && TimerBy(s.jobs, k, deadline.value)
  }

  ghost predicate AllArmed(s: State) {
    forall k :: Open(s, k) ==> Armed(s, k)
  }

  lemma TimerKept(jobs: multiset<Queued>, more: multiset<Queued>, k: Key, limit: Instant)
    requires TimerBy(jobs, k, limit) && jobs <= more
    ensures TimerBy(more, k, limit)
  {
    var due :| due <= limit && Queued(TimeoutJob(k), due) in jobs;
    assert Queued(TimeoutJob(k), due) in more;
  }

  lemma OpArmsOne(s: State, op: Op, k: Key)
    requires Known(s) && Can(s, op) && Open(Do(s, op), k)
    requires Open(s, k) ==> Armed(s, k)
    ensures Armed(Do(s, op), k)
  {
    var t := Do(s, op);
    if op.OpenOp? && op.key == k {
      assert Queued(TimeoutJob(k), s.now + s.timeoutMs) in t.jobs;
    } else if op.AckOp? {
      AckArmed(s, op.item, k);
    } else {
      JobsGrow(s, op);
      OpEffect(s, op);
      TimerKept(s.jobs, t.jobs, k, s.reports[k].timeoutAt.value);
      if op.AcceptOp? && op.key == k {
        LaterDeadline(t.jobs, k, s.reports[k].timeoutAt.value, t.reports[k].timeoutAt.value);
      }
    }
  }

  lemma LaterDeadline(jobs: multiset<Queued>, k: Key, limit: Instant, later: Instant)
    requires TimerBy(jobs, k, limit) && limit <= later
    ensures TimerBy(jobs, k, later)
  {
  }

  lemma OpArmed(s: State, op: Op)
    requires Known(s) && AllArmed(s) && Can(s, op)
    ensures AllArmed(Do(s, op))
  {
    forall k | Open(Do(s, op), k) ensures Armed(Do(s, op), k) {
      OpArmsOne(s, op, k);
    }
  }

  lemma AckArmed(s: State, item: Queued, k: Key)
    requires Can(s, AckOp(item)) && Open(s, k) && Armed(s, k)
    ensures Armed(Ack(s, item), k)
  {
    var deadline := s.reports[k].timeoutAt.value;
    var due :| due <= deadline && Queued(TimeoutJob(k), due) in s.jobs;
    if item == Queued(TimeoutJob(k), due) {
      assert Queued(TimeoutJob(k), deadline) in Ack(s, item).jobs;
    } else {
      assert Queued(TimeoutJob(k), due) in Ack(s, item).jobs;
    }
  }

  // ---- No report is timed out before timeoutMs of silence ----

  /** The member was asked, or replied: what the inactivity clock counts from. */
  ghost predicate Activity(e: Event, k: Key) {
    (e.ReportOpened? || e.ReplyAccepted?) && e.key == k
  }

  /** Every activity lies at least timeoutMs before the deadline, and the last one exactly so. */
  ghost predicate DeadlineFollows(s: State, k: Key)
    requires k in s.reports
  {
    var deadline := s.reports[k].timeoutAt;
    && deadline.Some?
    && (forall i :: 0 <= i < |s.log| && Activity(s.log[i], k) ==> s.log[i].at + s.timeoutMs <= deadline.value)
    && (exists i :: 0 <= i < |s.log| && Activity(s.log[i], k) && s.log[i].at + s.timeoutMs == deadline.value)
  }

  ghost predicate NoneEarly(s: State) {
    forall i, j :: 0 <= i < j < |s.log| && s.log[j].ReportTimedOut? && Activity(s.log[i], s.log[j].key) ==>
      s.log[i].at + s.timeoutMs <= s.log[j].at
  }

  ghost predicate ActivityPast(s: State) {
    forall i :: 0 <= i < |s.log| && (s.log[i].ReportOpened? || s.log[i].ReplyAccepted?) ==> s.log[i].at <= s.now
  }

  ghost predicate Punctual(s: State) {
    && ActivityPast(s)
    && (forall k :: Open(s, k) ==> DeadlineFollows(s, k))
    && NoneEarly(s)
  }

  /** Only opening k or accepting a reply to it is an activity of k. */
  lemma NoActivity(s: State, op: Op, k: Key)
    requires Known(s) && Can(s, op)
    requires !(op.OpenOp? && op.key == k) && !(op.AcceptOp? && op.key == k)
    ensures s.log <= Do(s, op).log
    ensures forall n :: |s.log| <= n < |Do(s, op).log| ==> !Activity(Do(s, op).log[n], k)
  {
    OpSays(s, op);
    var t := Do(s, op);
    forall n | |s.log| <= n < |t.log| ensures !Activity(t.log[n], k) {
      assert Says(s, op, t.log[n]);
    }
  }

  lemma DeadlineKept(s: State, t: State, k: Key)
    requires k in s.reports && DeadlineFollows(s, k)
    requires k in t.reports && t.reports[k].timeoutAt == s.reports[k].timeoutAt && t.timeoutMs == s.timeoutMs
    requires s.log <= t.log && forall n :: |s.log| <= n < |t.log| ==> !Activity(t.log[n], k)
    ensures DeadlineFollows(t, k)
  {
    var i :| 0 <= i < |s.log| && Activity(s.log[i], k) && s.log[i].at + s.timeoutMs == s.reports[k].timeoutAt.value;
    assert t.log[i] == s.log[i];
    forall j | 0 <= j < |t.log| && Activity(t.log[j], k)
      ensures t.log[j].at + t.timeoutMs <= t.reports[k].timeoutAt.value
    {
      assert t.log[j] == s.log[j];
    }
  }

  lemma DeadlineSet(s: State, op: Op)
    requires Known(s) && Punctual(s) && Can(s, op) && (op.OpenOp? || op.AcceptOp?)
    ensures DeadlineFollows(Do(s, op), op.key)
  {
    var t := Do(s, op);
    OpSays(s, op);
    assert Activity(t.log[|s.log|], op.key) && t.log[|s.log|].at == s.now;
  }

  lemma OpNoneEarly(s: State, op: Op)
    requires Known(s) && Punctual(s) && Can(s, op)
    ensures NoneEarly(Do(s, op))
  {
    var t := Do(s, op);
    OpSays(s, op);
    JobsGrow(s, op);
    forall i, j | 0 <= i < j < |t.log| && t.log[j].ReportTimedOut? && Activity(t.log[i], t.log[j].key)
      ensures t.log[i].at + t.timeoutMs <= t.log[j].at
    {
      if j < |s.log| {
        assert t.log[j] == s.log[j] && t.log[i] == s.log[i];
      } else {
        assert Says(s, op, t.log[j]);
        var k := t.log[j].key;
        assert op.GiveUpOp? && op.key == k && Overdue(s, k) && t.log[j].at == s.now;
        NoActivity(s, op, k);
        assert i < |s.log| && t.log[i] == s.log[i];
        assert DeadlineFollows(s, k);
      }
    }
  }

  lemma OpActivityPast(s: State, op: Op)
    requires Known(s) && Punctual(s) && Can(s, op)
    ensures ActivityPast(Do(s, op))
  {
    var t := Do(s, op);
    OpSays(s, op);
    JobsGrow(s, op);
    forall i | 0 <= i < |t.log| && (t.log[i].ReportOpened? || t.log[i].ReplyAccepted?) ensures t.log[i].at <= t.now {
      if i < |s.log| {
        assert t.log[i] == s.log[i];
      } else {
        assert Says(s, op, t.log[i]);
      }
    }
  }

  lemma OpDeadline(s: State, op: Op, k: Key)
    requires Known(s) && Punctual(s) && Can(s, op) && Open(Do(s, op), k)
    ensures DeadlineFollows(Do(s, op), k)
  {
    if (op.OpenOp? || op.AcceptOp?) && op.key == k {
      DeadlineSet(s, op);
    } else {
      OpEffect(s, op);
      JobsGrow(s, op);
      NoActivity(s, op, k);
      DeadlineKept(s, Do(s, op), k);
    }
  }

  lemma OpPunctual(s: State, op: Op)
    requires Known(s) && Punctual(s) && Can(s, op)
    ensures Punctual(Do(s, op))
  {
    OpNoneEarly(s, op);
    OpActivityPast(s, op);
    forall k | Open(Do(s, op), k) ensures DeadlineFollows(Do(s, op), k) {
      OpDeadline(s, op, k);
    }
  }

  // ---- Whole runs ----

  ghost predicate Timed(s: State) {
    Known(s) && AllArmed(s) && Punctual(s)
  }

  lemma {:induction false} PlanTimed(s: State, plan: Plan)
    requires Timed(s) && Possible(s, plan)
    ensures Timed(Outcome(s, plan))
    decreases plan
  {
    match plan
    case Done =>
    case Then(op, rest) =>
      OpKnown(s, op);
      OpArmed(s, op);
      OpPunctual(s, op);
      PlanTimed(Do(s, op), rest);
  }

  lemma StepTimed(s: State, a: Stimulus)
    requires Timed(s) && Enabled(s, a)
    ensures Timed(Apply(s, a))
  {
    StepRefines(s, a);
    PlanTimed(s, StepPlan(s, a));
  }

  /**
   In every run of the system: each open report has a timer queued no later than its deadline,
   the deadline is its last activity plus timeoutMs, and no report was ever timed out less than
   timeoutMs after a question or an accepted reply.
   */
  lemma {:induction false} RunTimed(states: seq<State>, acts: seq<Stimulus>, i: nat)
    requires IsRun(states, acts) && i < |states|
    ensures Timed(states[i])
  {
    if i > 0 {
      RunTimed(states, acts, i - 1);
      RunKnown(states, acts, i - 1);
      StepTimed(states[i - 1], acts[i - 1]);
    }
  }

  /** An open report past its deadline has a timer that is due, and delivering it gives the report up. */
  lemma NeverLost(s: State, k: Key) returns (item: Queued)
    requires Timed(s) && Open(s, k) && Overdue(s, k)
    ensures item in s.jobs && item.due <= s.now && item.job == TimeoutJob(k)
    ensures forall net: Net :: HandleJob(s, item.job, net).Some?
              && k in HandleJob(s, item.job, net).value.reports
              && HandleJob(s, item.job, net).value.reports[k].status == TimedOut
  {
    var due :| due <= s.reports[k].timeoutAt.value && Queued(TimeoutJob(k), due) in s.jobs;
    item := Queued(TimeoutJob(k), due);
    FinalizeFrame(Close(s, k, ReportTimedOut(k, s.now)), k.run);
  }

  // ---- Prompt delivery: no report outlives its deadline ----

  /** No queued timer is overdue. */
  ghost predicate NoLateTimer(s: State) {
    forall q :: q in s.jobs && q.job.TimeoutJob? ==> s.now <= q.due
  }

  /** The clock waits for queued timers. */
  ghost predicate Waits(s: State, op: Op) {
    op.TickOp? ==> forall q :: q in s.jobs && q.job.TimeoutJob? ==> op.to <= q.due
  }

  lemma OpNoLateTimer(s: State, op: Op)
    requires Known(s) && Can(s, op) && NoLateTimer(s) && Waits(s, op)
    ensures NoLateTimer(Do(s, op))
  {
    match op
    case OpenOp(k, interval) => ReminderBatchJobs(k, s.now, ReminderDelays(interval * MINUTE, s.timeoutMs));
    case FanOutOp(run, exclude, immediate) =>
      SendBatchJobs(s.now, s.standups[run.standupId], s.members, run, exclude, immediate);
    case GiveUpOp(k, event) => GiveUpFrame(s, k, event);
    case FinishOp(k, answers, net) => FinishFrame(s, k, answers, net);
    case _ =>
  }

  predicate HasTick(plan: Plan) {
    plan.Then? && (plan.op.TickOp? || HasTick(plan.rest))
  }

  lemma {:induction false} PlanNoLateTimer(s: State, plan: Plan)
    requires Possible(s, plan) && NoLateTimer(s) && !HasTick(plan)
    ensures NoLateTimer(Outcome(s, plan))
    decreases plan
  {
    match plan
    case Done =>
    case Then(op, rest) =>
      OpKnown(s, op);
      OpNoLateTimer(s, op);
      PlanNoLateTimer(Do(s, op), rest);
  }

  lemma {:induction false} ChainTicks(plan: Plan, last: Plan)
    ensures HasTick(Chain(plan, last)) <==> HasTick(plan) || HasTick(last)
  {
    match plan
    case Done =>
    case Then(_, rest) => ChainTicks(rest, last);
  }

  /** Only the clock ticks. */
  lemma StepHasNoTick(s: State, a: Stimulus)
    requires Known(s) && Enabled(s, a) && !a.Tick?
    ensures !HasTick(StepPlan(s, a))
  {
    if a.Deliver? {
      JobHasNoTick(s, a.item.job, a.net);
      ChainTicks(JobPlan(s, a.item.job, a.net), Then(AckOp(a.item), Done));
    }
  }

  lemma JobHasNoTick(s: State, job: Job, net: Net)
    ensures !HasTick(JobPlan(s, job, net))
  {
    if job.RetriggerJob? && Startable(s, job.standupId) {
      var run := Today(s, job.standupId);
      var k := Key(run, job.user);
      assert !HasTick(Then(FanOutOp(run, Some(job.user), false), Done));
      assert !HasTick(Then(RunningOp(k), Then(FanOutOp(run, Some(job.user), false), Done)));
      assert !HasTick(Then(RunningOp(k), Done));
    }
    if job.OpenRunJob? && job.standupId in s.standups {
      assert !HasTick(Then(FanOutOp(Today(s, job.standupId), None, job.force), Done));
    }
  }

  ghost predicate Prompt(s: State, a: Stimulus) {
    a.Tick? ==> forall q :: q in s.jobs && q.job.TimeoutJob? ==> a.to <= q.due
  }

  lemma StepNoLateTimer(s: State, a: Stimulus)
    requires Known(s) && Enabled(s, a) && Prompt(s, a) && NoLateTimer(s)
    ensures NoLateTimer(Apply(s, a))
  {
    if !a.Tick? {
      StepRefines(s, a);
      StepHasNoTick(s, a);
      PlanNoLateTimer(s, StepPlan(s, a));
    }
  }

  lemma {:induction false} PromptRun(states: seq<State>, acts: seq<Stimulus>, i: nat)
    requires IsRun(states, acts) && i < |states|
    requires forall j :: 0 <= j < |acts| ==> Prompt(states[j], acts[j])
    ensures NoLateTimer(states[i])
  {
    if i > 0 {
      PromptRun(states, acts, i - 1);
      RunKnown(states, acts, i - 1);
      StepNoLateTimer(states[i - 1], acts[i - 1]);
    }
  }

  /** If the clock never passes a queued timer, no report is still open after its deadline. */
  lemma NoneOutlivesItsDeadline(states: seq<State>, acts: seq<Stimulus>, i: nat, k: Key)
    requires IsRun(states, acts) && i < |states|
    requires forall j :: 0 <= j < |acts| ==> Prompt(states[j], acts[j])
    requires Open(states[i], k)
    ensures states[i].reports[k].timeoutAt.Some? && states[i].now <= states[i].reports[k].timeoutAt.value
  {
    PromptRun(states, acts, i);
    RunTimed(states, acts, i);
  }

  // ---- A timer chain ends ----

  /** The timer queued for `due` trails the deadline of k. */
  ghost predicate Stale(s: State, k: Key, due: Instant)
    requires Open(s, k)
  {
    s.reports[k].timeoutAt.Some? && due < s.reports[k].timeoutAt.value
  }

  /** Replies accepted in this opening, less one while the timer has yet to move on for them. */
  ghost function Served(s: State, k: Key, due: Instant): int
    requires Open(s, k)
  {
    |s.reports[k].answers| - (if Stale(s, k, due) then 1 else 0)
  }

  /** The timer was due, found the deadline moved on, and is queued again for it. */
  ghost predicate MovedOn(s: State, k: Key, due: Instant, next: Instant) {
    Open(s, k) && due <= s.now && s.reports[k].timeoutAt == Some(next) && s.now < next
  }

  /** One step leaves a timer of k as it is, or delivers it and queues it again. */
  ghost predicate Follow(s: State, a: Stimulus, k: Key, due: Instant, next: Instant) {
    || next == due
    || (a.Deliver? && a.item == Queued(TimeoutJob(k), due) && MovedOn(s, k, due, next))
  }

  /** The handler queues the timer again exactly when the deadline lies ahead, and then for that deadline. */
  lemma MovesOnExactly(s: State, k: Key, due: Instant)
    requires Open(s, k) && due <= s.now
    ensures TimeoutReport(s, k).reports == s.reports <==> exists next :: MovedOn(s, k, due, next)
    ensures forall next :: MovedOn(s, k, due, next) ==> TimeoutReport(s, k) == Enqueue(s, TimeoutJob(k), next)
  {
    if Overdue(s, k) {
      FinalizeFrame(Close(s, k, ReportTimedOut(k, s.now)), k.run);
      assert TimeoutReport(s, k).reports[k].status == TimedOut;
    } else {
      assert MovedOn(s, k, due, s.reports[k].timeoutAt.value);
    }
  }

  lemma ServedGrows(s: State, t: State, k: Key, due: Instant, next: Instant)
    requires ReportsMove(s, t)
    requires Open(s, k) && Open(t, k) && Armed(s, k) && Armed(t, k)
    requires next == due || (MovedOn(s, k, due, next) && t.reports[k] == s.reports[k])
    ensures Served(s, k, due) + (if next != due then 1 else 0) <= Served(t, k, next)
  {
    assert Moves(Questions(s, k), s.reports[k], t.reports[k]);
  }

  lemma MovingOnChangesNoReport(s: State, k: Key, due: Instant, ack: bool, net: Net, next: Instant)
    requires MovedOn(s, k, due, next)
    ensures DeliverJob(s, Queued(TimeoutJob(k), due), ack, net).reports == s.reports
  {
  }

  lemma ServedStep(s: State, a: Stimulus, k: Key, due: Instant, next: Instant)
    requires Dated(s) && Timed(s) && Enabled(s, a) && Follow(s, a, k, due, next)
    requires Open(s, k) && Open(Apply(s, a), k)
    ensures Armed(s, k) && Armed(Apply(s, a), k)
    ensures Served(s, k, due) + (if next != due then 1 else 0) <= Served(Apply(s, a), k, next)
  {
    StepMoves(s, a);
    StepTimed(s, a);
    if next != due {
      MovingOnChangesNoReport(s, k, due, a.ack, a.net, next);
    }
    ServedGrows(s, Apply(s, a), k, due, next);
  }

  /** How often the timer moved on between two states. */
  function Shifts(dues: seq<Instant>, i: nat, j: nat): nat
    requires i <= j < |dues|
    decreases j
  {
    if i == j then 0 else Shifts(dues, i, j - 1) + (if dues[j] != dues[j - 1] then 1 else 0)
  }

  /** While k is open, the timer moves on once per accepted reply, and once more if it was stale. */
  lemma {:induction false} ChainServed(states: seq<State>, acts: seq<Stimulus>, k: Key,
                                       dues: seq<Instant>, i: nat, j: nat)
    requires IsRun(states, acts) && |dues| == |states| && i <= j < |states|
    requires forall n :: i <= n <= j ==> Open(states[n], k)
    requires forall n :: i <= n < j ==> Follow(states[n], acts[n], k, dues[n], dues[n + 1])
    ensures Open(states[i], k) && Open(states[j], k)
    ensures Served(states[i], k, dues[i]) + Shifts(dues, i, j) <= Served(states[j], k, dues[j])
    decreases j
  {
    if i < j {
      ChainServed(states, acts, k, dues, i, j - 1);
      RunDated(states, acts, j - 1);
      RunTimed(states, acts, j - 1);
      assert states[j] == Apply(states[j - 1], acts[j - 1]);
      ServedStep(states[j - 1], acts[j - 1], k, dues[j - 1], dues[j]);
    }
  }

  /**
   During one opening of a report a timer chain is queued again at most once more than there were
   accepted replies.
   */
  lemma ChainFollowsReplies(states: seq<State>, acts: seq<Stimulus>, k: Key, dues: seq<Instant>, i: nat, j: nat)
    requires IsRun(states, acts) && |dues| == |states| && i <= j < |states|
    requires forall n :: i <= n <= j ==> Open(states[n], k)
    requires forall n :: i <= n < j ==> Follow(states[n], acts[n], k, dues[n], dues[n + 1])
    ensures Open(states[i], k) && Open(states[j], k)
    ensures Shifts(dues, i, j) <= |states[j].reports[k].answers| - |states[i].reports[k].answers| + 1
  {
    ChainServed(states, acts, k, dues, i, j);
  }

  /**
   A timer chain ends: where the question list is not edited meanwhile, during one opening of a
   report it is queued again at most once for every question still open.
   */
  lemma ChainEnds(states: seq<State>, acts: seq<Stimulus>, k: Key, dues: seq<Instant>, i: nat, j: nat)
    requires IsRun(states, acts) && Steady(states, acts) && |dues| == |states| && i <= j < |states|
    requires forall n :: i <= n <= j ==> Open(states[n], k)
    requires forall n :: i <= n < j ==> Follow(states[n], acts[n], k, dues[n], dues[n + 1])
    ensures InStep(states[i]) && Open(states[i], k)
    ensures Shifts(dues, i, j) <= |Questions(states[i], k)| - |states[i].reports[k].answers|
  {
    ChainFollowsReplies(states, acts, k, dues, i, j);
    ListStays(states, acts, k, i, j);
    assert Fits(Questions(states[j], k), states[j].reports[k]);
  }
}
