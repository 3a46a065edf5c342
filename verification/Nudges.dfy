/** How often a member can be reminded of one report. */
module Nudges {
  import opened Wrappers
  import opened DmEngine
  import opened Instants
  import opened Reminders
  import opened Protocol
  import opened RowOps
  import opened History

  // ---- Counting queued jobs by payload ----

  ghost function QueuedCount(jobs: multiset<Queued>, job: Job): nat
    decreases |jobs|
  {
    if jobs == multiset{} then 0
    else
      var q :| q in jobs;
      QueuedCount(jobs - multiset{q}, job) + (if q.job == job then 1 else 0)
  }

  lemma {:induction false} QueuedCountAdd(jobs: multiset<Queued>, q: Queued, job: Job)
    ensures QueuedCount(jobs + multiset{q}, job) == QueuedCount(jobs, job) + (if q.job == job then 1 else 0)
    decreases |jobs|
  {
    var more := jobs + multiset{q};
    assert q in more;
    var p := TakeOne(more, job);
    if p == q {
      assert more - multiset{p} == jobs;
    } else {
      var rest := jobs - multiset{p};
      TwoApart(jobs, p, q);
      QueuedCountAdd(rest, q, job);
      QueuedCountAdd(rest, p, job);
    }
  }

  lemma TakeOne(jobs: multiset<Queued>, job: Job) returns (p: Queued)
    requires jobs != multiset{}
    ensures p in jobs
    ensures QueuedCount(jobs, job) == QueuedCount(jobs - multiset{p}, job) + (if p.job == job then 1 else 0)
  {
    p :| p in jobs && QueuedCount(jobs, job) == QueuedCount(jobs - multiset{p}, job) + (if p.job == job then 1 else 0);
  }

  lemma TwoApart(jobs: multiset<Queued>, p: Queued, q: Queued)
    requires p in jobs + multiset{q} && p != q
    ensures p in jobs
    ensures jobs + multiset{q} - multiset{p} == jobs - multiset{p} + multiset{q}
    ensures jobs - multiset{p} + multiset{p} == jobs
    ensures |jobs - multiset{p}| < |jobs|
  {
  }

  lemma {:induction false} QueuedCountUnion(jobs: multiset<Queued>, more: multiset<Queued>, job: Job)
    ensures QueuedCount(jobs + more, job) == QueuedCount(jobs, job) + QueuedCount(more, job)
    decreases |more|
  {
    if more == multiset{} {
      assert jobs + more == jobs;
    } else {
      var q :| q in more;
      var rest := more - multiset{q};
      QueuedCountUnion(jobs, rest, job);
      QueuedCountAdd(jobs + rest, q, job);
      QueuedCountAdd(rest, q, job);
      assert jobs + more == jobs + rest + multiset{q};
      assert more == rest + multiset{q};
    }
  }

  lemma {:induction false} QueuedCountNone(jobs: multiset<Queued>, job: Job)
    requires forall q :: q in jobs ==> q.job != job
    ensures QueuedCount(jobs, job) == 0
    decreases |jobs|
  {
    if jobs != multiset{} {
      var q := TakeOne(jobs, job);
      QueuedCountNone(jobs - multiset{q}, job);
    }
  }

  lemma {:induction false} BatchCount(k: Key, base: Instant, delays: seq<int>, j: Key)
    ensures QueuedCount(ReminderBatch(k, base, delays), ReminderJob(j)) == (if j == k then |delays| else 0)
  {
    if delays != [] {
      var front := delays[..|delays| - 1];
      BatchCount(k, base, front, j);
      var last := Queued(ReminderJob(k), base + delays[|delays| - 1]);
      QueuedCountAdd(ReminderBatch(k, base, front), last, ReminderJob(j));
    }
  }

  // ---- What the history granted and used ----

  /** Reminders queued over all openings of k. */
  function Granted(log: seq<Event>, k: Key): nat {
    if log == [] then 0
    else
      var e := log[|log| - 1];
      Granted(log[..|log| - 1], k) + (if e.ReportOpened? && e.key == k then e.reminders else 0)
  }

  predicate IsNudge(e: Event, k: Key) {
    e.Nudged? && e.key == k
  }

  /** Reminders posted for k. */
  function Used(log: seq<Event>, k: Key): nat {
    if log == [] then 0
    else Used(log[..|log| - 1], k) + (if IsNudge(log[|log| - 1], k) then 1 else 0)
  }

  lemma {:induction false} TalliesKept(log: seq<Event>, more: seq<Event>, k: Key)
    requires log <= more
    requires forall i :: |log| <= i < |more| ==> !(more[i].ReportOpened? && more[i].key == k) && !IsNudge(more[i], k)
    ensures Granted(more, k) == Granted(log, k) && Used(more, k) == Used(log, k)
    decreases |more|
  {
    if |more| > |log| {
      TalliesKept(log, more[..|more| - 1], k);
    } else {
      assert more == log;
    }
  }

  /** Reminders posted and still queued exceed those granted by no more than those delivered in vain. */
  ghost predicate Within(s: State, k: Key, lost: nat) {
    Used(s.log, k) + QueuedCount(s.jobs, ReminderJob(k)) <= Granted(s.log, k) + lost
  }

  lemma TimerBatchCount(jobs: multiset<Queued>, j: Key, base: Instant, due: Instant, delays: seq<int>, k: Key)
    ensures QueuedCount(jobs + multiset{Queued(TimeoutJob(j), due)} + ReminderBatch(j, base, delays), ReminderJob(k))
         == QueuedCount(jobs, ReminderJob(k)) + (if j == k then |delays| else 0)
  {
    var timer := Queued(TimeoutJob(j), due);
    QueuedCountAdd(jobs, timer, ReminderJob(k));
    QueuedCountUnion(jobs + multiset{timer}, ReminderBatch(j, base, delays), ReminderJob(k));
    BatchCount(j, base, delays, k);
  }

  lemma OpenJobs(s: State, j: Key, first: Question, interval: int) returns (delays: seq<int>)
    ensures delays == ReminderDelays(interval * MINUTE, s.timeoutMs)
    ensures OpenReport(s, j, first, interval).jobs
         == s.jobs + multiset{Queued(TimeoutJob(j), s.now + s.timeoutMs)} + ReminderBatch(j, s.now, delays)
    ensures OpenReport(s, j, first, interval).log
         == s.log + [ReportOpened(j, s.now, interval, |delays|), Asked(j, first)]
  {
    delays := ReminderDelays(interval * MINUTE, s.timeoutMs);
  }

  lemma OpenCounts(s: State, k: Key, first: Question, interval: int) returns (n: nat)
    ensures QueuedCount(OpenReport(s, k, first, interval).jobs, ReminderJob(k))
         == QueuedCount(s.jobs, ReminderJob(k)) + n
    ensures Granted(OpenReport(s, k, first, interval).log, k) == Granted(s.log, k) + n
    ensures Used(OpenReport(s, k, first, interval).log, k) == Used(s.log, k)
  {
    var delays := OpenJobs(s, k, first, interval);
    n := |delays|;
    OpenTallies(s.log, k, s.now, interval, n, first);
    TimerBatchCount(s.jobs, k, s.now, s.now + s.timeoutMs, delays, k);
  }

  lemma OpenWithin(s: State, interval: int, first: Question, k: Key, lost: nat)
    requires Within(s, k, lost)
    ensures Within(OpenReport(s, k, first, interval), k, lost)
  {
    var n := OpenCounts(s, k, first, interval);
  }

  lemma OtherOpenCount(s: State, j: Key, first: Question, interval: int, k: Key)
    requires j != k
    ensures QueuedCount(OpenReport(s, j, first, interval).jobs, ReminderJob(k)) == QueuedCount(s.jobs, ReminderJob(k))
  {
    TimerBatchCount(s.jobs, j, s.now, s.now + s.timeoutMs, ReminderDelays(interval * MINUTE, s.timeoutMs), k);
  }

  lemma OpenTallies(log: seq<Event>, k: Key, at: Instant, every: int, n: nat, first: Question)
    ensures var more := log + [ReportOpened(k, at, every, n), Asked(k, first)];
            Granted(more, k) == Granted(log, k) + n && Used(more, k) == Used(log, k)
  {
    var mid := log + [ReportOpened(k, at, every, n)];
    assert mid[..|log|] == log;
    var more := log + [ReportOpened(k, at, every, n), Asked(k, first)];
    assert more[..|mid|] == mid;
  }

  lemma FanOutCount(s: State, run: RunId, exclude: Option<UserId>, immediate: bool, k: Key)
    requires Known(s) && run in s.runs
    ensures QueuedCount(FanOutSends(s, run, exclude, immediate).jobs, ReminderJob(k))
         == QueuedCount(s.jobs, ReminderJob(k))
  {
    var batch := SendBatch(s.now, s.standups[run.standupId], s.members, run, exclude, immediate);
    SendBatchJobs(s.now, s.standups[run.standupId], s.members, run, exclude, immediate);
    QueuedCountNone(batch, ReminderJob(k));
    QueuedCountUnion(s.jobs, batch, ReminderJob(k));
  }

  lemma AckCount(jobs: multiset<Queued>, item: Queued, job: Job)
    ensures QueuedCount(jobs - multiset{item}, job)
         == QueuedCount(jobs, job) - (if item in jobs && item.job == job then 1 else 0)
  {
    if item in jobs {
      QueuedCountAdd(jobs - multiset{item}, item, job);
      assert jobs - multiset{item} + multiset{item} == jobs;
    } else {
      assert jobs - multiset{item} == jobs;
    }
  }

  /** Only opening k adds reminder jobs for k. */
  lemma NoReminderAdded(s: State, op: Op, k: Key)
    requires Known(s) && Can(s, op) && !(op.OpenOp? && op.key == k)
    requires !(op.EnqueueOp? && op.job.ReminderJob?)
    ensures QueuedCount(Do(s, op).jobs, ReminderJob(k)) <= QueuedCount(s.jobs, ReminderJob(k))
  {
    match op
    case OpenOp(j, interval) => OtherOpenCount(s, j, FirstQuestion(s, j), interval, k);
    case FanOutOp(run, exclude, immediate) => FanOutCount(s, run, exclude, immediate, k);
    case EnqueueOp(job, due) => QueuedCountAdd(s.jobs, Queued(job, due), ReminderJob(k));
    case AckOp(item) => AckCount(s.jobs, item, ReminderJob(k));
    case GiveUpOp(j, event) => GiveUpFrame(s, j, event);
    case FinishOp(j, answers, net) => FinishFrame(s, j, answers, net);
    case _ =>
  }

  lemma NoTally(s: State, op: Op, k: Key)
    requires Known(s) && Can(s, op) && !(op.OpenOp? && op.key == k) && !op.NudgeOp?
    ensures Granted(Do(s, op).log, k) == Granted(s.log, k) && Used(Do(s, op).log, k) == Used(s.log, k)
  {
    OpSays(s, op);
    var t := Do(s, op);
    forall i | |s.log| <= i < |t.log|
      ensures !(t.log[i].ReportOpened? && t.log[i].key == k) && !IsNudge(t.log[i], k)
    {
      assert Says(s, op, t.log[i]);
    }
    TalliesKept(s.log, t.log, k);
  }

  lemma OpWithin(s: State, op: Op, k: Key, lost: nat)
    requires Known(s) && Can(s, op) && Within(s, k, lost)
    requires !op.NudgeOp? && !(op.EnqueueOp? && op.job.ReminderJob?)
    ensures Within(Do(s, op), k, lost)
  {
    if op.OpenOp? && op.key == k {
      OpenWithin(s, op.interval, FirstQuestion(s, k), k, lost);
    } else {
      NoReminderAdded(s, op, k);
      NoTally(s, op, k);
    }
  }

  predicate Plain(plan: Plan) {
    plan.Then? ==> !plan.op.NudgeOp? && !(plan.op.EnqueueOp? && plan.op.job.ReminderJob?) && Plain(plan.rest)
  }

  lemma {:induction false} PlanWithin(s: State, plan: Plan, k: Key, lost: nat)
    requires Possible(s, plan) && Within(s, k, lost) && Plain(plan)
    ensures Within(Outcome(s, plan), k, lost)
    decreases plan
  {
    match plan
    case Done =>
    case Then(op, rest) =>
      OpKnown(s, op);
      OpWithin(s, op, k, lost);
      PlanWithin(Do(s, op), rest, k, lost);
  }

  lemma {:induction false} ChainPlain(plan: Plan, last: Plan)
    ensures Plain(Chain(plan, last)) <==> Plain(plan) && Plain(last)
  {
    match plan
    case Done =>
    case Then(_, rest) => ChainPlain(rest, last);
  }

  lemma JobPlain(s: State, job: Job, net: Net)
    requires !job.ReminderJob?
    ensures Plain(JobPlan(s, job, net))
  {
    if job.RetriggerJob? && Startable(s, job.standupId) {
      var run := Today(s, job.standupId);
      var k := Key(run, job.user);
      assert Plain(Then(FanOutOp(run, Some(job.user), false), Done));
      assert Plain(Then(RunningOp(k), Then(FanOutOp(run, Some(job.user), false), Done)));
      assert Plain(Then(RunningOp(k), Done));
    }
    if job.OpenRunJob? && job.standupId in s.standups {
      assert Plain(Then(FanOutOp(Today(s, job.standupId), None, job.force), Done));
    }
  }

  lemma NudgeTallies(log: seq<Event>, j: Key, at: Instant, k: Key)
    ensures Granted(log + [Nudged(j, at)], k) == Granted(log, k)
    ensures Used(log + [Nudged(j, at)], k) == Used(log, k) + (if j == k then 1 else 0)
  {
    assert (log + [Nudged(j, at)])[..|log|] == log;
  }

  /** A reminder of k is delivered and its acknowledgement lost: it will come again. */
  predicate Lost(a: Stimulus, k: Key) {
    a.Deliver? && a.item.job == ReminderJob(k) && !a.ack
  }

  /** The reminder handler: one reminder moves from queued to posted, or is dropped; a lost one stays queued. */
  lemma ReminderWithin(s: State, a: Stimulus, k: Key, lost: nat)
    requires Within(s, k, lost) && a.Deliver? && a.item.job.ReminderJob? && a.item in s.jobs
    ensures Within(DeliverJob(s, a.item, a.ack, a.net), k, lost + (if Lost(a, k) then 1 else 0))
  {
    AckCount(s.jobs, a.item, ReminderJob(k));
    NudgeTallies(s.log, a.item.job.key, s.now, k);
    ReminderDelivered(s, a.item, a.ack, a.net);
  }

  lemma ReminderDelivered(s: State, item: Queued, ack: bool, net: Net)
    requires item.job.ReminderJob?
    ensures var t := DeliverJob(s, item, ack, net);
            && t.jobs == (if ack then s.jobs - multiset{item} else s.jobs)
            && (t.log == s.log || t.log == s.log + [Nudged(item.job.key, s.now)])
  {
  }

  lemma StepWithin(s: State, a: Stimulus, k: Key, lost: nat)
    requires Known(s) && Enabled(s, a) && Within(s, k, lost)
    ensures Within(Apply(s, a), k, lost + (if Lost(a, k) then 1 else 0))
  {
    if a.Deliver? && a.item.job.ReminderJob? {
      ReminderWithin(s, a, k, lost);
    } else {
      StepRefines(s, a);
      StepPlain(s, a);
      PlanWithin(s, StepPlan(s, a), k, lost);
    }
  }

  lemma StepPlain(s: State, a: Stimulus)
    requires Known(s) && Enabled(s, a)
    requires !(a.Deliver? && a.item.job.ReminderJob?)
    ensures Plain(StepPlan(s, a))
  {
    if a.Deliver? {
      JobPlain(s, a.item.job, a.net);
      ChainPlain(JobPlan(s, a.item.job, a.net), Then(AckOp(a.item), Done));
    }
  }

  /** Reminders of k delivered without acknowledgement. */
  function LostCount(acts: seq<Stimulus>, k: Key): nat {
    if acts == [] then 0
    else LostCount(acts[..|acts| - 1], k) + (if Lost(acts[|acts| - 1], k) then 1 else 0)
  }

  /**
   In every run of the system a member is reminded of a report at most as often as its openings
   granted, each the interval multiples below the timeout, and once more for every reminder
   delivered without acknowledgement.
   */
  lemma {:induction false} NudgesBounded(states: seq<State>, acts: seq<Stimulus>, i: nat, k: Key)
    requires IsRun(states, acts) && i < |states|
    ensures Within(states[i], k, LostCount(acts[..i], k))
    ensures Used(states[i].log, k) <= Granted(states[i].log, k) + LostCount(acts[..i], k)
  {
    if i > 0 {
      NudgesBounded(states, acts, i - 1, k);
      RunKnown(states, acts, i - 1);
      assert acts[..i][..i - 1] == acts[..i - 1];
      StepWithin(states[i - 1], acts[i - 1], k, LostCount(acts[..i - 1], k));
    }
  }

  // ---- Per opening ----

  function Openings(log: seq<Event>, k: Key): nat {
    if log == [] then 0
    else
      var e := log[|log| - 1];
      Openings(log[..|log| - 1], k) + (if e.ReportOpened? && e.key == k then 1 else 0)
  }

  /** Every opening of k granted at most n reminders. */
  ghost predicate Paced(log: seq<Event>, k: Key, n: nat) {
    forall i :: 0 <= i < |log| && log[i].ReportOpened? && log[i].key == k ==> log[i].reminders <= n
  }

  lemma {:induction false} PacedBound(log: seq<Event>, k: Key, n: nat)
    requires Paced(log, k, n)
    ensures Granted(log, k) <= Openings(log, k) * n
  {
    if log != [] {
      PacedBound(log[..|log| - 1], k, n);
    }
  }

  predicate Spaced(interval: int, minutes: int) {
    interval <= 0 || minutes <= interval
  }

  /** Every standup that sends reminders leaves at least so many minutes between them. */
  ghost predicate AllSpaced(s: State, minutes: int) {
    forall id :: id in s.standups ==> Spaced(s.standups[id].reminderIntervalMinutes, minutes)
  }

  predicate OpensSpaced(plan: Plan, minutes: int) {
    plan.Then? ==> (plan.op.OpenOp? ==> Spaced(plan.op.interval, minutes)) && OpensSpaced(plan.rest, minutes)
  }

  function MostReminders(minutes: int, timeoutMs: nat): nat {
    |ReminderDelays(minutes * MINUTE, timeoutMs)|
  }

  lemma SpacedReminders(interval: int, minutes: int, timeoutMs: nat)
    requires minutes > 0 && Spaced(interval, minutes)
    ensures |ReminderDelays(interval * MINUTE, timeoutMs)| <= MostReminders(minutes, timeoutMs)
  {
    LongerIsFewer(minutes * MINUTE, interval * MINUTE, timeoutMs);
  }

  lemma OpPaced(s: State, op: Op, k: Key, minutes: int)
    requires Known(s) && Can(s, op) && minutes > 0 && Paced(s.log, k, MostReminders(minutes, s.timeoutMs))
    requires op.OpenOp? ==> Spaced(op.interval, minutes)
    ensures Paced(Do(s, op).log, k, MostReminders(minutes, s.timeoutMs))
  {
    OpSays(s, op);
    if op.OpenOp? {
      SpacedReminders(op.interval, minutes, s.timeoutMs);
    }
    var t := Do(s, op);
    forall i | 0 <= i < |t.log| && t.log[i].ReportOpened? && t.log[i].key == k
      ensures t.log[i].reminders <= MostReminders(minutes, s.timeoutMs)
    {
      if i < |s.log| {
        assert t.log[i] == s.log[i];
      } else {
        assert Says(s, op, t.log[i]);
      }
    }
  }

  lemma {:induction false} PlanPaced(s: State, plan: Plan, k: Key, minutes: int)
    requires Possible(s, plan) && OpensSpaced(plan, minutes) && minutes > 0
    requires Paced(s.log, k, MostReminders(minutes, s.timeoutMs))
    ensures Outcome(s, plan).timeoutMs == s.timeoutMs
    ensures Paced(Outcome(s, plan).log, k, MostReminders(minutes, s.timeoutMs))
    decreases plan
  {
    match plan
    case Done =>
    case Then(op, rest) =>
      OpKnown(s, op);
      OpPaced(s, op, k, minutes);
      PlanPaced(Do(s, op), rest, k, minutes);
  }

  lemma {:induction false} ChainSpaced(plan: Plan, last: Plan, minutes: int)
    ensures OpensSpaced(Chain(plan, last), minutes) <==> OpensSpaced(plan, minutes) && OpensSpaced(last, minutes)
  {
    match plan
    case Done =>
    case Then(_, rest) => ChainSpaced(rest, last, minutes);
  }

  lemma JobSpaced(s: State, job: Job, net: Net, minutes: int)
    requires AllSpaced(s, minutes)
    ensures OpensSpaced(JobPlan(s, job, net), minutes)
  {
    if job.RetriggerJob? && Startable(s, job.standupId) {
      var run := Today(s, job.standupId);
      var k := Key(run, job.user);
      assert OpensSpaced(Then(FanOutOp(run, Some(job.user), false), Done), minutes);
      assert OpensSpaced(Then(RunningOp(k), Then(FanOutOp(run, Some(job.user), false), Done)), minutes);
      assert OpensSpaced(Then(RunningOp(k), Done), minutes);
    }
    if job.OpenRunJob? && job.standupId in s.standups {
      assert OpensSpaced(Then(FanOutOp(Today(s, job.standupId), None, job.force), Done), minutes);
    }
  }

  lemma StepPaced(s: State, a: Stimulus, k: Key, minutes: int)
    requires Known(s) && Enabled(s, a) && AllSpaced(s, minutes) && minutes > 0
    requires Paced(s.log, k, MostReminders(minutes, s.timeoutMs))
    ensures Apply(s, a).timeoutMs == s.timeoutMs
    ensures Paced(Apply(s, a).log, k, MostReminders(minutes, s.timeoutMs))
  {
    StepRefines(s, a);
    if a.Deliver? {
      JobSpaced(s, a.item.job, a.net, minutes);
      ChainSpaced(JobPlan(s, a.item.job, a.net), Then(AckOp(a.item), Done), minutes);
    }
    PlanPaced(s, StepPlan(s, a), k, minutes);
  }

  lemma {:induction false} RunPaced(states: seq<State>, acts: seq<Stimulus>, i: nat, k: Key, minutes: int)
    requires IsRun(states, acts) && i < |states| && minutes > 0
    requires forall j :: 0 <= j < |states| ==> AllSpaced(states[j], minutes)
    ensures states[i].timeoutMs == states[0].timeoutMs
    ensures Paced(states[i].log, k, MostReminders(minutes, states[0].timeoutMs))
  {
    if i > 0 {
      RunPaced(states, acts, i - 1, k, minutes);
      PacedStepOfRun(states, acts, i, k, minutes);
    }
  }

  lemma PacedStepOfRun(states: seq<State>, acts: seq<Stimulus>, i: nat, k: Key, minutes: int)
    requires IsRun(states, acts) && 0 < i < |states| && minutes > 0 && AllSpaced(states[i - 1], minutes)
    requires Paced(states[i - 1].log, k, MostReminders(minutes, states[i - 1].timeoutMs))
    ensures states[i].timeoutMs == states[i - 1].timeoutMs
    ensures Paced(states[i].log, k, MostReminders(minutes, states[i - 1].timeoutMs))
  {
    RunKnown(states, acts, i - 1);
    StepPaced(states[i - 1], acts[i - 1], k, minutes);
  }

  /**
   Where standups leave at least so many minutes between reminders, a member is reminded of a report
   at most as often per opening as multiples of that interval lie below the timeout, and once more
   for every reminder delivered without acknowledgement.
   */
  lemma NudgesPerOpening(states: seq<State>, acts: seq<Stimulus>, i: nat, k: Key, minutes: int)
    requires IsRun(states, acts) && i < |states| && minutes > 0
    requires forall j :: 0 <= j < |states| ==> AllSpaced(states[j], minutes)
    ensures Used(states[i].log, k)
         <= Openings(states[i].log, k) * MostReminders(minutes, states[0].timeoutMs) + LostCount(acts[..i], k)
  {
    NudgesBounded(states, acts, i, k);
    RunPaced(states, acts, i, k, minutes);
    PacedBound(states[i].log, k, MostReminders(minutes, states[0].timeoutMs));
  }
}
