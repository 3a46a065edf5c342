/** When reminders are posted: never sooner than one interval after the opening they belong to. */
module ReminderTimes {
  import opened DmEngine
  import opened Instants
  import opened Protocol
  import opened RowOps
  import opened History
  import opened Effects

  /** The i-th event opened k, and `due` is one of the times its reminders were set for. */
  ghost predicate SetFor(log: seq<Event>, i: nat, k: Key, due: Instant, timeoutMs: nat) {
    && i < |log| && log[i].ReportOpened? && log[i].key == k
    && due - log[i].at < timeoutMs && IsMultiple(log[i].every, due - log[i].at)
  }

  /** Some opening of k set a reminder for that time. */
  ghost predicate SetBySome(log: seq<Event>, k: Key, due: Instant, timeoutMs: nat) {
    exists i :: SetFor(log, i, k, due, timeoutMs)
  }

  /** Every queued reminder was set by an opening of its report. */
  ghost predicate QueuedSet(s: State) {
    forall k, due :: Queued(ReminderJob(k), due) in s.jobs ==> SetBySome(s.log, k, due, s.timeoutMs)
  }

  /** The reminder posted by the j-th event was set by an opening before it, for a time that had come. */
  ghost predicate PostedInTime(log: seq<Event>, j: nat, timeoutMs: nat)
    requires j < |log| && log[j].Nudged?
  {
    exists due :: due <= log[j].at && SetBySome(log[..j], log[j].key, due, timeoutMs)
  }

  ghost predicate AllInTime(s: State) {
    forall j :: 0 <= j < |s.log| && s.log[j].Nudged? ==> PostedInTime(s.log, j, s.timeoutMs)
  }

  ghost predicate Spaced(s: State) {
    Known(s) && QueuedSet(s) && AllInTime(s)
  }

  lemma SetKept(log: seq<Event>, more: seq<Event>, k: Key, due: Instant, timeoutMs: nat)
    requires SetBySome(log, k, due, timeoutMs) && log <= more
    ensures SetBySome(more, k, due, timeoutMs)
  {
    var i: nat :| SetFor(log, i, k, due, timeoutMs);
    assert more[i] == log[i];
    assert SetFor(more, i, k, due, timeoutMs);
  }

  /** Only opening a report queues reminders. */
  lemma OnlyOpenings(s: State, op: Op, k: Key, due: Instant)
    requires Known(s) && Can(s, op) && !op.OpenOp? && Queued(ReminderJob(k), due) in Do(s, op).jobs
    ensures Queued(ReminderJob(k), due) in s.jobs
  {
    match op
    case FanOutOp(run, exclude, immediate) =>
      SendBatchJobs(s.now, s.standups[run.standupId], s.members, run, exclude, immediate);
    case GiveUpOp(j, event) => GiveUpFrame(s, j, event);
    case FinishOp(j, answers, net) => FinishFrame(s, j, answers, net);
    case _ =>
  }

  lemma OpeningSets(s: State, j: Key, interval: int, k: Key, due: Instant)
    requires Known(s) && QueuedSet(s) && Can(s, OpenOp(j, interval))
    requires Queued(ReminderJob(k), due) in Do(s, OpenOp(j, interval)).jobs
    ensures SetBySome(Do(s, OpenOp(j, interval)).log, k, due, s.timeoutMs)
  {
    var t := Do(s, OpenOp(j, interval));
    var q := Queued(ReminderJob(k), due);
    Effects.OpenJobs(s, j, FirstQuestion(s, j), interval);
    Effects.OpenEvents(s, j, FirstQuestion(s, j), interval);
    assert t.jobs[q] == s.jobs[q] + OpeningJobs(j, s.now, interval, s.timeoutMs, q);
    if q in s.jobs {
      SetKept(s.log, t.log, k, due, s.timeoutMs);
    } else {
      assert IsReminder(q, j, s.now, interval, s.timeoutMs);
      assert SetFor(t.log, |s.log|, k, due, s.timeoutMs);
    }
  }

  lemma OpQueuedSet(s: State, op: Op)
    requires Known(s) && QueuedSet(s) && Can(s, op)
    ensures QueuedSet(Do(s, op))
  {
    OpKnown(s, op);
    forall k, due | Queued(ReminderJob(k), due) in Do(s, op).jobs
      ensures SetBySome(Do(s, op).log, k, due, s.timeoutMs)
    {
      if op.OpenOp? {
        OpeningSets(s, op.key, op.interval, k, due);
      } else {
        OnlyOpenings(s, op, k, due);
        SetKept(s.log, Do(s, op).log, k, due, s.timeoutMs);
      }
    }
  }

  lemma OpAllInTime(s: State, op: Op)
    requires Spaced(s) && Can(s, op)
    ensures AllInTime(Do(s, op))
  {
    var more := Do(s, op).log;
    OpKnown(s, op);
    NewNudges(s, op);
    forall j | 0 <= j < |more| && more[j].Nudged? ensures PostedInTime(more, j, s.timeoutMs) {
      if j < |s.log| {
        StaysInTime(s.log, more, j, s.timeoutMs);
      } else {
        NewInTime(s, more, j, more[j].key);
      }
    }
  }

  /** A reminder is posted now, when one is due. */
  lemma NewNudges(s: State, op: Op)
    requires Known(s) && Can(s, op)
    ensures s.log <= Do(s, op).log
    ensures forall j :: |s.log| <= j < |Do(s, op).log| && Do(s, op).log[j].Nudged? ==>
              var k := Do(s, op).log[j].key;
              Do(s, op).log[j] == Nudged(k, s.now) && ReminderDue(s, k)
  {
    OpSays(s, op);
    var t := Do(s, op);
    forall j | |s.log| <= j < |t.log| && t.log[j].Nudged?
      ensures t.log[j] == Nudged(t.log[j].key, s.now) && ReminderDue(s, t.log[j].key)
    {
      assert Says(s, op, t.log[j]);
    }
  }

  lemma StaysInTime(log: seq<Event>, more: seq<Event>, j: nat, timeoutMs: nat)
    requires log <= more && j < |log| && log[j].Nudged? && PostedInTime(log, j, timeoutMs)
    ensures more[j] == log[j] && PostedInTime(more, j, timeoutMs)
  {
    assert more[j] == log[j] && more[..j] == log[..j];
  }

  lemma NewInTime(s: State, more: seq<Event>, j: nat, k: Key)
    requires QueuedSet(s) && ReminderDue(s, k) && s.log <= more && |s.log| <= j < |more| && more[j] == Nudged(k, s.now)
    ensures PostedInTime(more, j, s.timeoutMs)
  {
    NudgeInTime(s, k);
    var due :| due <= s.now && SetBySome(s.log, k, due, s.timeoutMs);
    SetKept(s.log, more[..j], k, due, s.timeoutMs);
  }

  lemma NudgeInTime(s: State, k: Key)
    requires QueuedSet(s) && ReminderDue(s, k)
    ensures exists due :: due <= s.now && SetBySome(s.log, k, due, s.timeoutMs)
  {
    var due :| due <= s.now && Queued(ReminderJob(k), due) in s.jobs;
    assert SetBySome(s.log, k, due, s.timeoutMs);
  }

  lemma {:induction false} PlanSpaced(s: State, plan: Plan)
    requires Possible(s, plan) && Spaced(s)
    ensures Spaced(Outcome(s, plan))
    decreases plan
  {
    match plan
    case Done =>
    case Then(op, rest) =>
      OpKnown(s, op);
      OpQueuedSet(s, op);
      OpAllInTime(s, op);
      PlanSpaced(Do(s, op), rest);
  }

  lemma {:induction false} RunSpaced(states: seq<State>, acts: seq<Stimulus>, i: nat)
    requires IsRun(states, acts) && i < |states|
    ensures Spaced(states[i])
  {
    if i > 0 {
      RunSpaced(states, acts, i - 1);
      StepRefines(states[i - 1], acts[i - 1]);
      PlanSpaced(states[i - 1], StepPlan(states[i - 1], acts[i - 1]));
    }
  }

  /**
   In every run of the system, a reminder posted for a report belongs to an earlier opening of it: it
   was set for a multiple of that opening's interval, and comes no sooner than that and no sooner
   than one interval after it. One that comes sooner after the latest opening is of an earlier one.
   */
  lemma NeverSooner(states: seq<State>, acts: seq<Stimulus>, n: nat, j: nat) returns (i: nat, due: Instant)
    requires IsRun(states, acts) && n < |states| && j < |states[n].log| && states[n].log[j].Nudged?
    ensures i < j && SetFor(states[n].log, i, states[n].log[j].key, due, states[n].timeoutMs)
    ensures due <= states[n].log[j].at
    ensures states[n].log[i].at + states[n].log[i].every * 60_000 <= due
  {
    RunSpaced(states, acts, n);
    var log := states[n].log;
    assert PostedInTime(log, j, states[n].timeoutMs);
    due :| due <= log[j].at && SetBySome(log[..j], log[j].key, due, states[n].timeoutMs);
    i :| SetFor(log[..j], i, log[j].key, due, states[n].timeoutMs);
    assert log[..j][i] == log[i];
    OneInterval(log[i].every, due - log[i].at);
  }

  lemma OneInterval(minutes: int, ms: int)
    requires IsMultiple(minutes, ms)
    ensures minutes * 60_000 <= ms
  {
    var n: nat :| Multiple(n, minutes, ms);
    assert (n - 1) * (minutes * 60_000) >= 0;
    assert n * (minutes * 60_000) == (n - 1) * (minutes * 60_000) + minutes * 60_000;
  }
}
