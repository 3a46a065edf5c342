/**
 Every step of the system is a short sequence of operations on rows and jobs. Each operation has
 a guard, the condition under which the handlers perform it; a property that every guarded
 operation keeps is then kept by every handler.
 */
module RowOps {
  import opened Wrappers
  import opened DmEngine
  import opened Instants
  import opened Reminders
  import opened Protocol

  datatype Op =
    | CreateOp(run: RunId, net: Net)
    | OpenOp(key: Key, interval: int)
    | RunningOp(key: Key)
    | FanOutOp(run: RunId, exclude: Option<UserId>, immediate: bool)
    | GiveUpOp(key: Key, event: Event)
    | AcceptOp(key: Key, answers: seq<Answer>)
    | FinishOp(key: Key, answers: seq<Answer>, net: Net)
    | EnqueueOp(job: Job, due: Instant)
    | NudgeOp(key: Key)
    | AckOp(item: Queued)
    | TickOp(to: Instant)
    | ConfigureOp(standups: map<StandupId, Standup>, teams: set<TeamId>, members: seq<Member>)

  /** Rows refer to rows that exist. */
  ghost predicate Known(s: State) {
    && WellConfigured(s.standups)
    && (forall run :: run in s.runs ==> run.standupId in s.standups)
    && (forall k :: k in s.reports ==> k.run in s.runs)
    && (forall q :: q in s.jobs && q.job.SendDmJob? ==>
          q.job.run in s.runs && q.job.standupId == q.job.run.standupId)
  }

  ghost predicate Open(s: State, k: Key) {
    k in s.reports && s.reports[k].status == InProgress
  }

  function Questions(s: State, k: Key): seq<Question>
    requires k.run.standupId in s.standups
  {
    s.standups[k.run.standupId].questions
  }

  ghost predicate OneMore(answers: seq<Answer>, more: seq<Answer>) {
    |more| == |answers| + 1 && answers <= more
  }

  /** One answer more, recorded under the question at its position in the list. */
  ghost predicate Extends(questions: seq<Question>, answers: seq<Answer>, more: seq<Answer>) {
    && OneMore(answers, more) && |answers| < |questions|
    && more[|answers|].questionId == questions[|answers|].id
    && more[|answers|].questionText == questions[|answers|].text
  }

  /** The deadline of k has passed, or was never set. */
  ghost predicate Overdue(s: State, k: Key)
    requires k in s.reports
  {
    s.reports[k].timeoutAt.Some? ==> s.reports[k].timeoutAt.value <= s.now
  }

  /** Besides item, a timer for k is queued for its present deadline, which is later. */
  ghost predicate Rescheduled(s: State, k: Key, item: Queued)
    requires k in s.reports
  {
    var deadline := s.reports[k].timeoutAt;
    deadline.Some? && item.due < deadline.value && Queued(TimeoutJob(k), deadline.value) in s.jobs
  }

  ghost predicate ReminderDue(s: State, k: Key) {
    exists due :: due <= s.now && Queued(ReminderJob(k), due) in s.jobs
  }

  ghost predicate Can(s: State, op: Op) {
    match op
    case CreateOp(run, _) => run !in s.runs && run.standupId in s.standups
    case OpenOp(k, _) => k.run in s.runs && (k in s.reports ==> s.reports[k].status == TimedOut)
    case RunningOp(k) => Open(s, k) && k.run in s.runs
    case FanOutOp(run, _, _) => run in s.runs
    case GiveUpOp(k, event) =>
      && Open(s, k)
      && (event == ReportAborted(k, s.now) || (event == ReportTimedOut(k, s.now) && Overdue(s, k)))
    case AcceptOp(k, answers) =>
      && Open(s, k) && k.run.standupId in s.standups
      && Extends(Questions(s, k), s.reports[k].answers, answers) && |answers| < |Questions(s, k)|
    case FinishOp(k, answers, _) =>
      && Open(s, k) && k.run.standupId in s.standups
      && Extends(Questions(s, k), s.reports[k].answers, answers) && |answers| == |Questions(s, k)|
    case EnqueueOp(job, due) =>
      && !job.ReminderJob?
      && (job.SendDmJob? ==> job.run in s.runs && job.standupId == job.run.standupId)
      && (job.TimeoutJob? ==> Open(s, job.key) && s.reports[job.key].timeoutAt == Some(due) && s.now < due)
    case NudgeOp(k) => Open(s, k) && ReminderDue(s, k)
    case AckOp(item) =>
      && (item.job.TimeoutJob? && Open(s, item.job.key) ==> Rescheduled(s, item.job.key, item))
      && (item.job.SendDmJob? ==> Key(item.job.run, item.job.user) in s.reports)
    case TickOp(to) => s.now <= to
    case ConfigureOp(standups, _, _) => WellConfigured(standups) && s.standups.Keys <= standups.Keys
  }

  function FirstQuestion(s: State, k: Key): Question
    requires k.run.standupId in s.standups && Questions(s, k) != []
  {
    Questions(s, k)[0]
  }

  function Do(s: State, op: Op): State
    requires Known(s) && Can(s, op)
  {
    match op
    case CreateOp(run, net) => CreateRun(s, run, s.standups[run.standupId].teamId, net)
    case OpenOp(k, interval) => OpenReport(s, k, FirstQuestion(s, k), interval)
    case RunningOp(k) => SetRunning(s, k.run)
    case FanOutOp(run, exclude, immediate) => FanOutSends(s, run, exclude, immediate)
    case GiveUpOp(k, event) => Finalize(Close(s, k, event), k.run)
    case AcceptOp(k, answers) => AcceptReply(s, k, answers, Questions(s, k)[|answers|])
    case FinishOp(k, answers, net) =>
      Finalize(Broadcast(CompleteReport(s, k, answers), k, s.standups[k.run.standupId].teamId, net), k.run)
    case EnqueueOp(job, due) => Enqueue(s, job, due)
    case NudgeOp(k) => Note(s, Nudged(k, s.now))
    case AckOp(item) => Ack(s, item)
    case TickOp(to) => s.(now := to)
    case ConfigureOp(standups, teams, members) => s.(standups := standups, teams := teams, members := members)
  }

  // ---- Batches of jobs ----

  lemma {:induction false} ReminderBatchJobs(k: Key, base: Instant, delays: seq<int>)
    ensures forall q :: q in ReminderBatch(k, base, delays) ==> q.job == ReminderJob(k)
  {
    if delays != [] {
      ReminderBatchJobs(k, base, delays[..|delays| - 1]);
    }
  }

  lemma {:induction false} SendBatchJobs(now: Instant, standup: Standup, members: seq<Member>,
                                         run: RunId, exclude: Option<UserId>, immediate: bool)
    ensures forall q :: q in SendBatch(now, standup, members, run, exclude, immediate) ==>
              q.job.SendDmJob? && q.job.run == run && q.job.standupId == run.standupId
  {
    if members != [] {
      SendBatchJobs(now, standup, members[..|members| - 1], run, exclude, immediate);
    }
  }

  // ---- What every operation keeps ----

  /** Rows are never deleted, the clock never runs back, the history only grows. */
  ghost predicate Grows(s: State, t: State) {
    && s.runs.Keys <= t.runs.Keys && s.reports.Keys <= t.reports.Keys
    && s.standups.Keys <= t.standups.Keys
    && t.timeoutMs == s.timeoutMs && s.now <= t.now
    && s.log <= t.log
  }

  lemma GrowsTransitive(s: State, t: State, u: State)
    requires Grows(s, t) && Grows(t, u)
    ensures Grows(s, u)
  {
    assert s.log <= u.log;
  }

  /** A completion changes one run row and the history, nothing else. */
  lemma FinalizeFrame(s: State, run: RunId)
    ensures var t := Finalize(s, run);
            && t == s.(runs := t.runs, log := t.log) && t.runs.Keys == s.runs.Keys && s.log <= t.log
            && (t.log == s.log || t.log == s.log + [Finalized(run)])
  {
  }

  /** Giving up changes one report row, perhaps its run row, and the history. */
  lemma GiveUpFrame(s: State, k: Key, event: Event)
    requires Known(s) && Can(s, GiveUpOp(k, event))
    ensures var t := Do(s, GiveUpOp(k, event));
            && t == s.(runs := t.runs, log := t.log, reports := s.reports[k := s.reports[k].(status := TimedOut)])
            && t.runs.Keys == s.runs.Keys && s.log <= t.log
  {
    FinalizeFrame(Close(s, k, event), k.run);
  }

  /** Finishing changes one report row, perhaps its run row, the history, and takes a message id. */
  lemma FinishFrame(s: State, k: Key, answers: seq<Answer>, net: Net)
    requires Known(s) && Can(s, FinishOp(k, answers, net))
    ensures var t := Do(s, FinishOp(k, answers, net));
            var r := t.reports[k];
            && t == s.(runs := t.runs, log := t.log, nextTs := t.nextTs, reports := s.reports[k := r])
            && t.runs.Keys == s.runs.Keys && s.log <= t.log && s.nextTs <= t.nextTs
            && r == s.reports[k].(answers := answers, status := Completed, reportedAt := Some(s.now),
                                  channelPostTs := r.channelPostTs, postedAs := r.postedAs)
  {
    var done := CompleteReport(s, k, answers);
    var posted := Broadcast(done, k, s.standups[k.run.standupId].teamId, net);
    assert s.log <= posted.log;
    FinalizeFrame(posted, k.run);
  }

  lemma OpKnown(s: State, op: Op)
    requires Known(s) && Can(s, op)
    ensures Known(Do(s, op)) && Grows(s, Do(s, op))
  {
    match op
    case OpenOp(k, interval) => OpenKnown(s, k, interval);
    case FanOutOp(run, exclude, immediate) => FanOutKnown(s, run, exclude, immediate);
    case GiveUpOp(k, event) => GiveUpFrame(s, k, event);
    case FinishOp(k, answers, net) => FinishFrame(s, k, answers, net);
    case CreateOp(run, net) => CreateKnown(s, run, net);
    case AckOp(item) => AckKnown(s, item);
    case _ =>
  }

  lemma CreateKnown(s: State, run: RunId, net: Net)
    requires Known(s) && Can(s, CreateOp(run, net))
    ensures Known(Do(s, CreateOp(run, net))) && Grows(s, Do(s, CreateOp(run, net)))
  {
  }

  lemma AckKnown(s: State, item: Queued)
    requires Known(s)
    ensures Known(Ack(s, item)) && Grows(s, Ack(s, item))
  {
  }

  lemma FanOutKnown(s: State, run: RunId, exclude: Option<UserId>, immediate: bool)
    requires Known(s) && run in s.runs
    ensures Known(FanOutSends(s, run, exclude, immediate)) && Grows(s, FanOutSends(s, run, exclude, immediate))
  {
    SendBatchJobs(s.now, s.standups[run.standupId], s.members, run, exclude, immediate);
  }

  lemma OpenKnown(s: State, k: Key, interval: int)
    requires Known(s) && Can(s, OpenOp(k, interval))
    ensures Known(Do(s, OpenOp(k, interval))) && Grows(s, Do(s, OpenOp(k, interval)))
  {
    ReminderBatchJobs(k, s.now, ReminderDelays(interval * MINUTE, s.timeoutMs));
  }

  /** Only an acknowledgement takes a job from the queue. */
  lemma JobsGrow(s: State, op: Op)
    requires Known(s) && Can(s, op)
    ensures !op.AckOp? ==> s.jobs <= Do(s, op).jobs
    ensures Do(s, op).timeoutMs == s.timeoutMs && s.now <= Do(s, op).now
  {
    OpKnown(s, op);
    match op
    case GiveUpOp(k, event) => GiveUpFrame(s, k, event);
    case FinishOp(k, answers, net) => FinishFrame(s, k, answers, net);
    case _ =>
  }

  // ---- Plans: the operations of one step ----

  datatype Plan = Done | Then(op: Op, rest: Plan)

  ghost predicate Possible(s: State, plan: Plan)
    decreases plan
  {
    && Known(s)
    && match plan
       case Done => true
       case Then(op, rest) => Can(s, op) && Possible(Do(s, op), rest)
  }

  ghost function Outcome(s: State, plan: Plan): State
    requires Possible(s, plan)
    decreases plan
  {
    match plan
    case Done => s
    case Then(op, rest) => Outcome(Do(s, op), rest)
  }

  function Chain(plan: Plan, last: Plan): Plan {
    match plan
    case Done => last
    case Then(op, rest) => Then(op, Chain(rest, last))
  }

  lemma {:induction false} ChainResult(s: State, plan: Plan, last: Plan)
    requires Possible(s, plan) && Possible(Outcome(s, plan), last)
    ensures Possible(s, Chain(plan, last)) && Outcome(s, Chain(plan, last)) == Outcome(Outcome(s, plan), last)
    decreases plan
  {
    match plan
    case Done =>
    case Then(op, rest) => ChainResult(Do(s, op), rest, last);
  }

  ghost function OpenRunPlan(s: State, id: StandupId, force: bool, net: Net): Plan {
    if OpenRun(s, id, force, net) == s || id !in s.standups then Done
    else
      var fanOut := Then(FanOutOp(Today(s, id), None, force), Done);
      if Today(s, id) in s.runs then fanOut else Then(CreateOp(Today(s, id), net), fanOut)
  }

  ghost function RetriggerPlan(s: State, id: StandupId, user: UserId, net: Net): Plan {
    if !Startable(s, id) then Done
    else
      var run := Today(s, id);
      var k := Key(run, user);
      var interval := s.standups[id].reminderIntervalMinutes;
      if run !in s.runs then
        Then(CreateOp(run, net),
             Then(OpenOp(k, interval), Then(RunningOp(k), Then(FanOutOp(run, Some(user), false), Done))))
      else if k in s.reports && s.reports[k].status != TimedOut then Done
      else Then(OpenOp(k, interval), Then(RunningOp(k), Done))
  }

  ghost function JobPlan(s: State, job: Job, net: Net): Plan {
    match job
    case OpenRunJob(id, force) => OpenRunPlan(s, id, force, net)
    case RetriggerJob(id, user) => RetriggerPlan(s, id, user, net)
    case SendDmJob(run, id, user) =>
      if Key(run, user) in s.reports || id !in s.standups then Done
      else Then(OpenOp(Key(run, user), s.standups[id].reminderIntervalMinutes), Done)
    case TimeoutJob(k) =>
      if !Open(s, k) then Done
      else if Overdue(s, k) then Then(GiveUpOp(k, ReportTimedOut(k, s.now)), Done)
      else Then(EnqueueOp(TimeoutJob(k), s.reports[k].timeoutAt.value), Done)
    case ReminderJob(k) => if Open(s, k) then Then(NudgeOp(k), Done) else Done
  }

  ghost function ReplyPlan(s: State, k: Key, text: string, net: Net): Plan
    requires k in s.reports && k.run.standupId in s.standups
  {
    match AdvanceReport(Questions(s, k), s.reports[k].answers, text)
    case Noop => Done
    case Abort => Then(GiveUpOp(k, ReportAborted(k, s.now)), Done)
    case Next(answers, _) => Then(AcceptOp(k, answers), Done)
    case Complete(answers) => Then(FinishOp(k, answers, net), Done)
  }

  ghost function StepPlan(s: State, a: Stimulus): Plan
    requires Known(s) && Enabled(s, a)
  {
    match a
    case Tick(to) => Then(TickOp(to), Done)
    case Deliver(item, ack, net) =>
      if ack then Chain(JobPlan(s, item.job, net), Then(AckOp(item), Done)) else JobPlan(s, item.job, net)
    case Message(user, text, pick, net) =>
      if pick.Some? then ReplyPlan(s, pick.value, text, net)
      else
        var state := MemberDayState(s, user);
        if Normalized(text) in RETRIGGER_KEYWORDS && (state.DayPending? || state.DayInProgress?)
        then Then(EnqueueOp(RetriggerJob(state.standupId, user), s.now), Done) else Done
    case Command(user, text) =>
      if ParseSubcommand(text) == Start && MemberDayState(s, user).DayPending?
      then Then(EnqueueOp(RetriggerJob(MemberDayState(s, user).standupId, user), s.now), Done) else Done
    case Join(i) =>
      if LateJoin(s, i) == s then Done
      else
        var m := s.members[i];
        var id := StandupOf(s.standups, m.teamId.value).value;
        Then(EnqueueOp(SendDmJob(Today(s, id), id, m.user), s.now), Done)
    case Trigger(id, force) => Then(EnqueueOp(OpenRunJob(id, force), s.now), Done)
    case Configure(standups, teams, members) => Then(ConfigureOp(standups, teams, members), Done)
  }

  /** A plan refines a step: it is possible, and leads to the same state. */
  ghost predicate Refines(s: State, plan: Plan, t: State) {
    Possible(s, plan) && Outcome(s, plan) == t
  }

  lemma One(s: State, op: Op)
    requires Known(s) && Can(s, op)
    ensures Refines(s, Then(op, Done), Do(s, op))
  {
    OpKnown(s, op);
  }

  lemma More(s: State, op: Op, rest: Plan, t: State)
    requires Known(s) && Can(s, op) && Refines(Do(s, op), rest, t)
    ensures Refines(s, Then(op, rest), t)
  {
  }

  lemma OpenRunRefines(s: State, id: StandupId, force: bool, net: Net)
    requires Known(s)
    ensures Refines(s, OpenRunPlan(s, id, force, net), OpenRun(s, id, force, net))
  {
    if OpenRun(s, id, force, net) != s && id in s.standups {
      var run := Today(s, id);
      if run in s.runs {
        One(s, FanOutOp(run, None, force));
      } else {
        var ready := Do(s, CreateOp(run, net));
        OpKnown(s, CreateOp(run, net));
        One(ready, FanOutOp(run, None, force));
        More(s, CreateOp(run, net), Then(FanOutOp(run, None, force), Done), OpenRun(s, id, force, net));
      }
    }
  }

  /** The report is opened and the run set running, on a run that exists. */
  lemma ReopenRefines(s: State, k: Key, interval: int)
    requires Known(s) && Can(s, OpenOp(k, interval))
    ensures var asked := OpenReport(s, k, FirstQuestion(s, k), interval);
            && Known(asked) && Can(asked, RunningOp(k)) && Known(SetRunning(asked, k.run))
            && Do(asked, RunningOp(k)) == SetRunning(asked, k.run)
            && Refines(s, Then(OpenOp(k, interval), Then(RunningOp(k), Done)), SetRunning(asked, k.run))
  {
    OpKnown(s, OpenOp(k, interval));
    var asked := Do(s, OpenOp(k, interval));
    OpKnown(asked, RunningOp(k));
    One(asked, RunningOp(k));
    More(s, OpenOp(k, interval), Then(RunningOp(k), Done), SetRunning(asked, k.run));
  }

  lemma RetriggerRefines(s: State, id: StandupId, user: UserId, net: Net)
    requires Known(s)
    ensures Refines(s, RetriggerPlan(s, id, user, net), Retrigger(s, id, user, net))
  {
    if Startable(s, id) {
      var run := Today(s, id);
      var k := Key(run, user);
      var interval := s.standups[id].reminderIntervalMinutes;
      if run !in s.runs {
        OpKnown(s, CreateOp(run, net));
        var ready := Do(s, CreateOp(run, net));
        ReopenRefines(ready, k, interval);
        var asked := Do(ready, OpenOp(k, interval));
        var running := SetRunning(asked, run);
        var t := FanOutSends(running, run, Some(user), false);
        One(running, FanOutOp(run, Some(user), false));
        More(asked, RunningOp(k), Then(FanOutOp(run, Some(user), false), Done), t);
        More(ready, OpenOp(k, interval), Then(RunningOp(k), Then(FanOutOp(run, Some(user), false), Done)), t);
        More(s, CreateOp(run, net),
             Then(OpenOp(k, interval), Then(RunningOp(k), Then(FanOutOp(run, Some(user), false), Done))), t);
      } else if k !in s.reports || s.reports[k].status == TimedOut {
        ReopenRefines(s, k, interval);
      }
    }
  }

  /** What the reducer decides, whatever list the answers so far were given under. */
  lemma AdvanceExtends(questions: seq<Question>, answers: seq<Answer>, text: string)
    ensures match AdvanceReport(questions, answers, text)
            case Noop => |answers| >= |questions|
            case Abort => |answers| < |questions|
            case Next(more, q) => Extends(questions, answers, more) && |more| < |questions| && q == questions[|more|]
            case Complete(all) => Extends(questions, answers, all) && |all| == |questions|
  {
  }

  lemma ReplyRefines(s: State, k: Key, text: string, net: Net)
    requires Known(s) && Open(s, k)
    ensures Refines(s, ReplyPlan(s, k, text, net), Reply(s, k, text, net))
  {
    AdvanceExtends(Questions(s, k), s.reports[k].answers, text);
    match AdvanceReport(Questions(s, k), s.reports[k].answers, text)
    case Noop =>
    case Abort => One(s, GiveUpOp(k, ReportAborted(k, s.now)));
    case Next(answers, _) => One(s, AcceptOp(k, answers));
    case Complete(answers) => One(s, FinishOp(k, answers, net));
  }

  lemma TimeoutRefines(s: State, k: Key)
    requires Known(s)
    ensures Refines(s, JobPlan(s, TimeoutJob(k), Net(true, true, true, true, true)), TimeoutReport(s, k))
  {
    if Open(s, k) {
      if Overdue(s, k) {
        One(s, GiveUpOp(k, ReportTimedOut(k, s.now)));
      } else {
        One(s, EnqueueOp(TimeoutJob(k), s.reports[k].timeoutAt.value));
      }
    }
  }

  lemma JobRefines(s: State, job: Job, net: Net)
    requires Known(s)
    requires job.SendDmJob? ==> job.run in s.runs && job.standupId == job.run.standupId
    requires job.ReminderJob? ==> ReminderDue(s, job.key)
    ensures HandleJob(s, job, net).Some?
    ensures Refines(s, JobPlan(s, job, net), HandleJob(s, job, net).value)
  {
    match job
    case OpenRunJob(id, force) => OpenRunRefines(s, id, force, net);
    case RetriggerJob(id, user) => RetriggerRefines(s, id, user, net);
    case SendDmJob(run, id, user) =>
      if Key(run, user) !in s.reports {
        One(s, OpenOp(Key(run, user), s.standups[id].reminderIntervalMinutes));
      }
    case TimeoutJob(k) => TimeoutRefines(s, k);
    case ReminderJob(k) => if Open(s, k) { One(s, NudgeOp(k)); }
  }

  /** Once its handler is done, a delivered job may be dropped from the queue. */
  lemma AckAllowed(s: State, item: Queued, net: Net)
    requires Known(s) && item in s.jobs && item.due <= s.now
    requires HandleJob(s, item.job, net).Some?
    ensures Can(HandleJob(s, item.job, net).value, AckOp(item))
  {
    match item.job
    case TimeoutJob(k) => TimeoutAckAllowed(s, k, item);
    case SendDmJob(run, id, user) =>
    case _ =>
  }

  lemma TimeoutAckAllowed(s: State, k: Key, item: Queued)
    requires item.due <= s.now
    ensures Open(TimeoutReport(s, k), k) ==> Rescheduled(TimeoutReport(s, k), k, item)
  {
    if Open(s, k) && Overdue(s, k) {
      FinalizeFrame(Close(s, k, ReportTimedOut(k, s.now)), k.run);
    }
  }

  lemma DeliverRefines(s: State, item: Queued, ack: bool, net: Net)
    requires Known(s) && item in s.jobs && item.due <= s.now
    ensures Refines(s, StepPlan(s, Deliver(item, ack, net)), DeliverJob(s, item, ack, net))
  {
    assert item.job.ReminderJob? ==> Queued(ReminderJob(item.job.key), item.due) in s.jobs;
    JobRefines(s, item.job, net);
    if ack {
      AckAllowed(s, item, net);
      var next := HandleJob(s, item.job, net).value;
      assert Known(next) by { ResultKnown(s, JobPlan(s, item.job, net)); }
      One(next, AckOp(item));
      ChainResult(s, JobPlan(s, item.job, net), Then(AckOp(item), Done));
    }
  }

  lemma {:induction false} ResultKnown(s: State, plan: Plan)
    requires Possible(s, plan)
    ensures Known(Outcome(s, plan)) && Grows(s, Outcome(s, plan))
    decreases plan
  {
    match plan
    case Done =>
    case Then(op, rest) =>
      OpKnown(s, op);
      ResultKnown(Do(s, op), rest);
      GrowsTransitive(s, Do(s, op), Outcome(s, plan));
  }

  /** Every step of the system is the sequence of guarded operations in its plan. */
  lemma StepRefines(s: State, a: Stimulus)
    requires Known(s) && Enabled(s, a)
    ensures Refines(s, StepPlan(s, a), Apply(s, a))
  {
    match a
    case Tick(to) => One(s, TickOp(to));
    case Deliver(item, ack, net) => DeliverRefines(s, item, ack, net);
    case Message(user, text, pick, net) =>
      if pick.Some? {
        ReplyRefines(s, pick.value, text, net);
      } else {
        KeywordRefines(s, user, text, net);
      }
    case Command(user, text) => CommandRefines(s, user, text);
    case Join(i) => JoinRefines(s, i);
    case Trigger(id, force) => One(s, EnqueueOp(OpenRunJob(id, force), s.now));
    case Configure(standups, teams, members) => One(s, ConfigureOp(standups, teams, members));
  }

  lemma KeywordRefines(s: State, user: UserId, text: string, net: Net)
    requires Known(s) && IsLatestOpen(s, user, None)
    ensures Refines(s, StepPlan(s, Message(user, text, None, net)), MaybeRetrigger(s, user, text))
  {
    var state := MemberDayState(s, user);
    if state.DayPending? || state.DayInProgress? {
      One(s, EnqueueOp(RetriggerJob(state.standupId, user), s.now));
    }
  }

  lemma CommandRefines(s: State, user: UserId, text: string)
    requires Known(s)
    ensures Refines(s, StepPlan(s, Command(user, text)), HandleCommand(s, user, text))
  {
    var state := MemberDayState(s, user);
    if state.DayPending? {
      One(s, EnqueueOp(RetriggerJob(state.standupId, user), s.now));
    }
  }

  lemma JoinRefines(s: State, i: nat)
    requires Known(s)
    ensures Refines(s, StepPlan(s, Join(i)), LateJoin(s, i))
  {
    if LateJoin(s, i) != s {
      var m := s.members[i];
      var id := StandupOf(s.standups, m.teamId.value).value;
      One(s, EnqueueOp(SendDmJob(Today(s, id), id, m.user), s.now));
    }
  }

  // ---- Whole runs ----

  lemma StepKnown(s: State, a: Stimulus)
    requires Known(s) && Enabled(s, a)
    ensures Known(Apply(s, a)) && Grows(s, Apply(s, a))
  {
    StepRefines(s, a);
    ResultKnown(s, StepPlan(s, a));
  }

  /** In every run of the system, rows refer to rows that exist. */
  lemma {:induction false} RunKnown(states: seq<State>, acts: seq<Stimulus>, i: nat)
    requires IsRun(states, acts) && i < |states|
    ensures Known(states[i])
  {
    if i > 0 {
      RunKnown(states, acts, i - 1);
      StepKnown(states[i - 1], acts[i - 1]);
    }
  }

  // ---- Only a configuration step changes the configuration ----

  predicate Configures(plan: Plan) {
    plan.Then? && (plan.op.ConfigureOp? || Configures(plan.rest))
  }

  lemma {:induction false} ChainConfigures(plan: Plan, last: Plan)
    ensures Configures(Chain(plan, last)) <==> Configures(plan) || Configures(last)
  {
    match plan
    case Done =>
    case Then(_, rest) => ChainConfigures(rest, last);
  }

  lemma JobNeverConfigures(s: State, job: Job, net: Net)
    ensures !Configures(JobPlan(s, job, net))
  {
    if job.RetriggerJob? && Startable(s, job.standupId) {
      var run := Today(s, job.standupId);
      var k := Key(run, job.user);
      assert !Configures(Then(FanOutOp(run, Some(job.user), false), Done));
      assert !Configures(Then(RunningOp(k), Then(FanOutOp(run, Some(job.user), false), Done)));
      assert !Configures(Then(RunningOp(k), Done));
    }
    if job.OpenRunJob? && job.standupId in s.standups {
      assert !Configures(Then(FanOutOp(Today(s, job.standupId), None, job.force), Done));
    }
  }

  lemma StepConfigures(s: State, a: Stimulus)
    requires Known(s) && Enabled(s, a) && !a.Configure?
    ensures !Configures(StepPlan(s, a))
  {
    if a.Deliver? {
      JobNeverConfigures(s, a.item.job, a.net);
      ChainConfigures(JobPlan(s, a.item.job, a.net), Then(AckOp(a.item), Done));
    }
  }
}
