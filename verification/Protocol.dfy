/**
 The standup protocol: what every worker, api and web handler does to the shared rows and to the
 queue of delayed jobs, as functions of the whole state. Service.dfy holds the handlers in their
 own, statement by statement, form.

 A handler runs as one step, reads the clock once, and its Slack and queue calls succeed, except
 for the calls whose failure the source catches (see Net).
 */
module Protocol {
  import opened Wrappers
  import opened DmEngine
  import opened Cron
  import opened Instants
  import opened Reminders

  type StandupId = string
  type TeamId = string
  type UserId = string

  // ---- Rows ----

  /** A run row; (standup_id, scheduled_date) is unique, and stands for its id. */
  datatype RunId = RunId(standupId: StandupId, date: Date)

  /** A report row; (run_id, slack_user_id) is unique. */
  datatype Key = Key(run: RunId, user: UserId)

  /** A schedule whose cron printed a time of day, as every cron written by cronFromWeekly does. */
  type TimedSchedule = w: WeeklySchedule | w.hour.Nat? && w.minute.Nat?
    witness WeeklySchedule([], Nat(0), Nat(0))

  datatype Standup = Standup(
    teamId: Option<TeamId>,
    isActive: bool,
    questions: seq<Question>,
    schedule: TimedSchedule,
    zone: Zone,
    reminderIntervalMinutes: int)

  datatype Member = Member(teamId: Option<TeamId>, user: UserId, zone: Option<Zone>, canReport: bool)

  datatype RunStatus = RunPending | RunRunning | RunCompleted

  datatype Run = Run(status: RunStatus, completedAt: Option<Instant>, openingTs: Option<nat>)

  datatype ReportStatus = InProgress | Completed | TimedOut

  datatype PostedAs = ByUser | ByBot

  datatype Report = Report(
    answers: seq<Answer>,
    status: ReportStatus,
    timeoutAt: Option<Instant>,
    reportedAt: Option<Instant>,
    createdAt: Instant,
    channelPostTs: Option<nat>,
    postedAs: Option<PostedAs>)

  // ---- Jobs ----

  datatype Job =
    | OpenRunJob(standupId: StandupId, force: bool)
    | SendDmJob(run: RunId, standupId: StandupId, user: UserId)
    | TimeoutJob(key: Key)
    | RetriggerJob(standupId: StandupId, user: UserId)
    | ReminderJob(key: Key)

  datatype Queued = Queued(job: Job, due: Instant)

  // ---- History ----

  /** What a handler did, for statements about whole runs of the system. */
  datatype Event =
    | RunCreated(run: RunId, roster: set<UserId>)
    | HeaderPosted(run: RunId, ts: nat)
    | ReportOpened(key: Key, at: Instant, every: int, reminders: nat)
    | Asked(key: Key, question: Question)
    | ReplyAccepted(key: Key, at: Instant)
    | ReportCompleted(key: Key, at: Instant)
    | ReportAborted(key: Key, at: Instant)
    | ReportTimedOut(key: Key, at: Instant)
    | BroadcastPosted(key: Key, postedAs: PostedAs, ts: nat)
    | Finalized(run: RunId)
    | RunReopened(run: RunId)
    | Nudged(key: Key, at: Instant)

  datatype State = State(
    now: Instant,
    timeoutMs: nat,
    standups: map<StandupId, Standup>,
    teams: set<TeamId>,  // those with a channel to post to
    members: seq<Member>,
    runs: map<RunId, Run>,
    reports: map<Key, Report>,
    jobs: multiset<Queued>,
    nextTs: nat,
    log: seq<Event>)

  /** Outcomes of the outside calls whose failure a handler catches. */
  datatype Net = Net(headerOk: bool, hasToken: bool, userPostOk: bool, botPostOk: bool, permalinkOk: bool)

  function Note(s: State, e: Event): State {
    s.(log := s.log + [e])
  }

  function Put(s: State, k: Key, r: Report): State {
    s.(reports := s.reports[k := r])
  }

  function Enqueue(s: State, job: Job, due: Instant): State {
    s.(jobs := s.jobs + multiset{Queued(job, due)})
  }

  // ---- packages/db/src/runs.ts ----

  predicate AllTerminal(s: State, run: RunId) {
    forall k :: k in s.reports && k.run == run ==> s.reports[k].status != InProgress
  }

  predicate Finalizes(s: State, run: RunId) {
    run in s.runs && s.runs[run].status != RunCompleted && AllTerminal(s, run)
  }

  function Finalize(s: State, run: RunId): State {
    if Finalizes(s, run) then
      s.(runs := s.runs[run := s.runs[run].(status := RunCompleted, completedAt := Some(s.now))],
      log := s.log + [Finalized(run)])
    else s
  }

  // ---- apps/worker/src/timeoutReport.ts ----

  function Close(s: State, k: Key, e: Event): State
    requires k in s.reports
  {
    Note(Put(s, k, s.reports[k].(status := TimedOut)), e)
  }

  function TimeoutReport(s: State, k: Key): State {
    if k !in s.reports || s.reports[k].status != InProgress then s
    else if s.reports[k].timeoutAt.Some? && s.reports[k].timeoutAt.value > s.now then
      Enqueue(s, TimeoutJob(k), s.reports[k].timeoutAt.value)
    else Finalize(Close(s, k, ReportTimedOut(k, s.now)), k.run)
  }

  // ---- Opening a report: shared tail of sendDm and retrigger ----

  function ReminderBatch(k: Key, base: Instant, delays: seq<int>): multiset<Queued> {
    if delays == [] then multiset{}
    else ReminderBatch(k, base, delays[..|delays| - 1])
         + multiset{Queued(ReminderJob(k), base + delays[|delays| - 1])}
  }

  function FreshReport(s: State, k: Key): Report {
    var deadline := Some(s.now + s.timeoutMs);
    if k in s.reports then
      s.reports[k].(answers := [], status := InProgress, timeoutAt := deadline, reportedAt := None)
    else Report([], InProgress, deadline, Some(s.now), s.now, None, None)
  }

  function OpenReport(s: State, k: Key, first: Question, intervalMinutes: int): State {
    var delays := ReminderDelays(intervalMinutes * MINUTE, s.timeoutMs);
    s.(reports := s.reports[k := FreshReport(s, k)],
    jobs := s.jobs + multiset{Queued(TimeoutJob(k), s.now + s.timeoutMs)} + ReminderBatch(k, s.now, delays),
    log := s.log + [ReportOpened(k, s.now, intervalMinutes, |delays|), Asked(k, first)])
  }

  // ---- apps/worker/src/sendDm.ts ----

  /** None when the handler throws: the job stays in the queue and is tried again. */
  function SendDm(s: State, run: RunId, standupId: StandupId, user: UserId): Option<State> {
    if Key(run, user) in s.reports then Some(s)
    else if standupId !in s.standups || s.standups[standupId].questions == [] then None
    else
      var standup := s.standups[standupId];
      Some(OpenReport(s, Key(run, user), standup.questions[0], standup.reminderIntervalMinutes))
  }

  // ---- apps/worker/src/openRun.ts ----

  predicate Reports(m: Member, team: Option<TeamId>) {
    team.Some? && m.teamId == team && m.canReport
  }

  function Roster(members: seq<Member>, team: Option<TeamId>): set<UserId> {
    set i | 0 <= i < |members| && Reports(members[i], team) :: members[i].user
  }

  function Today(s: State, standupId: StandupId): RunId
    requires standupId in s.standups
  {
    RunId(standupId, s.standups[standupId].zone.day(s.now))
  }

  /** The run row is inserted and, best effort, its header message posted. */
  function CreateRun(s: State, run: RunId, team: Option<TeamId>, net: Net): State {
    var roster := Roster(s.members, team);
    if team.Some? && team.value in s.teams && net.headerOk then
      s.(runs := s.runs[run := Run(RunRunning, None, Some(s.nextTs))],
      nextTs := s.nextTs + 1,
      log := s.log + [RunCreated(run, roster), HeaderPosted(run, s.nextTs)])
    else
      s.(runs := s.runs[run := Run(RunRunning, None, None)], log := s.log + [RunCreated(run, roster)])
  }

  /** Insert-on-conflict-do-nothing on (standup, date): only the inserting call creates. */
  function EnsureRunOpen(s: State, standupId: StandupId, net: Net): State
    requires standupId in s.standups
  {
    var run := Today(s, standupId);
    if run in s.runs then s else CreateRun(s, run, s.standups[standupId].teamId, net)
  }

  function SendDue(now: Instant, standup: Standup, m: Member, run: RunId, immediate: bool): Instant {
    var zone := if m.zone.Some? then m.zone.value else standup.zone;
    var sendAt := SendInstant(standup.schedule, zone, run.date);
    if immediate || sendAt < now then now else sendAt
  }

  predicate Receives(m: Member, team: Option<TeamId>, exclude: Option<UserId>) {
    Reports(m, team) && exclude != Some(m.user)
  }

  /** The send-dm job for a member. */
  function Send(now: Instant, standup: Standup, m: Member, run: RunId, immediate: bool): Queued {
    Queued(SendDmJob(run, run.standupId, m.user), SendDue(now, standup, m, run, immediate))
  }

  /** The send-dm jobs for those of the members that receive one. */
  function SendBatch(now: Instant, standup: Standup, members: seq<Member>,
                     run: RunId, exclude: Option<UserId>, immediate: bool): multiset<Queued>
  {
    if members == [] then multiset{}
    else
      var m := members[|members| - 1];
      SendBatch(now, standup, members[..|members| - 1], run, exclude, immediate)
      + (if Receives(m, standup.teamId, exclude) then multiset{Send(now, standup, m, run, immediate)} else multiset{})
  }

  function FanOutSends(s: State, run: RunId, exclude: Option<UserId>, immediate: bool): State
    requires run.standupId in s.standups
  {
    s.(jobs := s.jobs + SendBatch(s.now, s.standups[run.standupId], s.members, run, exclude, immediate))
  }

  function OpenRun(s: State, standupId: StandupId, force: bool, net: Net): State {
    if standupId !in s.standups then s
    else
      var standup := s.standups[standupId];
      if !standup.isActive || standup.teamId.None? then s
      else if !force && !Active(standup.schedule.weekdays, standup.zone.day(s.now)) then s
      else
        var run := Today(s, standupId);
        var created := run !in s.runs;
        var ready := EnsureRunOpen(s, standupId, net);
        if !created && !force then ready else FanOutSends(ready, run, None, force)
  }

  // ---- apps/worker/src/retrigger.ts ----

  /** set({ status: "running" }); the history notes it when the run had been completed. */
  function SetRunning(s: State, run: RunId): State
    requires run in s.runs
  {
    var row := s.runs[run];
    s.(runs := s.runs[run := row.(status := RunRunning)],
    log := if row.status == RunCompleted then s.log + [RunReopened(run)] else s.log)
  }

  predicate Startable(s: State, standupId: StandupId) {
    && standupId in s.standups
    && s.standups[standupId].isActive && s.standups[standupId].teamId.Some?
    && s.standups[standupId].questions != []
  }

  function Retrigger(s: State, standupId: StandupId, user: UserId, net: Net): State {
    if !Startable(s, standupId) then s
    else
      var standup, run := s.standups[standupId], Today(s, standupId);
      var k := Key(run, user);
      var created := run !in s.runs;
      var ready := EnsureRunOpen(s, standupId, net);
      if k in ready.reports && ready.reports[k].status != TimedOut then ready
      else
        var asked := OpenReport(ready, k, standup.questions[0], standup.reminderIntervalMinutes);
        var running := SetRunning(asked, run);
        if created then FanOutSends(running, run, Some(user), false) else running
  }

  // ---- apps/worker/src/remindReport.ts ----

  function RemindReport(s: State, k: Key): State {
    if k in s.reports && s.reports[k].status == InProgress then Note(s, Nudged(k, s.now)) else s
  }

  // ---- apps/api/src/standupState.ts ----

  datatype DayState =
    | NotMember
    | NoStandup
    | Paused(standupId: StandupId)
    | DayCompleted(standupId: StandupId, total: nat)
    | DayInProgress(standupId: StandupId, answered: nat, total: nat)
    | DayPending(standupId: StandupId, total: nat)

  /** The first membership row of a user. */
  function FirstMember(members: seq<Member>, user: UserId): Option<Member> {
    if members == [] then None
    else if members[0].user == user then Some(members[0])
    else FirstMember(members[1..], user)
  }

  ghost predicate IsStandupOf(standups: map<StandupId, Standup>, id: StandupId, team: TeamId) {
    id in standups && standups[id].teamId == Some(team)
  }

  /** The team's standup; team_id is unique in the table. */
  ghost function StandupOf(standups: map<StandupId, Standup>, team: TeamId): Option<StandupId> {
    if exists id :: IsStandupOf(standups, id, team) then
      var id :| IsStandupOf(standups, id, team); Some(id)
    else None
  }

  ghost function MemberDayState(s: State, user: UserId): DayState {
    var member := FirstMember(s.members, user);
    if member.None? || member.value.teamId.None? then NotMember
    else
      var id := StandupOf(s.standups, member.value.teamId.value);
      if id.None? then NoStandup
      else
        var standup := s.standups[id.value];
        var total := |standup.questions|;
        var k := Key(Today(s, id.value), user);
        if !standup.isActive then Paused(id.value)
        else if k.run !in s.runs || k !in s.reports then DayPending(id.value, total)
        else match s.reports[k].status
             case Completed => DayCompleted(id.value, total)
             case InProgress => DayInProgress(id.value, |s.reports[k].answers|, total)
             case TimedOut => DayPending(id.value, total)
  }

  // ---- apps/api/src/handleCommand.ts ----

  datatype Subcommand = Start | Status | Help

  function ParseSubcommand(text: string): Subcommand {
    var t := Normalized(text);
    if t == "" || t == "start" then Start else if t == "status" then Status else Help
  }

  ghost function HandleCommand(s: State, user: UserId, text: string): State {
    if ParseSubcommand(text) == Start && MemberDayState(s, user).DayPending?
    then Enqueue(s, RetriggerJob(MemberDayState(s, user).standupId, user), s.now)
    else s
  }

  // ---- apps/api/src/handleMessage.ts ----

  const RETRIGGER_KEYWORDS := {"redo", "restart", "start", "standup"}

  ghost function MaybeRetrigger(s: State, user: UserId, text: string): State {
    var state := MemberDayState(s, user);
    if Normalized(text) in RETRIGGER_KEYWORDS && (state.DayPending? || state.DayInProgress?)
    then Enqueue(s, RetriggerJob(state.standupId, user), s.now)
    else s
  }

  function Broadcast(s: State, k: Key, team: Option<TeamId>, net: Net): State
    requires k in s.reports
  {
    var asUser := net.hasToken && net.userPostOk;
    if team.None? || team.value !in s.teams || (!asUser && !net.botPostOk) then s
    else
      var path := if asUser then ByUser else ByBot;
      var posted := s.(nextTs := s.nextTs + 1, log := s.log + [BroadcastPosted(k, path, s.nextTs)]);
      if net.permalinkOk
      then Put(posted, k, s.reports[k].(channelPostTs := Some(s.nextTs), postedAs := Some(path)))
      else posted
  }

  function AcceptReply(s: State, k: Key, answers: seq<Answer>, question: Question): State
    requires k in s.reports
  {
    var r := s.reports[k].(answers := answers, timeoutAt := Some(s.now + s.timeoutMs));
    s.(reports := s.reports[k := r], log := s.log + [ReplyAccepted(k, s.now), Asked(k, question)])
  }

  function CompleteReport(s: State, k: Key, answers: seq<Answer>): State
    requires k in s.reports
  {
    Note(Put(s, k, s.reports[k].(answers := answers, status := Completed, reportedAt := Some(s.now))),
         ReportCompleted(k, s.now))
  }

  predicate IsOpen(s: State, user: UserId, k: Key) {
    k in s.reports && k.user == user && s.reports[k].status == InProgress
  }

  /** pick is the user's most recently created in_progress report, None if there is none. */
  predicate IsLatestOpen(s: State, user: UserId, pick: Option<Key>) {
    match pick
    case None => forall k :: k in s.reports ==> !IsOpen(s, user, k)
    case Some(p) =>
      IsOpen(s, user, p)
      && forall k :: k in s.reports && IsOpen(s, user, k) ==> s.reports[k].createdAt <= s.reports[p].createdAt
  }

  /** A reply to the open report k. */
  function Reply(s: State, k: Key, text: string, net: Net): State
    requires k in s.reports
  {
    if k.run !in s.runs || k.run.standupId !in s.standups then s
    else
      var standup := s.standups[k.run.standupId];
      match AdvanceReport(standup.questions, s.reports[k].answers, text)
      case Noop => s
      case Abort => Finalize(Close(s, k, ReportAborted(k, s.now)), k.run)
      case Next(answers, question) => AcceptReply(s, k, answers, question)
      case Complete(answers) => Finalize(Broadcast(CompleteReport(s, k, answers), k, standup.teamId, net), k.run)
  }

  ghost function HandleMessage(s: State, user: UserId, text: string, pick: Option<Key>, net: Net): State
    requires IsLatestOpen(s, user, pick)
  {
    match pick
    case None => MaybeRetrigger(s, user, text)
    case Some(k) => Reply(s, k, text, net)
  }

  // ---- apps/web/lib/late-join.ts ----

  ghost function LateJoin(s: State, i: nat): State {
    if i >= |s.members| then s
    else
      var m := s.members[i];
      if !m.canReport || m.teamId.None? then s
      else
        var id := StandupOf(s.standups, m.teamId.value);
        if id.None? || !s.standups[id.value].isActive then s
        else
          var run := Today(s, id.value);
          if run !in s.runs || Key(run, m.user) in s.reports then s
          else Enqueue(s, SendDmJob(run, id.value, m.user), s.now)
  }

  // ---- One step of the system ----

  datatype Stimulus =
    | Tick(to: Instant)
    | Deliver(item: Queued, ack: bool, net: Net)
    | Message(user: UserId, text: string, pick: Option<Key>, net: Net)
    | Command(user: UserId, text: string)
    | Join(member: nat)
    | Trigger(standupId: StandupId, force: bool)
    | Configure(standups: map<StandupId, Standup>, teams: set<TeamId>, members: seq<Member>)

  /** None when the handler throws. */
  function HandleJob(s: State, job: Job, net: Net): Option<State> {
    match job
    case OpenRunJob(id, force) => Some(OpenRun(s, id, force, net))
    case SendDmJob(run, id, user) => SendDm(s, run, id, user)
    case TimeoutJob(k) => Some(TimeoutReport(s, k))
    case RetriggerJob(id, user) => Some(Retrigger(s, id, user, net))
    case ReminderJob(k) => Some(RemindReport(s, k))
  }

  function Ack(s: State, item: Queued): State {
    s.(jobs := s.jobs - multiset{item})
  }

  /** A job whose acknowledgement is lost, or whose handler threw, stays queued and comes again. */
  function DeliverJob(s: State, item: Queued, ack: bool, net: Net): State {
    match HandleJob(s, item.job, net)
    case None => s
    case Some(next) => if ack then Ack(next, item) else next
  }

  /** Standups are configured with at least one question. */
  ghost predicate WellConfigured(standups: map<StandupId, Standup>) {
    forall id :: id in standups ==> standups[id].questions != []
  }

  ghost predicate Enabled(s: State, a: Stimulus) {
    match a
    case Tick(to) => s.now <= to
    case Deliver(item, _, _) => item in s.jobs && item.due <= s.now
    case Message(user, _, pick, _) => IsLatestOpen(s, user, pick)
    case Command(_, _) => true
    case Join(_) => true
    case Trigger(_, _) => true
    case Configure(standups, _, _) => WellConfigured(standups) && s.standups.Keys <= standups.Keys
  }

  ghost function Apply(s: State, a: Stimulus): State
    requires Enabled(s, a)
  {
    match a
    case Tick(to) => s.(now := to)
    case Deliver(item, ack, net) => DeliverJob(s, item, ack, net)
    case Message(user, text, pick, net) => HandleMessage(s, user, text, pick, net)
    case Command(user, text) => HandleCommand(s, user, text)
    case Join(member) => LateJoin(s, member)
    case Trigger(id, force) => Enqueue(s, OpenRunJob(id, force), s.now)
    case Configure(standups, teams, members) => s.(standups := standups, teams := teams, members := members)
  }

  ghost predicate Initial(s: State) {
    && WellConfigured(s.standups)
    && s.runs == map[] && s.reports == map[] && s.jobs == multiset{} && s.log == []
  }

  /** A finite run of the system: states, and the stimulus that leads from each to the next. */
  ghost predicate IsRun(states: seq<State>, acts: seq<Stimulus>) {
    && |states| == |acts| + 1
    && Initial(states[0])
    && forall i :: 0 <= i < |acts| ==> Enabled(states[i], acts[i]) && states[i + 1] == Apply(states[i], acts[i])
  }
}
