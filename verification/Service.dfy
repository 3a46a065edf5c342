/**
 The handlers as they are written: statements that read and update the tables and the queue in
 place. Each is proved to do to the whole state what Protocol says of it.
 */
module Service {
  import opened Wrappers
  import opened DmEngine
  import opened Instants
  import opened Reminders
  import opened Protocol
  import P = Protocol

  /** team_id is unique in the standups table. */
  ghost predicate UniqueTeams(standups: map<StandupId, Standup>) {
    forall a, b :: a in standups && b in standups
                   && standups[a].teamId.Some? && standups[a].teamId == standups[b].teamId ==>
      a == b
  }

  function BatchSize(members: seq<Member>, team: Option<TeamId>, exclude: Option<UserId>): nat {
    if members == [] then 0
    else BatchSize(members[..|members| - 1], team, exclude)
         + (if Receives(members[|members| - 1], team, exclude) then 1 else 0)
  }

  lemma {:induction false} BatchSizeCounts(now: Instant, standup: Standup, members: seq<Member>, run: RunId,
                                           exclude: Option<UserId>, immediate: bool)
    ensures |SendBatch(now, standup, members, run, exclude, immediate)| == BatchSize(members, standup.teamId, exclude)
  {
    if members != [] {
      BatchSizeCounts(now, standup, members[..|members| - 1], run, exclude, immediate);
    }
  }

  /** One more member: one more job, or none. */
  lemma SendBatchStep(now: Instant, standup: Standup, members: seq<Member>, run: RunId,
                      exclude: Option<UserId>, immediate: bool, i: nat)
    requires i < |members|
    ensures SendBatch(now, standup, members[..i + 1], run, exclude, immediate)
         == SendBatch(now, standup, members[..i], run, exclude, immediate)
            + (if Receives(members[i], standup.teamId, exclude)
               then multiset{Send(now, standup, members[i], run, immediate)} else multiset{})
    ensures BatchSize(members[..i + 1], standup.teamId, exclude)
         == BatchSize(members[..i], standup.teamId, exclude)
            + (if Receives(members[i], standup.teamId, exclude) then 1 else 0)
  {
    assert members[..i + 1][..i] == members[..i];
  }

  /** The event of an opening, with the number of its reminders. */
  function Opened(k: Key, at: Instant, every: int, timeoutMs: nat): Event {
    ReportOpened(k, at, every, |ReminderDelays(every * MINUTE, timeoutMs)|)
  }

  class Backend {
    var now: Instant
    const timeoutMs: nat
    var standups: map<StandupId, Standup>
    var teams: set<TeamId>
    var members: seq<Member>
    var runs: map<RunId, Run>
    var reports: map<Key, Report>
    var jobs: multiset<Queued>
    var nextTs: nat
    ghost var log: seq<Event>

    ghost function View(): State
      reads this
    {
      State(now, timeoutMs, standups, teams, members, runs, reports, jobs, nextTs, log)
    }

    constructor (timeoutMs: nat, standups: map<StandupId, Standup>, teams: set<TeamId>, members: seq<Member>)
      requires WellConfigured(standups)
      ensures Initial(View())
      ensures this.timeoutMs == timeoutMs && this.standups == standups && this.teams == teams && this.members == members
    {
      this.now := 0;
      this.timeoutMs := timeoutMs;
      this.standups, this.teams, this.members := standups, teams, members;
      this.runs, this.reports, this.jobs := map[], map[], multiset{};
      this.nextTs := 0;
      this.log := [];
    }

    /** queue.add(name, payload, { delay }) */
    method Add(job: Job, delayMs: int)
      modifies this`jobs
      ensures View() == P.Enqueue(old(View()), job, now + delayMs)
    {
      jobs := jobs + multiset{Queued(job, now + delayMs)};
    }

    /** slack.postMessage, for posts the history follows: a fresh message reference. */
    method NewTs() returns (ts: nat)
      modifies this`nextTs
      ensures View() == old(View()).(nextTs := old(nextTs) + 1) && ts == old(nextTs)
    {
      ts := nextTs;
      nextTs := nextTs + 1;
    }

    // ---- packages/db/src/runs.ts ----

    method FinalizeRunIfDone(run: RunId) returns (done: bool)
      modifies this`runs, this`log
      ensures View() == P.Finalize(old(View()), run)
      ensures done <==> P.Finalizes(old(View()), run)
    {
      if run !in runs || runs[run].status == RunCompleted {
        return false;
      }
      if exists k :: k in reports && k.run == run && reports[k].status == InProgress {
        return false;
      }
      if runs[run].status != RunCompleted {
        runs := runs[run := runs[run].(status := RunCompleted, completedAt := Some(now))];
        log := log + [Finalized(run)];
        return true;
      }
      done := false;
    }

    // ---- apps/worker/src/timeoutReport.ts ----

    method TimeoutReport(k: Key)
      modifies this`reports, this`runs, this`jobs, this`log
      ensures View() == P.TimeoutReport(old(View()), k)
    {
      if k !in reports || reports[k].status != InProgress {
        return;
      }
      if reports[k].timeoutAt.Some? {
        var remainingMs := reports[k].timeoutAt.value - now;
        if remainingMs > 0 {
          Add(TimeoutJob(k), remainingMs);
          return;
        }
      }
      reports := reports[k := reports[k].(status := TimedOut)];
      log := log + [ReportTimedOut(k, now)];
      var _ := FinalizeRunIfDone(k.run);
    }

    // ---- apps/worker/src/queue.ts ----

    method EnqueueReminders(k: Key, intervalMs: int)
      modifies this`jobs
      ensures View() == old(View()).(jobs := old(jobs) + ReminderBatch(k, now, ReminderDelays(intervalMs, timeoutMs)))
    {
      var delays := ComputeReminderDelays(intervalMs, timeoutMs);
      assert delays[..0] == [];
      for i := 0 to |delays|
        invariant View() == old(View()).(jobs := old(jobs) + ReminderBatch(k, now, delays[..i]))
      {
        assert delays[..i + 1][..i] == delays[..i];
        Add(ReminderJob(k), delays[i]);
      }
      assert delays[..|delays|] == delays;
    }

    // ---- apps/worker/src/sendDm.ts ----

    /** ok is false where the source throws. */
    method SendDm(run: RunId, standupId: StandupId, user: UserId) returns (ok: bool)
      modifies this`reports, this`jobs, this`log
      ensures ok <==> P.SendDm(old(View()), run, standupId, user).Some?
      ensures View() == if ok then P.SendDm(old(View()), run, standupId, user).value else old(View())
    {
      var k := Key(run, user);
      if k in reports {
        return true;
      }
      if standupId !in standups {
        return false;
      }
      var standup := standups[standupId];
      if |standup.questions| == 0 {
        return false;
      }
      StartReport(k, standup.questions[0], standup.reminderIntervalMinutes);
      ok := true;
    }

    /** The writes of a first send: report row, timer, reminders. */
    method StartReport(k: Key, first: Question, intervalMinutes: int)
      requires k !in reports
      modifies this`reports, this`jobs, this`log
      ensures View() == OpenReport(old(View()), k, first, intervalMinutes)
    {
      InsertReport(k, first, intervalMinutes);
      ArmReport(k, intervalMinutes);
    }

    method InsertReport(k: Key, first: Question, intervalMinutes: int)
      requires k !in reports
      modifies this`reports, this`log
      ensures View() == old(View()).(
                reports := old(reports)[k := FreshReport(old(View()), k)],
                log := old(log) + [Opened(k, now, intervalMinutes, timeoutMs), Asked(k, first)])
    {
      reports := reports[k := Report([], InProgress, Some(now + timeoutMs), Some(now), now, None, None)];
      log := log + [Opened(k, now, intervalMinutes, timeoutMs), Asked(k, first)];
    }

    // ---- apps/worker/src/openRun.ts ----

    method EnsureRunOpen(standupId: StandupId, net: Net) returns (run: RunId, created: bool)
      requires standupId in standups
      modifies this`runs, this`nextTs, this`log
      ensures View() == P.EnsureRunOpen(old(View()), standupId, net)
      ensures run == Today(old(View()), standupId) && (created <==> run !in old(runs))
    {
      var standup := standups[standupId];
      run := RunId(standupId, standup.zone.day(now));
      if run in runs {
        return run, false;
      }
      runs := runs[run := Run(RunRunning, None, None)];
      log := log + [RunCreated(run, Roster(members, standup.teamId))];
      if standup.teamId.Some? && standup.teamId.value in teams && net.headerOk {
        var openingTs := NewTs();
        log := log + [HeaderPosted(run, openingTs)];
        runs := runs[run := runs[run].(openingTs := Some(openingTs))];
      }
      created := true;
    }

    method FanOutSends(run: RunId, exclude: Option<UserId>, immediate: bool) returns (enqueued: nat)
      requires run.standupId in standups
      modifies this`jobs
      ensures View() == P.FanOutSends(old(View()), run, exclude, immediate)
      ensures enqueued == |SendBatch(now, standups[run.standupId], members, run, exclude, immediate)|
    {
      var standup := standups[run.standupId];
      enqueued := 0;
      assert members[..0] == [];
      for i := 0 to |members|
        invariant jobs == old(jobs) + SendBatch(now, standup, members[..i], run, exclude, immediate)
        invariant enqueued == BatchSize(members[..i], standup.teamId, exclude)
      {
        SendBatchStep(now, standup, members, run, exclude, immediate, i);
        var sent := SendUnlessSkipped(run, standup, members[i], exclude, immediate);
        if sent {
          enqueued := enqueued + 1;
        }
      }
      assert members[..|members|] == members;
      BatchSizeCounts(now, standup, members, run, exclude, immediate);
    }

    /** One turn of the loop: non-reporters and the excluded user are passed over. */
    method SendUnlessSkipped(run: RunId, standup: Standup, m: Member, exclude: Option<UserId>, immediate: bool)
      returns (sent: bool)
      modifies this`jobs
      ensures sent <==> Receives(m, standup.teamId, exclude)
      ensures jobs == old(jobs) + (if sent then multiset{Send(now, standup, m, run, immediate)} else multiset{})
    {
      if !Reports(m, standup.teamId) {
        return false;
      }
      if exclude == Some(m.user) {
        return false;
      }
      EnqueueSend(run, standup, m, immediate);
      sent := true;
    }

    /** One send, delayed to the member's own send instant unless immediate. */
    method EnqueueSend(run: RunId, standup: Standup, m: Member, immediate: bool)
      modifies this`jobs
      ensures jobs == old(jobs) + multiset{Send(now, standup, m, run, immediate)}
    {
      var zone := if m.zone.Some? then m.zone.value else standup.zone;
      var sendAt := SendInstant(standup.schedule, zone, run.date);
      var delayMs := if immediate || sendAt - now < 0 then 0 else sendAt - now;
      Add(SendDmJob(run, run.standupId, m.user), delayMs);
    }

    method OpenRun(standupId: StandupId, force: bool, net: Net)
      modifies this`runs, this`jobs, this`nextTs, this`log
      ensures View() == P.OpenRun(old(View()), standupId, force, net)
    {
      if standupId !in standups || !standups[standupId].isActive {
        return;
      }
      var standup := standups[standupId];
      if standup.teamId.None? {
        return;
      }
      if !force && !Active(standup.schedule.weekdays, standup.zone.day(now)) {
        return;
      }
      var run, created := EnsureRunOpen(standupId, net);
      if !created && !force {
        return;
      }
      var _ := FanOutSends(run, None, force);
    }

    // ---- apps/worker/src/retrigger.ts ----

    method Retrigger(standupId: StandupId, user: UserId, net: Net)
      modifies this`runs, this`reports, this`jobs, this`nextTs, this`log
      ensures View() == P.Retrigger(old(View()), standupId, user, net)
    {
      if standupId !in standups || !standups[standupId].isActive || standups[standupId].teamId.None? {
        return;
      }
      var standup := standups[standupId];
      if |standup.questions| == 0 {
        return;
      }
      var run, created := EnsureRunOpen(standupId, net);
      var k := Key(run, user);
      if k in reports && reports[k].status != TimedOut {
        return;
      }
      ReopenReport(k, standup.questions[0], standup.reminderIntervalMinutes);
      if created {
        var _ := FanOutSends(run, Some(user), false);
      }
    }

    /** The writes of a retrigger, in their order: report row, run row, timer, reminders. */
    method ReopenReport(k: Key, first: Question, intervalMinutes: int)
      requires k.run in runs
      modifies this`runs, this`reports, this`jobs, this`log
      ensures View() == SetRunning(OpenReport(old(View()), k, first, intervalMinutes), k.run)
    {
      UpsertReport(k, first, intervalMinutes);
      SetRunRunning(k.run);
      ArmReport(k, intervalMinutes);
    }

    method SetRunRunning(run: RunId)
      requires run in runs
      modifies this`runs, this`log
      ensures View() == SetRunning(old(View()), run)
    {
      var row := runs[run];
      runs := runs[run := row.(status := RunRunning)];
      if row.status == RunCompleted {
        log := log + [RunReopened(run)];
      }
    }

    /** The timer and the reminder series of a report just opened. */
    method ArmReport(k: Key, intervalMinutes: int)
      modifies this`jobs
      ensures View() == old(View()).(
                jobs := old(jobs) + multiset{Queued(TimeoutJob(k), now + timeoutMs)}
                        + ReminderBatch(k, now, ReminderDelays(intervalMinutes * MINUTE, timeoutMs)))
    {
      Add(TimeoutJob(k), timeoutMs);
      EnqueueReminders(k, intervalMinutes * MINUTE);
    }

    /** insert .. on conflict do update: the row is opened anew, its creation time and post kept. */
    method UpsertReport(k: Key, first: Question, intervalMinutes: int)
      modifies this`reports, this`log
      ensures View() == old(View()).(
                reports := old(reports)[k := FreshReport(old(View()), k)],
                log := old(log) + [Opened(k, now, intervalMinutes, timeoutMs), Asked(k, first)])
    {
      if k in reports {
        reports := reports[k := reports[k].(answers := [], status := InProgress,
                                            reportedAt := None, timeoutAt := Some(now + timeoutMs))];
      } else {
        reports := reports[k := Report([], InProgress, Some(now + timeoutMs), Some(now), now, None, None)];
      }
      log := log + [Opened(k, now, intervalMinutes, timeoutMs), Asked(k, first)];
    }

    // ---- apps/worker/src/remindReport.ts ----

    method RemindReport(k: Key)
      modifies this`log
      ensures View() == P.RemindReport(old(View()), k)
    {
      if k !in reports || reports[k].status != InProgress {
        return;
      }
      log := log + [Nudged(k, now)];
    }

    // ---- apps/api/src/standupState.ts ----

    method FindMember(user: UserId) returns (member: Option<Member>)
      ensures member == FirstMember(members, user)
    {
      for i := 0 to |members|
        invariant FirstMember(members[i..], user) == FirstMember(members, user)
      {
        if members[i].user == user {
          return Some(members[i]);
        }
        assert members[i..][1..] == members[i + 1..];
      }
      member := None;
    }

    method FindStandup(team: TeamId) returns (id: Option<StandupId>)
      requires UniqueTeams(standups)
      ensures id == StandupOf(standups, team)
    {
      if x :| x in standups && standups[x].teamId == Some(team) {
        assert IsStandupOf(standups, x, team);
        id := Some(x);
      } else {
        id := None;
      }
    }

    method GetMemberDayState(user: UserId) returns (state: DayState)
      requires UniqueTeams(standups)
      ensures state == MemberDayState(View(), user)
    {
      var member := FindMember(user);
      if member.None? || member.value.teamId.None? {
        return NotMember;
      }
      var id := FindStandup(member.value.teamId.value);
      if id.None? {
        return NoStandup;
      }
      var standup := standups[id.value];
      var total := |standup.questions|;
      if !standup.isActive {
        return Paused(id.value);
      }
      var k := Key(RunId(id.value, standup.zone.day(now)), user);
      if k.run !in runs {
        return DayPending(id.value, total);
      }
      if k in reports && reports[k].status == Completed {
        return DayCompleted(id.value, total);
      }
      if k in reports && reports[k].status == InProgress {
        return DayInProgress(id.value, |reports[k].answers|, total);
      }
      state := DayPending(id.value, total);
    }

    // ---- apps/api/src/handleCommand.ts ----

    method HandleCommand(user: UserId, text: string)
      requires UniqueTeams(standups)
      modifies this`jobs
      ensures View() == P.HandleCommand(old(View()), user, text)
    {
      if ParseSubcommand(text) != Start {
        return;
      }
      var state := GetMemberDayState(user);
      if state.DayPending? {
        Add(RetriggerJob(state.standupId, user), 0);
      }
    }

    // ---- apps/api/src/handleMessage.ts ----

    /** The user's open report created last. */
    method FindOpenReport(user: UserId) returns (pick: Option<Key>)
      ensures IsLatestOpen(View(), user, pick)
    {
      pick := None;
      var rest := reports.Keys;
      while rest != {}
        invariant rest <= reports.Keys
        invariant pick.Some? ==> IsOpen(View(), user, pick.value)
        invariant forall k :: k in reports && k !in rest && IsOpen(View(), user, k) ==>
                    pick.Some? && reports[k].createdAt <= reports[pick.value].createdAt
        decreases |rest|
      {
        var k :| k in rest;
        rest := rest - {k};
        if k.user == user && reports[k].status == InProgress
           && (pick.None? || reports[pick.value].createdAt < reports[k].createdAt) {
          pick := Some(k);
        }
      }
    }

    method MaybeRetrigger(user: UserId, text: string)
      requires UniqueTeams(standups)
      modifies this`jobs
      ensures View() == P.MaybeRetrigger(old(View()), user, text)
    {
      if Normalized(text) !in RETRIGGER_KEYWORDS {
        return;
      }
      var state := GetMemberDayState(user);
      match state
      case NotMember => return;
      case NoStandup => return;
      case Paused(_) => return;
      case DayCompleted(_, _) => return;
      case _ => Add(RetriggerJob(state.standupId, user), 0);
    }

    /** postedAs is None when nothing was posted or the reference could not be stored. */
    method BroadcastReport(k: Key, team: Option<TeamId>, net: Net) returns (postedAs: Option<PostedAs>)
      requires k in reports
      modifies this`reports, this`nextTs, this`log
      ensures View() == P.Broadcast(old(View()), k, team, net)
      ensures postedAs.Some? ==> reports[k].postedAs == postedAs && reports[k].channelPostTs == Some(old(nextTs))
    {
      if team.None? || team.value !in teams {
        return None;
      }
      var postTs: Option<nat> := None;
      var path := ByBot;
      if net.hasToken {
        if net.userPostOk {
          var ts := NewTs();
          postTs := Some(ts);
          path := ByUser;
        }
      }
      if postTs.None? {
        if !net.botPostOk {
          return None;
        }
        var ts := NewTs();
        postTs := Some(ts);
      }
      log := log + [BroadcastPosted(k, path, postTs.value)];
      if !net.permalinkOk {
        return None;
      }
      reports := reports[k := reports[k].(channelPostTs := postTs, postedAs := Some(path))];
      postedAs := Some(path);
    }

    method HandleMessage(user: UserId, text: string, net: Net) returns (ghost pick: Option<Key>)
      requires UniqueTeams(standups)
      modifies this`reports, this`runs, this`jobs, this`nextTs, this`log
      ensures IsLatestOpen(old(View()), user, pick)
      ensures View() == P.HandleMessage(old(View()), user, text, pick, net)
    {
      var report := FindOpenReport(user);
      pick := report;
      if report.None? {
        MaybeRetrigger(user, text);
        return;
      }
      var k := report.value;
      if k.run !in runs || k.run.standupId !in standups {
        return;
      }
      var standup := standups[k.run.standupId];
      var action := AdvanceReport(standup.questions, reports[k].answers, text);
      match action
      case Noop => return;
      case Abort =>
        reports := reports[k := reports[k].(status := TimedOut)];
        log := log + [ReportAborted(k, now)];
        var _ := FinalizeRunIfDone(k.run);
      case Next(answers, question) =>
        reports := reports[k := reports[k].(answers := answers, timeoutAt := Some(now + timeoutMs))];
        log := log + [ReplyAccepted(k, now), Asked(k, question)];
      case Complete(answers) =>
        reports := reports[k := reports[k].(answers := answers, status := Completed, reportedAt := Some(now))];
        log := log + [ReportCompleted(k, now)];
        var _ := BroadcastReport(k, standup.teamId, net);
        var _ := FinalizeRunIfDone(k.run);
    }

    // ---- apps/web/lib/late-join.ts ----

    method EnqueueLateJoinIfOpen(i: nat)
      requires UniqueTeams(standups)
      modifies this`jobs
      ensures View() == P.LateJoin(old(View()), i)
    {
      if i >= |members| || !members[i].canReport || members[i].teamId.None? {
        return;
      }
      var m := members[i];
      var id := FindStandup(m.teamId.value);
      if id.None? || !standups[id.value].isActive {
        return;
      }
      var run := RunId(id.value, standups[id.value].zone.day(now));
      if run !in runs {
        return;
      }
      if Key(run, m.user) in reports {
        return;
      }
      Add(SendDmJob(run, id.value, m.user), 0);
    }

    // ---- apps/worker/src/processor.ts ----

    /** Routes a job to its handler; ok is false where the handler throws. */
    method Handle(job: Job, net: Net) returns (ok: bool)
      modifies this`runs, this`reports, this`jobs, this`nextTs, this`log
      ensures P.HandleJob(old(View()), job, net) == if ok then Some(View()) else None
      ensures !ok ==> View() == old(View())
    {
      match job
      case OpenRunJob(id, force) =>
        OpenRun(id, force, net);
        return true;
      case SendDmJob(run, id, user) =>
        ok := SendDm(run, id, user);
        return;
      case TimeoutJob(k) =>
        TimeoutReport(k);
        return true;
      case RetriggerJob(id, user) =>
        Retrigger(id, user, net);
        return true;
      case ReminderJob(k) =>
        RemindReport(k);
        return true;
    }

    /** A due job is handled; acknowledged, it leaves the queue. */
    method Process(item: Queued, ack: bool, net: Net)
      requires item in jobs && item.due <= now
      modifies this
      ensures View() == P.DeliverJob(old(View()), item, ack, net)
    {
      var ok := Handle(item.job, net);
      if ok && ack {
        jobs := jobs - multiset{item};
      }
    }
  }
}
