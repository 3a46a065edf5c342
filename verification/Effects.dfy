/**
 What each handler leaves behind, in fields of rows and jobs: an account of the handlers that uses
 none of the functions they are defined by.
 */
module Effects {
  import opened Wrappers
  import opened Text
  import opened DmEngine
  import opened Cron
  import opened Instants
  import opened Reminders
  import opened Protocol
  import opened RowOps

  // ---- Reminder jobs ----

  /** The n-th multiple of so many minutes. */
  predicate Multiple(n: nat, minutes: int, ms: int) {
    n >= 1 && minutes > 0 && ms == n * (minutes * 60_000)
  }

  /** A reminder of the opening of k at `at`: a multiple of the interval after it, below the timeout. */
  ghost predicate IsReminder(q: Queued, k: Key, at: Instant, minutes: int, timeoutMs: nat) {
    && q.job == ReminderJob(k) && q.due - at < timeoutMs
    && IsMultiple(minutes, q.due - at)
  }

  ghost predicate IsMultiple(minutes: int, ms: int) {
    exists n: nat :: Multiple(n, minutes, ms)
  }

  predicate Ascends(delays: seq<int>) {
    forall i, j :: 0 <= i < j < |delays| ==> delays[i] < delays[j]
  }

  lemma {:induction false} BatchAt(k: Key, base: Instant, delays: seq<int>, q: Queued)
    requires Ascends(delays)
    ensures ReminderBatch(k, base, delays)[q] == if q.job == ReminderJob(k) && q.due - base in delays then 1 else 0
  {
    if delays != [] {
      var front, last := delays[..|delays| - 1], delays[|delays| - 1];
      assert delays == front + [last];
      BatchAt(k, base, front, q);
    }
  }

  lemma SeriesAscends(interval: int, timeout: int)
    ensures Ascends(ReminderDelays(interval, timeout))
  {
    DelaysAreMultiples(interval, timeout);
    var d := ReminderDelays(interval, timeout);
    forall i, j | 0 <= i < j < |d| ensures d[i] < d[j] {
      Steeper(i + 1, j + 1, interval);
    }
  }

  lemma Steeper(a: nat, b: nat, interval: int)
    requires a < b && interval > 0
    ensures a * interval < b * interval
  {
  }

  /** The series holds a number exactly if it is a multiple of the interval below the timeout. */
  lemma InSeries(minutes: int, timeout: int, ms: int)
    ensures ms in ReminderDelays(minutes * 60_000, timeout) <==>
              ms < timeout && IsMultiple(minutes, ms)
  {
    var interval := minutes * 60_000;
    DelaysAreMultiples(interval, timeout);
    var d := ReminderDelays(interval, timeout);
    if ms in d {
      var i :| 0 <= i < |d| && d[i] == ms;
      assert Multiple(i + 1, minutes, ms);
    }
    if ms < timeout && IsMultiple(minutes, ms) {
      var n: nat :| Multiple(n, minutes, ms);
      assert n * interval < timeout;
      assert d[n - 1] == ms;
    }
  }

  lemma RemindersAt(k: Key, now: Instant, minutes: int, timeoutMs: nat, q: Queued)
    ensures ReminderBatch(k, now, ReminderDelays(minutes * 60_000, timeoutMs))[q]
         == if IsReminder(q, k, now, minutes, timeoutMs) then 1 else 0
  {
    SeriesAscends(minutes * 60_000, timeoutMs);
    BatchAt(k, now, ReminderDelays(minutes * 60_000, timeoutMs), q);
    InSeries(minutes, timeoutMs, q.due - now);
  }

  // ---- Opening a report ----

  /** How often a job is queued by opening k at `now`: its timer once, each of its reminders once. */
  ghost function OpeningJobs(k: Key, now: Instant, minutes: int, timeoutMs: nat, q: Queued): nat {
    (if q == Queued(TimeoutJob(k), now + timeoutMs) then 1 else 0)
    + (if IsReminder(q, k, now, minutes, timeoutMs) then 1 else 0)
  }

  /** The row of a report just opened: no answers, and a full timeout ahead. */
  ghost predicate FreshRow(s: State, k: Key, r: Report) {
    && r.answers == [] && r.status == InProgress && r.timeoutAt == Some(s.now + s.timeoutMs)
    && if k in s.reports
       then r.reportedAt.None? && r.createdAt == s.reports[k].createdAt
            && r.channelPostTs == s.reports[k].channelPostTs && r.postedAs == s.reports[k].postedAs
       else r.reportedAt == Some(s.now) && r.createdAt == s.now && r.channelPostTs.None? && r.postedAs.None?
  }

  /** Only the jobs of the opening were added. */
  ghost predicate OpeningQueued(s: State, asked: State, k: Key, minutes: int) {
    && asked.standups == s.standups && asked.members == s.members && asked.now == s.now
    && forall q :: asked.jobs[q] == s.jobs[q] + OpeningJobs(k, s.now, minutes, s.timeoutMs, q)
  }

  lemma OpenRow(s: State, k: Key, first: Question, minutes: int)
    ensures var t := OpenReport(s, k, first, minutes);
            && k in t.reports && FreshRow(s, k, t.reports[k]) && t.reports == s.reports[k := t.reports[k]]
            && t == s.(reports := t.reports, jobs := t.jobs, log := t.log)
  {
  }

  lemma OpenJobs(s: State, k: Key, first: Question, minutes: int)
    ensures forall q :: OpenReport(s, k, first, minutes).jobs[q]
                     == s.jobs[q] + OpeningJobs(k, s.now, minutes, s.timeoutMs, q)
  {
    forall q ensures OpenReport(s, k, first, minutes).jobs[q]
                  == s.jobs[q] + OpeningJobs(k, s.now, minutes, s.timeoutMs, q)
    {
      RemindersAt(k, s.now, minutes, s.timeoutMs, q);
    }
  }

  lemma OpenEvents(s: State, k: Key, first: Question, minutes: int)
    ensures var log := OpenReport(s, k, first, minutes).log;
            && |log| == |s.log| + 2 && s.log <= log
            && log[|s.log|].ReportOpened? && log[|s.log|].key == k
            && log[|s.log|].at == s.now && log[|s.log|].every == minutes
            && log[|s.log| + 1] == Asked(k, first)
  {
  }

  /**
   send-dm: done already if there is a report; a failure if the standup is gone or asks nothing;
   otherwise the report is opened, asked its first question, and its timer and its reminders are
   queued, each once.
   */
  lemma SendDmExactly(s: State, run: RunId, id: StandupId, user: UserId)
    ensures var k := Key(run, user);
            if k in s.reports then SendDm(s, run, id, user) == Some(s)
            else if id !in s.standups || s.standups[id].questions == [] then SendDm(s, run, id, user).None?
            else
              && SendDm(s, run, id, user).Some?
              && var t := SendDm(s, run, id, user).value;
                 && t == s.(reports := t.reports, jobs := t.jobs, log := t.log)
                 && k in t.reports && FreshRow(s, k, t.reports[k]) && t.reports == s.reports[k := t.reports[k]]
                 && OpeningQueued(s, t, k, s.standups[id].reminderIntervalMinutes)
                 && |t.log| == |s.log| + 2 && t.log[|s.log| + 1] == Asked(k, s.standups[id].questions[0])
  {
    var k := Key(run, user);
    if k !in s.reports && id in s.standups && s.standups[id].questions != [] {
      var standup := s.standups[id];
      OpenRow(s, k, standup.questions[0], standup.reminderIntervalMinutes);
      OpenJobs(s, k, standup.questions[0], standup.reminderIntervalMinutes);
      OpenEvents(s, k, standup.questions[0], standup.reminderIntervalMinutes);
    }
  }

  // ---- Sending to a team ----

  /** The member reports for the standup's team and is not the one excluded. */
  predicate IsSentTo(m: Member, standup: Standup, exclude: Option<UserId>) {
    && standup.teamId.Some? && m.teamId == standup.teamId && m.canReport
    && (exclude.None? || exclude.value != m.user)
  }

  /** At once if forced or if the member's local time on the run's date has passed, otherwise at that time. */
  function DueFor(now: Instant, standup: Standup, m: Member, run: RunId, immediate: bool): Instant {
    var zone := if m.zone.Some? then m.zone.value else standup.zone;
    var local := zone.at(run.date, standup.schedule.hour.n, standup.schedule.minute.n);
    if immediate || local < now then now else local
  }

  /** The members for whom the job is the send-dm. */
  function SentBy(now: Instant, standup: Standup, members: seq<Member>, run: RunId,
                  exclude: Option<UserId>, immediate: bool, q: Queued): set<nat>
  {
    set i: nat | i < |members| && IsSend(now, standup, members[i], run, exclude, immediate, q)
  }

  lemma SentBySnoc(now: Instant, standup: Standup, front: seq<Member>, m: Member, run: RunId,
                   exclude: Option<UserId>, immediate: bool, q: Queued)
    ensures SentBy(now, standup, front + [m], run, exclude, immediate, q)
         == SentBy(now, standup, front, run, exclude, immediate, q)
            + (if IsSend(now, standup, m, run, exclude, immediate, q) then {|front|} else {})
  {
    var members := front + [m];
    assert members[|front|] == m;
    assert forall i: nat :: i < |front| ==> members[i] == front[i];
  }

  /** This is the job a member is sent, if any. */
  predicate IsSend(now: Instant, standup: Standup, m: Member, run: RunId,
                   exclude: Option<UserId>, immediate: bool, q: Queued)
  {
    && IsSentTo(m, standup, exclude)
    && q == Queued(SendDmJob(run, run.standupId, m.user), DueFor(now, standup, m, run, immediate))
  }

  lemma BatchSnoc(now: Instant, standup: Standup, front: seq<Member>, m: Member, run: RunId,
                  exclude: Option<UserId>, immediate: bool, q: Queued)
    ensures SendBatch(now, standup, front + [m], run, exclude, immediate)[q]
         == SendBatch(now, standup, front, run, exclude, immediate)[q]
            + (if IsSend(now, standup, m, run, exclude, immediate, q) then 1 else 0)
  {
    assert (front + [m])[..|front|] == front;
  }

  /** A fan-out queues one send for each member it is for, at that member's time, and nothing else. */
  lemma {:induction false} FanOutCounts(now: Instant, standup: Standup, members: seq<Member>, run: RunId,
                                        exclude: Option<UserId>, immediate: bool, q: Queued)
    ensures SendBatch(now, standup, members, run, exclude, immediate)[q]
         == |SentBy(now, standup, members, run, exclude, immediate, q)|
  {
    if members == [] {
      assert SentBy(now, standup, members, run, exclude, immediate, q) == {};
    } else {
      var front, m := members[..|members| - 1], members[|members| - 1];
      FanOutCounts(now, standup, front, run, exclude, immediate, q);
      BatchSnoc(now, standup, front, m, run, exclude, immediate, q);
      SentBySnoc(now, standup, front, m, run, exclude, immediate, q);
      OneMoreMember(SentBy(now, standup, front, run, exclude, immediate, q), |front|);
      assert members == front + [m];
    }
  }

  lemma OneMoreMember(front: set<nat>, n: nat)
    requires n !in front
    ensures |front + {n}| == |front| + 1 && front + {} == front
  {
  }

  /** The jobs a fan-out adds. */
  ghost predicate FansOut(s: State, t: State, run: RunId, exclude: Option<UserId>, immediate: bool)
    requires run.standupId in s.standups
  {
    forall q :: t.jobs[q]
             == s.jobs[q] + |SentBy(s.now, s.standups[run.standupId], s.members, run, exclude, immediate, q)|
  }

  lemma FanOutJobs(s: State, run: RunId, exclude: Option<UserId>, immediate: bool)
    requires run.standupId in s.standups
    ensures FansOut(s, FanOutSends(s, run, exclude, immediate), run, exclude, immediate)
    ensures FanOutSends(s, run, exclude, immediate) == s.(jobs := FanOutSends(s, run, exclude, immediate).jobs)
  {
    forall q ensures FanOutSends(s, run, exclude, immediate).jobs[q]
                  == s.jobs[q] + |SentBy(s.now, s.standups[run.standupId], s.members, run, exclude, immediate, q)|
    {
      FanOutCounts(s.now, s.standups[run.standupId], s.members, run, exclude, immediate, q);
    }
  }

  /** So a send to a user is added exactly if some reporting member of the team is that user, not excluded. */
  lemma FanOutReaches(s: State, t: State, run: RunId, exclude: Option<UserId>, immediate: bool, user: UserId)
    requires run.standupId in s.standups && FansOut(s, t, run, exclude, immediate)
    ensures var team := s.standups[run.standupId].teamId;
            (exists q: Queued :: q.job == SendDmJob(run, run.standupId, user) && t.jobs[q] > s.jobs[q]) <==>
              && exclude != Some(user)
              && exists i :: 0 <= i < |s.members| && s.members[i].user == user
                             && team.Some? && s.members[i].teamId == team && s.members[i].canReport
  {
    var standup := s.standups[run.standupId];
    if q: Queued :| q.job == SendDmJob(run, run.standupId, user) && t.jobs[q] > s.jobs[q] {
      var i: nat :| i in SentBy(s.now, standup, s.members, run, exclude, immediate, q);
    }
    if i :| 0 <= i < |s.members| && s.members[i].user == user && exclude != Some(user)
            && standup.teamId.Some? && s.members[i].teamId == standup.teamId && s.members[i].canReport {
      var q := Queued(SendDmJob(run, run.standupId, user), DueFor(s.now, standup, s.members[i], run, immediate));
      assert i in SentBy(s.now, standup, s.members, run, exclude, immediate, q);
    }
  }

  // ---- Creating a run ----

  /** The header is posted, and stored, exactly if the team has a channel and Slack takes it. */
  predicate PostsHeader(s: State, standup: Standup, net: Net) {
    standup.teamId.Some? && standup.teamId.value in s.teams && net.headerOk
  }

  ghost predicate IsRosterOf(s: State, standup: Standup, roster: set<UserId>) {
    forall user :: user in roster <==>
      exists i :: 0 <= i < |s.members| && s.members[i].user == user
                  && standup.teamId.Some? && s.members[i].teamId == standup.teamId && s.members[i].canReport
  }

  /** One run row is added, running; its creation and perhaps its header are noted; no job is queued. */
  ghost predicate CreatesRun(s: State, t: State, run: RunId, net: Net)
    requires run.standupId in s.standups
  {
    var standup := s.standups[run.standupId];
    var header := PostsHeader(s, standup, net);
    && t == s.(runs := t.runs, nextTs := t.nextTs, log := t.log)
    && t.runs == s.runs[run := Run(RunRunning, None, if header then Some(s.nextTs) else None)]
    && t.nextTs == s.nextTs + (if header then 1 else 0)
    && |t.log| == |s.log| + (if header then 2 else 1) && s.log <= t.log
    && t.log[|s.log|].RunCreated? && t.log[|s.log|].run == run && IsRosterOf(s, standup, t.log[|s.log|].roster)
    && (header ==> t.log[|s.log| + 1] == HeaderPosted(run, s.nextTs))
  }

  lemma CreateEffects(s: State, run: RunId, net: Net)
    requires run.standupId in s.standups
    ensures CreatesRun(s, CreateRun(s, run, s.standups[run.standupId].teamId, net), run, net)
  {
    RosterMeans(s, s.standups[run.standupId]);
  }

  lemma RosterMeans(s: State, standup: Standup)
    ensures IsRosterOf(s, standup, Roster(s.members, standup.teamId))
  {
    forall user ensures user in Roster(s.members, standup.teamId) <==>
                          exists i :: 0 <= i < |s.members| && s.members[i].user == user && standup.teamId.Some?
                                      && s.members[i].teamId == standup.teamId && s.members[i].canReport
    {
      if user in Roster(s.members, standup.teamId) {
        var i :| 0 <= i < |s.members| && Reports(s.members[i], standup.teamId) && s.members[i].user == user;
      }
      if i :| 0 <= i < |s.members| && s.members[i].user == user && standup.teamId.Some?
              && s.members[i].teamId == standup.teamId && s.members[i].canReport {
        assert Reports(s.members[i], standup.teamId);
      }
    }
  }

  /** The day's run is there: created by this call if it was not. */
  ghost predicate EnsuresRun(s: State, t: State, run: RunId, net: Net)
    requires run.standupId in s.standups
  {
    if run in s.runs then t == s else CreatesRun(s, t, run, net)
  }

  lemma EnsureEffects(s: State, id: StandupId, net: Net)
    requires id in s.standups
    ensures EnsuresRun(s, EnsureRunOpen(s, id, net), RunId(id, s.standups[id].zone.day(s.now)), net)
  {
    if Today(s, id) !in s.runs {
      CreateEffects(s, Today(s, id), net);
    }
  }

  // ---- open-run ----

  /** The open-run gets past its guards: an active standup with a team, forced or on an active weekday. */
  ghost predicate Proceeds(s: State, id: StandupId, force: bool) {
    && id in s.standups && s.standups[id].isActive && s.standups[id].teamId.Some?
    && (force || Nat((s.standups[id].zone.day(s.now) + 4) % 7) in s.standups[id].schedule.weekdays)
  }

  /**
   open-run: nothing unless it gets past its guards; then the day's run is ensured, and exactly if
   this call created it or it was forced, the team is sent to.
   */
  lemma OpenRunExactly(s: State, id: StandupId, force: bool, net: Net) returns (ready: State)
    ensures var t := OpenRun(s, id, force, net);
            if !Proceeds(s, id, force) then t == s
            else
              var run := RunId(id, s.standups[id].zone.day(s.now));
              && EnsuresRun(s, ready, run, net) && ready.standups == s.standups
              && if force || run !in s.runs then FansOut(ready, t, run, None, force) && t == ready.(jobs := t.jobs)
                 else t == s
  {
    ready := s;
    if id in s.standups {
      DayOfWeek(s.standups[id].schedule.weekdays, s.standups[id].zone.day(s.now));
      if Proceeds(s, id, force) {
        ready := EnsureRunOpen(s, id, net);
        EnsureEffects(s, id, net);
        FanOutJobs(ready, Today(s, id), None, force);
      }
    }
  }

  // ---- retrigger ----

  ghost predicate Restarts(s: State, id: StandupId, user: UserId) {
    && id in s.standups && s.standups[id].isActive && s.standups[id].teamId.Some? && s.standups[id].questions != []
    && var k := Key(RunId(id, s.standups[id].zone.day(s.now)), user);
       k in s.reports ==> s.reports[k].status == TimedOut
  }

  /** The report k is open afresh beside the rows of `ready`, its run set running. */
  ghost predicate RestartedRows(s: State, ready: State, t: State, k: Key)
    requires k.run in ready.runs
  {
    && k in t.reports && FreshRow(s, k, t.reports[k]) && t.reports == s.reports[k := t.reports[k]]
    && t.runs == ready.runs[k.run := ready.runs[k.run].(status := RunRunning)]
  }

  /**
   retrigger: only for an absent or timed-out report of an active standup. The day's run is ensured
   and set running, the report opened afresh and asked its first question, and exactly if this call
   created the run the rest of the team is sent to.
   */
  lemma RetriggerExactly(s: State, id: StandupId, user: UserId, net: Net) returns (ready: State, asked: State)
    requires Known(s)
    ensures var t := Retrigger(s, id, user, net);
            if !Restarts(s, id, user) then t == s
            else
              var run := RunId(id, s.standups[id].zone.day(s.now));
              var k := Key(run, user);
              && EnsuresRun(s, ready, run, net) && run in ready.runs && RestartedRows(s, ready, t, k)
              && OpeningQueued(s, asked, k, s.standups[id].reminderIntervalMinutes)
              && (if run in s.runs then t.jobs == asked.jobs else FansOut(asked, t, run, Some(user), false))
              && t == ready.(runs := t.runs, reports := t.reports, jobs := t.jobs, log := t.log)
              && Asked(k, s.standups[id].questions[0]) in t.log
  {
    ready, asked := s, s;
    if Restarts(s, id, user) {
      var standup, run := s.standups[id], Today(s, id);
      ready := EnsureRunOpen(s, id, net);
      asked := OpenReport(ready, Key(run, user), standup.questions[0], standup.reminderIntervalMinutes);
      EnsureEffects(s, id, net);
      RestartFrame(s, id, user, net);
      RestartOpens(s, ready, Key(run, user), standup.questions[0], standup.reminderIntervalMinutes);
      FanOutJobs(SetRunning(asked, run), run, Some(user), false);
    }
  }

  lemma RestartOpens(s: State, ready: State, k: Key, first: Question, minutes: int)
    requires ready == s.(runs := ready.runs, nextTs := ready.nextTs, log := ready.log) && k.run in ready.runs
    ensures var asked := OpenReport(ready, k, first, minutes);
            && asked.runs == ready.runs && Asked(k, first) in asked.log
            && RestartedRows(s, ready, SetRunning(asked, k.run), k) && OpeningQueued(s, asked, k, minutes)
  {
    OpenRow(ready, k, first, minutes);
    OpenJobs(ready, k, first, minutes);
    OpenEvents(ready, k, first, minutes);
  }

  lemma RestartFrame(s: State, id: StandupId, user: UserId, net: Net)
    requires Known(s) && Restarts(s, id, user)
    ensures var standup, run := s.standups[id], Today(s, id);
            var ready := EnsureRunOpen(s, id, net);
            var asked := OpenReport(ready, Key(run, user), standup.questions[0], standup.reminderIntervalMinutes);
            && run in ready.runs && ready == s.(runs := ready.runs, nextTs := ready.nextTs, log := ready.log)
            && asked.runs == ready.runs && asked.log <= SetRunning(asked, run).log
            && Retrigger(s, id, user, net) == if run in s.runs then SetRunning(asked, run)
                                              else FanOutSends(SetRunning(asked, run), run, Some(user), false)
  {
  }

  // ---- Replies ----

  /** Completing the run of k: exactly if it was not completed and no other report of it is open. */
  ghost predicate LastOpen(s: State, k: Key) {
    && k.run in s.runs && s.runs[k.run].status != RunCompleted
    && forall j :: Open(s, j) && j.run == k.run ==> j == k
  }

  /** The run rows after the report k of s was closed. */
  ghost function RunsAfter(s: State, k: Key): map<RunId, Run> {
    if LastOpen(s, k)
    then s.runs[k.run := s.runs[k.run].(status := RunCompleted, completedAt := Some(s.now))]
    else s.runs
  }

  /** The events that close a report, and its completion of the run. */
  ghost function LogAfter(s: State, k: Key, events: seq<Event>): seq<Event> {
    s.log + events + (if LastOpen(s, k) then [Finalized(k.run)] else [])
  }

  lemma FinalizeEffects(s: State, t: State, k: Key)
    requires Open(s, k) && t.runs == s.runs && k in t.reports && t.reports[k].status != InProgress
    requires t.reports == s.reports[k := t.reports[k]] && t.now == s.now
    ensures Finalize(t, k.run).runs == RunsAfter(s, k)
    ensures Finalize(t, k.run) == t.(runs := RunsAfter(s, k), log := Finalize(t, k.run).log)
    ensures Finalize(t, k.run).log == t.log + (if LastOpen(s, k) then [Finalized(k.run)] else [])
  {
    assert forall j :: j in s.reports && j != k ==> j in t.reports && t.reports[j] == s.reports[j];
    assert AllTerminal(t, k.run) <==> forall j :: Open(s, j) && j.run == k.run ==> j == k;
    assert t.log + [] == t.log;
  }

  /** "skip all": the report is timed out, its answers kept, its run completed if it was the last one open. */
  lemma MessageAborts(s: State, user: UserId, p: Key, text: string, net: Net)
    requires Known(s) && IsLatestOpen(s, user, Some(p)) && |s.reports[p].answers| < |Questions(s, p)|
    requires Normalized(text) == SKIP_ALL
    ensures HandleMessage(s, user, text, Some(p), net)
         == s.(reports := s.reports[p := s.reports[p].(status := TimedOut)], runs := RunsAfter(s, p),
               log := LogAfter(s, p, [ReportAborted(p, s.now)]))
  {
    FinalizeEffects(s, Close(s, p, ReportAborted(p, s.now)), p);
  }

  /** The answer a reply adds. */
  function AnswerTo(q: Question, text: string): Answer {
    Answer(q.id, q.text, if Normalized(text) == "skip" then "(skipped)" else Trim(text))
  }

  /** A reply with another question to follow: the answer is stored, the deadline moves on, the next is asked. */
  lemma MessageAsksNext(s: State, user: UserId, p: Key, text: string, net: Net)
    requires Known(s) && IsLatestOpen(s, user, Some(p)) && |s.reports[p].answers| + 1 < |Questions(s, p)|
    requires Normalized(text) != SKIP_ALL
    ensures var n := |s.reports[p].answers|;
            HandleMessage(s, user, text, Some(p), net)
            == s.(reports := s.reports[p := s.reports[p].(
                    answers := s.reports[p].answers + [AnswerTo(Questions(s, p)[n], text)],
                    timeoutAt := Some(s.now + s.timeoutMs))],
                  log := s.log + [ReplyAccepted(p, s.now), Asked(p, Questions(s, p)[n + 1])])
  {
  }

  /** How the report of p can be posted: as the member if they connected and that works, else as the bot, or not. */
  function PostPath(s: State, team: Option<TeamId>, net: Net): Option<PostedAs> {
    if team.None? || team.value !in s.teams then None
    else if net.hasToken && net.userPostOk then Some(ByUser)
    else if net.botPostOk then Some(ByBot)
    else None
  }

  /** The row of a report completed by this reply, with the reference of its post if that could be had. */
  ghost predicate CompletedRow(s: State, p: Key, text: string, path: Option<PostedAs>, net: Net, r: Report)
    requires Known(s) && Open(s, p) && |s.reports[p].answers| < |Questions(s, p)|
  {
    var before := s.reports[p];
    && r.answers == before.answers + [AnswerTo(Questions(s, p)[|before.answers|], text)]
    && r.status == Completed && r.reportedAt == Some(s.now)
    && r.timeoutAt == before.timeoutAt && r.createdAt == before.createdAt
    && r.channelPostTs == (if path.Some? && net.permalinkOk then Some(s.nextTs) else before.channelPostTs)
    && r.postedAs == (if path.Some? && net.permalinkOk then path else before.postedAs)
  }

  /**
   The last reply: the report is completed and posted exactly if its team has a channel and one of
   the two ways works, as the member's own post exactly if that works; its reference is stored
   exactly if it could be had; the run is completed if this was its last open report.
   */
  lemma MessageCompletes(s: State, user: UserId, p: Key, text: string, net: Net)
    requires Known(s) && IsLatestOpen(s, user, Some(p)) && |s.reports[p].answers| + 1 == |Questions(s, p)|
    requires Normalized(text) != SKIP_ALL
    ensures var t := HandleMessage(s, user, text, Some(p), net);
            var path := PostPath(s, s.standups[p.run.standupId].teamId, net);
            && p in t.reports && CompletedRow(s, p, text, path, net, t.reports[p])
            && t == s.(reports := s.reports[p := t.reports[p]], runs := RunsAfter(s, p),
                       nextTs := t.nextTs, log := t.log)
            && t.nextTs == s.nextTs + (if path.Some? then 1 else 0)
            && t.log == LogAfter(s, p, [ReportCompleted(p, s.now)] +
                                       (if path.Some? then [BroadcastPosted(p, path.value, s.nextTs)] else []))
  {
    var answers := s.reports[p].answers + [AnswerTo(Questions(s, p)[|s.reports[p].answers|], text)];
    var team := s.standups[p.run.standupId].teamId;
    var posted := Broadcast(CompleteReport(s, p, answers), p, team, net);
    assert AdvanceReport(Questions(s, p), s.reports[p].answers, text) == Complete(answers);
    PostEffects(s, p, answers, net);
    FinalizeEffects(s, posted, p);
  }

  lemma PostEffects(s: State, p: Key, answers: seq<Answer>, net: Net)
    requires Known(s) && Open(s, p)
    ensures var team := s.standups[p.run.standupId].teamId;
            var path := PostPath(s, team, net);
            var t := Broadcast(CompleteReport(s, p, answers), p, team, net);
            var r := s.reports[p].(answers := answers, status := Completed, reportedAt := Some(s.now));
            && t == s.(reports := s.reports[p := t.reports[p]], nextTs := t.nextTs, log := t.log)
            && t.reports[p] == (if path.Some? && net.permalinkOk
                                then r.(channelPostTs := Some(s.nextTs), postedAs := path) else r)
            && t.nextTs == s.nextTs + (if path.Some? then 1 else 0)
            && t.log == s.log + ([ReportCompleted(p, s.now)] +
                                 (if path.Some? then [BroadcastPosted(p, path.value, s.nextTs)] else []))
  {
  }

  /** A message for a report with no question left changes nothing. */
  lemma MessageIgnored(s: State, user: UserId, p: Key, text: string, net: Net)
    requires Known(s) && IsLatestOpen(s, user, Some(p)) && |s.reports[p].answers| >= |Questions(s, p)|
    ensures HandleMessage(s, user, text, Some(p), net) == s
  {
  }

  // ---- Timers and reminders ----

  /** A timer that finds its report overdue times it out, its answers kept, and completes the run if it was the last. */
  lemma TimerGivesUp(s: State, k: Key)
    requires Open(s, k) && Overdue(s, k)
    ensures TimeoutReport(s, k)
         == s.(reports := s.reports[k := s.reports[k].(status := TimedOut)], runs := RunsAfter(s, k),
               log := LogAfter(s, k, [ReportTimedOut(k, s.now)]))
  {
    FinalizeEffects(s, Close(s, k, ReportTimedOut(k, s.now)), k);
  }

  /** A reminder is posted exactly for an open report. */
  lemma ReminderExactly(s: State, k: Key)
    ensures RemindReport(s, k) == if Open(s, k) then s.(log := s.log + [Nudged(k, s.now)]) else s
  {
  }
}
