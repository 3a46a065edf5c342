/**
 The queue delivers at least once: what the second delivery of a job does when nothing happened
 since the first.
 */
module Redelivery {
  import opened Wrappers
  import opened DmEngine
  import opened Instants
  import opened Protocol
  import opened RowOps

  /** A delivery that would act again: the reminder, the early timer, the forced fan-out. */
  ghost predicate ActsAgain(s: State, job: Job) {
    match job
    case ReminderJob(k) => Open(s, k)
    case TimeoutJob(k) => Open(s, k) && !Overdue(s, k)
    case OpenRunJob(id, force) =>
      && force && id in s.standups && s.standups[id].isActive && s.standups[id].teamId.Some?
      && Roster(s.members, s.standups[id].teamId) != {}
    case SendDmJob(_, _, _) => false
    case RetriggerJob(_, _) => false
  }

  /** Handling the job leaves the state as it is. */
  ghost predicate Idle(s: State, job: Job, net: Net) {
    HandleJob(s, job, net) == Some(s)
  }

  lemma {:induction false} BatchEmpty(now: Instant, standup: Standup, members: seq<Member>, run: RunId, immediate: bool)
    ensures SendBatch(now, standup, members, run, None, immediate) == multiset{}
       <==> Roster(members, standup.teamId) == {}
  {
    if members != [] {
      var front, m := members[..|members| - 1], members[|members| - 1];
      BatchEmpty(now, standup, front, run, immediate);
      if Reports(m, standup.teamId) {
        assert m.user in Roster(members, standup.teamId);
        assert Send(now, standup, m, run, immediate) in SendBatch(now, standup, members, run, None, immediate);
      } else {
        assert Roster(members, standup.teamId) == Roster(front, standup.teamId);
      }
    }
  }

  lemma FanOutAgain(s: State, run: RunId, immediate: bool)
    requires run.standupId in s.standups
    ensures FanOutSends(s, run, None, immediate) == s
       <==> Roster(s.members, s.standups[run.standupId].teamId) == {}
  {
    var batch := SendBatch(s.now, s.standups[run.standupId], s.members, run, None, immediate);
    BatchEmpty(s.now, s.standups[run.standupId], s.members, run, immediate);
    if batch != multiset{} {
      var q :| q in batch;
      assert (s.jobs + batch)[q] > s.jobs[q];
    } else {
      assert s.jobs + batch == s.jobs;
    }
  }

  /** Once today's run exists, an unforced open has nothing to do. */
  lemma TickAgain(s: State, id: StandupId, net: Net, next: Net)
    ensures var t := OpenRun(s, id, false, net);
            OpenRun(t, id, false, next) == t
  {
    if id in s.standups {
      TickLeavesRun(s, id, net);
    }
  }

  lemma TickLeavesRun(s: State, id: StandupId, net: Net)
    requires id in s.standups
    ensures var t := OpenRun(s, id, false, net);
            t == s || (t.standups == s.standups && t.now == s.now && Today(s, id) in t.runs)
  {
  }

  ghost predicate Forceable(s: State, id: StandupId) {
    id in s.standups && s.standups[id].isActive && s.standups[id].teamId.Some?
  }

  lemma ForcedAgain(s: State, id: StandupId, net: Net, next: Net)
    requires Forceable(s, id)
    ensures var t := OpenRun(s, id, true, net);
            OpenRun(t, id, true, next) == t <==> Roster(s.members, s.standups[id].teamId) == {}
  {
    var ready := EnsureRunOpen(s, id, net);
    var t := FanOutSends(ready, Today(s, id), None, true);
    assert t.standups == s.standups && t.members == s.members && Today(t, id) == Today(s, id);
    assert OpenRun(t, id, true, next) == FanOutSends(t, Today(s, id), None, true);
    FanOutAgain(t, Today(s, id), true);
  }

  lemma OpenRunAgain(s: State, id: StandupId, force: bool, net: Net, next: Net)
    ensures var t := OpenRun(s, id, force, net);
            OpenRun(t, id, force, next) == t <==> !ActsAgain(s, OpenRunJob(id, force))
  {
    if !force {
      TickAgain(s, id, net, next);
    } else if Forceable(s, id) {
      ForcedAgain(s, id, net, next);
    }
  }

  /** The member has something in today's run that is not given up: a retrigger has nothing to do. */
  ghost predicate Underway(s: State, id: StandupId, user: UserId) {
    && Startable(s, id) && Today(s, id) in s.runs
    && Key(Today(s, id), user) in s.reports && s.reports[Key(Today(s, id), user)].status != TimedOut
  }

  lemma UnderwayIsIdle(s: State, id: StandupId, user: UserId, next: Net)
    requires Underway(s, id, user)
    ensures Retrigger(s, id, user, next) == s
  {
  }

  lemma OpenedIsUnderway(s: State, id: StandupId, user: UserId, first: Question, interval: int)
    requires Startable(s, id) && Today(s, id) in s.runs
    ensures Underway(SetRunning(OpenReport(s, Key(Today(s, id), user), first, interval), Today(s, id)), id, user)
  {
  }

  lemma RetriggerGetsUnderway(s: State, id: StandupId, user: UserId, net: Net)
    requires Startable(s, id)
    ensures Underway(Retrigger(s, id, user, net), id, user)
  {
    var ready := EnsureRunOpen(s, id, net);
    assert Startable(ready, id) && Today(ready, id) == Today(s, id);
    OpenedIsUnderway(ready, id, user, s.standups[id].questions[0], s.standups[id].reminderIntervalMinutes);
  }

  lemma RetriggerAgain(s: State, id: StandupId, user: UserId, net: Net, next: Net)
    ensures var t := Retrigger(s, id, user, net);
            Retrigger(t, id, user, next) == t
  {
    if Startable(s, id) {
      RetriggerGetsUnderway(s, id, user, net);
      UnderwayIsIdle(Retrigger(s, id, user, net), id, user, next);
    }
  }

  lemma TimeoutAgain(s: State, k: Key)
    ensures TimeoutReport(TimeoutReport(s, k), k) == TimeoutReport(s, k) <==> !ActsAgain(s, TimeoutJob(k))
  {
    var t := TimeoutReport(s, k);
    if Open(s, k) {
      if Overdue(s, k) {
        FinalizeFrame(Close(s, k, ReportTimedOut(k, s.now)), k.run);
      } else {
        var q := Queued(TimeoutJob(k), s.reports[k].timeoutAt.value);
        assert TimeoutReport(t, k).jobs[q] == t.jobs[q] + 1;
      }
    }
  }

  lemma ReminderAgain(s: State, k: Key)
    ensures RemindReport(RemindReport(s, k), k) == RemindReport(s, k) <==> !ActsAgain(s, ReminderJob(k))
  {
    if Open(s, k) {
      assert |RemindReport(RemindReport(s, k), k).log| == |RemindReport(s, k).log| + 1;
    }
  }

  /**
   A job delivered a second time right after the first changes nothing, whatever its outside calls
   do, exactly unless it is a reminder of an open report, the timer of an open report whose deadline
   lies ahead, or a forced open of an active standup that somebody reports to.
   */
  lemma SecondDeliveryIsIdle(s: State, job: Job, net: Net, next: Net)
    requires HandleJob(s, job, net).Some?
    ensures Idle(HandleJob(s, job, net).value, job, next) <==> !ActsAgain(s, job)
  {
    match job
    case OpenRunJob(id, force) => OpenRunAgain(s, id, force, net, next);
    case SendDmJob(_, _, _) =>
    case TimeoutJob(k) => TimeoutAgain(s, k);
    case RetriggerJob(id, user) => RetriggerAgain(s, id, user, net, next);
    case ReminderJob(k) => ReminderAgain(s, k);
  }
}
