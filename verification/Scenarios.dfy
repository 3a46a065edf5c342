/** States the system reaches, built one handler at a time with the Slack side offline. */
module Scenarios {
  import opened Wrappers
  import opened DmEngine
  import opened Cron
  import opened Instants
  import opened Protocol
  import opened RowOps
  import opened Runs

  /** Some run of the system ends in s. */
  ghost predicate Reachable(s: State) {
    exists states, acts :: EndsIn(states, acts, s)
  }

  ghost predicate EndsIn(states: seq<State>, acts: seq<Stimulus>, s: State) {
    IsRun(states, acts) && states[|acts|] == s
  }

  lemma StartReachable(s: State)
    requires Initial(s)
    ensures Reachable(s)
  {
    assert EndsIn([s], [], s);
  }

  lemma StepReachable(s: State, a: Stimulus)
    requires Reachable(s) && Enabled(s, a)
    ensures Reachable(Apply(s, a))
  {
    var states, acts :| EndsIn(states, acts, s);
    var t := Apply(s, a);
    assert EndsIn(states + [t], acts + [a], t);
  }

  const OFFLINE := Net(false, false, false, false, false)

  lemma DeliveryReachable(s: State, item: Queued)
    requires Reachable(s) && item in s.jobs && item.due <= s.now
    ensures Reachable(DeliverJob(s, item, true, OFFLINE))
  {
    StepReachable(s, Deliver(item, true, OFFLINE));
  }

  const EVERY_DAY := [Nat(0), Nat(1), Nat(2), Nat(3), Nat(4), Nat(5), Nat(6)]

  /** One question at midnight UTC every day. */
  function Daily(team: TeamId, question: Question): Standup {
    Standup(Some(team), true, [question], WeeklySchedule(EVERY_DAY, Nat(0), Nat(0)), Fixed(0), 0)
  }

  function SendTo(run: RunId, user: UserId, due: Instant): Queued {
    Queued(SendDmJob(run, run.standupId, user), due)
  }

  /** An open-run is forced and delivered: the run is running, sends to the whole roster are due. */
  lemma ForcedOpen(s: State, id: StandupId) returns (t: State)
    requires Reachable(s) && id in s.standups && s.standups[id].isActive && s.standups[id].teamId.Some?
    requires Today(s, id) !in s.runs
    ensures Reachable(t)
    ensures t == s.(runs := s.runs[Today(s, id) := Run(RunRunning, None, None)], jobs := t.jobs, log := t.log)
    ensures forall q :: q in s.jobs ==> q in t.jobs
    ensures forall user :: user in Roster(s.members, s.standups[id].teamId) ==>
              SendTo(Today(s, id), user, s.now) in t.jobs
  {
    var item := Queued(OpenRunJob(id, true), s.now);
    StepReachable(s, Trigger(id, true));
    var u := Enqueue(s, OpenRunJob(id, true), s.now);
    DeliveryReachable(u, item);
    t := DeliverJob(u, item, true, OFFLINE);
    var run := Today(s, id);
    var batch := SendBatch(s.now, s.standups[id], s.members, run, None, true);
    ForcedJobs(u, id);
    forall user | user in Roster(s.members, s.standups[id].teamId) ensures SendTo(run, user, s.now) in t.jobs {
      ImmediateSend(s.now, s.standups[id], s.members, run, user);
      assert SendTo(run, user, s.now) in u.jobs + batch && SendTo(run, user, s.now) != item;
    }
  }

  lemma ForcedJobs(s: State, id: StandupId)
    requires Queued(OpenRunJob(id, true), s.now) in s.jobs
    requires id in s.standups && s.standups[id].isActive && s.standups[id].teamId.Some?
    requires Today(s, id) !in s.runs
    ensures var t := DeliverJob(s, Queued(OpenRunJob(id, true), s.now), true, OFFLINE);
            && t == s.(runs := s.runs[Today(s, id) := Run(RunRunning, None, None)], jobs := t.jobs, log := t.log)
            && t.jobs == s.jobs + SendBatch(s.now, s.standups[id], s.members, Today(s, id), None, true)
                         - multiset{Queued(OpenRunJob(id, true), s.now)}
  {
  }

  lemma {:induction false} ImmediateSend(now: Instant, standup: Standup, members: seq<Member>, run: RunId, user: UserId)
    requires user in Roster(members, standup.teamId)
    ensures SendTo(run, user, now) in SendBatch(now, standup, members, run, None, true)
  {
    var front, m := members[..|members| - 1], members[|members| - 1];
    RosterSnoc(front, m, standup.teamId);
    assert members == front + [m];
    if user in Roster(front, standup.teamId) {
      ImmediateSend(now, standup, front, run, user);
    }
  }

  /** A send is delivered to somebody without a report: it is open, its timer armed. */
  lemma SendDelivered(s: State, run: RunId, user: UserId, due: Instant) returns (t: State)
    requires Reachable(s) && SendTo(run, user, due) in s.jobs && due <= s.now
    requires Key(run, user) !in s.reports && run.standupId in s.standups && s.standups[run.standupId].questions != []
    ensures var k := Key(run, user);
            && Reachable(t)
            && t == s.(reports := s.reports[k := FreshReport(s, k)], jobs := t.jobs, log := t.log)
            && Queued(TimeoutJob(k), s.now + s.timeoutMs) in t.jobs
    ensures forall q :: q in s.jobs && q != SendTo(run, user, due) ==> q in t.jobs
  {
    DeliveryReachable(s, SendTo(run, user, due));
    t := DeliverJob(s, SendTo(run, user, due), true, OFFLINE);
  }

  lemma TimePasses(s: State, to: Instant) returns (t: State)
    requires Reachable(s) && s.now <= to
    ensures Reachable(t) && t == s.(now := to)
  {
    StepReachable(s, Tick(to));
    t := s.(now := to);
  }

  /** The timer of an open report is delivered at its deadline. */
  lemma TimedOutAt(s: State, k: Key) returns (t: State)
    requires Reachable(s) && Open(s, k) && k.run in s.runs
    requires s.reports[k].timeoutAt == Some(s.now) && Queued(TimeoutJob(k), s.now) in s.jobs
    ensures Reachable(t)
    ensures t == s.(runs := t.runs, reports := s.reports[k := s.reports[k].(status := TimedOut)],
                    jobs := t.jobs, log := t.log)
    ensures t.runs.Keys == s.runs.Keys
    ensures forall q :: q in s.jobs && q != Queued(TimeoutJob(k), s.now) ==> q in t.jobs
    ensures (forall j :: Open(s, j) && j.run == k.run ==> j == k) ==> IsCompleted(t, k.run)
  {
    DeliveryReachable(s, Queued(TimeoutJob(k), s.now));
    var closed := Close(s, k, ReportTimedOut(k, s.now));
    FinalizeFrame(closed, k.run);
    var done := Finalize(closed, k.run);
    assert HandleJob(s, TimeoutJob(k), OFFLINE) == Some(done);
    t := Ack(done, Queued(TimeoutJob(k), s.now));
    if forall j :: Open(s, j) && j.run == k.run ==> j == k {
      assert AllTerminal(closed, k.run);
    }
  }
}
