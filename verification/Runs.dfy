/** Opening and completing runs: nobody is left out, no run hangs, completions are counted. */
module Runs {
  import opened Wrappers
  import opened DmEngine
  import opened Instants
  import opened Protocol
  import opened RowOps
  import opened History
  import opened Lifecycle

  // ---- Completions balance reopenings ----

  ghost function Times(log: seq<Event>, e: Event): nat {
    multiset(log)[e]
  }

  ghost predicate IsCompleted(s: State, run: RunId) {
    run in s.runs && s.runs[run].status == RunCompleted
  }

  /** finalize returned true once more than the run was reopened if it is completed now, as often otherwise. */
  ghost predicate Balanced(s: State, run: RunId) {
    Times(s.log, Finalized(run)) == Times(s.log, RunReopened(run)) + (if IsCompleted(s, run) then 1 else 0)
  }

  ghost predicate Ledger(s: State) {
    forall run :: Balanced(s, run)
  }

  lemma TimesAppend(log: seq<Event>, x: Event, e: Event)
    ensures Times(log + [x], e) == Times(log, e) + (if x == e then 1 else 0)
  {
    assert multiset(log + [x]) == multiset(log) + multiset{x};
  }

  lemma FinalizeBalanced(s: State, done: RunId, run: RunId)
    requires Balanced(s, run)
    ensures Balanced(Finalize(s, done), run)
  {
    TimesAppend(s.log, Finalized(done), Finalized(run));
    TimesAppend(s.log, Finalized(done), RunReopened(run));
  }

  lemma RunningBalanced(s: State, ready: RunId, run: RunId)
    requires Balanced(s, run) && ready in s.runs
    ensures Balanced(SetRunning(s, ready), run)
  {
    TimesAppend(s.log, RunReopened(ready), Finalized(run));
    TimesAppend(s.log, RunReopened(ready), RunReopened(run));
  }

  /** Two more events at most, none of them about completion. */
  lemma OthersBalanced(s: State, t: State, x: Event, y: Event, run: RunId)
    requires Balanced(s, run) && (IsCompleted(t, run) <==> IsCompleted(s, run))
    requires t.log == s.log || t.log == s.log + [x] || t.log == s.log + [x, y]
    requires !x.Finalized? && !x.RunReopened? && !y.Finalized? && !y.RunReopened?
    ensures Balanced(t, run)
  {
    forall e | e == Finalized(run) || e == RunReopened(run) ensures Times(t.log, e) == Times(s.log, e) {
      TimesAppend(s.log, x, e);
      TimesAppend(s.log + [x], y, e);
      assert s.log + [x, y] == s.log + [x] + [y];
    }
  }

  lemma FinishBalanced(s: State, k: Key, answers: seq<Answer>, net: Net, run: RunId)
    requires Known(s) && Can(s, FinishOp(k, answers, net)) && Balanced(s, run)
    ensures Balanced(Do(s, FinishOp(k, answers, net)), run)
  {
    var done := CompleteReport(s, k, answers);
    var team := s.standups[k.run.standupId].teamId;
    var posted := Broadcast(done, k, team, net);
    var x := ReportCompleted(k, s.now);
    OthersBalanced(s, done, x, x, run);
    var path := if net.hasToken && net.userPostOk then ByUser else ByBot;
    OthersBalanced(done, posted, BroadcastPosted(k, path, done.nextTs), x, run);
    FinalizeBalanced(posted, k.run, run);
  }

  lemma GiveUpBalanced(s: State, k: Key, event: Event, run: RunId)
    requires Known(s) && Can(s, GiveUpOp(k, event)) && Balanced(s, run)
    ensures Balanced(Do(s, GiveUpOp(k, event)), run)
  {
    OthersBalanced(s, Close(s, k, event), event, event, run);
    FinalizeBalanced(Close(s, k, event), k.run, run);
  }

  lemma OpenBalanced(s: State, k: Key, interval: int, run: RunId)
    requires Known(s) && Can(s, OpenOp(k, interval)) && Balanced(s, run)
    ensures Balanced(Do(s, OpenOp(k, interval)), run)
  {
    var t := Do(s, OpenOp(k, interval));
    OthersBalanced(s, t, t.log[|s.log|], t.log[|s.log| + 1], run);
  }

  lemma CreateBalanced(s: State, ready: RunId, net: Net, run: RunId)
    requires Known(s) && Can(s, CreateOp(ready, net)) && Balanced(s, run)
    ensures Balanced(Do(s, CreateOp(ready, net)), run)
  {
    var roster := Roster(s.members, s.standups[ready.standupId].teamId);
    OthersBalanced(s, Do(s, CreateOp(ready, net)), RunCreated(ready, roster), HeaderPosted(ready, s.nextTs), run);
  }

  lemma OpLedger(s: State, op: Op)
    requires Known(s) && Ledger(s) && Can(s, op)
    ensures Ledger(Do(s, op))
  {
    forall run ensures Balanced(Do(s, op), run) {
      assert Balanced(s, run);
      match op
      case CreateOp(n, net) => CreateBalanced(s, n, net, run);
      case OpenOp(k, interval) => OpenBalanced(s, k, interval, run);
      case RunningOp(k) => RunningBalanced(s, k.run, run);
      case GiveUpOp(k, event) => GiveUpBalanced(s, k, event, run);
      case AcceptOp(k, answers) =>
        OthersBalanced(s, Do(s, op), ReplyAccepted(k, s.now), Asked(k, Questions(s, k)[|answers|]), run);
      case FinishOp(k, answers, net) => FinishBalanced(s, k, answers, net, run);
      case NudgeOp(k) => OthersBalanced(s, Do(s, op), Nudged(k, s.now), Nudged(k, s.now), run);
      case _ =>
    }
  }

  // ---- Runs do not hang ----

  ghost predicate NoHang(s: State) {
    forall k :: k in s.reports && AllTerminal(s, k.run) ==> IsCompleted(s, k.run)
  }

  /** After one report changed, finalize completes its run if that was the last open one. */
  lemma FinalizeNoHang(s: State, t: State, k: Key)
    requires Known(s) && NoHang(s) && k in s.reports
    requires t.runs == s.runs && k in t.reports && t.reports == s.reports[k := t.reports[k]]
    ensures NoHang(Finalize(t, k.run))
  {
    var u := Finalize(t, k.run);
    forall j | j in u.reports && AllTerminal(u, j.run) ensures IsCompleted(u, j.run) {
      if j.run == k.run {
        assert AllTerminal(t, k.run);
      } else {
        assert AllTerminal(s, j.run) by {
          forall i | i in s.reports && i.run == j.run ensures s.reports[i].status != InProgress {
            assert u.reports[i] == s.reports[i];
          }
        }
      }
    }
  }

  lemma OpenNoHang(s: State, k: Key, interval: int)
    requires Known(s) && NoHang(s) && Can(s, OpenOp(k, interval))
    ensures NoHang(Do(s, OpenOp(k, interval)))
  {
    var t := Do(s, OpenOp(k, interval));
    forall j | j in t.reports && AllTerminal(t, j.run) ensures IsCompleted(t, j.run) {
      assert t.reports[k].status == InProgress;
      assert AllTerminal(s, j.run) by {
        forall i | i in s.reports && i.run == j.run ensures s.reports[i].status != InProgress {
          assert t.reports[i] == s.reports[i];
        }
      }
    }
  }

  lemma OpNoHang(s: State, op: Op)
    requires Known(s) && NoHang(s) && Can(s, op)
    ensures NoHang(Do(s, op))
  {
    match op
    case OpenOp(k, interval) => OpenNoHang(s, k, interval);
    case GiveUpOp(k, event) => GiveUpNoHang(s, k, event);
    case FinishOp(k, answers, net) => FinishNoHang(s, k, answers, net);
    case AcceptOp(k, answers) => AcceptNoHang(s, k, answers);
    case _ => QuietNoHang(s, op);
  }

  lemma GiveUpNoHang(s: State, k: Key, event: Event)
    requires Known(s) && NoHang(s) && Can(s, GiveUpOp(k, event))
    ensures NoHang(Do(s, GiveUpOp(k, event)))
  {
    FinalizeNoHang(s, Close(s, k, event), k);
  }

  lemma FinishNoHang(s: State, k: Key, answers: seq<Answer>, net: Net)
    requires Known(s) && NoHang(s) && Can(s, FinishOp(k, answers, net))
    ensures NoHang(Do(s, FinishOp(k, answers, net)))
  {
    var done := CompleteReport(s, k, answers);
    FinalizeNoHang(s, Broadcast(done, k, s.standups[k.run.standupId].teamId, net), k);
  }

  lemma AcceptNoHang(s: State, k: Key, answers: seq<Answer>)
    requires Known(s) && NoHang(s) && Can(s, AcceptOp(k, answers))
    ensures NoHang(Do(s, AcceptOp(k, answers)))
  {
    var t := Do(s, AcceptOp(k, answers));
    forall j | j in t.reports && AllTerminal(t, j.run) ensures IsCompleted(t, j.run) {
      assert t.reports[k].status == InProgress;
      assert AllTerminal(s, j.run) by {
        forall i | i in s.reports && i.run == j.run ensures s.reports[i].status != InProgress {
          assert t.reports[i] == s.reports[i];
        }
      }
    }
  }

  lemma QuietNoHang(s: State, op: Op)
    requires Known(s) && NoHang(s) && Can(s, op) && !Touches(op)
    ensures NoHang(Do(s, op))
  {
    OpEffect(s, op);
    var t := Do(s, op);
    assert op.RunningOp? ==> !AllTerminal(s, op.key.run);
    forall j | j in t.reports && AllTerminal(t, j.run) ensures IsCompleted(t, j.run) {
      assert AllTerminal(s, j.run);
    }
  }

  // ---- A run is created once, and announced at most once ----

  ghost predicate AboutRun(e: Event) {
    e.RunCreated? || e.HeaderPosted?
  }

  /** Each run named in the history exists, and each run has its creation there. */
  ghost predicate CreationsMatch(log: seq<Event>, runs: set<RunId>) {
    && (forall i :: 0 <= i < |log| && AboutRun(log[i]) ==> log[i].run in runs)
    && (forall run :: run in runs ==> HasCreation(log, run))
  }

  ghost predicate HasCreation(log: seq<Event>, run: RunId) {
    exists i :: 0 <= i < |log| && log[i].RunCreated? && log[i].run == run
  }

  /** No run is created twice, none announced twice. */
  ghost predicate NoneTwice(log: seq<Event>) {
    && (forall i, j :: 0 <= i < j < |log| && log[i].RunCreated? && log[j].RunCreated? ==> log[i].run != log[j].run)
    && (forall i, j :: 0 <= i < j < |log| && log[i].HeaderPosted? && log[j].HeaderPosted? ==> log[i].run != log[j].run)
  }

  ghost predicate CreatedOnce(s: State) {
    CreationsMatch(s.log, s.runs.Keys) && NoneTwice(s.log)
  }

  lemma CreationKept(log: seq<Event>, more: seq<Event>, run: RunId)
    requires HasCreation(log, run) && log <= more
    ensures HasCreation(more, run)
  {
    var i :| 0 <= i < |log| && log[i].RunCreated? && log[i].run == run;
    assert more[i] == log[i];
  }

  /** A new run: its creation, and perhaps its header, join the history. */
  lemma CreationAdded(log: seq<Event>, more: seq<Event>, runs: set<RunId>, run: RunId, roster: set<UserId>, ts: nat)
    requires CreationsMatch(log, runs) && NoneTwice(log) && run !in runs
    requires more == log + [RunCreated(run, roster)] || more == log + [RunCreated(run, roster), HeaderPosted(run, ts)]
    ensures CreationsMatch(more, runs + {run}) && NoneTwice(more)
  {
    assert more[|log|] == RunCreated(run, roster);
    forall r | r in runs ensures HasCreation(more, r) {
      CreationKept(log, more, r);
    }
  }

  lemma CreateCreatedOnce(s: State, run: RunId, net: Net)
    requires Known(s) && CreatedOnce(s) && Can(s, CreateOp(run, net))
    ensures CreatedOnce(Do(s, CreateOp(run, net)))
  {
    var t := Do(s, CreateOp(run, net));
    CreationAdded(s.log, t.log, s.runs.Keys, run, Roster(s.members, s.standups[run.standupId].teamId), s.nextTs);
    assert t.runs.Keys == s.runs.Keys + {run};
  }

  /** Events about other matters join the history. */
  lemma OthersAdded(log: seq<Event>, more: seq<Event>, runs: set<RunId>)
    requires CreationsMatch(log, runs) && NoneTwice(log) && log <= more
    requires forall i :: |log| <= i < |more| ==> !AboutRun(more[i])
    ensures CreationsMatch(more, runs) && NoneTwice(more)
  {
    assert forall i :: 0 <= i < |more| && AboutRun(more[i]) ==> i < |log| && more[i] == log[i];
    forall r | r in runs ensures HasCreation(more, r) {
      CreationKept(log, more, r);
    }
  }

  lemma OpRunKeys(s: State, op: Op)
    requires Known(s) && Can(s, op)
    ensures !op.CreateOp? ==> Do(s, op).runs.Keys == s.runs.Keys
  {
    match op
    case GiveUpOp(k, event) => GiveUpFrame(s, k, event);
    case FinishOp(k, answers, net) => FinishFrame(s, k, answers, net);
    case _ =>
  }

  lemma OpCreatedOnce(s: State, op: Op)
    requires Known(s) && CreatedOnce(s) && Can(s, op)
    ensures CreatedOnce(Do(s, op))
  {
    if op.CreateOp? {
      CreateCreatedOnce(s, op.run, op.net);
    } else {
      NoRunNews(s, op);
      OpRunKeys(s, op);
      OthersAdded(s.log, Do(s, op).log, s.runs.Keys);
    }
  }

  lemma NoRunNews(s: State, op: Op)
    requires Known(s) && Can(s, op) && !op.CreateOp?
    ensures s.log <= Do(s, op).log
    ensures forall i :: |s.log| <= i < |Do(s, op).log| ==> !AboutRun(Do(s, op).log[i])
  {
    OpSays(s, op);
    var t := Do(s, op);
    forall i | |s.log| <= i < |t.log| ensures !AboutRun(t.log[i]) {
      assert Says(s, op, t.log[i]);
    }
  }

  // ---- Nobody on the roster is left out ----

  /** The member has a report in the run, or a send-dm job will bring one. */
  ghost predicate Covered(s: State, run: RunId, user: UserId) {
    Key(run, user) in s.reports || SendQueued(s.jobs, run, user)
  }

  ghost predicate SendQueued(jobs: multiset<Queued>, run: RunId, user: UserId) {
    exists due :: Queued(SendDmJob(run, run.standupId, user), due) in jobs
  }

  /** Everyone who could report when a run was created is covered, the run `but` aside. */
  ghost predicate RosterCovered(s: State, but: Option<RunId>) {
    forall i, user :: 0 <= i < |s.log| && s.log[i].RunCreated? && Some(s.log[i].run) != but
                      && user in s.log[i].roster ==>
      Covered(s, s.log[i].run, user)
  }

  lemma OpCovered(s: State, op: Op, run: RunId, user: UserId)
    requires Known(s) && Can(s, op) && Covered(s, run, user)
    ensures Covered(Do(s, op), run, user)
  {
    OpKnown(s, op);
    JobsGrow(s, op);
    if Key(run, user) !in s.reports {
      var due :| Queued(SendDmJob(run, run.standupId, user), due) in s.jobs;
      assert Queued(SendDmJob(run, run.standupId, user), due) in Do(s, op).jobs;
    }
  }

  lemma OpRosterCovered(s: State, op: Op, but: Option<RunId>)
    requires Known(s) && Can(s, op) && RosterCovered(s, but)
    requires op.CreateOp? ==> but == Some(op.run)
    ensures RosterCovered(Do(s, op), but)
  {
    var t := Do(s, op);
    OpSays(s, op);
    assert forall i :: |s.log| <= i < |t.log| && t.log[i].RunCreated? ==> Some(t.log[i].run) == but;
    forall i, user | 0 <= i < |t.log| && t.log[i].RunCreated? && Some(t.log[i].run) != but && user in t.log[i].roster
      ensures Covered(t, t.log[i].run, user)
    {
      assert i < |s.log| && t.log[i] == s.log[i];
      OpCovered(s, op, t.log[i].run, user);
    }
  }

  /** A fan-out queues a send for a user exactly if they are on the roster and not excluded. */
  lemma {:induction false} BatchExact(now: Instant, standup: Standup, members: seq<Member>, run: RunId,
                                      exclude: Option<UserId>, immediate: bool, user: UserId)
    ensures SendQueued(SendBatch(now, standup, members, run, exclude, immediate), run, user)
       <==> user in Roster(members, standup.teamId) && exclude != Some(user)
  {
    if members != [] {
      var front, m := members[..|members| - 1], members[|members| - 1];
      var before := SendBatch(now, standup, front, run, exclude, immediate);
      BatchExact(now, standup, front, run, exclude, immediate, user);
      RosterSnoc(front, m, standup.teamId);
      assert members == front + [m];
      if Receives(m, standup.teamId, exclude) {
        QueuedBySend(before, Send(now, standup, m, run, immediate), run, user);
      }
    }
  }

  lemma RosterSnoc(front: seq<Member>, m: Member, team: Option<TeamId>)
    ensures Roster(front + [m], team) == Roster(front, team) + (if Reports(m, team) then {m.user} else {})
  {
    var members := front + [m];
    forall u | u in Roster(front, team) ensures u in Roster(members, team) {
      var i :| 0 <= i < |front| && Reports(front[i], team) && front[i].user == u;
      assert members[i] == front[i];
    }
    assert members[|front|] == m;
  }

  lemma QueuedBySend(jobs: multiset<Queued>, item: Queued, run: RunId, user: UserId)
    requires item.job.SendDmJob? && item.job.run == run && item.job.standupId == run.standupId
    ensures SendQueued(jobs + multiset{item}, run, user) <==> SendQueued(jobs, run, user) || item.job.user == user
  {
    var more := jobs + multiset{item};
    if item.job.user == user {
      assert Queued(SendDmJob(run, run.standupId, user), item.due) in more;
    }
    forall due ensures Queued(SendDmJob(run, run.standupId, user), due) in jobs ==>
                         Queued(SendDmJob(run, run.standupId, user), due) in more {
    }
  }

  lemma FanOutCovers(s: State, run: RunId, exclude: Option<UserId>, immediate: bool, user: UserId)
    requires Known(s) && run in s.runs
    requires user in Roster(s.members, s.standups[run.standupId].teamId) && exclude != Some(user)
    ensures Covered(FanOutSends(s, run, exclude, immediate), run, user)
  {
    var standup := s.standups[run.standupId];
    var batch := SendBatch(s.now, standup, s.members, run, exclude, immediate);
    BatchExact(s.now, standup, s.members, run, exclude, immediate, user);
    var due :| Queued(SendDmJob(run, run.standupId, user), due) in batch;
    assert Queued(SendDmJob(run, run.standupId, user), due) in s.jobs + batch;
  }

  /** What a plan that creates a run does afterwards settles that run's own roster. */
  lemma CloseRoster(s: State, run: RunId, roster: set<UserId>)
    requires CreatedOnce(s) && RosterCovered(s, Some(run))
    requires exists i :: 0 <= i < |s.log| && s.log[i] == RunCreated(run, roster)
    requires forall user :: user in roster ==> Covered(s, run, user)
    ensures RosterCovered(s, None)
  {
    var n :| 0 <= n < |s.log| && s.log[n] == RunCreated(run, roster);
    forall i, user | 0 <= i < |s.log| && s.log[i].RunCreated? && user in s.log[i].roster
      ensures Covered(s, s.log[i].run, user)
    {
      if s.log[i].run == run {
        assert i == n;
      }
    }
  }

  /** Creating the run and sending to all of its roster, whoever is excluded having a report. */
  lemma CreatedCovers(s: State, run: RunId, net: Net, mid: State, exclude: Option<UserId>, immediate: bool)
    requires Known(s) && CreatedOnce(s) && RosterCovered(s, None) && Can(s, CreateOp(run, net))
    requires Known(mid) && CreatedOnce(mid) && RosterCovered(mid, Some(run)) && run in mid.runs
    requires mid.members == s.members && mid.standups == s.standups
    requires Do(s, CreateOp(run, net)).log <= mid.log
    requires exclude.Some? ==> Key(run, exclude.value) in mid.reports
    ensures RosterCovered(FanOutSends(mid, run, exclude, immediate), None)
  {
    var op := FanOutOp(run, exclude, immediate);
    var t := Do(mid, op);
    var roster := Roster(s.members, s.standups[run.standupId].teamId);
    OpKnown(mid, op);
    OpCreatedOnce(mid, op);
    OpRosterCovered(mid, op, Some(run));
    var first := Do(s, CreateOp(run, net));
    assert first.log[|s.log|] == RunCreated(run, roster);
    assert t.log[|s.log|] == RunCreated(run, roster);
    forall user | user in roster ensures Covered(t, run, user) {
      if exclude != Some(user) {
        FanOutCovers(mid, run, exclude, immediate, user);
      }
    }
    CloseRoster(t, run, roster);
  }

  ghost predicate Rostered(s: State) {
    Known(s) && CreatedOnce(s) && RosterCovered(s, None)
  }

  lemma OpRostered(s: State, op: Op, but: Option<RunId>)
    requires Known(s) && CreatedOnce(s) && RosterCovered(s, but) && Can(s, op)
    requires op.CreateOp? ==> but == Some(op.run)
    ensures Known(Do(s, op)) && CreatedOnce(Do(s, op)) && RosterCovered(Do(s, op), but)
    ensures Grows(s, Do(s, op))
  {
    OpKnown(s, op);
    OpCreatedOnce(s, op);
    OpRosterCovered(s, op, but);
  }

  lemma OpenRunRostered(s: State, id: StandupId, force: bool, net: Net)
    requires Rostered(s)
    ensures Rostered(OpenRun(s, id, force, net))
  {
    if OpenRun(s, id, force, net) != s && id in s.standups {
      var run := Today(s, id);
      if run in s.runs {
        OpRostered(s, FanOutOp(run, None, force), None);
      } else {
        OpRostered(s, CreateOp(run, net), Some(run));
        var ready := Do(s, CreateOp(run, net));
        OpRostered(ready, FanOutOp(run, None, force), Some(run));
        CreatedCovers(s, run, net, ready, None, force);
      }
    }
  }

  lemma ReopenRostered(s: State, k: Key, interval: int, but: Option<RunId>)
    requires Known(s) && CreatedOnce(s) && RosterCovered(s, but) && Can(s, OpenOp(k, interval))
    ensures var t := SetRunning(OpenReport(s, k, FirstQuestion(s, k), interval), k.run);
            && Known(t) && CreatedOnce(t) && RosterCovered(t, but) && Grows(s, t)
            && t.members == s.members && t.standups == s.standups && k in t.reports
  {
    OpRostered(s, OpenOp(k, interval), but);
    var asked := Do(s, OpenOp(k, interval));
    OpRostered(asked, RunningOp(k), but);
    GrowsTransitive(s, asked, Do(asked, RunningOp(k)));
  }

  lemma RetriggerRostered(s: State, id: StandupId, user: UserId, net: Net)
    requires Rostered(s)
    ensures Rostered(Retrigger(s, id, user, net))
  {
    if Startable(s, id) {
      var run := Today(s, id);
      var k := Key(run, user);
      var interval := s.standups[id].reminderIntervalMinutes;
      if run !in s.runs {
        OpRostered(s, CreateOp(run, net), Some(run));
        var ready := Do(s, CreateOp(run, net));
        ReopenRostered(ready, k, interval, Some(run));
        var running := SetRunning(OpenReport(ready, k, FirstQuestion(ready, k), interval), run);
        OpRostered(running, FanOutOp(run, Some(user), false), Some(run));
        CreatedCovers(s, run, net, running, Some(user), false);
      } else if k !in s.reports || s.reports[k].status == TimedOut {
        ReopenRostered(s, k, interval, None);
      }
    }
  }

  /** The zone a member's send is computed in. */
  function SendZone(standup: Standup, m: Member): Zone {
    if m.zone.Some? then m.zone.value else standup.zone
  }

  /** The send instant is on the run's date, and ahead if that date is. */
  lemma SendAhead(standup: Standup, run: RunId, now: Instant, z: Zone)
    requires Regular(z) && Readable(standup.schedule)
    ensures SendInstant(standup.schedule, z, run.date)
         == z.at(run.date, standup.schedule.hour.n, standup.schedule.minute.n)
    ensures z.day(SendInstant(standup.schedule, z, run.date)) == run.date
    ensures z.day(now) < run.date ==> now < SendInstant(standup.schedule, z, run.date)
  {
    SendDay(standup.schedule, z, run.date);
    SlotOrder(standup.schedule, z, run.date, run.date, now);
  }

  /**
   A send goes out at once when forced or when the configured time on the run's date, on the
   member's own clock, has passed; otherwise at exactly that time, which is on that date.
   */
  lemma SendsAtLocalTime(s: State, standup: Standup, m: Member, run: RunId, immediate: bool, z: Zone)
    requires z == SendZone(standup, m) && Regular(z) && Readable(standup.schedule)
    ensures var due := SendDue(s.now, standup, m, run, immediate);
            var local := z.at(run.date, standup.schedule.hour.n, standup.schedule.minute.n);
            && due == (if immediate || local < s.now then s.now else local)
            && z.day(local) == run.date && (z.day(s.now) < run.date ==> s.now < local)
  {
    SendAhead(standup, run, s.now, z);
  }

  /**
   A scheduler tick opens today's run and reaches the whole roster exactly if there is no run for
   today yet and it is an active weekday of an active standup that has a team; any other tick does
   nothing.
   */
  lemma TickOpensRun(s: State, id: StandupId, net: Net)
    requires Rostered(s) && id in s.standups
    ensures var standup, run := s.standups[id], Today(s, id);
            var t := OpenRun(s, id, false, net);
            if run !in s.runs && standup.isActive && standup.teamId.Some? && Active(standup.schedule.weekdays, run.date)
            then run in t.runs && forall user :: user in Roster(s.members, standup.teamId) ==> Covered(t, run, user)
            else t == s
  {
    var standup, run := s.standups[id], Today(s, id);
    if run !in s.runs && standup.isActive && standup.teamId.Some? && Active(standup.schedule.weekdays, run.date) {
      OpKnown(s, CreateOp(run, net));
      var ready := Do(s, CreateOp(run, net));
      forall user | user in Roster(s.members, standup.teamId)
        ensures Covered(FanOutSends(ready, run, None, false), run, user)
      {
        FanOutCovers(ready, run, None, false, user);
      }
    }
  }

  /**
   A member saved while today's run is open is covered by the late-join job; in every other case
   nothing is queued.
   */
  lemma LateJoinCovers(s: State, i: nat, id: StandupId)
    requires Known(s) && i < |s.members| && s.members[i].teamId.Some?
    requires StandupOf(s.standups, s.members[i].teamId.value) == Some(id)
    ensures id in s.standups
    ensures var m, run, t := s.members[i], Today(s, id), LateJoin(s, i);
            if m.canReport && s.standups[id].isActive && run in s.runs
            then Covered(t, run, m.user) && (t == s || t == Enqueue(s, SendDmJob(run, id, m.user), s.now))
            else t == s
  {
    var m, run, t := s.members[i], Today(s, id), LateJoin(s, i);
    if m.canReport && s.standups[id].isActive && run in s.runs && Key(run, m.user) !in s.reports {
      assert Queued(SendDmJob(run, run.standupId, m.user), s.now) in t.jobs;
    }
  }

  // ---- Whole runs ----

  predicate HasCreate(plan: Plan) {
    plan.Then? && (plan.op.CreateOp? || HasCreate(plan.rest))
  }

  lemma {:induction false} PlanRostered(s: State, plan: Plan)
    requires Possible(s, plan) && Rostered(s) && !HasCreate(plan)
    ensures Rostered(Outcome(s, plan))
    decreases plan
  {
    match plan
    case Done =>
    case Then(op, rest) =>
      OpRostered(s, op, None);
      PlanRostered(Do(s, op), rest);
  }

  lemma JobRostered(s: State, job: Job, net: Net)
    requires Rostered(s)
    requires job.SendDmJob? ==> job.run in s.runs && job.standupId == job.run.standupId
    requires job.ReminderJob? ==> ReminderDue(s, job.key)
    ensures HandleJob(s, job, net).Some? && Rostered(HandleJob(s, job, net).value)
  {
    match job
    case OpenRunJob(id, force) => OpenRunRostered(s, id, force, net);
    case RetriggerJob(id, user) => RetriggerRostered(s, id, user, net);
    case _ =>
      JobRefines(s, job, net);
      assert JobPlan(s, job, net).Then? ==> JobPlan(s, job, net).rest == Done;
      PlanRostered(s, JobPlan(s, job, net));
  }

  lemma StepRostered(s: State, a: Stimulus)
    requires Rostered(s) && Enabled(s, a)
    ensures Rostered(Apply(s, a))
  {
    if a.Deliver? {
      JobRostered(s, a.item.job, a.net);
      if a.ack {
        AckAllowed(s, a.item, a.net);
        OpRostered(HandleJob(s, a.item.job, a.net).value, AckOp(a.item), None);
      }
    } else {
      StepRefines(s, a);
      assert StepPlan(s, a).Then? ==> StepPlan(s, a).rest == Done;
      PlanRostered(s, StepPlan(s, a));
    }
  }

  lemma {:induction false} PlanSettled(s: State, plan: Plan)
    requires Possible(s, plan) && Ledger(s) && NoHang(s)
    ensures Ledger(Outcome(s, plan)) && NoHang(Outcome(s, plan))
    decreases plan
  {
    match plan
    case Done =>
    case Then(op, rest) =>
      OpKnown(s, op);
      OpLedger(s, op);
      OpNoHang(s, op);
      PlanSettled(Do(s, op), rest);
  }

  lemma StepSettled(s: State, a: Stimulus)
    requires Known(s) && Ledger(s) && NoHang(s) && Enabled(s, a)
    ensures Ledger(Apply(s, a)) && NoHang(Apply(s, a))
  {
    StepRefines(s, a);
    PlanSettled(s, StepPlan(s, a));
  }

  /**
   In every run of the system: a run with a report and no open one is completed; finalize has
   returned true exactly once more for a run than it was reopened if it is completed now, exactly
   as often if not.
   */
  lemma {:induction false} RunSettled(states: seq<State>, acts: seq<Stimulus>, i: nat)
    requires IsRun(states, acts) && i < |states|
    ensures NoHang(states[i]) && Ledger(states[i])
  {
    if i > 0 {
      RunSettled(states, acts, i - 1);
      RunKnown(states, acts, i - 1);
      StepSettled(states[i - 1], acts[i - 1]);
    }
  }

  /**
   In every run of the system: a run row is created, and announced in the channel, at most once
   whichever door opened it, and everyone who could report then has a report or a queued send-dm.
   */
  lemma {:induction false} RunRostered(states: seq<State>, acts: seq<Stimulus>, i: nat)
    requires IsRun(states, acts) && i < |states|
    ensures CreatedOnce(states[i]) && RosterCovered(states[i], None)
  {
    RunKnown(states, acts, i);
    if i > 0 {
      RunRostered(states, acts, i - 1);
      RunKnown(states, acts, i - 1);
      StepRostered(states[i - 1], acts[i - 1]);
    }
  }
}
