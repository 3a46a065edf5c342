/** A member of two teams whose next reply is recorded under a question they were not asked last. */
module TwoTeams {
  import opened Wrappers
  import opened DmEngine
  import opened Instants
  import opened Protocol
  import opened RowOps
  import opened Conversation
  import opened Scenarios

  /** A report started again is prompted for last, but the handler goes by creation time, which it keeps. */
  lemma RestartIsNotPicked(s: State, id: StandupId, a: Key, b: Key)
    requires Known(s) && Startable(s, id) && a.run == Today(s, id) && a.user == b.user && a != b
    requires a in s.reports && s.reports[a].status == TimedOut && IsLatestOpen(s, a.user, Some(b))
    requires s.reports[a].createdAt < s.reports[b].createdAt
    ensures var t := Retrigger(s, id, a.user, OFFLINE);
            && LastPrompt(t.log, a.user) == Some(Prompt(a, s.standups[id].questions[0]))
            && IsLatestOpen(t, a.user, Some(b)) && !IsLatestOpen(t, a.user, Some(a))
            && t.reports[b] == s.reports[b] && t.standups == s.standups && t.now == s.now
  {
    var interval := s.standups[id].reminderIntervalMinutes;
    var asked := Do(s, OpenOp(a, interval));
    OpKnown(s, OpenOp(a, interval));
    RestartPrompts(s, a, interval);
    OpUnprompted(asked, RunningOp(a), a.user);
    RestartRows(s, id, a);
    assert Retrigger(s, id, a.user, OFFLINE) == Do(asked, RunningOp(a));
    PickStays(s, Retrigger(s, id, a.user, OFFLINE), a, b);
  }

  lemma RestartRows(s: State, id: StandupId, a: Key)
    requires Known(s) && Startable(s, id) && a.run == Today(s, id)
    requires a in s.reports && s.reports[a].status == TimedOut
    ensures var t := Retrigger(s, id, a.user, OFFLINE);
            && t == SetRunning(OpenReport(s, a, s.standups[id].questions[0],
                                          s.standups[id].reminderIntervalMinutes), a.run)
            && t.reports == s.reports[a := FreshReport(s, a)]
            && t.standups == s.standups && t.now == s.now
  {
  }

  /** Opening a again, which was created earlier, leaves b the latest open report. */
  lemma PickStays(s: State, t: State, a: Key, b: Key)
    requires a != b && a.user == b.user && IsLatestOpen(s, a.user, Some(b))
    requires a in s.reports && s.reports[a].createdAt < s.reports[b].createdAt
    requires t.reports == s.reports[a := FreshReport(s, a)]
    ensures IsLatestOpen(t, a.user, Some(b)) && !IsLatestOpen(t, a.user, Some(a))
  {
    assert IsOpen(t, a.user, b);
    forall k | k in t.reports && IsOpen(t, a.user, k) ensures t.reports[k].createdAt <= t.reports[b].createdAt {
      assert k != a ==> IsOpen(s, a.user, k);
    }
  }

  lemma RestartPrompts(s: State, k: Key, interval: int)
    requires Known(s) && Can(s, OpenOp(k, interval))
    ensures LastPrompt(Do(s, OpenOp(k, interval)).log, k.user) == Some(Prompt(k, FirstQuestion(s, k)))
  {
  }

  // ---- A run that gets there ----

  const HOUR := 60 * MINUTE

  function RedQuestion(): Question {
    Question("r", "What did you do for red?")
  }

  function BlueQuestion(): Question {
    Question("b", "What did you do for blue?")
  }

  function Standups(): map<StandupId, Standup> {
    map["red" := Daily("red", RedQuestion()), "blue" := Daily("blue", BlueQuestion())]
  }

  function Memberships(): seq<Member> {
    [Member(Some("red"), "ann", None, true), Member(Some("blue"), "ann", None, true)]
  }

  function FreshSystem(): State {
    State(0, HOUR, Standups(), {}, Memberships(), map[], map[], multiset{}, 0, [])
  }

  const RED := Key(RunId("red", 0), "ann")
  const BLUE := Key(RunId("blue", 0), "ann")

  lemma AnnReports()
    ensures "ann" in Roster(Memberships(), Some("red")) && "ann" in Roster(Memberships(), Some("blue"))
  {
    assert Reports(Memberships()[0], Some("red")) && Reports(Memberships()[1], Some("blue"));
  }

  /** Ann is asked for red. */
  lemma RedAsked() returns (t: State)
    ensures Reachable(t) && t.standups == Standups() && t.members == Memberships() && t.timeoutMs == HOUR && t.now == 0
    ensures t.runs.Keys == {RED.run} && t.reports.Keys == {RED}
    ensures Open(t, RED) && t.reports[RED].createdAt == 0 && t.reports[RED].timeoutAt == Some(HOUR)
    ensures Queued(TimeoutJob(RED), HOUR) in t.jobs
  {
    var s := FreshSystem();
    StartReachable(s);
    AnnReports();
    assert Today(s, "red") == RED.run;
    t := ForcedOpen(s, "red");
    t := SendDelivered(t, RED.run, "ann", 0);
  }

  /** She lets it time out after an hour. */
  lemma RedTimesOut() returns (t: State)
    ensures Reachable(t) && t.standups == Standups() && t.members == Memberships()
    ensures t.timeoutMs == HOUR && t.now == HOUR
    ensures t.runs.Keys == {RED.run} && t.reports.Keys == {RED}
    ensures t.reports[RED].status == TimedOut && t.reports[RED].createdAt == 0
  {
    t := RedAsked();
    t := TimePasses(t, HOUR);
    t := TimedOutAt(t, RED);
  }

  /** Then blue was opened, and is waiting for her answer. */
  lemma BlueOpens() returns (t: State)
    ensures Reachable(t) && t.standups == Standups() && t.members == Memberships() && t.now == HOUR
    ensures t.runs.Keys == {RED.run, BLUE.run} && t.reports.Keys == {RED, BLUE}
    ensures t.reports[RED].status == TimedOut && t.reports[RED].createdAt == 0
    ensures Open(t, BLUE) && t.reports[BLUE].createdAt == HOUR && t.reports[BLUE].answers == []
  {
    t := RedTimesOut();
    AnnReports();
    assert Today(t, "blue") == BLUE.run;
    t := ForcedOpen(t, "blue");
    t := SendDelivered(t, BLUE.run, "ann", HOUR);
  }

  lemma RedIsHers()
    ensures StandupOf(Standups(), "red") == Some("red")
  {
    assert IsStandupOf(Standups(), "red", "red");
  }

  lemma ReachableKnown(s: State)
    requires Reachable(s)
    ensures Known(s)
  {
    var states, acts :| EndsIn(states, acts, s);
    RunKnown(states, acts, |acts|);
  }

  lemma RedIsPending(s: State)
    requires s.standups == Standups() && s.members == Memberships() && s.now == HOUR
    requires RED in s.reports && s.reports[RED].status == TimedOut
    ensures MemberDayState(s, "ann") == DayPending("red", 1)
  {
    RedIsHers();
    assert Today(s, "red") == RED.run;
  }

  /** She types `/standup`: her day state is that of red, and a retrigger is queued. */
  lemma SheStartsAgain() returns (t: State)
    ensures Reachable(t) && t.standups == Standups() && t.now == HOUR
    ensures Queued(RetriggerJob("red", "ann"), HOUR) in t.jobs
    ensures t.reports.Keys == {RED, BLUE}
    ensures t.reports[RED].status == TimedOut && t.reports[RED].createdAt == 0
    ensures Open(t, BLUE) && t.reports[BLUE].createdAt == HOUR && t.reports[BLUE].answers == []
  {
    var s := BlueOpens();
    RedIsPending(s);
    assert ParseSubcommand("") == Start;
    StepReachable(s, Command("ann", ""));
    t := Enqueue(s, RetriggerJob("red", "ann"), HOUR);
    assert t == Apply(s, Command("ann", ""));
  }

  /** Red is started again and asked last, blue is what the handler picks. */
  lemma RedIsAskedLast() returns (t: State)
    ensures Reachable(t) && t.standups == Standups()
    ensures LastPrompt(t.log, "ann") == Some(Prompt(RED, RedQuestion()))
    ensures IsLatestOpen(t, "ann", Some(BLUE)) && !IsLatestOpen(t, "ann", Some(RED))
    ensures t.reports[BLUE].answers == []
  {
    var s := SheStartsAgain();
    ReachableKnown(s);
    assert Today(s, "red") == RED.run;
    RestartIsNotPicked(s, "red", RED, BLUE);
    var item := Queued(RetriggerJob("red", "ann"), HOUR);
    DeliveryReachable(s, item);
    t := Ack(Retrigger(s, "red", "ann", OFFLINE), item);
    LatestAcked(Retrigger(s, "red", "ann", OFFLINE), item);
  }

  lemma LatestAcked(s: State, item: Queued)
    ensures forall user, pick :: IsLatestOpen(Ack(s, item), user, pick) <==> IsLatestOpen(s, user, pick)
  {
    assert forall user, k :: k in s.reports ==> (IsOpen(Ack(s, item), user, k) <==> IsOpen(s, user, k));
  }

  /** The system reaches a state in which no reply of the member is recorded under the question asked last. */
  lemma AnswerGoesAstray() returns (t: State)
    ensures Reachable(t)
    ensures LastPrompt(t.log, "ann") == Some(Prompt(RED, RedQuestion())) && IsLatestOpen(t, "ann", Some(BLUE))
    ensures forall text, net :: !RecordsUnder(t, "ann", text, BLUE, net, RedQuestion())
    ensures forall text, net :: Normalized(text) != SKIP_ALL ==> RecordsUnder(t, "ann", text, BLUE, net, BlueQuestion())
  {
    t := RedIsAskedLast();
    ReachableKnown(t);
    forall text, net ensures !RecordsUnder(t, "ann", text, BLUE, net, RedQuestion())
                          && (Normalized(text) != SKIP_ALL ==> RecordsUnder(t, "ann", text, BLUE, net, BlueQuestion()))
    {
      RecordedExactly(t, "ann", text, BLUE, net, RedQuestion());
      RecordedExactly(t, "ann", text, BLUE, net, BlueQuestion());
    }
  }
}
