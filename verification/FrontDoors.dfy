/**
 The day state shown to a member by the slash command and the DM keyword, against what the worker
 does with the retrigger job they enqueue.
 */
module FrontDoors {
  import opened Wrappers
  import opened Text
  import opened DmEngine
  import opened Instants
  import opened Protocol
  import opened RowOps

  /** The standup a day state is about. */
  ghost predicate About(state: DayState, id: StandupId) {
    !state.NotMember? && !state.NoStandup? && state.standupId == id
  }

  ghost predicate FreshlyStarted(t: State, k: Key) {
    && Open(t, k) && t.reports[k].answers == []
    && t.reports[k].timeoutAt == Some(t.now + t.timeoutMs)
    && Queued(TimeoutJob(k), t.now + t.timeoutMs) in t.jobs
    && k.run in t.runs && t.runs[k.run].status == RunRunning
  }

  lemma OpenStarts(s: State, k: Key, interval: int)
    requires Known(s) && Can(s, OpenOp(k, interval))
    ensures FreshlyStarted(SetRunning(OpenReport(s, k, FirstQuestion(s, k), interval), k.run), k)
  {
    assert Queued(TimeoutJob(k), s.now + s.timeoutMs) in OpenReport(s, k, FirstQuestion(s, k), interval).jobs;
  }

  lemma FanOutKeepsStart(s: State, k: Key, run: RunId, exclude: Option<UserId>)
    requires run.standupId in s.standups && FreshlyStarted(s, k)
    ensures FreshlyStarted(FanOutSends(s, run, exclude, false), k)
  {
  }

  /** The member has nothing in today's run, or gave up on it. */
  ghost predicate Undone(s: State, k: Key) {
    k in s.reports ==> s.reports[k].status == TimedOut
  }

  lemma RetriggerStarts(s: State, id: StandupId, user: UserId, net: Net)
    requires Known(s) && Startable(s, id) && Undone(s, Key(Today(s, id), user))
    ensures FreshlyStarted(Retrigger(s, id, user, net), Key(Today(s, id), user))
  {
    var run := Today(s, id);
    var k := Key(run, user);
    var interval := s.standups[id].reminderIntervalMinutes;
    if run in s.runs {
      OpenStarts(s, k, interval);
    } else {
      OpKnown(s, CreateOp(run, net));
      var ready := Do(s, CreateOp(run, net));
      OpenStarts(ready, k, interval);
      FanOutKeepsStart(SetRunning(OpenReport(ready, k, FirstQuestion(ready, k), interval), run), k, run, Some(user));
    }
  }

  lemma RetriggerLeaves(s: State, id: StandupId, user: UserId, net: Net)
    requires Known(s) && (Startable(s, id) ==> !Undone(s, Key(Today(s, id), user)))
    ensures Retrigger(s, id, user, net) == s
  {
  }

  /** Pending means: active, and nothing done today. */
  lemma PendingMeans(s: State, user: UserId, id: StandupId)
    requires Known(s) && About(MemberDayState(s, user), id)
    ensures id in s.standups
    ensures MemberDayState(s, user).DayPending? <==> Startable(s, id) && Undone(s, Key(Today(s, id), user))
  {
  }

  /**
   The worker starts a member's report afresh if and only if their day state is "pending"; in
   every other state the retrigger job changes nothing at all.
   */
  lemma RetriggerAgrees(s: State, user: UserId, id: StandupId, net: Net)
    requires Known(s) && About(MemberDayState(s, user), id)
    ensures id in s.standups
    ensures MemberDayState(s, user).DayPending? ==> FreshlyStarted(Retrigger(s, id, user, net), Key(Today(s, id), user))
    ensures !MemberDayState(s, user).DayPending? ==> Retrigger(s, id, user, net) == s
  {
    PendingMeans(s, user, id);
    if MemberDayState(s, user).DayPending? {
      RetriggerStarts(s, id, user, net);
    } else {
      RetriggerLeaves(s, id, user, net);
    }
  }

  lemma AckKeepsStart(s: State, item: Queued, k: Key)
    requires FreshlyStarted(s, k) && !item.job.TimeoutJob?
    ensures FreshlyStarted(Ack(s, item), k)
  {
    assert Queued(TimeoutJob(k), s.now + s.timeoutMs) in Ack(s, item).jobs;
  }

  lemma DeliveryStarts(s: State, id: StandupId, user: UserId, due: Instant, ack: bool, net: Net)
    requires Known(s) && Startable(s, id) && Undone(s, Key(Today(s, id), user))
    ensures FreshlyStarted(DeliverJob(s, Queued(RetriggerJob(id, user), due), ack, net), Key(Today(s, id), user))
  {
    RetriggerStarts(s, id, user, net);
    AckKeepsStart(Retrigger(s, id, user, net), Queued(RetriggerJob(id, user), due), Key(Today(s, id), user));
  }

  /** `/standup` while pending, and the worker picking its job up at once: the report is open. */
  lemma CommandStarts(s: State, user: UserId, text: string, ack: bool, net: Net)
    requires Known(s) && ParseSubcommand(text) == Start && MemberDayState(s, user).DayPending?
    ensures var id := MemberDayState(s, user).standupId;
            var item := Queued(RetriggerJob(id, user), s.now);
            && id in s.standups
            && item in HandleCommand(s, user, text).jobs
            && FreshlyStarted(DeliverJob(HandleCommand(s, user, text), item, ack, net), Key(Today(s, id), user))
  {
    var id := MemberDayState(s, user).standupId;
    var item := Queued(RetriggerJob(id, user), s.now);
    var t := Enqueue(s, item.job, s.now);
    assert item in t.jobs;
    PendingMeans(s, user, id);
    DeliveryStarts(t, id, user, s.now, ack, net);
  }

  /**
   A restart keyword without an open report: while pending, the worker picking the job up starts
   the report; otherwise the message does nothing.
   */
  lemma KeywordStarts(s: State, user: UserId, text: string, ack: bool, net: Net)
    requires Known(s) && IsLatestOpen(s, user, None) && Normalized(text) in RETRIGGER_KEYWORDS
    ensures var state, t := MemberDayState(s, user), MaybeRetrigger(s, user, text);
            if !state.DayPending? then t == s
            else
              var item := Queued(RetriggerJob(state.standupId, user), s.now);
              && state.standupId in s.standups && item in t.jobs
              && FreshlyStarted(DeliverJob(t, item, ack, net), Key(Today(s, state.standupId), user))
  {
    KeywordNeverMeetsInProgress(s, user);
    var state := MemberDayState(s, user);
    if state.DayPending? {
      var item := Queued(RetriggerJob(state.standupId, user), s.now);
      var t := Enqueue(s, item.job, s.now);
      assert item in t.jobs;
      PendingMeans(s, user, state.standupId);
      DeliveryStarts(t, state.standupId, user, s.now, ack, net);
    }
  }

  lemma InProgressIsOpen(s: State, user: UserId)
    ensures MemberDayState(s, user).DayInProgress? ==> exists k :: k in s.reports && IsOpen(s, user, k)
  {
    var state := MemberDayState(s, user);
    assert state.DayInProgress? ==> IsOpen(s, user, Key(Today(s, state.standupId), user));
  }

  /** The keyword path is only taken without an open report, so it never meets "in progress". */
  lemma KeywordNeverMeetsInProgress(s: State, user: UserId)
    requires IsLatestOpen(s, user, None)
    ensures !MemberDayState(s, user).DayInProgress?
  {
    InProgressIsOpen(s, user);
  }

  // ---- What is shown and understood ----

  /** The first membership row of the user. */
  ghost predicate IsFirstMember(members: seq<Member>, user: UserId, i: nat) {
    i < |members| && members[i].user == user && forall j :: 0 <= j < i ==> members[j].user != user
  }

  lemma {:induction false} FirstMemberMeans(members: seq<Member>, user: UserId)
    ensures FirstMember(members, user).None? <==> forall m :: m in members ==> m.user != user
    ensures forall i: nat :: IsFirstMember(members, user, i) ==> FirstMember(members, user) == Some(members[i])
  {
    if members != [] {
      FirstMemberMeans(members[1..], user);
      assert members == [members[0]] + members[1..];
      if members[0].user != user {
        forall i: nat | IsFirstMember(members, user, i) ensures FirstMember(members, user) == Some(members[i]) {
          assert i > 0;
          assert forall j :: 0 <= j < i - 1 ==> members[1..][j] == members[j + 1];
          assert IsFirstMember(members[1..], user, i - 1);
        }
      }
    }
  }

  /** The state shown for the standup id, from its rows. */
  ghost predicate Shows(s: State, user: UserId, id: StandupId, state: DayState) {
    && id in s.standups
    && var standup := s.standups[id];
       var k := Key(RunId(id, standup.zone.day(s.now)), user);
       var total := |standup.questions|;
       if !standup.isActive then state == Paused(id)
       else if k !in s.reports || s.reports[k].status == TimedOut then state == DayPending(id, total)
       else if s.reports[k].status == Completed then state == DayCompleted(id, total)
       else state == DayInProgress(id, |s.reports[k].answers|, total)
  }

  /**
   The day state: unknown without a membership in a team, none without a standup of that team, and
   otherwise paused, completed, in progress with the answers given so far, or pending, as the rows
   of a standup of that team say.
   */
  lemma DayStateMeans(s: State, user: UserId, i: nat)
    requires Known(s) && IsFirstMember(s.members, user, i)
    ensures var team := s.members[i].teamId;
            var state := MemberDayState(s, user);
            && (state.NotMember? <==> team.None?)
            && (state.NoStandup? <==> team.Some? && forall id :: id in s.standups ==> s.standups[id].teamId != team)
            && (!state.NotMember? && !state.NoStandup? ==>
                  Shows(s, user, state.standupId, state) && s.standups[state.standupId].teamId == team)
  {
    FirstMemberMeans(s.members, user);
    var team := s.members[i].teamId;
    if team.Some? {
      StandupOfMeans(s.standups, team.value);
    }
  }

  lemma StandupOfMeans(standups: map<StandupId, Standup>, team: TeamId)
    ensures StandupOf(standups, team).None? <==> forall id :: id in standups ==> standups[id].teamId != Some(team)
    ensures StandupOf(standups, team).Some? ==> IsStandupOf(standups, StandupOf(standups, team).value, team)
  {
    if id :| id in standups && standups[id].teamId == Some(team) {
      assert IsStandupOf(standups, id, team);
    }
  }

  /** The slash command starts on nothing or "start", in any case, and only that ever queues a job. */
  lemma CommandWords(s: State, user: UserId, text: string)
    ensures ParseSubcommand(text) == Start <==> Trim(text) == "" || Spells(Trim(text), "start")
    ensures ParseSubcommand(text) == Status <==> Spells(Trim(text), "status")
    ensures ParseSubcommand(text) != Start ==> HandleCommand(s, user, text) == s
  {
    RecognisedInAnyCase(text, "");
    RecognisedInAnyCase(text, "start");
    RecognisedInAnyCase(text, "status");
  }

  /** The words that restart in a direct message, in any case; no other message queues a job. */
  lemma KeywordWords(s: State, user: UserId, text: string)
    ensures Normalized(text) in RETRIGGER_KEYWORDS <==>
              || Spells(Trim(text), "redo") || Spells(Trim(text), "restart")
              || Spells(Trim(text), "start") || Spells(Trim(text), "standup")
    ensures Normalized(text) !in RETRIGGER_KEYWORDS ==> MaybeRetrigger(s, user, text) == s
  {
    RecognisedInAnyCase(text, "redo");
    RecognisedInAnyCase(text, "restart");
    RecognisedInAnyCase(text, "start");
    RecognisedInAnyCase(text, "standup");
  }
}
