/** The channel post of a completed report: at most one, and only then. */
module Broadcasts {
  import opened Wrappers
  import opened DmEngine
  import opened Protocol
  import opened RowOps
  import opened History
  import opened Lifecycle
  import opened Effects

  /** Every post is about a completed report, no report has two. */
  ghost predicate PostedOnce(s: State) {
    && (forall i :: 0 <= i < |s.log| && s.log[i].BroadcastPosted? ==> Finished(s, s.log[i].key))
    && (forall i, j :: 0 <= i < j < |s.log| && s.log[i].BroadcastPosted? && s.log[j].BroadcastPosted? ==>
          s.log[i].key != s.log[j].key)
  }

  ghost predicate Finished(s: State, k: Key) {
    k in s.reports && s.reports[k].status == Completed
  }

  /** A stored post reference belongs to a completed report and says how its post went out. */
  ghost predicate PostStored(s: State) {
    forall k :: k in s.reports && s.reports[k].channelPostTs.Some? ==>
      Finished(s, k) && s.reports[k].postedAs.Some? && HasPost(s.log, k, s.reports[k])
  }

  ghost predicate HasPost(log: seq<Event>, k: Key, r: Report)
    requires r.channelPostTs.Some? && r.postedAs.Some?
  {
    exists i :: 0 <= i < |log| && log[i] == BroadcastPosted(k, r.postedAs.value, r.channelPostTs.value)
  }

  /** Message references are never given out twice. */
  ghost predicate FreshTs(s: State) {
    && (forall i :: 0 <= i < |s.log| && HasTs(s.log[i]) ==> s.log[i].ts < s.nextTs)
    && (forall i, j :: 0 <= i < j < |s.log| && HasTs(s.log[i]) && HasTs(s.log[j]) ==> s.log[i].ts < s.log[j].ts)
  }

  ghost predicate HasTs(e: Event) {
    e.HeaderPosted? || e.BroadcastPosted?
  }

  ghost predicate Posted(s: State) {
    PostedOnce(s) && PostStored(s) && FreshTs(s)
  }

  lemma PostKept(log: seq<Event>, more: seq<Event>, k: Key, r: Report)
    requires r.channelPostTs.Some? && r.postedAs.Some? && HasPost(log, k, r) && log <= more
    ensures HasPost(more, k, r)
  {
    var i :| 0 <= i < |log| && log[i] == BroadcastPosted(k, r.postedAs.value, r.channelPostTs.value);
    assert more[i] == log[i];
  }

  /** No post is added, and no completed report reopened. */
  lemma OthersPosted(s: State, t: State)
    requires Posted(s) && s.log <= t.log && t.nextTs == s.nextTs
    requires forall i :: |s.log| <= i < |t.log| ==> !HasTs(t.log[i])
    requires forall k :: Finished(s, k) ==> k in t.reports && t.reports[k] == s.reports[k]
    requires forall k :: k in t.reports && t.reports[k].channelPostTs.Some? ==>
               k in s.reports && t.reports[k].channelPostTs == s.reports[k].channelPostTs
    ensures Posted(t)
  {
    assert forall i :: 0 <= i < |t.log| && HasTs(t.log[i]) ==> i < |s.log| && t.log[i] == s.log[i];
    forall k | k in t.reports && t.reports[k].channelPostTs.Some?
      ensures Finished(t, k) && t.reports[k].postedAs.Some? && HasPost(t.log, k, t.reports[k])
    {
      PostKept(s.log, t.log, k, s.reports[k]);
    }
  }

  lemma HeaderPost(s: State, run: RunId, net: Net)
    requires Known(s) && Posted(s) && Can(s, CreateOp(run, net))
    ensures Posted(Do(s, CreateOp(run, net)))
  {
    var t := Do(s, CreateOp(run, net));
    forall k | k in t.reports && t.reports[k].channelPostTs.Some? ensures HasPost(t.log, k, t.reports[k]) {
      PostKept(s.log, t.log, k, s.reports[k]);
    }
  }

  /** The report has just been completed and has no post yet. */
  lemma BroadcastPosts(s: State, k: Key, team: Option<TeamId>, net: Net)
    requires Posted(s) && Finished(s, k)
    requires forall i :: 0 <= i < |s.log| && s.log[i].BroadcastPosted? ==> s.log[i].key != k
    ensures Posted(Broadcast(s, k, team, net))
  {
    var t := Broadcast(s, k, team, net);
    if t != s {
      assert t.log[|s.log|].BroadcastPosted? && t.log[|s.log|].key == k;
      forall j | j in t.reports && t.reports[j].channelPostTs.Some?
        ensures Finished(t, j) && t.reports[j].postedAs.Some? && HasPost(t.log, j, t.reports[j])
      {
        if j != k || !net.permalinkOk {
          PostKept(s.log, t.log, j, s.reports[j]);
        }
      }
    }
  }

  lemma FinalizePosted(s: State, run: RunId)
    requires Posted(s)
    ensures Posted(Finalize(s, run))
  {
    OthersPosted(s, Finalize(s, run));
  }

  lemma FinishPosted(s: State, k: Key, answers: seq<Answer>, net: Net)
    requires Known(s) && Posted(s) && Can(s, FinishOp(k, answers, net))
    ensures Posted(Do(s, FinishOp(k, answers, net)))
  {
    var done := CompleteReport(s, k, answers);
    OthersPosted(s, done);
    BroadcastPosts(done, k, s.standups[k.run.standupId].teamId, net);
    FinalizePosted(Broadcast(done, k, s.standups[k.run.standupId].teamId, net), k.run);
  }

  lemma GiveUpPosted(s: State, k: Key, event: Event)
    requires Known(s) && Posted(s) && Can(s, GiveUpOp(k, event))
    ensures Posted(Do(s, GiveUpOp(k, event)))
  {
    OthersPosted(s, Close(s, k, event));
    FinalizePosted(Close(s, k, event), k.run);
  }

  lemma OpPosted(s: State, op: Op)
    requires Known(s) && Posted(s) && Can(s, op)
    ensures Posted(Do(s, op))
  {
    match op
    case CreateOp(run, net) => HeaderPost(s, run, net);
    case GiveUpOp(k, event) => GiveUpPosted(s, k, event);
    case FinishOp(k, answers, net) => FinishPosted(s, k, answers, net);
    case OpenOp(k, interval) => OpenPosted(s, k, interval);
    case AcceptOp(k, answers) => OthersPosted(s, Do(s, op));
    case _ => QuietPosted(s, op);
  }

  lemma OpenPosted(s: State, k: Key, interval: int)
    requires Known(s) && Posted(s) && Can(s, OpenOp(k, interval))
    ensures Posted(Do(s, OpenOp(k, interval)))
  {
    OthersPosted(s, Do(s, OpenOp(k, interval)));
  }

  lemma QuietPosted(s: State, op: Op)
    requires Known(s) && Posted(s) && Can(s, op) && !Touches(op) && !op.CreateOp?
    ensures Posted(Do(s, op))
  {
    OpEffect(s, op);
    OpSays(s, op);
    var t := Do(s, op);
    forall i | |s.log| <= i < |t.log| ensures !HasTs(t.log[i]) {
      assert Says(s, op, t.log[i]);
    }
    OthersPosted(s, t);
  }

  lemma {:induction false} PlanPosted(s: State, plan: Plan)
    requires Possible(s, plan) && Posted(s)
    ensures Posted(Outcome(s, plan))
    decreases plan
  {
    match plan
    case Done =>
    case Then(op, rest) =>
      OpKnown(s, op);
      OpPosted(s, op);
      PlanPosted(Do(s, op), rest);
  }

  lemma StepPosted(s: State, a: Stimulus)
    requires Known(s) && Posted(s) && Enabled(s, a)
    ensures Posted(Apply(s, a))
  {
    StepRefines(s, a);
    PlanPosted(s, StepPlan(s, a));
  }

  /**
   In every run of the system, across retries, retriggers, timeouts and stray replies: a report
   gets at most one channel post, only once completed; a stored post reference names that very
   post and the way it went out; and no message reference is given out twice.
   */
  lemma {:induction false} RunPosted(states: seq<State>, acts: seq<Stimulus>, i: nat)
    requires IsRun(states, acts) && i < |states|
    ensures Posted(states[i])
  {
    if i > 0 {
      RunPosted(states, acts, i - 1);
      RunKnown(states, acts, i - 1);
      StepPosted(states[i - 1], acts[i - 1]);
    }
  }

  // ---- A completed report is posted unless that was impossible ----

  ghost predicate HasAnyPost(log: seq<Event>, k: Key) {
    exists n :: 0 <= n < |log| && log[n].BroadcastPosted? && log[n].key == k
  }

  /** No new event posts k. */
  ghost predicate NoPostSince(log: seq<Event>, more: seq<Event>, k: Key) {
    log <= more && forall n :: |log| <= n < |more| ==> !(more[n].BroadcastPosted? && more[n].key == k)
  }

  lemma PostsSame(log: seq<Event>, more: seq<Event>, k: Key)
    requires NoPostSince(log, more, k)
    ensures HasAnyPost(more, k) <==> HasAnyPost(log, k)
  {
    if n :| 0 <= n < |log| && log[n].BroadcastPosted? && log[n].key == k {
      assert more[n] == log[n];
    }
    if n :| 0 <= n < |more| && more[n].BroadcastPosted? && more[n].key == k {
      assert log[n] == more[n];
    }
  }

  lemma OpNoPost(s: State, op: Op, k: Key)
    requires Known(s) && Can(s, op) && Finished(s, k)
    ensures Finished(Do(s, op), k) && NoPostSince(s.log, Do(s, op).log, k)
  {
    StaysFinished(s, op, k);
    OpSays(s, op);
    var t := Do(s, op);
    forall n | |s.log| <= n < |t.log| ensures !(t.log[n].BroadcastPosted? && t.log[n].key == k) {
      assert Says(s, op, t.log[n]);
    }
  }

  lemma StaysFinished(s: State, op: Op, k: Key)
    requires Known(s) && Can(s, op) && Finished(s, k)
    ensures Finished(Do(s, op), k)
  {
    OpEffect(s, op);
  }

  lemma {:induction false} PlanNoPost(s: State, plan: Plan, k: Key)
    requires Possible(s, plan) && Finished(s, k)
    ensures Finished(Outcome(s, plan), k) && NoPostSince(s.log, Outcome(s, plan).log, k)
    decreases plan
  {
    match plan
    case Done =>
    case Then(op, rest) =>
      OpNoPost(s, op, k);
      PlanNoPost(Do(s, op), rest, k);
      NoPostTwice(s.log, Do(s, op).log, Outcome(s, plan).log, k);
  }

  lemma NoPostTwice(a: seq<Event>, b: seq<Event>, c: seq<Event>, k: Key)
    requires NoPostSince(a, b, k) && NoPostSince(b, c, k)
    ensures NoPostSince(a, c, k)
  {
    forall n | |a| <= n < |c| ensures !(c[n].BroadcastPosted? && c[n].key == k) {
      if n < |b| {
        assert c[n] == b[n];
      }
    }
  }

  lemma {:induction false} PostsAlong(states: seq<State>, acts: seq<Stimulus>, k: Key, i: nat, j: nat)
    requires IsRun(states, acts) && i <= j < |states| && Finished(states[i], k)
    ensures Finished(states[j], k) && (HasAnyPost(states[j].log, k) <==> HasAnyPost(states[i].log, k))
    decreases j
  {
    if i < j {
      PostsAlong(states, acts, k, i, j - 1);
      RunKnown(states, acts, j - 1);
      StepRefines(states[j - 1], acts[j - 1]);
      PlanNoPost(states[j - 1], StepPlan(states[j - 1], acts[j - 1]), k);
      PostsSame(states[j - 1].log, states[j].log, k);
    }
  }

  // ---- Only a message completes a report ----

  predicate Finishes(plan: Plan, k: Key) {
    plan.Then? && ((plan.op.FinishOp? && plan.op.key == k) || Finishes(plan.rest, k))
  }

  lemma {:induction false} ChainFinishes(plan: Plan, last: Plan, k: Key)
    ensures Finishes(Chain(plan, last), k) <==> Finishes(plan, k) || Finishes(last, k)
  {
    match plan
    case Done =>
    case Then(_, rest) => ChainFinishes(rest, last, k);
  }

  lemma JobNeverFinishes(s: State, job: Job, net: Net, k: Key)
    ensures !Finishes(JobPlan(s, job, net), k)
  {
    if job.RetriggerJob? && Startable(s, job.standupId) {
      var run := Today(s, job.standupId);
      var j := Key(run, job.user);
      assert !Finishes(Then(FanOutOp(run, Some(job.user), false), Done), k);
      assert !Finishes(Then(RunningOp(j), Then(FanOutOp(run, Some(job.user), false), Done)), k);
      assert !Finishes(Then(RunningOp(j), Done), k);
    }
    if job.OpenRunJob? && job.standupId in s.standups {
      assert !Finishes(Then(FanOutOp(Today(s, job.standupId), None, job.force), Done), k);
    }
  }

  lemma StepFinishes(s: State, a: Stimulus, k: Key)
    requires Known(s) && Enabled(s, a)
    ensures Finishes(StepPlan(s, a), k) ==> a.Message? && a.pick == Some(k)
  {
    assert !Finishes(Done, k);
    if a.Deliver? {
      JobNeverFinishes(s, a.item.job, a.net, k);
      ChainFinishes(JobPlan(s, a.item.job, a.net), Then(AckOp(a.item), Done), k);
      assert !Finishes(Then(AckOp(a.item), Done), k);
    } else if StepPlan(s, a).Then? {
      assert StepPlan(s, a).rest == Done;
      assert Finishes(StepPlan(s, a), k) ==> StepPlan(s, a).op.FinishOp? && StepPlan(s, a).op.key == k;
    }
  }

  lemma {:induction false} PlanNotFinished(s: State, plan: Plan, k: Key)
    requires Possible(s, plan) && !Finishes(plan, k) && !Finished(s, k)
    ensures !Finished(Outcome(s, plan), k)
    decreases plan
  {
    match plan
    case Done =>
    case Then(op, rest) =>
      OpEffect(s, op);
      PlanNotFinished(Do(s, op), rest, k);
  }

  /** A step that completes a report handles a message of its user for it. */
  lemma CompletingStep(s: State, a: Stimulus, k: Key)
    requires Known(s) && Enabled(s, a) && !Finished(s, k) && Finished(Apply(s, a), k)
    ensures a.Message? && a.pick == Some(k)
  {
    StepRefines(s, a);
    StepFinishes(s, a, k);
    if !Finishes(StepPlan(s, a), k) {
      PlanNotFinished(s, StepPlan(s, a), k);
    }
  }

  /** When the message completes the report, it is posted exactly if there is a way. */
  lemma CompletionPosts(s: State, user: UserId, k: Key, text: string, net: Net)
    requires Known(s) && IsLatestOpen(s, user, Some(k)) && !HasAnyPost(s.log, k)
    requires Finished(HandleMessage(s, user, text, Some(k), net), k)
    ensures HasAnyPost(HandleMessage(s, user, text, Some(k), net).log, k)
       <==> PostPath(s, s.standups[k.run.standupId].teamId, net).Some?
  {
    var n, total := |s.reports[k].answers|, |Questions(s, k)|;
    if n >= total {
      MessageIgnored(s, user, k, text, net);
    } else if Normalized(text) == SKIP_ALL {
      MessageAborts(s, user, k, text, net);
    } else if n + 1 < total {
      MessageAsksNext(s, user, k, text, net);
    } else {
      MessageCompletes(s, user, k, text, net);
      PostIsAmong(s, k, PostPath(s, s.standups[k.run.standupId].teamId, net));
    }
  }

  lemma PostIsAmong(s: State, k: Key, path: Option<PostedAs>)
    requires !HasAnyPost(s.log, k)
    ensures HasAnyPost(LogAfter(s, k, [ReportCompleted(k, s.now)] +
                                      (if path.Some? then [BroadcastPosted(k, path.value, s.nextTs)] else [])), k)
       <==> path.Some?
  {
    var log := LogAfter(s, k, [ReportCompleted(k, s.now)] +
                              (if path.Some? then [BroadcastPosted(k, path.value, s.nextTs)] else []));
    if path.Some? {
      assert log[|s.log| + 1] == BroadcastPosted(k, path.value, s.nextTs);
    } else {
      assert NoPostSince(s.log, log, k);
      PostsSame(s.log, log, k);
    }
  }

  /**
   In every run of the system, a completed report was completed by a message of its user, and has a
   channel post exactly if at that step its team had a channel and posting as the member or as the
   bot was possible.
   */
  lemma CompletedIsPosted(states: seq<State>, acts: seq<Stimulus>, j: nat, k: Key) returns (i: nat)
    requires IsRun(states, acts) && j < |states| && Finished(states[j], k)
    ensures i < j && acts[i].Message? && acts[i].pick == Some(k) && Open(states[i], k)
    ensures k.run.standupId in states[i].standups
    ensures HasAnyPost(states[j].log, k)
       <==> PostPath(states[i], states[i].standups[k.run.standupId].teamId, acts[i].net).Some?
  {
    i := ClosedInForce(states, acts, j, k);
    RunKnown(states, acts, i);
    RunPosted(states, acts, i);
    assert states[i + 1] == Apply(states[i], acts[i]);
    CompletingStep(states[i], acts[i], k);
    CompletionPosts(states[i], acts[i].user, k, acts[i].text, acts[i].net);
    PostsAlong(states, acts, k, i + 1, j);
  }
}
