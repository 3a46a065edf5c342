/** What each operation adds to the history. */
module History {
  import opened DmEngine
  import opened Instants
  import opened Reminders
  import opened Protocol
  import opened RowOps

  /** The events an operation may add. */
  ghost predicate Says(s: State, op: Op, e: Event)
    requires Known(s) && Can(s, op)
  {
    match op
    case CreateOp(run, _) =>
      || e == RunCreated(run, Roster(s.members, s.standups[run.standupId].teamId))
      || e == HeaderPosted(run, s.nextTs)
    case OpenOp(k, interval) =>
      || e == ReportOpened(k, s.now, interval, |ReminderDelays(interval * MINUTE, s.timeoutMs)|)
      || e == Asked(k, FirstQuestion(s, k))
    case RunningOp(k) => e == RunReopened(k.run)
    case GiveUpOp(k, event) => e == event || e == Finalized(k.run)
    case AcceptOp(k, answers) =>
      e == ReplyAccepted(k, s.now) || e == Asked(k, Questions(s, k)[|answers|])
    case FinishOp(k, _, _) =>
      || e == ReportCompleted(k, s.now)
      || (e.BroadcastPosted? && e.key == k && e.ts == s.nextTs)
      || e == Finalized(k.run)
    case NudgeOp(k) => e == Nudged(k, s.now)
    case _ => false
  }

  ghost predicate AddsOnly(s: State, op: Op, t: State)
    requires Known(s) && Can(s, op)
  {
    && s.log <= t.log
    && forall i :: |s.log| <= i < |t.log| ==> Says(s, op, t.log[i])
  }

  lemma OpSays(s: State, op: Op)
    requires Known(s) && Can(s, op)
    ensures AddsOnly(s, op, Do(s, op))
  {
    match op
    case GiveUpOp(k, event) => GiveUpSays(s, k, event);
    case FinishOp(k, answers, net) => FinishSays(s, k, answers, net);
    case _ =>
  }

  lemma GiveUpSays(s: State, k: Key, event: Event)
    requires Known(s) && Can(s, GiveUpOp(k, event))
    ensures AddsOnly(s, GiveUpOp(k, event), Do(s, GiveUpOp(k, event)))
  {
    FinalizeFrame(Close(s, k, event), k.run);
  }

  lemma FinishSays(s: State, k: Key, answers: seq<Answer>, net: Net)
    requires Known(s) && Can(s, FinishOp(k, answers, net))
    ensures AddsOnly(s, FinishOp(k, answers, net), Do(s, FinishOp(k, answers, net)))
  {
    var done := CompleteReport(s, k, answers);
    var posted := Broadcast(done, k, s.standups[k.run.standupId].teamId, net);
    FinalizeFrame(posted, k.run);
  }
}
