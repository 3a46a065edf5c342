# Verified model of the standup service

poddaily runs daily standups over Slack: a scheduler opens a run per standup and day, every
reporting member gets a direct message with the questions, replies fill in a report, silence times
it out, and a completed report is posted to the team's channel. The handlers live in three
processes (worker, api, web) and talk through shared tables and a queue of delayed jobs that may
be delivered more than once.

This project models those handlers and the calculations beside them, and proves what the service
relies on.

## How it is laid out

| file | contents |
|---|---|
| `Wrappers.dfy`, `Text.dfy` | Option and Result; trim, split, join, decimal numerals |
| `DmEngine.dfy` | the question-and-answer reducer |
| `Cron.dfy`, `Instants.dfy`, `Reminders.dfy` | cron text, calendar days and next-fire search, reminder series |
| `Protocol.dfy` | the tables, the job queue and the history as one state; each handler as a function of it; runs of the system |
| `Service.dfy` | the handlers statement by statement, as methods of a class, proved equal to `Protocol` |
| `Effects.dfy` | what each handler leaves behind, in fields of rows and jobs, independently of how `Protocol` computes it |
| `RowOps.dfy`, `History.dfy` | every step of the system as a short sequence of guarded row operations, and the events they add |
| `Lifecycle.dfy`, `QuestionLists.dfy`, `Conversation.dfy`, `Timers.dfy`, `Runs.dfy`, `RunRows.dfy`, `LateSends.dfy`, `Broadcasts.dfy`, `Nudges.dfy`, `ReminderTimes.dfy` | what holds in every run of the system |
| `Scenarios.dfy`, `TwoTeams.dfy` | particular states the system reaches |
| `FrontDoors.dfy`, `Redelivery.dfy` | the day state a member is shown against what the worker does; what a second delivery of a job does |
| `FinalizeRace.dfy` | run completion again, as three database statements with any number of interleaved callers, and reports opened again meanwhile |
| `Reconcile.dfy` | the scheduler registry |
| `Users.dfy` | users, roles, team managers |
| `LikePattern.dfy`, `DirectoryTable.dfy`, `Interpolation.dfy`, `ReportWindows.dfy` | search escaping, paging and bulk sync, the date token, report-card windows |

A *run of the system* (`Protocol.IsRun`) is any finite sequence of stimuli from empty tables: the
clock moves on, a due job is delivered (its acknowledgement may be lost, and then it comes again),
a member writes, a member uses the slash command, a member joins late, an open-run job is queued,
the configuration changes. The theorems named `Run..` hold in every state of every such run.

## Assumptions

- Outside `FinalizeRace` a handler is one atomic step, reads the clock once, and its Slack and queue
  calls succeed, except where the source catches the failure (`Protocol.Net`).
- Every standup has a question, and standups are not deleted (`Protocol.WellConfigured`). Everything
  else about standups, teams and members may change at any time. Only the theorems that name
  `QuestionLists.Steady` ask that a question list is not edited while a report of that standup is
  open.
- api and worker use the same inactivity timeout (README.md:333-339 asks for it).
- A standup's cron was written by `cronFromWeekly`, as the configuration page does
  (apps/web/app/(dashboard)/teams/[id]/standup/page.tsx:44), so its hour and minute are numbers. What
  is said about the instants of a schedule (`Instants.SearchWeek`, `Instants.NextRunInstant`,
  `Runs.SendsAtLocalTime`) asks further for an hour in 0..23 and a minute in 0..59
  (`Instants.Readable`), as packages/shared/src/schedule.ts:11-15 declares them.
- A zone is any pair of functions between instants and local dates that never runs backwards and
  puts a wall-clock time on its own date (`Instants.Regular`); fixed offsets are shown to be such.

## Where the code does not do what its comments say

- `dmEngine.ts:15-16` says a redelivered event never double-advances. Delivered again after it was
  stored, a message answers a second question if and only if two questions were open at first and it
  does not say "skip all" (`DmEngine.RedeliveryConsumes`, `DmEngine.OneReplyAnswersTwo`).
- `sendInstants.ts:47` says null is returned only if the cron has no weekdays. It is returned exactly
  when the cron names no day in 0..6; Sunday written as 7 is such a cron
  (`Instants.SundayAsSevenFindsNothing`).
- `reconcileSchedules.ts:18-19` filters malformed crons. It filters exactly those with fewer than five
  fields (`Reconcile.FilterCountsFields`). The pattern handed to upsertJobScheduler is a cron this
  service can parse if and only if the standup's own cron gave a weekday
  (`Reconcile.PatternParsesExactly`): `0 9 * * MON-FRI` is handed on as `5 0 * * `, with an empty day
  field (`Reconcile.NamedDaysPassTheFilter`), and a single day that is no number as the day NaN
  (`Reconcile.NonNumericDayIsHandedOn`). What the scheduler library does with such a pattern is not
  modelled.
- `runs.ts:9-14` promises one completion for overlapping callers. It holds for callers that only close
  reports (`FinalizeRace.Converges`). When a report is opened again meanwhile, the run can be completed
  over it later if and only if some caller, that of the report itself included, then stands between
  its read of the reports and its update (`FinalizeRace.ReopenSafeExactly`), which happens
  (`FinalizeRace.OverrunIsReachable`).
- `retrigger.ts:57-66` opens the report and sets the run running in two statements. If the report is
  closed again between them and its closer meets the run still completed, the run is left running
  with every report closed and nobody to look; that is the only way (`FinalizeRace.StrandsExactly`,
  `FinalizeRace.NeverStranded`), and it happens (`FinalizeRace.StrandingIsReachable`).
- `handleMessage.ts:39-40` calls the open report a member is answering unambiguous. The report created
  last is picked, a report started again keeps its creation time, and `/standup` never looks for an
  open one: a member of two teams can be asked one question last and have every reply recorded under
  the other (`TwoTeams.AnswerGoesAstray`). A reply is recorded under a question exactly if that is the
  next one of the report picked (`Conversation.RecordedExactly`). A member has one open report at most,
  the one asked about last, throughout a run if and only if none of theirs is opened while another is
  open (`Conversation.RunFocusedExactly`), and then replies go where they belong
  (`Conversation.ReplyAnswersLastPrompt`).
- `users.ts:34-35` says a person keeps a single row. That holds over a history if and only if no login
  skips the reconciliation although another row has its email, as a known id does and a new id with
  the empty email (`Users.SingleRowExactly`); both happen (`Users.DoublingIsReachable`).
- A completed run may hold an open report. No run ever does if and only if no send-dm is delivered into
  a completed run for a user without a report in it (`LateSends.RunTidyExactly`); that happens when the
  reports opened first are closed before a later send is due (`LateSends.LateSendIsReachable`).

## Model

| member | source | states |
|---|---|---|
| DmEngine.DialogueOutcome | packages/shared/src/dmEngine.ts:18-42 | For every list of replies without "skip all": reply i answers question i, the report finishes exactly when every question has a reply, later replies change nothing |
| DmEngine.RecognisedInAnyCase | packages/shared/src/dmEngine.ts:20-33 | "skip", "skip all" and every other lower-case word are recognised exactly when the text, white space at its ends aside, spells them in any case |
| DmEngine.SkipSpelled | packages/shared/src/dmEngine.ts:20-33 | " Skip ALL" abandons and "SKIP" skips |
| DmEngine.SkipAllAbandons | packages/shared/src/dmEngine.ts:28-29 | "skip all" as any reply to an open question abandons the whole dialogue |
| DmEngine.RedeliveryConsumes | packages/shared/src/dmEngine.ts:13-42 | A message delivered again after it was stored changes the answers again if and only if two questions were open at first and it does not say "skip all"; it is then recorded under both |
| DmEngine.OneReplyAnswersTwo | packages/shared/src/dmEngine.ts:13-42 | One "ok" delivered twice answers two questions |
| Cron.ParseWeeklyCron | packages/shared/src/schedule.ts:22-40 | The nested pushing loops compute the parse the round-trip theorems are about, errors included |
| Cron.RoundTrip | packages/shared/src/schedule.ts:17-40 | Parsing a printed schedule gives it back with weekdays sorted and distinct if it names a weekday, and fails if it names none |
| Cron.PrintedForm | packages/shared/src/schedule.ts:17-20 | A printed cron is minute, hour, two stars and the weekdays |
| Cron.PrintedExample | packages/shared/src/schedule.ts:17-20 | Monday and Wednesday at half past nine is "30 9 * * 1,3" |
| Cron.ParseStable | packages/shared/src/schedule.ts:22-40 | Whatever text was parsed, print-then-parse returns the same schedule exactly when it has a weekday |
| Cron.TokenMeaning | packages/shared/src/schedule.ts:26-30 | A token `a-b` names exactly the numbers from a to b, and none if an end is no number |
| Cron.SortedDistinctCanonical | packages/shared/src/schedule.ts:18 | The weekday list depends only on the set of days named, and a sorted one is left alone |
| Cron.TickParses | packages/shared/src/sendInstants.ts:62-67 | The derived tick cron parses to 00:05 on the standup's own weekdays if and only if it has any; otherwise its day field is empty and it does not parse |
| Instants.SearchWeek | packages/shared/src/sendInstants.ts:54-59 | The eight-candidate loop returns the least slot strictly after the start, for any regular zone, and nothing exactly when no day in 0..6 is named |
| Instants.NextRunInstant | packages/shared/src/sendInstants.ts:44-60 | The same from the cron text, with the parse error passed on and no weekday giving none at once |
| Instants.FixedSlots | packages/shared/src/sendInstants.ts:35-42 | With a fixed offset the slots are exactly the configured hours and minutes after midnight of the active dates |
| Instants.DayOfWeek | packages/shared/src/sendInstants.ts:4-7 | A date is active exactly if its day number, Sunday 0 and 1970-01-01 a Thursday, is among the weekdays |
| Instants.SundayAsSevenFindsNothing | packages/shared/src/sendInstants.ts:44-60 | A cron with the weekday 7 has a weekday and never fires |
| Instants.TickPassesWeekdayGuard | packages/shared/src/sendInstants.ts:16-22 | The weekday guard accepts the tick at 00:05 local time exactly on the days of its tick cron |
| Reminders.ComputeReminderDelays | packages/shared/src/reminders.ts:5-10 | The counting loop yields the reminder series |
| Reminders.DelaysAreMultiples | packages/shared/src/reminders.ts:1-10 | The series is exactly the positive multiples of the interval below the timeout, in order |
| RowOps.StepRefines | apps/worker/src/processor.ts:32-53 | Every step, from every state of a run, is a sequence of guarded row operations with the same outcome |
| Effects.OpenRunExactly | apps/worker/src/openRun.ts:75-100 | open-run does nothing unless the standup is active with a team and forced or on its weekday; then the run is ensured, and exactly if it was created or forced the team is sent to |
| Effects.CreateEffects | apps/worker/src/openRun.ts:23-63 | A created run is running, its roster the reporting members of the team, its header posted and stored exactly if there is a channel and Slack takes it |
| Effects.FanOutJobs | apps/worker/src/openRun.ts:108-131 | A fan-out adds exactly one send for each member of the team that can report and is not excluded, due at once or at the member's local time |
| Effects.FanOutReaches | apps/worker/src/openRun.ts:114-119 | So a send to a user is added if and only if some such member is that user |
| Effects.SendDmExactly | apps/worker/src/sendDm.ts:13-77 | Done already, failing, or a fresh report asked its first question, with one timer and one reminder per multiple of the interval below the timeout |
| Effects.RetriggerExactly | apps/worker/src/retrigger.ts:29-79 | Exactly for an absent or timed-out report of an active standup: run ensured and set running, report afresh, timer, reminders, and the rest of the team if this call created the run |
| Effects.MessageAborts | apps/api/src/handleMessage.ts:67-83 | "skip all" times the report out, keeps its answers, and completes the run if it was the last one open |
| Effects.MessageAsksNext | apps/api/src/handleMessage.ts:84-92 | Another reply stores the answer, moves the deadline on and asks the next question |
| Effects.MessageCompletes | apps/api/src/handleMessage.ts:93-235 | The last reply completes the report, posts it exactly if the team has a channel and the member's own post or the bot's works, as the member exactly if that works, and stores the reference exactly if it could be had |
| Effects.TimerGivesUp | apps/worker/src/timeoutReport.ts:34-39 | A timer that finds its report overdue times it out and completes the run if it was the last one open |
| Effects.ReminderExactly | apps/worker/src/remindReport.ts:15-39 | A reminder is posted exactly for an open report |
| Lifecycle.StepMoves | apps/api/src/handleMessage.ts:60-112 | One step moves each report at most one stage: next answer, last answer, given up, or started again from none out of timed_out; an answer is recorded under the question at its position in the list in force |
| Lifecycle.ClosedInForce | packages/shared/src/dmEngine.ts:18-42 | In every run of the system a report that is not open was closed by a step with the answers it has: one per question of the list in force then if it is completed, those it had if it timed out |
| QuestionLists.RunInStep | packages/shared/src/dmEngine.ts:18-42 | In every run of the system without an edit of an open report's list, the answers of an open report match the leading questions by id and text, and a question is left |
| QuestionLists.ClosedInStep | packages/shared/src/dmEngine.ts:18-42 | In every such run a closed report's answers were, in order, those of the list in force when it was closed, one per question if it is completed, fewer if it timed out |
| Lifecycle.CompletedIsFinal | apps/worker/src/retrigger.ts:39-45 | In every run of the system the row of a completed report never changes again |
| Conversation.RunAttentive | apps/api/src/handleMessage.ts:80-87 | In every run of the system without an edit of an open report's list, each open report waits for the answer to the question last asked for it |
| Conversation.RecordedExactly | apps/api/src/handleMessage.ts:34-92 | A message of a user is recorded under a question if and only if it does not say "skip all" and the question is the next one of their open report created last |
| Conversation.StepFocusedExactly | apps/worker/src/retrigger.ts:39-63 | Where a member has one open report at most, the one they were asked about last, a step keeps it so exactly unless it opens one while another of theirs is open |
| Conversation.RunFocusedExactly | apps/api/src/handleMessage.ts:39-49 | In every run of the system that was always so if and only if no report of the member was opened while another of theirs was open |
| Conversation.ReplyAnswersLastPrompt | apps/api/src/handleMessage.ts:34-92 | In every such run without an edit of an open report's list, a reply other than "skip all" is recorded under the question the member was asked last, over all their reports |
| TwoTeams.RestartIsNotPicked | apps/worker/src/retrigger.ts:57-63 | A report started again beside an open one created later is asked about last and not the one picked |
| TwoTeams.AnswerGoesAstray | apps/api/src/handleCommand.ts:58-85 | The system reaches a state in which a member is asked for one team last and every reply is recorded for the other |
| Timers.RunTimed | apps/worker/src/timeoutReport.ts:9-40 | In every run of the system each open report has a timer queued no later than its deadline, the deadline is its last activity plus the timeout, and no report ever timed out sooner |
| Timers.NeverLost | apps/worker/src/timeoutReport.ts:24-39 | An open report past its deadline has a due timer, whose delivery times it out |
| Timers.NoneOutlivesItsDeadline | apps/worker/src/timeoutReport.ts:26-40 | If the clock never passes a queued timer, no report is open after its deadline |
| Timers.MovesOnExactly | apps/worker/src/timeoutReport.ts:26-32 | The handler leaves an open report alone exactly when its deadline lies ahead, and then queues the timer for that deadline |
| Timers.ChainFollowsReplies | apps/worker/src/timeoutReport.ts:26-32 | During one opening a timer chain is requeued at most once more than replies were accepted |
| Timers.ChainEnds | apps/worker/src/timeoutReport.ts:26-32 | Where the question list is not edited meanwhile, at most once per question still open |
| Runs.RunSettled | packages/db/src/runs.ts:9-34 | In every run of the system a run with a report and no open one is completed, and finalize returned true exactly once more than the run was reopened, or as often if it is not completed now |
| Runs.RunRostered | apps/worker/src/openRun.ts:11-64 | In every run of the system a run is created and announced at most once, and everyone who could report then has a report or a queued send-dm |
| Runs.BatchExact | apps/worker/src/openRun.ts:108-131 | A fan-out queues a send for a user if and only if they are on the roster and not excluded |
| Runs.LateJoinCovers | apps/web/lib/late-join.ts:13-37 | A reporter saved while today's run of an active standup is open ends up with a report or a queued send-dm; in every other case nothing changes |
| RunRows.RunRowsTrue | apps/worker/src/openRun.ts:33-60 | In every run of the system the header references stored in run rows are exactly those posted; a completed run has a completion time, none lying ahead or written without finalize having returned true |
| Runs.TickOpensRun | apps/worker/src/openRun.ts:75-100 | A tick opens the run and reaches the whole roster exactly if there is no run yet and it is an active weekday of an active standup with a team; any other tick changes nothing |
| Runs.SendsAtLocalTime | apps/worker/src/openRun.ts:119-129 | A send goes out at once when forced or late, and otherwise exactly at the configured hour and minute on the member's own clock on the run's date |
| LateSends.StepTidyExactly | apps/worker/src/sendDm.ts:59-70 | Where no completed run has an open report, a step keeps it so exactly unless it delivers a send-dm into a completed run for a user without a report |
| LateSends.RunTidyExactly | apps/worker/src/sendDm.ts:59-70 | In every run of the system no completed run ever had an open report if and only if no such delivery happened |
| LateSends.LateSendIsReachable | apps/worker/src/sendDm.ts:59-70 | For every timeout the system reaches a state with an open report in a completed run |
| Broadcasts.RunPosted | apps/api/src/handleMessage.ts:163-211 | In every run of the system a report gets at most one channel post, only once completed; a stored reference names that very post and how it went out; references are never reused |
| Broadcasts.CompletedIsPosted | apps/api/src/handleMessage.ts:93-235 | In every run of the system a completed report was completed by a message of its user, and has a channel post exactly if at that step its team had a channel and one of the two ways worked |
| Nudges.NudgesBounded | apps/worker/src/remindReport.ts:15-39 | In every run of the system the reminders posted for a report exceed those its openings queued by no more than the reminders delivered without acknowledgement |
| Nudges.NudgesPerOpening | packages/shared/src/reminders.ts:1-10 | With standups keeping a minimum interval, the reminders posted for a report are at most its openings times the interval multiples below the timeout, and the unacknowledged deliveries |
| ReminderTimes.NeverSooner | apps/worker/src/queue.ts:45-57 | In every run of the system each reminder posted was set by an earlier opening of its report for a multiple of that opening's interval, and comes no sooner than that |
| Redelivery.SecondDeliveryIsIdle | apps/worker/src/processor.ts:32-53 | A job delivered again right after its handler finished changes nothing, exactly unless it is a reminder of an open report, an open report's timer before its deadline, or a forced open with somebody on the roster |
| FrontDoors.RetriggerAgrees | apps/api/src/standupState.ts:50-70 | The worker starts a fresh report with an armed timer if and only if the member's day state is pending; otherwise the job changes nothing |
| FrontDoors.CommandStarts | apps/api/src/handleCommand.ts:58-85 | "start" while pending queues a job whose delivery leaves the member with a fresh open report |
| FrontDoors.KeywordStarts | apps/api/src/handleMessage.ts:237-274 | A restart keyword without an open report starts the report through the worker if the day state is pending, and does nothing otherwise |
| FrontDoors.KeywordNeverMeetsInProgress | apps/api/src/handleMessage.ts:243-274 | The keyword path is only reached without an open report, so its in-progress case never arises |
| FrontDoors.DayStateMeans | apps/api/src/standupState.ts:23-71 | Unknown, no standup, paused, completed, in progress with the answers so far, or pending, exactly as the rows of the member's team's standup say |
| FrontDoors.CommandWords | apps/api/src/handleCommand.ts:20-85 | Nothing or "start", in any case, starts; "status" asks; any other text queues nothing |
| FrontDoors.KeywordWords | apps/api/src/handleMessage.ts:237-274 | "redo", "restart", "start" and "standup", in any case, are the keywords; any other text queues nothing |
| Service.Backend.FinalizeRunIfDone | packages/db/src/runs.ts:15-34 | The three statements in sequence complete the run, and say so, exactly when it was open and all its reports were terminal |
| Service.Backend.TimeoutReport | apps/worker/src/timeoutReport.ts:15-40 | The handler does to the whole state what the protocol says |
| Service.Backend.EnqueueReminders | apps/worker/src/queue.ts:45-57 | One reminder job per delay, and nothing else (when they are due: Effects.SendDmExactly) |
| Service.Backend.SendDm | apps/worker/src/sendDm.ts:13-77 | Short-circuit, both throwing branches, insert, timer and reminders, as the protocol says |
| Service.Backend.EnsureRunOpen | apps/worker/src/openRun.ts:16-64 | Inserts the day's run only if absent, says whether this call created it, posts the header best effort |
| Service.Backend.FanOutSends | apps/worker/src/openRun.ts:108-131 | The member loop queues exactly the sends of the fan-out, and counts them (who is sent to and when: Effects.FanOutJobs) |
| Service.Backend.OpenRun | apps/worker/src/openRun.ts:75-100 | Guards, forced and unforced, then the fan-out, as the protocol says |
| Service.Backend.Retrigger | apps/worker/src/retrigger.ts:29-79 | Reopens only an absent or timed_out report, sets the run running, arms the timer, recovers the team when it created the run |
| Service.Backend.UpsertReport | apps/worker/src/retrigger.ts:57-63 | Insert or conflict update: fresh answers and deadline, creation time and post reference kept |
| Service.Backend.RemindReport | apps/worker/src/remindReport.ts:15-39 | Posts only for an open report |
| Service.Backend.GetMemberDayState | apps/api/src/standupState.ts:23-71 | The chain of lookups computes the day state the front-door theorems are about |
| Service.Backend.HandleCommand | apps/api/src/handleCommand.ts:58-85 | Queues a retrigger only for "start" while pending |
| Service.Backend.FindOpenReport | apps/api/src/handleMessage.ts:39-47 | The query returns an in_progress report of the user that none was created after, or none if there is none |
| Service.Backend.MaybeRetrigger | apps/api/src/handleMessage.ts:237-274 | Queues a retrigger for a keyword unless unset, paused or completed |
| Service.Backend.BroadcastReport | apps/api/src/handleMessage.ts:126-235 | User post, bot fallback and stored reference, through every caught failure (what is posted when: Effects.MessageCompletes) |
| Service.Backend.HandleMessage | apps/api/src/handleMessage.ts:34-114 | The reply-driven transitions, as the protocol says, on the report found |
| Service.Backend.EnqueueLateJoinIfOpen | apps/web/lib/late-join.ts:13-37 | Queues a send only for a reporter without a report in today's open run |
| Service.Backend.Process | apps/worker/src/processor.ts:27-54 | Routes a job to its handler: one delivery step of the system |
| FinalizeRace.Converges | packages/db/src/runs.ts:9-34 | For any number of callers and any interleaving of their statements: never completed over an open report, and once all returned exactly one was told it completed the run |
| FinalizeRace.CallersReturn | packages/db/src/runs.ts:15-34 | Each statement brings its caller nearer to returning and leaves the other callers alone |
| FinalizeRace.Undisturbed | packages/db/src/runs.ts:15-34 | Without interleaving the three statements are the atomic completion used in the protocol |
| FinalizeRace.ReopenSafeExactly | packages/db/src/runs.ts:20-33 | A report may be opened again without any later interleaving completing the run over an open report if and only if no caller stands between its read of the reports and its update |
| FinalizeRace.OpenSafeExactly | apps/worker/src/retrigger.ts:57-66 | The same for retrigger's two statements apart: whatever follows, the run is never left completed over an open report if and only if no caller stood there when the report was opened |
| FinalizeRace.WellTimedIsSafe | packages/db/src/runs.ts:15-34 | With any number of reopenings, each while no caller stands there, the run is never left completed over an open report |
| FinalizeRace.WinnersBalance | packages/db/src/runs.ts:28-33 | In any history, reopenings at any moment included, finalize returned true as often as the run was set running out of completed, and once more if it is completed now |
| FinalizeRace.StrandsExactly | apps/worker/src/retrigger.ts:57-66 | Setting the run running can leave it running for good if and only if every report is closed by then and no caller is about to look |
| FinalizeRace.NeverStranded | packages/db/src/runs.ts:15-34 | In any other history, once all callers have returned and all reports are terminal the run is completed |
| FinalizeRace.AtOnceIsCovered | apps/worker/src/retrigger.ts:57-66 | With retrigger's two statements together, every history is of that kind |
| FinalizeRace.StrandingIsReachable | apps/worker/src/retrigger.ts:57-66 | From the start a run is left running with every report closed and every caller returned |
| FinalizeRace.OverrunIsReachable | packages/db/src/runs.ts:15-34 | From the start a single caller reaches a state in which a reopening of its own report is overrun by its update |
| Reconcile.Queue.ReconcileSchedules | apps/worker/src/reconcileSchedules.ts:9-52 | From any registry, the open-run entries with a key end up exactly those of the well-formed active standups, other schedulers are untouched |
| Reconcile.Queue.ListOpenRuns | apps/worker/src/reconcileSchedules.ts:34-37 | The listing holds every open-run entry with a key, and only those |
| Reconcile.Converges | apps/worker/src/reconcile.ts:28-44 | From any registry, entries without a pattern or a zone included, the difference, removed and upserted, makes the registry match the standups |
| Reconcile.SecondIsIdle | apps/worker/src/reconcileSchedules.ts:30-45 | A second reconciliation adds nothing and removes nothing |
| Reconcile.FilterCountsFields | apps/worker/src/reconcileSchedules.ts:18-28 | A standup passes the filter if and only if its cron has at least five fields |
| Reconcile.PatternParsesExactly | apps/worker/src/reconcile.ts:29-33 | The pattern handed to upsertJobScheduler parses if and only if the standup's cron gave a weekday |
| Reconcile.NamedDaysPassTheFilter | apps/worker/src/reconcileSchedules.ts:18-28 | `0 9 * * MON-FRI` passes the filter and is handed on with an empty day field, which does not parse |
| Reconcile.NonNumericDayIsHandedOn | apps/worker/src/reconcileSchedules.ts:18-28 | A single day that is no number passes the filter and is handed on as NaN |
| Users.NeverLockedOut | apps/web/lib/users.ts:45-100 | After any logins and role changes the users, if any, include an admin, and every team manager is a user |
| Users.AdminForGood | apps/web/lib/users.ts:41-43 | Once someone logged in there is an admin at every later point |
| Users.LoginReconciles | apps/web/lib/users.ts:60-71 | A new id with a known email takes over as the one row with it, with the highest role held under it, touching nobody else |
| Users.FirstUserIsAdmin | apps/web/lib/users.ts:73-80 | Someone unknown becomes an admin exactly when the table was empty, a viewer otherwise, and nothing else changes |
| Users.KnownIdKeepsRole | apps/web/lib/users.ts:49-58 | The login of a known id keeps its role, refreshes its email, and changes nothing else |
| Users.ReconcilingKeepsManagers | packages/db/src/schema.ts:101-106 | A login drops the team rows of the rows it replaces, and no others |
| Users.RoleChangeTakes | apps/web/lib/users.ts:94-100 | A role change sets that one role, except for the demotion of the last admin, which changes nothing |
| Users.RolesChangeByRequest | apps/web/lib/users.ts:41-43 | Over every history the role of an id differs after an action only if it was a role change for that id, to that role |
| Users.LoginOnePerEmail | apps/web/lib/users.ts:45-71 | Where no two rows share an email, a login keeps it so exactly unless another row has its email and the id is known or the email empty |
| Users.SingleRowExactly | apps/web/lib/users.ts:34-43 | Over every history: there was always one row per email if and only if no login skipped a reconciliation that way |
| Users.DoublingIsReachable | apps/web/lib/users.ts:49-61 | Both ways of ending with two rows for one email, from the empty table |
| Users.ManagerRoundTrip | apps/web/lib/users.ts:125-133 | Granting a team twice is granting it once, and withdrawing it restores the table if and only if it was not granted before |
| Users.Directory.ProvisionUserOnLogin | apps/web/lib/users.ts:45-92 | The transaction is the login step (known id: Users.KnownIdKeepsRole; known email: Users.LoginReconciles; neither: Users.FirstUserIsAdmin) |
| Users.Directory.ReduceRole | apps/web/lib/users.ts:67 | The reduce finds the highest role |
| Users.Directory.ChangeUserRole | apps/web/lib/users.ts:94-100 | Refuses exactly the demotion of the last admin, changing nothing then |
| Users.Directory.AddTeamManager | apps/web/lib/users.ts:125-127 | Adds a manager row for an existing user, once; an unknown user is refused by the foreign key |
| Users.Directory.RemoveTeamManager | apps/web/lib/users.ts:129-133 | Afterwards that row is gone, and every other manager row and every user is as it was |
| LikePattern.SearchIsSubstring | packages/db/src/directory.ts:96-101 | For all texts: the escaped pattern matches if and only if the query is a contiguous part of the text |
| LikePattern.UnderscoreStandsForAny | packages/db/src/directory.ts:96-101 | Unescaped, the query "_" would match every text but the empty one; escaped, exactly those with an underscore |
| DirectoryTable.PagesAreTheList | packages/db/src/directory.ts:76-109 | Following nextOffset with any requested limit ends, and the pages joined are the list, all but the last full |
| DirectoryTable.PageMeaning | packages/db/src/directory.ts:76-109 | A page holds the rows from its offset on; a next offset is given exactly if rows are left; a negative offset is the start |
| DirectoryTable.ClampMeaning | packages/db/src/directory.ts:81-84 | Ten rows by default, at least one and at most fifty |
| DirectoryTable.NamedMeaning | packages/db/src/directory.ts:27-28 | Exactly the members with an id are written, each as often as listed |
| DirectoryTable.Table.UpsertDirectoryUsers | packages/db/src/directory.ts:26-63 | The chunked sync equals upserting one by one; it fails if and only if some chunk names a row twice, at the first such chunk, keeping the chunks before |
| DirectoryTable.Table.InsertChunk | packages/db/src/directory.ts:45-60 | One statement writes all its rows, or none if it names one twice |
| Interpolation.NoTokenLeft | packages/shared/src/dates.ts:13-22 | With a replacement that has a space and no braces, the filled text holds no token, not even across seams |
| Interpolation.InterpolateOnce | packages/shared/src/dates.ts:13-22 | For both replacements in use: interpolating again changes nothing |
| Interpolation.InterpolateMeaning | packages/shared/src/dates.ts:1-22 | A text without a token is left alone; otherwise the text before the first token is kept and the date, or its stand-in, follows |
| Interpolation.FillsFirst | packages/shared/src/dates.ts:21 | Text before the first token kept, token replaced, the rest filled the same way |
| Interpolation.DateExample | packages/shared/src/dates.ts:1-11 | "Friday, Jun 12" |
| Interpolation.FillWithToken | packages/shared/src/dates.ts:21 | Splitting at the token loses nothing: joining with the token gives the text back |
| ReportWindows.LastReportDateBefore | packages/db/src/reports.ts:7-23 | The latest completed report of the member strictly before an instant, none exactly if there is none |
| ReportWindows.ListMemberClosed | packages/db/src/integrations.ts:149-166 | Exactly the member's completed issues in the half-open window |
| ReportWindows.WindowMeetsPrevious | apps/web/lib/reports.ts:92-97 | A card's window begins where the previous ends if and only if its report was opened after the previous one was in, or before any was in and reported just a day after the previous one |
| ReportWindows.FirstWindow | apps/web/lib/reports.ts:96-97 | The first card looks back a day |
| ReportWindows.TiledExactly | apps/web/lib/reports.ts:92-99 | Every instant between the first and the last report lies on exactly one card if and only if each report was opened after the previous one was in, or before any was in and reported just a day after the previous one (at most a day for the second card) |
| ReportWindows.IssueOnOneCard | packages/db/src/integrations.ts:153-166 | Then every issue closed between the first and the last report is on exactly one card |

## Left out

- Slack transport, Block Kit layout, permalinks, display names, thread references, the text of replies: a post is an event with a fresh reference.
- The connect nudges, the reminder table rows and the "Reported: n out of total" header refresh: they decide nothing.
- A handler that stops half-way (a queue or database error between two statements) and BullMQ's attempt limit and backoff: handlers are atomic outside `FinalizeRace`.
- A forced open-run of a standup whose cron does not parse: the run row would be created before the fan-out throws.
- Runs.RunRostered: rosters are taken when the run row is created; members added later come in through the late-join job.
- Users.Directory.ChangeUserRole: the count and the update are one step here, two statements in the source.
- Reconcile.Queue.ReconcileSchedules: standup ids are taken as unique, not empty, and not the key of a scheduler of another kind, as uuid primary keys are.
- Cron.RoundTrip: numbers are digit strings, the empty string (0) or NaN; the other spellings JavaScript's Number accepts (signs, fractions, exponents, hexadecimal) read as NaN here, and NaN sorts first where the source's order is left to the engine.
- DmEngine.DialogueOutcome: toLowerCase is modelled for ASCII letters only.
- DmEngine.RecognisedInAnyCase: the same; the Kelvin sign, which JavaScript lower-cases to a k, is no letter here.
- Real time-zone data and clock changes inside a day: `Instants.Regular` says what is asked of a zone.
- The search ranking by similarity and the query's own trim and lower-casing: paging works over a given order, escaping over a given query.
- ReportWindows.ListMemberClosed: how a member's email is looked up and the order of the list.
- The broadcast's own issue window, which is computed from the row as it was before the update.
- Authentication, encryption, OAuth, webhooks, health checks, the web pages.
