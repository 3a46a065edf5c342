/**
 Which question a reply is recorded under: the open question of the report the handler picks, which
 need not be the question the member was asked last.
 */
module Conversation {
  import opened Wrappers
  import opened DmEngine
  import opened Protocol
  import opened RowOps
  import opened History
  import opened Lifecycle
  import opened QuestionLists

  // ---- The question a reply is recorded under ----

  /** A message of the user, handled with p as their open report, adds an answer to the question q. */
  ghost predicate RecordsUnder(s: State, user: UserId, text: string, p: Key, net: Net, q: Question)
    requires IsLatestOpen(s, user, Some(p))
  {
    var t := HandleMessage(s, user, text, Some(p), net);
    p in t.reports && t.reports[p].answers == s.reports[p].answers + [Answer(q.id, q.text, Recorded(text))]
  }

  /**
   A reply is recorded under a question exactly if it does not say "skip all" and that question is
   the one at the next position in the list of the report picked.
   */
  lemma RecordedExactly(s: State, user: UserId, text: string, p: Key, net: Net, q: Question)
    requires Known(s) && IsLatestOpen(s, user, Some(p))
    ensures RecordsUnder(s, user, text, p, net, q) <==>
              && Normalized(text) != SKIP_ALL && |s.reports[p].answers| < |Questions(s, p)|
              && q == Questions(s, p)[|s.reports[p].answers|]
  {
    ReplyRefines(s, p, text, net);
    AdvanceExtends(Questions(s, p), s.reports[p].answers, text);
    var answers := s.reports[p].answers;
    match AdvanceReport(Questions(s, p), answers, text)
    case Noop =>
    case Abort => GiveUpFrame(s, p, ReportAborted(p, s.now));
    case Next(more, _) => LastOf(answers, more, Answer(q.id, q.text, Recorded(text)));
    case Complete(all) =>
      FinishFrame(s, p, all, net);
      LastOf(answers, all, Answer(q.id, q.text, Recorded(text)));
  }

  lemma LastOf(answers: seq<Answer>, more: seq<Answer>, last: Answer)
    requires OneMore(answers, more)
    ensures more == answers + [last] <==> more[|answers|] == last
  {
    assert more == answers + [more[|answers|]];
  }

  // ---- One report ----

  /** The last question put to the member for this report. */
  ghost function LastAsked(log: seq<Event>, k: Key): Option<Question> {
    if log == [] then None
    else
      var e := log[|log| - 1];
      if e.Asked? && e.key == k then Some(e.question) else LastAsked(log[..|log| - 1], k)
  }

  lemma {:induction false} LastAskedKept(log: seq<Event>, more: seq<Event>, k: Key)
    requires log <= more
    requires forall i :: |log| <= i < |more| ==> !(more[i].Asked? && more[i].key == k)
    ensures LastAsked(more, k) == LastAsked(log, k)
    decreases |more|
  {
    if |more| > |log| {
      LastAskedKept(log, more[..|more| - 1], k);
    } else {
      assert more == log;
    }
  }

  /** Every open report waits for the answer to the question last asked for it. */
  ghost predicate Attentive(s: State) {
    InStep(s) && forall k :: Open(s, k) ==> LastAsked(s.log, k) == Some(NextQuestion(s, k))
  }

  ghost function NextQuestion(s: State, k: Key): Question
    requires InStep(s) && Open(s, k)
  {
    assert Fits(Questions(s, k), s.reports[k]);
    Questions(s, k)[|s.reports[k].answers|]
  }

  /** The operation asks something for this report. */
  predicate Asks(op: Op, k: Key) {
    (op.OpenOp? || op.AcceptOp?) && op.key == k
  }

  lemma OpAsks(s: State, op: Op)
    requires Known(s) && Can(s, op) && (op.OpenOp? || op.AcceptOp?)
    ensures LastAsked(Do(s, op).log, op.key)
         == Some(if op.OpenOp? then FirstQuestion(s, op.key) else Questions(s, op.key)[|op.answers|])
  {
  }

  lemma OpSilent(s: State, op: Op, k: Key)
    requires Known(s) && Can(s, op) && !Asks(op, k)
    ensures LastAsked(Do(s, op).log, k) == LastAsked(s.log, k)
  {
    OpSays(s, op);
    var t := Do(s, op);
    forall i | |s.log| <= i < |t.log| ensures !(t.log[i].Asked? && t.log[i].key == k) {
      assert Says(s, op, t.log[i]);
    }
    LastAskedKept(s.log, t.log, k);
  }

  lemma OpAttentive(s: State, op: Op)
    requires Attentive(s) && Can(s, op) && !op.ConfigureOp?
    ensures Attentive(Do(s, op))
  {
    OpInStep(s, op);
    forall k | Open(Do(s, op), k) ensures LastAsked(Do(s, op).log, k) == Some(NextQuestion(Do(s, op), k)) {
      OpAttends(s, op, k);
    }
  }

  lemma OpAttends(s: State, op: Op, k: Key)
    requires Attentive(s) && Can(s, op) && InStep(Do(s, op)) && Open(Do(s, op), k)
    requires Do(s, op).standups == s.standups
    ensures LastAsked(Do(s, op).log, k) == Some(NextQuestion(Do(s, op), k))
  {
    if Asks(op, k) {
      OpAsks(s, op);
      OpEffect(s, op);
    } else {
      OpSilent(s, op, k);
      RowStays(s, op, k);
    }
  }

  lemma RowStays(s: State, op: Op, k: Key)
    requires Known(s) && Can(s, op) && Open(Do(s, op), k) && !Asks(op, k)
    ensures Open(s, k) && Do(s, op).reports[k] == s.reports[k]
  {
    OpEffect(s, op);
  }

  lemma {:induction false} PlanAttentive(s: State, plan: Plan)
    requires Possible(s, plan) && Attentive(s) && !Configures(plan)
    ensures Attentive(Outcome(s, plan))
    decreases plan
  {
    match plan
    case Done =>
    case Then(op, rest) =>
      OpAttentive(s, op);
      PlanAttentive(Do(s, op), rest);
  }

  lemma StepAttentive(s: State, a: Stimulus)
    requires Attentive(s) && Enabled(s, a) && KeepsLists(s, a)
    ensures Attentive(Apply(s, a))
  {
    if a.Configure? {
      StepInStep(s, a);
    } else {
      StepRefines(s, a);
      StepConfigures(s, a);
      PlanAttentive(s, StepPlan(s, a));
    }
  }

  /**
   In every run of the system in which no list is edited under an open report, each open report
   waits for the answer to the question last asked for it.
   */
  lemma {:induction false} RunAttentive(states: seq<State>, acts: seq<Stimulus>, i: nat)
    requires IsRun(states, acts) && i < |states| && Steady(states, acts)
    ensures Attentive(states[i])
  {
    if i > 0 {
      RunAttentive(states, acts, i - 1);
      StepAttentive(states[i - 1], acts[i - 1]);
    }
  }

  // ---- All reports of a member ----

  /** A question put to a member, and the report it was put for. */
  datatype Prompt = Prompt(key: Key, question: Question)

  /** The last question the member was asked, over all their reports. */
  ghost function LastPrompt(log: seq<Event>, user: UserId): Option<Prompt> {
    if log == [] then None
    else
      var e := log[|log| - 1];
      if e.Asked? && e.key.user == user then Some(Prompt(e.key, e.question)) else LastPrompt(log[..|log| - 1], user)
  }

  lemma {:induction false} LastPromptKept(log: seq<Event>, more: seq<Event>, user: UserId)
    requires log <= more
    requires forall i :: |log| <= i < |more| ==> !(more[i].Asked? && more[i].key.user == user)
    ensures LastPrompt(more, user) == LastPrompt(log, user)
    decreases |more|
  {
    if |more| > |log| {
      LastPromptKept(log, more[..|more| - 1], user);
    } else {
      assert more == log;
    }
  }

  lemma {:induction false} PromptAsked(log: seq<Event>, user: UserId)
    ensures LastPrompt(log, user).Some? ==>
              && LastPrompt(log, user).value.key.user == user
              && LastAsked(log, LastPrompt(log, user).value.key) == Some(LastPrompt(log, user).value.question)
  {
    if log != [] {
      PromptAsked(log[..|log| - 1], user);
    }
  }

  /** Each open report of the member is the one they were asked about last; so there is one at most. */
  ghost predicate Focused(s: State, user: UserId) {
    forall k :: Open(s, k) && k.user == user ==>
      LastPrompt(s.log, user).Some? && LastPrompt(s.log, user).value.key == k
  }

  /** Between the states a report of the member was opened while another of theirs was open. */
  ghost predicate OpensBeside(s: State, t: State, user: UserId) {
    exists j, k :: Open(s, j) && j.user == user && !Open(s, k) && Open(t, k) && k.user == user
  }

  lemma OpPrompts(s: State, op: Op)
    requires Known(s) && Can(s, op) && (op.OpenOp? || op.AcceptOp?)
    ensures LastPrompt(Do(s, op).log, op.key.user).Some?
    ensures LastPrompt(Do(s, op).log, op.key.user).value.key == op.key
  {
  }

  lemma OpUnprompted(s: State, op: Op, user: UserId)
    requires Known(s) && Can(s, op) && !((op.OpenOp? || op.AcceptOp?) && op.key.user == user)
    ensures LastPrompt(Do(s, op).log, user) == LastPrompt(s.log, user)
  {
    OpSays(s, op);
    var t := Do(s, op);
    forall i | |s.log| <= i < |t.log| ensures !(t.log[i].Asked? && t.log[i].key.user == user) {
      assert Says(s, op, t.log[i]);
    }
    LastPromptKept(s.log, t.log, user);
  }

  lemma OpFocused(s: State, op: Op, user: UserId)
    requires Known(s) && Can(s, op) && Focused(s, user)
    requires op.OpenOp? && op.key.user == user ==> forall j :: Open(s, j) ==> j.user != user
    ensures Focused(Do(s, op), user)
  {
    forall k | Open(Do(s, op), k) && k.user == user
      ensures LastPrompt(Do(s, op).log, user).Some? && LastPrompt(Do(s, op).log, user).value.key == k
    {
      if (op.OpenOp? || op.AcceptOp?) && op.key.user == user {
        OpPrompts(s, op);
        if k != op.key {
          RowStays(s, op, k);
        }
      } else {
        OpUnprompted(s, op, user);
        RowStays(s, op, k);
      }
    }
  }

  lemma {:induction false} PlanQuiet(s: State, plan: Plan)
    requires Possible(s, plan) && TouchCount(plan) == 0
    ensures Outcome(s, plan).reports == s.reports
    decreases plan
  {
    match plan
    case Done =>
    case Then(op, rest) =>
      OpEffect(s, op);
      PlanQuiet(Do(s, op), rest);
  }

  /** A plan that touches one report at most leaves all others alone. */
  lemma {:induction false} PlanOneRow(s: State, plan: Plan, j: Key, k: Key)
    requires Possible(s, plan) && TouchCount(plan) <= 1 && Open(s, j) && j != k
    requires !Open(s, k) && Open(Outcome(s, plan), k)
    ensures Open(Outcome(s, plan), j)
    decreases plan
  {
    match plan
    case Done => assert false;
    case Then(op, rest) =>
      OpEffect(s, op);
      if Touches(op) {
        PlanQuiet(Do(s, op), rest);
      } else {
        PlanOneRow(Do(s, op), rest, j, k);
      }
  }

  lemma {:induction false} PlanFocused(s: State, plan: Plan, user: UserId)
    requires Possible(s, plan) && TouchCount(plan) <= 1 && Focused(s, user)
    requires !OpensBeside(s, Outcome(s, plan), user)
    ensures Focused(Outcome(s, plan), user)
    decreases plan
  {
    match plan
    case Done =>
    case Then(op, rest) =>
      OpEffect(s, op);
      if Touches(op) {
        PlanQuiet(Do(s, op), rest);
      }
      OpFocused(s, op, user);
      PlanFocused(Do(s, op), rest, user);
  }

  /**
   A step leaves the member with one open report at most, the one they were asked about last,
   exactly unless it opens one while another of theirs is open.
   */
  lemma StepFocusedExactly(s: State, a: Stimulus, user: UserId)
    requires Known(s) && Enabled(s, a) && Focused(s, user)
    ensures Focused(Apply(s, a), user) <==> !OpensBeside(s, Apply(s, a), user)
  {
    StepRefines(s, a);
    StepTouchesOne(s, a);
    if OpensBeside(s, Apply(s, a), user) {
      var j, k :| Open(s, j) && j.user == user && !Open(s, k) && Open(Apply(s, a), k) && k.user == user;
      PlanOneRow(s, StepPlan(s, a), j, k);
    } else {
      PlanFocused(s, StepPlan(s, a), user);
    }
  }

  ghost predicate FocusedUpTo(states: seq<State>, i: nat, user: UserId)
    requires i < |states|
  {
    forall j :: 0 <= j <= i ==> Focused(states[j], user)
  }

  ghost predicate NeverBeside(states: seq<State>, i: nat, user: UserId)
    requires i < |states|
  {
    forall j :: 0 < j <= i ==> !OpensBeside(states[j - 1], states[j], user)
  }

  /**
   In every run of the system: a member always had one open report at most, the one they were asked
   about last, if and only if none of theirs was opened while another was open.
   */
  lemma {:induction false} RunFocusedExactly(states: seq<State>, acts: seq<Stimulus>, i: nat, user: UserId)
    requires IsRun(states, acts) && i < |states|
    ensures FocusedUpTo(states, i, user) <==> NeverBeside(states, i, user)
  {
    if i > 0 {
      RunFocusedExactly(states, acts, i - 1, user);
      assert FocusedUpTo(states, i, user) <==> FocusedUpTo(states, i - 1, user) && Focused(states[i], user);
      assert NeverBeside(states, i, user)
        <==> NeverBeside(states, i - 1, user) && !OpensBeside(states[i - 1], states[i], user);
      if FocusedUpTo(states, i - 1, user) {
        FocusedStepOfRun(states, acts, i, user);
      }
    }
  }

  lemma FocusedStepOfRun(states: seq<State>, acts: seq<Stimulus>, i: nat, user: UserId)
    requires IsRun(states, acts) && 0 < i < |states| && Focused(states[i - 1], user)
    ensures Focused(states[i], user) <==> !OpensBeside(states[i - 1], states[i], user)
  {
    RunKnown(states, acts, i - 1);
    StepFocusedExactly(states[i - 1], acts[i - 1], user);
  }

  /**
   In every run of the system in which no list is edited under an open report and no report of the
   member is opened while another of theirs is open, a reply of the member, other than "skip all",
   is recorded under the question they were asked last.
   */
  lemma ReplyAnswersLastPrompt(states: seq<State>, acts: seq<Stimulus>, i: nat,
                               user: UserId, p: Key, text: string, net: Net)
    requires IsRun(states, acts) && i < |states| && Steady(states, acts) && NeverBeside(states, i, user)
    requires IsLatestOpen(states[i], user, Some(p)) && Normalized(text) != SKIP_ALL
    ensures LastPrompt(states[i].log, user).Some?
    ensures RecordsUnder(states[i], user, text, p, net, LastPrompt(states[i].log, user).value.question)
  {
    var s := states[i];
    RunAttentive(states, acts, i);
    RunFocusedExactly(states, acts, i, user);
    assert Open(s, p) && p.user == user && Focused(s, user);
    PromptAsked(s.log, user);
    assert LastAsked(s.log, p) == Some(NextQuestion(s, p));
    RecordedExactly(s, user, text, p, net, NextQuestion(s, p));
  }
}
