/**
 The question-and-answer reducer behind a standup conversation
 (packages/shared/src/dmEngine.ts).
 */
module DmEngine {
  import opened Text

  datatype Question = Question(id: string, text: string)

  datatype Answer = Answer(questionId: string, questionText: string, answer: string)

  datatype Advance =
    | Next(answers: seq<Answer>, question: Question)
    | Complete(answers: seq<Answer>)
    | Abort
    | Noop

  const SKIP := "skip"
  const SKIP_ALL := "skip all"
  const SKIPPED := "(skipped)"

  function Normalized(message: string): string {
    Lower(Trim(message))
  }

  /** A word written in lower-case letters is recognised in any case, white space around it aside. */
  lemma RecognisedInAnyCase(text: string, word: string)
    requires forall n :: 0 <= n < |word| ==> !('A' <= word[n] <= 'Z')
    ensures Normalized(text) == word <==> Spells(Trim(text), word)
  {
    LowerSpells(Trim(text), word);
  }

  /** For instance " Skip ALL" abandons and "SKIP" skips. */
  lemma SkipSpelled()
    ensures Normalized(" Skip ALL") == "skip all" && Normalized("SKIP") == "skip"
  {
    assert TrimStart(" Skip ALL") == "Skip ALL" by {
      assert " Skip ALL"[1..] == "Skip ALL" && !IsSpace("Skip ALL"[0]);
    }
    assert TrimEnd("Skip ALL") == "Skip ALL" by {
      assert !IsSpace("Skip ALL"[7]);
    }
    assert Trim("SKIP") == "SKIP" by {
      assert !IsSpace("SKIP"[0]) && !IsSpace("SKIP"[3]);
    }
    RecognisedInAnyCase(" Skip ALL", "skip all");
    RecognisedInAnyCase("SKIP", "skip");
  }

  function AdvanceReport(questions: seq<Question>, answers: seq<Answer>, message: string): Advance {
    if |answers| >= |questions| then Noop
    else if Normalized(message) == SKIP_ALL then Abort
    else
      var current := questions[|answers|];
      var text := if Normalized(message) == SKIP then SKIPPED else Trim(message);
      var next := answers + [Answer(current.id, current.text, text)];
      if |next| >= |questions| then Complete(next) else Next(next, questions[|next|])
  }

  /** The answers given so far belong, in order, to the leading questions. */
  predicate Follows(questions: seq<Question>, answers: seq<Answer>) {
    && |answers| <= |questions|
    && forall i :: 0 <= i < |answers| ==>
         answers[i].questionId == questions[i].id && answers[i].questionText == questions[i].text
  }

  /** The text recorded for one reply. */
  function Recorded(message: string): string {
    if Normalized(message) == SKIP then SKIPPED else Trim(message)
  }

  datatype Dialogue = Asking(answers: seq<Answer>) | Finished(answers: seq<Answer>) | Abandoned

  /** Feeds a whole list of replies to the reducer, starting from an empty report. */
  function Converse(questions: seq<Question>, messages: seq<string>): Dialogue {
    if messages == [] then Asking([])
    else
      match Converse(questions, messages[..|messages| - 1])
      case Asking(answers) =>
        (match AdvanceReport(questions, answers, messages[|messages| - 1])
         case Next(more, _) => Asking(more)
         case Complete(all) => Finished(all)
         case Abort => Abandoned
         case Noop => Asking(answers))
      case Finished(all) => Finished(all)
      case Abandoned => Abandoned
  }

  /**
   A dialogue is decided by its first |questions| replies: with no "skip all" among them, reply i
   answers question i, the report is finished exactly when every question has its reply, and
   later replies change nothing.
   */
  lemma {:induction false} DialogueOutcome(questions: seq<Question>, messages: seq<string>)
    requires questions != []
    requires forall i :: 0 <= i < |messages| && i < |questions| ==> Normalized(messages[i]) != SKIP_ALL
    ensures Converse(questions, messages) ==
            (var n := if |messages| < |questions| then |messages| else |questions|;
             var answers := seq(n, i requires 0 <= i < n =>
                                  Answer(questions[i].id, questions[i].text, Recorded(messages[i])));
             if |messages| < |questions| then Asking(answers) else Finished(answers))
  {
    if messages != [] {
      DialogueOutcome(questions, messages[..|messages| - 1]);
      var before := messages[..|messages| - 1];
      if |before| < |questions| {
        var n := |before|;
        var answers := seq(n, i requires 0 <= i < n =>
                             Answer(questions[i].id, questions[i].text, Recorded(before[i])));
        assert Converse(questions, before) == Asking(answers);
        assert seq(n + 1, i requires 0 <= i < n + 1 =>
                     Answer(questions[i].id, questions[i].text, Recorded(messages[i])))
            == answers + [Answer(questions[n].id, questions[n].text, Recorded(messages[n]))];
      } else {
        var n := |questions|;
        assert seq(n, i requires 0 <= i < n => Answer(questions[i].id, questions[i].text, Recorded(messages[i])))
            == seq(n, i requires 0 <= i < n => Answer(questions[i].id, questions[i].text, Recorded(before[i])));
      }
    }
  }

  /** "skip all" as any of the first |questions| replies abandons the report for good. */
  lemma {:induction false} SkipAllAbandons(questions: seq<Question>, messages: seq<string>, at: nat)
    requires at < |messages| && at < |questions|
    requires Normalized(messages[at]) == SKIP_ALL
    requires forall i :: 0 <= i < at ==> Normalized(messages[i]) != SKIP_ALL
    ensures Converse(questions, messages) == Abandoned
  {
    var before := messages[..|messages| - 1];
    if |before| == at {
      DialogueOutcome(questions, before);
    } else {
      SkipAllAbandons(questions, before, at);
    }
  }

  /** What is stored once the reducer's decision has been persisted. */
  function Persisted(answers: seq<Answer>, advance: Advance): seq<Answer> {
    match advance
    case Next(more, _) => more
    case Complete(all) => all
    case Abort => answers
    case Noop => answers
  }

  /** The answers after the same message was delivered and stored, and delivered and stored again. */
  function Twice(questions: seq<Question>, answers: seq<Answer>, message: string): seq<Answer> {
    var once := Once(questions, answers, message);
    Persisted(once, AdvanceReport(questions, once, message))
  }

  function Once(questions: seq<Question>, answers: seq<Answer>, message: string): seq<Answer> {
    Persisted(answers, AdvanceReport(questions, answers, message))
  }

  /**
   A message delivered again, after its first delivery was stored, is taken as the answer to
   another question if and only if two questions were open at first and it does not say "skip all".
   */
  lemma RedeliveryConsumes(questions: seq<Question>, answers: seq<Answer>, message: string)
    ensures Twice(questions, answers, message) != Once(questions, answers, message)
       <==> |answers| + 1 < |questions| && Normalized(message) != SKIP_ALL
    ensures Twice(questions, answers, message) != Once(questions, answers, message) ==>
              Twice(questions, answers, message) == answers + [
                Answer(questions[|answers|].id, questions[|answers|].text, Recorded(message)),
                Answer(questions[|answers| + 1].id, questions[|answers| + 1].text, Recorded(message))]
  {
    if |answers| + 1 < |questions| && Normalized(message) != SKIP_ALL {
      var q := questions[|answers|];
      assert Once(questions, answers, message) == answers + [Answer(q.id, q.text, Recorded(message))];
    }
  }

  /** Two open questions and one "ok", delivered twice: both are answered. */
  lemma OneReplyAnswersTwo()
    ensures Twice([Question("a", "Done?"), Question("b", "Next?")], [], "ok")
         == [Answer("a", "Done?", "ok"), Answer("b", "Next?", "ok")]
  {
    assert Trim("ok") == "ok" by {
      assert TrimStart("ok") == "ok" && !IsSpace("ok"[1]);
    }
    assert |Normalized("ok")| == 2;
    RedeliveryConsumes([Question("a", "Done?"), Question("b", "Next?")], [], "ok");
    assert Recorded("ok") == "ok";
  }
}
