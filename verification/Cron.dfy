/** Printing and parsing of weekly cron expressions (packages/shared/src/schedule.ts). */
module Cron {
  import opened Wrappers
  import opened Text

  /** A JavaScript number as far as this code can meet one: a natural number or NaN. */
  datatype Num = NaN | Nat(n: nat)

  datatype WeeklySchedule = WeeklySchedule(weekdays: seq<Num>, hour: Num, minute: Num)

  datatype CronError = Unparseable

  /** Number(s) for a digit string, the empty string (0) and anything else (NaN). */
  function ToNumber(s: string): Num {
    if forall i :: 0 <= i < |s| ==> IsDigit(s[i]) then Nat(DigitsValue(s)) else NaN
  }

  function PrintNum(x: Num): (s: string)
    ensures IsWord(s) && ',' !in s && '-' !in s
  {
    match x
    case NaN => "NaN"
    case Nat(n) =>
      var s := Digits(n);
      assert forall i :: 0 <= i < |s| ==> IsDigit(s[i]) && !IsSpace(s[i]) && s[i] != ',' && s[i] != '-';
      s
  }

  lemma ReadPrinted(x: Num)
    ensures ToNumber(PrintNum(x)) == x
  {
    match x
    case NaN => assert !IsDigit("NaN"[0]);
    case Nat(n) => ReadDigits(n);
  }

  // ---- [...new Set(weekdays)].sort((a, b) => a - b) ----

  function Rank(x: Num): int {
    match x case NaN => -1 case Nat(n) => n
  }

  /** Ascending without repetition. */
  predicate Ascending(xs: seq<Num>) {
    forall i, j :: 0 <= i < j < |xs| ==> Rank(xs[i]) < Rank(xs[j])
  }

  function InsertOnce(xs: seq<Num>, x: Num): seq<Num> {
    if xs == [] then [x]
    else
      var last := xs[|xs| - 1];
      if x == last then xs
      else if Rank(last) < Rank(x) then xs + [x]
      else InsertOnce(xs[..|xs| - 1], x) + [last]
  }

  lemma {:induction false} InsertOnceSorted(xs: seq<Num>, x: Num)
    requires Ascending(xs)
    ensures forall y :: y in InsertOnce(xs, x) <==> y in xs || y == x
    ensures Ascending(InsertOnce(xs, x))
  {
    if xs != [] {
      var last := xs[|xs| - 1];
      var front := xs[..|xs| - 1];
      assert xs == front + [last];
      if x != last && Rank(last) >= Rank(x) {
        InsertOnceSorted(front, x);
        var rest := InsertOnce(front, x);
        forall i | 0 <= i < |rest| ensures Rank(rest[i]) < Rank(last) {
          assert rest[i] in front || rest[i] == x;
        }
      }
    }
  }

  function SortedDistinct(xs: seq<Num>): (r: seq<Num>)
    ensures Ascending(r)
    ensures forall y :: y in r <==> y in xs
  {
    if xs == [] then []
    else
      var (front, last) := (xs[..|xs| - 1], xs[|xs| - 1]);
      assert xs == front + [last];
      InsertOnceSorted(SortedDistinct(front), last);
      InsertOnce(SortedDistinct(front), last)
  }

  lemma {:induction false} AscendingUnique(xs: seq<Num>, ys: seq<Num>)
    requires Ascending(xs) && Ascending(ys)
    requires forall y :: y in xs <==> y in ys
    ensures xs == ys
  {
    assert ys != [] ==> ys[0] in xs;
    if xs != [] {
      assert xs[0] in ys;
      assert ys[0] in xs;
      assert xs[0] == ys[0];
      assert xs == [xs[0]] + xs[1..] && ys == [ys[0]] + ys[1..];
      forall y ensures y in xs[1..] <==> y in ys[1..] {
        if y in xs[1..] { assert y in xs && y != xs[0]; }
        if y in ys[1..] { assert y in ys && y != ys[0]; }
      }
      AscendingUnique(xs[1..], ys[1..]);
    }
  }

  /** The weekday list depends only on which days were named, not on order or repetition. */
  lemma SortedDistinctCanonical(xs: seq<Num>, ys: seq<Num>)
    requires forall y :: y in xs <==> y in ys
    ensures SortedDistinct(xs) == SortedDistinct(ys)
    ensures Ascending(xs) ==> SortedDistinct(xs) == xs
  {
    AscendingUnique(SortedDistinct(xs), SortedDistinct(ys));
    if Ascending(xs) {
      AscendingUnique(SortedDistinct(xs), xs);
    }
  }

  // ---- Printing ----

  function Printed(weekdays: seq<Num>): seq<string> {
    seq(|weekdays|, i requires 0 <= i < |weekdays| => PrintNum(weekdays[i]))
  }

  function PrintDays(weekdays: seq<Num>): string {
    Join(Printed(weekdays), ",")
  }

  /** A field, a space, and what follows. */
  function Field(word: string, rest: string): string {
    word + " " + rest
  }

  function Fields(words: seq<string>, rest: string): string {
    if words == [] then rest else Field(words[0], Fields(words[1..], rest))
  }

  /** The template `${m} ${h} * * ${dow}`. */
  function Template(m: string, h: string, dow: string): string {
    Fields(TimeFields(m, h), dow)
  }

  function TimeFields(m: string, h: string): seq<string> {
    [m, h, "*", "*"]
  }

  lemma TemplateText(m: string, h: string, dow: string)
    ensures Template(m, h, dow) == m + " " + h + " * * " + dow
  {
    FieldsCons(m, [h, "*", "*"], dow);
    FieldsCons(h, ["*", "*"], dow);
    FieldsCons("*", ["*"], dow);
    FieldsCons("*", [], dow);
    assert [m] + [h, "*", "*"] == TimeFields(m, h) && [h] + ["*", "*"] == [h, "*", "*"];
    assert ["*"] + ["*"] == ["*", "*"] && ["*"] + [] == ["*"];
    assert "* " + ("* " + dow) == "* * " + dow;
  }

  lemma FieldsCons(word: string, words: seq<string>, rest: string)
    ensures Fields([word] + words, rest) == word + " " + Fields(words, rest)
  {
    assert ([word] + words)[1..] == words;
  }

  function CronFromWeekly(w: WeeklySchedule): string {
    Template(PrintNum(w.minute), PrintNum(w.hour), PrintDays(SortedDistinct(w.weekdays)))
  }

  /** A printed cron is minute, hour, two stars and the day numbers, joined by commas. */
  lemma PrintedForm(w: WeeklySchedule)
    ensures CronFromWeekly(w)
         == PrintNum(w.minute) + " " + PrintNum(w.hour) + " * * " + PrintDays(SortedDistinct(w.weekdays))
  {
    TemplateText(PrintNum(w.minute), PrintNum(w.hour), PrintDays(SortedDistinct(w.weekdays)));
  }

  /** Monday and Wednesday at half past nine. */
  lemma PrintedExample()
    ensures CronFromWeekly(WeeklySchedule([Nat(3), Nat(1)], Nat(9), Nat(30))) == "30 9 * * 1,3"
  {
    ExampleDays();
    ExampleNumbers();
    TemplateText("30", "9", "1,3");
    assert "30" + " " + "9" == "30 9";
    assert "30 9" + " * * " == "30 9 * * ";
    assert "30 9 * * " + "1,3" == "30 9 * * 1,3";
  }

  lemma ExampleNumbers()
    ensures PrintNum(Nat(30)) == "30" && PrintNum(Nat(9)) == "9" && PrintNum(Nat(1)) == "1" && PrintNum(Nat(3)) == "3"
  {
    assert Digits(30) == Digits(3) + ['0'] && Digits(3) == ['3'] && Digits(9) == ['9'] && Digits(1) == ['1'];
  }

  lemma ExampleDays()
    ensures PrintDays(SortedDistinct([Nat(3), Nat(1)])) == "1,3"
  {
    ExampleNumbers();
    AscendingUnique(SortedDistinct([Nat(3), Nat(1)]), [Nat(1), Nat(3)]);
    assert Printed([Nat(1), Nat(3)]) == ["1", "3"];
    assert ["1", "3"][1..] == ["3"];
    assert Join(["1", "3"], ",") == "1" + "," + "3";
  }

  // ---- Parsing ----

  function Range(a: nat, b: int): seq<Num>
    decreases b
  {
    if b < a then [] else Range(a, b - 1) + [Nat(b)]
  }

  function TokenDays(token: string): seq<Num> {
    if '-' in token then
      var ends := Split(token, '-');
      if |ends| < 2 then []
      else
        match (ToNumber(ends[0]), ToNumber(ends[1]))
        case (Nat(a), Nat(b)) => Range(a, b)
        case _ => []
    else [ToNumber(token)]
  }

  function AllDays(tokens: seq<string>): seq<Num> {
    if tokens == [] then []
    else AllDays(tokens[..|tokens| - 1]) + TokenDays(tokens[|tokens| - 1])
  }

  function Parse(cron: string): Result<WeeklySchedule, CronError> {
    var parts := Words(Trim(cron));
    if |parts| < 5 then Failure(Unparseable)
    else Success(WeeklySchedule(
                   SortedDistinct(AllDays(Split(parts[4], ','))),
                   ToNumber(parts[1]), ToNumber(parts[0])))
  }

  lemma AllDaysStep(tokens: seq<string>, t: nat)
    requires t < |tokens|
    ensures AllDays(tokens[..t + 1]) == AllDays(tokens[..t]) + TokenDays(tokens[t])
  {
    assert tokens[..t + 1][..t] == tokens[..t];
  }

  /** Pushes the days of one token: every day of a range `a-b`, or the single day. */
  method PushToken(weekdays: seq<Num>, token: string) returns (more: seq<Num>)
    ensures more == weekdays + TokenDays(token)
  {
    more := weekdays;
    if '-' in token {
      var ends := Split(token, '-');
      if |ends| >= 2 && ToNumber(ends[0]).Nat? && ToNumber(ends[1]).Nat? {
        var a, b := ToNumber(ends[0]).n, ToNumber(ends[1]).n;
        var i: int := a;
        while i <= b
          invariant a <= i && (i <= b + 1 || i == a)
          invariant more == weekdays + Range(a, i - 1)
        {
          more := more + [Nat(i)];
          i := i + 1;
        }
        assert Range(a, i - 1) == Range(a, b);
      }
    } else {
      more := more + [ToNumber(token)];
    }
  }

  /** The nested loops of the source, pushing one weekday at a time. */
  method ParseWeeklyCron(cron: string) returns (r: Result<WeeklySchedule, CronError>)
    ensures r == Parse(cron)
  {
    var parts := Words(Trim(cron));
    if |parts| < 5 {
      return Failure(Unparseable);
    }
    var tokens := Split(parts[4], ',');
    var weekdays: seq<Num> := [];
    for t := 0 to |tokens|
      invariant weekdays == AllDays(tokens[..t])
    {
      AllDaysStep(tokens, t);
      weekdays := PushToken(weekdays, tokens[t]);
    }
    assert tokens[..|tokens|] == tokens;
    r := Success(WeeklySchedule(SortedDistinct(weekdays), ToNumber(parts[1]), ToNumber(parts[0])));
  }

  // ---- Round trip ----

  lemma TrimKeeps(s: string)
    requires s != [] && !IsSpace(s[0]) && !IsSpace(s[|s| - 1])
    ensures Trim(s) == s && Trim(s + " ") == s
  {
    assert TrimStart(s + " ") == s + " ";
    assert (s + " ")[..|s|] == s;
  }

  lemma {:induction false} AllDaysPrinted(days: seq<Num>)
    ensures AllDays(Printed(days)) == days
  {
    if days != [] {
      var front, last := days[..|days| - 1], days[|days| - 1];
      AllDaysPrinted(front);
      PrintedSnoc(days);
      ReadPrinted(last);
      AllDaysSnoc(Printed(front), PrintNum(last));
      assert TokenDays(PrintNum(last)) == [last];
      assert days == front + [last];
    }
  }

  lemma AllDaysSnoc(tokens: seq<string>, token: string)
    ensures AllDays(tokens + [token]) == AllDays(tokens) + TokenDays(token)
  {
    assert (tokens + [token])[..|tokens|] == tokens;
  }

  lemma PrintedSnoc(days: seq<Num>)
    requires days != []
    ensures Printed(days) == Printed(days[..|days| - 1]) + [PrintNum(days[|days| - 1])]
  {
  }

  lemma {:induction false} PrintDaysIsWord(tokens: seq<string>)
    requires tokens != []
    requires forall i :: 0 <= i < |tokens| ==> IsWord(tokens[i])
    ensures IsWord(Join(tokens, ","))
  {
    if |tokens| > 1 {
      PrintDaysIsWord(tokens[1..]);
    }
  }

  lemma {:induction false} FieldsWords(words: seq<string>, rest: string)
    requires forall i :: 0 <= i < |words| ==> IsWord(words[i])
    ensures Words(Fields(words, rest)) == words + Words(rest)
  {
    if words == [] {
      assert words + Words(rest) == Words(rest);
    } else {
      FieldsWords(words[1..], rest);
      WordsCons(words[0], Fields(words[1..], rest));
      assert [words[0]] + (words[1..] + Words(rest)) == words + Words(rest);
    }
  }

  lemma {:induction false} FieldsEnds(words: seq<string>, rest: string)
    requires rest != [] && words != [] && IsWord(words[0])
    ensures var s := Fields(words, rest);
            s != [] && s[0] == words[0][0] && s[|s| - 1] == rest[|rest| - 1]
    decreases |words|
  {
    if |words| > 1 {
      FieldsLast(words[1..], rest);
    }
  }

  lemma {:induction false} FieldsLast(words: seq<string>, rest: string)
    requires rest != []
    ensures Fields(words, rest) != [] && Fields(words, rest)[|Fields(words, rest)| - 1] == rest[|rest| - 1]
  {
    if words != [] {
      FieldsLast(words[1..], rest);
    }
  }

  lemma {:induction false} FieldsTrailing(words: seq<string>, rest: string)
    ensures Fields(words, rest + " ") == Fields(words, rest) + " "
  {
    if words != [] {
      FieldsTrailing(words[1..], rest);
    }
  }

  lemma {:induction false} FieldsSnoc(words: seq<string>, word: string)
    ensures Fields(words + [word], "") == Fields(words, word + " ")
  {
    if words == [] {
      assert words + [word] == [word] && [word][1..] == [];
      assert Field(word, "") == word + " ";
    } else {
      assert (words + [word])[1..] == words[1..] + [word];
      FieldsSnoc(words[1..], word);
    }
  }

  /** The parts of a printed cron: its fields, and the day field if it is a word. */
  lemma PrintedParts(words: seq<string>, dow: string)
    requires words != [] && (forall i :: 0 <= i < |words| ==> IsWord(words[i])) && IsWord(dow)
    ensures Words(Trim(Fields(words, dow))) == words + [dow]
  {
    FieldsWords(words, dow);
    WordsCons(dow, "");
    FieldsEnds(words, dow);
    TrimKeeps(Fields(words, dow));
  }

  /** With an empty day field the last part is missing. */
  lemma PrintedPartsNoDays(words: seq<string>, last: string)
    requires words != [] && (forall i :: 0 <= i < |words| ==> IsWord(words[i])) && IsWord(last)
    ensures Words(Trim(Fields(words + [last], ""))) == words + [last]
  {
    FieldsSnoc(words, last);
    FieldsTrailing(words, last);
    FieldsEnds(words, last);
    TrimKeeps(Fields(words, last));
    FieldsWords(words, last);
    WordsCons(last, "");
  }

  lemma ParseParts(cron: string, parts: seq<string>)
    requires Words(Trim(cron)) == parts
    ensures |parts| < 5 ==> Parse(cron) == Failure(Unparseable)
    ensures |parts| == 5 ==>
              Parse(cron)
              == Success(WeeklySchedule(SortedDistinct(AllDays(Split(parts[4], ','))),
                                        ToNumber(parts[1]), ToNumber(parts[0])))
  {
  }

  lemma ParseFields(words: seq<string>, dow: string)
    requires |words| == 4 && (forall i :: 0 <= i < |words| ==> IsWord(words[i])) && IsWord(dow)
    ensures Parse(Fields(words, dow))
         == Success(WeeklySchedule(SortedDistinct(AllDays(Split(dow, ','))), ToNumber(words[1]), ToNumber(words[0])))
  {
    PrintedParts(words, dow);
    ParseParts(Fields(words, dow), words + [dow]);
  }

  lemma TimeFieldsAreWords(m: string, h: string)
    requires IsWord(m) && IsWord(h)
    ensures forall i :: 0 <= i < |TimeFields(m, h)| ==> IsWord(TimeFields(m, h)[i])
  {
    assert IsWord("*");
  }

  lemma ParseTemplate(m: string, h: string, dow: string)
    requires IsWord(m) && IsWord(h) && IsWord(dow)
    ensures Parse(Template(m, h, dow))
         == Success(WeeklySchedule(SortedDistinct(AllDays(Split(dow, ','))), ToNumber(h), ToNumber(m)))
  {
    TimeFieldsAreWords(m, h);
    ParseFields(TimeFields(m, h), dow);
  }

  lemma ParseTemplateNoDays(m: string, h: string)
    requires IsWord(m) && IsWord(h)
    ensures Parse(Template(m, h, "")) == Failure(Unparseable)
  {
    TimeFieldsAreWords(m, h);
    var words := TimeFields(m, h)[..3];
    assert words + ["*"] == TimeFields(m, h);
    PrintedPartsNoDays(words, "*");
    ParseParts(Template(m, h, ""), TimeFields(m, h));
  }

  lemma DaysRoundTrip(days: seq<Num>)
    requires days != []
    ensures IsWord(PrintDays(days))
    ensures AllDays(Split(PrintDays(days), ',')) == days
  {
    var tokens := Printed(days);
    PrintDaysIsWord(tokens);
    SplitJoin(tokens, ',');
    AllDaysPrinted(days);
  }

  /**
   Parsing the printed form of a schedule gives the schedule back, weekdays sorted and without
   repetition, if and only if it names a weekday; with none the printed form does not parse.
   */
  lemma RoundTrip(w: WeeklySchedule)
    ensures w.weekdays != [] ==>
              Parse(CronFromWeekly(w)) == Success(w.(weekdays := SortedDistinct(w.weekdays)))
    ensures w.weekdays == [] ==> Parse(CronFromWeekly(w)) == Failure(Unparseable)
  {
    var m, h, days := PrintNum(w.minute), PrintNum(w.hour), SortedDistinct(w.weekdays);
    if w.weekdays == [] {
      assert days == [];
      ParseTemplateNoDays(m, h);
    } else {
      assert w.weekdays[0] in days;
      DaysRoundTrip(days);
      ParseTemplate(m, h, PrintDays(days));
      SortedDistinctCanonical(days, days);
      ReadPrinted(w.minute);
      ReadPrinted(w.hour);
    }
  }

  /** What a parse returned is a fixed point of print-then-parse, ranges included. */
  lemma ParseStable(cron: string)
    ensures Parse(cron).Success? ==>
              (Parse(CronFromWeekly(Parse(cron).value)) == Parse(cron) <==> Parse(cron).value.weekdays != [])
  {
    if Parse(cron).Success? {
      var w := Parse(cron).value;
      RoundTrip(w);
      SortedDistinctCanonical(w.weekdays, w.weekdays);
    }
  }

  /** The weekdays of a range token are exactly the numbers between its ends. */
  lemma {:induction false} RangeMeaning(a: nat, b: int)
    ensures forall x :: x in Range(a, b) <==> x.Nat? && a <= x.n <= b
    decreases b
  {
    if b >= a {
      RangeMeaning(a, b - 1);
    }
  }

  /** The text of a range token. */
  function RangeToken(a: string, b: string): string {
    Join([a, b], "-")
  }

  lemma RangeTokenText(a: string, b: string)
    requires '-' !in a && '-' !in b
    ensures RangeToken(a, b) == a + "-" + b && '-' in RangeToken(a, b)
    ensures Split(RangeToken(a, b), '-') == [a, b]
  {
    SplitJoin([a, b], '-');
    assert [a, b][1..] == [b];
    assert RangeToken(a, b)[|a|] == '-';
  }

  /** A token `a-b` names the numbers from a to b, and none if an end is no number. */
  lemma TokenMeaning(a: string, b: string)
    requires '-' !in a && '-' !in b
    ensures RangeToken(a, b) == a + "-" + b
    ensures forall x :: x in TokenDays(RangeToken(a, b)) <==>
              x.Nat? && ToNumber(a).Nat? && ToNumber(b).Nat? && ToNumber(a).n <= x.n <= ToNumber(b).n
  {
    RangeTokenText(a, b);
    if ToNumber(a).Nat? && ToNumber(b).Nat? {
      RangeMeaning(ToNumber(a).n, ToNumber(b).n);
    }
  }

  lemma NamedRangeIsEmpty(a: string, b: string)
    requires '-' !in a && '-' !in b && (ToNumber(a).NaN? || ToNumber(b).NaN?)
    ensures TokenDays(RangeToken(a, b)) == []
  {
    RangeTokenText(a, b);
  }

  lemma OneTokenDays(token: string)
    requires ',' !in token
    ensures AllDays(Split(token, ',')) == TokenDays(token)
  {
    SplitWhole(token, ',');
    assert [token][..0] == [];
  }

  lemma RangeTokenIsWord(a: string, b: string)
    requires IsWord(a) && IsWord(b) && '-' !in a && '-' !in b && ',' !in a && ',' !in b
    ensures IsWord(RangeToken(a, b)) && ',' !in RangeToken(a, b)
  {
    RangeTokenText(a, b);
  }

  /** A cron whose only day token is a range with an end that is no number parses, to no weekday. */
  lemma NamedRangeParses(m: string, h: string, a: string, b: string)
    requires IsWord(m) && IsWord(h) && IsWord(a) && IsWord(b)
    requires '-' !in a && '-' !in b && ',' !in a && ',' !in b
    requires ToNumber(a).NaN? || ToNumber(b).NaN?
    ensures Parse(Template(m, h, RangeToken(a, b))) == Success(WeeklySchedule([], ToNumber(h), ToNumber(m)))
  {
    NamedRangeIsEmpty(a, b);
    RangeTokenIsWord(a, b);
    OneTokenDays(RangeToken(a, b));
    ParseTemplate(m, h, RangeToken(a, b));
  }

  // ---- The repeatable tick ----

  function TickSchedule(w: WeeklySchedule): WeeklySchedule {
    WeeklySchedule(w.weekdays, Nat(0), Nat(5))
  }

  /** `5 0 * * <days>`, or the parse error of the standup's own cron (deriveTickCron throws). */
  function DeriveTickCron(cron: string): Result<string, CronError> {
    match Parse(cron)
    case Failure(e) => Failure(e)
    case Success(w) => Success(Template("5", "0", PrintDays(SortedDistinct(w.weekdays))))
  }

  lemma TickPrinted(cron: string)
    requires Parse(cron).Success?
    ensures DeriveTickCron(cron).value == CronFromWeekly(TickSchedule(Parse(cron).value))
  {
    assert Digits(5) == "5" && Digits(0) == "0";
  }

  /** A tick cron is derived exactly from a cron with at least five fields. */
  lemma TickDerived(cron: string)
    ensures DeriveTickCron(cron).Success? <==> |Words(Trim(cron))| >= 5
  {
  }

  /**
   The tick cron parses to 00:05 on the standup's own weekdays if and only if the standup's cron
   gave any; otherwise its day field is empty and it does not parse.
   */
  lemma TickParses(cron: string)
    requires Parse(cron).Success?
    ensures Parse(DeriveTickCron(cron).value) == Success(TickSchedule(Parse(cron).value))
       <==> Parse(cron).value.weekdays != []
    ensures Parse(cron).value.weekdays == [] ==>
              && DeriveTickCron(cron).value == Template("5", "0", "")
              && Parse(Template("5", "0", "")) == Failure(Unparseable)
  {
    var w := Parse(cron).value;
    TickPrinted(cron);
    RoundTrip(TickSchedule(w));
    SortedDistinctCanonical(w.weekdays, w.weekdays);
    if w.weekdays == [] {
      assert SortedDistinct(w.weekdays) == [];
      assert Printed([]) == [];
    }
  }
}
