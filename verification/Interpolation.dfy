/** Putting the last report date into a question (packages/shared/src/dates.ts). */
module Interpolation {
  import opened Wrappers
  import opened Text

  const TOKEN := "{last_report_date}"

  ghost predicate At(text: string, i: nat) {
    i + |TOKEN| <= |text| && text[i..i + |TOKEN|] == TOKEN
  }

  ghost predicate HasToken(text: string) {
    exists i: nat :: At(text, i)
  }

  predicate Here(text: string) {
    |TOKEN| <= |text| && text[..|TOKEN|] == TOKEN
  }

  /** text.split(TOKEN): the pieces between occurrences, from the left and not overlapping. */
  function SplitToken(text: string): (pieces: seq<string>)
    ensures |pieces| >= 1
    decreases |text|
  {
    if text == [] then [[]]
    else if Here(text) then [[]] + SplitToken(text[|TOKEN|..])
    else
      var rest := SplitToken(text[1..]);
      [[text[0]] + rest[0]] + rest[1..]
  }

  datatype ReportDate = ReportDate(weekday: nat, month: nat, day: nat)

  const WEEKDAY_NAMES := ["Sunday", "Monday", "Tuesday", "Wednesday", "Thursday", "Friday", "Saturday"]
  const MONTH_NAMES := ["Jan", "Feb", "Mar", "Apr", "May", "Jun", "Jul", "Aug", "Sep", "Oct", "Nov", "Dec"]

  predicate ValidDate(d: ReportDate) {
    d.weekday < 7 && d.month < 12
  }

  /** For example "Friday, Jun 12". */
  function FormatReportDate(d: ReportDate): string
    requires ValidDate(d)
  {
    WEEKDAY_NAMES[d.weekday] + ", " + MONTH_NAMES[d.month] + " " + Digits(d.day)
  }

  function Replacement(last: Option<ReportDate>): string
    requires last.Some? ==> ValidDate(last.value)
  {
    if last.Some? then FormatReportDate(last.value) else "your last report"
  }

  function Fill(text: string, replacement: string): string {
    Join(SplitToken(text), replacement)
  }

  ghost function Interpolate(text: string, last: Option<ReportDate>): string
    requires last.Some? ==> ValidDate(last.value)
  {
    if !HasToken(text) then text else Fill(text, Replacement(last))
  }

  /** No braces, and a space, which the token lacks. */
  predicate Foreign(r: string) {
    '{' !in r && '}' !in r && ' ' in r
  }

  // ---- Filling, one character or one token at a time ----

  lemma JoinStep(pieces: seq<string>, head: string, glue: string)
    requires pieces != []
    ensures Join([head] + pieces, glue) == head + glue + Join(pieces, glue)
    ensures Join([head + pieces[0]] + pieces[1..], glue) == head + Join(pieces, glue)
  {
    assert ([head] + pieces)[1..] == pieces;
    assert ([head + pieces[0]] + pieces[1..])[1..] == pieces[1..];
    if |pieces| > 1 {
      assert head + pieces[0] + glue + Join(pieces[1..], glue) == head + (pieces[0] + glue + Join(pieces[1..], glue));
    }
  }

  lemma FillStep(text: string, r: string)
    ensures text == [] ==> Fill(text, r) == []
    ensures text != [] && Here(text) ==> Fill(text, r) == r + Fill(text[|TOKEN|..], r)
    ensures text != [] && !Here(text) ==> Fill(text, r) == [text[0]] + Fill(text[1..], r)
  {
    if text != [] {
      if Here(text) {
        JoinStep(SplitToken(text[|TOKEN|..]), [], r);
        assert [] + r + Fill(text[|TOKEN|..], r) == r + Fill(text[|TOKEN|..], r);
      } else {
        JoinStep(SplitToken(text[1..]), [text[0]], r);
      }
    }
  }

  /** Splitting loses nothing: joining the pieces with the token gives the text back. */
  lemma {:induction false} FillWithToken(text: string)
    ensures Fill(text, TOKEN) == text
    decreases |text|
  {
    FillStep(text, TOKEN);
    if text != [] {
      if Here(text) {
        FillWithToken(text[|TOKEN|..]);
      } else {
        FillWithToken(text[1..]);
      }
    }
  }

  /** What ends in a closing brace and has no space can only have come from the text itself. */
  lemma {:induction false} PrefixFromText(text: string, w: string, r: string)
    requires Foreign(r) && ' ' !in w && (w != [] ==> w[|w| - 1] == '}')
    requires w <= Fill(text, r)
    ensures w <= text
    decreases |text|
  {
    FillStep(text, r);
    if w != [] {
      if Here(text) {
        InsideReplacement(w, r, Fill(text[|TOKEN|..], r));
      } else {
        assert w == [w[0]] + w[1..];
        assert w[1..] <= Fill(text[1..], r);
        PrefixFromText(text[1..], w[1..], r);
        assert text == [text[0]] + text[1..];
      }
    }
  }

  /** Such a string is never a prefix of the replacement followed by anything. */
  lemma InsideReplacement(w: string, r: string, rest: string)
    requires Foreign(r) && ' ' !in w && w != [] && w[|w| - 1] == '}'
    ensures !(w <= r + rest)
  {
    var n :| 0 <= n < |r| && r[n] == ' ';
    if |w| <= |r| {
      assert (r + rest)[|w| - 1] == r[|w| - 1];
    } else {
      assert w[n] in w && (r + rest)[n] == r[n];
    }
  }

  lemma TokenShape()
    ensures TOKEN[0] == '{' && ' ' !in TOKEN && TOKEN[|TOKEN| - 1] == '}'
  {
  }

  /** A token in front + rest that starts in rest is a token of rest. */
  lemma AtRest(front: string, rest: string, i: nat)
    requires |front| <= i
    ensures At(front + rest, i) ==> At(rest, i - |front|)
  {
    if At(front + rest, i) {
      assert (front + rest)[i..i + |TOKEN|] == rest[i - |front|..i - |front| + |TOKEN|];
    }
  }

  lemma TokenStart(text: string, i: nat)
    ensures At(text, i) ==> text[i] == '{'
  {
    if At(text, i) {
      assert text[i] == text[i..i + |TOKEN|][0];
    }
  }

  /** No token starts inside a replacement. */
  lemma NoneAfterReplacement(r: string, rest: string)
    requires Foreign(r) && !HasToken(rest)
    ensures !HasToken(r + rest)
  {
    forall i: nat ensures !At(r + rest, i) {
      if i < |r| {
        TokenStart(r + rest, i);
        assert (r + rest)[i] == r[i];
      } else {
        AtRest(r, rest, i);
      }
    }
  }

  /** A character in front makes a token only if the whole begins with one. */
  lemma NoneAfterChar(c: char, rest: string)
    requires !HasToken(rest) && !At([c] + rest, 0)
    ensures !HasToken([c] + rest)
  {
    forall i: nat ensures !At([c] + rest, i) {
      if i > 0 {
        AtRest([c], rest, i);
      }
    }
  }

  /** A token at the front of the filled text was at the front of the text. */
  lemma FrontFromText(text: string, r: string)
    requires Foreign(r)
    ensures At(Fill(text, r), 0) ==> Here(text)
  {
    if At(Fill(text, r), 0) {
      TokenShape();
      assert TOKEN <= Fill(text, r);
      PrefixFromText(text, TOKEN, r);
    }
  }

  /** The filled text has no token, not even one put together across the seams of the pieces. */
  lemma {:induction false} NoTokenLeft(text: string, r: string)
    requires Foreign(r)
    ensures !HasToken(Fill(text, r))
    decreases |text|
  {
    FillStep(text, r);
    if text != [] {
      if Here(text) {
        NoTokenLeft(text[|TOKEN|..], r);
        NoneAfterReplacement(r, Fill(text[|TOKEN|..], r));
      } else {
        NoTokenLeft(text[1..], r);
        FrontFromText(text, r);
        NoneAfterChar(text[0], Fill(text[1..], r));
      }
    }
  }

  // ---- The replacements in use ----

  predicate Braceless(s: string) {
    '{' !in s && '}' !in s
  }

  lemma NamesBraceless(weekday: nat, month: nat)
    requires weekday < 7 && month < 12
    ensures Braceless(WEEKDAY_NAMES[weekday]) && Braceless(MONTH_NAMES[month])
  {
    assert forall i :: 0 <= i < 7 ==> Braceless(WEEKDAY_NAMES[i]);
    assert forall i :: 0 <= i < 12 ==> Braceless(MONTH_NAMES[i]);
  }

  lemma ReplacementForeign(last: Option<ReportDate>)
    requires last.Some? ==> ValidDate(last.value)
    ensures Foreign(Replacement(last))
  {
    match last
    case None =>
    case Some(d) =>
      NamesBraceless(d.weekday, d.month);
      var s := Digits(d.day);
      assert forall i :: 0 <= i < |s| ==> IsDigit(s[i]);
      assert ' ' in ", ";
  }

  /**
   An interpolated question holds no token, so interpolating again, for whatever date, changes
   nothing.
   */
  lemma InterpolateOnce(text: string, last: Option<ReportDate>, again: Option<ReportDate>)
    requires (last.Some? ==> ValidDate(last.value)) && (again.Some? ==> ValidDate(again.value))
    ensures !HasToken(Interpolate(text, last))
    ensures Interpolate(Interpolate(text, last), again) == Interpolate(text, last)
  {
    ReplacementForeign(last);
    NoTokenLeft(text, Replacement(last));
  }

  // ---- What the filled text says ----

  /** No token begins in the first n places. */
  ghost predicate NoneBefore(text: string, n: nat) {
    forall i :: 0 <= i < n ==> !At(text, i)
  }

  lemma Regroup(c: char, a: string, r: string, b: string)
    ensures [c] + (a + r + b) == [c] + a + r + b
  {
  }

  lemma TokenFurther(text: string, n: nat)
    requires 0 < n && At(text, n)
    ensures At(text[1..], n - 1) && text[1..][n - 1 + |TOKEN|..] == text[n + |TOKEN|..]
    ensures [text[0]] + text[1..][..n - 1] == text[..n]
  {
    assert text[1..][n - 1..n - 1 + |TOKEN|] == text[n..n + |TOKEN|];
  }

  /** The text up to its first token is kept, the token replaced, and the rest filled the same way. */
  lemma {:induction false} FillsFirst(text: string, n: nat, r: string)
    requires At(text, n) && NoneBefore(text, n)
    ensures Fill(text, r) == text[..n] + r + Fill(text[n + |TOKEN|..], r)
    decreases n
  {
    FillStep(text, r);
    if n == 0 {
      assert Here(text);
      assert text[..0] + r == r;
    } else {
      assert !Here(text) by { assert !At(text, 0); }
      ShiftNone(text, n);
      TokenFurther(text, n);
      FillsFirst(text[1..], n - 1, r);
      Regroup(text[0], text[1..][..n - 1], r, Fill(text[n + |TOKEN|..], r));
    }
  }

  lemma ShiftNone(text: string, n: nat)
    requires 0 < n <= |text| && NoneBefore(text, n)
    ensures NoneBefore(text[1..], n - 1)
  {
    forall i | 0 <= i < n - 1 ensures !At(text[1..], i) {
      assert !At(text, i + 1);
      if i + 1 + |TOKEN| <= |text| {
        assert text[1..][i..i + |TOKEN|] == text[i + 1..i + 1 + |TOKEN|];
      }
    }
  }

  /** A text without a token is left alone; in any other the first token gives way to the date or its stand-in. */
  lemma InterpolateMeaning(text: string, n: nat, last: Option<ReportDate>)
    requires (last.Some? ==> ValidDate(last.value))
    ensures !HasToken(text) ==> Interpolate(text, last) == text
    ensures At(text, n) && NoneBefore(text, n) ==>
              var r := if last.None? then "your last report"
                       else WEEKDAY_NAMES[last.value.weekday] + ", " +
                            MONTH_NAMES[last.value.month] + " " + Digits(last.value.day);
              text[..n] + r <= Interpolate(text, last)
  {
    if At(text, n) && NoneBefore(text, n) {
      FillsFirst(text, n, Replacement(last));
    }
  }

  /** Friday, June 12th. */
  lemma DateExample()
    ensures FormatReportDate(ReportDate(5, 5, 12)) == "Friday, Jun 12"
  {
    assert Digits(12) == Digits(1) + ['2'] && Digits(1) == ['1'];
    assert "Friday" + ", " == "Friday, ";
    assert "Friday, " + "Jun" == "Friday, Jun";
    assert "Friday, Jun" + " " == "Friday, Jun ";
    assert "Friday, Jun " + "12" == "Friday, Jun 12";
  }
}
