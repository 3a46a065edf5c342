/**
 The time window of a report card: the issues its member closed since their previous standup
 (apps/web/lib/reports.ts, packages/db/src/reports.ts, packages/db/src/integrations.ts).
 */
module ReportWindows {
  import opened Wrappers
  import opened Instants

  datatype Row = Row(user: string, completed: bool, createdAt: Instant, reportedAt: Option<Instant>)

  datatype Window = Window(from: Instant, to: Instant)

  datatype Issue = Issue(id: string, assigneeEmail: Option<string>, completed: bool, completedAt: Option<Instant>)

  // ---- lastReportDateBefore ----

  predicate Earlier(r: Row, user: string, before: Instant) {
    r.user == user && r.completed && r.reportedAt.Some? && r.reportedAt.value < before
  }

  /** order by reportedAt desc limit 1 over the member's completed reports before an instant. */
  function LastReportDateBefore(rows: seq<Row>, user: string, before: Instant): (last: Option<Instant>)
    ensures last.None? <==> forall r :: r in rows ==> !Earlier(r, user, before)
    ensures last.Some? ==>
              && (exists r :: r in rows && Earlier(r, user, before) && r.reportedAt == last)
              && (forall r :: r in rows && Earlier(r, user, before) ==> r.reportedAt.value <= last.value)
  {
    if rows == [] then None
    else
      var (front, r) := (rows[..|rows| - 1], rows[|rows| - 1]);
      assert rows == front + [r];
      assert r in rows;
      var best := LastReportDateBefore(front, user, before);
      if Earlier(r, user, before) && (best.None? || best.value < r.reportedAt.value) then r.reportedAt else best
  }

  // ---- The window of a card ----

  /** A completed report without its time is taken as reported now. */
  function CardWindow(rows: seq<Row>, r: Row, now: Instant): Window {
    var last := LastReportDateBefore(rows, r.user, r.createdAt);
    var to := if r.reportedAt.Some? then r.reportedAt.value else now;
    Window(if last.Some? then last.value else to - DAY, to)
  }

  predicate Contains(w: Window, t: Instant) {
    w.from <= t < w.to
  }

  predicate InWindow(i: Issue, w: Window) {
    i.completed && i.completedAt.Some? && Contains(w, i.completedAt.value)
  }

  /** The member's issues completed in [from, to); none when no email is known for the member. */
  function ListMemberClosed(issues: seq<Issue>, email: Option<string>, w: Window): (r: seq<Issue>)
    ensures forall i :: i in r <==> i in issues && email.Some? && i.assigneeEmail == email && InWindow(i, w)
  {
    if issues == [] || email.None? then []
    else
      var (front, i) := (issues[..|issues| - 1], issues[|issues| - 1]);
      assert issues == front + [i];
      ListMemberClosed(front, email, w) + (if i.assigneeEmail == email && InWindow(i, w) then [i] else [])
  }

  /** cards are the completed reports of one member, in the order they were reported. */
  ghost predicate CardsOf(rows: seq<Row>, user: string, cards: seq<Row>) {
    && (forall r :: r in cards <==> r in rows && r.user == user && r.completed)
    && (forall i :: 0 <= i < |cards| ==> cards[i].reportedAt.Some? && cards[i].createdAt <= cards[i].reportedAt.value)
    && (forall i, j :: 0 <= i < j < |cards| ==> cards[i].reportedAt.value < cards[j].reportedAt.value)
  }

  /** Report i was opened only after report i - 1 was in. */
  ghost predicate OpenedAfter(cards: seq<Row>, i: nat)
    requires 0 < i < |cards| && cards[i - 1].reportedAt.Some?
  {
    cards[i - 1].reportedAt.value < cards[i].createdAt
  }

  /** The window of a card opened after some report of its member was in begins at one of those before it. */
  lemma LooksBackTo(rows: seq<Row>, user: string, cards: seq<Row>, i: nat, now: Instant) returns (j: nat)
    requires CardsOf(rows, user, cards) && i < |cards|
    requires cards[0].reportedAt.value < cards[i].createdAt
    ensures j < i && CardWindow(rows, cards[i], now).from == cards[j].reportedAt.value
    ensures cards[j].reportedAt.value < cards[i].createdAt
    ensures forall m :: 0 <= m < |cards| && cards[m].reportedAt.value < cards[i].createdAt ==> m <= j
  {
    var before := cards[i].createdAt;
    assert cards[i] in cards && cards[0] in cards;
    var last := LastReportDateBefore(rows, user, before);
    assert Earlier(cards[0], user, before);
    var r :| r in rows && Earlier(r, user, before) && r.reportedAt == last;
    assert r in cards;
    j :| 0 <= j < |cards| && cards[j] == r;
    forall m | 0 <= m < |cards| && cards[m].reportedAt.value < before ensures m <= j {
      assert cards[m] in cards;
      assert Earlier(cards[m], user, before);
    }
  }

  /** A card opened before the member's first report was in looks back a day. */
  lemma LooksBackADay(rows: seq<Row>, user: string, cards: seq<Row>, i: nat, now: Instant)
    requires CardsOf(rows, user, cards) && i < |cards|
    requires cards[i].createdAt <= cards[0].reportedAt.value
    ensures CardWindow(rows, cards[i], now).from == cards[i].reportedAt.value - DAY
  {
    assert cards[i] in cards;
    forall r | r in rows ensures !Earlier(r, user, cards[i].createdAt) {
      if r.user == user && r.completed {
        assert r in cards;
        var j :| 0 <= j < |cards| && cards[j] == r;
      }
    }
  }

  /**
   The window begins where the previous card's ends exactly when this report was opened after the
   previous one was in, or before any was in and just a day after the previous one.
   */
  lemma WindowMeetsPrevious(rows: seq<Row>, user: string, cards: seq<Row>, i: nat, now: Instant)
    requires CardsOf(rows, user, cards) && 0 < i < |cards|
    ensures CardWindow(rows, cards[i], now).to == cards[i].reportedAt.value
    ensures CardWindow(rows, cards[i], now).from == cards[i - 1].reportedAt.value
       <==> OpenedAfter(cards, i)
            || (cards[i].createdAt <= cards[0].reportedAt.value && ADayAfter(cards, i))
  {
    if cards[i].createdAt <= cards[0].reportedAt.value {
      LooksBackADay(rows, user, cards, i, now);
      assert cards[0].reportedAt.value <= cards[i - 1].reportedAt.value;
    } else {
      var j := LooksBackTo(rows, user, cards, i, now);
      assert j < i - 1 ==> cards[j].reportedAt.value < cards[i - 1].reportedAt.value;
    }
  }

  ghost predicate ADayAfter(cards: seq<Row>, i: nat)
    requires 0 < i < |cards| && cards[i - 1].reportedAt.Some? && cards[i].reportedAt.Some?
  {
    cards[i].reportedAt.value - cards[i - 1].reportedAt.value == DAY
  }

  /** The first card looks back a day. */
  lemma FirstWindow(rows: seq<Row>, user: string, cards: seq<Row>, now: Instant)
    requires CardsOf(rows, user, cards) && cards != []
    ensures CardWindow(rows, cards[0], now) == Window(cards[0].reportedAt.value - 86_400_000, cards[0].reportedAt.value)
  {
    LooksBackADay(rows, user, cards, 0, now);
  }

  ghost predicate Shows(rows: seq<Row>, card: Row, now: Instant, i: Issue) {
    InWindow(i, CardWindow(rows, card, now))
  }

  /** An instant between the first and the last of ascending instants lies in one of the gaps. */
  lemma {:induction false} GapOf(times: seq<Instant>, t: Instant) returns (n: nat)
    requires |times| > 0 && times[0] <= t < times[|times| - 1]
    ensures 0 < n < |times| && times[n - 1] <= t < times[n]
  {
    if t < times[|times| - 2] {
      n := GapOf(times[..|times| - 1], t);
    } else {
      n := |times| - 1;
    }
  }

  // ---- Exactly when the windows tile ----

  /** The instant lies in the window of exactly one card. */
  ghost predicate OnOneCard(rows: seq<Row>, cards: seq<Row>, now: Instant, t: Instant) {
    exists n :: OnlyOn(rows, cards, now, t, n)
  }

  ghost predicate OnlyOn(rows: seq<Row>, cards: seq<Row>, now: Instant, t: Instant, n: nat) {
    && n < |cards| && Contains(CardWindow(rows, cards[n], now), t)
    && forall m :: 0 <= m < |cards| && Contains(CardWindow(rows, cards[m], now), t) ==> m == n
  }

  ghost predicate Tiled(rows: seq<Row>, cards: seq<Row>, now: Instant)
    requires cards != [] && forall i :: 0 <= i < |cards| ==> cards[i].reportedAt.Some?
  {
    forall t: Instant :: cards[0].reportedAt.value <= t < cards[|cards| - 1].reportedAt.value ==>
      OnOneCard(rows, cards, now, t)
  }

  /**
   Report i connects to the one before: it was opened after that was in; or it was opened before
   any was in, and the day it looks back reaches the previous report, overlapping no card.
   */
  ghost predicate Connects(cards: seq<Row>, i: nat)
    requires 0 < i < |cards| && forall j :: 0 <= j < |cards| ==> cards[j].reportedAt.Some?
  {
    || OpenedAfter(cards, i)
    || (cards[i].createdAt <= cards[0].reportedAt.value &&
        (ADayAfter(cards, i) || (i == 1 && cards[1].reportedAt.value - cards[0].reportedAt.value <= DAY)))
  }

  /** What connecting means for the windows. */
  lemma ConnectsMeans(rows: seq<Row>, user: string, cards: seq<Row>, i: nat, now: Instant)
    requires CardsOf(rows, user, cards) && 0 < i < |cards|
    ensures var from := CardWindow(rows, cards[i], now).from;
            Connects(cards, i) <==>
              from == cards[i - 1].reportedAt.value || (i == 1 && from <= cards[0].reportedAt.value)
  {
    WindowMeetsPrevious(rows, user, cards, i, now);
    if cards[i].createdAt <= cards[0].reportedAt.value {
      LooksBackADay(rows, user, cards, i, now);
    } else {
      var j := LooksBackTo(rows, user, cards, i, now);
    }
  }

  lemma Ends(rows: seq<Row>, user: string, cards: seq<Row>, now: Instant)
    requires CardsOf(rows, user, cards)
    ensures forall i :: 0 <= i < |cards| ==> CardWindow(rows, cards[i], now).to == cards[i].reportedAt.value
    ensures forall i, j :: 0 <= i <= j < |cards| ==> cards[i].reportedAt.value <= cards[j].reportedAt.value
  {
  }

  /** Where all later cards connect, none of them reaches back before the report of card n. */
  lemma LaterCardsStayBehind(rows: seq<Row>, user: string, cards: seq<Row>, n: nat, m: nat, now: Instant)
    requires CardsOf(rows, user, cards) && 1 <= n < m < |cards| && Connects(cards, m)
    ensures CardWindow(rows, cards[m], now).from >= cards[n].reportedAt.value
  {
    ConnectsMeans(rows, user, cards, m, now);
    Ends(rows, user, cards, now);
  }

  lemma ConnectedTile(rows: seq<Row>, user: string, cards: seq<Row>, now: Instant)
    requires CardsOf(rows, user, cards) && cards != []
    requires forall i :: 0 < i < |cards| ==> Connects(cards, i)
    ensures Tiled(rows, cards, now)
  {
    Ends(rows, user, cards, now);
    forall t: Instant | cards[0].reportedAt.value <= t < cards[|cards| - 1].reportedAt.value
      ensures OnOneCard(rows, cards, now, t)
    {
      var times := seq(|cards|, n requires 0 <= n < |cards| => cards[n].reportedAt.value);
      var gap := GapOf(times, t);
      ConnectsMeans(rows, user, cards, gap, now);
      forall m | 0 <= m < |cards| && Contains(CardWindow(rows, cards[m], now), t) ensures m == gap {
        if m > gap {
          LaterCardsStayBehind(rows, user, cards, gap, m, now);
        }
      }
      assert OnlyOn(rows, cards, now, t, gap);
    }
  }

  /** The last card that does not connect. */
  lemma {:induction false} LastLoose(rows: seq<Row>, user: string, cards: seq<Row>, i: nat) returns (n: nat)
    requires CardsOf(rows, user, cards) && 0 < i < |cards| && !Connects(cards, i)
    ensures i <= n < |cards| && !Connects(cards, n)
    ensures forall m :: n < m < |cards| ==> Connects(cards, m)
    decreases |cards| - i
  {
    if m :| i < m < |cards| && !Connects(cards, m) {
      n := LastLoose(rows, user, cards, m);
    } else {
      n := i;
    }
  }

  /** A loose card leaves an instant on no card, or puts one on two. */
  lemma LooseBreaks(rows: seq<Row>, user: string, cards: seq<Row>, n: nat, now: Instant)
    requires CardsOf(rows, user, cards) && 0 < n < |cards| && !Connects(cards, n)
    requires forall m :: n < m < |cards| ==> Connects(cards, m)
    ensures !Tiled(rows, cards, now)
  {
    Ends(rows, user, cards, now);
    ConnectsMeans(rows, user, cards, n, now);
    var from := CardWindow(rows, cards[n], now).from;
    var previous := cards[n - 1].reportedAt.value;
    if from > previous {
      NothingShows(rows, user, cards, n, now);
    } else {
      TwoShow(rows, user, cards, n, now);
    }
  }

  lemma NothingShows(rows: seq<Row>, user: string, cards: seq<Row>, n: nat, now: Instant)
    requires CardsOf(rows, user, cards) && 0 < n < |cards|
    requires forall m :: n < m < |cards| ==> Connects(cards, m)
    requires CardWindow(rows, cards[n], now).from > cards[n - 1].reportedAt.value
    ensures !OnOneCard(rows, cards, now, cards[n - 1].reportedAt.value)
    ensures !Tiled(rows, cards, now)
  {
    Ends(rows, user, cards, now);
    var t := cards[n - 1].reportedAt.value;
    forall m | 0 <= m < |cards| ensures !Contains(CardWindow(rows, cards[m], now), t) {
      if m > n {
        LaterCardsStayBehind(rows, user, cards, n, m, now);
      }
    }
  }

  lemma WindowNotEmpty(rows: seq<Row>, user: string, cards: seq<Row>, i: nat, now: Instant)
    requires CardsOf(rows, user, cards) && i < |cards|
    ensures CardWindow(rows, cards[i], now).from < cards[i].reportedAt.value
  {
    if cards[i].createdAt <= cards[0].reportedAt.value {
      LooksBackADay(rows, user, cards, i, now);
    } else {
      var j := LooksBackTo(rows, user, cards, i, now);
    }
  }

  lemma TwoShow(rows: seq<Row>, user: string, cards: seq<Row>, n: nat, now: Instant)
    requires CardsOf(rows, user, cards) && 1 < n < |cards|
    requires CardWindow(rows, cards[n], now).from < cards[n - 1].reportedAt.value
    ensures var t := cards[n - 1].reportedAt.value - 1;
            Contains(CardWindow(rows, cards[n - 1], now), t) && Contains(CardWindow(rows, cards[n], now), t)
    ensures !Tiled(rows, cards, now)
  {
    Ends(rows, user, cards, now);
    WindowNotEmpty(rows, user, cards, n - 1, now);
    var t := cards[n - 1].reportedAt.value - 1;
    assert cards[0].reportedAt.value < cards[n - 1].reportedAt.value < cards[n].reportedAt.value;
    assert !OnOneCard(rows, cards, now, t);
  }

  /**
   Every instant from the first report to the last lies on exactly one card if and only if each
   report was opened after the previous one was in, or else, opened before any was in, was reported
   just a day after the previous one (for the second card: at most a day).
   */
  lemma TiledExactly(rows: seq<Row>, user: string, cards: seq<Row>, now: Instant)
    requires CardsOf(rows, user, cards) && cards != []
    ensures Tiled(rows, cards, now) <==> forall i :: 0 < i < |cards| ==> Connects(cards, i)
  {
    if i :| 0 < i < |cards| && !Connects(cards, i) {
      var n := LastLoose(rows, user, cards, i);
      LooseBreaks(rows, user, cards, n, now);
    } else {
      ConnectedTile(rows, user, cards, now);
    }
  }

  /**
   Where the cards connect, an issue closed between the first and the last report appears on
   exactly one of them.
   */
  lemma IssueOnOneCard(rows: seq<Row>, user: string, cards: seq<Row>, now: Instant, i: Issue) returns (n: nat)
    requires CardsOf(rows, user, cards) && cards != []
    requires forall m :: 0 < m < |cards| ==> Connects(cards, m)
    requires i.completed && i.completedAt.Some?
    requires cards[0].reportedAt.value <= i.completedAt.value < cards[|cards| - 1].reportedAt.value
    ensures n < |cards| && Shows(rows, cards[n], now, i)
    ensures forall m :: 0 <= m < |cards| && Shows(rows, cards[m], now, i) ==> m == n
  {
    TiledExactly(rows, user, cards, now);
    assert OnOneCard(rows, cards, now, i.completedAt.value);
    n :| OnlyOn(rows, cards, now, i.completedAt.value, n);
  }
}
