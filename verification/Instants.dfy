/** Calendar days, send instants and the next-fire search (packages/shared/src/sendInstants.ts). */
module Instants {
  import opened Wrappers
  import opened Cron

  /** UTC instants are milliseconds, calendar dates are day numbers counted from 1970-01-01. */
  type Instant = int
  type Date = int

  /** A time zone: the local date of an instant, and the instant of a local wall-clock time. */
  datatype Zone = Zone(day: Instant -> Date, at: (Date, nat, nat) -> Instant)

  predicate ValidTime(hour: nat, minute: nat) {
    hour < 24 && minute < 60
  }

  /** Local dates never run backwards, and a wall-clock time of a date falls on that date. */
  ghost predicate Regular(z: Zone) {
    && (forall t: Instant, u: Instant :: t <= u ==> z.day(t) <= z.day(u))
    && (forall d: Date, h: nat, m: nat :: ValidTime(h, m) ==> z.day(z.at(d, h, m)) == d)
  }

  const DAY := 86_400_000
  const MINUTE := 60_000

  /** A zone with a fixed offset from UTC. */
  function Fixed(offset: int): Zone {
    Zone(t => (t + offset) / DAY, (d, h, m) => d * DAY + (h * 60 + m) * MINUTE - offset)
  }

  lemma FixedRegular(offset: int)
    ensures Regular(Fixed(offset))
  {
    var z := Fixed(offset);
    forall d: Date, h: nat, m: nat | ValidTime(h, m) ensures z.day(z.at(d, h, m)) == d {
      var inDay := (h * 60 + m) * MINUTE;
      assert 0 <= inDay < DAY;
      assert (d * DAY + inDay) / DAY == d;
    }
  }

  /** 1 = Monday .. 7 = Sunday; day 0 was a Thursday. */
  function LuxonWeekday(d: Date): (w: nat)
    ensures 1 <= w <= 7
  {
    1 + (d + 3) % 7
  }

  function CronDow(weekday: nat): nat {
    if weekday == 7 then 0 else weekday
  }

  predicate Active(weekdays: seq<Num>, d: Date) {
    Nat(CronDow(LuxonWeekday(d))) in weekdays
  }

  function IsActiveWeekday(cron: string, z: Zone, t: Instant): Result<bool, CronError> {
    match Parse(cron)
    case Failure(e) => Failure(e)
    case Success(w) => Success(Active(w.weekdays, z.day(t)))
  }

  function SendInstant(w: WeeklySchedule, z: Zone, d: Date): Instant
    requires w.hour.Nat? && w.minute.Nat?
  {
    z.at(d, w.hour.n, w.minute.n)
  }

  /** Each weekday comes round once in any seven consecutive days. */
  lemma WeekdayReached(d: Date, dow: nat) returns (i: nat)
    requires dow <= 6
    ensures i < 7 && CronDow(LuxonWeekday(d + i)) == dow
    ensures CronDow(LuxonWeekday(d + i + 7)) == dow
  {
    i := (dow - d - 4) % 7;
    assert (d + i + 3) % 7 == (dow - 1) % 7;
    assert (d + i + 7 + 3) % 7 == (d + i + 3) % 7;
  }

  /** t is the configured wall-clock time on an active weekday of the zone. */
  ghost predicate IsSlot(w: WeeklySchedule, z: Zone, t: Instant)
    requires w.hour.Nat? && w.minute.Nat?
  {
    exists d: Date :: Active(w.weekdays, d) && z.at(d, w.hour.n, w.minute.n) == t
  }

  ghost predicate Readable(w: WeeklySchedule) {
    w.hour.Nat? && w.minute.Nat? && ValidTime(w.hour.n, w.minute.n)
  }

  /** A send instant is the configured wall-clock time of its date. */
  lemma SendDay(w: WeeklySchedule, z: Zone, d: Date)
    requires Regular(z) && Readable(w)
    ensures SendInstant(w, z, d) == z.at(d, w.hour.n, w.minute.n)
    ensures z.day(SendInstant(w, z, d)) == d
  {
  }

  /** Slots come in the order of their dates, and one later than `from` is today's or later. */
  lemma SlotOrder(w: WeeklySchedule, z: Zone, d: Date, e: Date, from: Instant)
    requires Regular(z) && Readable(w)
    ensures d < e ==> SendInstant(w, z, d) < SendInstant(w, z, e)
    ensures d < z.day(from) ==> SendInstant(w, z, d) < from
    ensures z.day(from) < d ==> from < SendInstant(w, z, d)
  {
    var h, m := w.hour.n, w.minute.n;
    assert z.day(z.at(d, h, m)) == d && z.day(z.at(e, h, m)) == e;
  }

  /** With a fixed offset the slot of a date is so many hours and minutes after its midnight. */
  lemma FixedSlots(w: WeeklySchedule, offset: int, t: Instant)
    requires Readable(w)
    ensures IsSlot(w, Fixed(offset), t) <==>
              exists d: Date :: Active(w.weekdays, d)
                                && t == d * 86_400_000 + (w.hour.n * 60 + w.minute.n) * 60_000 - offset
  {
    var z := Fixed(offset);
    assert forall d: Date :: z.at(d, w.hour.n, w.minute.n) == d * DAY + (w.hour.n * 60 + w.minute.n) * MINUTE - offset;
  }

  /** 1970-01-01, day 0, was a Thursday; a cron counts days from Sunday. */
  lemma DayOfWeek(weekdays: seq<Num>, d: Date)
    ensures Active(weekdays, d) <==> Nat((d + 4) % 7) in weekdays
  {
    assert (d + 4) % 7 == if (d + 3) % 7 == 6 then 0 else (d + 3) % 7 + 1;
  }

  /** No active date before `until` has its slot after `from`. */
  ghost predicate NothingBefore(w: WeeklySchedule, z: Zone, from: Instant, until: Date)
    requires Readable(w)
  {
    forall d: Date :: z.day(from) <= d < until && Active(w.weekdays, d) ==> SendInstant(w, z, d) <= from
  }

  ghost predicate IsNextSlot(w: WeeklySchedule, z: Zone, from: Instant, t: Instant)
    requires Readable(w)
  {
    && IsSlot(w, z, t) && from < t
    && forall u :: IsSlot(w, z, u) && from < u ==> t <= u
  }

  lemma FirstHitIsNext(w: WeeklySchedule, z: Zone, from: Instant, hit: Date)
    requires Regular(z) && Readable(w) && NothingBefore(w, z, from, hit)
    requires Active(w.weekdays, hit) && from < SendInstant(w, z, hit)
    ensures IsNextSlot(w, z, from, SendInstant(w, z, hit))
  {
    SendDay(w, z, hit);
    forall u | IsSlot(w, z, u) && from < u ensures SendInstant(w, z, hit) <= u {
      var d: Date :| Active(w.weekdays, d) && z.at(d, w.hour.n, w.minute.n) == u;
      SendDay(w, z, d);
      SlotOrder(w, z, hit, d, from);
      SlotOrder(w, z, d, hit, from);
    }
  }

  /** No weekday the calendar has: numbers above 6 and NaN are none. */
  ghost predicate NamesNoDay(weekdays: seq<Num>) {
    forall dow: nat :: dow <= 6 ==> Nat(dow) !in weekdays
  }

  lemma WeekWithoutHit(w: WeeklySchedule, z: Zone, from: Instant)
    requires Regular(z) && Readable(w) && NothingBefore(w, z, from, z.day(from) + 8)
    ensures NamesNoDay(w.weekdays)
  {
    var today := z.day(from);
    forall dow: nat | dow <= 6 ensures Nat(dow) !in w.weekdays {
      var j := WeekdayReached(today, dow);
      var d := if j == 0 then today + j + 7 else today + j;
      SlotOrder(w, z, d, d, from);
    }
  }

  /** The loop of nextRunInstant over today and the seven days after it. */
  method SearchWeek(w: WeeklySchedule, z: Zone, from: Instant) returns (r: Option<Instant>)
    requires Regular(z) && Readable(w)
    ensures r.None? <==> NamesNoDay(w.weekdays)
    ensures r.Some? ==> IsNextSlot(w, z, from, r.value)
  {
    var today := z.day(from);
    for i := 0 to 8
      invariant NothingBefore(w, z, from, today + i)
    {
      var candidate := SendInstant(w, z, today + i);
      if candidate <= from {
        continue;
      }
      SendDay(w, z, today + i);
      if Active(w.weekdays, z.day(candidate)) {
        FirstHitIsNext(w, z, from, today + i);
        assert Nat(CronDow(LuxonWeekday(today + i))) in w.weekdays;
        return Some(candidate);
      }
    }
    WeekWithoutHit(w, z, from);
    r := None;
  }

  /**
   The next instant a standup fires strictly after `from`: the least slot there is. It is absent
   exactly when the cron names no weekday in 0..6.
   */
  method NextRunInstant(cron: string, z: Zone, from: Instant) returns (r: Result<Option<Instant>, CronError>)
    requires Regular(z) && (Parse(cron).Success? && Parse(cron).value.weekdays != [] ==> Readable(Parse(cron).value))
    ensures r.Failure? <==> Parse(cron).Failure?
    ensures r.Success? ==> (r.value.None? <==> NamesNoDay(Parse(cron).value.weekdays))
    ensures r.Success? && r.value.Some? ==>
              Readable(Parse(cron).value) && IsNextSlot(Parse(cron).value, z, from, r.value.value)
  {
    var parsed := ParseWeeklyCron(cron);
    if parsed.Failure? {
      return Failure(parsed.error);
    }
    if |parsed.value.weekdays| == 0 {
      return Success(None);
    }
    var found := SearchWeek(parsed.value, z, from);
    r := Success(found);
  }

  /**
   The comment on the search ("null only if the cron has no weekdays") fails for Sunday written
   as 7: the cron names a weekday, and nothing is ever found.
   */
  lemma SundayAsSevenFindsNothing(hour: nat, minute: nat)
    ensures var w := WeeklySchedule([Nat(7)], Nat(hour), Nat(minute));
            Parse(CronFromWeekly(w)) == Success(w) && w.weekdays != [] && NamesNoDay(w.weekdays)
  {
    var w := WeeklySchedule([Nat(7)], Nat(hour), Nat(minute));
    RoundTrip(w);
    SortedDistinctCanonical(w.weekdays, w.weekdays);
  }

  /** The weekday test of a tick whose cron parsed to w. */
  lemma TickDay(w: WeeklySchedule, z: Zone, d: Date)
    requires Regular(z)
    ensures SendInstant(TickSchedule(w), z, d) == z.at(d, 0, 5) && z.day(z.at(d, 0, 5)) == d
  {
    assert ValidTime(0, 5);
  }

  /**
   The tick of a standup fires at 00:05 on the days its tick cron names. The weekday guard of
   open-run accepts the tick on exactly those days.
   */
  lemma TickPassesWeekdayGuard(cron: string, z: Zone, d: Date)
    requires Regular(z)
    requires Parse(cron).Success?
    ensures Parse(cron).value.weekdays != [] ==>
              Parse(DeriveTickCron(cron).value) == Success(TickSchedule(Parse(cron).value))
    ensures var tick := TickSchedule(Parse(cron).value);
            IsActiveWeekday(cron, z, z.at(d, 0, 5)) == Success(true) <==> Active(tick.weekdays, d)
  {
    TickParses(cron);
    TickDay(Parse(cron).value, z, d);
  }
}
