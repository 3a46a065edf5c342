/**
 Reconciling the repeatable open-run schedulers with the standups table
 (apps/worker/src/reconcile.ts, apps/worker/src/reconcileSchedules.ts).
 */
module Reconcile {
  import opened Wrappers
  import opened Text
  import opened Cron

  datatype ActiveStandup = ActiveStandup(id: string, scheduleCron: string, scheduleTz: string)

  /** A repeatable job as reconcile.ts sees it, wanted or registered. */
  datatype Repeatable = Repeatable(standupId: string, pattern: string, tz: string)

  /** An entry of the registry; `every` entries have no pattern and no zone. */
  datatype Scheduler = Scheduler(name: string, pattern: Option<string>, tz: Option<string>)

  type Registry = map<string, Scheduler>

  const OPEN_RUN := "open-run"

  // ---- reconcile.ts ----

  predicate WellFormed(s: ActiveStandup) {
    DeriveTickCron(s.scheduleCron).Success?
  }

  function DesiredJob(s: ActiveStandup): Repeatable
    requires WellFormed(s)
  {
    Repeatable(s.id, DeriveTickCron(s.scheduleCron).value, s.scheduleTz)
  }

  function Desired(active: seq<ActiveStandup>): seq<Repeatable>
    requires forall s :: s in active ==> WellFormed(s)
  {
    seq(|active|, i requires 0 <= i < |active| => DesiredJob(active[i]))
  }

  /** The elements of xs that are not in ys, in order. */
  function Without(xs: seq<Repeatable>, ys: seq<Repeatable>): (r: seq<Repeatable>)
    ensures forall x :: x in r <==> x in xs && x !in ys
  {
    if xs == [] then []
    else
      assert xs == [xs[0]] + xs[1..];
      (if xs[0] in ys then [] else [xs[0]]) + Without(xs[1..], ys)
  }

  datatype Diff = Diff(toAdd: seq<Repeatable>, toRemove: seq<Repeatable>)

  function DiffSchedules(active: seq<ActiveStandup>, existing: seq<Repeatable>): Diff
    requires forall s :: s in active ==> WellFormed(s)
  {
    var desired := Desired(active);
    Diff(Without(desired, existing), Without(existing, desired))
  }

  // ---- The registry ----

  /** The entries the reconciler looks at: open-run schedulers with a key. */
  predicate Managed(registry: Registry, key: string) {
    key in registry && registry[key].name == OPEN_RUN && key != ""
  }

  function AsRepeatable(key: string, e: Scheduler): Repeatable {
    Repeatable(key,
               if e.pattern.Some? then e.pattern.value else "",
               if e.tz.Some? then e.tz.value else "")
  }

  /** The open-run entry a wanted job is registered as. */
  function Entry(job: Repeatable): Scheduler {
    Scheduler(OPEN_RUN, Some(job.pattern), Some(job.tz))
  }

  /** existing lists the managed entries of the registry, each once or more. */
  ghost predicate Lists(existing: seq<Repeatable>, registry: Registry) {
    && (forall r :: r in existing ==>
          Managed(registry, r.standupId)
          && r == AsRepeatable(r.standupId, registry[r.standupId]))
    && (forall key :: Managed(registry, key) ==>
          AsRepeatable(key, registry[key]) in existing)
  }

  /** Standup ids are unique, not empty, and not the key of another kind of scheduler. */
  ghost predicate ProperRows(rows: seq<ActiveStandup>, registry: Registry) {
    && (forall i, j :: 0 <= i < j < |rows| ==> rows[i].id != rows[j].id)
    && (forall s :: s in rows ==> s.id != "" && (s.id in registry ==> Managed(registry, s.id)))
  }

  /** The job has its open-run entry, with its pattern and zone; no zone reads as the empty one. */
  predicate Registered(registry: Registry, job: Repeatable) {
    Managed(registry, job.standupId) && AsRepeatable(job.standupId, registry[job.standupId]) == job
  }

  /** The well-formed rows of the query. */
  function WellFormedRows(rows: seq<ActiveStandup>): (r: seq<ActiveStandup>)
    ensures forall s :: s in r <==> s in rows && WellFormed(s)
  {
    if rows == [] then []
    else
      var (front, last) := (rows[..|rows| - 1], rows[|rows| - 1]);
      assert rows == front + [last];
      WellFormedRows(front) + (if WellFormed(last) then [last] else [])
  }

  /** The entry is for this standup: its tick cron as the pattern, its zone; no zone reads as the empty one. */
  predicate IsFor(e: Scheduler, s: ActiveStandup) {
    && e.name == OPEN_RUN
    && DeriveTickCron(s.scheduleCron).Success? && e.pattern == Some(DeriveTickCron(s.scheduleCron).value)
    && (e.tz == Some(s.scheduleTz) || (e.tz.None? && s.scheduleTz == ""))
  }

  lemma IsForMeans(registry: Registry, s: ActiveStandup)
    requires WellFormed(s) && s.id != ""
    ensures Registered(registry, DesiredJob(s)) <==> s.id in registry && IsFor(registry[s.id], s)
  {
    PatternIsSet(s);
  }

  lemma PatternIsSet(s: ActiveStandup)
    requires WellFormed(s)
    ensures DesiredJob(s).pattern != ""
  {
    TickPrinted(s.scheduleCron);
    PrintedForm(TickSchedule(Parse(s.scheduleCron).value));
  }

  /** The entries the registry should have for these standups. */
  ghost predicate Wanted(rows: seq<ActiveStandup>, key: string, e: Scheduler) {
    exists s :: s in rows && s.id == key && IsFor(e, s)
  }

  /** The same by the job wanted. */
  ghost predicate WantedJob(rows: seq<ActiveStandup>, key: string, e: Scheduler) {
    exists s :: s in rows && WellFormed(s) && s.id == key && AsRepeatable(key, e) == DesiredJob(s)
  }

  lemma WantedMeans(rows: seq<ActiveStandup>, registry: Registry, key: string)
    requires Managed(registry, key)
    ensures Wanted(rows, key, registry[key]) <==> WantedJob(rows, key, registry[key])
  {
    if s :| s in rows && s.id == key && IsFor(registry[key], s) {
      IsForMeans(registry, s);
    }
    if s :| s in rows && WellFormed(s) && s.id == key && AsRepeatable(key, registry[key]) == DesiredJob(s) {
      IsForMeans(registry, s);
    }
  }

  /** Managed entries are exactly the wanted ones, and everything else is as it was. */
  ghost predicate Matches(before: Registry, rows: seq<ActiveStandup>, after: Registry) {
    && (forall key :: Managed(after, key) ==> Wanted(rows, key, after[key]))
    && (forall s :: s in rows && DeriveTickCron(s.scheduleCron).Success? ==> s.id in after && IsFor(after[s.id], s))
    && (forall key :: key in before && !Managed(before, key) ==> key in after && after[key] == before[key])
    && (forall key :: key in after && !Managed(after, key) ==> key in before && before[key] == after[key])
  }

  // ---- The two loops, as functions of the registry ----

  predicate Names(jobs: seq<Repeatable>, key: string) {
    exists r :: r in jobs && r.standupId == key
  }

  function Removed(registry: Registry, toRemove: seq<Repeatable>): Registry {
    map key | key in registry && !Names(toRemove, key) :: registry[key]
  }

  function Upserted(registry: Registry, toAdd: seq<Repeatable>): Registry {
    if toAdd == [] then registry
    else
      var last := toAdd[|toAdd| - 1];
      Upserted(registry, toAdd[..|toAdd| - 1])[last.standupId := Entry(last)]
  }

  /** After the upserts a key holds what it held, or the entry of a job added under it. */
  lemma {:induction false} UpsertedAt(registry: Registry, toAdd: seq<Repeatable>, key: string)
    ensures var after := Upserted(registry, toAdd);
            if Names(toAdd, key)
            then key in after && exists r :: r in toAdd && r.standupId == key && after[key] == Entry(r)
            else (key in after <==> key in registry) && (key in after ==> after[key] == registry[key])
  {
    if toAdd != [] {
      var (front, last) := (toAdd[..|toAdd| - 1], toAdd[|toAdd| - 1]);
      assert toAdd == front + [last];
      UpsertedAt(registry, front, key);
      if last.standupId == key {
        assert last in toAdd;
      } else if Names(toAdd, key) {
        var r :| r in toAdd && r.standupId == key;
        assert r in front;
      }
    }
  }

  lemma SameId(rows: seq<ActiveStandup>, a: ActiveStandup, b: ActiveStandup)
    requires forall i, j :: 0 <= i < j < |rows| ==> rows[i].id != rows[j].id
    requires a in rows && b in rows && a.id == b.id
    ensures a == b
  {
    var i :| 0 <= i < |rows| && rows[i] == a;
    var j :| 0 <= j < |rows| && rows[j] == b;
    assert i == j;
  }

  function Reconciled(registry: Registry, diff: Diff): Registry {
    Upserted(Removed(registry, diff.toRemove), diff.toAdd)
  }

  /** A wanted job of these rows, and the row that wants it. */
  lemma WantingRow(rows: seq<ActiveStandup>, job: Repeatable) returns (s: ActiveStandup)
    requires job in Desired(WellFormedRows(rows))
    ensures s in rows && WellFormed(s) && DesiredJob(s) == job
  {
    var active := WellFormedRows(rows);
    var i :| 0 <= i < |active| && Desired(active)[i] == job;
    s := active[i];
  }

  lemma DesiredOf(rows: seq<ActiveStandup>, s: ActiveStandup)
    requires s in rows && WellFormed(s)
    ensures DesiredJob(s) in Desired(WellFormedRows(rows))
  {
    var active := WellFormedRows(rows);
    var i :| 0 <= i < |active| && active[i] == s;
    assert Desired(active)[i] == DesiredJob(s);
  }

  /** The job wanted under an id is unique. */
  lemma OneWanted(rows: seq<ActiveStandup>, registry: Registry, s: ActiveStandup, job: Repeatable)
    requires ProperRows(rows, registry) && s in rows && WellFormed(s)
    requires job in Desired(WellFormedRows(rows)) && job.standupId == s.id
    ensures job == DesiredJob(s)
  {
    var t := WantingRow(rows, job);
    SameId(rows, s, t);
  }

  ghost predicate Consistent(before: Registry, rows: seq<ActiveStandup>, existing: seq<Repeatable>) {
    ProperRows(rows, before) && Lists(existing, before)
  }

  /** A wanted job that is added ends up registered, whichever job was added last under its id. */
  lemma AddedIsRegistered(before: Registry, rows: seq<ActiveStandup>, registry: Registry,
                          toAdd: seq<Repeatable>, s: ActiveStandup)
    requires ProperRows(rows, before) && s in rows && WellFormed(s) && Names(toAdd, s.id)
    requires forall r :: r in toAdd ==> r in Desired(WellFormedRows(rows))
    ensures Registered(Upserted(registry, toAdd), DesiredJob(s))
  {
    UpsertedAt(registry, toAdd, s.id);
    var r :| r in toAdd && r.standupId == s.id && Upserted(registry, toAdd)[s.id] == Entry(r);
    OneWanted(rows, before, s, r);
    assert AsRepeatable(s.id, Entry(r)) == r;
  }

  /** An entry neither removed nor added to stays registered. */
  lemma KeptIsRegistered(before: Registry, toRemove: seq<Repeatable>, toAdd: seq<Repeatable>, job: Repeatable)
    requires Registered(before, job) && !Names(toRemove, job.standupId) && !Names(toAdd, job.standupId)
    ensures Registered(Upserted(Removed(before, toRemove), toAdd), job)
  {
    UpsertedAt(Removed(before, toRemove), toAdd, job.standupId);
  }

  lemma WantedPresent(before: Registry, rows: seq<ActiveStandup>, existing: seq<Repeatable>, s: ActiveStandup)
    requires Consistent(before, rows, existing) && s in rows && WellFormed(s)
    ensures var after := Reconciled(before, DiffSchedules(WellFormedRows(rows), existing));
            Registered(after, DesiredJob(s))
  {
    var diff := DiffSchedules(WellFormedRows(rows), existing);
    DesiredOf(rows, s);
    if Names(diff.toAdd, s.id) {
      AddedIsRegistered(before, rows, Removed(before, diff.toRemove), diff.toAdd, s);
    } else {
      assert DesiredJob(s) !in diff.toAdd;
      AlreadyThere(before, rows, existing, s);
      KeptIsRegistered(before, diff.toRemove, diff.toAdd, DesiredJob(s));
    }
  }

  /** A wanted job that is listed already is kept, with its pattern and its zone. */
  lemma AlreadyThere(before: Registry, rows: seq<ActiveStandup>, existing: seq<Repeatable>, s: ActiveStandup)
    requires Consistent(before, rows, existing) && s in rows && WellFormed(s) && DesiredJob(s) in existing
    ensures Registered(before, DesiredJob(s))
    ensures !Names(DiffSchedules(WellFormedRows(rows), existing).toRemove, s.id)
  {
    DesiredOf(rows, s);
  }

  lemma OnlyWanted(before: Registry, rows: seq<ActiveStandup>, existing: seq<Repeatable>, key: string)
    requires Consistent(before, rows, existing)
    ensures var after := Reconciled(before, DiffSchedules(WellFormedRows(rows), existing));
            Managed(after, key) ==> WantedJob(rows, key, after[key])
  {
    var diff := DiffSchedules(WellFormedRows(rows), existing);
    var after := Reconciled(before, diff);
    UpsertedAt(Removed(before, diff.toRemove), diff.toAdd, key);
    if Managed(after, key) {
      if Names(diff.toAdd, key) {
        var r :| r in diff.toAdd && r.standupId == key && after[key] == Entry(r);
        var s := WantingRow(rows, r);
        assert WantedJob(rows, key, after[key]);
      } else {
        var r := AsRepeatable(key, before[key]);
        assert r in existing && r !in diff.toRemove;
        var s := WantingRow(rows, r);
        assert AsRepeatable(key, after[key]) == DesiredJob(s);
      }
    }
  }

  lemma OthersUntouched(before: Registry, rows: seq<ActiveStandup>, existing: seq<Repeatable>, key: string)
    requires Consistent(before, rows, existing)
    ensures var after := Reconciled(before, DiffSchedules(WellFormedRows(rows), existing));
            && (key in before && !Managed(before, key) ==> key in after && after[key] == before[key])
            && (key in after && !Managed(after, key) ==> key in before && before[key] == after[key])
  {
    var diff := DiffSchedules(WellFormedRows(rows), existing);
    UpsertedAt(Removed(before, diff.toRemove), diff.toAdd, key);
    if key in before && !Managed(before, key) {
      assert !Names(diff.toRemove, key);
      if Names(diff.toAdd, key) {
        var r :| r in diff.toAdd && r.standupId == key;
        var s := WantingRow(rows, r);
        assert false;
      }
    }
  }

  /**
   From any registry, legacy entries without a pattern or a zone included, one reconciliation makes
   the managed entries exactly those of the well-formed active standups and leaves every other
   scheduler as it was.
   */
  lemma Converges(before: Registry, rows: seq<ActiveStandup>, existing: seq<Repeatable>)
    requires Consistent(before, rows, existing)
    ensures Matches(before, rows, Reconciled(before, DiffSchedules(WellFormedRows(rows), existing)))
  {
    var after := Reconciled(before, DiffSchedules(WellFormedRows(rows), existing));
    forall s | s in rows && WellFormed(s) ensures s.id in after && IsFor(after[s.id], s) {
      WantedPresent(before, rows, existing, s);
      IsForMeans(after, s);
    }
    forall key | Managed(after, key) ensures Wanted(rows, key, after[key]) {
      OnlyWanted(before, rows, existing, key);
      WantedMeans(rows, after, key);
    }
    forall key ensures (key in before && !Managed(before, key) ==> key in after && after[key] == before[key])
                    && (key in after && !Managed(after, key) ==> key in before && before[key] == after[key])
    {
      OthersUntouched(before, rows, existing, key);
    }
  }

  lemma {:induction false} WithoutAll(xs: seq<Repeatable>, ys: seq<Repeatable>)
    requires forall x :: x in xs ==> x in ys
    ensures Without(xs, ys) == []
  {
    if xs != [] {
      assert xs == [xs[0]] + xs[1..];
      WithoutAll(xs[1..], ys);
    }
  }

  /** Where the entries match the standups, the difference is empty. */
  lemma MatchIsIdle(before: Registry, rows: seq<ActiveStandup>, after: Registry, existing: seq<Repeatable>)
    requires Matches(before, rows, after) && ProperRows(rows, after) && Lists(existing, after)
    ensures DiffSchedules(WellFormedRows(rows), existing) == Diff([], [])
  {
    var desired := Desired(WellFormedRows(rows));
    forall r | r in desired ensures r in existing {
      var s := WantingRow(rows, r);
      IsForMeans(after, s);
      assert AsRepeatable(s.id, after[s.id]) == r;
    }
    forall r | r in existing ensures r in desired {
      WantedMeans(rows, after, r.standupId);
      var s :| s in rows && WellFormed(s) && s.id == r.standupId && AsRepeatable(s.id, after[s.id]) == DesiredJob(s);
      DesiredOf(rows, s);
      assert r == DesiredJob(s);
    }
    WithoutAll(desired, existing);
    WithoutAll(existing, desired);
  }

  lemma MatchIsProper(before: Registry, rows: seq<ActiveStandup>, after: Registry)
    requires ProperRows(rows, before) && Matches(before, rows, after)
    ensures ProperRows(rows, after)
  {
  }

  /** No churn: right after a reconciliation, another one adds nothing and removes nothing. */
  lemma SecondIsIdle(before: Registry, rows: seq<ActiveStandup>, existing: seq<Repeatable>, again: seq<Repeatable>)
    requires Consistent(before, rows, existing)
    requires Lists(again, Reconciled(before, DiffSchedules(WellFormedRows(rows), existing)))
    ensures Consistent(Reconciled(before, DiffSchedules(WellFormedRows(rows), existing)), rows, again)
    ensures DiffSchedules(WellFormedRows(rows), again) == Diff([], [])
  {
    Converges(before, rows, existing);
    var after := Reconciled(before, DiffSchedules(WellFormedRows(rows), existing));
    MatchIsProper(before, rows, after);
    MatchIsIdle(before, rows, after, again);
  }

  lemma NamesAppend(jobs: seq<Repeatable>, last: Repeatable, key: string)
    ensures Names(jobs + [last], key) <==> Names(jobs, key) || last.standupId == key
  {
    assert last in jobs + [last];
    if Names(jobs, key) {
      var r :| r in jobs && r.standupId == key;
      assert r in jobs + [last];
    }
  }

  // ---- What the filter lets through ----

  /** The filter keeps a standup exactly if its cron has at least five fields. */
  lemma FilterCountsFields(s: ActiveStandup)
    ensures WellFormed(s) <==> |Words(Trim(s.scheduleCron))| >= 5
  {
    TickDerived(s.scheduleCron);
  }

  /** The pattern handed to upsertJobScheduler is itself a cron this service parses exactly if it has a weekday. */
  lemma PatternParsesExactly(s: ActiveStandup)
    requires WellFormed(s)
    ensures Parse(DesiredJob(s).pattern).Success? <==> Parse(s.scheduleCron).value.weekdays != []
  {
    TickParses(s.scheduleCron);
  }

  /** `0 9 * * MON-FRI` */
  function NamedDaysCron(): string {
    Template("0", "9", RangeToken("MON", "FRI"))
  }

  lemma NamedDaysText()
    ensures NamedDaysCron() == "0 9 * * MON-FRI"
  {
    TokenMeaning("MON", "FRI");
    assert "MON" + "-" + "FRI" == "MON-FRI";
    TemplateText("0", "9", "MON-FRI");
    assert "0" + " " + "9" == "0 9";
    assert "0 9" + " * * " == "0 9 * * ";
  }

  lemma EmptyTickText()
    ensures Template("5", "0", "") == "5 0 * * "
  {
    TemplateText("5", "0", "");
    assert "5" + " " + "0" == "5 0";
  }

  lemma NamedDaysNameNone()
    ensures Parse(NamedDaysCron()).Success? && Parse(NamedDaysCron()).value.weekdays == []
  {
    assert !IsDigit("MON"[0]);
    NamedRangeParses("0", "9", "MON", "FRI");
  }

  /** Days given as a range of names pass the filter, and the pattern handed on has an empty day field. */
  lemma NamedDaysPassTheFilter(id: string, tz: string)
    ensures var s := ActiveStandup(id, "0 9 * * MON-FRI", tz);
            WellFormed(s) && DesiredJob(s).pattern == "5 0 * * " && Parse(DesiredJob(s).pattern).Failure?
  {
    NamedDaysText();
    EmptyTickText();
    NamedDaysNameNone();
    TickParses(NamedDaysCron());
  }

  /** A single day that is no number passes the filter too, and is handed on as the day NaN. */
  lemma NonNumericDayIsHandedOn(id: string, tz: string, hour: nat, minute: nat)
    ensures var cron := CronFromWeekly(WeeklySchedule([NaN], Nat(hour), Nat(minute)));
            var s := ActiveStandup(id, cron, tz);
            WellFormed(s) && DesiredJob(s) == Repeatable(id, Template("5", "0", "NaN"), tz)
  {
    var w := WeeklySchedule([NaN], Nat(hour), Nat(minute));
    RoundTrip(w);
    SortedDistinctCanonical([NaN], [NaN]);
    assert Printed([NaN]) == ["NaN"];
  }

  class Queue {
    var registry: Registry

    /** getJobSchedulers, filtered and mapped to the reconciler's shape. */
    method ListOpenRuns() returns (existing: seq<Repeatable>)
      ensures Lists(existing, registry)
    {
      existing := [];
      var rest := registry.Keys;
      while rest != {}
        invariant rest <= registry.Keys
        invariant forall r :: r in existing ==>
                    Managed(registry, r.standupId)
                    && r == AsRepeatable(r.standupId, registry[r.standupId])
        invariant forall key :: Managed(registry, key) && key !in rest ==>
                    AsRepeatable(key, registry[key]) in existing
        decreases |rest|
      {
        var key :| key in rest;
        rest := rest - {key};
        if Managed(registry, key) {
          existing := existing + [AsRepeatable(key, registry[key])];
        }
      }
    }

    /** removeJobScheduler for each obsolete entry. */
    method RemoveAll(toRemove: seq<Repeatable>)
      modifies this
      ensures registry == Removed(old(registry), toRemove)
    {
      for i := 0 to |toRemove|
        invariant registry == Removed(old(registry), toRemove[..i])
      {
        assert toRemove[..i + 1] == toRemove[..i] + [toRemove[i]];
        forall key { NamesAppend(toRemove[..i], toRemove[i], key); }
        registry := registry - {toRemove[i].standupId};
      }
      assert toRemove[..|toRemove|] == toRemove;
    }

    /** upsertJobScheduler for each missing entry. */
    method UpsertAll(toAdd: seq<Repeatable>)
      modifies this
      ensures registry == Upserted(old(registry), toAdd)
    {
      for n := 0 to |toAdd|
        invariant registry == Upserted(old(registry), toAdd[..n])
      {
        assert toAdd[..n + 1][..n] == toAdd[..n];
        registry := registry[toAdd[n].standupId := Entry(toAdd[n])];
      }
      assert toAdd[..|toAdd|] == toAdd;
    }

    /** The try/catch loop: a standup whose cron does not parse is skipped. */
    method KeepWellFormed(rows: seq<ActiveStandup>) returns (active: seq<ActiveStandup>)
      ensures active == WellFormedRows(rows)
    {
      active := [];
      for i := 0 to |rows|
        invariant active == WellFormedRows(rows[..i])
      {
        assert rows[..i + 1][..i] == rows[..i];
        if DeriveTickCron(rows[i].scheduleCron).Success? {
          active := active + [rows[i]];
        }
      }
      assert rows[..|rows|] == rows;
    }

    /** One reconciliation. The result says what was added and removed. */
    method ReconcileSchedules(rows: seq<ActiveStandup>) returns (diff: Diff)
      requires ProperRows(rows, registry)
      modifies this
      ensures Matches(old(registry), rows, registry)
      ensures registry == Reconciled(old(registry), diff)
      ensures exists existing :: Lists(existing, old(registry)) && diff == DiffSchedules(WellFormedRows(rows), existing)
    {
      var active := KeepWellFormed(rows);
      var existing := ListOpenRuns();
      diff := DiffSchedules(active, existing);
      Converges(registry, rows, existing);
      RemoveAll(diff.toRemove);
      UpsertAll(diff.toAdd);
    }
  }
}
