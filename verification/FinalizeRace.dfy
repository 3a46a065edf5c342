/**
 finalizeRunIfDone taken apart into its three database statements (packages/db/src/runs.ts), with
 any number of callers interleaving: read the run, read the reports, update under a guard.

 Each caller first makes its own report terminal, as the timeout handler and the api do.
 */
module FinalizeRace {

  datatype Stage =
    | Replying                    // its own report is still open
    | Marked                      // report terminal, finalize about to read the run
    | RunRead                     // the run was not completed when read
    | ReportsRead                 // all reports were terminal when read
    | Returned(completed: bool)   // finalize's result

  /** callers[i] works on report i; `others` are reports no caller works on. */
  datatype World = World(runCompleted: bool, callers: seq<Stage>, others: seq<bool>)

  /** others[j] says whether that report is terminal. */
  ghost predicate AllTerminal(w: World) {
    && (forall i :: 0 <= i < |w.callers| ==> w.callers[i] != Replying)
    && (forall j :: 0 <= j < |w.others| ==> w.others[j])
  }

  /** One statement of caller i. */
  ghost function Advance(w: World, i: nat): World
    requires i < |w.callers|
  {
    var next :=
      match w.callers[i]
      case Replying => Marked
      case Marked => if w.runCompleted then Returned(false) else RunRead
      case RunRead => if AllTerminal(w) then ReportsRead else Returned(false)
      case ReportsRead => Returned(!w.runCompleted)
      case Returned(b) => Returned(b);
    World(w.runCompleted || w.callers[i].ReportsRead?, w.callers[i := next], w.others)
  }

  /** Any interleaving: schedule[n] is the caller that moves n-th. */
  ghost function Execute(w: World, schedule: seq<nat>): World
    requires forall n :: 0 <= n < |schedule| ==> schedule[n] < |w.callers|
    ensures |Execute(w, schedule).callers| == |w.callers|
    decreases |schedule|
  {
    if schedule == [] then w
    else Advance(Execute(w, schedule[..|schedule| - 1]), schedule[|schedule| - 1])
  }

  ghost predicate Start(w: World) {
    !w.runCompleted && forall i :: 0 <= i < |w.callers| ==> w.callers[i] == Replying
  }

  // ---- What every interleaving keeps ----

  /** How many callers were told they completed the run. */
  function Winners(callers: seq<Stage>): nat {
    if callers == [] then 0
    else Winners(callers[..|callers| - 1]) + (if callers[|callers| - 1] == Returned(true) then 1 else 0)
  }

  /** This caller may still complete the run. */
  predicate Pending(stage: Stage) {
    stage.Marked? || stage.RunRead? || stage.ReportsRead?
  }

  ghost predicate SomePending(w: World) {
    exists i :: 0 <= i < |w.callers| && Pending(w.callers[i])
  }

  /** While all reports are terminal and the run is not completed, somebody is about to look. */
  ghost predicate Live(w: World) {
    AllTerminal(w) && !w.runCompleted ==> SomePending(w)
  }

  ghost predicate Sound(w: World) {
    && (w.runCompleted ==> AllTerminal(w))
    && (forall i :: 0 <= i < |w.callers| && w.callers[i].ReportsRead? ==> AllTerminal(w))
    && (w.callers != [] ==> Live(w))
    && Winners(w.callers) == (if w.runCompleted then 1 else 0)
  }

  lemma {:induction false} WinnersUpdate(callers: seq<Stage>, i: nat, stage: Stage)
    requires i < |callers|
    ensures Winners(callers[i := stage]) - (if stage == Returned(true) then 1 else 0)
         == Winners(callers) - (if callers[i] == Returned(true) then 1 else 0)
  {
    var n := |callers| - 1;
    if i < n {
      WinnersUpdate(callers[..n], i, stage);
      assert callers[i := stage][..n] == callers[..n][i := stage];
    } else {
      assert callers[i := stage][..n] == callers[..n];
    }
  }

  lemma {:induction false} NoWinners(callers: seq<Stage>)
    requires forall i :: 0 <= i < |callers| ==> callers[i] == Replying
    ensures Winners(callers) == 0
  {
    if callers != [] {
      NoWinners(callers[..|callers| - 1]);
    }
  }

  lemma AdvanceLive(w: World, i: nat)
    requires Live(w) && i < |w.callers|
    ensures Live(Advance(w, i))
  {
    var t := Advance(w, i);
    if AllTerminal(t) && !t.runCompleted {
      if AllTerminal(w) {
        var p :| 0 <= p < |w.callers| && Pending(w.callers[p]);
        assert Pending(t.callers[p]);
      } else {
        assert forall k :: 0 <= k < |w.callers| && k != i ==> t.callers[k] == w.callers[k];
        assert w.callers[i] != Replying ==> AllTerminal(w);
        assert Pending(t.callers[i]);
      }
    }
  }

  lemma AdvanceSound(w: World, i: nat)
    requires Sound(w) && i < |w.callers|
    ensures Sound(Advance(w, i))
  {
    var t := Advance(w, i);
    WinnersUpdate(w.callers, i, t.callers[i]);
    assert AllTerminal(w) ==> AllTerminal(t);
    AdvanceLive(w, i);
  }

  lemma {:induction false} ExecuteSound(w: World, schedule: seq<nat>)
    requires Sound(w)
    requires forall n :: 0 <= n < |schedule| ==> schedule[n] < |w.callers|
    ensures Sound(Execute(w, schedule)) && Execute(w, schedule).others == w.others
    decreases |schedule|
  {
    if schedule != [] {
      var before := schedule[..|schedule| - 1];
      ExecuteSound(w, before);
      AdvanceSound(Execute(w, before), schedule[|schedule| - 1]);
    }
  }

  /**
   Overlapping callers converge to one completion. Whatever the interleaving, the run is never
   completed while a report is open; and when all callers have returned and the reports nobody
   worked on were terminal, the run is completed and exactly one caller was told so.
   */
  lemma Converges(w: World, schedule: seq<nat>)
    requires Start(w) && w.callers != []
    requires forall n :: 0 <= n < |schedule| ==> schedule[n] < |w.callers|
    ensures Execute(w, schedule).runCompleted ==> AllTerminal(Execute(w, schedule))
    ensures (forall i :: 0 <= i < |w.callers| ==> Execute(w, schedule).callers[i].Returned?) ==>
              var t := Execute(w, schedule);
              && (t.runCompleted <==> forall j :: 0 <= j < |w.others| ==> w.others[j])
              && Winners(t.callers) == (if t.runCompleted then 1 else 0)
  {
    NoWinners(w.callers);
    assert w.callers[0] == Replying;
    ExecuteSound(w, schedule);
  }

  /** Every caller that keeps moving returns: four statements each are enough. */
  function Remaining(stage: Stage): nat {
    match stage
    case Replying => 4
    case Marked => 3
    case RunRead => 2
    case ReportsRead => 1
    case Returned(_) => 0
  }

  lemma CallersReturn(w: World, i: nat)
    requires i < |w.callers|
    ensures Remaining(Advance(w, i).callers[i]) < Remaining(w.callers[i]) || w.callers[i].Returned?
    ensures forall j :: 0 <= j < |w.callers| && j != i ==> Advance(w, i).callers[j] == w.callers[j]
  {
  }

  /** Undisturbed, the three statements are the atomic step the handlers are modelled with. */
  lemma Undisturbed(w: World, i: nat)
    requires i < |w.callers| && w.callers[i] == Marked
    ensures var t := Advance(Advance(Advance(w, i), i), i);
            && t.runCompleted == (w.runCompleted || AllTerminal(w))
            && t.callers == w.callers[i := Returned(!w.runCompleted && AllTerminal(w))]
  {
    var a := Advance(w, i);
    assert AllTerminal(a) <==> AllTerminal(w) by {
      assert forall k :: 0 <= k < |w.callers| && k != i ==> a.callers[k] == w.callers[k];
    }
  }

  // ---- When a report is opened again ----

  /** retrigger's first statement: one more report is open, with a closer of its own to come. */
  ghost function OpenReport(w: World): World {
    World(w.runCompleted, w.callers + [Replying], w.others)
  }

  /** retrigger's second statement: the run is set running. */
  ghost function SetRunning(w: World): World {
    World(false, w.callers, w.others)
  }

  /** Both at once. Every caller under way goes on, the one that closed the report before included. */
  ghost function Reopen(w: World): World {
    SetRunning(OpenReport(w))
  }

  /** Never completed over an open report, and no caller about to do so. */
  ghost predicate Safe(w: World) {
    (w.runCompleted ==> AllTerminal(w)) && UpdatersRight(w)
  }

  /** Who is about to update has read all reports as terminal, and they still are. */
  ghost predicate UpdatersRight(w: World) {
    forall j :: 0 <= j < |w.callers| && w.callers[j].ReportsRead? ==> AllTerminal(w)
  }

  /** No caller stands between its read of the reports and its update. */
  ghost predicate NoneUpdating(w: World) {
    forall j :: 0 <= j < |w.callers| ==> !w.callers[j].ReportsRead?
  }

  ghost predicate InRange(w: World, schedule: seq<nat>) {
    forall n :: 0 <= n < |schedule| ==> schedule[n] < |w.callers|
  }

  /** If the schedule makes sense for w, it does not end with the run completed over an open report. */
  ghost predicate EndsWell(w: World, schedule: seq<nat>) {
    InRange(w, schedule) ==> (Execute(w, schedule).runCompleted ==> AllTerminal(Execute(w, schedule)))
  }

  lemma AdvanceSafe(w: World, i: nat)
    requires UpdatersRight(w) && i < |w.callers|
    ensures UpdatersRight(Advance(w, i)) && (AllTerminal(w) ==> AllTerminal(Advance(w, i)))
    ensures Advance(w, i).runCompleted ==> w.runCompleted || AllTerminal(Advance(w, i))
  {
    assert AllTerminal(w) ==> AllTerminal(Advance(w, i));
  }

  lemma {:induction false} ExecuteSafe(w: World, schedule: seq<nat>)
    requires Safe(w) && InRange(w, schedule)
    ensures Safe(Execute(w, schedule))
    decreases |schedule|
  {
    if schedule != [] {
      var before := schedule[..|schedule| - 1];
      ExecuteSafe(w, before);
      AdvanceSafe(Execute(w, before), schedule[|schedule| - 1]);
    }
  }

  lemma OpenedIsOpen(w: World)
    ensures !AllTerminal(OpenReport(w))
    ensures forall j :: 0 <= j < |w.callers| ==> OpenReport(w).callers[j] == w.callers[j]
    ensures NoneUpdating(w) <==> NoneUpdating(OpenReport(w))
  {
    assert OpenReport(w).callers[|w.callers|] == Replying;
  }

  lemma ExecuteOne(w: World, i: nat)
    requires i < |w.callers|
    ensures Execute(w, [i]) == Advance(w, i)
  {
    assert [i][..0] == [];
  }

  /** The guard of the update looks at the run only, so a caller that read before the reopening overruns it. */
  lemma Overrun(w: World, j: nat)
    requires j < |w.callers| && w.callers[j].ReportsRead?
    ensures !EndsWell(Reopen(w), [j])
  {
    OpenedIsOpen(w);
    ExecuteOne(Reopen(w), j);
    assert Advance(Reopen(w), j).callers[|w.callers|] == Replying;
  }

  /**
   A report may be opened again without any later interleaving ever completing the run over an open
   report if and only if no caller stands between its read of the reports and its update.
   */
  lemma ReopenSafeExactly(w: World)
    requires Safe(w)
    ensures (forall schedule :: EndsWell(Reopen(w), schedule)) <==> NoneUpdating(w)
  {
    OpenedIsOpen(w);
    if NoneUpdating(w) {
      forall schedule ensures EndsWell(Reopen(w), schedule) {
        if InRange(Reopen(w), schedule) {
          ExecuteSafe(Reopen(w), schedule);
        }
      }
    } else {
      var j :| 0 <= j < |w.callers| && w.callers[j].ReportsRead?;
      Overrun(w, j);
    }
  }

  /** From the start a badly timed reopening can happen, with a single caller: that of the report itself. */
  lemma OverrunIsReachable() returns (w: World, schedule: seq<nat>)
    ensures Start(w) && InRange(w, schedule)
    ensures Safe(Execute(w, schedule)) && !EndsWell(Reopen(Execute(w, schedule)), [0])
  {
    w := One(Replying);
    assert w.callers[0] == Replying;
    schedule := [0];
    MoveOne(Replying);
    ExecuteOne(w, 0);
    schedule := MoveOn(w, schedule, Marked);
    schedule := MoveOn(w, schedule, RunRead);
    Overrun(One(ReportsRead), 0);
    ExecuteSafe(w, schedule);
  }

  function One(stage: Stage): World {
    World(false, [stage], [])
  }

  function NextStage(stage: Stage): Stage {
    match stage
    case Replying => Marked
    case Marked => RunRead
    case RunRead => ReportsRead
    case _ => stage
  }

  lemma MoveOne(stage: Stage)
    requires !stage.ReportsRead?
    ensures Advance(One(stage), 0) == One(NextStage(stage))
  {
    assert One(stage).callers[0] == stage;
    assert [stage][0 := NextStage(stage)] == [NextStage(stage)];
  }

  lemma MoveOn(w: World, before: seq<nat>, stage: Stage) returns (schedule: seq<nat>)
    requires w == One(Replying) && InRange(w, before) && Execute(w, before) == One(stage) && !stage.ReportsRead?
    ensures InRange(w, schedule) && Execute(w, schedule) == One(NextStage(stage))
  {
    schedule := before + [0];
    assert schedule[..|before|] == before;
    MoveOne(stage);
  }

  // ---- Whole histories, with retrigger's two statements ----

  /** The world, and how many retriggers stand between their two statements. */
  datatype Site = Site(w: World, between: nat)

  datatype Happening = Moves(caller: nat) | Opens | SetsRunning | Reopens

  ghost function Happen(s: Site, h: Happening): Site {
    match h
    case Moves(i) => if i < |s.w.callers| then Site(Advance(s.w, i), s.between) else s
    case Opens => Site(OpenReport(s.w), s.between + 1)
    case SetsRunning => if s.between > 0 then Site(SetRunning(s.w), s.between - 1) else s
    case Reopens => Site(Reopen(s.w), s.between)
  }

  ghost function HappenAll(s: Site, history: seq<Happening>): Site {
    if history == [] then s
    else Happen(HappenAll(s, history[..|history| - 1]), history[|history| - 1])
  }

  // Never completed over an open report.

  /** Outside retriggers under way, the run is not completed over an open report. */
  ghost predicate Right(s: Site) {
    s.w.runCompleted && s.between == 0 ==> AllTerminal(s.w)
  }

  ghost predicate SafeSite(s: Site) {
    Right(s) && UpdatersRight(s.w)
  }

  /** A report is opened only while no caller is about to update. */
  ghost predicate Timely(s: Site, h: Happening) {
    h.Opens? || h.Reopens? ==> NoneUpdating(s.w)
  }

  ghost predicate WellTimed(s: Site, history: seq<Happening>) {
    history != [] ==>
      var before, last := history[..|history| - 1], history[|history| - 1];
      WellTimed(s, before) && Timely(HappenAll(s, before), last)
  }

  lemma HappenSafe(s: Site, h: Happening)
    requires SafeSite(s) && Timely(s, h)
    ensures SafeSite(Happen(s, h))
  {
    OpenedIsOpen(s.w);
    if h.Moves? && h.caller < |s.w.callers| {
      AdvanceSafe(s.w, h.caller);
    }
  }

  /** With any number of well-timed reopenings, the run is never left completed over an open report. */
  lemma {:induction false} WellTimedIsSafe(s: Site, history: seq<Happening>)
    requires SafeSite(s) && WellTimed(s, history)
    ensures SafeSite(HappenAll(s, history))
    decreases |history|
  {
    if history != [] {
      WellTimedIsSafe(s, history[..|history| - 1]);
      HappenSafe(HappenAll(s, history[..|history| - 1]), history[|history| - 1]);
    }
  }

  predicate OpensNothing(history: seq<Happening>) {
    forall n :: 0 <= n < |history| ==> !history[n].Opens? && !history[n].Reopens?
  }

  lemma {:induction false} OpensNothingIsTimely(s: Site, history: seq<Happening>)
    requires OpensNothing(history)
    ensures WellTimed(s, history)
    decreases |history|
  {
    if history != [] {
      OpensNothingIsTimely(s, history[..|history| - 1]);
    }
  }

  /** The retriggers under way finish, nobody else moves. */
  lemma {:induction false} Drain(s: Site) returns (history: seq<Happening>)
    requires s.between > 0
    ensures OpensNothing(history) && HappenAll(s, history) == Site(SetRunning(s.w), 0)
    decreases s.between
  {
    history := [SetsRunning];
    assert [SetsRunning][..0] == [];
    if s.between > 1 {
      var rest := Drain(Happen(s, SetsRunning));
      HappenAfter(s, [SetsRunning], rest);
      history := [SetsRunning] + rest;
    }
  }

  lemma {:induction false} HappenAfter(s: Site, before: seq<Happening>, after: seq<Happening>)
    ensures HappenAll(s, before + after) == HappenAll(HappenAll(s, before), after)
    decreases |after|
  {
    if after == [] {
      assert before + after == before;
    } else {
      var n := |after| - 1;
      HappenAfter(s, before, after[..n]);
      assert (before + after)[..|before + after| - 1] == before + after[..n];
    }
  }

  /**
   The exact moment for retrigger's first statement: no continuation that opens nothing more ends
   with the run completed over an open report if and only if no caller was about to update.
   */
  lemma OpenSafeExactly(s: Site)
    requires SafeSite(s)
    ensures (forall history :: OpensNothing(history) ==> Right(HappenAll(Happen(s, Opens), history)))
       <==> NoneUpdating(s.w)
  {
    var after := Happen(s, Opens);
    OpenedIsOpen(s.w);
    if NoneUpdating(s.w) {
      forall history | OpensNothing(history) ensures Right(HappenAll(after, history)) {
        OpensNothingIsTimely(after, history);
        WellTimedIsSafe(after, history);
      }
    } else {
      var j :| 0 <= j < |s.w.callers| && s.w.callers[j].ReportsRead?;
      var drained := Drain(after);
      HappenAfter(after, drained, [Moves(j)]);
      assert [Moves(j)][..0] == [];
      var ended := HappenAll(after, drained + [Moves(j)]);
      assert ended.w.callers[|s.w.callers|] == Replying;
      assert !Right(ended);
    }
  }

  // Completions balance reopenings.

  /** How often the run was set running again after it had been completed. */
  ghost function Revivals(s: Site, history: seq<Happening>): nat {
    if history == [] then 0
    else
      var before, last := history[..|history| - 1], history[|history| - 1];
      var at := HappenAll(s, before);
      Revivals(s, before) +
      (if at.w.runCompleted && (last.Reopens? || (last.SetsRunning? && at.between > 0)) then 1 else 0)
  }

  lemma OpenedWinners(w: World)
    ensures Winners(OpenReport(w).callers) == Winners(w.callers)
  {
    assert (w.callers + [Replying])[..|w.callers|] == w.callers;
  }

  /**
   Whatever happens, in whatever order: finalize told once more that it completed the run than the
   run was set running again out of completed if it is completed now, and as often if not.
   */
  lemma {:induction false} WinnersBalance(w: World, history: seq<Happening>)
    requires Start(w)
    ensures var s := Site(w, 0);
            var t := HappenAll(s, history).w;
            Winners(t.callers) == Revivals(s, history) + (if t.runCompleted then 1 else 0)
    decreases |history|
  {
    if history == [] {
      NoWinners(w.callers);
    } else {
      var before, last := history[..|history| - 1], history[|history| - 1];
      WinnersBalance(w, before);
      var at := HappenAll(Site(w, 0), before);
      OpenedWinners(at.w);
      if last.Moves? && last.caller < |at.w.callers| {
        WinnersUpdate(at.w.callers, last.caller, Advance(at.w, last.caller).callers[last.caller]);
      }
    }
  }

  // No run is left running with nothing to do.

  ghost predicate AllReturned(w: World) {
    forall i :: 0 <= i < |w.callers| ==> w.callers[i].Returned?
  }

  /** All have returned and all reports are terminal, and yet the run is not completed. */
  ghost predicate Stranded(w: World) {
    AllReturned(w) && AllTerminal(w) && !w.runCompleted
  }

  ghost predicate NotStrandedBy(w: World, schedule: seq<nat>) {
    InRange(w, schedule) ==> !Stranded(Execute(w, schedule))
  }

  lemma {:induction false} ExecuteLive(w: World, schedule: seq<nat>)
    requires Live(w) && InRange(w, schedule)
    ensures Live(Execute(w, schedule))
    decreases |schedule|
  {
    if schedule != [] {
      var before := schedule[..|schedule| - 1];
      ExecuteLive(w, before);
      AdvanceLive(Execute(w, before), schedule[|schedule| - 1]);
    }
  }

  /**
   Setting the run running strands it in some interleaving if and only if every report is terminal
   by then and nobody is about to look: its report was opened and closed again between retrigger's
   two statements, and its closer met the run still completed.
   */
  lemma StrandsExactly(w: World)
    ensures (exists schedule :: !NotStrandedBy(SetRunning(w), schedule)) <==> AllTerminal(w) && !SomePending(w)
  {
    var v := SetRunning(w);
    assert AllTerminal(v) <==> AllTerminal(w);
    assert SomePending(v) <==> SomePending(w);
    if AllTerminal(w) && !SomePending(w) {
      assert Execute(v, []) == v;
      assert AllReturned(v) by {
        forall i | 0 <= i < |v.callers| ensures v.callers[i].Returned? {
          assert !Pending(v.callers[i]);
        }
      }
      assert !NotStrandedBy(v, []);
    } else {
      forall schedule ensures NotStrandedBy(v, schedule) {
        if InRange(v, schedule) {
          ExecuteLive(v, schedule);
        }
      }
    }
  }

  /** The run is not set running over terminal reports that nobody is about to look at. */
  ghost predicate Covered(s: Site, h: Happening) {
    h.SetsRunning? && s.between > 0 ==> !AllTerminal(s.w) || SomePending(s.w)
  }

  ghost predicate AllCovered(s: Site, history: seq<Happening>) {
    history != [] ==>
      var before, last := history[..|history| - 1], history[|history| - 1];
      AllCovered(s, before) && Covered(HappenAll(s, before), last)
  }

  lemma HappenLive(s: Site, h: Happening)
    requires Live(s.w) && Covered(s, h)
    ensures Live(Happen(s, h).w)
  {
    OpenedIsOpen(s.w);
    if h.Moves? && h.caller < |s.w.callers| {
      AdvanceLive(s.w, h.caller);
    }
  }

  /** Then, in any history, once all callers have returned and all reports are terminal the run is completed. */
  lemma {:induction false} NeverStranded(w: World, history: seq<Happening>)
    requires Start(w) && w.callers != [] && AllCovered(Site(w, 0), history)
    ensures Live(HappenAll(Site(w, 0), history).w) && !Stranded(HappenAll(Site(w, 0), history).w)
    decreases |history|
  {
    if history == [] {
      assert w.callers[0] == Replying;
    } else {
      NeverStranded(w, history[..|history| - 1]);
      HappenLive(HappenAll(Site(w, 0), history[..|history| - 1]), history[|history| - 1]);
    }
  }

  predicate AtOnce(history: seq<Happening>) {
    forall n :: 0 <= n < |history| ==> history[n].Moves? || history[n].Reopens?
  }

  /** In particular where retrigger's two statements are never torn apart, whenever reports are opened again. */
  lemma {:induction false} AtOnceIsCovered(s: Site, history: seq<Happening>)
    requires AtOnce(history)
    ensures AllCovered(s, history)
    decreases |history|
  {
    if history != [] {
      AtOnceIsCovered(s, history[..|history| - 1]);
    }
  }

  lemma HappenNext(s: Site, before: seq<Happening>, h: Happening)
    ensures HappenAll(s, before + [h]) == Happen(HappenAll(s, before), h)
  {
    assert (before + [h])[..|before|] == before;
  }

  /** A single caller is about to complete the run. */
  lemma AboutToComplete() returns (history: seq<Happening>)
    ensures HappenAll(Site(One(Replying), 0), history) == Site(One(ReportsRead), 0)
  {
    var s := Site(One(Replying), 0);
    history := [];
    HappenNext(s, history, Moves(0));
    history := history + [Moves(0)];
    MoveOne(Replying);
    HappenNext(s, history, Moves(0));
    history := history + [Moves(0)];
    MoveOne(Marked);
    HappenNext(s, history, Moves(0));
    history := history + [Moves(0)];
    MoveOne(RunRead);
  }

  /** A run is stranded: completed, its report opened again and closed at once, then set running. */
  lemma StrandingIsReachable() returns (w: World, history: seq<Happening>)
    ensures Start(w) && Stranded(HappenAll(Site(w, 0), history).w)
  {
    w := One(Replying);
    assert w.callers[0] == Replying;
    var s := Site(w, 0);
    history := AboutToComplete();
    ClosedBetween(HappenAll(s, history));
    HappenNext(s, history, Moves(0));
    history := history + [Moves(0)];
    HappenNext(s, history, Opens);
    history := history + [Opens];
    HappenNext(s, history, Moves(1));
    history := history + [Moves(1)];
    HappenNext(s, history, Moves(1));
    history := history + [Moves(1)];
    HappenNext(s, history, SetsRunning);
    history := history + [SetsRunning];
  }

  lemma ClosedBetween(read: Site)
    requires read == Site(One(ReportsRead), 0)
    ensures var done := Happen(read, Moves(0));
            var closed := Happen(Happen(Happen(done, Opens), Moves(1)), Moves(1));
            Stranded(Happen(closed, SetsRunning).w)
  {
    var done := Happen(read, Moves(0));
    assert done == Site(World(true, [Returned(true)], []), 0);
    var again := Happen(done, Opens);
    assert again == Site(World(true, [Returned(true), Replying], []), 1);
    var marked := Happen(again, Moves(1));
    assert marked == Site(World(true, [Returned(true), Marked], []), 1);
    var closed := Happen(marked, Moves(1));
    assert closed == Site(World(true, [Returned(true), Returned(false)], []), 1);
  }
}
