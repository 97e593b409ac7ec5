/**
 * The state of the `GlowUpApp` component that its effects and handlers
 * update: the local key-value store holding the programme start date, the
 * current programme day, the analysis step, the progress bar and the stored
 * analysis. The clock, the parsed start date and the exceptions of the
 * analysis run are parameters of the methods.
 */
module App {
  import opened Js
  import opened Calendar
  import opened Catalogue
  import opened Navigation
  import opened Analysis

  /** The local-storage key under which the start date is kept. */
  const StartDateKey: string := "glowup_start_date"

  /** `!savedStartDate`: an absent key and a stored empty string are both falsy. */
  predicate StartDateMissing(storage: map<string, string>)
  {
    StartDateKey !in storage || storage[StartDateKey] == ""
  }

  /**
   * The start-date effect on the store: when no start date is stored, today's
   * date is written and used; otherwise the stored one is used and kept.
   */
  function InitStore(storage: map<string, string>, today: string): (r: (map<string, string>, string))
    ensures StartDateKey in r.0 && r.0[StartDateKey] == r.1
    ensures StartDateMissing(storage) ==> r.1 == today
    ensures !StartDateMissing(storage) ==> r.0 == storage
    ensures forall k :: k != StartDateKey ==> (k in r.0 <==> k in storage)
    ensures forall k :: k != StartDateKey && k in storage ==> r.0[k] == storage[k]
  {
    if StartDateMissing(storage) then (storage[StartDateKey := today], today)
    else (storage, storage[StartDateKey])
  }

  /**
   * First write wins: once a non-empty date is stored, a later start-up with
   * any other date neither changes the store nor the date used.
   */
  lemma InitStoreFirstWriteWins(storage: map<string, string>, today: string, later: string)
    requires today != ""
    ensures var (s1, d1) := InitStore(storage, today);
      InitStore(s1, later) == (s1, d1)
  {
  }

  class GlowUpApp {
    var storage: map<string, string>
    var startDate: Option<string>
    var currentDay: int
    var step: Step
    var progress: int
    var analysis: Option<SkinAnalysis>
    /** The signed-in user's id; empty until authentication sets it. */
    var userId: string
    /** Every value written to `progress` and to `step`, in order. */
    ghost var progressTrace: seq<int>
    ghost var stepTrace: seq<Step>

    ghost predicate Valid()
      reads this
    {
      0 <= currentDay <= ProgramDays &&
      0 <= progress <= 100 &&
      (step == Results ==> analysis.Some?) &&
      (startDate.Some? ==> StartDateKey in storage && storage[StartDateKey] == startDate.value)
    }

    /** The initial React state, over whatever the browser's store already holds. */
    constructor (stored: map<string, string>)
      ensures Valid()
      ensures storage == stored && startDate == None && currentDay == 1
      ensures step == Upload && progress == 0 && analysis == None && userId == ""
      ensures progressTrace == [] && stepTrace == []
    {
      storage := stored;
      startDate := None;
      currentDay := 1;
      step := Upload;
      progress := 0;
      analysis := None;
      userId := "";
      progressTrace := [];
      stepTrace := [];
    }

    /** The start-date effect, with `today` the ISO date of the clock. */
    method InitStartDate(today: string)
      requires Valid()
      modifies this`storage, this`startDate
      ensures Valid()
      ensures (storage, startDate) == (InitStore(old(storage), today).0, Some(InitStore(old(storage), today).1))
    {
      if StartDateKey !in storage || storage[StartDateKey] == "" {
        storage := storage[StartDateKey := today];
        startDate := Some(today);
      } else {
        startDate := Some(storage[StartDateKey]);
      }
    }

    /**
     * The day-calculation effect; `startMs` is the start date as parsed by
     * `new Date`, `nowMs` the clock. Nothing happens while no date is set.
     */
    method RecalculateDay(startMs: int, nowMs: int)
      requires Valid()
      modifies this`currentDay
      ensures Valid()
      ensures startDate.Some? && startDate.value != "" ==> currentDay == ResolveDay(startMs, nowMs)
      ensures startDate.None? || startDate.value == "" ==> currentDay == old(currentDay)
    {
      if startDate.Some? && startDate.value != "" {
        currentDay := ResolveDay(startMs, nowMs);
      }
    }

    /** `routines[currentDay - 1]` over the shipped catalogue. */
    function CurrentRoutine(): (r: Option<DayRoutine>)
      reads this
      ensures r.Some? <==> currentDay == 1 || currentDay == 2
      ensures r.Some? ==> r.value.day == currentDay
    {
      RoutinesWellIndexed();
      RoutineAt(Routines(), currentDay)
    }

    /** The "Dia Anterior" handler. */
    method PreviousDay()
      requires Valid()
      modifies this`currentDay
      ensures Valid()
      ensures currentDay == Navigate(old(currentDay), Previous)
      ensures currentDay == if old(currentDay) > 1 then old(currentDay) - 1 else 1
    {
      currentDay := Max(1, currentDay - 1);
    }

    /** The "Próximo Dia" handler: its guard compares against the very day it would advance. */
    method NextDay()
      requires Valid()
      modifies this`currentDay
      ensures Valid()
      ensures currentDay == Navigate(old(currentDay), Next)
      ensures currentDay == old(currentDay)
    {
      var nextDay := currentDay + 1;
      currentDay := if IsDayUnlocked(nextDay, currentDay) then Min(ProgramDays, nextDay) else currentDay;
    }

    /** A click on the `i`-th tile of the current week's overview. */
    method ClickTile(i: nat)
      requires Valid()
      requires i < |WeekTiles(Routines(), currentDay)|
      modifies this`currentDay
      ensures Valid()
      ensures currentDay == Navigate(old(currentDay), Tile(WeekTiles(Routines(), old(currentDay))[i].day))
      ensures old(currentDay) >= 1 ==> 1 <= currentDay <= old(currentDay)
    {
      var tile := WeekTiles(Routines(), currentDay)[i];
      RoutinesWellIndexed();
      assert tile in Routines();
      if IsDayUnlocked(tile.day, currentDay) {
        currentDay := tile.day;
      }
    }

    /** Loading a saved analysis at sign-in shows its results straight away. */
    method LoadSavedAnalysis(saved: Option<SkinAnalysis>)
      requires Valid()
      modifies this`analysis, this`step, this`stepTrace
      ensures Valid()
      ensures saved.Some? ==> analysis == saved && step == Results && stepTrace == old(stepTrace) + [Results]
      ensures saved.None? ==> analysis == old(analysis) && step == old(step) && stepTrace == old(stepTrace)
    {
      if saved.Some? {
        analysis := saved;
        step := Results;
        stepTrace := stepTrace + [Results];
      }
    }

    /** The authentication effect records the signed-in user's id. */
    method SetUser(id: string)
      requires Valid()
      modifies this`userId
      ensures Valid() && userId == id
    {
      userId := id;
    }

    /**
     * `analyzeImage`: enter `analyzing`, reset the bar, raise it checkpoint by
     * checkpoint, store the simulated result, start the best-effort save when
     * a user is signed in, and show the result. An exception (`fault`) sends
     * the step back to `upload`, leaving the bar and the stored analysis as
     * they were when it was raised.
     */
    method AnalyzeImage(fault: Fault)
      requires Valid() && ValidFault(fault)
      modifies this`step, this`progress, this`analysis, this`progressTrace, this`stepTrace
      ensures Valid()
      ensures progressTrace == old(progressTrace) + ProgressWrites(fault)
      ensures stepTrace == old(stepTrace) + StepWrites(fault, userId != "")
      ensures progress == ProgressWrites(fault)[Reached(fault)]
      ensures step == StepWrites(fault, userId != "")[1]
      ensures analysis == if Stores(fault) then Some(SimulatedResult()) else old(analysis)
    {
      step := Analyzing;
      stepTrace := stepTrace + [Analyzing];
      progress := 0;
      progressTrace := progressTrace + [0];

      var intervals := Intervals();
      ghost var trace0 := old(progressTrace);
      for i := 0 to |intervals|
        invariant fault.ThrowAfter? ==> i <= fault.checkpoints
        invariant progressTrace == trace0 + [0] + intervals[..i]
        invariant progress == if i == 0 then 0 else intervals[i - 1]
        invariant step == Analyzing && stepTrace == old(stepTrace) + [Analyzing]
        invariant analysis == old(analysis)
      {
        if fault == ThrowAfter(i) {
          step := Upload;
          stepTrace := stepTrace + [Upload];
          return;
        }
        progress := intervals[i];
        progressTrace := progressTrace + [intervals[i]];
      }

      if fault.ThrowAfter? {
        step := Upload;
        stepTrace := stepTrace + [Upload];
        return;
      }
      analysis := Some(SimulatedResult());
      if userId != "" && fault.SaveThrows? {
        step := Upload;
        stepTrace := stepTrace + [Upload];
        return;
      }
      step := Results;
      stepTrace := stepTrace + [Results];
    }
  }

  /**
   * A first launch: an empty store, the start-date effect, then the day
   * effect later on the same (UTC) day. The user lands on day 1, whose
   * routine the catalogue holds, and a second start-up on any date `later`
   * keeps the date written.
   */
  method FirstLaunch(stored: map<string, string>, today: string, startMs: int, nowMs: int, later: string)
    returns (day: int, routine: Option<DayRoutine>, kept: string)
    requires StartDateMissing(stored) && today != ""
    requires startMs < nowMs <= startMs + MsPerDay
    ensures day == 1
    ensures routine.Some? && routine.value.day == 1
    ensures kept == today
  {
    var app := new GlowUpApp(stored);
    app.InitStartDate(today);
    app.RecalculateDay(startMs, nowMs);
    day := app.currentDay;
    routine := app.CurrentRoutine();
    app.InitStartDate(later);
    kept := app.startDate.value;
  }
}
