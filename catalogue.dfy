/**
 * The routine catalogue and its indexing: the static table of day routines,
 * the lookup of the routine for the current day, the week number shown in the
 * header and the week slice drawn as day tiles.
 */
module Catalogue {
  import opened Js

  /** One day of the routine; product, technique and cleansing texts are not modelled. */
  datatype DayRoutine = DayRoutine(
    day: int,
    title: string,
    morning: seq<string>,
    night: seq<string>,
    tips: string,
    completed: bool)

  /** The catalogue as the application ships it: only days 1 and 2 are authored. */
  function Routines(): (rs: seq<DayRoutine>)
    ensures |rs| == 2
  {
    [ DayRoutine(1, "Início da Jornada",
        ["Limpeza facial suave", "Hidratante leve", "Protetor solar FPS 50+"],
        ["Limpeza facial", "Hidratante noturno"],
        "Comece devagar! Deixe sua pele se adaptar aos novos produtos.", false),
      DayRoutine(2, "Construindo o Hábito",
        ["Limpeza facial", "Tônico facial", "Hidratante", "Protetor solar"],
        ["Limpeza dupla", "Hidratante noturno"],
        "Beba pelo menos 2 litros de água hoje.", false) ]
  }

  /** Entry `i` of a catalogue describes day `i + 1`. */
  predicate WellIndexed(rs: seq<DayRoutine>)
  {
    forall i :: 0 <= i < |rs| ==> rs[i].day == i + 1
  }

  lemma RoutinesWellIndexed()
    ensures WellIndexed(Routines())
  {
  }

  /** `routines[currentDay - 1]`: JavaScript yields `undefined` for an index outside the array. */
  function RoutineAt(rs: seq<DayRoutine>, currentDay: int): (r: Option<DayRoutine>)
    ensures r.Some? <==> 1 <= currentDay <= |rs|
    ensures r.Some? ==> r.value in rs
    ensures r.Some? && WellIndexed(rs) ==> r.value.day == currentDay
  {
    if 1 <= currentDay <= |rs| then Some(rs[currentDay - 1]) else None
  }

  /** With the shipped catalogue the lookup is defined for days 1 and 2 only. */
  lemma ShippedLookupDefinedExactly(currentDay: int)
    ensures RoutineAt(Routines(), currentDay).Some? <==> currentDay == 1 || currentDay == 2
  {
  }

  /** `getCurrentWeek`: the week that holds the current day. */
  function CurrentWeek(currentDay: int): (w: int)
    ensures 7 * (w - 1) < currentDay <= 7 * w
  {
    CeilDiv(currentDay, 7)
  }

  /** Over the programme's days the week lies in 1..5, and days 29 and 30 fall in week 5. */
  lemma CurrentWeekRange(currentDay: int)
    requires 1 <= currentDay <= 30
    ensures 1 <= CurrentWeek(currentDay) <= 5
    ensures CurrentWeek(currentDay) == 5 <==> currentDay >= 29
  {
  }

  /** The day tiles of the week overview: `routines.slice((week - 1) * 7, week * 7)`. */
  function WeekTiles(rs: seq<DayRoutine>, currentDay: int): (tiles: seq<DayRoutine>)
    ensures |tiles| <= 7
    ensures forall t :: t in tiles ==> t in rs
  {
    var w := CurrentWeek(currentDay);
    Slice(rs, (w - 1) * 7, w * 7)
  }

  /**
   * In a well-indexed catalogue and a programme day of at least 1, every tile
   * shown belongs to the current day's week, and a tile is shown for every
   * authored day of that week.
   */
  lemma WeekTilesAreTheWeek(rs: seq<DayRoutine>, currentDay: int)
    requires WellIndexed(rs) && 1 <= currentDay
    ensures forall t :: t in WeekTiles(rs, currentDay) ==>
      t in rs && CurrentWeek(t.day) == CurrentWeek(currentDay)
    ensures forall i :: 0 <= i < |rs| && CurrentWeek(rs[i].day) == CurrentWeek(currentDay) ==>
      rs[i] in WeekTiles(rs, currentDay)
  {
  }

  /** A day lies in week `w` exactly when it is in `((w - 1) * 7, w * 7]`. */
  lemma CurrentWeekOfDay(day: int, w: int)
    ensures CurrentWeek(day) == w <==> 7 * (w - 1) < day <= 7 * w
  {
  }

  /** With the shipped catalogue, week 1 shows both authored days and every later week shows none. */
  lemma ShippedWeekTiles(currentDay: int)
    requires 1 <= currentDay <= 30
    ensures CurrentWeek(currentDay) == 1 ==> WeekTiles(Routines(), currentDay) == Routines()
    ensures CurrentWeek(currentDay) > 1 ==> WeekTiles(Routines(), currentDay) == []
  {
  }
}
