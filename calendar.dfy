/**
 * The calendar resolver of the 30-day programme: the current programme day
 * computed from the stored start date and the clock, both given as integer
 * millisecond timestamps (what `Date.getTime()` returns).
 */
module Calendar {
  import opened Js

  /** Milliseconds in one day, `1000 * 60 * 60 * 24`. */
  const MsPerDay: int := 86400000

  /** Length of the programme in days; the resolved day never exceeds it. */
  const ProgramDays: int := 30

  /** Whole days elapsed, rounded up: `Math.ceil(Math.abs(now - start) / MsPerDay)`. */
  function ElapsedDays(startMs: int, nowMs: int): (days: nat)
    ensures days == 0 <==> startMs == nowMs
    ensures MsPerDay * (days - 1) < Abs(nowMs - startMs) <= MsPerDay * days
  {
    CeilDiv(Abs(nowMs - startMs), MsPerDay)
  }

  /**
   * The day-calculation effect: the elapsed days, rounded up, capped at the
   * programme length. Note that the start instant itself resolves to day 0
   * and that a clock before the start date mirrors to the same day as the
   * equally distant instant after it.
   */
  function ResolveDay(startMs: int, nowMs: int): (day: nat)
    ensures day <= ProgramDays
  {
    Min(ElapsedDays(startMs, nowMs), ProgramDays)
  }

  /** The resolved day is 0 exactly at the start instant, and at least 1 at every other instant. */
  lemma ResolveDayZeroOnlyAtStart(startMs: int, nowMs: int)
    ensures ResolveDay(startMs, nowMs) == 0 <==> nowMs == startMs
    ensures nowMs != startMs ==> 1 <= ResolveDay(startMs, nowMs)
  {
  }

  /**
   * Below the cap, the resolved day is the unique `d` whose window
   * `((d - 1) days, d days]` holds the elapsed time.
   */
  lemma ResolveDayWindow(startMs: int, nowMs: int)
    requires Abs(nowMs - startMs) <= MsPerDay * (ProgramDays - 1)
    ensures var d := ResolveDay(startMs, nowMs);
      MsPerDay * (d - 1) < Abs(nowMs - startMs) <= MsPerDay * d
  {
  }

  /** Because of `Math.abs`, an instant `e` ms before the start resolves like the instant `e` ms after it. */
  lemma ResolveDayMirror(startMs: int, e: int)
    ensures ResolveDay(startMs, startMs - e) == ResolveDay(startMs, startMs + e)
  {
  }

  /** From the start date on, the resolved day never decreases as time goes by. */
  lemma ResolveDayMonotone(startMs: int, now1: int, now2: int)
    requires startMs <= now1 <= now2
    ensures ResolveDay(startMs, now1) <= ResolveDay(startMs, now2)
  {
  }

  /** The cap: the resolved day is 30 exactly when more than 29 days have elapsed, either way. */
  lemma ResolveDayCapped(startMs: int, nowMs: int)
    ensures ResolveDay(startMs, nowMs) == ProgramDays <==> Abs(nowMs - startMs) > MsPerDay * (ProgramDays - 1)
  {
  }

  /**
   * Against calendar days counted from the start instant: strictly inside day
   * `k + 1` (more than `k` whole days elapsed, fewer than `k + 1`) the resolved
   * day is `k + 1`, but at the exact instant `k` whole days have elapsed it is
   * still `k` (both capped at 30).
   */
  lemma ResolveDayCalendarDays(startMs: int, nowMs: int)
    requires startMs <= nowMs
    ensures var k := (nowMs - startMs) / MsPerDay;
      ResolveDay(startMs, nowMs) ==
        if (nowMs - startMs) % MsPerDay == 0 then Min(k, ProgramDays) else Min(k + 1, ProgramDays)
  {
  }

  /** Worked instants: the start itself, two weeks after it, 45 days after it, and one day before it. */
  lemma ResolveDayExamples(startMs: int)
    ensures ResolveDay(startMs, startMs) == 0
    ensures ResolveDay(startMs, startMs + 1) == 1
    ensures ResolveDay(startMs, startMs + 14 * MsPerDay) == 14
    ensures ResolveDay(startMs, startMs + 14 * MsPerDay + 1) == 15
    ensures ResolveDay(startMs, startMs + 45 * MsPerDay) == ProgramDays
    ensures ResolveDay(startMs, startMs - MsPerDay) == 1
  {
  }
}
