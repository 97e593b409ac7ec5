/**
 * The unlock policy and the day-navigation handlers of the routine screen,
 * as functions of the `currentDay` state they read and replace. The unlock
 * test compares against the same `currentDay` that navigation changes.
 */
module Navigation {
  import opened Js
  import opened Calendar

  /** `isDayUnlocked`: a day is open when it does not lie after the current day. */
  predicate IsDayUnlocked(day: int, currentDay: int)
  {
    day <= currentDay
  }

  /** The current day is always open and the day after it never is. */
  lemma UnlockBoundary(currentDay: int)
    ensures IsDayUnlocked(currentDay, currentDay)
    ensures !IsDayUnlocked(currentDay + 1, currentDay)
    ensures forall day :: IsDayUnlocked(day, currentDay) <==> day <= currentDay
  {
  }

  /** The three controls: "Dia Anterior", "Próximo Dia" and a click on a week tile showing `day`. */
  datatype Action = Previous | Next | Tile(day: int)

  /** The `currentDay` that an action's click handler leaves. */
  function Navigate(currentDay: int, a: Action): (day: int)
    ensures a.Next? ==> day == currentDay
    ensures currentDay >= 1 && Offered(a) ==> 1 <= day <= currentDay
  {
    match a
    case Previous => Max(1, currentDay - 1)
    case Next =>
      var nextDay := currentDay + 1;
      if IsDayUnlocked(nextDay, currentDay) then Min(ProgramDays, nextDay) else currentDay
    case Tile(day) => if IsDayUnlocked(day, currentDay) then day else currentDay
  }

  /** The `disabled` flags of the two buttons. */
  predicate PreviousDisabled(currentDay: int)
  {
    currentDay == 1
  }

  predicate NextDisabled(currentDay: int)
  {
    currentDay == ProgramDays || !IsDayUnlocked(currentDay + 1, currentDay)
  }

  /** "Próximo Dia" is disabled in every state, and its handler changes nothing even if it ran. */
  lemma NextNeverFires(currentDay: int)
    ensures NextDisabled(currentDay)
    ensures Navigate(currentDay, Next) == currentDay
  {
  }

  /** "Dia Anterior" steps back one day, stopping at day 1; from day 0 it moves up to day 1. */
  lemma PreviousStepsBack(currentDay: int)
    ensures currentDay > 1 ==> Navigate(currentDay, Previous) == currentDay - 1
    ensures currentDay <= 1 ==> Navigate(currentDay, Previous) == 1
  {
  }

  /**
   * "Dia Anterior" is disabled only on day 1, where its handler would change
   * nothing anyway; on day 0 it is enabled and raises the day to 1.
   */
  lemma PreviousEnabledMoves(currentDay: int)
    ensures PreviousDisabled(currentDay) ==> Navigate(currentDay, Previous) == currentDay
    ensures !PreviousDisabled(currentDay) && currentDay > 1 ==> Navigate(currentDay, Previous) == currentDay - 1
    ensures currentDay == 0 ==> !PreviousDisabled(currentDay) && Navigate(currentDay, Previous) == 1
  {
  }

  /** Tiles that a week slice can show carry a day of at least 1. */
  predicate Offered(a: Action)
  {
    a.Tile? ==> a.day >= 1
  }

  /** The `currentDay` after a sequence of clicks. */
  function Run(currentDay: int, actions: seq<Action>): int
    decreases |actions|
  {
    if actions == [] then currentDay else Run(Navigate(currentDay, actions[0]), actions[1..])
  }

  /** From a day of at least 1, no sequence of clicks ends above the start day or below 1. */
  lemma {:induction false} RunStaysInRange(currentDay: int, actions: seq<Action>)
    requires currentDay >= 1
    requires forall i :: 0 <= i < |actions| ==> Offered(actions[i])
    ensures 1 <= Run(currentDay, actions) <= currentDay
    decreases |actions|
  {
    if actions != [] {
      RunStaysInRange(Navigate(currentDay, actions[0]), actions[1..]);
    }
  }

  function Repeat(a: Action, n: nat): (r: seq<Action>)
    ensures |r| == n && forall i :: 0 <= i < n ==> r[i] == a
  {
    if n == 0 then [] else [a] + Repeat(a, n - 1)
  }

  /** Pressing "Dia Anterior" `k` times from day `d` ends on day `max(1, d - k)`. */
  lemma {:induction false} RunPrevious(currentDay: int, k: nat)
    requires currentDay >= 1
    ensures Run(currentDay, Repeat(Previous, k)) == Max(1, currentDay - k)
    decreases k
  {
    if k > 0 {
      var rest := Repeat(Previous, k - 1);
      assert Repeat(Previous, k)[1..] == rest;
      RunPrevious(Max(1, currentDay - 1), k - 1);
    }
  }

  /** The days a user can navigate to from day `d >= 1` are exactly days 1 to `d`. */
  lemma ReachableDays(currentDay: int, target: int)
    requires currentDay >= 1
    ensures (exists actions: seq<Action> ::
               (forall i :: 0 <= i < |actions| ==> Offered(actions[i])) &&
               Run(currentDay, actions) == target)
            <==> 1 <= target <= currentDay
  {
    if 1 <= target <= currentDay {
      var actions := Repeat(Previous, currentDay - target);
      RunPrevious(currentDay, currentDay - target);
      assert forall i :: 0 <= i < |actions| ==> Offered(actions[i]);
      assert Run(currentDay, actions) == target;
    }
    forall actions: seq<Action> |
      (forall i :: 0 <= i < |actions| ==> Offered(actions[i]))
      ensures 1 <= Run(currentDay, actions) <= currentDay
    {
      RunStaysInRange(currentDay, actions);
    }
  }
}
