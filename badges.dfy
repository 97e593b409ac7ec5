/**
 * The achievement badges of the profile screen: each is earned once the
 * number of completed days reaches its threshold.
 */
module Badges {

  datatype Badge = FirstWeek | FifteenDays | TwentyOneDays | ThirtyDays

  function Threshold(b: Badge): (t: int)
    ensures 7 <= t <= 30
  {
    match b
    case FirstWeek => 7
    case FifteenDays => 15
    case TwentyOneDays => 21
    case ThirtyDays => 30
  }

  /** A badge depends on `completedDays` alone. */
  predicate Earned(b: Badge, completedDays: int)
    ensures Earned(b, completedDays) ==> completedDays >= 7
    ensures completedDays >= 30 ==> Earned(b, completedDays)
  {
    completedDays >= Threshold(b)
  }

  /** The badges in the order the grid lists them. */
  function AllBadges(): (bs: seq<Badge>)
    ensures |bs| == 4
    ensures forall i, j :: 0 <= i < j < |bs| ==> Threshold(bs[i]) < Threshold(bs[j])
  {
    [FirstWeek, FifteenDays, TwentyOneDays, ThirtyDays]
  }

  /** The badges lit for a count of completed days. */
  function EarnedBadges(completedDays: int): (bs: seq<Badge>)
    ensures forall b :: b in bs <==> Earned(b, completedDays)
    ensures bs <= AllBadges()
  {
    if completedDays >= 30 then AllBadges()
    else if completedDays >= 21 then [FirstWeek, FifteenDays, TwentyOneDays]
    else if completedDays >= 15 then [FirstWeek, FifteenDays]
    else if completedDays >= 7 then [FirstWeek]
    else []
  }

  /** The badges are nested: 30 days implies 21, 21 implies 15, 15 implies the first week. */
  lemma BadgesNested(completedDays: int)
    ensures Earned(ThirtyDays, completedDays) ==> Earned(TwentyOneDays, completedDays)
    ensures Earned(TwentyOneDays, completedDays) ==> Earned(FifteenDays, completedDays)
    ensures Earned(FifteenDays, completedDays) ==> Earned(FirstWeek, completedDays)
  {
  }

  /** More completed days never take a badge away. */
  lemma EarnedMonotone(c1: int, c2: int)
    requires c1 <= c2
    ensures EarnedBadges(c1) <= EarnedBadges(c2)
  {
  }
}
