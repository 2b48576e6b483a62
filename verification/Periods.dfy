/**
 The four periods of a local day. Times are civil: seconds counted from some
 midnight, so the night that crosses midnight is one stretch of the line.
 */
module Periods {
  const HOUR: int := 3600
  const DAY: int := 24 * HOUR

  datatype Period = Morning | Day | Evening | Night {
    function Next(): Period {
      match this
      case Morning => Day
      case Day => Evening
      case Evening => Night
      case Night => Morning
    }
  }

  function DateOf(t: int): int { t / DAY }

  function HourOf(t: int): int { t % DAY / HOUR }

  function PeriodAt(t: int): Period {
    var hour := HourOf(t);
    if 6 <= hour < 11 then Morning
    else if 11 <= hour < 17 then Day
    else if 17 <= hour < 21 then Evening
    else Night
  }

  /** The first instant after the period that contains `t`. */
  function PeriodEnd(t: int): int {
    var midnight := DateOf(t) * DAY;
    match PeriodAt(t)
    case Morning => midnight + 11 * HOUR
    case Day => midnight + 17 * HOUR
    case Evening => midnight + 21 * HOUR
    case Night => if 21 <= HourOf(t) then midnight + DAY + 6 * HOUR else midnight + 6 * HOUR
  }

  predicate EarlyNight(t: int) { PeriodAt(t).Night? && HourOf(t) < 6 }

  /** Plans made after midnight belong to the night that began the day before. */
  function PlanDate(t: int): int { if EarlyNight(t) then DateOf(t) - 1 else DateOf(t) }

  datatype PlanKey = PlanKey(date: int, period: Period)

  function KeyAt(t: int): PlanKey { PlanKey(PlanDate(t), PeriodAt(t)) }

  /** No period boundary lies between the two instants. */
  ghost predicate SameOccurrence(t: int, u: int) {
    forall v: int :: t <= v <= u || u <= v <= t ==> PeriodAt(v) == PeriodAt(t)
  }

  lemma Split(t: int)
    ensures t == DateOf(t) * DAY + t % DAY && 0 <= t % DAY < DAY
    ensures HourOf(t) * HOUR <= t % DAY < HourOf(t) * HOUR + HOUR
  {
  }

  /** Mornings start at six, days at eleven, evenings at five and nights at nine. */
  lemma PeriodsOfTheDay(t: int)
    ensures var second := t % 86400;
      && (PeriodAt(t) == Morning <==> 21600 <= second < 39600)
      && (PeriodAt(t) == Day <==> 39600 <= second < 61200)
      && (PeriodAt(t) == Evening <==> 61200 <= second < 75600)
      && (PeriodAt(t) == Night <==> second < 21600 || 75600 <= second)
      && (EarlyNight(t) <==> second < 21600)
      && PlanDate(t) == (if second < 21600 then t / 86400 - 1 else t / 86400)
  {
    Split(t);
  }

  /** A period ends later than any of its instants, at the very start of the next one. */
  lemma EndStartsTheNext(t: int)
    ensures t < PeriodEnd(t) <= t + 9 * HOUR
    ensures PeriodAt(PeriodEnd(t)) == PeriodAt(t).Next()
  {
    Split(t);
    Split(PeriodEnd(t));
    var e := PeriodEnd(t);
    var hour := match PeriodAt(t) case Morning => 11 case Day => 17 case Evening => 21 case Night => 6;
    var date := if PeriodAt(t).Night? && 21 <= HourOf(t) then DateOf(t) + 1 else DateOf(t);
    assert e == date * DAY + hour * HOUR;
    assert DateOf(e) == date;
    assert HourOf(e) == hour;
  }

  /** Until it ends, nothing about the period changes. */
  lemma SteadyUntilEnd(t: int, u: int)
    requires t <= u < PeriodEnd(t)
    ensures PeriodAt(u) == PeriodAt(t) && PeriodEnd(u) == PeriodEnd(t) && KeyAt(u) == KeyAt(t)
  {
    Split(t);
    var later := t % DAY + (u - t);
    if later < DAY { Place(u, DateOf(t), later); } else { Place(u, DateOf(t) + 1, later - DAY); }
  }

  lemma Place(t: int, date: int, second: int)
    requires t == date * DAY + second && 0 <= second < DAY
    ensures DateOf(t) == date && t % DAY == second
    ensures HourOf(t) * HOUR <= second < HourOf(t) * HOUR + HOUR
  {
  }

  lemma KeyFixesEnd(t: int, u: int)
    ensures KeyAt(t) == KeyAt(u) <==> PeriodEnd(t) == PeriodEnd(u)
  {
    EndFromKey(t);
    EndFromKey(u);
    Split(PeriodEnd(t));
    Split(PeriodEnd(u));
  }

  lemma EndFromKey(t: int)
    ensures var key := KeyAt(t);
      PeriodEnd(t) == key.date * DAY + match key.period
                                       case Morning => 11 * HOUR
                                       case Day => 17 * HOUR
                                       case Evening => 21 * HOUR
                                       case Night => DAY + 6 * HOUR
  {
  }

  /** One occurrence of a period has one plan key, and no other occurrence shares it. */
  lemma KeyNamesOccurrence(t: int, u: int)
    ensures SameOccurrence(t, u) <==> KeyAt(t) == KeyAt(u)
  {
    var first, last := if t <= u then t else u, if t <= u then u else t;
    EndStartsTheNext(first);
    EndStartsTheNext(last);
    if last < PeriodEnd(first) {
      forall v: int | first <= v <= last ensures PeriodAt(v) == PeriodAt(first) { SteadyUntilEnd(first, v); }
      SteadyUntilEnd(first, last);
    } else {
      assert PeriodAt(PeriodEnd(first)) != PeriodAt(first);
      KeyFixesEnd(first, last);
    }
  }
}
