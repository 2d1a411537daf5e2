/**
 * `optimalPeriod` (libanki/anki/utils.py): the unit a time span is best
 * shown in, and the number of decimals to show it with.
 */
module Period {
  datatype Unit = Seconds | Minutes | Hours | Days | Months | Years

  /** Units from the smallest to the largest. */
  function Rank(u: Unit): nat
  {
    match u
    case Seconds => 0
    case Minutes => 1
    case Hours => 2
    case Days => 3
    case Months => 4
    case Years => 5
  }

  /** How many decimals the unit adds to the requested precision. */
  function Shift(u: Unit): int
  {
    match u
    case Seconds => -1
    case Months => 1
    case Years => 1
    case _ => 0
  }

  function Abs(x: real): real
  {
    if x < 0.0 then -x else x
  }

  /**
   * `optimalPeriod(time, point)`: thresholds on `|time|` of 60, 3599, one
   * day, 30 days and 365 days; the precision moves by the unit's shift and
   * never goes below 0.
   */
  function OptimalPeriod(time: real, point: int): (r: (Unit, int))
    ensures r.1 >= 0
    ensures r.1 == if point + Shift(r.0) < 0 then 0 else point + Shift(r.0)
    ensures r.0 == Seconds <==> Abs(time) < 60.0
    ensures r.0 == Minutes <==> 60.0 <= Abs(time) < 3599.0
    ensures r.0 == Hours <==> 3599.0 <= Abs(time) < 86400.0
    ensures r.0 == Days <==> 86400.0 <= Abs(time) < 2592000.0
    ensures r.0 == Months <==> 2592000.0 <= Abs(time) < 31536000.0
    ensures r.0 == Years <==> Abs(time) >= 31536000.0
  {
    var a := Abs(time);
    var (u, p) :=
      if a < 60.0 then (Seconds, point - 1)
      else if a < 3599.0 then (Minutes, point)
      else if a < 86400.0 then (Hours, point)
      else if a < 2592000.0 then (Days, point)
      else if a < 31536000.0 then (Months, point + 1)
      else (Years, point + 1);
    (u, if p < 0 then 0 else p)
  }

  /** A longer span never gets a smaller unit. */
  lemma UnitMonotone(t1: real, t2: real, point: int)
    requires Abs(t1) <= Abs(t2)
    ensures Rank(OptimalPeriod(t1, point).0) <= Rank(OptimalPeriod(t2, point).0)
  {
  }

  /** The sign of the span does not matter. */
  lemma UnitIgnoresSign(time: real, point: int)
    ensures OptimalPeriod(-time, point) == OptimalPeriod(time, point)
  {
  }

  /** The unit does not depend on the precision asked for. */
  lemma UnitIgnoresPoint(time: real, p1: int, p2: int)
    ensures OptimalPeriod(time, p1).0 == OptimalPeriod(time, p2).0
  {
  }

  /** Where each unit starts: 60 s, 3599 s (one second short of an hour), a day, 30 days, 365 days. */
  lemma UnitBoundaries(point: int)
    ensures OptimalPeriod(59.0, point).0 == Seconds && OptimalPeriod(60.0, point).0 == Minutes
    ensures OptimalPeriod(3598.0, point).0 == Minutes && OptimalPeriod(3599.0, point).0 == Hours
    ensures OptimalPeriod(86399.0, point).0 == Hours && OptimalPeriod(86400.0, point).0 == Days
    ensures OptimalPeriod(2591999.0, point).0 == Days && OptimalPeriod(2592000.0, point).0 == Months
    ensures OptimalPeriod(31535999.0, point).0 == Months && OptimalPeriod(31536000.0, point).0 == Years
  {
  }
}
