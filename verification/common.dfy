/** Small value types shared by every module of the model. */
module Common {

  /** A value that may be absent: JavaScript's `null` / `undefined`. */
  datatype Option<+T> = None | Some(value: T) {
    function GetOr(default: T): T {
      match this
      case Some(v) => v
      case None => default
    }
  }

  function Max(a: int, b: int): int { if a >= b then a else b }

  function Min(a: int, b: int): int { if a <= b then a else b }

  /** Sum of a sequence of integers, left to right. */
  function Sum(xs: seq<int>): int
  {
    if |xs| == 0 then 0 else Sum(xs[..|xs| - 1]) + xs[|xs| - 1]
  }

  /** The elements of `xs` are pairwise distinct. */
  predicate Distinct<T(==)>(xs: seq<T>)
  {
    forall i, j :: 0 <= i < j < |xs| ==> xs[i] != xs[j]
  }

  /** A timestamp is a whole number of minutes; a day is 1440 of them. */
  const MinutesPerDay: int := 1440

  /** The calendar day a timestamp falls on (SQLite's `DATE(...)`). */
  function DayOf(ts: int): int { ts / MinutesPerDay }

  /** The first minute of a calendar day (date-fns `startOfDay`). */
  function StartOfDay(day: int): int { day * MinutesPerDay }
}
