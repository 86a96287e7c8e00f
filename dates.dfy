/**
 * Day arithmetic shared by the student list (remaining days) and the
 * add-student form (day count). A date is an integer number of milliseconds
 * since the epoch, as returned by `Date.getTime()`; the clock is never read
 * here, "today" is always passed in.
 */
module Dates {

  /** `1000 * 60 * 60 * 24`, the divisor both pages use. */
  const MsPerDay: int := 1000 * 60 * 60 * 24

  /** `Math.ceil(ms / MsPerDay)` on integers: the least whole number of days covering `ms`. */
  function DayCeil(ms: int): (d: int)
    ensures (d - 1) * MsPerDay < ms <= d * MsPerDay
  {
    -((-ms) / MsPerDay)
  }

  /**
   * The whole days from `from` to `to`, rounded up, or 0 when `to` is not
   * after `from`: the expression `diffDays > 0 ? diffDays : 0` with
   * `diffDays = Math.ceil((to - from) / MsPerDay)`.
   */
  function ClampedDayDiff(from: int, to: int): (d: nat)
    ensures d == 0 <==> to <= from
    ensures to > from ==> (d - 1) * MsPerDay < to - from <= d * MsPerDay
  {
    var diffDays := DayCeil(to - from);
    if diffDays > 0 then diffDays else 0
  }

  /** Whole-day spans are counted exactly. */
  lemma ClampedDayDiffWholeDays(from: int, days: nat)
    ensures ClampedDayDiff(from, from + days * MsPerDay) == days
  {
  }

  /** A later end never counts fewer days. */
  lemma ClampedDayDiffMonotone(from: int, to1: int, to2: int)
    requires to1 <= to2
    ensures ClampedDayDiff(from, to1) <= ClampedDayDiff(from, to2)
  {
  }
}
