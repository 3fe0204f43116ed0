// The computed properties of a user record: spendable points and completed
// years of service.

module UserModel {
  import opened Common
  import opened Calendar
  import opened Entities

  /** Points that can still be spent: the balance minus what open orders hold. */
  function AvailablePoint(u: User): (r: int)
    ensures r + u.reservedPoint == u.currentPoint
  {
    u.currentPoint - u.reservedPoint
  }

  /** Lexicographic `a < b` on (year, month, day). */
  predicate DateBefore(a: Date, b: Date) {
    a.year < b.year || (a.year == b.year && MonthDayBefore(a, b))
  }

  /** The `k`-th anniversary of `d` (the same month and day, `k` years on). */
  function Anniversary(d: Date, k: int): Date {
    Date(d.year + k, d.month, d.day)
  }

  /**
   * Completed years since enlistment on `today`: the number of anniversaries
   * of the enlistment date reached, never negative, 0 without a date.
   */
  function ServiceYears(u: User, today: Date): (r: nat)
    ensures u.enlistmentDate.None? ==> r == 0
    ensures u.enlistmentDate.Some? && r > 0 ==>
      !DateBefore(today, Anniversary(u.enlistmentDate.value, r)) &&
      DateBefore(today, Anniversary(u.enlistmentDate.value, r + 1))
    ensures u.enlistmentDate.Some? && r == 0 ==>
      DateBefore(today, Anniversary(u.enlistmentDate.value, 1))
  {
    match u.enlistmentDate
    case None => 0
    case Some(e) =>
      var years := today.year - e.year;
      var completed := if MonthDayBefore(today, e) then years - 1 else years;
      if completed < 0 then 0 else completed
  }
}
