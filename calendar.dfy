/**
 * The part of .NET `DateTime` the core uses: a proleptic Gregorian date in
 * years 1 to 9999 with a time of day counted in ticks (100 ns), ordered
 * chronologically, plus the month arithmetic of the list screen's default range.
 */
module Calendar {
  import opened Wrappers
  import Ordering

  const TicksPerDay: int := 864_000_000_000

  datatype DateTime = DateTime(year: int, month: int, day: int, ticks: int)

  /** `DateTime.MinValue`, the value of a date setting that was never saved. */
  const MinValue: DateTime := DateTime(1, 1, 1, 0)

  predicate IsLeapYear(y: int) {
    (y % 4 == 0 && y % 100 != 0) || y % 400 == 0
  }

  function DaysInMonth(y: int, m: int): (n: int)
    requires 1 <= m <= 12
    ensures 28 <= n <= 31
  {
    if m == 2 then (if IsLeapYear(y) then 29 else 28)
    else if m == 4 || m == 6 || m == 9 || m == 11 then 30
    else 31
  }

  predicate IsValid(d: DateTime) {
    1 <= d.year <= 9999 && 1 <= d.month <= 12
    && 1 <= d.day <= DaysInMonth(d.year, d.month)
    && 0 <= d.ticks < TicksPerDay
  }

  /** The chronological sort key of a date. */
  function Key(d: DateTime): seq<int> {
    [d.year, d.month, d.day, d.ticks]
  }

  /** `a <= b` on `DateTime`: chronological order. */
  predicate Le(a: DateTime, b: DateTime) {
    a.year < b.year || (a.year == b.year &&
    (a.month < b.month || (a.month == b.month &&
    (a.day < b.day || (a.day == b.day && a.ticks <= b.ticks)))))
  }

  /** Sorting by `Key` is sorting chronologically. */
  lemma KeyOrder(a: DateTime, b: DateTime)
    ensures Le(a, b) <==> Ordering.LexLe(Key(a), Key(b))
  {
    var ka, kb := Key(a), Key(b);
    assert ka[1..] == [a.month, a.day, a.ticks] && kb[1..] == [b.month, b.day, b.ticks];
    assert ka[1..][1..] == [a.day, a.ticks] && kb[1..][1..] == [b.day, b.ticks];
    assert ka[1..][1..][1..] == [a.ticks] && kb[1..][1..][1..] == [b.ticks];
    assert ka[1..][1..][1..][1..] == [] && kb[1..][1..][1..][1..] == [];
    assert Ordering.LexLe([a.ticks], [b.ticks]) <==> a.ticks <= b.ticks;
    assert Ordering.LexLe([a.day, a.ticks], [b.day, b.ticks])
      <==> a.day < b.day || (a.day == b.day && a.ticks <= b.ticks);
    assert Ordering.LexLe(ka[1..], kb[1..])
      <==> a.month < b.month || (a.month == b.month && (a.day < b.day || (a.day == b.day && a.ticks <= b.ticks)));
  }

  /** `new DateTime(y, m, d)`, which throws on an invalid date. */
  function FromParts(y: int, m: int, d: int): (r: Option<DateTime>)
    ensures r.Some? <==> 1 <= y <= 9999 && 1 <= m <= 12 && 1 <= d <= DaysInMonth(y, m)
    ensures r.Some? ==> IsValid(r.value) && r.value == DateTime(y, m, d, 0)
  {
    if 1 <= y <= 9999 && 1 <= m <= 12 && 1 <= d <= DaysInMonth(y, m)
    then Some(DateTime(y, m, d, 0)) else None
  }

  /** `.Date`: the same day at midnight (`DateTime.Today` is `DateTime.Now.Date`). */
  function DateOf(d: DateTime): DateTime {
    d.(ticks := 0)
  }

  /** `new DateTime(d.Year, d.Month, 1)`. */
  function FirstOfMonth(d: DateTime): (r: DateTime)
    requires IsValid(d)
    ensures IsValid(r) && r.year == d.year && r.month == d.month && r.day == 1 && r.ticks == 0
    ensures Le(r, d)
  {
    DateTime(d.year, d.month, 1, 0)
  }

  /** The year and month after `d`'s, or None past December 9999. */
  function NextMonth(y: int, m: int): (r: Option<(int, int)>)
    requires 1 <= y <= 9999 && 1 <= m <= 12
    ensures r.None? <==> y == 9999 && m == 12
  {
    if m < 12 then Some((y, m + 1))
    else if y < 9999 then Some((y + 1, 1))
    else None
  }

  /**
   * `AddMonths(1)`: the same day in the next month, clamped to that month's length;
   * None where .NET throws (past December 9999).
   */
  function AddOneMonth(d: DateTime): (r: Option<DateTime>)
    requires IsValid(d)
    ensures r.None? <==> d.year == 9999 && d.month == 12
    ensures r.Some? ==> IsValid(r.value) && Le(d, r.value) && r.value.ticks == d.ticks
  {
    match NextMonth(d.year, d.month)
    case None => None
    case Some((y, m)) =>
      var day := if d.day <= DaysInMonth(y, m) then d.day else DaysInMonth(y, m);
      Some(DateTime(y, m, day, d.ticks))
  }

  /** `AddDays(-1)`; None where .NET throws (before 1 January of year 1). */
  function PreviousDay(d: DateTime): (r: Option<DateTime>)
    requires IsValid(d)
    ensures r.None? <==> d.year == 1 && d.month == 1 && d.day == 1
    ensures r.Some? ==> IsValid(r.value) && Le(r.value, d) && r.value != d && r.value.ticks == d.ticks
  {
    if d.day > 1 then Some(d.(day := d.day - 1))
    else if d.month > 1 then Some(DateTime(d.year, d.month - 1, DaysInMonth(d.year, d.month - 1), d.ticks))
    else if d.year > 1 then Some(DateTime(d.year - 1, 12, 31, d.ticks))
    else None
  }

  /** The last day of `d`'s month, at midnight. */
  function LastOfMonth(d: DateTime): (r: DateTime)
    requires IsValid(d)
    ensures IsValid(r) && r.year == d.year && r.month == d.month && r.ticks == 0
    ensures r.day == DaysInMonth(d.year, d.month)
  {
    DateTime(d.year, d.month, DaysInMonth(d.year, d.month), 0)
  }

  /**
   * `FirstOfMonth(d).AddMonths(1).AddDays(-1)` is the last day of `d`'s month, and
   * every day of that month lies between the first and the last.
   */
  lemma MonthRange(d: DateTime)
    requires IsValid(d) && !(d.year == 9999 && d.month == 12)
    ensures AddOneMonth(FirstOfMonth(d)).Some?
    ensures PreviousDay(AddOneMonth(FirstOfMonth(d)).value) == Some(LastOfMonth(d))
    ensures forall x: DateTime :: IsValid(x) && x.year == d.year && x.month == d.month ==>
      Le(FirstOfMonth(d), x) && Le(DateOf(x), LastOfMonth(d))
  {
  }
}
