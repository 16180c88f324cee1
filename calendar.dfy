/** Python's `datetime` values as far as the pipeline uses them, and the
    range checks `datetime(year, month, day)` performs before it raises
    `ValueError`. */
module Calendar {
  import opened Wrappers

  const MinYear := 1
  const MaxYear := 9999

  datatype DateTime = DateTime(year: int, month: int, day: int, hour: int, minute: int, second: int)

  predicate IsLeapYear(y: int) {
    y % 4 == 0 && (y % 100 != 0 || y % 400 == 0)
  }

  function DaysInMonth(y: int, m: int): (n: int)
    requires 1 <= m <= 12
    ensures 28 <= n <= 31
    ensures m == 2 ==> (n == 29 <==> IsLeapYear(y))
  {
    if m == 2 then (if IsLeapYear(y) then 29 else 28)
    else if m == 4 || m == 6 || m == 9 || m == 11 then 30
    else 31
  }

  /** The calendar dates `datetime` accepts. */
  predicate ValidDate(y: int, m: int, d: int) {
    MinYear <= y <= MaxYear && 1 <= m <= 12 && 1 <= d <= DaysInMonth(y, m)
  }

  predicate IsMidnight(t: DateTime) {
    t.hour == 0 && t.minute == 0 && t.second == 0
  }

  /** `datetime(y, m, d)`: a value at midnight, or `None` where Python
      raises `ValueError`. */
  function MakeDate(y: int, m: int, d: int): (r: Option<DateTime>)
    ensures r.Some? <==> ValidDate(y, m, d)
    ensures r.Some? ==> IsMidnight(r.value)
    ensures r.Some? ==> r.value.year == y && r.value.month == m && r.value.day == d
  {
    if ValidDate(y, m, d) then Some(DateTime(y, m, d, 0, 0, 0)) else None
  }
}
