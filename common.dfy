/** Values shared by every stage of the pipeline: nullable cells, results of
    operations that can raise, calendar dates and ingestion timestamps. */
module Common {

  /** A nullable cell: pandas NaN/None and SQL NULL are both `None`. */
  datatype Option<+T> = None | Some(value: T)

  /** The outcome of a step that either returns a value or raises. */
  datatype Result<+T, +E> = Success(value: T) | Failure(error: E)

  /** A calendar date (`sale_date`), as year, month and day. */
  datatype Date = Date(year: int, month: int, day: int)

  /** An ingestion timestamp, as an opaque instant (it is only copied, never inspected). */
  type Timestamp = int

  predicate IsLeapYear(y: int)
  {
    (y % 4 == 0 && y % 100 != 0) || y % 400 == 0
  }

  /** Number of days of month `m` of year `y` in the Gregorian calendar. */
  function DaysInMonth(y: int, m: int): (d: int)
    requires 1 <= m <= 12
    ensures 28 <= d <= 31
    ensures m == 2 ==> (d == 29 <==> IsLeapYear(y))
  {
    if m == 2 then (if IsLeapYear(y) then 29 else 28)
    else if m == 4 || m == 6 || m == 9 || m == 11 then 30
    else 31
  }

  /** A date that exists in the calendar, i.e. one that a date parser accepts. */
  predicate ValidDate(d: Date)
  {
    1 <= d.month <= 12 && 1 <= d.day <= DaysInMonth(d.year, d.month)
  }
}
