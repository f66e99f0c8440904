/**
 * Gregorian calendar facts the date pickers rely on, and the normalisation
 * JavaScript's `new Date(year, monthIndex, day)` applies to its arguments.
 */
module Calendar {

  datatype Date = Date(year: int, month: int, day: int)  // month is 1-based

  predicate IsLeapYear(y: int)
  {
    (y % 4 == 0 && y % 100 != 0) || y % 400 == 0
  }

  function DaysInMonth(y: int, m: int): (n: int)
    requires 1 <= m <= 12
    ensures 28 <= n <= 31
    ensures n == 31 <==> m in {1, 3, 5, 7, 8, 10, 12}
    ensures n == 29 <==> m == 2 && IsLeapYear(y)
  {
    if m == 2 then (if IsLeapYear(y) then 29 else 28)
    else if m == 4 || m == 6 || m == 9 || m == 11 then 30
    else 31
  }

  predicate IsCalendarDate(y: int, m: int, d: int)
  {
    1 <= m <= 12 && 1 <= d <= DaysInMonth(y, m)
  }

  /** The year `new Date` uses for its year argument: 0..99 are read as 1900..1999. */
  function FullYear(y: int): int
  {
    if 0 <= y <= 99 then 1900 + y else y
  }

  /** Carries an out-of-range day into the neighbouring months, as `Date` does. */
  function CarryDays(y: int, m: int, d: int): (r: Date)
    requires 1 <= m <= 12
    ensures IsCalendarDate(r.year, r.month, r.day)
    ensures IsCalendarDate(y, m, d) ==> r == Date(y, m, d)
    decreases if d < 1 then 1 else 0, if d < 1 then 1 - d else d
  {
    if d < 1 then
      var py := if m == 1 then y - 1 else y;
      var pm := if m == 1 then 12 else m - 1;
      CarryDays(py, pm, d + DaysInMonth(py, pm))
    else if d > DaysInMonth(y, m) then
      var ny := if m == 12 then y + 1 else y;
      var nm := if m == 12 then 1 else m + 1;
      CarryDays(ny, nm, d - DaysInMonth(y, m))
    else
      Date(y, m, d)
  }

  /** The calendar date of `new Date(y, monthIndex, d)` (monthIndex is 0-based, as in JavaScript). */
  function JsDate(y: int, monthIndex: int, d: int): (r: Date)
    ensures IsCalendarDate(r.year, r.month, r.day)
  {
    var fy := FullYear(y);
    CarryDays(fy + monthIndex / 12, monthIndex % 12 + 1, d)
  }

  /** Strictly later calendar day. */
  predicate IsAfter(a: Date, b: Date)
  {
    a.year > b.year || (a.year == b.year && (a.month > b.month || (a.month == b.month && a.day > b.day)))
  }

  /** A day of at most 31 carries at most into the following month, so the year moves by at most one. */
  lemma CarrySmallDay(y: int, m: int, d: int)
    requires 1 <= m <= 12 && 1 <= d <= 31
    ensures CarryDays(y, m, d).year in {y, y + 1}
  {
    if d > DaysInMonth(y, m) {
      var ny := if m == 12 then y + 1 else y;
      var nm := if m == 12 then 1 else m + 1;
      assert 1 <= d - DaysInMonth(y, m) <= 3;
      assert CarryDays(y, m, d) == CarryDays(ny, nm, d - DaysInMonth(y, m));
    }
  }

  /**
   * `new Date(y, m - 1, d)` reads back the same year, month and day exactly
   * when the year is not a two-digit one and (y, m, d) is a calendar date.
   */
  lemma JsDateRoundTrip(y: int, m: int, d: int)
    ensures JsDate(y, m - 1, d) == Date(y, m, d) <==> !(0 <= y <= 99) && IsCalendarDate(y, m, d)
  {
    if IsCalendarDate(y, m, d) {
      assert (m - 1) / 12 == 0 && (m - 1) % 12 + 1 == m;
      CarrySmallDay(FullYear(y), m, d);
    }
  }

  /** `new Date(y, m, 0).getDate()` is the length of month m of the year `Date` reads y as. */
  lemma JsMonthLength(y: int, m: int)
    requires 1 <= m <= 12
    ensures JsDate(y, m, 0).day == DaysInMonth(FullYear(y), m)
  {
    var fy := FullYear(y);
    if m == 12 {
      assert m / 12 == 1 && m % 12 + 1 == 1;
      assert JsDate(y, m, 0) == CarryDays(fy + 1, 1, 0);
      assert CarryDays(fy + 1, 1, 0) == CarryDays(fy, 12, 31);
    } else {
      assert m / 12 == 0 && m % 12 + 1 == m + 1;
      assert JsDate(y, m, 0) == CarryDays(fy, m + 1, 0);
      assert CarryDays(fy, m + 1, 0) == CarryDays(fy, m, DaysInMonth(fy, m));
    }
  }
}
