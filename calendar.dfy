/**
 * The date part of `DateTime`: a date is its day number counted from 1 January of
 * year 1 in the proleptic Gregorian calendar (day 0), so that subtracting two dates
 * and taking `.Days` is integer subtraction.
 */
module Calendar {

  type Date = nat

  predicate IsLeapYear(y: int) {
    y % 4 == 0 && (y % 100 != 0 || y % 400 == 0)
  }

  function DaysInYear(y: int): int {
    if IsLeapYear(y) then 366 else 365
  }

  /** The day number of 1 January of year `y`: the days of the years before it. */
  function YearStart(y: int): int
    requires y >= 1
    decreases y
  {
    if y == 1 then 0 else YearStart(y - 1) + DaysInYear(y - 1)
  }

  lemma {:induction false} YearStartMonotonic(a: int, b: int)
    requires 1 <= a <= b
    ensures YearStart(a) + 365 * (b - a) <= YearStart(b)
    decreases b - a
  {
    if a < b {
      YearStartMonotonic(a, b - 1);
    }
  }

  function YearFrom(d: Date, y: int): (r: int)
    requires y >= 1 && YearStart(y) <= d
    ensures r >= y && YearStart(r) <= d < YearStart(r + 1)
    decreases d - YearStart(y)
  {
    if d < YearStart(y + 1) then y else YearFrom(d, y + 1)
  }

  /** `DateTime.Year`: the year whose days contain `d`. */
  function YearOf(d: Date): (y: int)
    ensures y >= 1 && YearStart(y) <= d < YearStart(y + 1)
  {
    YearFrom(d, 1)
  }

  /** A day lies in exactly one year. */
  lemma YearOfUnique(d: Date, y: int)
    requires y >= 1 && YearStart(y) <= d < YearStart(y + 1)
    ensures YearOf(d) == y
  {
    var z := YearOf(d);
    if z < y {
      YearStartMonotonic(z + 1, y);
    } else if z > y {
      YearStartMonotonic(y + 1, z);
    }
  }

  /** `new DateTime(y, 12, 31)`. */
  function LastDayOfYear(y: int): (d: Date)
    requires y >= 1
    ensures YearOf(d) == y && YearOf(d + 1) == y + 1
  {
    YearStartMonotonic(1, y);
    YearOfUnique(YearStart(y + 1) - 1, y);
    YearOfUnique(YearStart(y + 1), y + 1);
    YearStart(y + 1) - 1
  }
}
