/** The next occurrence of a day and month (app/appointment/service.py, _future_date). */
module VisitDates {
  import opened Common

  datatype Date = Date(year: int, month: int, day: int)

  const MaxYear: int := 9999

  predicate Leap(y: int) {
    y % 4 == 0 && (y % 100 != 0 || y % 400 == 0)
  }

  function DaysIn(y: int, m: int): int {
    if m == 2 then (if Leap(y) then 29 else 28)
    else if m == 4 || m == 6 || m == 9 || m == 11 then 30 else 31
  }

  /** What the date constructor accepts. */
  predicate Valid(d: Date) {
    1 <= d.year <= MaxYear && 1 <= d.month <= 12 && 1 <= d.day <= DaysIn(d.year, d.month)
  }

  predicate NotBefore(a: Date, b: Date) {
    a.year > b.year || (a.year == b.year && (a.month > b.month || (a.month == b.month && a.day >= b.day)))
  }

  /** The dates of the Gregorian calendar, from year 1 to the last year. */
  lemma ValidIff(y: int, m: int, d: int)
    ensures Valid(Date(y, m, d)) <==>
              && 1 <= y <= 9999 && 1 <= m <= 12 && 1 <= d
              && (d <= 28 || (m != 2 && d <= 30) || (d == 31 && m in {1, 3, 5, 7, 8, 10, 12})
                  || (d == 29 && m == 2 && (y % 400 == 0 || (y % 4 == 0 && y % 100 != 0))))
  {
  }

  /** The order of dates is that of their numbers, when every month is given 31 days and every year 372. */
  lemma NotBeforeIff(a: Date, b: Date)
    requires Valid(a) && Valid(b)
    ensures NotBefore(a, b) <==> 372 * a.year + 31 * a.month + a.day >= 372 * b.year + 31 * b.month + b.day
  {
  }

  /** A date of this day and month that is not past. */
  predicate Possible(d: Date, day: int, month: int, today: Date) {
    Valid(d) && d.day == day && d.month == month && NotBefore(d, today)
  }

  /** The first one, at whatever distance. */
  ghost predicate Earliest(d: Date, day: int, month: int, today: Date) {
    Possible(d, day, month, today) && forall e | Possible(e, day, month, today) :: NotBefore(e, d)
  }

  /** Of any eight consecutive years one is a leap year, also across a century that is none. */
  lemma LeapWithinEight(y: int) returns (k: int)
    ensures 1 <= k <= 8 && Leap(y + k)
  {
    k := 4 - y % 4;
    if !Leap(y + k) {
      assert (y + k) % 100 == 0;
      k := k + 4;
    }
  }

  /** Eight years ahead are enough: whatever day and month occur again at all occur again by then, unless
      that lies beyond the last year. */
  lemma WindowSuffices(d: Date, day: int, month: int, today: Date)
    requires Valid(today) && Possible(d, day, month, today) && d.year > today.year + 8
    ensures exists e :: Possible(e, day, month, today) && today.year <= e.year <= today.year + 8
  {
    var k := LeapWithinEight(today.year);
    assert Possible(Date(today.year + k, month, day), day, month, today);
  }

  method FutureDate(day: int, month: int, year: Option<int>, today: Date) returns (r: Option<Date>)
    requires Valid(today)
    ensures year.None? && r.Some? ==> Earliest(r.value, day, month, today)
    ensures year.None? && r.None? ==> forall e :: !Possible(e, day, month, today)
    ensures year.Some? ==> r == if Possible(Date(year.value, month, day), day, month, today)
                                then Some(Date(year.value, month, day)) else None
  {
    if year.Some? {
      var candidate := Date(year.value, month, day);
      return if Valid(candidate) && NotBefore(candidate, today) then Some(candidate) else None;
    }
    var last := if today.year + 8 < MaxYear then today.year + 8 else MaxYear;
    for y := today.year to last + 1
      invariant forall e | Possible(e, day, month, today) :: e.year >= y
    {
      var candidate := Date(y, month, day);
      if Valid(candidate) && NotBefore(candidate, today) {
        return Some(candidate);
      }
    }
    forall e ensures !Possible(e, day, month, today) {
      if Possible(e, day, month, today) && e.year > today.year + 8 {
        WindowSuffices(e, day, month, today);
      }
    }
    return None;
  }

  /** Seven years would not do. */
  lemma SevenYearsAreNotEnough()
    ensures var today := Date(2096, 3, 1);
            && Earliest(Date(2104, 2, 29), 29, 2, today)
            && forall e | Possible(e, 29, 2, today) :: e.year > today.year + 7
  {
    forall e | Possible(e, 29, 2, Date(2096, 3, 1)) ensures e.year >= 2104 { }
  }
}
