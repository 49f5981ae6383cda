/** Months of the UTC calendar, in which the runner's folds begin. */
module Calendar {
  import opened Clock

  predicate Leap(year: int) {
    year % 4 == 0 && (year % 100 != 0 || year % 400 == 0)
  }

  function DaysIn(year: int, month: int): (days: int)
    ensures 28 <= days <= 31
  {
    if month == 2 then if Leap(year) then 29 else 28
    else if month in {4, 6, 9, 11} then 30
    else 31
  }

  /** The first day of the month holding `day`, searched for from the month beginning on `first`. */
  function MonthFrom(day: int, first: int, year: int, month: int): int
    requires first <= day
    decreases day - first
  {
    var next := first + DaysIn(year, month);
    if day < next then first
    else if month == 12 then MonthFrom(day, next, year + 1, 1)
    else MonthFrom(day, next, year, month + 1)
  }

  /** The start of the month holding a time since the epoch; no earlier time occurs. */
  function MonthStart(time: int): int {
    if time < 0 then time else MonthFrom(time / DAY_MS, 0, 1970, 1) * DAY_MS
  }

  /** A month begins on or before its days, and every day from its first on is in the same month. */
  lemma {:induction false} MonthIsAnInterval(day: int, earlier: int, first: int, year: int, month: int)
    requires first <= earlier <= day
    ensures first <= MonthFrom(day, first, year, month) <= day < MonthFrom(day, first, year, month) + 31
    ensures MonthFrom(day, first, year, month) <= earlier
            <==> MonthFrom(earlier, first, year, month) == MonthFrom(day, first, year, month)
    decreases day - first
  {
    var next := first + DaysIn(year, month);
    if day >= next {
      var y, m := if month == 12 then year + 1 else year, if month == 12 then 1 else month + 1;
      MonthIsAnInterval(day, if earlier >= next then earlier else day, next, y, m);
    }
  }

  /** Months cut time into intervals: a time starts the fold of exactly the times from it to the
      next start, and of itself. */
  lemma {:induction false} MonthsAreFolds(time: int, earlier: int)
    requires 0 <= earlier <= time
    ensures 0 <= MonthStart(time) <= time < MonthStart(time) + 31 * DAY_MS
    ensures MonthStart(time) <= earlier <==> MonthStart(earlier) == MonthStart(time)
    ensures MonthStart(MonthStart(time)) == MonthStart(time)
  {
    var day := time / DAY_MS;
    assert 0 <= earlier / DAY_MS <= day;
    MonthIsAnInterval(day, earlier / DAY_MS, 0, 1970, 1);
    var first := MonthFrom(day, 0, 1970, 1);
    MonthIsAnInterval(day, first, 0, 1970, 1);
    assert first * DAY_MS / DAY_MS == first;
  }

  // ---------------------------------------------------------------- the civil calendar

  /** Days before a year since 1970: a day more for every fourth year, but for hundredths that are
      not four-hundredths. */
  function DaysBefore(year: int): int {
    365 * (year - 1970) + (year - 1969) / 4 - (year - 1901) / 100 + (year - 1601) / 400
  }

  const BEFORE_MONTH := [0, 31, 59, 90, 120, 151, 181, 212, 243, 273, 304, 334]

  /** The day a month begins on, counted from 1970-01-01. */
  function FirstDay(year: int, month: int): int
    requires 1 <= month <= 12
  {
    DaysBefore(year) + BEFORE_MONTH[month - 1]
    + if month > 2 && DaysBefore(year + 1) - DaysBefore(year) == 366 then 1 else 0
  }

  function NextFirst(year: int, month: int): int
    requires 1 <= month <= 12
  {
    if month == 12 then FirstDay(year + 1, 1) else FirstDay(year, month + 1)
  }

  lemma LeapIsFormula(year: int)
    ensures DaysBefore(year + 1) - DaysBefore(year) == if Leap(year) then 366 else 365
  {
    Fourths(year);
    Hundredths(year);
    FourHundredths(year);
    Multiples(year);
  }

  lemma Multiples(year: int)
    ensures year % 400 == 0 ==> year % 100 == 0
    ensures year % 100 == 0 ==> year % 4 == 0
  {
  }

  lemma Fourths(year: int)
    ensures (year + 1 - 1969) / 4 == (year - 1969) / 4 + if year % 4 == 0 then 1 else 0
  {
  }

  lemma Hundredths(year: int)
    ensures (year + 1 - 1901) / 100 == (year - 1901) / 100 + if year % 100 == 0 then 1 else 0
  {
  }

  lemma FourHundredths(year: int)
    ensures (year + 1 - 1601) / 400 == (year - 1601) / 400 + if year % 400 == 0 then 1 else 0
  {
  }

  lemma MonthsFollow(year: int, month: int)
    requires 1 <= month <= 12
    ensures NextFirst(year, month) == FirstDay(year, month) + DaysIn(year, month)
  {
    LeapIsFormula(year);
    hide DaysBefore;
  }

  lemma {:induction false} MonthFromIsCivil(day: int, year: int, month: int) returns (y: int, m: int)
    requires 1 <= month <= 12 && FirstDay(year, month) <= day
    ensures 1 <= m <= 12 && MonthFrom(day, FirstDay(year, month), year, month) == FirstDay(y, m)
    ensures FirstDay(y, m) <= day < NextFirst(y, m)
    decreases day - FirstDay(year, month)
  {
    hide FirstDay, NextFirst, DaysIn;
    MonthsFollow(year, month);
    if day < NextFirst(year, month) {
      y, m := year, month;
    } else {
      NextMonthIs(year, month);
      if month == 12 {
        y, m := MonthFromIsCivil(day, year + 1, 1);
      } else {
        y, m := MonthFromIsCivil(day, year, month + 1);
      }
    }
  }

  lemma NextMonthIs(year: int, month: int)
    requires 1 <= month <= 12
    ensures NextFirst(year, month) == if month == 12 then FirstDay(year + 1, 1) else FirstDay(year, month + 1)
  {
  }

  /** The start of a time's month is that of the Gregorian month, in closed form, that holds it. */
  lemma {:induction false} MonthStartIsCivil(time: int) returns (year: int, month: int)
    requires time >= 0
    ensures 1 <= month <= 12 && MonthStart(time) == FirstDay(year, month) * DAY_MS
    ensures FirstDay(year, month) * DAY_MS <= time < NextFirst(year, month) * DAY_MS
  {
    assert FirstDay(1970, 1) == 0;
    hide FirstDay, NextFirst;
    year, month := MonthFromIsCivil(time / DAY_MS, 1970, 1);
  }
}
