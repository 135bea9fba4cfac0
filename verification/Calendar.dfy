/**
 * The calendar facts the price and point engines rely on (the role of DateUtils).
 * A date is a day number in the proleptic Gregorian calendar that java.time.LocalDate
 * uses, counted from 1970-01-01 (day 0), so "the next day" is d + 1.
 */
module Calendar {

  /** ISO day of week: Monday is 1, Sunday is 7. Day 0 (1970-01-01) was a Thursday. */
  function DayOfWeek(day: int): (w: int)
    ensures 1 <= w <= 7
  {
    (day + 3) % 7 + 1
  }

  /** Saturday or Sunday: an ISO day-of-week value of 6 or more. */
  predicate IsWeekend(day: int)
  {
    DayOfWeek(day) >= 6
  }

  /** Year, month (1..12) and day of month of a day number (days-to-civil conversion). */
  function CivilFromDays(day: int): (int, int, int)
  {
    var z := day + 719468;
    var era := z / 146097;
    var doe := z - era * 146097;
    var yoe := (doe - doe / 1460 + doe / 36524 - doe / 146096) / 365;
    var doy := doe - (365 * yoe + yoe / 4 - yoe / 100);
    var mp := (5 * doy + 2) / 153;
    var d := doy - (153 * mp + 2) / 5 + 1;
    var m := if mp < 10 then mp + 3 else mp - 9;
    (yoe + era * 400 + (if m <= 2 then 1 else 0), m, d)
  }

  /** Day number of a calendar date (civil-to-days conversion, the inverse of CivilFromDays). */
  function DaysFromCivil(year: int, month: int, dayOfMonth: int): int
  {
    var y := if month <= 2 then year - 1 else year;
    var era := y / 400;
    var yoe := y - era * 400;
    var mp := if month > 2 then month - 3 else month + 9;
    var doy := (153 * mp + 2) / 5 + dayOfMonth - 1;
    var doe := yoe * 365 + yoe / 4 - yoe / 100 + doy;
    era * 146097 + doe - 719468
  }

  function MonthOf(day: int): int
  {
    CivilFromDays(day).1
  }

  /** Peak season is July or August of any year. */
  predicate IsPeakSeason(day: int)
  {
    MonthOf(day) == 7 || MonthOf(day) == 8
  }

  /** The day of week advances by one, cyclically, from one day to the next. */
  lemma {:induction false} DayOfWeekNext(day: int)
    ensures DayOfWeek(day + 1) == if DayOfWeek(day) == 7 then 1 else DayOfWeek(day) + 1
  {
  }

  /** Any six consecutive days hold a Saturday or a Sunday. */
  lemma SixDaysHoldWeekend(first: int) returns (d: int)
    ensures first <= d <= first + 5 && IsWeekend(d)
  {
    var w := DayOfWeek(first);
    var q := (first + 3) / 7;
    assert first + 3 == 7 * q + (w - 1);
    d := if w == 7 then first else first + (6 - w);
    assert d + 3 == 7 * q + (if w == 7 then 6 else 5);
  }

  /** Day numbers of the dates the pricing and point tests use. */
  lemma TestDayNumbers()
    ensures DaysFromCivil(2026, 3, 2) == 20514
    ensures DaysFromCivil(2026, 3, 3) == 20515
    ensures DaysFromCivil(2026, 3, 4) == 20516
    ensures DaysFromCivil(2026, 3, 6) == 20518
    ensures DaysFromCivil(2026, 3, 7) == 20519
    ensures DaysFromCivil(2026, 3, 8) == 20520
    ensures DaysFromCivil(2026, 6, 1) == 20605
    ensures DaysFromCivil(2026, 6, 2) == 20606
    ensures DaysFromCivil(2026, 7, 1) == 20635
    ensures DaysFromCivil(2026, 7, 2) == 20636
    ensures DaysFromCivil(2026, 7, 3) == 20637
    ensures DaysFromCivil(2026, 7, 4) == 20638
    ensures DaysFromCivil(2026, 7, 5) == 20639
    ensures DaysFromCivil(2026, 7, 6) == 20640
    ensures DaysFromCivil(2026, 7, 8) == 20642
    ensures DaysFromCivil(2026, 8, 3) == 20668
    ensures DaysFromCivil(2026, 8, 4) == 20669
    ensures DaysFromCivil(2026, 9, 1) == 20697
    ensures DaysFromCivil(2026, 9, 2) == 20698
  {
  }

  // Each test date converts back to its calendar date; the ISO day of week is stated beside it.
  // One lemma per date keeps each arithmetic evaluation in a proof obligation of its own.

  lemma Date2026_03_02()
    ensures CivilFromDays(20514) == (2026, 3, 2) && DayOfWeek(20514) == 1  // Monday
  {
    assert (20514 + 719468) / 146097 == 5;
    assert (9497 - 9497 / 1460 + 9497 / 36524 - 9497 / 146096) / 365 == 26;
    assert (5 * 1 + 2) / 153 == 0;
  }

  lemma Date2026_03_03()
    ensures CivilFromDays(20515) == (2026, 3, 3) && DayOfWeek(20515) == 2  // Tuesday
  {
    assert (20515 + 719468) / 146097 == 5;
    assert (9498 - 9498 / 1460 + 9498 / 36524 - 9498 / 146096) / 365 == 26;
    assert (5 * 2 + 2) / 153 == 0;
  }

  lemma Date2026_03_04()
    ensures CivilFromDays(20516) == (2026, 3, 4) && DayOfWeek(20516) == 3  // Wednesday
  {
    assert (20516 + 719468) / 146097 == 5;
    assert (9499 - 9499 / 1460 + 9499 / 36524 - 9499 / 146096) / 365 == 26;
    assert (5 * 3 + 2) / 153 == 0;
  }

  lemma Date2026_03_06()
    ensures CivilFromDays(20518) == (2026, 3, 6) && DayOfWeek(20518) == 5  // Friday
  {
    assert (20518 + 719468) / 146097 == 5;
    assert (9501 - 9501 / 1460 + 9501 / 36524 - 9501 / 146096) / 365 == 26;
    assert (5 * 5 + 2) / 153 == 0;
  }

  lemma Date2026_03_07()
    ensures CivilFromDays(20519) == (2026, 3, 7) && DayOfWeek(20519) == 6  // Saturday
  {
    assert (20519 + 719468) / 146097 == 5;
    assert (9502 - 9502 / 1460 + 9502 / 36524 - 9502 / 146096) / 365 == 26;
    assert (5 * 6 + 2) / 153 == 0;
  }

  lemma Date2026_03_08()
    ensures CivilFromDays(20520) == (2026, 3, 8) && DayOfWeek(20520) == 7  // Sunday
  {
    assert (20520 + 719468) / 146097 == 5;
    assert (9503 - 9503 / 1460 + 9503 / 36524 - 9503 / 146096) / 365 == 26;
    assert (5 * 7 + 2) / 153 == 0;
  }

  lemma Date2026_06_01()
    ensures CivilFromDays(20605) == (2026, 6, 1) && DayOfWeek(20605) == 1  // Monday
  {
    assert (20605 + 719468) / 146097 == 5;
    assert (9588 - 9588 / 1460 + 9588 / 36524 - 9588 / 146096) / 365 == 26;
    assert (5 * 92 + 2) / 153 == 3;
  }

  lemma Date2026_06_02()
    ensures CivilFromDays(20606) == (2026, 6, 2) && DayOfWeek(20606) == 2  // Tuesday
  {
    assert (20606 + 719468) / 146097 == 5;
    assert (9589 - 9589 / 1460 + 9589 / 36524 - 9589 / 146096) / 365 == 26;
    assert (5 * 93 + 2) / 153 == 3;
  }

  lemma Date2026_07_01()
    ensures CivilFromDays(20635) == (2026, 7, 1) && DayOfWeek(20635) == 3  // Wednesday
  {
    assert (20635 + 719468) / 146097 == 5;
    assert (9618 - 9618 / 1460 + 9618 / 36524 - 9618 / 146096) / 365 == 26;
    assert (5 * 122 + 2) / 153 == 4;
  }

  lemma Date2026_07_02()
    ensures CivilFromDays(20636) == (2026, 7, 2) && DayOfWeek(20636) == 4  // Thursday
  {
    assert (20636 + 719468) / 146097 == 5;
    assert (9619 - 9619 / 1460 + 9619 / 36524 - 9619 / 146096) / 365 == 26;
    assert (5 * 123 + 2) / 153 == 4;
  }

  lemma Date2026_07_03()
    ensures CivilFromDays(20637) == (2026, 7, 3) && DayOfWeek(20637) == 5  // Friday
  {
    assert (20637 + 719468) / 146097 == 5;
    assert (9620 - 9620 / 1460 + 9620 / 36524 - 9620 / 146096) / 365 == 26;
    assert (5 * 124 + 2) / 153 == 4;
  }

  lemma Date2026_07_04()
    ensures CivilFromDays(20638) == (2026, 7, 4) && DayOfWeek(20638) == 6  // Saturday
  {
    assert (20638 + 719468) / 146097 == 5;
    assert (9621 - 9621 / 1460 + 9621 / 36524 - 9621 / 146096) / 365 == 26;
    assert (5 * 125 + 2) / 153 == 4;
  }

  lemma Date2026_07_05()
    ensures CivilFromDays(20639) == (2026, 7, 5) && DayOfWeek(20639) == 7  // Sunday
  {
    assert (20639 + 719468) / 146097 == 5;
    assert (9622 - 9622 / 1460 + 9622 / 36524 - 9622 / 146096) / 365 == 26;
    assert (5 * 126 + 2) / 153 == 4;
  }

  lemma Date2026_07_06()
    ensures CivilFromDays(20640) == (2026, 7, 6) && DayOfWeek(20640) == 1  // Monday
  {
    assert (20640 + 719468) / 146097 == 5;
    assert (9623 - 9623 / 1460 + 9623 / 36524 - 9623 / 146096) / 365 == 26;
    assert (5 * 127 + 2) / 153 == 4;
  }

  lemma Date2026_07_08()
    ensures CivilFromDays(20642) == (2026, 7, 8) && DayOfWeek(20642) == 3  // Wednesday
  {
    assert (20642 + 719468) / 146097 == 5;
    assert (9625 - 9625 / 1460 + 9625 / 36524 - 9625 / 146096) / 365 == 26;
    assert (5 * 129 + 2) / 153 == 4;
  }

  lemma Date2026_08_03()
    ensures CivilFromDays(20668) == (2026, 8, 3) && DayOfWeek(20668) == 1  // Monday
  {
    assert (20668 + 719468) / 146097 == 5;
    assert (9651 - 9651 / 1460 + 9651 / 36524 - 9651 / 146096) / 365 == 26;
    assert (5 * 155 + 2) / 153 == 5;
  }

  lemma Date2026_08_04()
    ensures CivilFromDays(20669) == (2026, 8, 4) && DayOfWeek(20669) == 2  // Tuesday
  {
    assert (20669 + 719468) / 146097 == 5;
    assert (9652 - 9652 / 1460 + 9652 / 36524 - 9652 / 146096) / 365 == 26;
    assert (5 * 156 + 2) / 153 == 5;
  }

  lemma Date2026_09_01()
    ensures CivilFromDays(20697) == (2026, 9, 1) && DayOfWeek(20697) == 2  // Tuesday
  {
    assert (20697 + 719468) / 146097 == 5;
    assert (9680 - 9680 / 1460 + 9680 / 36524 - 9680 / 146096) / 365 == 26;
    assert (5 * 184 + 2) / 153 == 6;
  }

  lemma Date2026_09_02()
    ensures CivilFromDays(20698) == (2026, 9, 2) && DayOfWeek(20698) == 3  // Wednesday
  {
    assert (20698 + 719468) / 146097 == 5;
    assert (9681 - 9681 / 1460 + 9681 / 36524 - 9681 / 146096) / 365 == 26;
    assert (5 * 185 + 2) / 153 == 6;
  }
}
