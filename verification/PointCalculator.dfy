/**
 * The point engine (PointCalculator.java): a rate chosen by precedence (a weekend day anywhere
 * in the range, else a peak-season start date, else the default), applied to the total price
 * with truncation.
 */
module PointCalculator {
  import opened Calendar
  import opened Domain
  import PriceCalculator

  // Point rates, as percentages of the total price (the source's doubles 0.05, 0.10 and 0.03).
  const RateDefault := 5
  const RateWeekend := 10
  const RatePeakSeason := 3

  /** Whether the inclusive range [startDate, endDate] holds a Saturday or a Sunday. */
  function WeekendInPeriod(startDate: int, endDate: int): (found: bool)
    ensures found <==> exists d :: startDate <= d <= endDate && IsWeekend(d)
    decreases endDate - startDate
  {
    if startDate > endDate then false
    else IsWeekend(startDate) || WeekendInPeriod(startDate + 1, endDate)
  }

  /** hasWeekendInPeriod: walks the days from start to end and stops at the first weekend day. */
  method HasWeekendInPeriod(startDate: int, endDate: int) returns (found: bool)
    ensures found <==> exists d :: startDate <= d <= endDate && IsWeekend(d)
  {
    var current := startDate;
    while current <= endDate
      invariant current == startDate || startDate < current <= endDate + 1
      invariant forall d :: startDate <= d < current ==> !IsWeekend(d)
      decreases endDate - current
    {
      if IsWeekend(current) {
        return true;
      }
      current := current + 1;
    }
    return false;
  }

  /**
   * determinePointRate, as a percentage: 10 when a weekend day lies in the range (even in
   * July), otherwise 3 when the START date is in July or August, otherwise 5.
   */
  function PointRate(startDate: int, endDate: int): (rate: int)
    ensures rate == RateWeekend <==> exists d :: startDate <= d <= endDate && IsWeekend(d)
    ensures rate == RatePeakSeason <==> (forall d :: startDate <= d <= endDate ==> !IsWeekend(d)) && IsPeakSeason(startDate)
    ensures rate == RateDefault <==> (forall d :: startDate <= d <= endDate ==> !IsWeekend(d)) && !IsPeakSeason(startDate)
  {
    if WeekendInPeriod(startDate, endDate) then RateWeekend
    else if IsPeakSeason(startDate) then RatePeakSeason
    else RateDefault
  }

  /** calculate(startDate, endDate, totalPrice): the rate applied to the total, truncated as Java's (int) cast does. */
  function Points(startDate: int, endDate: int, totalPrice: int): (points: int)
    ensures totalPrice >= 0 ==> 0 <= points <= totalPrice / 10
    ensures totalPrice >= 0 ==> 100 * points <= totalPrice * PointRate(startDate, endDate) < 100 * points + 100
    ensures totalPrice < 0 ==> 100 * points - 100 < totalPrice * PointRate(startDate, endDate) <= 100 * points <= 0
  {
    PriceCalculator.TruncatePercent(totalPrice * PointRate(startDate, endDate))
  }

  /** calculate(startDate, endDate, siteNumber): the points on the price the price engine computes for the range. */
  method PointsForSite(startDate: int, endDate: int, siteNumber: string) returns (points: int)
    ensures points == Points(startDate, endDate, PriceCalculator.RangePrice(startDate, endDate, siteNumber))
    ensures points >= 0
  {
    var totalPrice := PriceCalculator.Calculate(startDate, endDate, siteNumber);
    points := Points(startDate, endDate, totalPrice);
  }

  /** calculate(Reservation): the points on the reservation's price, over the reservation's dates. */
  method PointsForReservation(reservation: Reservation) returns (points: int)
    ensures points == Points(reservation.startDate, reservation.endDate,
                             PriceCalculator.RangePrice(reservation.startDate, reservation.endDate, reservation.campsite.siteNumber))
    ensures points >= 0
  {
    var totalPrice := PriceCalculator.CalculateForReservation(reservation);
    points := Points(reservation.startDate, reservation.endDate, totalPrice);
  }

  /** A range of six days or more always holds a weekend day, so it always earns the weekend rate. */
  lemma LongStayEarnsWeekendRate(startDate: int, endDate: int)
    requires endDate - startDate >= 5
    ensures PointRate(startDate, endDate) == RateWeekend
  {
    var d := SixDaysHoldWeekend(startDate);
    assert startDate <= d <= endDate && IsWeekend(d);
  }

  // The values PointCalculatorTest expects.

  lemma WeekendInPeriodExamples()
    ensures !WeekendInPeriod(DaysFromCivil(2026, 3, 2), DaysFromCivil(2026, 3, 4))  // Monday to Wednesday
    ensures WeekendInPeriod(DaysFromCivil(2026, 3, 6), DaysFromCivil(2026, 3, 8))   // Friday to Sunday
    ensures WeekendInPeriod(DaysFromCivil(2026, 3, 7), DaysFromCivil(2026, 3, 7))   // a lone Saturday
  {
    TestDayNumbers();
    Date2026_03_02();
    Date2026_03_03();
    Date2026_03_04();
    Date2026_03_07();
  }

  lemma PointRateOffSeasonExamples()
    ensures PointRate(DaysFromCivil(2026, 3, 2), DaysFromCivil(2026, 3, 3)) == 5   // off-season weekdays
    ensures PointRate(DaysFromCivil(2026, 3, 6), DaysFromCivil(2026, 3, 8)) == 10  // holds a weekend
  {
    TestDayNumbers();
    Date2026_03_02();
    Date2026_03_03();
    Date2026_03_07();
  }

  lemma PointRatePeakSeasonExamples()
    ensures PointRate(DaysFromCivil(2026, 7, 6), DaysFromCivil(2026, 7, 8)) == 3   // July weekdays only
    ensures PointRate(DaysFromCivil(2026, 7, 3), DaysFromCivil(2026, 7, 5)) == 10  // July, with a weekend
  {
    TestDayNumbers();
    Date2026_07_04();
    Date2026_07_06();
    assert DayOfWeek(20641) == 2 && DayOfWeek(20642) == 3;
  }

  /** Monday-Tuesday style weekday ranges at the start of June and September earn 5. */
  lemma PointRateShoulderMonthExamples()
    ensures PointRate(DaysFromCivil(2026, 6, 1), DaysFromCivil(2026, 6, 2)) == 5
    ensures PointRate(DaysFromCivil(2026, 9, 1), DaysFromCivil(2026, 9, 2)) == 5
  {
    TestDayNumbers();
    Date2026_06_01();
    Date2026_06_02();
    Date2026_09_01();
    Date2026_09_02();
  }

  /** Weekday ranges at the start of July and August earn 3. */
  lemma PointRatePeakMonthExamples()
    ensures PointRate(DaysFromCivil(2026, 7, 1), DaysFromCivil(2026, 7, 2)) == 3
    ensures PointRate(DaysFromCivil(2026, 8, 3), DaysFromCivil(2026, 8, 4)) == 3
  {
    TestDayNumbers();
    Date2026_07_01();
    Date2026_07_02();
    Date2026_08_03();
    Date2026_08_04();
  }

  lemma PointsExamples()
    ensures Points(DaysFromCivil(2026, 3, 2), DaysFromCivil(2026, 3, 2), 100000) == 5000
    ensures Points(DaysFromCivil(2026, 3, 6), DaysFromCivil(2026, 3, 8), 100000) == 10000
    ensures Points(DaysFromCivil(2026, 7, 6), DaysFromCivil(2026, 7, 6), 100000) == 3000
  {
    TestDayNumbers();
    Date2026_03_02();
    Date2026_03_07();
    Date2026_07_06();
  }

  /** Points with the price computed: 80000 earns 4000; Friday to Sunday in March costs 288000 and earns 28800. */
  lemma PointsForSiteExamples()
    ensures Points(DaysFromCivil(2026, 3, 2), DaysFromCivil(2026, 3, 2),
                   PriceCalculator.RangePrice(DaysFromCivil(2026, 3, 2), DaysFromCivil(2026, 3, 2), "A-1")) == 4000
    ensures Points(DaysFromCivil(2026, 3, 6), DaysFromCivil(2026, 3, 8),
                   PriceCalculator.RangePrice(DaysFromCivil(2026, 3, 6), DaysFromCivil(2026, 3, 8), "A-1")) == 28800
  {
    var monday, friday, sunday := DaysFromCivil(2026, 3, 2), DaysFromCivil(2026, 3, 6), DaysFromCivil(2026, 3, 8);
    assert PriceCalculator.RangePrice(monday, monday, "A-1") == 80000 by {
      PriceCalculator.SingleDayPriceExamples();
    }
    assert PriceCalculator.RangePrice(friday, sunday, "A-1") == 288000 by {
      PriceCalculator.OffSeasonWeekendPriceExample();
    }
    assert PointRate(monday, monday) == 5 by {
      TestDayNumbers();
      Date2026_03_02();
    }
    assert PointRate(friday, sunday) == 10 by {
      PointRateOffSeasonExamples();
    }
  }
}
