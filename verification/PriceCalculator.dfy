/**
 * The price engine (PriceCalculator.java): a base rate chosen by the site number's first
 * letter, one surcharge tier per day, each day's price truncated, the days summed.
 */
module PriceCalculator {
  import opened Calendar
  import opened Domain

  const PriceLarge := 80000    // site numbers starting with "A"
  const PriceSmall := 50000    // site numbers starting with "B"
  const PriceDefault := 60000  // every other site number

  // Surcharges, as percentages of the base price (the source's doubles 1.3, 1.5 and 1.7).
  const SurchargeWeekend := 130
  const SurchargePeakSeason := 150
  const SurchargePeakWeekend := 170

  /**
   * Java's (int) cast of a percentage product: num / 100, truncated toward zero
   * (Dafny's own division rounds toward negative infinity).
   */
  function TruncatePercent(num: int): (q: int)
    ensures num >= 0 ==> 0 <= 100 * q <= num < 100 * q + 100
    ensures num < 0 ==> 100 * q - 100 < num <= 100 * q <= 0
  {
    if num >= 0 then num / 100 else -((-num) / 100)
  }

  /** getBasePrice: "A..." 80000, "B..." 50000, anything else 60000. */
  function BasePrice(siteNumber: string): (price: int)
  {
    if "A" <= siteNumber then PriceLarge
    else if "B" <= siteNumber then PriceSmall
    else PriceDefault
  }

  /** The surcharge tier of a day, as a percentage; peak-season weekend takes precedence. */
  function SurchargePercent(date: int): (pct: int)
    ensures pct in {100, SurchargeWeekend, SurchargePeakSeason, SurchargePeakWeekend}
    ensures pct == 100 <==> !IsWeekend(date) && !IsPeakSeason(date)
    ensures pct == SurchargeWeekend <==> IsWeekend(date) && !IsPeakSeason(date)
    ensures pct == SurchargePeakSeason <==> !IsWeekend(date) && IsPeakSeason(date)
    ensures pct == SurchargePeakWeekend <==> IsWeekend(date) && IsPeakSeason(date)
  {
    if IsWeekend(date) && IsPeakSeason(date) then SurchargePeakWeekend
    else if IsPeakSeason(date) then SurchargePeakSeason
    else if IsWeekend(date) then SurchargeWeekend
    else 100
  }

  /**
   * applyPriceSurcharge: the branch chosen by weekend and peak season, each a truncated
   * product; a plain weekday returns the base price untouched.
   */
  function ApplyPriceSurcharge(basePrice: int, date: int): (price: int)
    ensures basePrice >= 0 ==> basePrice <= price <= basePrice * 17 / 10
  {
    var weekend := IsWeekend(date);
    var peak := IsPeakSeason(date);
    if weekend && peak then TruncatePercent(basePrice * SurchargePeakWeekend)
    else if peak then TruncatePercent(basePrice * SurchargePeakSeason)
    else if weekend then TruncatePercent(basePrice * SurchargeWeekend)
    else basePrice
  }

  /** calculateDailyPrice: the base price of the site with the day's surcharge. */
  function DailyPrice(date: int, siteNumber: string): (price: int)
    ensures 50000 <= price <= 136000
  {
    ApplyPriceSurcharge(BasePrice(siteNumber), date)
  }

  /**
   * The total price of the inclusive range [startDate, endDate]: the sum of the daily prices.
   * An empty range (start after end) costs nothing.
   */
  function RangePrice(startDate: int, endDate: int, siteNumber: string): (total: int)
    ensures startDate > endDate ==> total == 0
    ensures total >= 0
    decreases endDate - startDate
  {
    if startDate > endDate then 0
    else DailyPrice(startDate, siteNumber) + RangePrice(startDate + 1, endDate, siteNumber)
  }

  /** Every night costs between the cheapest plain day (50000) and the dearest peak weekend (136000). */
  lemma {:induction false} RangePriceBounds(startDate: int, endDate: int, siteNumber: string)
    requires startDate <= endDate
    ensures 50000 * (endDate - startDate + 1) <= RangePrice(startDate, endDate, siteNumber)
    ensures RangePrice(startDate, endDate, siteNumber) <= 136000 * (endDate - startDate + 1)
    decreases endDate - startDate
  {
    var nights := endDate - startDate;
    var first := DailyPrice(startDate, siteNumber);
    assert RangePrice(startDate, endDate, siteNumber) == first + RangePrice(startDate + 1, endDate, siteNumber);
    if startDate < endDate {
      RangePriceBounds(startDate + 1, endDate, siteNumber);
      assert 50000 * (nights + 1) == 50000 + 50000 * nights;
      assert 136000 * (nights + 1) == 136000 + 136000 * nights;
    }
  }

  /** calculate(startDate, endDate, siteNumber): walks the days from start to end, adding each day's price. */
  method Calculate(startDate: int, endDate: int, siteNumber: string) returns (totalPrice: int)
    ensures totalPrice == RangePrice(startDate, endDate, siteNumber)
  {
    totalPrice := 0;
    var current := startDate;
    while current <= endDate
      invariant current == startDate || startDate < current <= endDate + 1
      invariant totalPrice + RangePrice(current, endDate, siteNumber) == RangePrice(startDate, endDate, siteNumber)
      decreases endDate - current
    {
      var dailyPrice := DailyPrice(current, siteNumber);
      assert RangePrice(current, endDate, siteNumber) == dailyPrice + RangePrice(current + 1, endDate, siteNumber);
      totalPrice := totalPrice + dailyPrice;
      current := current + 1;
    }
  }

  /** calculate(Reservation): the price of the reservation's own dates on its own site. */
  method CalculateForReservation(reservation: Reservation) returns (totalPrice: int)
    ensures totalPrice == RangePrice(reservation.startDate, reservation.endDate, reservation.campsite.siteNumber)
  {
    totalPrice := Calculate(reservation.startDate, reservation.endDate, reservation.campsite.siteNumber);
  }

  /** Each tier of applyPriceSurcharge is the day's surcharge percentage applied with truncation. */
  lemma SurchargeMatchesPercent(basePrice: int, date: int)
    ensures ApplyPriceSurcharge(basePrice, date) == TruncatePercent(basePrice * SurchargePercent(date))
  {
    if !IsWeekend(date) && !IsPeakSeason(date) {
      assert basePrice * SurchargePercent(date) == 100 * basePrice;
    }
  }

  /** The base price depends on the size class (the first letter) of the site number only. */
  lemma BasePriceByClass(siteNumber: string)
    ensures |siteNumber| > 0 && siteNumber[0] == 'A' ==> BasePrice(siteNumber) == 80000
    ensures |siteNumber| > 0 && siteNumber[0] == 'B' ==> BasePrice(siteNumber) == 50000
    ensures (|siteNumber| == 0 || siteNumber[0] !in {'A', 'B'}) ==> BasePrice(siteNumber) == 60000
  {
    if |siteNumber| > 0 {
      assert (siteNumber[0] == 'A') == ("A" <= siteNumber);
      assert (siteNumber[0] == 'B') == ("B" <= siteNumber);
    }
  }

  /** Additivity: a range splits at any inner day into two adjacent ranges whose prices add up. */
  lemma {:induction false} RangePriceSplit(startDate: int, middle: int, endDate: int, siteNumber: string)
    requires startDate <= middle < endDate
    ensures RangePrice(startDate, endDate, siteNumber)
         == RangePrice(startDate, middle, siteNumber) + RangePrice(middle + 1, endDate, siteNumber)
    decreases middle - startDate
  {
    if startDate < middle {
      RangePriceSplit(startDate + 1, middle, endDate, siteNumber);
    }
  }

  /** A one-day range costs exactly that day's price. */
  lemma RangePriceSingleDay(date: int, siteNumber: string)
    ensures RangePrice(date, date, siteNumber) == DailyPrice(date, siteNumber)
  {
  }

  // The values PriceCalculatorTest expects.

  lemma BasePriceExamples()
    ensures BasePrice("A-1") == 80000 && BasePrice("A-99") == 80000
    ensures BasePrice("B-1") == 50000 && BasePrice("B-99") == 50000
    ensures BasePrice("C-1") == 60000 && BasePrice("D-1") == 60000
  {
    BasePriceByClass("B-1");
    BasePriceByClass("B-99");
    BasePriceByClass("C-1");
    BasePriceByClass("D-1");
  }

  lemma SurchargeExamples()
    ensures ApplyPriceSurcharge(80000, DaysFromCivil(2026, 3, 2)) == 80000   // off-season weekday
    ensures ApplyPriceSurcharge(80000, DaysFromCivil(2026, 3, 7)) == 104000  // off-season Saturday
    ensures ApplyPriceSurcharge(80000, DaysFromCivil(2026, 7, 1)) == 120000  // peak-season weekday
    ensures ApplyPriceSurcharge(80000, DaysFromCivil(2026, 7, 4)) == 136000  // peak-season Saturday
  {
    TestDayNumbers();
    Date2026_03_02();
    Date2026_03_07();
    Date2026_07_01();
    Date2026_07_04();
  }

  lemma SingleDayPriceExamples()
    ensures RangePrice(DaysFromCivil(2026, 3, 2), DaysFromCivil(2026, 3, 2), "A-1") == 80000
    ensures RangePrice(DaysFromCivil(2026, 3, 2), DaysFromCivil(2026, 3, 2), "B-1") == 50000
    ensures RangePrice(DaysFromCivil(2026, 3, 7), DaysFromCivil(2026, 3, 7), "A-1") == 104000
    ensures RangePrice(DaysFromCivil(2026, 7, 1), DaysFromCivil(2026, 7, 1), "A-1") == 120000
    ensures RangePrice(DaysFromCivil(2026, 7, 4), DaysFromCivil(2026, 7, 4), "A-1") == 136000
  {
    BasePriceExamples();
    TestDayNumbers();
    Date2026_03_02();
    Date2026_03_07();
    Date2026_07_01();
    Date2026_07_04();
  }

  /** Two March weekdays. */
  lemma TwoWeekdaysPriceExample()
    ensures RangePrice(DaysFromCivil(2026, 3, 2), DaysFromCivil(2026, 3, 3), "A-1") == 80000 * 2
  {
    TestDayNumbers();
    Date2026_03_02();
    Date2026_03_03();
  }

  /** Friday to Sunday in March: each day truncated on its own, then summed. */
  lemma OffSeasonWeekendPriceExample()
    ensures RangePrice(DaysFromCivil(2026, 3, 6), DaysFromCivil(2026, 3, 8), "A-1") == 80000 + 104000 + 104000
  {
    TestDayNumbers();
    Date2026_03_06();
    Date2026_03_07();
    Date2026_03_08();
  }

  /** Friday to Sunday in July. */
  lemma PeakWeekendPriceExample()
    ensures RangePrice(DaysFromCivil(2026, 7, 3), DaysFromCivil(2026, 7, 5), "A-1") == 120000 + 136000 + 136000
  {
    TestDayNumbers();
    Date2026_07_03();
    Date2026_07_04();
    Date2026_07_05();
  }

  /** June and September weekdays pay the base price; July and August weekdays pay 1.5 times it. */
  lemma PeakSeasonBoundaryExamples()
    ensures RangePrice(DaysFromCivil(2026, 6, 1), DaysFromCivil(2026, 6, 1), "A-1") == 80000
    ensures RangePrice(DaysFromCivil(2026, 7, 1), DaysFromCivil(2026, 7, 1), "A-1") == 120000
    ensures RangePrice(DaysFromCivil(2026, 8, 3), DaysFromCivil(2026, 8, 3), "A-1") == 120000
    ensures RangePrice(DaysFromCivil(2026, 9, 1), DaysFromCivil(2026, 9, 1), "A-1") == 80000
  {
    TestDayNumbers();
    Date2026_06_01();
    Date2026_07_01();
    Date2026_08_03();
    Date2026_09_01();
  }
}
