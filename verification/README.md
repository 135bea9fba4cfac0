# Camping reservation core in Dafny

This project models the core of a camping-site reservation service.

- **Price engine** (`PriceCalculator`). Each site has a nightly base price chosen by the first letter of its site number: `A` (large) 80000, `B` (small) 50000, anything else 60000. Each day takes one surcharge tier:
  - off-season weekday: ×1.0;
  - off-season weekend: ×1.3;
  - peak-season weekday (July and August): ×1.5;
  - peak-season weekend: ×1.7.

  Each day's price is truncated. The total of a stay is the sum over every day of the inclusive range.
- **Point engine** (`PointCalculator`). The point rate is chosen by precedence:
  1. 10% if any day of the range is a Saturday or a Sunday;
  2. otherwise 3% if the start date is in July or August;
  3. otherwise 5%.

  The rate applies to the total price, with truncation.
- **Reservation queries** (`ReservationRepository`). These cover the inclusive range-intersection finders, the `hasOverlappingReservation` query and `findById`.
- **Reservation service**, as its unit and acceptance tests pin it down:
  - `createReservation` runs a fail-fast validation chain, then the overlap query against CONFIRMED bookings, then saves a CONFIRMED booking;
  - `cancelReservation` looks the booking up by id, checks its confirmation code and sets the status to CANCELLED, or to CANCELLED_SAME_DAY when the stay starts today;
  - `searchAvailableSites` validates the search period, then lists the sites of the requested size with no CONFIRMED booking in the period.

A date is an integer day number in the proleptic Gregorian calendar, with day 0 being 1970-01-01. The weekday is `(day + 3) % 7 + 1`, with Monday = 1. The month comes from a days-to-civil conversion.

The store is a class, `ReservationService.ReservationStore`. It holds:
- the campsite catalogue;
- the reservation table, as a sequence;
- the next id.

Its invariant `Valid()` states:
- ids are positive and increasing;
- every booking has start ≤ end and a six-character code;
- **no two CONFIRMED bookings on one campsite intersect** (`ConfirmedDisjoint`).

Create and cancel both preserve this invariant. Cancelling frees the cancelled period. At most one of two overlapping requests succeeds.

Files:

| file | module | contents |
|---|---|---|
| `Wrappers.dfy` | `Wrappers` | `Option`, `Result` |
| `Calendar.dfy` | `Calendar` | weekday, month, weekend and peak-season predicates; calendar facts of the test dates |
| `Domain.dfy` | `Domain` | `Campsite`, `Reservation`, `Status` |
| `PriceCalculator.dfy` | `PriceCalculator` | base price, surcharge, daily and range prices, the `calculate` loop |
| `PointCalculator.dfy` | `PointCalculator` | weekend search loop, point rate, points |
| `ReservationRepository.dfy` | `ReservationRepository` | overlap query, finders, `findById` |
| `ReservationService.dfy` | `ReservationService` | validation chain, cancellation, the store class |
| `SiteService.dfy` | `SiteService` | search-period check, size filter, availability search |
| `Scenarios.dfy` | `Scenarios` | the acceptance scenarios run against a fresh store, and the two-request race |

Modelling choices:
- **Percentages.** The Java code multiplies by `double`s and casts with `(int)`. The model multiplies by a whole percentage and divides by 100, truncating toward zero (`PriceCalculator.TruncatePercent`). This is exact for every value the tests use.
- **Classes outside the modelled sources.** `ReservationService`, `SiteService`, `DateUtils` and `CampsiteRepository` belong to the repository (the tests import them), but they are not part of this model's sources. Their behaviour is taken from the tests:
  - The validation order: site number blank; campsite lookup; period (both given, end ≥ start, start ≥ today, at most 30 days); customer name (given and non-empty, at least 2 characters, at most 20); phone number.
  - The phone rule. Any character other than a digit or `-` gives the "digits only" error, and this check comes first. A digit count other than 10 or 11 gives the "format" error. This rule accepts and rejects exactly the phone numbers the tests use.
  - The size filter. `"large"` keeps the site numbers starting with `A`, `"small"` those starting with `B`, and any other value keeps every site. The tests only show `"large"`.
  - Blank. A site number is blank when every character is at most `' '`, which is what Java's `trim` removes.
- **Inputs from outside.** The current date (`LocalDate.now()`) and the randomly generated confirmation code are parameters. The code is required to have length 6, the only property of it the tests observe.
- **Concurrency.** The per-site row lock taken by `findBySiteNumberWithLock` is modelled as atomicity: the whole body of `CreateReservation` is one step.

## Model

| member | source | states |
|---|---|---|
| Calendar.DayOfWeek | src/test/java/com/camping/legacy/service/PriceCalculatorTest.java:183-188 | the ISO day of week lies in 1..7 (Monday 1, Sunday 7) |
| Calendar.DayOfWeekNext | src/main/java/com/camping/legacy/service/PointCalculator.java:71-77 | stepping to the next day advances the weekday cyclically (Sunday is followed by Monday) |
| Calendar.SixDaysHoldWeekend | src/main/java/com/camping/legacy/service/PointCalculator.java:70-79 | any six consecutive days contain a Saturday or Sunday, and it returns one |
| Calendar.TestDayNumbers | src/test/java/com/camping/legacy/service/PriceCalculatorTest.java:96-125 | day numbers of the 2026 dates the price and point tests use |
| Calendar.Date2026_03_02 | src/test/java/com/camping/legacy/service/PriceCalculatorTest.java:96-101 | 2026-03-02 converts back to (2026, 3, 2) and is a Monday |
| Calendar.Date2026_03_03 | src/test/java/com/camping/legacy/service/PriceCalculatorTest.java:96-101 | 2026-03-03 is a Tuesday in March |
| Calendar.Date2026_03_04 | src/test/java/com/camping/legacy/service/PointCalculatorTest.java:138-143 | 2026-03-04 is a Wednesday in March |
| Calendar.Date2026_03_06 | src/test/java/com/camping/legacy/service/PriceCalculatorTest.java:105-113 | 2026-03-06 is a Friday in March |
| Calendar.Date2026_03_07 | src/test/java/com/camping/legacy/service/PriceCalculatorTest.java:67-71 | 2026-03-07 is a Saturday in March |
| Calendar.Date2026_03_08 | src/test/java/com/camping/legacy/service/PriceCalculatorTest.java:105-113 | 2026-03-08 is a Sunday in March |
| Calendar.Date2026_06_01 | src/test/java/com/camping/legacy/service/PriceCalculatorTest.java:133-149 | 2026-06-01 is a Monday in June |
| Calendar.Date2026_06_02 | src/test/java/com/camping/legacy/service/PointCalculatorTest.java:164-178 | 2026-06-02 is a Tuesday in June |
| Calendar.Date2026_07_01 | src/test/java/com/camping/legacy/service/PriceCalculatorTest.java:75-79 | 2026-07-01 is a Wednesday in July |
| Calendar.Date2026_07_02 | src/test/java/com/camping/legacy/service/PointCalculatorTest.java:164-178 | 2026-07-02 is a Thursday in July |
| Calendar.Date2026_07_03 | src/test/java/com/camping/legacy/service/PriceCalculatorTest.java:117-125 | 2026-07-03 is a Friday in July |
| Calendar.Date2026_07_04 | src/test/java/com/camping/legacy/service/PriceCalculatorTest.java:83-87 | 2026-07-04 is a Saturday in July |
| Calendar.Date2026_07_05 | src/test/java/com/camping/legacy/service/PriceCalculatorTest.java:117-125 | 2026-07-05 is a Sunday in July |
| Calendar.Date2026_07_06 | src/test/java/com/camping/legacy/service/PointCalculatorTest.java:50-58 | 2026-07-06 is a Monday in July |
| Calendar.Date2026_07_08 | src/test/java/com/camping/legacy/service/PointCalculatorTest.java:50-58 | 2026-07-08 is a Wednesday in July |
| Calendar.Date2026_08_03 | src/test/java/com/camping/legacy/service/PriceCalculatorTest.java:133-149 | 2026-08-03 is a Monday in August |
| Calendar.Date2026_08_04 | src/test/java/com/camping/legacy/service/PointCalculatorTest.java:164-178 | 2026-08-04 is a Tuesday in August |
| Calendar.Date2026_09_01 | src/test/java/com/camping/legacy/service/PriceCalculatorTest.java:133-149 | 2026-09-01 is a Tuesday in September |
| Calendar.Date2026_09_02 | src/test/java/com/camping/legacy/service/PointCalculatorTest.java:164-178 | 2026-09-02 is a Wednesday in September |
| PriceCalculator.TruncatePercent | src/main/java/com/camping/legacy/service/PriceCalculator.java:82-86 | the `(int)` cast of a percentage product: the quotient by 100 truncated toward zero, for either sign |
| PriceCalculator.SurchargePercent | src/main/java/com/camping/legacy/service/PriceCalculator.java:77-89 | each tier belongs to exactly one kind of day: 100% to an off-season weekday, 130% to an off-season weekend day, 150% to a peak-season weekday, 170% to a peak-season weekend day |
| PriceCalculator.ApplyPriceSurcharge | src/main/java/com/camping/legacy/service/PriceCalculator.java:77-89 | a surcharge never lowers a non-negative base and never exceeds 1.7 times it |
| PriceCalculator.SurchargeMatchesPercent | src/main/java/com/camping/legacy/service/PriceCalculator.java:77-89 | each branch is the base times the day's tier, truncated; peak weekend takes precedence over the single surcharges |
| PriceCalculator.BasePriceByClass | src/main/java/com/camping/legacy/service/PriceCalculator.java:65-72 | `BasePrice` (getBasePrice) is decided by the first letter alone: 'A' 80000, 'B' 50000, any other (or empty) 60000 |
| PriceCalculator.DailyPrice | src/main/java/com/camping/legacy/service/PriceCalculator.java:57-60 | every day costs between 50000 and 136000 |
| PriceCalculator.RangePrice | src/main/java/com/camping/legacy/service/PriceCalculator.java:30-41 | a range whose start is after its end costs 0; no range costs less than 0 |
| PriceCalculator.RangePriceBounds | src/main/java/com/camping/legacy/service/PriceCalculator.java:30-41 | a stay of n days costs between 50000·n and 136000·n |
| PriceCalculator.Calculate | src/main/java/com/camping/legacy/service/PriceCalculator.java:30-41 | the day-by-day loop returns the sum of the daily prices over the inclusive range |
| PriceCalculator.CalculateForReservation | src/main/java/com/camping/legacy/service/PriceCalculator.java:46-52 | a reservation costs the range price of its own dates on its own site |
| PriceCalculator.RangePriceSplit | src/main/java/com/camping/legacy/service/PriceCalculator.java:34-37 | additivity: a range splits at any inner day into two ranges whose prices add up |
| PriceCalculator.RangePriceSingleDay | src/main/java/com/camping/legacy/service/PriceCalculator.java:30-41 | a one-day range costs that day's daily price |
| PriceCalculator.BasePriceExamples | src/test/java/com/camping/legacy/service/PriceCalculatorTest.java:32-43 | A-1, A-99: 80000; B-1, B-99: 50000; C-1, D-1: 60000 |
| PriceCalculator.SurchargeExamples | src/test/java/com/camping/legacy/service/PriceCalculatorTest.java:156-179 | 80000 on a March weekday, a March Saturday, a July weekday and a July Saturday: 80000, 104000, 120000, 136000 |
| PriceCalculator.SingleDayPriceExamples | src/test/java/com/camping/legacy/service/PriceCalculatorTest.java:50-88 | one-night prices: 80000 (A) and 50000 (B) on a March weekday, 104000, 120000, 136000 |
| PriceCalculator.TwoWeekdaysPriceExample | src/test/java/com/camping/legacy/service/PriceCalculatorTest.java:95-102 | two March weekdays on A cost 160000 |
| PriceCalculator.OffSeasonWeekendPriceExample | src/test/java/com/camping/legacy/service/PriceCalculatorTest.java:104-114 | Friday to Sunday in March on A costs 80000 + 104000 + 104000 |
| PriceCalculator.PeakWeekendPriceExample | src/test/java/com/camping/legacy/service/PriceCalculatorTest.java:116-126 | Friday to Sunday in July on A costs 120000 + 136000 + 136000 |
| PriceCalculator.PeakSeasonBoundaryExamples | src/test/java/com/camping/legacy/service/PriceCalculatorTest.java:133-149 | the first weekday of June and September costs the base price; of July and August 1.5 times it |
| PointCalculator.WeekendInPeriod | src/main/java/com/camping/legacy/service/PointCalculator.java:70-79 | true exactly when some day of the inclusive range is a Saturday or Sunday |
| PointCalculator.HasWeekendInPeriod | src/main/java/com/camping/legacy/service/PointCalculator.java:70-79 | the loop with early return answers true exactly when some day of the range is a weekend day |
| PointCalculator.PointRate | src/main/java/com/camping/legacy/service/PointCalculator.java:55-65 | 10 exactly when a weekend day lies in the range; 3 exactly when none does and the start date is in peak season; 5 otherwise |
| PointCalculator.Points | src/main/java/com/camping/legacy/service/PointCalculator.java:31-34 | points are the total times the rate, truncated toward zero for either sign of the total; for a non-negative total they lie between 0 and a tenth of it |
| PointCalculator.PointsForSite | src/main/java/com/camping/legacy/service/PointCalculator.java:39-42 | the points of the range price the price engine computes; never negative |
| PointCalculator.PointsForReservation | src/main/java/com/camping/legacy/service/PointCalculator.java:47-50 | the points of the reservation's own price over its own dates; never negative |
| PointCalculator.LongStayEarnsWeekendRate | src/main/java/com/camping/legacy/service/PointCalculator.java:55-65 | a range of six days or more always earns the weekend rate |
| PointCalculator.WeekendInPeriodExamples | src/test/java/com/camping/legacy/service/PointCalculatorTest.java:137-158 | Monday to Wednesday holds no weekend; Friday to Sunday and a lone Saturday do |
| PointCalculator.PointRateOffSeasonExamples | src/test/java/com/camping/legacy/service/PointCalculatorTest.java:27-47 | March weekdays earn 5; March Friday to Sunday earns 10 |
| PointCalculator.PointRatePeakSeasonExamples | src/test/java/com/camping/legacy/service/PointCalculatorTest.java:49-70 | July weekdays earn 3; July Friday to Sunday earns 10 |
| PointCalculator.PointRateShoulderMonthExamples | src/test/java/com/camping/legacy/service/PointCalculatorTest.java:164-178 | two weekdays at the start of June or September earn 5 |
| PointCalculator.PointRatePeakMonthExamples | src/test/java/com/camping/legacy/service/PointCalculatorTest.java:164-178 | two weekdays at the start of July or August earn 3 |
| PointCalculator.PointsExamples | src/test/java/com/camping/legacy/service/PointCalculatorTest.java:76-105 | 100000 earns 5000, 10000 and 3000 under the three rates |
| PointCalculator.PointsForSiteExamples | src/test/java/com/camping/legacy/service/PointCalculatorTest.java:111-131 | one March weekday on A earns 4000; Friday to Sunday in March on A (288000) earns 28800 |
| ReservationRepository.CountOverlapping | src/main/java/com/camping/legacy/repository/ReservationRepository.java:23-27 | the count never exceeds the number of rows and is positive exactly when some row meets the WHERE clause |
| ReservationRepository.HasOverlappingReservation | src/main/java/com/camping/legacy/repository/ReservationRepository.java:23-32 | true exactly when a stored row has the campsite, starts no later than the end, ends no earlier than the start, and has the status |
| ReservationRepository.FindByDateRange | src/main/java/com/camping/legacy/repository/ReservationRepository.java:17 | exactly the rows intersecting the range inclusively, whatever their status, each at most as often as it is stored |
| ReservationRepository.FindByCampsiteAndDateRange | src/main/java/com/camping/legacy/repository/ReservationRepository.java:19 | exactly the rows of the campsite intersecting the range inclusively, each at most as often as it is stored |
| ReservationRepository.IndexOfId | src/main/java/com/camping/legacy/repository/ReservationRepository.java:15 | the position of the first row with the id, or none exactly when no row has it |
| ReservationRepository.FindById | src/main/java/com/camping/legacy/repository/ReservationRepository.java:15 | a stored row with the id, or none exactly when no row has it |
| ReservationRepository.IntersectsSymmetric | src/main/java/com/camping/legacy/repository/ReservationRepository.java:25-26 | a row meets a range exactly when the range meets the row |
| ReservationRepository.IntersectsInclusive | src/main/java/com/camping/legacy/repository/ReservationRepository.java:25-26 | a row ending on the first queried day, or starting on the last, intersects |
| ReservationRepository.NonMatchingRowIgnored | src/main/java/com/camping/legacy/repository/ReservationRepository.java:24-27 | a row of another campsite, another status (CANCELLED against CONFIRMED) or outside the range never changes the answer |
| ReservationService.CreateError.Message | src/test/java/com/camping/legacy/service/ReservationCreateUnitTest.java:56-288 | every creation error carries a non-empty message (the messages the tests expect) |
| ReservationService.CancelError.Message | src/test/java/com/camping/legacy/service/ReservationCancelUnitTest.java:59-82 | both cancellation errors carry a non-empty message |
| ReservationService.DigitCount | src/test/java/com/camping/legacy/service/ReservationCreateUnitTest.java:222-233 | the digit count never exceeds the length, and equals it exactly when every character is a digit |
| ReservationService.FindSite | src/test/java/com/camping/legacy/service/ReservationCreateUnitTest.java:69-79 | the campsite found has the number and is in the catalogue; none exactly when no campsite has that number |
| ReservationService.CheckPeriod | src/test/java/com/camping/legacy/service/ReservationCreateUnitTest.java:86-159 | passes exactly when both dates are given and today ≤ start ≤ end ≤ start + 30; each of the four errors (missing date, end before start, past start, more than 30 days) is returned exactly when it is the first check that fails |
| ReservationService.CheckCustomerName | src/test/java/com/camping/legacy/service/ReservationCreateUnitTest.java:166-215 | passes exactly when the name is given with 2 to 20 characters; missing exactly when null or empty, too short exactly for 1 character, too long exactly above 20 |
| ReservationService.CheckPhoneNumber | src/test/java/com/camping/legacy/service/ReservationCreateUnitTest.java:222-272 | passes exactly when absent or digits-and-hyphens with 10 or 11 digits; "digits only" exactly when another character occurs; "format" exactly when only digits and hyphens occur but the digit count is not 10 or 11 |
| ReservationService.Validate | src/test/java/com/camping/legacy/service/ReservationCreateUnitTest.java:56-272 | succeeds exactly when the request is admissible, carrying the request's own fields and a catalogue campsite; each failure is the first stage that rejects, the blank site number before any lookup |
| ReservationService.Cancel | src/test/java/com/camping/legacy/service/ReservationCancelUnitTest.java:89-157 | only the status changes; CANCELLED_SAME_DAY exactly when the stay starts today, CANCELLED otherwise |
| ReservationService.AppendKeepsDisjoint | src/test/java/com/camping/legacy/reservation/ReservationCreateAcceptanceTest.java:46-53 | saving a booking the overlap query let through keeps CONFIRMED bookings of a campsite pairwise disjoint |
| ReservationService.AppendFreshIdFound | src/test/java/com/camping/legacy/reservation/ReservationCancelAcceptanceTest.java:77-81 | a saved booking with a fresh id is found again by that id |
| ReservationService.ReservationStore.constructor | src/test/java/com/camping/legacy/fixture/SiteFixture.java:22-29 | a store over a catalogue, with no bookings, satisfies the invariant |
| ReservationService.ReservationStore.CreateReservation | src/test/java/com/camping/legacy/service/ReservationCreateUnitTest.java:279-303 | a validation failure changes nothing; an overlap with a CONFIRMED booking gives AlreadyReserved and changes nothing; otherwise exactly one CONFIRMED booking with the next id is appended and can be read back; the invariant holds |
| ReservationService.ReservationStore.CancelReservation | src/test/java/com/camping/legacy/service/ReservationCancelUnitTest.java:59-126 | unknown id: not found; a null, empty or different code: mismatch; both change nothing; otherwise only that booking's status changes, as `Cancel` says; the invariant holds |
| ReservationService.CancelIdempotent | src/test/java/com/camping/legacy/service/ReservationCancelUnitTest.java:115-126 | cancelling again leaves the booking as the first cancellation left it |
| ReservationService.CancelKeepsDisjoint | src/test/java/com/camping/legacy/reservation/ReservationCreateAcceptanceTest.java:55-63 | cancelling a booking keeps CONFIRMED bookings disjoint |
| ReservationService.CancelFreesPeriod | src/test/java/com/camping/legacy/reservation/ReservationCreateAcceptanceTest.java:55-63 | once a CONFIRMED booking is cancelled, no CONFIRMED booking of its campsite meets its period, so it can be rebooked |
| ReservationService.CancelNeverAddsOverlap | src/main/java/com/camping/legacy/repository/ReservationRepository.java:27 | cancelling never makes the CONFIRMED overlap query true where it was false |
| ReservationService.UnitTestSiteLookups | src/test/java/com/camping/legacy/service/ReservationCreateUnitTest.java:69-79 | A-1 is found, Z-999 is not |
| ReservationService.DigitCountConcat | src/test/java/com/camping/legacy/service/ReservationCreateUnitTest.java:260-272 | the digit count of a concatenation is the sum of the counts |
| ReservationService.HyphenDoesNotCount | src/test/java/com/camping/legacy/service/ReservationCreateUnitTest.java:260-272 | hyphenation does not change the digit count, so 010-123-4567 and 010-1234-5678 are both judged on digits |
| ReservationService.SiteNumberValidationExamples | src/test/java/com/camping/legacy/service/ReservationCreateUnitTest.java:56-79 | null, "" and "   " give the site-number message; Z-999 gives "campsite not found" |
| ReservationService.DefaultRequestIsAdmissible | src/test/java/com/camping/legacy/fixture/ReservationRequestTestBuilder.java:13-17 | the default request (A-1, 홍길동, 010-1234-5678, a week ahead) passes every check |
| ReservationService.PeriodValidationExamples | src/test/java/com/camping/legacy/service/ReservationCreateUnitTest.java:86-159 | missing start or end, reversed, past, and 31 nights are rejected with their messages; 30 nights pass |
| ReservationService.CustomerNameValidationExamples | src/test/java/com/camping/legacy/service/ReservationCreateUnitTest.java:166-215 | null and "" are missing; 1 character too short; 21 too long; 2 and 20 characters pass |
| ReservationService.PhoneNumberExampleShort | src/test/java/com/camping/legacy/service/ReservationCreateUnitTest.java:222-233 | 010-1234-56 is malformed |
| ReservationService.PhoneNumberExampleLong | src/test/java/com/camping/legacy/service/ReservationCreateUnitTest.java:222-233 | 010-1234-56789 is malformed |
| ReservationService.PhoneNumberExampleLetters | src/test/java/com/camping/legacy/service/ReservationCreateUnitTest.java:235-245 | 010-abcd-5678 gives "digits only" |
| ReservationService.PhoneNumberExampleAbsent | src/test/java/com/camping/legacy/service/ReservationCreateUnitTest.java:247-258 | no phone number passes |
| ReservationService.PhoneNumberExample10Digits | src/test/java/com/camping/legacy/service/ReservationCreateUnitTest.java:260-272 | 010-123-4567 passes |
| ReservationService.PhoneNumberExample11Digits | src/test/java/com/camping/legacy/service/ReservationCreateUnitTest.java:260-272 | 010-1234-5678 passes |
| ReservationService.CancelStatusExamples | src/test/java/com/camping/legacy/service/ReservationCancelUnitTest.java:89-157 | start in a week, tomorrow or yesterday: CANCELLED; today: CANCELLED_SAME_DAY; an already cancelled booking: CANCELLED |
| SiteService.SearchError.Message | src/test/java/com/camping/legacy/service/SiteSearchUnitTest.java:44-85 | every search error carries a non-empty message |
| SiteService.CheckSearchPeriod | src/test/java/com/camping/legacy/service/SiteSearchUnitTest.java:44-95 | passes exactly when both dates are given and today ≤ start ≤ end; missing and reversed periods are reported as such |
| SiteService.AvailableSites | src/test/java/com/camping/legacy/site/SiteSearchAcceptanceTest.java:21-63 | exactly the catalogue sites of the requested size with no CONFIRMED booking intersecting the period |
| SiteService.SearchAvailableSites | src/test/java/com/camping/legacy/service/SiteSearchUnitTest.java:44-95 | succeeds exactly when the period is valid, with exactly the available sites; otherwise fails with the period check's error |
| SiteService.EmptyStoreHasAllSites | src/test/java/com/camping/legacy/site/SiteSearchAcceptanceTest.java:21-27 | with no bookings and no size filter every site is listed, in catalogue order |
| SiteService.ListedIffBookable | src/test/java/com/camping/legacy/site/SiteSearchAcceptanceTest.java:29-37 | search and admission agree: a site is listed exactly when the overlap query would let a booking of the period through |
| SiteService.SearchPeriodExamples | src/test/java/com/camping/legacy/service/SiteSearchUnitTest.java:44-95 | missing dates, a reversed and a past period give their errors; a same-day search on an empty catalogue succeeds |
| Scenarios.DefaultSiteLookup | src/test/java/com/camping/legacy/fixture/SiteFixture.java:22-29 | A-1 is found among the six default sites |
| Scenarios.ValidateByPeriod | src/test/java/com/camping/legacy/service/ReservationCreateUnitTest.java:82-160 | once site, name and phone pass, the period check alone decides the outcome |
| Scenarios.FirstRequestValidation | src/test/java/com/camping/legacy/reservation/ReservationCreateAcceptanceTest.java:20-22 | the first customer's request against the default sites is decided by its period alone |
| Scenarios.SecondRequestValidation | src/test/java/com/camping/legacy/reservation/ReservationCreateAcceptanceTest.java:91-101 | the same for the second customer (김철수, 010-9999-8888) |
| Scenarios.ScenarioRequestValidation | src/test/java/com/camping/legacy/reservation/ReservationCreateAcceptanceTest.java:91-101 | both customers' requests for one period are decided by the period check alone |
| Scenarios.CreateValidReservation | src/test/java/com/camping/legacy/reservation/ReservationCreateAcceptanceTest.java:24-30 | a booking a week ahead on A-1 is CONFIRMED with a six-character code |
| Scenarios.RejectInvalidPeriods | src/test/java/com/camping/legacy/reservation/ReservationCreateAcceptanceTest.java:32-44 | a past start, a reversed period and 31 nights (today + 1 to today + 32) are rejected with their errors |
| Scenarios.RejectOverlappingBooking | src/test/java/com/camping/legacy/reservation/ReservationCreateAcceptanceTest.java:46-53 | a second booking overlapping a CONFIRMED one on the same site is rejected as already reserved |
| Scenarios.RebookAfterCancellation | src/test/java/com/camping/legacy/reservation/ReservationCreateAcceptanceTest.java:55-63 | after cancellation another customer books the same days on the same site |
| Scenarios.CancelAndReadBack | src/test/java/com/camping/legacy/reservation/ReservationCancelAcceptanceTest.java:24-31 | a booking cancelled with its code reads back as CANCELLED |
| Scenarios.CancelWithWrongCode | src/test/java/com/camping/legacy/reservation/ReservationCancelAcceptanceTest.java:33-40 | WRONG1 is refused with a non-empty message and the booking stays CONFIRMED |
| Scenarios.CancelSameDayAndReadBack | src/test/java/com/camping/legacy/reservation/ReservationCancelAcceptanceTest.java:42-49 | a booking starting today is admitted; cancelled, it reads back as CANCELLED_SAME_DAY |
| Scenarios.SearchEmptyStore | src/test/java/com/camping/legacy/site/SiteSearchAcceptanceTest.java:21-27 | with no bookings all six default sites are listed |
| Scenarios.SearchAroundOneBooking | src/test/java/com/camping/legacy/site/SiteSearchAcceptanceTest.java:29-37 | a CONFIRMED booking of A-1 inside the searched days hides A-1 and no other site |
| Scenarios.SearchOverCancelledBooking | src/test/java/com/camping/legacy/site/SiteSearchAcceptanceTest.java:54-63 | a cancelled booking does not hide its site |
| Scenarios.SearchExcludesBookedSite | src/test/java/com/camping/legacy/site/SiteSearchAcceptanceTest.java:29-37 | after booking A-1 for days 8 to 10, a search of days 6 to 11 omits A-1 and lists the rest |
| Scenarios.SearchLargeSites | src/test/java/com/camping/legacy/site/SiteSearchAcceptanceTest.java:39-45 | the "large" filter lists only sites starting with A, and all three of them |
| Scenarios.SearchFromThePast | src/test/java/com/camping/legacy/site/SiteSearchAcceptanceTest.java:47-52 | a search starting yesterday fails |
| Scenarios.SearchAfterCancellation | src/test/java/com/camping/legacy/site/SiteSearchAcceptanceTest.java:54-63 | a site whose only booking was cancelled is listed for the same days |
| Scenarios.CreateTwo | src/test/java/com/camping/legacy/reservation/ReservationConcurrencyTest.java:93-97 | of two requests on one store, never both end up CONFIRMED on one site with intersecting periods |

## Left out

- HTTP: RestAssured steps, status codes and JSON bodies are not modelled. A response is reduced to the kind of result: success, or the error with its message.
- Persistence: JPA and database cleanup are not modelled. Id generation is the store's own counter starting at 1.
- Test-data builders: these are used only for their default values.
- `findByCampsiteIdAndStartDateLessThanEqualAndEndDateGreaterThanEqual` (ReservationRepository.java:21) is not modelled. It returns an `Optional` and throws when more than one row matches, and nothing in this core calls it.
- `findByCustomerName` and `findByCustomerNameAndPhoneNumber` (ReservationRepository.java:34-36): plain equality finders with no behaviour to prove.
- Floating point: the `double` multipliers are exact percentages. IEEE-754 rounding before the `(int)` cast is not modelled; it does not change any value the tests use.
- PriceCalculator.RangePrice: Java's 32-bit `int` overflow of the running total is not modelled. Totals are unbounded integers.
- PriceCalculator.BasePrice: the NullPointerException for a null site number is not modelled. Site numbers are always strings.
- ReservationService.CheckCustomerName: lengths count Dafny characters, while Java's `String.length()` counts UTF-16 code units. The two agree for the Hangul names the tests use.
- ReservationService.ReservationStore.CancelReservation: the source mutates the `Reservation` object it found, so every holder of that object sees the new status. The model replaces the row in the table's sequence, so object aliasing is not modelled.
- Concurrency: threads are not modelled. The per-site lock is modelled as the atomicity of `CreateReservation`, and the race becomes `Scenarios.CreateTwo`, one call after the other.
- The clock and the random confirmation code are parameters. The code is only required to have length 6.
- The phone rule, the size filter for values other than "large", and the order of the date, name and phone checks are not visible in the sources. They are the choices stated above, and they fit every test.
