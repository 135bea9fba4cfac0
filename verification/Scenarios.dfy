/**
 * The acceptance scenarios: sequences of create, cancel, read-back and search calls against one
 * store holding the six default campsites, and the two-request race as a sequential property.
 */
module Scenarios {
  import opened Wrappers
  import opened Domain
  import opened ReservationRepository
  import opened ReservationService
  import opened SiteService

  /** Three large sites (6 people) and three small ones (4 people). */
  function DefaultSites(): seq<Campsite>
  {
    [Campsite("A-1", 6), Campsite("A-2", 6), Campsite("A-3", 6),
     Campsite("B-1", 4), Campsite("B-2", 4), Campsite("B-3", 4)]
  }

  /** The first customer of the scenarios, booking site A-1. */
  function FirstCustomerRequest(startDate: int, endDate: int): ReservationRequest
  {
    ReservationRequest(Some("A-1"), Some("홍길동"), Some("010-1234-5678"), Some(startDate), Some(endDate))
  }

  /** The second customer of the scenarios, booking site A-1. */
  function SecondCustomerRequest(startDate: int, endDate: int): ReservationRequest
  {
    ReservationRequest(Some("A-1"), Some("김철수"), Some("010-9999-8888"), Some(startDate), Some(endDate))
  }

  lemma SecondCustomerPhoneDigits()
    ensures DigitCount("010-9999-8888") == 11
  {
  }

  lemma SecondCustomerPhoneChars()
    ensures OnlyDigitsAndHyphens("010-9999-8888")
  {
  }

  /** Site A-1 is found in the default catalogue, and its number is not blank. */
  lemma DefaultSiteLookup()
    ensures FindSite(DefaultSites(), "A-1") == Some(Campsite("A-1", 6))
    ensures !IsBlank("A-1")
  {
    assert "A-1"[0] == 'A';
  }

  /** Once the site, name and phone checks pass, the period check alone decides a request. */
  lemma ValidateByPeriod(request: ReservationRequest, sites: seq<Campsite>, today: int, campsite: Campsite)
    requires request.siteNumber.Some? && !IsBlank(request.siteNumber.value)
    requires FindSite(sites, request.siteNumber.value) == Some(campsite)
    requires CheckCustomerName(request.customerName) == None
    requires CheckPhoneNumber(request.phoneNumber) == None
    ensures Validate(request, sites, today) ==
      match CheckPeriod(request.startDate, request.endDate, today)
      case Some(e) => Failure(e)
      case None => Success(ValidatedRequest(campsite, request.customerName.value, request.phoneNumber,
                                            request.startDate.value, request.endDate.value))
  {
  }

  lemma FirstCustomerChecks()
    ensures CheckCustomerName(Some("홍길동")) == None
    ensures CheckPhoneNumber(Some("010-1234-5678")) == None
  {
    PhoneNumberExample11Digits();
  }

  lemma SecondCustomerChecks()
    ensures CheckCustomerName(Some("김철수")) == None
    ensures CheckPhoneNumber(Some("010-9999-8888")) == None
  {
    SecondCustomerPhoneDigits();
    SecondCustomerPhoneChars();
  }

  /** The first customer's request gets past the site, name and phone checks; the period decides. */
  lemma FirstRequestValidation(today: int, startDate: int, endDate: int)
    ensures Validate(FirstCustomerRequest(startDate, endDate), DefaultSites(), today) ==
      match CheckPeriod(Some(startDate), Some(endDate), today)
      case Some(e) => Failure(e)
      case None => Success(ValidatedRequest(Campsite("A-1", 6), "홍길동", Some("010-1234-5678"), startDate, endDate))
  {
    DefaultSiteLookup();
    FirstCustomerChecks();
    ValidateByPeriod(FirstCustomerRequest(startDate, endDate), DefaultSites(), today, Campsite("A-1", 6));
  }

  /** The same for the second customer. */
  lemma SecondRequestValidation(today: int, startDate: int, endDate: int)
    ensures Validate(SecondCustomerRequest(startDate, endDate), DefaultSites(), today) ==
      match CheckPeriod(Some(startDate), Some(endDate), today)
      case Some(e) => Failure(e)
      case None => Success(ValidatedRequest(Campsite("A-1", 6), "김철수", Some("010-9999-8888"), startDate, endDate))
  {
    DefaultSiteLookup();
    SecondCustomerChecks();
    ValidateByPeriod(SecondCustomerRequest(startDate, endDate), DefaultSites(), today, Campsite("A-1", 6));
  }

  /** Both requests, for one period. */
  lemma ScenarioRequestValidation(today: int, startDate: int, endDate: int)
    ensures Validate(FirstCustomerRequest(startDate, endDate), DefaultSites(), today) ==
      match CheckPeriod(Some(startDate), Some(endDate), today)
      case Some(e) => Failure(e)
      case None => Success(ValidatedRequest(Campsite("A-1", 6), "홍길동", Some("010-1234-5678"), startDate, endDate))
    ensures Validate(SecondCustomerRequest(startDate, endDate), DefaultSites(), today) ==
      match CheckPeriod(Some(startDate), Some(endDate), today)
      case Some(e) => Failure(e)
      case None => Success(ValidatedRequest(Campsite("A-1", 6), "김철수", Some("010-9999-8888"), startDate, endDate))
  {
    FirstRequestValidation(today, startDate, endDate);
    SecondRequestValidation(today, startDate, endDate);
  }

  /** A valid booking a week ahead is CONFIRMED and carries a six-character code. */
  method CreateValidReservation(today: int, code: string) returns (result: Result<Reservation, CreateError>)
    requires |code| == ConfirmationCodeLength
    ensures result.Success?
    ensures result.value.status == Confirmed && |result.value.confirmationCode| == 6
    ensures result.value.campsite == Campsite("A-1", 6)
    ensures result.value.startDate == today + 7 && result.value.endDate == today + 9
  {
    var store := new ReservationStore(DefaultSites());
    ScenarioRequestValidation(today, today + 7, today + 9);
    result := store.CreateReservation(FirstCustomerRequest(today + 7, today + 9), today, code);
  }

  /** A past start, a reversed period and a 32-day stay are all rejected. */
  method RejectInvalidPeriods(today: int, code: string)
    returns (past: Result<Reservation, CreateError>, reversed: Result<Reservation, CreateError>,
             tooLong: Result<Reservation, CreateError>)
    requires |code| == ConfirmationCodeLength
    ensures past == Failure(PastStartDate)
    ensures reversed == Failure(EndBeforeStart)
    ensures tooLong == Failure(PeriodTooLong)
  {
    var store := new ReservationStore(DefaultSites());
    ScenarioRequestValidation(today, today - 1, today + 1);
    past := store.CreateReservation(FirstCustomerRequest(today - 1, today + 1), today, code);
    ScenarioRequestValidation(today, today + 10, today + 5);
    reversed := store.CreateReservation(FirstCustomerRequest(today + 10, today + 5), today, code);
    ScenarioRequestValidation(today, today + 1, today + 32);
    tooLong := store.CreateReservation(FirstCustomerRequest(today + 1, today + 32), today, code);
  }

  /** A second booking of A-1 for days 8 to 10, while days 7 to 9 are confirmed there, is rejected. */
  method RejectOverlappingBooking(today: int, firstCode: string, secondCode: string)
    returns (first: Result<Reservation, CreateError>, second: Result<Reservation, CreateError>)
    requires |firstCode| == ConfirmationCodeLength && |secondCode| == ConfirmationCodeLength
    ensures first.Success?
    ensures second == Failure(AlreadyReserved)
  {
    var store := new ReservationStore(DefaultSites());
    ScenarioRequestValidation(today, today + 7, today + 9);
    first := store.CreateReservation(FirstCustomerRequest(today + 7, today + 9), today, firstCode);
    assert CheckPeriod(Some(today + 8), Some(today + 10), today) == None;
    assert store.reservations == [first.value];
    assert OverlapMatch(first.value, Campsite("A-1", 6), today + 8, today + 10, Confirmed);
    assert HasOverlappingReservation(store.reservations, Campsite("A-1", 6), today + 8, today + 10, Confirmed);
    ScenarioRequestValidation(today, today + 8, today + 10);
    second := store.CreateReservation(SecondCustomerRequest(today + 8, today + 10), today, secondCode);
  }

  /** After the first booking is cancelled, another customer books the same days on the same site. */
  method RebookAfterCancellation(today: int, firstCode: string, secondCode: string)
    returns (first: Result<Reservation, CreateError>, cancelled: Result<Reservation, CancelError>,
             second: Result<Reservation, CreateError>)
    requires |firstCode| == ConfirmationCodeLength && |secondCode| == ConfirmationCodeLength
    ensures first.Success? && cancelled.Success? && second.Success?
    ensures cancelled.value.status == Cancelled
    ensures second.value.customerName == "김철수" && second.value.status == Confirmed
    ensures second.value.startDate == first.value.startDate && second.value.endDate == first.value.endDate
  {
    var store := new ReservationStore(DefaultSites());
    ScenarioRequestValidation(today, today + 7, today + 9);
    first := store.CreateReservation(FirstCustomerRequest(today + 7, today + 9), today, firstCode);
    cancelled := store.CancelReservation(first.value.id, Some(first.value.confirmationCode), today);
    second := store.CreateReservation(SecondCustomerRequest(today + 7, today + 9), today, secondCode);
  }

  /** Cancelling with the issued code and reading the booking back by id: CANCELLED. */
  method CancelAndReadBack(today: int, code: string) returns (readBack: Option<Reservation>)
    requires |code| == ConfirmationCodeLength
    ensures readBack.Some? && readBack.value.status == Cancelled
  {
    var store := new ReservationStore(DefaultSites());
    ScenarioRequestValidation(today, today + 7, today + 9);
    var created := store.CreateReservation(FirstCustomerRequest(today + 7, today + 9), today, code);
    var cancelled := store.CancelReservation(created.value.id, Some(code), today);
    readBack := FindById(store.reservations, created.value.id);
  }

  /** A wrong code is refused with a non-empty message, and the booking stays CONFIRMED. */
  method CancelWithWrongCode(today: int, code: string)
    returns (result: Result<Reservation, CancelError>, readBack: Option<Reservation>)
    requires |code| == ConfirmationCodeLength && code != "WRONG1"
    ensures result == Failure(ConfirmationCodeMismatch) && |result.error.Message()| > 0
    ensures readBack.Some? && readBack.value.status == Confirmed
  {
    var store := new ReservationStore(DefaultSites());
    ScenarioRequestValidation(today, today + 7, today + 9);
    var created := store.CreateReservation(FirstCustomerRequest(today + 7, today + 9), today, code);
    result := store.CancelReservation(created.value.id, Some("WRONG1"), today);
    readBack := FindById(store.reservations, created.value.id);
  }

  /** A booking starting today is admitted; cancelling it and reading it back: CANCELLED_SAME_DAY. */
  method CancelSameDayAndReadBack(today: int, code: string) returns (readBack: Option<Reservation>)
    requires |code| == ConfirmationCodeLength
    ensures readBack.Some? && readBack.value.status == CancelledSameDay
  {
    var store := new ReservationStore(DefaultSites());
    ScenarioRequestValidation(today, today, today + 2);
    var created := store.CreateReservation(FirstCustomerRequest(today, today + 2), today, code);
    var cancelled := store.CancelReservation(created.value.id, Some(code), today);
    readBack := FindById(store.reservations, created.value.id);
  }

  /** With no bookings, a search a week ahead lists all six sites. */
  method SearchEmptyStore(today: int) returns (result: Result<seq<Campsite>, SearchError>)
    ensures result == Success(DefaultSites())
    ensures |result.value| == 6
  {
    var store := new ReservationStore(DefaultSites());
    result := SearchAvailableSites(SiteSearchRequest(Some(today + 7), Some(today + 10), None),
                                   store.sites, store.reservations, today);
    EmptyStoreHasAllSites(DefaultSites(), today + 7, today + 10);
  }

  /** With one CONFIRMED booking of A-1 inside the searched days, every other default site is listed. */
  lemma SearchAroundOneBooking(today: int, r: Reservation)
    requires r.campsite == Campsite("A-1", 6) && r.status == Confirmed
    requires r.startDate == today + 8 && r.endDate == today + 10
    ensures var result := SearchAvailableSites(SiteSearchRequest(Some(today + 6), Some(today + 11), None), DefaultSites(), [r], today);
      && result.Success?
      && Campsite("A-1", 6) !in result.value
      && forall c :: c in DefaultSites() && c != Campsite("A-1", 6) ==> c in result.value
  {
    assert OverlapMatch(r, Campsite("A-1", 6), today + 6, today + 11, Confirmed);
    assert HasOverlappingReservation([r], Campsite("A-1", 6), today + 6, today + 11, Confirmed);
  }

  /** A CANCELLED booking does not hide its site from a search of its own days. */
  lemma SearchOverCancelledBooking(today: int, r: Reservation)
    requires r.status != Confirmed
    ensures var result := SearchAvailableSites(SiteSearchRequest(Some(today + 7), Some(today + 9), None), DefaultSites(), [r], today);
      result.Success? && Campsite("A-1", 6) in result.value
  {
    assert !HasOverlappingReservation([r], Campsite("A-1", 6), today + 7, today + 9, Confirmed);
  }

  /** A site booked for days 8 to 10 is missing from a search of days 6 to 11; the others remain. */
  method SearchExcludesBookedSite(today: int, code: string) returns (result: Result<seq<Campsite>, SearchError>)
    requires |code| == ConfirmationCodeLength
    ensures result.Success?
    ensures Campsite("A-1", 6) !in result.value
    ensures forall c :: c in DefaultSites() && c != Campsite("A-1", 6) ==> c in result.value
  {
    var store := new ReservationStore(DefaultSites());
    ScenarioRequestValidation(today, today + 8, today + 10);
    var created := store.CreateReservation(FirstCustomerRequest(today + 8, today + 10), today, code);
    SearchAroundOneBooking(today, created.value);
    result := SearchAvailableSites(SiteSearchRequest(Some(today + 6), Some(today + 11), None),
                                   store.sites, store.reservations, today);
  }

  /** The "large" filter lists exactly the A sites. */
  method SearchLargeSites(today: int) returns (result: Result<seq<Campsite>, SearchError>)
    ensures result.Success?
    ensures forall c :: c in result.value ==> "A" <= c.siteNumber
    ensures Campsite("A-1", 6) in result.value && Campsite("A-2", 6) in result.value && Campsite("A-3", 6) in result.value
  {
    var store := new ReservationStore(DefaultSites());
    result := SearchAvailableSites(SiteSearchRequest(Some(today + 7), Some(today + 10), Some("large")),
                                   store.sites, store.reservations, today);
  }

  /** A search starting yesterday fails. */
  method SearchFromThePast(today: int) returns (result: Result<seq<Campsite>, SearchError>)
    ensures result == Failure(SearchPastDate)
  {
    var store := new ReservationStore(DefaultSites());
    result := SearchAvailableSites(SiteSearchRequest(Some(today - 1), Some(today + 5), None),
                                   store.sites, store.reservations, today);
  }

  /** A site whose only booking was cancelled is listed again for the same days. */
  method SearchAfterCancellation(today: int, code: string) returns (result: Result<seq<Campsite>, SearchError>)
    requires |code| == ConfirmationCodeLength
    ensures result.Success? && Campsite("A-1", 6) in result.value
  {
    var store := new ReservationStore(DefaultSites());
    ScenarioRequestValidation(today, today + 7, today + 9);
    var created := store.CreateReservation(FirstCustomerRequest(today + 7, today + 9), today, code);
    var cancelled := store.CancelReservation(created.value.id, Some(code), today);
    SearchOverCancelledBooking(today, cancelled.value);
    result := SearchAvailableSites(SiteSearchRequest(Some(today + 7), Some(today + 9), None),
                                   store.sites, store.reservations, today);
  }

  /**
   * Two requests for the same store, one after the other (the per-site lock serialises them):
   * they never both end up CONFIRMED on one site with intersecting periods.
   */
  method CreateTwo(store: ReservationStore, firstRequest: ReservationRequest, secondRequest: ReservationRequest,
                   today: int, firstCode: string, secondCode: string)
    returns (first: Result<Reservation, CreateError>, second: Result<Reservation, CreateError>)
    requires store.Valid()
    requires |firstCode| == ConfirmationCodeLength && |secondCode| == ConfirmationCodeLength
    modifies store
    ensures store.Valid()
    ensures first.Success? && second.Success? && first.value.campsite == second.value.campsite ==>
      !Intersects(first.value, second.value.startDate, second.value.endDate)
  {
    first := store.CreateReservation(firstRequest, today, firstCode);
    ghost var afterFirst := store.reservations;
    second := store.CreateReservation(secondRequest, today, secondCode);
    if first.Success? && second.Success? && first.value.campsite == second.value.campsite {
      assert first.value == afterFirst[|afterFirst| - 1];
      assert first.value in afterFirst;
    }
  }
}
