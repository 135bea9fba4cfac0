/**
 * Availability search (SiteService.searchAvailableSites, as its tests pin it down): validate
 * the search period, then keep the campsites of the requested size class that have no
 * CONFIRMED reservation intersecting the period.
 */
module SiteService {
  import opened Wrappers
  import opened Domain
  import opened ReservationRepository

  /** A search request as it arrives; every field may be null. */
  datatype SiteSearchRequest = SiteSearchRequest(startDate: Option<int>, endDate: Option<int>, size: Option<string>)

  /** The reasons searchAvailableSites throws. */
  datatype SearchError = SearchPeriodMissing | SearchEndBeforeStart | SearchPastDate
  {
    function Message(): (m: string)
      ensures |m| > 0
    {
      match this
      case SearchPeriodMissing => "검색 기간을 선택해주세요."
      case SearchEndBeforeStart => "종료일이 시작일보다 이전일 수 없습니다."
      case SearchPastDate => "과거 날짜는 검색할 수 없습니다."
    }
  }

  /** The search period checks, in order: both dates given, end not before start, start not past. */
  function CheckSearchPeriod(startDate: Option<int>, endDate: Option<int>, today: int): (error: Option<SearchError>)
    ensures error.None? <==> startDate.Some? && endDate.Some? && today <= startDate.value <= endDate.value
    ensures error == Some(SearchPeriodMissing) <==> startDate.None? || endDate.None?
    ensures error == Some(SearchEndBeforeStart) <==> startDate.Some? && endDate.Some? && endDate.value < startDate.value
  {
    if startDate.None? || endDate.None? then Some(SearchPeriodMissing)
    else if endDate.value < startDate.value then Some(SearchEndBeforeStart)
    else if startDate.value < today then Some(SearchPastDate)
    else None
  }

  /** The size filter: "large" keeps the A sites, "small" the B sites, anything else keeps all. */
  predicate MatchesSize(size: Option<string>, site: Campsite)
  {
    if size == Some("large") then "A" <= site.siteNumber
    else if size == Some("small") then "B" <= site.siteNumber
    else true
  }

  /**
   * The campsites, in catalogue order, of the requested size that a booking of
   * [startDate, endDate] would not collide with.
   */
  function AvailableSites(sites: seq<Campsite>, rows: seq<Reservation>, startDate: int, endDate: int,
                          size: Option<string>): (available: seq<Campsite>)
    ensures |available| <= |sites|
    ensures forall c :: c in available <==>
      c in sites && MatchesSize(size, c) && !HasOverlappingReservation(rows, c, startDate, endDate, Confirmed)
    decreases |sites|
  {
    if sites == [] then []
    else
      var rest := AvailableSites(sites[..|sites| - 1], rows, startDate, endDate, size);
      var last := sites[|sites| - 1];
      assert forall c :: c in sites <==> c in sites[..|sites| - 1] || c == last;
      if MatchesSize(size, last) && !HasOverlappingReservation(rows, last, startDate, endDate, Confirmed)
      then rest + [last]
      else rest
  }

  /** searchAvailableSites: a period error, or the available campsites. */
  function SearchAvailableSites(request: SiteSearchRequest, sites: seq<Campsite>, rows: seq<Reservation>,
                                today: int): (result: Result<seq<Campsite>, SearchError>)
    ensures result.Success? <==>
      request.startDate.Some? && request.endDate.Some? && today <= request.startDate.value <= request.endDate.value
    ensures result.Failure? ==> Some(result.error) == CheckSearchPeriod(request.startDate, request.endDate, today)
    ensures result.Success? ==> forall c :: c in result.value <==>
      && c in sites
      && MatchesSize(request.size, c)
      && !HasOverlappingReservation(rows, c, request.startDate.value, request.endDate.value, Confirmed)
  {
    match CheckSearchPeriod(request.startDate, request.endDate, today)
    case Some(error) => Failure(error)
    case None => Success(AvailableSites(sites, rows, request.startDate.value, request.endDate.value, request.size))
  }

  /** With no reservations and no size filter, every campsite is available, in catalogue order. */
  lemma {:induction false} EmptyStoreHasAllSites(sites: seq<Campsite>, startDate: int, endDate: int)
    ensures AvailableSites(sites, [], startDate, endDate, None) == sites
    decreases |sites|
  {
    if sites != [] {
      EmptyStoreHasAllSites(sites[..|sites| - 1], startDate, endDate);
      assert sites[..|sites| - 1] + [sites[|sites| - 1]] == sites;
    }
  }

  /** Search and admission agree: a campsite is listed exactly when the overlap query would let a booking through. */
  lemma ListedIffBookable(sites: seq<Campsite>, rows: seq<Reservation>, c: Campsite, startDate: int, endDate: int)
    requires c in sites
    ensures c in AvailableSites(sites, rows, startDate, endDate, None) <==>
      !HasOverlappingReservation(rows, c, startDate, endDate, Confirmed)
  {
  }

  /** Search period checks of the unit tests; a same-day search is valid. */
  lemma SearchPeriodExamples(today: int)
    ensures CheckSearchPeriod(None, Some(today + 5), today) == Some(SearchPeriodMissing)
    ensures CheckSearchPeriod(Some(today + 5), None, today) == Some(SearchPeriodMissing)
    ensures CheckSearchPeriod(None, None, today) == Some(SearchPeriodMissing)
    ensures CheckSearchPeriod(Some(today + 10), Some(today + 5), today) == Some(SearchEndBeforeStart)
    ensures CheckSearchPeriod(Some(today - 1), Some(today + 5), today) == Some(SearchPastDate)
    ensures SearchAvailableSites(SiteSearchRequest(Some(today + 5), Some(today + 5), None), [], [], today) == Success([])
  {
  }
}
