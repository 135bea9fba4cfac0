/**
 * Reservation admission and cancellation (ReservationService, as its unit and acceptance tests
 * pin it down): a fail-fast validation chain, the overlap query against CONFIRMED rows, and a
 * store whose CONFIRMED rows never overlap on one campsite.
 */
module ReservationService {
  import opened Wrappers
  import opened Domain
  import opened ReservationRepository

  const MaxReservationDays := 30
  const MinNameLength := 2
  const MaxNameLength := 20
  const ConfirmationCodeLength := 6

  /** A booking request as it arrives; every field may be null. */
  datatype ReservationRequest = ReservationRequest(
    siteNumber: Option<string>,
    customerName: Option<string>,
    phoneNumber: Option<string>,
    startDate: Option<int>,
    endDate: Option<int>)

  /** A request that passed every check, with its campsite looked up. */
  datatype ValidatedRequest = ValidatedRequest(
    campsite: Campsite,
    customerName: string,
    phoneNumber: Option<string>,
    startDate: int,
    endDate: int)

  /** The reasons createReservation throws, one per message. */
  datatype CreateError =
    | SiteNumberMissing
    | CampsiteNotFound
    | PeriodMissing
    | EndBeforeStart
    | PastStartDate
    | PeriodTooLong
    | CustomerNameMissing
    | CustomerNameTooShort
    | CustomerNameTooLong
    | PhoneNumberNotDigits
    | PhoneNumberMalformed
    | AlreadyReserved
  {
    function Message(): (m: string)
      ensures |m| > 0
    {
      match this
      case SiteNumberMissing => "사이트 번호를 입력해주세요."
      case CampsiteNotFound => "존재하지 않는 캠핑장입니다."
      case PeriodMissing => "예약 기간을 선택해주세요."
      case EndBeforeStart => "종료일이 시작일보다 이전일 수 없습니다."
      case PastStartDate => "과거 날짜로 예약할 수 없습니다."
      case PeriodTooLong => "예약 기간은 최대 30일입니다."
      case CustomerNameMissing => "예약자 이름을 입력해주세요."
      case CustomerNameTooShort => "예약자 이름은 최소 2자 이상이어야 합니다."
      case CustomerNameTooLong => "예약자 이름은 최대 20자까지 가능합니다."
      case PhoneNumberNotDigits => "전화번호는 숫자만 입력 가능합니다."
      case PhoneNumberMalformed => "전화번호 형식이 올바르지 않습니다."
      case AlreadyReserved => "해당 기간에 이미 예약이 존재합니다."
    }
  }

  /** The reasons cancelReservation throws. */
  datatype CancelError = ReservationNotFound | ConfirmationCodeMismatch
  {
    function Message(): (m: string)
      ensures |m| > 0
    {
      match this
      case ReservationNotFound => "예약을 찾을 수 없습니다."
      case ConfirmationCodeMismatch => "확인 코드가 일치하지 않습니다."
    }
  }

  /** Empty after trimming: every character is a space or a control character. */
  predicate IsBlank(s: string)
  {
    forall i :: 0 <= i < |s| ==> s[i] <= ' '
  }

  predicate IsDigit(c: char)
  {
    '0' <= c <= '9'
  }

  /** A phone number may hold digits and hyphens only. */
  predicate OnlyDigitsAndHyphens(s: string)
  {
    forall i :: 0 <= i < |s| ==> IsDigit(s[i]) || s[i] == '-'
  }

  function DigitCount(s: string): (n: nat)
    ensures n <= |s|
    ensures n == |s| <==> forall i :: 0 <= i < |s| ==> IsDigit(s[i])
    decreases |s|
  {
    if s == [] then 0
    else
      assert forall i :: 1 <= i < |s| ==> s[i] == s[1..][i - 1];
      (if IsDigit(s[0]) then 1 else 0) + DigitCount(s[1..])
  }

  /** A well-formed phone number: digits and hyphens, with 10 or 11 digits however hyphenated. */
  predicate ValidPhoneNumber(s: string)
  {
    OnlyDigitsAndHyphens(s) && 10 <= DigitCount(s) <= 11
  }

  /** findBySiteNumberWithLock: the campsite with the given site number, if there is one. */
  function FindSite(sites: seq<Campsite>, siteNumber: string): (found: Option<Campsite>)
    ensures found.Some? ==> found.value in sites && found.value.siteNumber == siteNumber
    ensures found.None? <==> forall c :: c in sites ==> c.siteNumber != siteNumber
    decreases |sites|
  {
    if sites == [] then None
    else if sites[0].siteNumber == siteNumber then Some(sites[0])
    else
      assert forall c :: c in sites ==> c == sites[0] || c in sites[1..];
      FindSite(sites[1..], siteNumber)
  }

  /** The period checks, in order: both dates given, end not before start, start not past, at most 30 days. */
  function CheckPeriod(startDate: Option<int>, endDate: Option<int>, today: int): (error: Option<CreateError>)
    ensures error.None? <==>
      startDate.Some? && endDate.Some? && today <= startDate.value <= endDate.value <= startDate.value + MaxReservationDays
    ensures error == Some(PeriodMissing) <==> startDate.None? || endDate.None?
    ensures error == Some(EndBeforeStart) <==> startDate.Some? && endDate.Some? && endDate.value < startDate.value
    ensures error == Some(PastStartDate) <==>
      startDate.Some? && endDate.Some? && startDate.value <= endDate.value && startDate.value < today
    ensures error == Some(PeriodTooLong) <==>
      startDate.Some? && endDate.Some? && today <= startDate.value <= endDate.value
      && endDate.value - startDate.value > MaxReservationDays
  {
    if startDate.None? || endDate.None? then Some(PeriodMissing)
    else if endDate.value < startDate.value then Some(EndBeforeStart)
    else if startDate.value < today then Some(PastStartDate)
    else if endDate.value - startDate.value > MaxReservationDays then Some(PeriodTooLong)
    else None
  }

  /** The customer name checks: present and non-empty, then 2 to 20 characters. */
  function CheckCustomerName(customerName: Option<string>): (error: Option<CreateError>)
    ensures error.None? <==> customerName.Some? && MinNameLength <= |customerName.value| <= MaxNameLength
    ensures error == Some(CustomerNameMissing) <==> customerName.None? || customerName.value == ""
    ensures error == Some(CustomerNameTooShort) <==> customerName.Some? && 0 < |customerName.value| < MinNameLength
    ensures error == Some(CustomerNameTooLong) <==> customerName.Some? && |customerName.value| > MaxNameLength
  {
    if customerName.None? || customerName.value == "" then Some(CustomerNameMissing)
    else if |customerName.value| < MinNameLength then Some(CustomerNameTooShort)
    else if |customerName.value| > MaxNameLength then Some(CustomerNameTooLong)
    else None
  }

  /** The phone number checks: optional; when given, characters first, then the digit count. */
  function CheckPhoneNumber(phoneNumber: Option<string>): (error: Option<CreateError>)
    ensures error.None? <==> phoneNumber.None? || ValidPhoneNumber(phoneNumber.value)
    ensures error == Some(PhoneNumberNotDigits) <==> phoneNumber.Some? && !OnlyDigitsAndHyphens(phoneNumber.value)
    ensures error == Some(PhoneNumberMalformed) <==>
      phoneNumber.Some? && OnlyDigitsAndHyphens(phoneNumber.value) && !(10 <= DigitCount(phoneNumber.value) <= 11)
  {
    if phoneNumber.None? then None
    else if !OnlyDigitsAndHyphens(phoneNumber.value) then Some(PhoneNumberNotDigits)
    else if !(10 <= DigitCount(phoneNumber.value) <= 11) then Some(PhoneNumberMalformed)
    else None
  }

  /** The declarative reading of the checks: what a request must satisfy to reach the overlap query. */
  predicate Admissible(request: ReservationRequest, sites: seq<Campsite>, today: int)
  {
    && request.siteNumber.Some? && !IsBlank(request.siteNumber.value)
    && (exists c :: c in sites && c.siteNumber == request.siteNumber.value)
    && request.startDate.Some? && request.endDate.Some?
    && today <= request.startDate.value <= request.endDate.value <= request.startDate.value + MaxReservationDays
    && request.customerName.Some? && MinNameLength <= |request.customerName.value| <= MaxNameLength
    && (request.phoneNumber.Some? ==> ValidPhoneNumber(request.phoneNumber.value))
  }

  /**
   * The validation chain of createReservation, first failure wins: site number, campsite
   * lookup, period, customer name, phone number.
   */
  function Validate(request: ReservationRequest, sites: seq<Campsite>, today: int): (result: Result<ValidatedRequest, CreateError>)
    ensures result.Success? <==> Admissible(request, sites, today)
    ensures result.Success? ==>
      && result.value.campsite in sites
      && Some(result.value.campsite.siteNumber) == request.siteNumber
      && Some(result.value.customerName) == request.customerName
      && result.value.phoneNumber == request.phoneNumber
      && Some(result.value.startDate) == request.startDate
      && Some(result.value.endDate) == request.endDate
    // Fail-fast: each failure is the first stage that rejects the request.
    ensures result == Failure(SiteNumberMissing) <==> request.siteNumber.None? || IsBlank(request.siteNumber.value)
    ensures result == Failure(CampsiteNotFound) <==>
      request.siteNumber.Some? && !IsBlank(request.siteNumber.value) && FindSite(sites, request.siteNumber.value).None?
    ensures request.siteNumber.Some? && !IsBlank(request.siteNumber.value) && FindSite(sites, request.siteNumber.value).Some? ==>
      match CheckPeriod(request.startDate, request.endDate, today)
      case Some(e) => result == Failure(e)
      case None =>
        match CheckCustomerName(request.customerName)
        case Some(e) => result == Failure(e)
        case None =>
          match CheckPhoneNumber(request.phoneNumber)
          case Some(e) => result == Failure(e)
          case None => result.Success?
  {
    if request.siteNumber.None? || IsBlank(request.siteNumber.value) then Failure(SiteNumberMissing)
    else match FindSite(sites, request.siteNumber.value)
      case None => Failure(CampsiteNotFound)
      case Some(campsite) =>
        match CheckPeriod(request.startDate, request.endDate, today)
        case Some(e) => Failure(e)
        case None =>
          match CheckCustomerName(request.customerName)
          case Some(e) => Failure(e)
          case None =>
            match CheckPhoneNumber(request.phoneNumber)
            case Some(e) => Failure(e)
            case None =>
              Success(ValidatedRequest(campsite, request.customerName.value, request.phoneNumber,
                                       request.startDate.value, request.endDate.value))
  }

  /** The row a successful admission saves. */
  function NewReservation(id: nat, request: ValidatedRequest, confirmationCode: string): Reservation
  {
    Reservation(id, request.campsite, request.customerName, request.phoneNumber,
                request.startDate, request.endDate, Confirmed, confirmationCode)
  }

  /** The status a cancellation on day `today` sets: same-day when the stay starts today. */
  function Cancel(r: Reservation, today: int): (c: Reservation)
    ensures c == r.(status := c.status)
    ensures c.status == CancelledSameDay <==> r.startDate == today
    ensures c.status == Cancelled <==> r.startDate != today
  {
    r.(status := if r.startDate == today then CancelledSameDay else Cancelled)
  }

  /** The central invariant: on one campsite, no two CONFIRMED rows intersect. */
  predicate ConfirmedDisjoint(rows: seq<Reservation>)
  {
    forall i, j :: 0 <= i < |rows| && 0 <= j < |rows| && i != j
      && rows[i].status == Confirmed && rows[j].status == Confirmed && rows[i].campsite == rows[j].campsite
      ==> !Intersects(rows[i], rows[j].startDate, rows[j].endDate)
  }

  /** Saving a row that the overlap query let through keeps CONFIRMED rows disjoint. */
  lemma {:induction false} AppendKeepsDisjoint(rows: seq<Reservation>, r: Reservation)
    requires ConfirmedDisjoint(rows)
    requires r.status == Confirmed ==> !HasOverlappingReservation(rows, r.campsite, r.startDate, r.endDate, Confirmed)
    ensures ConfirmedDisjoint(rows + [r])
  {
    var all := rows + [r];
    forall i, j | 0 <= i < |all| && 0 <= j < |all| && i != j
      && all[i].status == Confirmed && all[j].status == Confirmed && all[i].campsite == all[j].campsite
      ensures !Intersects(all[i], all[j].startDate, all[j].endDate)
    {
      if i == |rows| {
        assert all[j] in rows;
        IntersectsSymmetric(all[j], r);
      } else if j == |rows| {
        assert all[i] in rows;
      } else {
        assert all[i] == rows[i] && all[j] == rows[j];
      }
    }
  }

  /** A row whose id exceeds every stored id is found by that id once appended. */
  lemma AppendFreshIdFound(rows: seq<Reservation>, r: Reservation)
    requires forall i :: 0 <= i < |rows| ==> rows[i].id < r.id
    ensures FindById(rows + [r], r.id) == Some(r)
  {
    var all := rows + [r];
    assert all[|rows|].id == r.id;
    assert forall i :: 0 <= i < |rows| ==> all[i].id != r.id;
  }

  /** The campsite catalogue and the reservation table, with the id sequence of the table. */
  class ReservationStore {
    var sites: seq<Campsite>
    var reservations: seq<Reservation>
    var nextId: nat

    ghost predicate Valid()
      reads this
    {
      && 0 < nextId
      && (forall i :: 0 <= i < |reservations| ==> 0 < reservations[i].id < nextId)
      && (forall i, j :: 0 <= i < j < |reservations| ==> reservations[i].id < reservations[j].id)
      && (forall r :: r in reservations ==> r.startDate <= r.endDate && |r.confirmationCode| == ConfirmationCodeLength)
      && ConfirmedDisjoint(reservations)
    }

    /** A store over the given campsites, with no reservations yet. */
    constructor (sites: seq<Campsite>)
      ensures Valid()
      ensures this.sites == sites && reservations == [] && nextId == 1
    {
      this.sites := sites;
      reservations := [];
      nextId := 1;
    }

    /**
     * createReservation. The campsite row lock of the source makes the overlap query and the
     * save one atomic step; here the whole method body is that step.
     * `confirmationCode` is the freshly generated code.
     */
    method CreateReservation(request: ReservationRequest, today: int, confirmationCode: string)
      returns (result: Result<Reservation, CreateError>)
      requires Valid()
      requires |confirmationCode| == ConfirmationCodeLength
      modifies this
      ensures Valid()
      ensures sites == old(sites)
      ensures match Validate(request, sites, today)
        case Failure(e) =>
          result == Failure(e) && reservations == old(reservations) && nextId == old(nextId)
        case Success(v) =>
          if HasOverlappingReservation(old(reservations), v.campsite, v.startDate, v.endDate, Confirmed) then
            result == Failure(AlreadyReserved) && reservations == old(reservations) && nextId == old(nextId)
          else
            && result == Success(NewReservation(old(nextId), v, confirmationCode))
            && reservations == old(reservations) + [result.value]
            && nextId == old(nextId) + 1
      ensures result.Success? ==> FindById(reservations, result.value.id) == Some(result.value)
    {
      var validated := Validate(request, sites, today);
      if validated.Failure? {
        return Failure(validated.error);
      }
      var v := validated.value;
      if HasOverlappingReservation(reservations, v.campsite, v.startDate, v.endDate, Confirmed) {
        return Failure(AlreadyReserved);
      }
      var reservation := NewReservation(nextId, v, confirmationCode);
      AppendKeepsDisjoint(reservations, reservation);
      AppendFreshIdFound(reservations, reservation);
      reservations := reservations + [reservation];
      nextId := nextId + 1;
      result := Success(reservation);
    }

    /**
     * cancelReservation: find the row by id, compare the code exactly (a null or empty code
     * never matches), then rewrite the status only. Cancelling again is allowed.
     */
    method CancelReservation(id: int, confirmationCode: Option<string>, today: int)
      returns (result: Result<Reservation, CancelError>)
      requires Valid()
      modifies this
      ensures Valid()
      ensures sites == old(sites) && nextId == old(nextId)
      ensures match IndexOfId(old(reservations), id)
        case None =>
          result == Failure(ReservationNotFound) && reservations == old(reservations)
        case Some(k) =>
          if confirmationCode != Some(old(reservations)[k].confirmationCode) then
            result == Failure(ConfirmationCodeMismatch) && reservations == old(reservations)
          else
            result == Success(Cancel(old(reservations)[k], today)) && reservations == old(reservations)[k := result.value]
      ensures confirmationCode.None? || confirmationCode == Some("") ==> result.Failure?
    {
      var index := IndexOfId(reservations, id);
      if index.None? {
        return Failure(ReservationNotFound);
      }
      var k := index.value;
      var reservation := reservations[k];
      if confirmationCode != Some(reservation.confirmationCode) {
        return Failure(ConfirmationCodeMismatch);
      }
      var cancelled := Cancel(reservation, today);
      CancelKeepsDisjoint(reservations, k, today);
      reservations := reservations[k := cancelled];
      result := Success(cancelled);
    }
  }

  /** Cancelling twice leaves the row as the first cancellation left it. */
  lemma CancelIdempotent(r: Reservation, today: int)
    ensures Cancel(Cancel(r, today), today) == Cancel(r, today)
  {
  }

  /** Cancelling one row keeps CONFIRMED rows disjoint. */
  lemma CancelKeepsDisjoint(rows: seq<Reservation>, k: nat, today: int)
    requires k < |rows|
    requires ConfirmedDisjoint(rows)
    ensures ConfirmedDisjoint(rows[k := Cancel(rows[k], today)])
  {
  }

  /**
   * Cancellation frees the cancelled period: in a store whose CONFIRMED rows are disjoint, once
   * row k is cancelled no CONFIRMED row on its campsite meets its period, so it can be rebooked.
   */
  lemma {:induction false} CancelFreesPeriod(rows: seq<Reservation>, k: nat, today: int)
    requires k < |rows|
    requires rows[k].status == Confirmed
    requires ConfirmedDisjoint(rows)
    ensures var r := rows[k];
      !HasOverlappingReservation(rows[k := Cancel(r, today)], r.campsite, r.startDate, r.endDate, Confirmed)
  {
    var r := rows[k];
    var after := rows[k := Cancel(r, today)];
    forall x | x in after && x.campsite == r.campsite && x.status == Confirmed
      ensures !Intersects(x, r.startDate, r.endDate)
    {
      var j :| 0 <= j < |after| && after[j] == x;
      assert j != k;
      assert rows[j] == x;
    }
  }

  /** Cancelling only ever removes CONFIRMED rows, so it never creates an overlap. */
  lemma {:induction false} CancelNeverAddsOverlap(rows: seq<Reservation>, k: nat, today: int,
                                                 campsite: Campsite, startDate: int, endDate: int)
    requires k < |rows|
    ensures HasOverlappingReservation(rows[k := Cancel(rows[k], today)], campsite, startDate, endDate, Confirmed)
        ==> HasOverlappingReservation(rows, campsite, startDate, endDate, Confirmed)
  {
    var after := rows[k := Cancel(rows[k], today)];
    if HasOverlappingReservation(after, campsite, startDate, endDate, Confirmed) {
      var x :| x in after && OverlapMatch(x, campsite, startDate, endDate, Confirmed);
      var j :| 0 <= j < |after| && after[j] == x;
      assert j != k;
      assert rows[j] in rows;
    }
  }

  /** The default request of the tests: site A-1, three nights starting a week from today. */
  function DefaultRequest(today: int): ReservationRequest
  {
    ReservationRequest(Some("A-1"), Some("홍길동"), Some("010-1234-5678"), Some(today + 7), Some(today + 9))
  }

  /** The catalogue of the unit tests: one large site. */
  function UnitTestSites(): seq<Campsite>
  {
    [Campsite("A-1", 6)]
  }

  /** The lookups the unit tests stub: A-1 exists, Z-999 does not. */
  lemma UnitTestSiteLookups()
    ensures FindSite(UnitTestSites(), "A-1") == Some(Campsite("A-1", 6))
    ensures FindSite(UnitTestSites(), "Z-999") == None
  {
    assert "Z-999"[0] != "A-1"[0];
  }

  /** The digit count of a concatenation is the sum of the parts' counts. */
  lemma {:induction false} DigitCountConcat(a: string, b: string)
    ensures DigitCount(a + b) == DigitCount(a) + DigitCount(b)
    decreases |a|
  {
    if a != [] {
      assert (a + b)[1..] == a[1..] + b;
      DigitCountConcat(a[1..], b);
    } else {
      assert a + b == b;
    }
  }

  /** Hyphens never count: placing a hyphen between two parts leaves the digit count unchanged. */
  lemma HyphenDoesNotCount(a: string, b: string)
    ensures DigitCount(a + "-" + b) == DigitCount(a) + DigitCount(b)
  {
    DigitCountConcat(a, "-");
    DigitCountConcat(a + "-", b);
    assert "-"[1..] == [];
  }

  /** Site number checks: null, empty and blank are missing; an unknown number is not found. */
  lemma SiteNumberValidationExamples(today: int)
    ensures Validate(DefaultRequest(today).(siteNumber := None), UnitTestSites(), today) == Failure(SiteNumberMissing)
    ensures Validate(DefaultRequest(today).(siteNumber := Some("")), UnitTestSites(), today) == Failure(SiteNumberMissing)
    ensures Validate(DefaultRequest(today).(siteNumber := Some("   ")), UnitTestSites(), today) == Failure(SiteNumberMissing)
    ensures Validate(DefaultRequest(today).(siteNumber := Some("Z-999")), UnitTestSites(), today) == Failure(CampsiteNotFound)
  {
    UnitTestSiteLookups();
    assert !IsBlank("Z-999") by {
      assert "Z-999"[0] == 'Z';
    }
  }

  /** The default request passes every check. */
  lemma DefaultRequestIsAdmissible(today: int)
    ensures Validate(DefaultRequest(today), UnitTestSites(), today).Success?
  {
    UnitTestSiteLookups();
    assert !IsBlank("A-1") by {
      assert "A-1"[0] == 'A';
    }
    assert CheckPeriod(Some(today + 7), Some(today + 9), today) == None;
    assert CheckCustomerName(Some("홍길동")) == None;
    PhoneNumberExample11Digits();
  }

  /** Period checks, including the 30-day limit at its boundary. */
  lemma PeriodValidationExamples(today: int)
    ensures CheckPeriod(None, Some(today + 9), today) == Some(PeriodMissing)
    ensures CheckPeriod(Some(today + 7), None, today) == Some(PeriodMissing)
    ensures CheckPeriod(Some(today + 10), Some(today + 5), today) == Some(EndBeforeStart)
    ensures CheckPeriod(Some(today - 1), Some(today + 5), today) == Some(PastStartDate)
    ensures CheckPeriod(Some(today + 1), Some(today + 31), today) == None
    ensures CheckPeriod(Some(today + 1), Some(today + 32), today) == Some(PeriodTooLong)
  {
  }

  /** Customer name checks: null and empty are missing; 2 and 20 characters are the bounds. */
  lemma CustomerNameValidationExamples()
    ensures CheckCustomerName(None) == Some(CustomerNameMissing)
    ensures CheckCustomerName(Some("")) == Some(CustomerNameMissing)
    ensures CheckCustomerName(Some("홍")) == Some(CustomerNameTooShort)
    ensures CheckCustomerName(Some("가나다라마바사아자차카타파하가나다라마바사")) == Some(CustomerNameTooLong)
    ensures CheckCustomerName(Some("홍길")) == None
    ensures CheckCustomerName(Some("가나다라마바사아자차카타파하가나다라마바")) == None
  {
  }

  // Each phone number of the tests is checked through two facts, its digit count and its
  // character class, each evaluated in a proof obligation of its own.

  /** Phone numbers with too few or too many digits are malformed. */
  lemma PhoneNumberExampleShort()
    ensures CheckPhoneNumber(Some("010-1234-56")) == Some(PhoneNumberMalformed)
  {
    PhoneNumberDigitCountShort();
    PhoneNumberCharsShort();
  }

  lemma PhoneNumberDigitCountShort()
    ensures DigitCount("010-1234-56") == 9
  {
  }

  lemma PhoneNumberCharsShort()
    ensures OnlyDigitsAndHyphens("010-1234-56")
  {
  }

  lemma PhoneNumberExampleLong()
    ensures CheckPhoneNumber(Some("010-1234-56789")) == Some(PhoneNumberMalformed)
  {
    PhoneNumberDigitCountLong();
    PhoneNumberCharsLong();
  }

  lemma PhoneNumberDigitCountLong()
    ensures DigitCount("010-1234-56789") == 12
  {
  }

  lemma PhoneNumberCharsLong()
    ensures OnlyDigitsAndHyphens("010-1234-56789")
  {
  }

  /** Letters are rejected before the digit count is looked at. */
  lemma PhoneNumberExampleLetters()
    ensures CheckPhoneNumber(Some("010-abcd-5678")) == Some(PhoneNumberNotDigits)
  {
    assert "010-abcd-5678"[4] == 'a';
  }

  /** No phone number, and numbers with 10 or 11 digits, pass. */
  lemma PhoneNumberExampleAbsent()
    ensures CheckPhoneNumber(None) == None
  {
  }

  lemma PhoneNumberExample10Digits()
    ensures CheckPhoneNumber(Some("010-123-4567")) == None
  {
    PhoneNumberDigitCount10Digits();
    PhoneNumberChars10Digits();
  }

  lemma PhoneNumberDigitCount10Digits()
    ensures DigitCount("010-123-4567") == 10
  {
  }

  lemma PhoneNumberChars10Digits()
    ensures OnlyDigitsAndHyphens("010-123-4567")
  {
  }

  lemma PhoneNumberExample11Digits()
    ensures CheckPhoneNumber(Some("010-1234-5678")) == None
  {
    PhoneNumberDigitCount11Digits();
    PhoneNumberChars11Digits();
  }

  lemma PhoneNumberDigitCount11Digits()
    ensures DigitCount("010-1234-5678") == 11
  {
  }

  lemma PhoneNumberChars11Digits()
    ensures OnlyDigitsAndHyphens("010-1234-5678")
  {
  }

  /** Cancellation status: same-day only when the stay starts today; a cancelled row is cancelled again. */
  lemma CancelStatusExamples(today: int)
    ensures Cancel(Reservation(1, Campsite("A-1", 6), "홍길동", Some("010-1234-5678"), today + 7, today + 9, Confirmed, "ABC123"), today).status
         == Cancelled
    ensures Cancel(Reservation(1, Campsite("A-1", 6), "홍길동", Some("010-1234-5678"), today, today + 2, Confirmed, "ABC123"), today).status
         == CancelledSameDay
    ensures Cancel(Reservation(1, Campsite("A-1", 6), "홍길동", Some("010-1234-5678"), today + 1, today + 3, Confirmed, "ABC123"), today).status
         == Cancelled
    ensures Cancel(Reservation(1, Campsite("A-1", 6), "홍길동", Some("010-1234-5678"), today - 1, today + 1, Confirmed, "ABC123"), today).status
         == Cancelled
    ensures Cancel(Reservation(1, Campsite("A-1", 6), "홍길동", Some("010-1234-5678"), today + 7, today + 9, Cancelled, "ABC123"), today).status
         == Cancelled
  {
  }
}
