/**
 * The reservation queries (ReservationRepository.java) as predicates and filters over the
 * stored rows, in insertion order.
 */
module ReservationRepository {
  import opened Wrappers
  import opened Domain

  /** The inclusive intersection test of the queries: the row starts no later than endDate and ends no earlier than startDate. */
  predicate Intersects(r: Reservation, startDate: int, endDate: int)
  {
    r.startDate <= endDate && r.endDate >= startDate
  }

  /** The WHERE clause of hasOverlappingReservation. */
  predicate OverlapMatch(r: Reservation, campsite: Campsite, startDate: int, endDate: int, status: Status)
  {
    r.campsite == campsite && r.startDate <= endDate && r.endDate >= startDate && r.status == status
  }

  /** COUNT(r) of the rows the WHERE clause of hasOverlappingReservation selects. */
  function CountOverlapping(rows: seq<Reservation>, campsite: Campsite, startDate: int, endDate: int, status: Status): (n: nat)
    ensures n <= |rows|
    ensures n > 0 <==> exists r :: r in rows && OverlapMatch(r, campsite, startDate, endDate, status)
    decreases |rows|
  {
    if rows == [] then 0
    else
      var last := rows[|rows| - 1];
      assert rows == rows[..|rows| - 1] + [last];
      CountOverlapping(rows[..|rows| - 1], campsite, startDate, endDate, status)
        + (if OverlapMatch(last, campsite, startDate, endDate, status) then 1 else 0)
  }

  /** hasOverlappingReservation: CASE WHEN COUNT(r) > 0 THEN true ELSE false. */
  function HasOverlappingReservation(rows: seq<Reservation>, campsite: Campsite, startDate: int, endDate: int, status: Status): (b: bool)
    ensures b <==> exists r :: r in rows && r.campsite == campsite && Intersects(r, startDate, endDate) && r.status == status
  {
    CountOverlapping(rows, campsite, startDate, endDate, status) > 0
  }

  /** findByStartDateLessThanEqualAndEndDateGreaterThanEqual(endDate, startDate): every row intersecting the range, any status. */
  function FindByDateRange(rows: seq<Reservation>, endDate: int, startDate: int): (found: seq<Reservation>)
    ensures |found| <= |rows|
    ensures multiset(found) <= multiset(rows)
    ensures forall r :: r in found <==> r in rows && Intersects(r, startDate, endDate)
    decreases |rows|
  {
    if rows == [] then []
    else
      var rest := FindByDateRange(rows[1..], endDate, startDate);
      assert rows == [rows[0]] + rows[1..];
      if Intersects(rows[0], startDate, endDate) then [rows[0]] + rest else rest
  }

  /** findByCampsiteAndStartDateLessThanEqualAndEndDateGreaterThanEqual: the same, restricted to one campsite. */
  function FindByCampsiteAndDateRange(rows: seq<Reservation>, campsite: Campsite, endDate: int, startDate: int): (found: seq<Reservation>)
    ensures |found| <= |rows|
    ensures multiset(found) <= multiset(rows)
    ensures forall r :: r in found <==> r in rows && r.campsite == campsite && Intersects(r, startDate, endDate)
    decreases |rows|
  {
    if rows == [] then []
    else
      var rest := FindByCampsiteAndDateRange(rows[1..], campsite, endDate, startDate);
      assert rows == [rows[0]] + rows[1..];
      if rows[0].campsite == campsite && Intersects(rows[0], startDate, endDate) then [rows[0]] + rest else rest
  }

  /** The first row with the given id, if any (findById). */
  function IndexOfId(rows: seq<Reservation>, id: int): (k: Option<nat>)
    ensures k.Some? ==> k.value < |rows| && rows[k.value].id == id
    ensures k.Some? ==> forall i :: 0 <= i < k.value ==> rows[i].id != id
    ensures k.None? <==> forall i :: 0 <= i < |rows| ==> rows[i].id != id
    decreases |rows|
  {
    if rows == [] then None
    else if rows[0].id == id then Some(0)
    else match IndexOfId(rows[1..], id)
      case None => None
      case Some(k) => Some(k + 1)
  }

  /** findById. */
  function FindById(rows: seq<Reservation>, id: int): (found: Option<Reservation>)
    ensures found.Some? ==> found.value in rows && found.value.id == id
    ensures found.None? <==> forall r :: r in rows ==> r.id != id
  {
    match IndexOfId(rows, id)
    case None => None
    case Some(k) => Some(rows[k])
  }

  /** Intersection is symmetric: a row meets [s, e] exactly when [s, e] meets the row's range. */
  lemma IntersectsSymmetric(a: Reservation, b: Reservation)
    ensures Intersects(a, b.startDate, b.endDate) <==> Intersects(b, a.startDate, a.endDate)
  {
  }

  /** Intersection is inclusive: a row ending on the first queried day, or starting on the last, intersects. */
  lemma IntersectsInclusive(r: Reservation, startDate: int, endDate: int)
    requires startDate <= endDate
    requires r.startDate <= r.endDate
    requires r.endDate == startDate || r.startDate == endDate
    ensures Intersects(r, startDate, endDate)
  {
  }

  /**
   * A row of another campsite, of another status or outside the range never changes the
   * answer of hasOverlappingReservation, wherever it is stored.
   */
  lemma {:induction false} NonMatchingRowIgnored(front: seq<Reservation>, x: Reservation, back: seq<Reservation>,
                                                campsite: Campsite, startDate: int, endDate: int, status: Status)
    requires x.campsite != campsite || x.status != status || !Intersects(x, startDate, endDate)
    ensures HasOverlappingReservation(front + [x] + back, campsite, startDate, endDate, status)
         == HasOverlappingReservation(front + back, campsite, startDate, endDate, status)
  {
    var all, rest := front + [x] + back, front + back;
    forall r | r in all && r != x ensures r in rest {
      var i :| 0 <= i < |all| && all[i] == r;
      if i < |front| { assert rest[i] == r; } else { assert rest[i - 1] == r; }
    }
    forall r | r in rest ensures r in all {
      var i :| 0 <= i < |rest| && rest[i] == r;
      if i < |front| { assert all[i] == r; } else { assert all[i + 1] == r; }
    }
  }
}
