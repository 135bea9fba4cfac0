/** The persisted entities: campsites and reservations. */
module Domain {
  import opened Wrappers

  /** A reservation's status; the source stores it as the strings "CONFIRMED", "CANCELLED" and "CANCELLED_SAME_DAY". */
  datatype Status = Confirmed | Cancelled | CancelledSameDay

  /** A campsite; its site number ("A-1", "B-3", ...) is unique and its first letter is the size class. */
  datatype Campsite = Campsite(siteNumber: string, maxPeople: nat)

  /**
   * A reservation row. Dates are day numbers (see module Calendar), both ends inclusive;
   * a missing phone number is None.
   */
  datatype Reservation = Reservation(
    id: nat,
    campsite: Campsite,
    customerName: string,
    phoneNumber: Option<string>,
    startDate: int,
    endDate: int,
    status: Status,
    confirmationCode: string)
}
