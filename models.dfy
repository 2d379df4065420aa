/**
 * Presentation and domain values shared by the booking screens and the booking
 * repository: a bookable object on the floor plan, the result of a booking
 * attempt and the full description of one booking.
 */
module Models {
  import opened Outcomes

  /** `java.time.LocalDate`; only compared and passed along, never computed with. */
  datatype LocalDate = LocalDate(year: int, month: int, day: int)

  /** `java.time.LocalTime`, to the second. */
  datatype LocalTime = LocalTime(hour: int, minute: int, second: int)

  /** `BookObjectUIData`: one seat of a floor plan as the booking screen shows it. */
  datatype BookObject = BookObject(id: string, position: int, availableToBook: bool)

  /** `BookingStatus`: `Success`, or `Error` with the spot that blocked the booking, when the server named one. */
  datatype BookingStatus = Success | Error(conflict: Option<BookObject>)

  /** `FullBookingInfo`: one booking with its owner, as the staff screens show it. */
  datatype FullBookingInfo = FullBookingInfo(
    id: string,
    userId: string,
    position: int,
    status: string,
    date: LocalDate,
    timeFrom: LocalTime,
    timeUntil: LocalTime,
    photoUrl: Option<string>,
    name: string,
    email: string)

  /**
   * `FullBookingInfo()` with every argument defaulted. The date and the two times
   * default to three separate clock readings, which the caller supplies: the two
   * `LocalTime.now()` calls need not return the same time.
   */
  function DefaultFullBookingInfo(today: LocalDate, nowFrom: LocalTime, nowUntil: LocalTime): (r: FullBookingInfo)
    ensures r.id == "" && r.userId == "" && r.position == 1 && r.status == ""
    ensures r.date == today && r.timeFrom == nowFrom && r.timeUntil == nowUntil
    ensures r.photoUrl == Some("") && r.name == "" && r.email == ""
  {
    FullBookingInfo("", "", 1, "", today, nowFrom, nowUntil, Some(""), "", "")
  }
}
