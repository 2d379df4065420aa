/**
 * `ProfileRepositoryImpl`: the signed-in user's profile and bookings. Every
 * method except `checkBooking` catches every exception and returns a fallback:
 * a placeholder profile, an empty list, or a reschedule result whose id is "-1".
 *
 * The declarations of `UserProfile` and `BookingWithOptionsDto` are not part of
 * this model; their fields are named here in the order of the constructor calls.
 */
module ProfileRepository {
  import opened Outcomes

  datatype UserProfile = UserProfile(id: string, fullName: string, avatarUrl: string, isBusiness: bool, email: string)

  /** `ProfileBookingModel`: one of the user's own bookings. */
  datatype ProfileBooking = ProfileBooking(id: string, title: string, address: string,
                                           timeFrom: string, timeUntil: string, status: string)

  /** `BookingCheckDto`: a booking with its user and spot, as the QR check returns it. */
  datatype BookingUser = BookingUser(id: string, avatarUrl: string, fullName: string, email: string)
  datatype BookingSpot = BookingSpot(id: string, name: string)
  datatype BookingCheck = BookingCheck(timeFrom: string, timeUntil: string, id: string, user: BookingUser,
                                       spot: BookingSpot, status: string, options: seq<string>)

  /** `RescheduleBookingRequest`: the body of `PATCH /bookings/{id}`. */
  datatype RescheduleRequest = RescheduleRequest(timeFrom: string, timeUntil: string)

  datatype BookingWithOptions = BookingWithOptions(id: string, userId: string, spotId: string,
                                                   timeFrom: string, timeUntil: string, status: string,
                                                   options: seq<string>)

  /** `ChangeUserInfoDto`. */
  datatype ChangeUserInfo = ChangeUserInfo(email: string, fullName: string)

  /** The profile `getProfile` returns when the request fails. */
  const PlaceholderProfile: UserProfile := UserProfile("1", "Неизвестно", "", false, "Неизвестно")

  /** The record `rescheduleBooking` returns when the request fails: id "-1", every other string "1". */
  const RescheduleSentinel: BookingWithOptions := BookingWithOptions("-1", "1", "1", "1", "1", "1", [])

  /** `getProfile`: the server's profile, or the placeholder on any failure. */
  function GetProfile<D>(fetched: Outcome<D>, toDomain: D -> UserProfile): (r: UserProfile)
    ensures fetched.Ok? ==> r == toDomain(fetched.value)
    ensures fetched.Fail? ==> r.id == "1" && r.fullName == "Неизвестно" && r.email == "Неизвестно"
                              && r.avatarUrl == "" && !r.isBusiness
  {
    match fetched
    case Ok(dto) => toDomain(dto)
    case Fail => PlaceholderProfile
  }

  /** `getBookings`: the server's list mapped in order, or empty on any failure. */
  function GetBookings<D>(fetched: Outcome<seq<D>>, toDomain: D -> ProfileBooking): (r: seq<ProfileBooking>)
    ensures fetched.Fail? ==> r == []
    ensures fetched.Ok? ==>
      |r| == |fetched.value| && forall i :: 0 <= i < |r| ==> r[i] == toDomain(fetched.value[i])
  {
    match fetched
    case Ok(items) => MapSeq(toDomain, items)
    case Fail => []
  }

  /**
   * `deleteBooking`: cancel, then return the freshly fetched list. The nested
   * `getBookings` never throws, so only a failed cancel reaches the catch.
   */
  function DeleteBooking<D>(id: string, cancel: string -> Outcome<()>, refetched: Outcome<seq<D>>,
                            toDomain: D -> ProfileBooking): (r: seq<ProfileBooking>)
    ensures cancel(id).Fail? ==> r == []
    ensures cancel(id).Ok? ==> r == GetBookings(refetched, toDomain)
  {
    match cancel(id)
    case Ok(_) => GetBookings(refetched, toDomain)
    case Fail => []
  }

  /** `checkBooking`: no catch, so a failure reaches the caller. */
  function CheckBooking(id: string, getBooking: string -> Outcome<BookingCheck>): (r: Outcome<BookingCheck>)
    ensures r.Fail? <==> getBooking(id).Fail?
    ensures r.Ok? ==> r.value == getBooking(id).value
  {
    getBooking(id)
  }

  /**
   * `rescheduleBooking`: sends the new times unchanged; on any failure returns the
   * sentinel instead of throwing.
   */
  function RescheduleBooking(bookingId: string, newTimeFrom: string, newTimeUntil: string,
                             patch: (string, RescheduleRequest) -> Outcome<BookingWithOptions>): (r: BookingWithOptions)
    ensures var sent := patch(bookingId, RescheduleRequest(newTimeFrom, newTimeUntil));
      && (sent.Ok? ==> r == sent.value)
      && (sent.Fail? ==> r.id == "-1" && r.options == []
                         && r.userId == r.spotId == r.timeFrom == r.timeUntil == r.status == "1")
  {
    ValueOr(patch(bookingId, RescheduleRequest(newTimeFrom, newTimeUntil)), RescheduleSentinel)
  }

  /** The sentinel is the only failure signal: a server record with id "-1" is indistinguishable from a failure. */
  lemma SentinelAmbiguous(bookingId: string, from: string, until: string,
                          patch: (string, RescheduleRequest) -> Outcome<BookingWithOptions>)
    requires patch(bookingId, RescheduleRequest(from, until)) == Ok(RescheduleSentinel)
    ensures RescheduleBooking(bookingId, from, until, patch) == RescheduleBooking(bookingId, from, until, (_, _) => Fail)
  {
  }

  /** `changeUserInfo`: the PATCH is sent and any failure is swallowed. */
  function ChangeUserInfoCall(userId: string, email: string, fullName: string,
                              change: (string, ChangeUserInfo) -> Outcome<()>): (r: Outcome<()>)
    ensures r.Ok?
  {
    match change(userId, ChangeUserInfo(email, fullName))
    case Ok(_) => Ok(())
    case Fail => Ok(())
  }
}
