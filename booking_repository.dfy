/**
 * `BookingRepositoryImpl`: booking, spot listing, current booking of a spot, the
 * list of all bookings and cancellation. Every method catches every exception and
 * degrades to a default value: `Error(null)`, an empty list, a default record or
 * nothing at all.
 *
 * A remote call is a function parameter returning an `Outcome`; `Fail` stands for
 * any exception the call throws. The `toDomain` mappers are not part of this
 * model and are parameters too.
 */
module BookingRepository {
  import opened Outcomes
  import opened Text
  import opened Models
  import opened BookRequests

  /**
   * A JSON member as the code reads it with `.jsonPrimitive.content`: a primitive
   * (string, number, boolean or JSON null, whose content is "null") yields its
   * content; an object or array makes `.jsonPrimitive` throw.
   */
  datatype JsonMember = Primitive(content: string) | Structured

  /**
   * The `spot` member of the error body: absent, present but not an object (JSON
   * null, array or primitive: `.jsonObject` throws), or an object with optional
   * `id` and `name` members.
   */
  datatype SpotMember = Absent | NotAnObject | SpotObject(id: Option<JsonMember>, name: Option<JsonMember>)

  /**
   * The error body of a rejected booking: text that does not parse as a JSON
   * object (malformed JSON or another kind of JSON value), or a JSON object.
   */
  datatype ErrorBody = NotAJsonObject | JsonObject(spot: SpotMember)

  /** The HTTP response to `POST /bookings`: 2xx, or an error status with an optional body. */
  datatype BookResponse = Successful | Unsuccessful(errorBody: Option<ErrorBody>)

  /** `String.drop(1)`: everything after the first character; empty for an empty string. */
  function DropFirst(s: string): (r: string)
    ensures s != [] ==> r == s[1..]
    ensures s == [] ==> r == []
  {
    if s == [] then [] else s[1..]
  }

  /** `name.drop(1).toInt()`: the spot's position decoded from its display name ("A12" gives 12). */
  function NamePosition(name: string): (r: Option<int>)
    ensures |name| <= 1 ==> r == None
    ensures r.Some? ==> IntMin <= r.value <= IntMax
  {
    ParseInt(DropFirst(name))
  }

  /** A one-character prefix followed by the digits of a position decodes to that position. */
  lemma {:induction false} PrefixedPosition(prefix: char, position: nat)
    requires position <= IntMax
    ensures NamePosition([prefix] + NatToString(position)) == Some(position)
  {
    assert DropFirst([prefix] + NatToString(position)) == NatToString(position);
    ParseNatToString(position);
  }

  lemma NamePositionExample()
    ensures NamePosition("A12") == Some(12)
    ensures NamePosition("A") == None && NamePosition("") == None
    ensures NamePosition("AB") == None
  {
    assert NatToString(12) == "12";
    PrefixedPosition('A', 12);
    assert DropFirst("AB") == "B";
  }

  /** The spot an error body names, when it has a primitive `id` and a `name` whose tail is a number. */
  function ConflictSpot(spot: SpotMember): (r: Option<BookObject>)
    ensures r.Some? <==>
      && spot.SpotObject?
      && spot.id.Some? && spot.id.value.Primitive?
      && spot.name.Some? && spot.name.value.Primitive?
      && NamePosition(spot.name.value.content).Some?
    ensures r.Some? ==>
      && r.value.id == spot.id.value.content
      && Some(r.value.position) == NamePosition(spot.name.value.content)
      && r.value.availableToBook
  {
    match spot
    case SpotObject(Some(Primitive(id)), Some(Primitive(name))) =>
      (match NamePosition(name)
       case Some(position) => Some(BookObject(id, position, true))
       case None => None)
    case _ => None
  }

  /** Turns the outcome of the booking POST into the status the screen shows. */
  function Classify(response: Outcome<BookResponse>): (r: BookingStatus)
    ensures r.Success? <==> response == Ok(Successful)
    ensures response.Fail? ==> r == Error(None)
    ensures response == Ok(Unsuccessful(None)) ==> r == Error(None)
    ensures response == Ok(Unsuccessful(Some(NotAJsonObject))) ==> r == Error(None)
    ensures r.Error? && r.conflict.Some? <==>
      && response.Ok? && response.value.Unsuccessful?
      && response.value.errorBody.Some? && response.value.errorBody.value.JsonObject?
      && ConflictSpot(response.value.errorBody.value.spot).Some?
    ensures
      (&& response.Ok? && response.value.Unsuccessful?
       && response.value.errorBody.Some? && response.value.errorBody.value.JsonObject?)
      ==> r == Error(ConflictSpot(response.value.errorBody.value.spot))
  {
    match response
    case Fail => Error(None)
    case Ok(Successful) => Success
    case Ok(Unsuccessful(None)) => Error(None)
    case Ok(Unsuccessful(Some(NotAJsonObject))) => Error(None)
    case Ok(Unsuccessful(Some(JsonObject(spot)))) => Error(ConflictSpot(spot))
  }

  /** `book`: sends `BookRequestDto.create(...)` once and classifies the answer. */
  function Book(spotId: string, timeFrom: LocalTime, timeUntil: LocalTime, date: LocalDate,
                serialize: DateTimeSerializer, post: BookRequestDto -> Outcome<BookResponse>): (r: BookingStatus)
    ensures var response := post(Create(spotId, timeFrom, timeUntil, date, serialize));
      && (r.Success? <==> response == Ok(Successful))
      && (response.Fail? ==> r == Error(None))
      && (response.Ok? && response.value.Unsuccessful? && response.value.errorBody.Some?
          && response.value.errorBody.value.JsonObject? ==>
            r == Error(ConflictSpot(response.value.errorBody.value.spot)))
      && (response.Ok? && response.value.Unsuccessful?
          && (response.value.errorBody.None? || response.value.errorBody.value.NotAJsonObject?) ==>
            r == Error(None))
      && (r.Error? && r.conflict.Some? ==>
            response.Ok? && response.value.Unsuccessful? && response.value.errorBody.Some?
            && response.value.errorBody.value.JsonObject?
            && Some(r.conflict.value) == ConflictSpot(response.value.errorBody.value.spot))
  {
    Classify(post(Create(spotId, timeFrom, timeUntil, date, serialize)))
  }

  /** A rejection naming spot {id: "S5", name: "A12"} reports spot S5 at position 12, available. */
  lemma ConflictExample(spotId: string, timeFrom: LocalTime, timeUntil: LocalTime, date: LocalDate,
                        serialize: DateTimeSerializer, post: BookRequestDto -> Outcome<BookResponse>)
    requires post(Create(spotId, timeFrom, timeUntil, date, serialize))
             == Ok(Unsuccessful(Some(JsonObject(SpotObject(Some(Primitive("S5")), Some(Primitive("A12")))))))
    ensures Book(spotId, timeFrom, timeUntil, date, serialize, post) == Error(Some(BookObject("S5", 12, true)))
  {
    NamePositionExample();
  }

  /** A spot whose name has no numeric tail degrades to a conflict without a spot. */
  lemma {:induction false} UnparsableNameGivesNoSpot(id: string, name: string)
    requires NamePosition(name).None?
    ensures Classify(Ok(Unsuccessful(Some(JsonObject(SpotObject(Some(Primitive(id)), Some(Primitive(name))))))))
            == Error(None)
  {
  }

  /**
   * `getSpotsForCoworking`: the server's spots mapped in order, both bounds
   * serialised against the same date; an empty list on any failure.
   */
  function GetSpotsForCoworking<S>(coworkingId: string, timeFrom: LocalTime, timeUntil: LocalTime, date: LocalDate,
                                   serialize: DateTimeSerializer,
                                   getSpots: (string, string, string) -> Outcome<seq<S>>,
                                   toDomain: S -> BookObject): (r: seq<BookObject>)
    ensures var fetched := getSpots(coworkingId, serialize(timeFrom, date), serialize(timeUntil, date));
      && (fetched.Fail? ==> r == [])
      && (fetched.Ok? ==>
            |r| == |fetched.value| && forall i :: 0 <= i < |r| ==> r[i] == toDomain(fetched.value[i]))
  {
    match getSpots(coworkingId, serialize(timeFrom, date), serialize(timeUntil, date))
    case Ok(spots) => MapSeq(toDomain, spots)
    case Fail => []
  }

  /** `getCurrentBookingForSpot`: the server's booking, or `FullBookingInfo()` on any failure. */
  function GetCurrentBookingForSpot<D>(spotId: string, getCurrent: string -> Outcome<D>,
                                       toDomain: D -> FullBookingInfo,
                                       today: LocalDate, nowFrom: LocalTime, nowUntil: LocalTime): (r: FullBookingInfo)
    ensures getCurrent(spotId).Ok? ==> r == toDomain(getCurrent(spotId).value)
    ensures getCurrent(spotId).Fail? ==> r == DefaultFullBookingInfo(today, nowFrom, nowUntil)
  {
    match getCurrent(spotId)
    case Ok(dto) => toDomain(dto)
    case Fail => DefaultFullBookingInfo(today, nowFrom, nowUntil)
  }

  /** `getAllBokings(page, count)`: one page of bookings mapped in order, or empty on any failure. */
  function GetAllBookings<D>(page: int, count: int, getAll: (int, int) -> Outcome<seq<D>>,
                             toDomain: D -> FullBookingInfo): (r: seq<FullBookingInfo>)
    ensures getAll(count, page).Fail? ==> r == []
    ensures getAll(count, page).Ok? ==>
      |r| == |getAll(count, page).value| && forall i :: 0 <= i < |r| ==> r[i] == toDomain(getAll(count, page).value[i])
  {
    match getAll(count, page)
    case Ok(items) => MapSeq(toDomain, items)
    case Fail => []
  }

  /** `cancelBooking`: a failed DELETE is logged and swallowed; the call itself always completes. */
  function CancelBooking(bookingId: string, delete: string -> Outcome<()>): (r: Outcome<()>)
    ensures r.Ok?
  {
    match delete(bookingId)
    case Ok(_) => Ok(())
    case Fail => Ok(())
  }
}
