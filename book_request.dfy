/**
 * `BookRequestDto`: the body of `POST /bookings`. Both time bounds are written as
 * wire date-times against the same calendar date.
 */
module BookRequests {
  import opened Models

  /**
   * `serializeDateAndTime(time, date)`. Its definition is not part of this model,
   * so every operation that needs it receives it as a parameter.
   */
  type DateTimeSerializer = (LocalTime, LocalDate) -> string

  datatype BookRequestDto = BookRequestDto(spotId: string, timeFrom: string, timeUntil: string)

  const SpotIdField: string := "spot_id"
  const TimeFromField: string := "time_from"
  const TimeUntilField: string := "time_until"

  /**
   * `BookRequestDto.create`. It is total: nothing checks that `timeFrom` comes
   * before `timeUntil`, so an empty or inverted window is sent as it is.
   */
  function Create(spotId: string, timeFrom: LocalTime, timeUntil: LocalTime, date: LocalDate,
                  serialize: DateTimeSerializer): (r: BookRequestDto)
    ensures r.spotId == spotId
    ensures r.timeFrom == serialize(timeFrom, date)
    ensures r.timeUntil == serialize(timeUntil, date)
    ensures timeFrom == timeUntil ==> r.timeFrom == r.timeUntil
  {
    BookRequestDto(spotId, serialize(timeFrom, date), serialize(timeUntil, date))
  }

  /** The JSON object the request is sent as, keyed by the `@SerializedName` names. */
  function WireObject(r: BookRequestDto): (fields: map<string, string>)
    ensures fields.Keys == {"spot_id", "time_from", "time_until"}
    ensures fields["spot_id"] == r.spotId
    ensures fields["time_from"] == r.timeFrom
    ensures fields["time_until"] == r.timeUntil
  {
    map[SpotIdField := r.spotId, TimeFromField := r.timeFrom, TimeUntilField := r.timeUntil]
  }

  /** The three wire names are distinct, so the JSON object determines the request. */
  lemma WireObjectInjective(a: BookRequestDto, b: BookRequestDto)
    requires WireObject(a) == WireObject(b)
    ensures a == b
  {
    assert WireObject(a)["spot_id"] == WireObject(b)["spot_id"];
    assert WireObject(a)["time_from"] == WireObject(b)["time_from"];
    assert WireObject(a)["time_until"] == WireObject(b)["time_until"];
  }
}
