/**
 * `ProfileViewModel`: the profile screen's state (`profile`, `bookings`,
 * `isLoaded`, and `bookingInfo` for the QR check dialog). Each
 * `viewModelScope.launch` block is one atomic step here; the repository call it
 * makes is given as its outcome, since the view model is written against the
 * repository interface, whose calls may throw (`Fail`).
 */
module ProfileViewModels {
  import opened Outcomes
  import opened ProfileRepository

  class ProfileViewModel {
    var profile: Option<UserProfile>
    var bookings: seq<ProfileBooking>
    var isLoaded: bool
    var bookingInfo: Option<BookingCheck>

    /** Construction: the fields start empty, then `init` runs `loadProfile`. */
    constructor (initialProfile: Outcome<UserProfile>)
      ensures bookings == [] && bookingInfo == None
      ensures isLoaded <==> initialProfile.Ok?
      ensures initialProfile.Ok? ==> profile == Some(initialProfile.value)
      ensures initialProfile.Fail? ==> profile == None
    {
      profile := None;
      bookings := [];
      isLoaded := false;
      bookingInfo := None;
      new;
      LoadProfile(initialProfile);
    }

    /** `closeDialog`: dismisses the booking dialog. */
    method CloseDialog()
      modifies this`bookingInfo
      ensures bookingInfo == None
    {
      bookingInfo := None;
    }

    /**
     * `loadProfile`: clears `isLoaded`, then stores the profile and sets `isLoaded`
     * only if the repository returned one.
     */
    method LoadProfile(fetched: Outcome<UserProfile>)
      modifies this`profile, this`isLoaded
      ensures isLoaded <==> fetched.Ok?
      ensures fetched.Ok? ==> profile == Some(fetched.value)
      ensures fetched.Fail? ==> profile == old(profile)
    {
      isLoaded := false;
      match fetched {
        case Ok(p) =>
          profile := Some(p);
          isLoaded := true;
        case Fail =>
      }
    }

    /** `loadBookings`: the whole list is replaced on success and kept on failure. */
    method LoadBookings(fetched: Outcome<seq<ProfileBooking>>)
      modifies this`bookings
      ensures bookings == ValueOr(fetched, old(bookings))
    {
      if fetched.Ok? {
        bookings := fetched.value;
      }
    }

    /**
     * `deleteBooking`: the list the repository returns is ignored; the bookings are
     * reloaded only once the delete has returned without throwing.
     */
    method DeleteBooking(deleted: Outcome<seq<ProfileBooking>>, reloaded: Outcome<seq<ProfileBooking>>)
      modifies this`bookings
      ensures deleted.Fail? ==> bookings == old(bookings)
      ensures deleted.Ok? ==> bookings == ValueOr(reloaded, old(bookings))
    {
      if deleted.Ok? {
        LoadBookings(reloaded);
      }
    }

    /** `checkBooking`: stores the checked booking; a failure leaves the dialog state as it was. */
    method CheckBooking(checked: Outcome<BookingCheck>)
      modifies this`bookingInfo
      ensures checked.Ok? ==> bookingInfo == Some(checked.value)
      ensures checked.Fail? ==> bookingInfo == old(bookingInfo)
    {
      if checked.Ok? {
        bookingInfo := Some(checked.value);
      }
    }
  }

  /** `rescheduleBooking`: the repository's result, or the id "-1" sentinel if it throws. */
  function RescheduleOrSentinel(result: Outcome<BookingWithOptions>): (r: BookingWithOptions)
    ensures result.Ok? ==> r == result.value
    ensures result.Fail? ==> r.id == "-1" && r.options == []
                             && r.userId == r.spotId == r.timeFrom == r.timeUntil == r.status == "1"
  {
    ValueOr(result, RescheduleSentinel)
  }

  /** The dialog scenario: check a booking, close the dialog, and a failed re-check keeps it closed. */
  method DialogScenario(checked: BookingCheck) returns (vm: ProfileViewModel)
    ensures vm.bookingInfo == None
  {
    vm := new ProfileViewModel(Ok(ProfileRepository.PlaceholderProfile));
    vm.CheckBooking(Ok(checked));
    assert vm.bookingInfo == Some(checked);
    vm.CloseDialog();
    vm.CheckBooking(Fail);
  }
}
