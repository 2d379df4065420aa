# BookIT core, modelled in Dafny

BookIT is an Android app for booking seats in a coworking space. Most of it is
Compose UI and Retrofit wiring. This project models the small decision and
state components inside it:

- the booking outcome classification and the degrade-to-default fallbacks of
  the booking repository, plus the booking request body;
- the fixed floor-plan table of `ShemeType1`;
- the paginated "all bookings" sheet;
- the profile repository's fallbacks and sentinel, and the profile view model's state;
- the request-signing interceptor;
- the auth session: the token store and sign-in flows of the auth repository,
  the auth view model's state machine, the login form's validation and button
  rule, and the Yandex result handler;
- the QR scanner's two-second debounce.

Modelling conventions:

- A remote call is a function parameter that returns `Outcome<T>`: `Ok(v)`, or
  `Fail` when the call throws.
- SharedPreferences is a `map<string, string>`.
- `serializeDateAndTime` and the `toDomain` mappers are not part of this model.
  They are passed in as uninterpreted function parameters.
- Each `viewModelScope.launch` or `LaunchedEffect` block is one atomic step.
  A step is split into two methods where the intermediate state matters
  (`isLoading` during a page fetch, `Loading` during sign-in).
- Components whose fields the app updates in place are classes:
  `AllBookingsSheet`, `ProfileViewModel`, `AuthRepositoryImpl`,
  `AuthViewModel`, `LoginForm` and `BarcodeAnalyzer`. Ghost fields record what
  the proofs need:
  - the pages loaded so far;
  - the states published so far;
  - the times codes were handed on.
- Kotlin's `String.toInt()` is `Text.ParseInt`:
  - an optional sign, then at least one ASCII digit;
  - the value must fit in a 32-bit `Int`;
  - anything else is `None`, which stands for the `NumberFormatException`.

Notes on the code's behaviour:

- On a conflict whose spot name has no numeric tail, `book` yields
  `Error(null)`, because the parse exception is caught by the method's own
  `catch`. See `BookingRepository.UnparsableNameGivesNoSpot`.
- The position parse accepts a sign after the name's first character: "A-5"
  gives position -5 and "A0" gives 0.
- The next page is requested for a displayed index greater than `size - 3`,
  that is, for the last two items shown.
- The interceptor skips any path that starts with "/users", or that starts
  with "/auth" but not with "/auth/me". Because `&&` binds tighter than `||`,
  this is the reading the code has. `AuthInterceptor.PrecedenceIrrelevant`
  shows that the other grouping gives the same answer.
- `ProfileViewModel.rescheduleBooking` has its own fallback record for a
  throwing repository. `ProfileRepositoryImpl.rescheduleBooking` catches every
  exception itself, so over that repository the view model's fallback is not
  reached.

## Model

| member | source | states |
|---|---|---|
| Text.ParseInt | app/src/main/java/com/prod/bookit/data/repository/BookingRepositoryImpl.kt:45 | a parsed value fits in a 32-bit `Int` and comes from a non-empty string starting with a digit or sign; "", "-" and "+" are refused |
| Text.NatToString | app/src/main/java/com/prod/bookit/presentation/screens/booking/shemes/ShemeType1.kt:36 | `Int.toString` of a non-negative number is a non-empty digit string with no leading zero whose value is the number |
| Text.ParseNatToString | app/src/main/java/com/prod/bookit/data/repository/BookingRepositoryImpl.kt:45 | printing a number up to `Int.MAX_VALUE` and parsing it gives the number back |
| Text.ParseNegatedNatToString | app/src/main/java/com/prod/bookit/data/repository/BookingRepositoryImpl.kt:45 | a '-' followed by the digits of n parses to -n, down to `Int.MIN_VALUE` |
| Text.ParseRejectsOverflow | app/src/main/java/com/prod/bookit/data/repository/BookingRepositoryImpl.kt:45 | `Int.MAX_VALUE + 1` is refused, not wrapped |
| Text.NatToStringInjective | app/src/main/java/com/prod/bookit/presentation/screens/booking/shemes/ShemeType1.kt:36 | distinct numbers print as distinct strings |
| Outcomes.MapSeq | app/src/main/java/com/prod/bookit/data/repository/BookingRepositoryImpl.kt:64 | `map` keeps the length and the order, applying the mapper to each element |
| Outcomes.Reverse | app/src/main/java/com/prod/bookit/presentation/screens/booking/AllBookingsBottomSheet.kt:137 | `reversed()` keeps the length and puts element i at position size-1-i |
| Outcomes.ReverseInvolutive | app/src/main/java/com/prod/bookit/presentation/screens/booking/AllBookingsBottomSheet.kt:137 | reversing twice gives the list back |
| Outcomes.FlattenAppend | app/src/main/java/com/prod/bookit/presentation/screens/booking/AllBookingsBottomSheet.kt:78-79 | appending one more page appends its items after all earlier ones |
| Models.DefaultFullBookingInfo | app/src/main/java/com/prod/bookit/presentation/models/FullBookingInfo.kt:6-17 | `FullBookingInfo()` has empty strings, position 1, photo URL "", today's date and two separate current-time readings as its start and end times |
| BookRequests.Create | app/src/main/java/com/prod/bookit/data/remote/dto/booking/BookRequestDto.kt:18-25 | `spotId` is copied unchanged; both bounds are serialised against the same date, so equal times give equal strings; no ordering of the bounds is checked |
| BookRequests.WireObject | app/src/main/java/com/prod/bookit/data/remote/dto/booking/BookRequestDto.kt:8-14 | the body has exactly the fields `spot_id`, `time_from` and `time_until`, holding the three values |
| BookRequests.WireObjectInjective | app/src/main/java/com/prod/bookit/data/remote/dto/booking/BookRequestDto.kt:8-14 | the wire body determines the request: no field is lost |
| BookingRepository.DropFirst | app/src/main/java/com/prod/bookit/data/repository/BookingRepositoryImpl.kt:45 | `drop(1)` removes the first character, and gives "" for "" |
| BookingRepository.NamePosition | app/src/main/java/com/prod/bookit/data/repository/BookingRepositoryImpl.kt:45 | a name of length at most 1 gives no position; a position fits in an `Int` |
| BookingRepository.PrefixedPosition | app/src/main/java/com/prod/bookit/data/repository/BookingRepositoryImpl.kt:45 | any one-character prefix followed by the digits of a position decodes to that position |
| BookingRepository.NamePositionExample | app/src/main/java/com/prod/bookit/data/repository/BookingRepositoryImpl.kt:45 | "A12" gives 12; "A", "" and "AB" give nothing |
| BookingRepository.ConflictSpot | app/src/main/java/com/prod/bookit/data/repository/BookingRepositoryImpl.kt:43-47 | a spot is reported exactly when `spot` is an object with primitive `id` and `name` and the name's tail parses; it has that id, that position, and is marked available |
| BookingRepository.Classify | app/src/main/java/com/prod/bookit/data/repository/BookingRepositoryImpl.kt:34-50 | `Success` exactly for a successful response; a transport failure, a missing body or a body that is not a JSON object gives `Error(null)`; a JSON-object body gives `Error(ConflictSpot(spot))` of its `spot` member, so `Error(spot)` exactly when that member decodes |
| BookingRepository.Book | app/src/main/java/com/prod/bookit/data/repository/BookingRepositoryImpl.kt:28-51 | the request built by `BookRequestDto.create` is posted once; `Success` exactly when it succeeded; a transport failure, a missing body or a non-object body gives `Error(null)`; a JSON-object body gives `Error` of the spot its `spot` member decodes to, or `Error(null)` when it does not decode |
| BookingRepository.ConflictExample | app/src/main/java/com/prod/bookit/data/repository/BookingRepositoryImpl.kt:41-47 | a rejection naming spot `{id: "S5", name: "A12"}` gives `Error(BookObject("S5", 12, true))` |
| BookingRepository.UnparsableNameGivesNoSpot | app/src/main/java/com/prod/bookit/data/repository/BookingRepositoryImpl.kt:45-49 | a name whose tail does not parse gives `Error(null)`, not an exception |
| BookingRepository.GetSpotsForCoworking | app/src/main/java/com/prod/bookit/data/repository/BookingRepositoryImpl.kt:53-68 | the query sends both bounds serialised against the same date; the result maps the server list in order, or is empty on any failure |
| BookingRepository.GetCurrentBookingForSpot | app/src/main/java/com/prod/bookit/data/repository/BookingRepositoryImpl.kt:70-76 | the server's booking mapped by `toDomain`, or exactly the default record `FullBookingInfo()` on any failure |
| BookingRepository.GetAllBookings | app/src/main/java/com/prod/bookit/data/repository/BookingRepositoryImpl.kt:78-84 | the page fetched with `count` and `page` passed by name, mapped in order, or empty on failure |
| BookingRepository.CancelBooking | app/src/main/java/com/prod/bookit/data/repository/BookingRepositoryImpl.kt:86-92 | cancelling always completes normally, whatever the DELETE does |
| FloorPlan.Row | app/src/main/java/com/prod/bookit/presentation/screens/booking/shemes/ShemeType1.kt:60-75 | one pass of the loop body draws three seats of one block: entries `first` and `first + 1` as singles, then `first + 2` as a double |
| FloorPlan.Rows | app/src/main/java/com/prod/bookit/presentation/screens/booking/shemes/ShemeType1.kt:52-76 | the loop draws three seats per row, in index order: two singles, then a double |
| FloorPlan.Layout | app/src/main/java/com/prod/bookit/presentation/screens/booking/shemes/ShemeType1.kt:52-146 | the plan draws 28 seats |
| FloorPlan.DrawPosition | app/src/main/java/com/prod/bookit/presentation/screens/booking/shemes/ShemeType1.kt:52-146 | each of the 28 entries has a drawing position inside the plan |
| FloorPlan.LayoutAt | app/src/main/java/com/prod/bookit/presentation/screens/booking/shemes/ShemeType1.kt:52-146 | the seat drawn at each of the 28 positions: left rows, quad 24, triple 25 (ltr), right rows, quad 26, triple 27 (not ltr) |
| FloorPlan.LeftRows | app/src/main/java/com/prod/bookit/presentation/screens/booking/shemes/ShemeType1.kt:52-76 | in left row i, entries 3i and 3i+1 are singles and 3i+2 is a double |
| FloorPlan.RightRows | app/src/main/java/com/prod/bookit/presentation/screens/booking/shemes/ShemeType1.kt:106-130 | in right row i, entries 3i+12 and 3i+13 are singles and 3i+14 is a double |
| FloorPlan.EveryEntryPlacedOnce | app/src/main/java/com/prod/bookit/presentation/screens/booking/shemes/ShemeType1.kt:52-146 | the plan has 28 seats; every entry 0..27 has a seat, and no two seats show the same entry |
| FloorPlan.CountWhereAppend | app/src/main/java/com/prod/bookit/presentation/screens/booking/shemes/ShemeType1.kt:52-146 | a count over two consecutive parts of the plan is the sum of their counts |
| FloorPlan.RowsCounts | app/src/main/java/com/prod/bookit/presentation/screens/booking/shemes/ShemeType1.kt:52-76 | n loop rows hold 2n singles, n doubles and no triples or quads |
| FloorPlan.LayoutCountSplit | app/src/main/java/com/prod/bookit/presentation/screens/booking/shemes/ShemeType1.kt:52-146 | a count over the plan is the sum over its left rows, left end seats, right rows and right end seats |
| FloorPlan.KindCount | app/src/main/java/com/prod/bookit/presentation/screens/booking/shemes/ShemeType1.kt:52-146 | a kind's count over the plan is its count over the eight loop rows plus its seats among the two quads and two triples |
| FloorPlan.SeatKindCounts | app/src/main/java/com/prod/bookit/presentation/screens/booking/shemes/ShemeType1.kt:52-146 | the plan has 16 singles, 8 doubles, 2 triples and 2 quads |
| FloorPlan.Render | app/src/main/java/com/prod/bookit/presentation/screens/booking/shemes/ShemeType1.kt:52-146 | with at least 28 objects, each drawn seat shows and passes on the same object |
| FloorPlan.ClickPassesEntry | app/src/main/java/com/prod/bookit/presentation/screens/booking/shemes/ShemeType1.kt:60-74 | clicking the seat drawn for entry k passes exactly `bookObjects[k]` |
| FloorPlan.DefaultBookObjects | app/src/main/java/com/prod/bookit/presentation/screens/booking/shemes/ShemeType1.kt:35-39 | the default list has 28 entries |
| FloorPlan.DefaultBookObjectsShape | app/src/main/java/com/prod/bookit/presentation/screens/booking/shemes/ShemeType1.kt:35-39 | entry i has an id that reads back as i, position i+1, and is not available; ids are distinct |
| AllBookings.AllBookingsSheet.constructor | app/src/main/java/com/prod/bookit/presentation/screens/booking/AllBookingsBottomSheet.kt:64-67 | the sheet starts at page 0 with no bookings, loading, and more pages expected |
| AllBookings.AllBookingsSheet.BeginLoad | app/src/main/java/com/prod/bookit/presentation/screens/booking/AllBookingsBottomSheet.kt:72 | `isLoading` is true while a page is fetched |
| AllBookings.AllBookingsSheet.FinishLoad | app/src/main/java/com/prod/bookit/presentation/screens/booking/AllBookingsBottomSheet.kt:73-86 | page 0 replaces the list; a later page is appended after the existing items; `hasMorePages` holds exactly when the page had 500 items; a failure changes neither; `isLoading` ends false; the list stays the concatenation of the pages loaded |
| AllBookings.AllBookingsSheet.OnLoadMore | app/src/main/java/com/prod/bookit/presentation/screens/booking/AllBookingsBottomSheet.kt:100 | the page number goes up by exactly one |
| AllBookings.AllBookingsSheet.Displayed | app/src/main/java/com/prod/bookit/presentation/screens/booking/AllBookingsBottomSheet.kt:137 | the list is shown newest first: item i is booking size-1-i |
| AllBookings.AllBookingsSheet.RequestsMore | app/src/main/java/com/prod/bookit/presentation/screens/booking/AllBookingsBottomSheet.kt:149-151 | the next page is requested exactly for an index above size-3 while not loading and more pages may exist; such an item is one of the two earliest bookings |
| AllBookings.TwoPages | app/src/main/java/com/prod/bookit/presentation/screens/booking/AllBookingsBottomSheet.kt:64-100 | after a full page 0 and then page 1, the list is both pages in order, page 1's last item is shown first, and more pages are expected exactly when page 1 was full |
| ProfileRepository.GetProfile | app/src/main/java/com/prod/bookit/data/repository/ProfileRepositoryImpl.kt:16-32 | the server's profile, or the placeholder ("1", "Неизвестно", "", false, "Неизвестно") on any failure |
| ProfileRepository.GetBookings | app/src/main/java/com/prod/bookit/data/repository/ProfileRepositoryImpl.kt:34-40 | the server list mapped in order, or empty on failure |
| ProfileRepository.DeleteBooking | app/src/main/java/com/prod/bookit/data/repository/ProfileRepositoryImpl.kt:42-50 | after a successful cancel, the list fetched afresh; after a failed cancel, an empty list |
| ProfileRepository.CheckBooking | app/src/main/java/com/prod/bookit/data/repository/ProfileRepositoryImpl.kt:52-54 | a failure of the call reaches the caller; otherwise the call's result is returned |
| ProfileRepository.RescheduleBooking | app/src/main/java/com/prod/bookit/data/repository/ProfileRepositoryImpl.kt:56-79 | the new times are sent unchanged; on failure the sentinel with id "-1", every other string "1" and no options is returned |
| ProfileRepository.SentinelAmbiguous | app/src/main/java/com/prod/bookit/data/repository/ProfileRepositoryImpl.kt:67-78 | a server record equal to the sentinel cannot be told apart from a failure |
| ProfileRepository.ChangeUserInfoCall | app/src/main/java/com/prod/bookit/data/repository/ProfileRepositoryImpl.kt:81-87 | the change call never throws |
| ProfileViewModels.ProfileViewModel.constructor | app/src/main/java/com/prod/bookit/presentation/viewModels/ProfileViewModel.kt:18-32 | construction starts empty and runs `loadProfile`; no dialog is open |
| ProfileViewModels.ProfileViewModel.CloseDialog | app/src/main/java/com/prod/bookit/presentation/viewModels/ProfileViewModel.kt:34-38 | the dialog's booking is cleared |
| ProfileViewModels.ProfileViewModel.LoadProfile | app/src/main/java/com/prod/bookit/presentation/viewModels/ProfileViewModel.kt:40-52 | `isLoaded` ends true exactly when a profile was returned and stored; a failure keeps the old profile |
| ProfileViewModels.ProfileViewModel.LoadBookings | app/src/main/java/com/prod/bookit/presentation/viewModels/ProfileViewModel.kt:65-73 | the list is replaced on success and kept on failure |
| ProfileViewModels.ProfileViewModel.DeleteBooking | app/src/main/java/com/prod/bookit/presentation/viewModels/ProfileViewModel.kt:54-63 | the bookings are reloaded only once the delete has returned |
| ProfileViewModels.ProfileViewModel.CheckBooking | app/src/main/java/com/prod/bookit/presentation/viewModels/ProfileViewModel.kt:75-83 | the checked booking is stored on success; a failure leaves the dialog state unchanged |
| ProfileViewModels.RescheduleOrSentinel | app/src/main/java/com/prod/bookit/presentation/viewModels/ProfileViewModel.kt:95-113 | the repository's result, or, if it throws, the record with id "-1", every other string "1" and no options |
| ProfileViewModels.DialogScenario | app/src/main/java/com/prod/bookit/presentation/viewModels/ProfileViewModel.kt:34-38 | check, close, then a failed re-check leaves the dialog closed |
| AuthInterceptor.SkipsAuthorization | app/src/main/java/com/prod/bookit/data/remote/api/interceptors/AuthInterceptor.kt:17-19 | only paths starting with "/users" or "/auth" are forwarded without the token |
| AuthInterceptor.PrecedenceIrrelevant | app/src/main/java/com/prod/bookit/data/remote/api/interceptors/AuthInterceptor.kt:17-19 | grouping the condition either way gives the same paths, since none starts with both "/users" and "/auth/me" |
| AuthInterceptor.SignedPaths | app/src/main/java/com/prod/bookit/data/remote/api/interceptors/AuthInterceptor.kt:17-22 | "/users…" and "/auth…" other than "/auth/me…" are not signed; "/auth/me…" and every other path are |
| AuthInterceptor.BearerCredentials | app/src/main/java/com/prod/bookit/data/remote/api/interceptors/AuthInterceptor.kt:33 | the header value is "Bearer " followed by the token |
| AuthInterceptor.BearerCredentialsInjective | app/src/main/java/com/prod/bookit/data/remote/api/interceptors/AuthInterceptor.kt:33 | distinct tokens give distinct header values |
| AuthInterceptor.Intercept | app/src/main/java/com/prod/bookit/data/remote/api/interceptors/AuthInterceptor.kt:11-38 | the path is kept; `accept` and `Content-Type` are set to `application/json`; every other header keeps its value; `Authorization: Bearer <token>` is set exactly on a signed path with a stored token, and otherwise an incoming `Authorization` header is kept; no other header is added |
| AuthRepository.DeviceTokenCalls | app/src/main/java/com/prod/bookit/data/repository/AuthRepositoryImpl.kt:105-108 | the device token is sent, with device type "android", exactly when an FCM token is stored |
| AuthRepository.AuthRepositoryImpl.constructor | app/src/main/java/com/prod/bookit/data/repository/AuthRepositoryImpl.kt:26-31 | the repository works on the given preferences |
| AuthRepository.AuthRepositoryImpl.GetToken | app/src/main/java/com/prod/bookit/data/repository/AuthRepositoryImpl.kt:127-129 | the value stored under "jwt_token", or null when there is none |
| AuthRepository.AuthRepositoryImpl.GetFcmToken | app/src/main/java/com/prod/bookit/data/repository/AuthRepositoryImpl.kt:110-112 | throws exactly when no FCM token is stored, and otherwise returns the stored one |
| AuthRepository.AuthRepositoryImpl.SaveToken | app/src/main/java/com/prod/bookit/data/repository/AuthRepositoryImpl.kt:123-125 | afterwards `getToken` returns the saved token; the FCM token is untouched |
| AuthRepository.AuthRepositoryImpl.ClearToken | app/src/main/java/com/prod/bookit/data/repository/AuthRepositoryImpl.kt:131-133 | afterwards `getToken` returns null; the FCM token is untouched |
| AuthRepository.AuthRepositoryImpl.SaveFcmToken | app/src/main/java/com/prod/bookit/data/repository/AuthRepositoryImpl.kt:114-116 | afterwards `getFcmToken` returns the saved token; the JWT is untouched |
| AuthRepository.AuthRepositoryImpl.SendDeviceToken | app/src/main/java/com/prod/bookit/data/repository/AuthRepositoryImpl.kt:105-108 | without an FCM token nothing is sent and it throws; otherwise the stored token is sent with "android" |
| AuthRepository.AuthRepositoryImpl.HandleAuthResponse | app/src/main/java/com/prod/bookit/data/repository/AuthRepositoryImpl.kt:118-121 | the response's token is stored and the result is always true |
| AuthRepository.AuthRepositoryImpl.SignIn | app/src/main/java/com/prod/bookit/data/repository/AuthRepositoryImpl.kt:70-84 | success exactly when the sign-in call succeeded; then the token is stored and the device token sent, whose failure is ignored; on failure nothing is stored |
| AuthRepository.AuthRepositoryImpl.Login | app/src/main/java/com/prod/bookit/data/repository/AuthRepositoryImpl.kt:69-85 | true exactly when the login call succeeded, and then `getToken` returns its token, even if the device token cannot be sent; if the call throws the stored JWT is unchanged |
| AuthRepository.AuthRepositoryImpl.SignInWithYandex | app/src/main/java/com/prod/bookit/data/repository/AuthRepositoryImpl.kt:87-103 | the same flow with the Yandex token |
| AuthRepository.AuthRepositoryImpl.Register | app/src/main/java/com/prod/bookit/data/repository/AuthRepositoryImpl.kt:32-67 | the avatar load, if any, comes first and a failed load registers with a null URL; registration is sent before the login and a failed registration stops before it; true exactly when both succeed; nothing done earlier is undone on failure |
| AuthRepository.SavedTokenIsSent | app/src/main/java/com/prod/bookit/data/remote/api/interceptors/AuthInterceptor.kt:25-35 | the interceptor reads the key the repository writes: a saved token is sent as Bearer credentials on every signed path |
| AuthRepository.ClearedTokenIsNotSent | app/src/main/java/com/prod/bookit/data/repository/AuthRepositoryImpl.kt:131-133 | after the token is cleared, the interceptor adds only the two JSON headers |
| AuthViewModels.AfterAction | app/src/main/java/com/prod/bookit/presentation/viewModels/AuthViewModel.kt:48-58 | `Authorized` exactly when the action returned true; `Error("Authentication failed")` when it returned false; the exception's message, or "An unexpected error occurred", when it threw; never `Loading` or `Unauthorized` |
| AuthViewModels.AuthViewModel.constructor | app/src/main/java/com/prod/bookit/presentation/viewModels/AuthViewModel.kt:18 | the initial state is `Unauthorized` |
| AuthViewModels.AuthViewModel.BeginAuthAction | app/src/main/java/com/prod/bookit/presentation/viewModels/AuthViewModel.kt:46 | `Loading` is published before the action runs |
| AuthViewModels.AuthViewModel.EndAuthAction | app/src/main/java/com/prod/bookit/presentation/viewModels/AuthViewModel.kt:48-58 | the state published after the action is the one `AfterAction` gives |
| AuthViewModels.AuthViewModel.Login | app/src/main/java/com/prod/bookit/presentation/viewModels/AuthViewModel.kt:21-27 | `Loading`, then `Authorized` exactly when the login call succeeded, with the store updated only by the new JWT; otherwise `Error("Authentication failed")` with the store unchanged |
| AuthViewModels.AuthViewModel.Register | app/src/main/java/com/prod/bookit/presentation/viewModels/AuthViewModel.kt:29-35 | the same transition: `Authorized` exactly when registration and login both succeeded, with the store updated only by the new JWT; otherwise `Error("Authentication failed")` with the store unchanged |
| AuthViewModels.AuthViewModel.SignInWithYandex | app/src/main/java/com/prod/bookit/presentation/viewModels/AuthViewModel.kt:37-43 | the same transition around the Yandex sign-in, with the store updated only by the new JWT on success and unchanged on failure |
| AuthViewModels.AuthViewModel.Logout | app/src/main/java/com/prod/bookit/presentation/viewModels/AuthViewModel.kt:61-64 | from any state `Unauthorized` is published and only the `jwt_token` key is removed from the store; every other key, the FCM token included, is kept |
| AuthViewModels.SignInThenLogOut | app/src/main/java/com/prod/bookit/presentation/viewModels/AuthViewModel.kt:18-64 | the states published are Unauthorized, Loading, Authorized, Unauthorized, and no token remains |
| LoginScreen.ValidateEmail | app/src/main/java/com/prod/bookit/presentation/screens/welcome/login/LoginScreen.kt:296-302 | no error exactly for a non-empty e-mail containing '@'; the emptiness error takes precedence over the format error |
| LoginScreen.ValidatePassword | app/src/main/java/com/prod/bookit/presentation/screens/welcome/login/LoginScreen.kt:304-310 | no error exactly for at least six characters; empty gives the emptiness error, 1 to 5 characters the too-short error |
| LoginScreen.ValidatorsStayInTheirField | app/src/main/java/com/prod/bookit/presentation/screens/welcome/login/LoginScreen.kt:296-310 | each validator reports only its own field's messages, never the invalid-data one |
| LoginScreen.LoginForm.constructor | app/src/main/java/com/prod/bookit/presentation/screens/welcome/login/LoginScreen.kt:127-131 | the form starts with empty fields and no errors |
| LoginScreen.LoginForm.OnEmailChange | app/src/main/java/com/prod/bookit/presentation/screens/welcome/login/LoginScreen.kt:156-159 | the e-mail is stored and only its own error re-validated |
| LoginScreen.LoginForm.OnPasswordChange | app/src/main/java/com/prod/bookit/presentation/screens/welcome/login/LoginScreen.kt:162-165 | the password is stored and only its own error re-validated |
| LoginScreen.LoginForm.OnAuthState | app/src/main/java/com/prod/bookit/presentation/screens/welcome/login/LoginScreen.kt:135-140 | an `Error` state sets both field errors to invalid data; other states change nothing |
| LoginScreen.LoginForm.IsButtonEnabled | app/src/main/java/com/prod/bookit/presentation/screens/welcome/login/LoginScreen.kt:142-145 | an enabled button means no sign-in in progress, no errors shown, an e-mail with '@' and a password of six or more characters; accepted, error-free fields enable it |
| LoginScreen.EditOneFieldAfterError | app/src/main/java/com/prod/bookit/presentation/screens/welcome/login/LoginScreen.kt:135-165 | after an `Error`, editing only the e-mail leaves the password error in place and the button disabled |
| LoginScreen.EditBothFieldsAfterError | app/src/main/java/com/prod/bookit/presentation/screens/welcome/login/LoginScreen.kt:135-165 | after an `Error`, editing both fields to accepted values enables the button again, unless a sign-in is in progress |
| YandexAuth.HandleYandexAuthResult | app/src/main/java/com/prod/bookit/presentation/screens/welcome/register/handleYandexAuthResult.kt:6-10 | a token exactly for `Success`, and it is that result's token; `Failure` and `Cancelled` give null |
| BarcodeAnalysis.Gate | app/src/main/java/com/prod/bookit/presentation/screens/qrScan/BarcodeAnalyser.kt:33-41 | a code is handed on exactly when strictly more than 2000 ms have passed and the first barcode has a raw value, and it is that value |
| BarcodeAnalysis.BarcodeAnalyzer.constructor | app/src/main/java/com/prod/bookit/presentation/screens/qrScan/BarcodeAnalyser.kt:19 | `lastScannedTime` starts at 0, with nothing handed on |
| BarcodeAnalysis.BarcodeAnalyzer.Analyze | app/src/main/java/com/prod/bookit/presentation/screens/qrScan/BarcodeAnalyser.kt:21-49 | every frame is closed; a frame without an image or a failed scan hands nothing on; at most one code per frame; `lastScannedTime` changes only when a code is handed on; any two codes handed on are more than 2000 ms apart |
| BarcodeAnalysis.SameCodeTwice | app/src/main/java/com/prod/bookit/presentation/screens/qrScan/BarcodeAnalyser.kt:33-41 | one code in view on two frames one second apart is handed on once |

## Left out

- Compose rendering is not modelled. This covers dp arithmetic, walls,
  padding, cards, dialogs, previews and the `BookingCard` list items. The
  floor plan is modelled only as its table of entries, kinds and blocks.
- JSON parsing is not modelled. The booking error body is an abstract value:
  not a JSON object, or an object whose `spot` member is absent, not an
  object, or an object with optional `id` and `name` members.
- `serializeDateAndTime`, the `toDomain` mappers and `BookingViewModel` are not
  part of this model. They are parameters, so no timestamp round trip is stated.
- `LocalDate.now()` and the two `LocalTime.now()` calls in `FullBookingInfo()`,
  and `System.currentTimeMillis()` in the analyser, are parameters, one per
  clock reading.
- Coroutines are not modelled. Each launched block is one atomic step, and
  interleavings of concurrent blocks are not considered.
- `Text.ParseInt` accepts ASCII digits only. Java also accepts other Unicode
  decimal digits.
- String lengths count Dafny characters, whereas Kotlin counts UTF-16 code
  units. The two differ only for characters outside the Basic Multilingual
  Plane.
- `AuthInterceptor.Intercept` treats header names as exact strings. OkHttp
  compares them case-insensitively.
- `BarcodeAnalysis.Gate` does not model the 64-bit `Long` overflow of
  `currentTime - lastScannedTime`, which needs clock readings near ±2^63.
- The camera, ML Kit scanner setup, permission handling and the Yandex SDK
  launch are not modelled. A frame's scan result and the Yandex result are
  inputs.
- The avatar's temporary-file copy and multipart upload are not modelled.
  They are one call, `loadImage`, that yields a URL or null.
- `Log` calls and `printStackTrace` are not modelled.
- `ProfileViewModel.changeUserInfo` changes no view-model state. Only the
  repository call it makes is modelled, as `ProfileRepository.ChangeUserInfoCall`.
- The declarations of `UserProfile`, `ProfileBookingModel`, `BookingCheckDto`,
  `BookingWithOptionsDto` and `AuthResponse` are not part of this model. Their
  field names follow the order of the constructor calls.
- `AllBookings.AllBookingsSheet.RequestsMore` states when the request is made,
  not that `LaunchedEffect(Unit)` runs once per list item.
