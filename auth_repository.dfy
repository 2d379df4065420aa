/**
 * `AuthRepositoryImpl`: the session's key-value store (the app's
 * SharedPreferences, a string map here) holding the JWT under "jwt_token" and
 * the push-notification token under "fcm_token", and the three sign-in flows.
 *
 * Each flow is a sequence of remote calls; a call is given as a function from
 * its request to its outcome (`Fail` = the call threw). The flows return the
 * calls they issued, in order, beside their Boolean result, so the order of
 * the steps and what was sent can be stated.
 */
module AuthRepository {
  import opened Outcomes
  import AuthInterceptor

  const JwtTokenKey: string := "jwt_token"
  const FcmTokenKey: string := "fcm_token"

  /** The device type sent with the push-notification token. */
  const DeviceType: string := "android"

  datatype LoginRequest = LoginRequest(email: string, password: string)

  /** `RegisterRequestDto`; `avatarUrl` is `null` when no avatar was uploaded. */
  datatype RegisterRequest = RegisterRequest(email: string, fullName: string, password: string,
                                             isBusiness: bool, avatarUrl: Option<string>)

  datatype NotificationsRequest = NotificationsRequest(token: string, deviceType: string)

  /** `AuthResponse`: what a successful sign-in returns. */
  datatype AuthResponse = AuthResponse(token: string)

  /** One remote step of a flow, with what it sent. */
  datatype ApiCall =
    | LoadImage(uri: string)
    | RegisterCall(register: RegisterRequest)
    | LoginCall(login: LoginRequest)
    | YandexCall(yandexToken: string)
    | DeviceTokenCall(device: NotificationsRequest)

  /** The calls `sendDeviceToken` issues from a store: none when no FCM token is stored. */
  function DeviceTokenCalls(prefs: map<string, string>): (calls: seq<ApiCall>)
    ensures FcmTokenKey !in prefs <==> calls == []
    ensures FcmTokenKey in prefs ==> calls == [DeviceTokenCall(NotificationsRequest(prefs[FcmTokenKey], DeviceType))]
  {
    if FcmTokenKey in prefs then [DeviceTokenCall(NotificationsRequest(prefs[FcmTokenKey], DeviceType))] else []
  }

  class AuthRepositoryImpl {
    /** The SharedPreferences the repository writes. */
    var prefs: map<string, string>

    constructor (stored: map<string, string>)
      ensures prefs == stored
    {
      prefs := stored;
    }

    /** `getToken`: the stored JWT, or null. */
    function GetToken(): (token: Option<string>)
      reads this
      ensures token.Some? <==> JwtTokenKey in prefs
      ensures token.Some? ==> token.value == prefs[JwtTokenKey]
    {
      if JwtTokenKey in prefs then Some(prefs[JwtTokenKey]) else None
    }

    /** `getFcmToken`: the stored FCM token; with none stored it throws `IllegalStateException`. */
    function GetFcmToken(): (token: Outcome<string>)
      reads this
      ensures token.Fail? <==> FcmTokenKey !in prefs
      ensures token.Ok? ==> token.value == prefs[FcmTokenKey]
    {
      if FcmTokenKey in prefs then Ok(prefs[FcmTokenKey]) else Fail
    }

    /** `saveToken`: afterwards `getToken` returns `token`; the FCM token is untouched. */
    method SaveToken(token: string)
      modifies this`prefs
      ensures prefs == old(prefs)[JwtTokenKey := token]
      ensures GetToken() == Some(token)
      ensures GetFcmToken() == old(GetFcmToken())
    {
      prefs := prefs[JwtTokenKey := token];
    }

    /** `clearToken`: afterwards `getToken` returns null; the FCM token is untouched. */
    method ClearToken()
      modifies this`prefs
      ensures prefs == old(prefs) - {JwtTokenKey}
      ensures GetToken() == None
      ensures GetFcmToken() == old(GetFcmToken())
    {
      prefs := prefs - {JwtTokenKey};
    }

    /** `saveFcmToken`: afterwards `getFcmToken` returns `token`; the JWT is untouched. */
    method SaveFcmToken(token: string)
      modifies this`prefs
      ensures prefs == old(prefs)[FcmTokenKey := token]
      ensures GetFcmToken() == Ok(token)
      ensures GetToken() == old(GetToken())
    {
      prefs := prefs[FcmTokenKey := token];
    }

    /**
     * `sendDeviceToken`: sends the stored FCM token with device type "android".
     * Without a stored FCM token nothing is sent and it throws.
     */
    method SendDeviceToken(send: NotificationsRequest -> Outcome<()>) returns (r: Outcome<()>, calls: seq<ApiCall>)
      ensures calls == DeviceTokenCalls(prefs)
      ensures FcmTokenKey !in prefs ==> r.Fail?
      ensures FcmTokenKey in prefs ==> r == send(NotificationsRequest(prefs[FcmTokenKey], DeviceType))
    {
      match GetFcmToken() {
        case Fail =>
          r, calls := Fail, [];
        case Ok(token) =>
          var request := NotificationsRequest(token, DeviceType);
          r, calls := send(request), [DeviceTokenCall(request)];
      }
    }

    /** `handleAuthResponse`: stores the response's token and always reports success. */
    method HandleAuthResponse(response: AuthResponse) returns (r: bool)
      modifies this`prefs
      ensures r
      ensures prefs == old(prefs)[JwtTokenKey := response.token]
    {
      SaveToken(response.token);
      r := true;
    }

    /**
     * The part `login`, `signInWithYandex` and the end of `register` share: the
     * sign-in call `first` returned `response`; on success the token is stored and
     * the device token is sent, whose failure is ignored; on failure the result is
     * false and nothing is stored.
     */
    method SignIn(first: ApiCall, response: Outcome<AuthResponse>, send: NotificationsRequest -> Outcome<()>)
      returns (ok: bool, calls: seq<ApiCall>)
      modifies this`prefs
      ensures ok <==> response.Ok?
      ensures response.Fail? ==> prefs == old(prefs) && calls == [first]
      ensures response.Ok? ==>
        && prefs == old(prefs)[JwtTokenKey := response.value.token]
        && calls == [first] + DeviceTokenCalls(old(prefs))
    {
      calls := [first];
      match response {
        case Fail =>
          ok := false;
        case Ok(auth) =>
          ok := HandleAuthResponse(auth);
          var sent, deviceCalls := SendDeviceToken(send);
          calls := calls + deviceCalls;
      }
    }

    /** `login`. */
    method Login(email: string, password: string,
                 login: LoginRequest -> Outcome<AuthResponse>, send: NotificationsRequest -> Outcome<()>)
      returns (ok: bool, calls: seq<ApiCall>)
      modifies this`prefs
      ensures var response := login(LoginRequest(email, password));
        && (ok <==> response.Ok?)
        && (response.Fail? ==> prefs == old(prefs) && calls == [LoginCall(LoginRequest(email, password))])
        && (response.Ok? ==>
              && GetToken() == Some(response.value.token)
              && prefs == old(prefs)[JwtTokenKey := response.value.token]
              && calls == [LoginCall(LoginRequest(email, password))] + DeviceTokenCalls(old(prefs)))
    {
      var request := LoginRequest(email, password);
      ok, calls := SignIn(LoginCall(request), login(request), send);
    }

    /** `signInWithYandex`: the same flow with the Yandex OAuth token. */
    method SignInWithYandex(token: string,
                            signIn: string -> Outcome<AuthResponse>, send: NotificationsRequest -> Outcome<()>)
      returns (ok: bool, calls: seq<ApiCall>)
      modifies this`prefs
      ensures var response := signIn(token);
        && (ok <==> response.Ok?)
        && (response.Fail? ==> prefs == old(prefs) && calls == [YandexCall(token)])
        && (response.Ok? ==>
              && GetToken() == Some(response.value.token)
              && prefs == old(prefs)[JwtTokenKey := response.value.token]
              && calls == [YandexCall(token)] + DeviceTokenCalls(old(prefs)))
    {
      ok, calls := SignIn(YandexCall(token), signIn(token), send);
    }

    /**
     * `register`: when an avatar is given it is uploaded first (`loadImage`
     * catches its own failures, giving null); then the account is created with
     * that URL, then the flow signs in with the same e-mail and password. A
     * failed registration stops the flow before the sign-in; nothing done
     * before the failure is undone.
     */
    method Register(email: string, password: string, fullName: string, avatarUri: Option<string>, isAdmin: bool,
                    loadImage: string -> Option<string>,
                    register: RegisterRequest -> Outcome<()>,
                    login: LoginRequest -> Outcome<AuthResponse>,
                    send: NotificationsRequest -> Outcome<()>)
      returns (ok: bool, calls: seq<ApiCall>)
      modifies this`prefs
      ensures var avatarUrl := if avatarUri.Some? then loadImage(avatarUri.value) else None;
        var upload := if avatarUri.Some? then [LoadImage(avatarUri.value)] else [];
        var request := RegisterRequest(email, fullName, password, isAdmin, avatarUrl);
        var response := login(LoginRequest(email, password));
        && (ok <==> register(request).Ok? && response.Ok?)
        && (register(request).Fail? ==> prefs == old(prefs) && calls == upload + [RegisterCall(request)])
        && (register(request).Ok? && response.Fail? ==>
              && prefs == old(prefs)
              && calls == upload + [RegisterCall(request), LoginCall(LoginRequest(email, password))])
        && (ok ==>
              && GetToken() == Some(response.value.token)
              && prefs == old(prefs)[JwtTokenKey := response.value.token]
              && calls == upload + [RegisterCall(request), LoginCall(LoginRequest(email, password))]
                          + DeviceTokenCalls(old(prefs)))
    {
      var avatarUrl: Option<string> := None;
      calls := [];
      if avatarUri.Some? {
        avatarUrl := loadImage(avatarUri.value);
        calls := [LoadImage(avatarUri.value)];
      }
      var request := RegisterRequest(email, fullName, password, isAdmin, avatarUrl);
      calls := calls + [RegisterCall(request)];
      if register(request).Fail? {
        ok := false;
        return;
      }
      var loginRequest := LoginRequest(email, password);
      var signInCalls;
      ok, signInCalls := SignIn(LoginCall(loginRequest), login(loginRequest), send);
      calls := calls + signInCalls;
    }
  }

  /**
   * The interceptor reads the token under the key the repository writes: once a
   * token is saved, every request outside the account endpoints carries it as
   * its Bearer credentials.
   */
  lemma SavedTokenIsSent(prefs: map<string, string>, token: string, request: AuthInterceptor.Request)
    requires !AuthInterceptor.SkipsAuthorization(request.path)
    ensures var forwarded := AuthInterceptor.Intercept(request, prefs[JwtTokenKey := token]);
      "Authorization" in forwarded.headers && forwarded.headers["Authorization"] == AuthInterceptor.BearerCredentials(token)
  {
    assert AuthInterceptor.TokenKey == JwtTokenKey;
  }

  /** Once the token is cleared, the interceptor adds only the two JSON headers. */
  lemma ClearedTokenIsNotSent(prefs: map<string, string>, request: AuthInterceptor.Request)
    ensures AuthInterceptor.Intercept(request, prefs - {JwtTokenKey}).headers.Keys
         == request.headers.Keys + {"accept", "Content-Type"}
  {
    assert AuthInterceptor.TokenKey !in prefs - {JwtTokenKey};
  }
}
