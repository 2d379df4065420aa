/**
 * `AuthViewModel`: the sign-in state machine. Every auth action publishes
 * `Loading`, runs the repository flow, then publishes `Authorized` or `Error`;
 * `logout` clears the stored token and publishes `Unauthorized`.
 *
 * The launched block of each action is one atomic step here; it is split at the
 * repository call so that `Loading` is visibly published before the call.
 */
module AuthViewModels {
  import opened Outcomes
  import opened AuthRepository

  datatype AuthState = Loading | Authorized | Unauthorized | Error(message: string)

  /** How an action ended: it returned a Boolean, or it threw an exception with an optional message. */
  datatype ActionOutcome = Returned(success: bool) | Threw(message: Option<string>)

  const AuthenticationFailed: string := "Authentication failed"
  const UnexpectedError: string := "An unexpected error occurred"

  /** The state `handleAuthAction` publishes once the action has ended. */
  function AfterAction(outcome: ActionOutcome): (state: AuthState)
    ensures !state.Loading? && !state.Unauthorized?
    ensures state.Authorized? <==> outcome == Returned(true)
    ensures outcome == Returned(false) ==> state == Error(AuthenticationFailed)
    ensures outcome.Threw? && outcome.message.Some? ==> state == Error(outcome.message.value)
    ensures outcome == Threw(None) ==> state == Error(UnexpectedError)
  {
    match outcome
    case Returned(success) => if success then Authorized else Error(AuthenticationFailed)
    case Threw(message) => Error(if message.Some? then message.value else UnexpectedError)
  }

  class AuthViewModel {
    /** `_authState`. */
    var authState: AuthState

    /** Every state published so far, oldest first. */
    ghost var published: seq<AuthState>

    const repository: AuthRepositoryImpl

    ghost predicate Valid()
      reads this
    {
      |published| > 0 && published[|published| - 1] == authState
    }

    constructor (repository: AuthRepositoryImpl)
      ensures Valid()
      ensures this.repository == repository
      ensures authState == Unauthorized && published == [Unauthorized]
    {
      this.repository := repository;
      authState := Unauthorized;
      published := [Unauthorized];
    }

    /** The first statement of `handleAuthAction`, before the action runs. */
    method BeginAuthAction()
      requires Valid()
      modifies this`authState, this`published
      ensures Valid()
      ensures authState == Loading && published == old(published) + [Loading]
    {
      authState := Loading;
      published := published + [Loading];
    }

    /** The rest of `handleAuthAction`, once the action has returned or thrown. */
    method EndAuthAction(outcome: ActionOutcome)
      requires Valid()
      modifies this`authState, this`published
      ensures Valid()
      ensures authState == AfterAction(outcome) && published == old(published) + [authState]
    {
      authState := AfterAction(outcome);
      published := published + [authState];
    }

    /** `login`: `Loading`, then `Authorized` exactly when the sign-in call succeeded. */
    method Login(email: string, password: string,
                 login: LoginRequest -> Outcome<AuthResponse>, send: NotificationsRequest -> Outcome<()>)
      requires Valid()
      modifies this`authState, this`published, repository`prefs
      ensures Valid()
      ensures var response := login(LoginRequest(email, password));
        && published == old(published) + [Loading, authState]
        && (authState == Authorized <==> response.Ok?)
        && (response.Ok? ==> repository.prefs == old(repository.prefs)[JwtTokenKey := response.value.token])
        && (response.Fail? ==> authState == Error(AuthenticationFailed) && repository.prefs == old(repository.prefs))
    {
      BeginAuthAction();
      var ok, calls := repository.Login(email, password, login, send);
      EndAuthAction(Returned(ok));
    }

    /** `register`: the same transition around the registration flow. */
    method Register(email: string, password: string, fullName: string, avatarUri: Option<string>, isAdmin: bool,
                    loadImage: string -> Option<string>,
                    register: RegisterRequest -> Outcome<()>,
                    login: LoginRequest -> Outcome<AuthResponse>,
                    send: NotificationsRequest -> Outcome<()>)
      requires Valid()
      modifies this`authState, this`published, repository`prefs
      ensures Valid()
      ensures var avatarUrl := if avatarUri.Some? then loadImage(avatarUri.value) else None;
        var registered := register(RegisterRequest(email, fullName, password, isAdmin, avatarUrl));
        var response := login(LoginRequest(email, password));
        && published == old(published) + [Loading, authState]
        && (authState == Authorized <==> registered.Ok? && response.Ok?)
        && (authState == Authorized ==> repository.prefs == old(repository.prefs)[JwtTokenKey := response.value.token])
        && (authState != Authorized ==> authState == Error(AuthenticationFailed) && repository.prefs == old(repository.prefs))
    {
      BeginAuthAction();
      var ok, calls := repository.Register(email, password, fullName, avatarUri, isAdmin, loadImage, register, login, send);
      EndAuthAction(Returned(ok));
    }

    /** `signInWithYandex`: the same transition around the Yandex sign-in flow. */
    method SignInWithYandex(token: string,
                            signIn: string -> Outcome<AuthResponse>, send: NotificationsRequest -> Outcome<()>)
      requires Valid()
      modifies this`authState, this`published, repository`prefs
      ensures Valid()
      ensures var response := signIn(token);
        && published == old(published) + [Loading, authState]
        && (authState == Authorized <==> response.Ok?)
        && (response.Ok? ==> repository.prefs == old(repository.prefs)[JwtTokenKey := response.value.token])
        && (response.Fail? ==> authState == Error(AuthenticationFailed) && repository.prefs == old(repository.prefs))
    {
      BeginAuthAction();
      var ok, calls := repository.SignInWithYandex(token, signIn, send);
      EndAuthAction(Returned(ok));
    }

    /** `logout`: from any state, the token is cleared and `Unauthorized` published. */
    method Logout()
      requires Valid()
      modifies this`authState, this`published, repository`prefs
      ensures Valid()
      ensures authState == Unauthorized && published == old(published) + [Unauthorized]
      ensures repository.prefs == old(repository.prefs) - {JwtTokenKey}
      ensures repository.GetToken() == None
      ensures repository.GetFcmToken() == old(repository.GetFcmToken())
    {
      repository.ClearToken();
      authState := Unauthorized;
      published := published + [Unauthorized];
    }
  }

  /** A session: sign in with a server that accepts, then log out. */
  method SignInThenLogOut(stored: map<string, string>, email: string, password: string, token: string)
    returns (vm: AuthViewModel)
    ensures vm.published == [Unauthorized, Loading, Authorized, Unauthorized]
    ensures vm.repository.GetToken() == None
  {
    var repository := new AuthRepositoryImpl(stored);
    vm := new AuthViewModel(repository);
    vm.Login(email, password, _ => Ok(AuthResponse(token)), _ => Ok(()));
    assert vm.authState == Authorized;
    assert vm.repository.GetToken() == Some(token);
    vm.Logout();
  }
}
