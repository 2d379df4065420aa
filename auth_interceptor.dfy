/**
 * `AuthInterceptor`: the OkHttp interceptor every request passes through. It sets
 * the JSON `accept` and `Content-Type` headers and, except on the account
 * endpoints, adds `Authorization: Bearer <token>` (the header form of section 2.1
 * of RFC 6750) with the token stored under "jwt_token".
 */
module AuthInterceptor {
  import opened Text

  /** A request as the interceptor sees it: the URL's encoded path and the headers by name. */
  datatype Request = Request(path: string, headers: map<string, string>)

  /** The SharedPreferences key the token is read from. */
  const TokenKey: string := "jwt_token"

  const Json: string := "application/json"

  /**
   * The condition of the early return. `&&` binds tighter than `||`, so it reads
   * `"/users"... || ("/auth"... && !"/auth/me"...)`.
   */
  predicate SkipsAuthorization(path: string): (skip: bool)
    ensures skip ==> StartsWith(path, "/users") || StartsWith(path, "/auth")
  {
    StartsWith(path, "/users") || (StartsWith(path, "/auth") && !StartsWith(path, "/auth/me"))
  }

  /** The other way to group the condition gives the same answer: no path starts with both "/users" and "/auth/me". */
  lemma {:induction false} PrecedenceIrrelevant(path: string)
    ensures SkipsAuthorization(path)
        <==> (StartsWith(path, "/users") || StartsWith(path, "/auth")) && !StartsWith(path, "/auth/me")
  {
    if StartsWith(path, "/users") {
      assert path[1] == path[..6][1] == 'u';
    }
    if StartsWith(path, "/auth/me") {
      assert path[1] == path[..8][1] == 'a';
    }
  }

  /** Which paths are signed. */
  lemma SignedPaths(path: string)
    ensures StartsWith(path, "/users") ==> SkipsAuthorization(path)
    ensures StartsWith(path, "/auth/me") ==> !SkipsAuthorization(path)
    ensures StartsWith(path, "/auth") && !StartsWith(path, "/auth/me") ==> SkipsAuthorization(path)
    ensures !StartsWith(path, "/users") && !StartsWith(path, "/auth") ==> !SkipsAuthorization(path)
  {
    PrecedenceIrrelevant(path);
  }

  /** The `Authorization` value for a token. */
  function BearerCredentials(token: string): (value: string)
    ensures StartsWith(value, "Bearer ") && value[7..] == token
  {
    "Bearer " + token
  }

  /** Distinct tokens give distinct header values. */
  lemma BearerCredentialsInjective(a: string, b: string)
    requires BearerCredentials(a) == BearerCredentials(b)
    ensures a == b
  {
    assert a == BearerCredentials(a)[7..];
  }

  /** `intercept`: the request forwarded to the next interceptor, given the stored preferences. */
  function Intercept(request: Request, prefs: map<string, string>): (forwarded: Request)
    ensures forwarded.path == request.path
    ensures forwarded.headers.Keys >= request.headers.Keys
    ensures "accept" in forwarded.headers && forwarded.headers["accept"] == Json
    ensures "Content-Type" in forwarded.headers && forwarded.headers["Content-Type"] == Json
    ensures !SkipsAuthorization(request.path) && TokenKey in prefs ==>
      "Authorization" in forwarded.headers && forwarded.headers["Authorization"] == BearerCredentials(prefs[TokenKey])
    ensures forall name :: name in request.headers && name != "accept" && name != "Content-Type" && name != "Authorization" ==>
      forwarded.headers[name] == request.headers[name]
    ensures SkipsAuthorization(request.path) || TokenKey !in prefs ==>
      "Authorization" in request.headers ==> forwarded.headers["Authorization"] == request.headers["Authorization"]
    ensures forwarded.headers.Keys
         == request.headers.Keys + {"accept", "Content-Type"}
          + (if !SkipsAuthorization(request.path) && TokenKey in prefs then {"Authorization"} else {})
  {
    var original := request.(headers := request.headers["accept" := Json]["Content-Type" := Json]);
    if SkipsAuthorization(original.path) then original
    else
      var headers := original.headers["accept" := Json]["Content-Type" := Json];
      if TokenKey in prefs then
        original.(headers := headers["Authorization" := BearerCredentials(prefs[TokenKey])])
      else
        original.(headers := headers)
  }
}
