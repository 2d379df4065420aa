/**
 * `handleYandexAuthResult`: the outcome of the Yandex ID sign-in screen, reduced
 * to the OAuth token to sign in with, if any.
 */
module YandexAuth {
  import opened Outcomes

  datatype YandexAuthResult = Success(token: string) | Failure | Cancelled

  /** The token of a successful sign-in; null for a failure or a cancellation. */
  function HandleYandexAuthResult(result: YandexAuthResult): (token: Option<string>)
    ensures token.Some? <==> result.Success?
    ensures token.Some? ==> token.value == result.token
  {
    match result
    case Success(t) => Some(t)
    case Failure => None
    case Cancelled => None
  }
}
