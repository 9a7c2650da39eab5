/** The application's query client: when a failed query is retried, and
    what a failed query or mutation does (toasts, resetting the session,
    navigation), returned as effects. The build mode is a parameter:
    development or production, never both. */
module QueryClient {
  import opened Wrappers

  /** A request failure: an Axios error, with the HTTP status of its
      response when there is one, or anything else. */
  datatype RequestError = AxiosError(status: Option<int>) | OtherError

  /** `error.response?.status ?? 0` for an Axios error. */
  function StatusOf(error: RequestError): int
    requires error.AxiosError?
  {
    error.status.GetOr(0)
  }

  /** `retry(failureCount, error)`. */
  function Retry(failureCount: int, error: RequestError, dev: bool): bool {
    if failureCount >= 0 && dev then false
    else if failureCount > 3 && !dev then false
    else !(error.AxiosError? && StatusOf(error) in [401, 403])
  }

  /** Development never retries; production gives up after the fourth
      failure, and before that retries everything except an Axios 401 or
      403 (an error without a response counts as status 0 and is retried). */
  lemma RetrySpec(failureCount: nat, error: RequestError, dev: bool)
    ensures dev ==> !Retry(failureCount, error, dev)
    ensures !dev && failureCount > 3 ==> !Retry(failureCount, error, dev)
    ensures !dev && failureCount <= 3 ==>
      (Retry(failureCount, error, dev) <==>
         !(error.AxiosError? && error.status.Some? && (error.status.value == 401 || error.status.value == 403)))
  {
  }

  /** A navigation, with the `redirect` search parameter when given. */
  datatype Navigation = Navigation(to: string, redirect: Option<string>)

  /** What an error handler does. */
  datatype Effects = Effects(toasts: seq<string>, resetAuth: bool, navigations: seq<Navigation>)

  const NoEffects := Effects([], false, [])

  /** One effect after another. */
  function Then(a: Effects, b: Effects): Effects {
    Effects(a.toasts + b.toasts, a.resetAuth || b.resetAuth, a.navigations + b.navigations)
  }

  /** The query cache's `onError`, from the current location `href`: its
      three status checks in turn. */
  function QueryErrorEffects(error: RequestError, href: string): Effects {
    if error.OtherError? then NoEffects
    else
      var status := error.status;
      var onUnauthorized := if status == Some(401)
        then Effects(["Session expired!"], true, [Navigation("/sign-in", Some(href))]) else NoEffects;
      var onServerError := if status == Some(500)
        then Effects(["Internal Server Error!"], false, [Navigation("/500", None)]) else NoEffects;
      var onForbidden := if status == Some(403)
        then Effects([], false, [Navigation("/403", None)]) else NoEffects;
      Then(Then(onUnauthorized, onServerError), onForbidden)
  }

  /** 401 ends the session and sends to sign-in, back to `href` after;
      500 and 403 go to their pages; nothing else, and no error that is
      not Axios's, has any effect; there is never more than one move. */
  lemma QueryErrorRouting(error: RequestError, href: string)
    ensures error == AxiosError(Some(401)) ==>
              QueryErrorEffects(error, href) == Effects(["Session expired!"], true, [Navigation("/sign-in", Some(href))])
    ensures error == AxiosError(Some(500)) ==>
              QueryErrorEffects(error, href) == Effects(["Internal Server Error!"], false, [Navigation("/500", None)])
    ensures error == AxiosError(Some(403)) ==>
              QueryErrorEffects(error, href) == Effects([], false, [Navigation("/403", None)])
    ensures !(error.AxiosError? && error.status.Some? && error.status.value in {401, 403, 500}) ==>
              QueryErrorEffects(error, href) == NoEffects
    ensures |QueryErrorEffects(error, href).navigations| <= 1
    ensures QueryErrorEffects(error, href).resetAuth <==> error == AxiosError(Some(401))
  {
  }

  /** What the mutations' `onError` does: the shared server-error handler
      always runs (returned as `true`), plus a toast for an Axios 304. */
  function MutationErrorEffects(error: RequestError): (bool, seq<string>) {
    (true, if error.AxiosError? && error.status == Some(304) then ["Content not modified!"] else [])
  }

  /** The toast appears exactly for an Axios 304. */
  lemma MutationErrorSpec(error: RequestError)
    ensures MutationErrorEffects(error).0
    ensures MutationErrorEffects(error).1 != [] <==> error == AxiosError(Some(304))
    ensures MutationErrorEffects(error).1 != [] ==> MutationErrorEffects(error).1 == ["Content not modified!"]
  {
  }
}
