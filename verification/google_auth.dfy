/**
 * The redirect-based social sign-in and sign-up of `useGoogleAuth`
 * (src/hooks/authentication/index.ts:12-43).  Both entry points are a
 * readiness guard followed by one redirect request to the identity provider.
 */
module GoogleAuth {
  import opened Outcomes

  /** An OAuth strategy token such as "oauth_google"; the model treats it as opaque text. */
  type Strategy = string

  /** The address the provider returns to while the handshake is still in progress. */
  const CallbackUrl := "/callback"
  /** Where a completed sign-in lands. */
  const SignInCompleteUrl := "/callback/sign-in"
  /** Where a completed sign-up lands. */
  const SignUpCompleteUrl := "/callback/complete"

  /** The argument record handed to `authenticateWithRedirect`. */
  datatype RedirectRequest = RedirectRequest(strategy: Strategy, redirectUrl: string, redirectUrlComplete: string)

  /**
   * What one call of `signInWith` / `signUpWith` did.  There is no "threw"
   * alternative: no synchronous exception escapes to the caller.  The promise
   * the call returns is not modelled.
   */
  datatype RedirectResult =
    | Skipped                                 // client not loaded: returned without a request
    | Redirecting(request: RedirectRequest)   // the request was issued
    | Swallowed(request: RedirectRequest)     // the request was issued, threw, and the error was logged

  /** The shared guard-then-request shape of both entry points. */
  function Redirect(loaded: bool, request: RedirectRequest, call: Outcome<()>): (r: RedirectResult)
    ensures r.Skipped? <==> !loaded
    ensures !r.Skipped? ==> r.request == request
    ensures !r.Skipped? ==> (r.Swallowed? <==> call.Throws?)
  {
    if !loaded then Skipped
    else if call.Throws? then Swallowed(request)
    else Redirecting(request)
  }

  /** `signInWith`: the sign-in client's redirect, completing at the sign-in callback. */
  function SignInWith(loaded: bool, strategy: Strategy, call: Outcome<()>): (r: RedirectResult)
    ensures r.Skipped? <==> !loaded
    ensures loaded ==> r.request.strategy == strategy
    // the in-progress callback is shared with sign-up; the completion address is not
    ensures loaded ==> r.request.redirectUrl == "/callback"
    ensures loaded ==> r.request.redirectUrlComplete == "/callback/sign-in" != SignUpCompleteUrl
    ensures loaded ==> (r.Swallowed? <==> call.Throws?)
  {
    Redirect(loaded, RedirectRequest(strategy, CallbackUrl, SignInCompleteUrl), call)
  }

  /** `signUpWith`: the sign-up client's redirect, completing at the sign-up callback. */
  function SignUpWith(loaded: bool, strategy: Strategy, call: Outcome<()>): (r: RedirectResult)
    ensures r.Skipped? <==> !loaded
    ensures loaded ==> r.request.strategy == strategy
    // the in-progress callback is shared with sign-in; the completion address is not
    ensures loaded ==> r.request.redirectUrl == "/callback"
    ensures loaded ==> r.request.redirectUrlComplete == "/callback/complete" != SignInCompleteUrl
    ensures loaded ==> (r.Swallowed? <==> call.Throws?)
  {
    Redirect(loaded, RedirectRequest(strategy, CallbackUrl, SignUpCompleteUrl), call)
  }
}
