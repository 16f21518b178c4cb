# Sign-up hooks of grouple-lms, modelled in Dafny

This project models `src/hooks/authentication/index.ts`, the client-side
authentication hooks of the grouple-lms web application:

- `useGoogleAuth` (`signInWith`, `signUpWith`): redirect-based social sign-in
  and sign-up. Each one checks that the Clerk client is loaded, then issues
  one redirect request with fixed callback addresses. An exception is logged
  and swallowed.
- `useAuthSignUp`: the e-mail registration flow. It holds the `creating`,
  `verifying` and `code` state and the sign-up form, and it has two
  transitions. `onGenerateCode` creates the Clerk account and asks for an
  e-mailed code. `onInitiateUserRegistration` verifies the code, provisions
  the application user, resets the form, and then either activates the
  session and navigates, or shows an error and refreshes.

Files:

- `outcomes.dfy` (module `Outcomes`): `Option` and `Outcome` (`Throws | Ok(value)`).
  An `Outcome` stands for what a call into Clerk or the backend did: it threw,
  or it returned a value.
- `google_auth.dfy` (module `GoogleAuth`): `signInWith` and `signUpWith` as
  pure functions of the readiness flag, the strategy and the outcome of the
  redirect call.
- `auth_sign_up.dfy` (module `AuthSignUp`): the flow's data model and
  `FlowState` value. It also holds the specification functions `GenerateCode`
  and `Register`, plus the effect-log functions they are built from. The
  class `SignUpFlow` has the hook's state as mutable fields. Its methods run
  the two transitions step by step, with the source's early returns and its
  catch-all. Each method is proved to leave the object in the state the
  specification function computes.
- `sign_up_runs.dfy` (module `SignUpRuns`): whole sessions (sequences of user
  actions) and the properties that hold over them, proved by induction.

In the e-mail flow (`AuthSignUp`, `SignUpRuns`) every side effect is recorded
in an append-only effect log (`seq<Effect>`). The recorded effects are
toasts, logged errors, each call into Clerk or the backend, the form reset,
and router navigation or refresh. The outcomes of the Clerk and backend calls
are parameters. `GoogleAuth` keeps no log. Its result says whether a redirect
request was issued, with which arguments, and whether its synchronous throw
was logged (`Swallowed`).

Two facts about the flags that one might expect, and that the code does not
keep:

- One might expect `creating` to be true only while `verifying` is. The code
  does not keep that, because `onInitiateUserRegistration` never reads
  `verifying` before it sets `creating` (index.ts:91-98).
  `SignUpRuns.CreatingWithoutVerifying` exhibits such a state.
- One might expect an incomplete verification status to leave both flags as
  they were. In the code, `creating` has already been set to true by then
  (index.ts:98, 103-107). The model keeps `creating` true on that path, and
  `AuthSignUp.Register` states it.

The account-id test `if (!signUp.createdUserId) return;` (index.ts:110) is
JavaScript truthiness. A missing id and an empty-string id both end the
registration silently, and the model treats both alike (`HasUserId`).

## Model

| member | source | states |
|---|---|---|
| GoogleAuth.Redirect | src/hooks/authentication/index.ts:16-40 | not loaded ⇔ no request issued; otherwise the request issued is the given one, and the call is swallowed exactly when it throws (no synchronous exception escapes; the returned promise is not modelled) |
| GoogleAuth.SignInWith | src/hooks/authentication/index.ts:16-27 | no redirect iff the sign-in client is not loaded; otherwise the request carries the strategy, redirectUrl "/callback" and redirectUrlComplete "/callback/sign-in", which differs from the sign-up completion address; a throwing call is swallowed |
| GoogleAuth.SignUpWith | src/hooks/authentication/index.ts:29-40 | no redirect iff the sign-up client is not loaded; otherwise the request carries the strategy, redirectUrl "/callback" and redirectUrlComplete "/callback/complete", which differs from the sign-in completion address; a throwing call is swallowed |
| AuthSignUp.Initial | src/hooks/authentication/index.ts:47-49 | a fresh hook has both flags false, an empty code and no effects |
| AuthSignUp.CodeRequestLog | src/hooks/authentication/index.ts:71-88 | creation comes first, with the credentials read from the stored form; the e-mail-code request is made iff creation succeeded; the log ends in a logged error iff one of the calls threw; no other external call; exact logs when creation throws (create, logged error) and when the code request throws (create, prepare, logged error) |
| AuthSignUp.GenerateCode | src/hooks/authentication/index.ts:64-89 | only `verifying` and the log change; not loaded: only the "Oops! something went wrong" toast; an empty argument: only the "No fields must be empty" toast; `verifying` becomes true iff both provider calls succeeded and is never lowered; no external call unless both guards passed |
| AuthSignUp.StatusLog | src/hooks/authentication/index.ts:120-136 | status 200: "Success" toast with the message, then setActive with the session, then push to "/group/create", or a logged error instead of the push if setActive threw; otherwise an "Error" toast with message + "action failed", then a refresh; navigation and refresh exclude each other |
| AuthSignUp.ProvisioningLog | src/hooks/authentication/index.ts:111-136 | one provisioning call with (firstname, lastname, clerkId, "") and no second one; a reset iff the backend answered, right after the call and before the status branch |
| AuthSignUp.RegistrationLog | src/hooks/authentication/index.ts:97-142 | every registration log starts with the verification call carrying the current code |
| AuthSignUp.RegistrationLogShape | src/hooks/authentication/index.ts:97-142 | provisioning happens at most once, at position 1, exactly when verification is complete with a truthy (present, non-empty) user id; the reset happens iff the backend answered; push iff settled with 200, refresh iff settled otherwise; the log ends in a logged error iff a call threw; exact logs for every path: verification throw (verify, logged error), incomplete status, missing or empty id, backend throw (verify, provision, logged error), 200 and non-200 |
| AuthSignUp.SuccessfulRegistrationLog | src/hooks/authentication/index.ts:97-128 | for any complete verification with a truthy user id and any 200 answer with a successful activation, the log is exactly verify(code), provision(firstname, lastname, id, ""), reset, the success toast with the message, setActive with the verified session, push to "/group/create" |
| AuthSignUp.Register | src/hooks/authentication/index.ts:91-143 | failed validation only stores the errors; not loaded: only the error toast; loaded: the effects are `RegistrationLog` with the current code; `code` and `loaded` never change; no external call unless validation and the readiness guard passed; a valid submission clears the form errors; an exception, an incomplete status or a missing or empty id leave `creating` true and `verifying` unchanged; the form is reset iff the backend answered, also when setActive then threw; both status branches end with both flags false |
| AuthSignUp.SignUpFlow.constructor | src/hooks/authentication/index.ts:46-60 | the object starts in `Initial` |
| AuthSignUp.SignUpFlow.SetCode | src/hooks/authentication/index.ts:49 | only `code` changes, to the entered text |
| AuthSignUp.SignUpFlow.Fill | src/hooks/authentication/index.ts:52 | only the stored form values change |
| AuthSignUp.SignUpFlow.OnGenerateCode | src/hooks/authentication/index.ts:64-89 | the step-by-step transition leaves the object in exactly the state `GenerateCode` computes from the old one |
| AuthSignUp.SignUpFlow.OnInitiateUserRegistration | src/hooks/authentication/index.ts:91-96 | the validation and readiness guards followed by `Commit` leave the object in exactly the state `Register` computes from the old one |
| AuthSignUp.SignUpFlow.Commit | src/hooks/authentication/index.ts:97-108 | `creating` is set before verification and is cleared only when the flow settles; the effects appended are `RegistrationLog` with the code as it was; the form is reset iff the backend answered |
| AuthSignUp.SignUpFlow.Conclude | src/hooks/authentication/index.ts:109-136 | without a truthy account id nothing changes; otherwise appends `ProvisioningLog` with that id and the verified session, resets the form iff the backend answered, and clears both flags iff the status branch completes |
| AuthSignUp.SignUpFlow.Provide | src/hooks/authentication/index.ts:111-136 | appends `ProvisioningLog`; resets the form iff the backend answered; clears both flags iff the status branch completes |
| AuthSignUp.SignUpFlow.ReportStatus | src/hooks/authentication/index.ts:120-136 | appends `StatusLog`; clears both flags unless setActive threw |
| SignUpRuns.Step | src/hooks/authentication/index.ts:49-143 | one user action only appends to the log and never changes `loaded`; only code entry changes `code`; the backend is called only at position 1 of a submission's effects; with the client not loaded, no external call happens and no flag moves; `verifying` is raised only by a code request that asked for the e-mailed code |
| SignUpRuns.RunExtends | src/hooks/authentication/index.ts:64-143 | over any session the effect log only grows |
| SignUpRuns.RunKeepsCode | src/hooks/authentication/index.ts:49 | a session without code entry ends with the code it started with: neither transition modifies `code` |
| SignUpRuns.StepProvisions | src/hooks/authentication/index.ts:111-116 | one user action calls the backend at most once, and only if it is a submission |
| SignUpRuns.RunProvisionsPerSubmission | src/hooks/authentication/index.ts:111-116 | over any session the backend is called at most once per submission |
| SignUpRuns.RunNotLoadedInert | src/hooks/authentication/index.ts:65-68 | while the client is not loaded, no session calls Clerk or the backend, and neither flag moves |
| SignUpRuns.RunVerifyingNeedsCodeRequest | src/hooks/authentication/index.ts:76-80 | if `verifying` goes from false to true over a session, the "email_code" request was made during it |
| SignUpRuns.CreatingWithoutVerifying | src/hooks/authentication/index.ts:97-101 | a fresh flow whose verification call throws ends with `creating` true and `verifying` false |
| SignUpRuns.HappyPath | src/hooks/authentication/index.ts:64-136 | a code request, code "000000", complete verification with session "sess_1" and user "usr_1", and a 200 answer "Welcome" give exactly create, prepare, verify, provision, reset, success toast, setActive("sess_1"), push("/group/create"); both flags end false and the form ends empty |

## Left out

- Clerk SDK internals and the backend action `onSignUpUser` are foreign code, and their behaviour is not modelled. What the model keeps of each:
  - `useSignIn` and `useSignUp` only as the readiness flag `loaded` of the client they return.
  - `authenticateWithRedirect` as an `Outcome` parameter, with its arguments in the returned `RedirectRequest`.
  - `create`, `prepareEmailAddressVerification`, `attemptEmailAddressVerification`, `setActive` and `onSignUpUser` as `Outcome` parameters, with their arguments recorded in the effect log.
- The account id `signUp.createdUserId` belongs to Clerk's sign-up resource. It is modelled as a field of the verification outcome, since that is where it comes from.
- `authenticateWithRedirect` is returned without `await`, so only a synchronous throw is caught. A rejected promise would reach the caller, and that case is outside the model.
- react-hook-form and the zod `SignUpSchema` (the schema file is not part of this model): `handleSubmit` is modelled as a `Validation` input. Either the validated values run the body and the errors are cleared, or the errors are stored and nothing else happens. `reset()` is modelled as setting every field to "" and clearing the errors. The validation rules themselves are not modelled.
- `toast`, `reset()`, `router.push` and `router.refresh` are taken never to throw. A throw from one of them would be caught at src/hooks/authentication/index.ts:140, skip `setCreating(false)` and `setVerifying(false)` (lines 135-136), and leave the flags set. The model does not capture that path.
- Toast rendering, `console.error` with `JSON.stringify`, and the Next.js router are I/O. They appear only as `Toast`, `LogError`, `Push` and `Refresh` log entries, and the logged error's text is not kept.
- A backend `message` that is `undefined` (which JavaScript would turn into "undefinedaction failed") is not modelled; the message is always a string.
- React re-rendering, stale closures, async interleaving and re-entrant calls are concurrency. Each transition runs to completion as one sequential method with the given outcomes.
- The client's readiness (`isLoaded`) is fixed for a session. No action in `SignUpRuns` makes the client load.
- The `else` branch at src/hooks/authentication/index.ts:137-139 is unreachable, because line 103 already returns on any status other than "complete". It is not modelled.
- src/app/(landing)/_components/dashboard-snippet/index.tsx is static markup with no logic. It is not part of this model.
