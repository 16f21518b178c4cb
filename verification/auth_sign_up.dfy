/**
 * The e-mail registration flow of `useAuthSignUp`
 * (src/hooks/authentication/index.ts:45-156).
 *
 * The flow owns three pieces of state (`creating`, `verifying`, `code`) and
 * the registration form.  Its two transitions, `onGenerateCode` and
 * `onInitiateUserRegistration`, call the identity provider and the backend
 * user service; here every such call is an `Outcome` handed in by the caller,
 * and every observable side effect (a toast, a logged error, a provider or
 * backend call, a form reset, a navigation) is appended to an effect log.
 *
 * `GenerateCode` and `Register` are the specifications of the two
 * transitions as functions of the whole flow state; the class `SignUpFlow`
 * runs the same transitions step by step and is proved against them.
 */
module AuthSignUp {
  import opened Outcomes

  // ---------------------------------------------------------------------
  // Constants of the source
  // ---------------------------------------------------------------------

  const ErrorTitle := "Error"
  const SuccessTitle := "Success"
  /** Description of the toast shown when the sign-up client is not loaded. */
  const NotLoadedMessage := "Oops! something went wrong"
  /** Description of the toast shown when an argument of `onGenerateCode` is empty. */
  const EmptyFieldsMessage := "No fields must be empty"
  /** Description of the toast shown when verification did not reach "complete". */
  const IncompleteMessage := "Oops! something went wrong, status incomplete"
  /** Suffix appended to the backend's message when provisioning failed. */
  const FailureSuffix := "action failed"
  /** The verification strategy requested after account creation. */
  const EmailCode := "email_code"
  /** The only verification status that lets registration go on. */
  const CompleteStatus := "complete"
  /** The only backend status treated as success. */
  const OkStatus := 200
  /** Where a fully registered user is sent. */
  const GroupCreatePath := "/group/create"

  // ---------------------------------------------------------------------
  // Data model
  // ---------------------------------------------------------------------

  /** The values of the sign-up form. */
  datatype SignUpValues = SignUpValues(firstname: string, lastname: string, email: string, password: string)

  /** The form after `reset()`: every field empty. */
  const EmptyForm := SignUpValues("", "", "", "")

  /** What the form's schema validation made of a submission (`handleSubmit`). */
  datatype Validation =
    | Valid(values: SignUpValues)
    | Invalid(errors: map<string, string>)

  /** The result of `attemptEmailAddressVerification`, with the sign-up resource's ids after it. */
  datatype Verification = Verification(status: string, createdSessionId: Option<string>, createdUserId: Option<string>)

  /** The answer of the backend's `onSignUpUser`. */
  datatype UserResponse = UserResponse(status: int, message: string)

  /** One observable side effect of the flow, in the order it happened. */
  datatype Effect =
    | Toast(title: string, description: string)
    | LogError
    | Create(emailAddress: string, password: string)
    | Prepare(strategy: string)
    | Verify(code: string)
    | Provision(firstname: string, lastname: string, clerkId: string, image: string)
    | Reset
    | SetActive(session: Option<string>)
    | Push(path: string)
    | Refresh
  {
    /** A call into the identity provider or the backend user service. */
    predicate IsExternalCall() {
      Create? || Prepare? || Verify? || Provision? || SetActive?
    }
  }

  /**
   * The whole state of one flow instance: whether the sign-up client is
   * loaded, the two flags, the entered code, the stored form values, the
   * form's validation errors and the effects so far.
   */
  datatype FlowState = FlowState(
    loaded: bool,
    creating: bool,
    verifying: bool,
    code: string,
    form: SignUpValues,
    errors: map<string, string>,
    effects: seq<Effect>)

  /** The state a freshly mounted hook starts in. */
  function Initial(loaded: bool): (s: FlowState)
    ensures !s.creating && !s.verifying && s.code == "" && s.effects == []
  {
    FlowState(loaded, false, false, "", EmptyForm, map[], [])
  }

  /** `r` only appended to the effect log of `s`. */
  predicate Extends(s: FlowState, r: FlowState) {
    |s.effects| <= |r.effects| && r.effects[..|s.effects|] == s.effects
  }

  /** The effects `r` appended to those of `s`. */
  function Appended(s: FlowState, r: FlowState): (added: seq<Effect>)
    requires Extends(s, r)
    ensures r.effects == s.effects + added
  {
    r.effects[|s.effects|..]
  }

  // ---------------------------------------------------------------------
  // Transition 1: onGenerateCode (index.ts:64-89)
  // ---------------------------------------------------------------------

  /** Both arguments are non-empty: the guard at index.ts:70. */
  predicate Filled(email: string, password: string) {
    email != "" && password != ""
  }

  /**
   * The effects of a code request that passed both guards (index.ts:71-80,
   * 86-88): account creation with the STORED form's credentials, then the
   * request for the e-mailed code; a throwing call is logged and ends it.
   */
  function CodeRequestLog(form: SignUpValues, create: Outcome<()>, prepare: Outcome<()>): (log: seq<Effect>)
    ensures |log| >= 2 && log[0] == Create(form.email, form.password)
    // the code is requested only after creation succeeded, and then with the e-mail strategy
    ensures (Prepare(EmailCode) in log) <==> create.Ok?
    ensures create.Ok? ==> log[1] == Prepare(EmailCode)
    // an exception ends the log with its logged error, and nothing else does
    ensures log[|log| - 1] == LogError <==> create.Throws? || prepare.Throws?
    ensures create.Ok? && prepare.Ok? ==> |log| == 2
    // a throwing call ends the request right there
    ensures create.Throws? ==> log == [Create(form.email, form.password), LogError]
    ensures create.Ok? && prepare.Throws? ==> log == [Create(form.email, form.password), Prepare(EmailCode), LogError]
    // neither the backend nor the verification is reached
    ensures forall x | x in log :: x.IsExternalCall() ==> x.Create? || x.Prepare?
  {
    var creation := Create(form.email, form.password);
    if create.Throws? then [creation, LogError]
    else if prepare.Throws? then [creation, Prepare(EmailCode), LogError]
    else [creation, Prepare(EmailCode)]
  }

  /**
   * `onGenerateCode(email, password)`.  The guard looks at the ARGUMENTS,
   * but the account is created with the credentials READ FROM THE FORM
   * (`getValues`).  `create` and `prepare` are what the two awaited
   * provider calls did.
   */
  function GenerateCode(s: FlowState, email: string, password: string,
                        create: Outcome<()>, prepare: Outcome<()>): (r: FlowState)
    ensures Extends(s, r)
    // only `verifying` and the log can change
    ensures r == s.(verifying := r.verifying, effects := r.effects)
    // readiness guard: one error toast, no call, no state change
    ensures !s.loaded ==> r == s.(effects := s.effects + [Toast(ErrorTitle, NotLoadedMessage)])
    // empty-argument guard: one error toast, no call, no state change
    ensures s.loaded && !Filled(email, password) ==>
              r == s.(effects := s.effects + [Toast(ErrorTitle, EmptyFieldsMessage)])
    ensures s.loaded && Filled(email, password) ==> Appended(s, r) == CodeRequestLog(s.form, create, prepare)
    // `verifying` is raised exactly when both provider calls succeeded, and is never lowered
    ensures r.verifying <==> s.verifying || (s.loaded && Filled(email, password) && create.Ok? && prepare.Ok?)
    // no call into the provider or the backend unless both guards passed
    ensures forall x | x in Appended(s, r) :: x.IsExternalCall() ==> s.loaded && Filled(email, password)
  {
    if !s.loaded then
      s.(effects := s.effects + [Toast(ErrorTitle, NotLoadedMessage)])
    else if !Filled(email, password) then
      s.(effects := s.effects + [Toast(ErrorTitle, EmptyFieldsMessage)])
    else
      s.(verifying := s.verifying || (create.Ok? && prepare.Ok?),
         effects := s.effects + CodeRequestLog(s.form, create, prepare))
  }

  // ---------------------------------------------------------------------
  // Transition 2: onInitiateUserRegistration (index.ts:91-143)
  // ---------------------------------------------------------------------

  /** Validation passed and the client is loaded: the body runs past its guard (index.ts:91-96). */
  predicate Submitted(s: FlowState, validation: Validation) {
    validation.Valid? && s.loaded
  }

  /**
   * The provider account id is truthy: present and not the empty string
   * (the test `!signUp.createdUserId` at index.ts:110 also rejects "").
   */
  predicate HasUserId(v: Verification) {
    v.createdUserId.Some? && v.createdUserId.value != ""
  }

  /** Verification reached "complete" and the provider account id is truthy (index.ts:103-110). */
  predicate Verified(attempt: Outcome<Verification>) {
    attempt.Ok? && attempt.value.status == CompleteStatus && HasUserId(attempt.value)
  }

  /** The backend answered (did not throw) after a complete verification, so the form was reset. */
  predicate Answered(attempt: Outcome<Verification>, provision: Outcome<UserResponse>) {
    Verified(attempt) && provision.Ok?
  }

  /** The run reached the end of the status branch, where both flags are cleared (index.ts:120-136). */
  predicate Settled(attempt: Outcome<Verification>, provision: Outcome<UserResponse>, activate: Outcome<()>) {
    Answered(attempt, provision) && (provision.value.status != OkStatus || activate.Ok?)
  }

  /** One of the awaited calls threw, so the catch-all at index.ts:140-142 ran. */
  predicate Aborted(attempt: Outcome<Verification>, provision: Outcome<UserResponse>, activate: Outcome<()>) {
    attempt.Throws?
    || (Verified(attempt) && (provision.Throws? || (provision.value.status == OkStatus && activate.Throws?)))
  }

  /**
   * The effects of the status branch (index.ts:120-136): on 200 a success
   * toast with the backend's message, session activation and navigation;
   * otherwise an error toast with the suffixed message and a refresh.
   */
  function StatusLog(user: UserResponse, session: Option<string>, activate: Outcome<()>): (log: seq<Effect>)
    ensures forall x | x in log :: !x.Provision? && !x.Reset? && !x.Verify?
    // exactly one of navigation and refresh, navigation only after a successful activation
    ensures (Push(GroupCreatePath) in log) <==> user.status == OkStatus && activate.Ok?
    ensures (Refresh in log) <==> user.status != OkStatus
    ensures user.status == OkStatus ==>
              |log| == 3 && log[0] == Toast(SuccessTitle, user.message) && log[1] == SetActive(session)
              && log[2] == (if activate.Ok? then Push(GroupCreatePath) else LogError)
    ensures user.status != OkStatus ==>
              log == [Toast(ErrorTitle, user.message + FailureSuffix), Refresh]
  {
    if user.status == OkStatus then
      [Toast(SuccessTitle, user.message), SetActive(session),
       if activate.Ok? then Push(GroupCreatePath) else LogError]
    else
      [Toast(ErrorTitle, user.message + FailureSuffix), Refresh]
  }

  /**
   * The effects from the backend call on (index.ts:111-136): the one
   * provisioning call, then, if the backend answered, the form reset
   * followed by the status branch.
   */
  function ProvisioningLog(values: SignUpValues, clerkId: string, session: Option<string>,
                           provision: Outcome<UserResponse>, activate: Outcome<()>): (log: seq<Effect>)
    ensures |log| >= 2 && log[0] == Provision(values.firstname, values.lastname, clerkId, "")
    ensures forall i | 1 <= i < |log| :: !log[i].Provision? && !log[i].Verify?
    ensures (Reset in log) <==> provision.Ok?
    ensures provision.Throws? ==> log[1] == LogError && |log| == 2
    ensures provision.Ok? ==> log[1] == Reset && log[2..] == StatusLog(provision.value, session, activate)
  {
    var call := Provision(values.firstname, values.lastname, clerkId, "");
    match provision
    case Throws => [call, LogError]
    case Ok(user) => [call, Reset] + StatusLog(user, session, activate)
  }

  /**
   * The effects of one registration that got past the guard: the
   * verification with the entered `code`, then as far as the outcomes let
   * it go.
   */
  function RegistrationLog(code: string, values: SignUpValues, attempt: Outcome<Verification>,
                           provision: Outcome<UserResponse>, activate: Outcome<()>): (log: seq<Effect>)
    // the verification call comes first and carries the entered code
    ensures |log| >= 1 && log[0] == Verify(code)
  {
    match attempt
    case Throws => [Verify(code), LogError]
    case Ok(v) =>
      if v.status != CompleteStatus then
        [Verify(code), Toast(ErrorTitle, IncompleteMessage)]
      else if !HasUserId(v) then
        [Verify(code)]
      else
        [Verify(code)] + ProvisioningLog(values, v.createdUserId.value, v.createdSessionId, provision, activate)
  }

  /**
   * What every registration log looks like (index.ts:97-142): the order of
   * the calls, when the backend is reached, when the form is reset, how the
   * run ends, and the exact log of every path.  A throwing call ends the
   * registration right there (the catch-all at index.ts:140-142): after it
   * nothing but the logged error follows.
   */
  lemma RegistrationLogShape(code: string, values: SignUpValues, attempt: Outcome<Verification>,
                             provision: Outcome<UserResponse>, activate: Outcome<()>,
                             log: seq<Effect>)
    requires log == RegistrationLog(code, values, attempt, provision, activate)
    // the backend is called at most once: exactly after a complete verification, right after it
    ensures forall i | 0 <= i < |log| :: log[i].Provision? <==> (i == 1 && Verified(attempt))
    ensures Verified(attempt) ==>
              |log| >= 2 && log[1] == Provision(values.firstname, values.lastname, attempt.value.createdUserId.value, "")
    // the form is reset whenever the backend answered, before the status branch
    ensures (Reset in log) <==> Answered(attempt, provision)
    ensures Answered(attempt, provision) ==> |log| >= 3 && log[2] == Reset
    // exactly one of navigation and refresh, and only once the flow settled
    ensures (Push(GroupCreatePath) in log) <==> Settled(attempt, provision, activate) && provision.value.status == OkStatus
    ensures (Refresh in log) <==> Settled(attempt, provision, activate) && provision.value.status != OkStatus
    // an exception ends the log with its logged error, and nothing else does
    ensures log[|log| - 1] == LogError <==> Aborted(attempt, provision, activate)
    // a status other than "complete": the incomplete-status toast and nothing further
    ensures attempt.Ok? && attempt.value.status != CompleteStatus ==>
              log == [Verify(code), Toast(ErrorTitle, IncompleteMessage)]
    // "complete" with a missing or empty account id: a silent return
    ensures attempt.Ok? && attempt.value.status == CompleteStatus
            && (attempt.value.createdUserId.None? || attempt.value.createdUserId.value == "") ==>
              log == [Verify(code)]
    // status 200: success toast, then the session from the verification, then navigation
    ensures Answered(attempt, provision) && provision.value.status == OkStatus ==>
              |log| == 6 && log[3] == Toast(SuccessTitle, provision.value.message)
              && log[4] == SetActive(attempt.value.createdSessionId)
              && log[5] == (if activate.Ok? then Push(GroupCreatePath) else LogError)
    // any other status: error toast with the suffixed message, then a refresh
    ensures Answered(attempt, provision) && provision.value.status != OkStatus ==>
              |log| == 5 && log[3] == Toast(ErrorTitle, provision.value.message + FailureSuffix) && log[4] == Refresh
    // a throwing verification: the logged error and nothing further
    ensures attempt.Throws? ==> log == [Verify(code), LogError]
    // a throwing backend call: the logged error and nothing further
    ensures Verified(attempt) && provision.Throws? ==>
              log == [Verify(code), Provision(values.firstname, values.lastname, attempt.value.createdUserId.value, ""), LogError]
  {
    if Verified(attempt) {
      var v := attempt.value;
      var rest := ProvisioningLog(values, v.createdUserId.value, v.createdSessionId, provision, activate);
      assert log == [Verify(code)] + rest;
    }
  }

  /**
   * A registration that runs to the end of the 200 branch produces exactly
   * six effects: verification with the entered code, provisioning with the
   * verified account id, the form reset, the success toast with the backend's
   * message, activation of the verified session and navigation to the group page.
   */
  lemma SuccessfulRegistrationLog(code: string, values: SignUpValues, v: Verification, message: string)
    requires v.status == CompleteStatus && HasUserId(v)
    ensures RegistrationLog(code, values, Ok(v), Ok(UserResponse(OkStatus, message)), Ok(()))
         == [Verify(code), Provision(values.firstname, values.lastname, v.createdUserId.value, ""), Reset,
             Toast(SuccessTitle, message), SetActive(v.createdSessionId), Push(GroupCreatePath)]
  {
    var status := StatusLog(UserResponse(OkStatus, message), v.createdSessionId, Ok(()));
    assert status == [Toast(SuccessTitle, message), SetActive(v.createdSessionId), Push(GroupCreatePath)];
    assert ProvisioningLog(values, v.createdUserId.value, v.createdSessionId, Ok(UserResponse(OkStatus, message)), Ok(()))
        == [Provision(values.firstname, values.lastname, v.createdUserId.value, ""), Reset] + status;
  }

  /**
   * `onInitiateUserRegistration`, the `handleSubmit` body.  `validation` is
   * what the schema made of the form; `attempt`, `provision` and `activate`
   * are what the awaited verification, backend and session calls did.
   * `creating` is set before verification and cleared only where the flow
   * settles; no early return and no exception clears it.
   */
  function Register(s: FlowState, validation: Validation, attempt: Outcome<Verification>,
                    provision: Outcome<UserResponse>, activate: Outcome<()>): (r: FlowState)
    ensures Extends(s, r)
    ensures r.loaded == s.loaded && r.code == s.code
    // failed validation: the errors are stored and nothing else happens
    ensures validation.Invalid? ==> r == s.(errors := validation.errors)
    // readiness guard: one error toast and nothing else
    ensures validation.Valid? && !s.loaded ==>
              r == s.(errors := map[], effects := s.effects + [Toast(ErrorTitle, NotLoadedMessage)])
    ensures Submitted(s, validation) ==>
              Appended(s, r) == RegistrationLog(s.code, validation.values, attempt, provision, activate)
    // no call into the provider or the backend unless validation and the readiness guard passed
    ensures forall e | e in Appended(s, r) :: e.IsExternalCall() ==> Submitted(s, validation)
    // a submission that passed validation clears the form's errors
    ensures validation.Valid? ==> r.errors == map[]
    // an exception, an incomplete status or a missing id leaves `creating` set and `verifying` as it was
    ensures Submitted(s, validation) && !Settled(attempt, provision, activate) ==>
              r.creating && r.verifying == s.verifying
    // the form is reset as soon as the backend answered, even if session activation then threw
    ensures Submitted(s, validation) && Answered(attempt, provision) ==> r.form == EmptyForm
    ensures Submitted(s, validation) && !Answered(attempt, provision) ==> r.form == s.form
    // both status branches end with the flags cleared
    ensures Submitted(s, validation) && Settled(attempt, provision, activate) ==> !r.creating && !r.verifying
  {
    match validation
    case Invalid(errors) => s.(errors := errors)
    case Valid(values) =>
      if !s.loaded then
        s.(errors := map[], effects := s.effects + [Toast(ErrorTitle, NotLoadedMessage)])
      else
        var settled := Settled(attempt, provision, activate);
        s.(creating := !settled,
           verifying := s.verifying && !settled,
           form := if Answered(attempt, provision) then EmptyForm else s.form,
           errors := map[],
           effects := s.effects + RegistrationLog(s.code, values, attempt, provision, activate))
  }

  // ---------------------------------------------------------------------
  // The hook as a stateful object
  // ---------------------------------------------------------------------

  /**
   * One mounted `useAuthSignUp`: the React state variables and the form
   * become fields, and the two transitions become methods that update them
   * step by step, with the early returns and the catch-all of the source.
   */
  class SignUpFlow {
    var loaded: bool
    var creating: bool
    var verifying: bool
    var code: string
    var form: SignUpValues
    var errors: map<string, string>
    var effects: seq<Effect>

    /** The fields as one value. */
    function State(): (s: FlowState)
      reads this
    {
      FlowState(loaded, creating, verifying, code, form, errors, effects)
    }

    /** Mounting the hook: both flags false, no code, an empty form (index.ts:47-60). */
    constructor (clientLoaded: bool)
      ensures State() == Initial(clientLoaded)
    {
      loaded := clientLoaded;
      creating, verifying, code := false, false, "";
      form, errors, effects := EmptyForm, map[], [];
    }

    /** `setCode`: the user typed a verification code (index.ts:49, 153). */
    method SetCode(entered: string)
      modifies this
      ensures State() == old(State()).(code := entered)
    {
      code := entered;
    }

    /** The form's registered inputs were edited (`register`, index.ts:52, 146). */
    method Fill(values: SignUpValues)
      modifies this
      ensures State() == old(State()).(form := values)
    {
      form := values;
    }

    /** `onGenerateCode` (index.ts:64-89). */
    method OnGenerateCode(email: string, password: string, create: Outcome<()>, prepare: Outcome<()>)
      modifies this
      ensures State() == GenerateCode(old(State()), email, password, create, prepare)
    {
      if !loaded {
        effects := effects + [Toast(ErrorTitle, NotLoadedMessage)];
        return;
      }
      if email == "" || password == "" {
        effects := effects + [Toast(ErrorTitle, EmptyFieldsMessage)];
        return;
      }
      ghost var before := effects;
      var creation := Create(form.email, form.password);
      effects := effects + [creation];
      if create.Throws? {
        effects := effects + [LogError];
        assert effects == before + [creation, LogError];
        return;
      }
      effects := effects + [Prepare(EmailCode)];
      if prepare.Throws? {
        effects := effects + [LogError];
        assert effects == before + [creation, Prepare(EmailCode), LogError];
        return;
      }
      assert effects == before + [creation, Prepare(EmailCode)];
      verifying := true;
    }

    /** `onInitiateUserRegistration` (index.ts:91-143). */
    method OnInitiateUserRegistration(validation: Validation, attempt: Outcome<Verification>,
                                      provision: Outcome<UserResponse>, activate: Outcome<()>)
      modifies this
      ensures State() == Register(old(State()), validation, attempt, provision, activate)
    {
      if validation.Invalid? {
        errors := validation.errors;
        return;
      }
      errors := map[];
      var values := validation.values;
      if !loaded {
        effects := effects + [Toast(ErrorTitle, NotLoadedMessage)];
        return;
      }
      Commit(values, attempt, provision, activate);
    }

    /**
     * The `try` block of `onInitiateUserRegistration` once the readiness
     * guard passed (index.ts:97-142): every early return and the catch-all
     * leave `creating` set.
     */
    method Commit(values: SignUpValues, attempt: Outcome<Verification>,
                  provision: Outcome<UserResponse>, activate: Outcome<()>)
      modifies this
      ensures State() == old(State()).(
                creating := !Settled(attempt, provision, activate),
                verifying := old(verifying) && !Settled(attempt, provision, activate),
                form := if Answered(attempt, provision) then EmptyForm else old(form),
                errors := if Answered(attempt, provision) then map[] else old(errors),
                effects := old(effects) + RegistrationLog(old(code), values, attempt, provision, activate))
    {
      ghost var before := effects;
      ghost var log := RegistrationLog(code, values, attempt, provision, activate);
      creating := true;
      effects := effects + [Verify(code)];
      if attempt.Throws? {
        effects := effects + [LogError];
        assert effects == before + log;
        return;
      }
      var completeSignUp := attempt.value;
      if completeSignUp.status != CompleteStatus {
        effects := effects + [Toast(ErrorTitle, IncompleteMessage)];
        assert effects == before + log;
        return;
      }
      Conclude(values, completeSignUp, provision, activate);
      assert effects == before + log;
    }

    /**
     * The block for a "complete" verification (index.ts:109-136): a silent
     * return without a truthy account id, otherwise provisioning.
     */
    method Conclude(values: SignUpValues, completeSignUp: Verification,
                    provision: Outcome<UserResponse>, activate: Outcome<()>)
      modifies this
      ensures var proceeds := HasUserId(completeSignUp);
              var settles := proceeds && provision.Ok? && (provision.value.status != OkStatus || activate.Ok?);
              State() == old(State()).(
                creating := old(creating) && !settles,
                verifying := old(verifying) && !settles,
                form := if proceeds && provision.Ok? then EmptyForm else old(form),
                errors := if proceeds && provision.Ok? then map[] else old(errors),
                effects := old(effects) + if proceeds then ProvisioningLog(values, completeSignUp.createdUserId.value,
                                                                           completeSignUp.createdSessionId, provision, activate)
                                         else [])
    {
      if completeSignUp.createdUserId.None? || completeSignUp.createdUserId.value == "" {
        assert effects == old(effects) + [];
        return;
      }
      var clerkId := completeSignUp.createdUserId.value;
      Provide(values, clerkId, completeSignUp.createdSessionId, provision, activate);
    }

    /** The backend call, the form reset and the status branch (index.ts:111-136). */
    method Provide(values: SignUpValues, clerkId: string, session: Option<string>,
                   provision: Outcome<UserResponse>, activate: Outcome<()>)
      modifies this
      ensures var settles := provision.Ok? && (provision.value.status != OkStatus || activate.Ok?);
              State() == old(State()).(
                creating := old(creating) && !settles,
                verifying := old(verifying) && !settles,
                form := if provision.Ok? then EmptyForm else old(form),
                errors := if provision.Ok? then map[] else old(errors),
                effects := old(effects) + ProvisioningLog(values, clerkId, session, provision, activate))
    {
      ghost var before := effects;
      var call := Provision(values.firstname, values.lastname, clerkId, "");
      effects := effects + [call];
      if provision.Throws? {
        effects := effects + [LogError];
        assert effects == before + [call, LogError];
        return;
      }
      form, errors := EmptyForm, map[];
      effects := effects + [Reset];
      assert effects == before + [call, Reset];
      ReportStatus(provision.value, session, activate);
      assert effects == before + ([call, Reset] + StatusLog(provision.value, session, activate));
    }

    /**
     * The status branch of `onInitiateUserRegistration` (index.ts:120-136).
     * The flags are cleared unless session activation threw.
     */
    method ReportStatus(user: UserResponse, session: Option<string>, activate: Outcome<()>)
      modifies this
      ensures var stuck := user.status == OkStatus && activate.Throws?;
              State() == old(State()).(
                creating := old(creating) && stuck,
                verifying := old(verifying) && stuck,
                effects := old(effects) + StatusLog(user, session, activate))
    {
      if user.status == OkStatus {
        effects := effects + [Toast(SuccessTitle, user.message), SetActive(session)];
        if activate.Throws? {
          effects := effects + [LogError];
          return;
        }
        effects := effects + [Push(GroupCreatePath)];
      }
      if user.status != OkStatus {
        effects := effects + [Toast(ErrorTitle, user.message + FailureSuffix), Refresh];
      }
      creating := false;
      verifying := false;
    }
  }
}
