/**
 * Whole sessions of the registration flow: a sequence of user actions, each
 * run to completion with the outcomes its collaborators produced.  The
 * lemmas here are the properties of `useAuthSignUp` that only show over
 * several transitions (src/hooks/authentication/index.ts:45-156).
 */
module SignUpRuns {
  import opened Outcomes
  import opened AuthSignUp

  /** One user action on a mounted hook, with what the collaborators did during it. */
  datatype Event =
    | Fill(values: SignUpValues)
    | EnterCode(entered: string)
    | RequestCode(email: string, password: string, create: Outcome<()>, prepare: Outcome<()>)
    | Submit(validation: Validation, attempt: Outcome<Verification>,
             provision: Outcome<UserResponse>, activate: Outcome<()>)

  /** The effect of one action on the flow state. */
  function Step(s: FlowState, e: Event): (r: FlowState)
    ensures Extends(s, r) && r.loaded == s.loaded
    ensures !e.EnterCode? ==> r.code == s.code
    // the backend is only ever called as the provisioning step of a submission
    ensures forall i | 0 <= i < |Appended(s, r)| :: Appended(s, r)[i].Provision? ==> e.Submit? && i == 1
    // while the client is not loaded no action reaches a collaborator or touches the flags
    ensures !s.loaded ==> r.creating == s.creating && r.verifying == s.verifying
    ensures !s.loaded ==> forall x | x in Appended(s, r) :: !x.IsExternalCall()
    // `verifying` is only raised by a code request that asked for the e-mailed code
    ensures !s.verifying && r.verifying ==> e.RequestCode? && Prepare(EmailCode) in Appended(s, r)
  {
    match e
    case Fill(values) => s.(form := values)
    case EnterCode(entered) => s.(code := entered)
    case RequestCode(email, password, create, prepare) => GenerateCode(s, email, password, create, prepare)
    case Submit(validation, attempt, provision, activate) =>
      var values := if validation.Valid? then validation.values else s.form;
      RegistrationLogShape(s.code, values, attempt, provision, activate,
                           RegistrationLog(s.code, values, attempt, provision, activate));
      Register(s, validation, attempt, provision, activate)
  }

  /** The state after a whole sequence of actions. */
  function Run(s: FlowState, events: seq<Event>): (r: FlowState)
    ensures events == [] ==> r == s
    decreases |events|
  {
    if events == [] then s else Run(Step(s, events[0]), events[1..])
  }

  /** How many provisioning calls a log holds. */
  function Provisions(log: seq<Effect>): (n: nat)
    ensures n <= |log|
  {
    if log == [] then 0 else (if log[0].Provision? then 1 else 0) + Provisions(log[1..])
  }

  /** How many submissions a sequence of actions holds. */
  function Submissions(events: seq<Event>): (n: nat)
    ensures n <= |events|
  {
    if events == [] then 0 else (if events[0].Submit? then 1 else 0) + Submissions(events[1..])
  }

  lemma {:induction false} ProvisionsAppend(a: seq<Effect>, b: seq<Effect>)
    ensures Provisions(a + b) == Provisions(a) + Provisions(b)
  {
    if a == [] {
      assert a + b == b;
    } else {
      assert (a + b)[1..] == a[1..] + b;
      ProvisionsAppend(a[1..], b);
    }
  }

  /** A log whose only possible provisioning call sits at position `k` holds at most one. */
  lemma {:induction false} ProvisionsAtMostOne(log: seq<Effect>, k: nat)
    requires forall i | 0 <= i < |log| :: log[i].Provision? ==> i == k
    ensures Provisions(log) <= 1
    ensures k >= |log| || !log[k].Provision? ==> Provisions(log) == 0
  {
    if log != [] {
      if k == 0 {
        ProvisionsAtMostOne(log[1..], |log|);
      } else {
        ProvisionsAtMostOne(log[1..], k - 1);
      }
    }
  }

  /** The effect log of a session only grows: what happened is never rewritten. */
  lemma {:induction false} RunExtends(s: FlowState, events: seq<Event>)
    ensures Extends(s, Run(s, events)) && Run(s, events).loaded == s.loaded
    decreases |events|
  {
    if events != [] {
      var next := Step(s, events[0]);
      RunExtends(next, events[1..]);
      var r := Run(next, events[1..]);
      assert r.effects[..|s.effects|] == r.effects[..|next.effects|][..|s.effects|];
    }
  }

  /** Neither transition touches the code: only the user's typing changes it. */
  lemma {:induction false} RunKeepsCode(s: FlowState, events: seq<Event>)
    requires forall i | 0 <= i < |events| :: !events[i].EnterCode?
    ensures Run(s, events).code == s.code
    decreases |events|
  {
    if events != [] {
      RunKeepsCode(Step(s, events[0]), events[1..]);
    }
  }

  /** One action calls the backend at most once, and only if it is a submission. */
  lemma StepProvisions(s: FlowState, e: Event)
    ensures Extends(s, Step(s, e))
    ensures Provisions(Appended(s, Step(s, e))) <= (if e.Submit? then 1 else 0)
  {
    var added := Appended(s, Step(s, e));
    if e.Submit? {
      ProvisionsAtMostOne(added, 1);
    } else {
      ProvisionsAtMostOne(added, |added|);
    }
  }

  /** Over a whole session the backend is called at most once per submission. */
  lemma {:induction false} RunProvisionsPerSubmission(s: FlowState, events: seq<Event>)
    ensures Extends(s, Run(s, events))
    ensures Provisions(Appended(s, Run(s, events))) <= Submissions(events)
    decreases |events|
  {
    RunExtends(s, events);
    if events != [] {
      var next := Step(s, events[0]);
      var r := Run(s, events);
      assert r == Run(next, events[1..]);
      StepProvisions(s, events[0]);
      RunProvisionsPerSubmission(next, events[1..]);
      var first, rest := Appended(s, next), Appended(next, r);
      assert Appended(s, r) == first + rest;
      ProvisionsAppend(first, rest);
    }
  }

  /**
   * While the sign-up client is not loaded, no sequence of actions calls the
   * provider or the backend, and neither flag moves.
   */
  lemma {:induction false} RunNotLoadedInert(s: FlowState, events: seq<Event>)
    requires !s.loaded
    ensures Extends(s, Run(s, events))
    ensures Run(s, events).creating == s.creating && Run(s, events).verifying == s.verifying
    ensures forall x | x in Appended(s, Run(s, events)) :: !x.IsExternalCall()
    decreases |events|
  {
    RunExtends(s, events);
    if events != [] {
      var next := Step(s, events[0]);
      var r := Run(s, events);
      RunNotLoadedInert(next, events[1..]);
      assert Appended(s, r) == Appended(s, next) + Appended(next, r);
    }
  }

  /**
   * `verifying` never becomes true without the e-mailed code having been
   * requested from the provider during the session.
   */
  lemma {:induction false} RunVerifyingNeedsCodeRequest(s: FlowState, events: seq<Event>)
    requires !s.verifying && Run(s, events).verifying
    ensures Extends(s, Run(s, events))
    ensures Prepare(EmailCode) in Appended(s, Run(s, events))
    decreases |events|
  {
    RunExtends(s, events);
    if events == [] {
      assert false;
    }
    var next := Step(s, events[0]);
    var r := Run(s, events);
    RunExtends(next, events[1..]);
    assert Appended(s, r) == Appended(s, next) + Appended(next, r);
    if !next.verifying {
      RunVerifyingNeedsCodeRequest(next, events[1..]);
    }
  }

  /**
   * The flags are not kept in step: a registration whose verification call
   * throws leaves `creating` set although no code was ever requested.
   */
  lemma CreatingWithoutVerifying(values: SignUpValues)
    ensures var r := Run(Initial(true), [Submit(Valid(values), Throws, Throws, Throws)]);
            r.creating && !r.verifying
  {
  }

  /** Three actions in a row. */
  lemma RunThree(s: FlowState, a: Event, b: Event, c: Event)
    ensures Run(s, [a, b, c]) == Step(Step(Step(s, a), b), c)
  {
    var s1 := Step(s, a);
    var s2 := Step(s1, b);
    assert [a, b, c][1..] == [b, c];
    assert [b, c][1..] == [c];
    assert Run(s2, [c]) == Run(Step(s2, c), []);
    assert Run(s, [a, b, c]) == Run(s1, [b, c]) == Run(s2, [c]);
  }

  /**
   * A complete happy path: a code request, the code "000000", a complete
   * verification and a backend that answers 200 end with the session
   * activated, navigation to the group page, an empty form and both flags down.
   */
  lemma HappyPath(values: SignUpValues)
    ensures var s0 := Initial(true).(form := values);
            var r := Run(s0, [RequestCode("a@b.com", "Secret123!", Ok(()), Ok(())),
                              EnterCode("000000"),
                              Submit(Valid(values), Ok(Verification("complete", Some("sess_1"), Some("usr_1"))),
                                     Ok(UserResponse(200, "Welcome")), Ok(()))]);
            // the code request's two calls, then the registration's six effects
            r.effects == [Create(values.email, values.password), Prepare(EmailCode)]
                         + [Verify("000000"), Provision(values.firstname, values.lastname, "usr_1", ""), Reset,
                            Toast(SuccessTitle, "Welcome"), SetActive(Some("sess_1")), Push(GroupCreatePath)]
            && !r.creating && !r.verifying && r.form == EmptyForm
  {
    var s0 := Initial(true).(form := values);
    var request := RequestCode("a@b.com", "Secret123!", Ok(()), Ok(()));
    var entry := EnterCode("000000");
    var attempt := Ok(Verification("complete", Some("sess_1"), Some("usr_1")));
    var submit := Submit(Valid(values), attempt, Ok(UserResponse(200, "Welcome")), Ok(()));
    RunThree(s0, request, entry, submit);
    var s1 := GenerateCode(s0, "a@b.com", "Secret123!", Ok(()), Ok(()));
    assert s1.effects == [Create(values.email, values.password), Prepare(EmailCode)];
    var s2 := s1.(code := "000000");
    SuccessfulRegistrationLog("000000", values, attempt.value, "Welcome");
    var s3 := Register(s2, Valid(values), attempt, Ok(UserResponse(200, "Welcome")), Ok(()));
    assert !s3.creating && !s3.verifying && s3.form == EmptyForm;
  }
}
