/** The account-completion page a new Google user is sent to: `callSignIn` (update the
    profile, then `oauth/login`), its form schema and its submit handler. */
module CreateAccount {
  import opened Js
  import opened Accounts
  import opened Promises
  import opened Client
  import opened Forms
  import OAuthMethods

  /** `firstName` required, `lastName` optional (the page marks both as required, but only
      the schema decides). */
  const FormSchema: seq<Rule> := [Rule("firstName", false, 0), Rule("lastName", true, 0)]

  lemma FormValid(form: Form)
    ensures Validate(FormSchema, form) == [] <==> "firstName" in form
  {
    ValidIff(FormSchema, form);
    assert Satisfies(FormSchema[0], form) && Satisfies(FormSchema[1], form) ==>
      forall i | 0 <= i < |FormSchema| :: Satisfies(FormSchema[i], form);
  }

  /** `callSignIn({ challenge, firstName, lastName })`: the profile update, whose error is
      rejected without a `return`, then `oauth/login` in every case (`UpdateThenLogin`). */
  method CallSignIn(b: Backend, c: Challenge, firstName: string, lastName: Option<string>,
                    updateUserInfo: Option<Error>, hydra: HydraOutcome)
    returns (outcome: Promise<Option<string>>)
    modifies b
    ensures var t := UpdateThenLogin(old(b.State()), c, firstName, lastName, updateUserInfo, hydra);
      b.State() == t.world && outcome == t.Outcome()
    ensures !outcome.Pending?
  {
    var promise := new Deferred<Option<string>>();
    CallUpdateThenLogin(b, promise, c, firstName, lastName, updateUserInfo, hydra);
    assert promise.attempts == UpdateThenLogin(old(b.State()), c, firstName, lastName, updateUserInfo, hydra).attempts;
    outcome := promise.state;
  }

  /** A failed update is the outcome, but the challenge is still accepted (and the session
      ended) when the user is logged in and Hydra accepts. */
  lemma UpdateFailureStillAccepts(w: World, token: string, id: UserId, firstName: string, lastName: Option<string>,
                                  e: Error, url: string)
    requires w.session == Some(id)
    ensures var t := UpdateThenLogin(w, Param(token), firstName, lastName, Some(e), Accepted(url));
      t.Outcome() == Rejected(e) && t.world.session == None &&
      AcceptLoginRequest(token, AcceptRequest(id, Bool(true), OAuthMethods.HydraSessionLifespan)) in t.world.calls
  {
    var t := UpdateThenLogin(w, Param(token), firstName, lastName, Some(e), Accepted(url));
    RunIsFirst(t.attempts);
    var updated := w.Log(MethodCall("oauth/updateUserInfo", [UserInfo(firstName, lastName)]));
    LoginCallFacts(updated, Param(token), Accepted(url));
    assert t.world.calls[|updated.calls| + 1] == AcceptLoginRequest(token, AcceptRequest(id, Bool(true), OAuthMethods.HydraSessionLifespan));
  }

  /** After a successful update the flow settles with `oauth/login`'s result. The challenge
      comes from the query string; without one the server's string check rejects the call
      and Hydra is never contacted. */
  lemma CallSignInOutcome(w: World, c: Challenge, firstName: string, lastName: Option<string>, hydra: HydraOutcome)
    ensures var t := UpdateThenLogin(w, c, firstName, lastName, None, hydra);
      t.Outcome() == (match LoginCall(w.Log(MethodCall("oauth/updateUserInfo", [UserInfo(firstName, lastName)])), c, hydra).result
        case Success(url) => Fulfilled(Some(url))
        case Failure(e) => Rejected(e)) &&
      (!c.Param? ==>
        t.Outcome() == Rejected(MatchFailed("String")) &&
        t.world.calls == w.calls + [MethodCall("oauth/updateUserInfo", [UserInfo(firstName, lastName)]),
          MethodCall("oauth/login", [LoginOptions(c)])])
  {
    var t := UpdateThenLogin(w, c, firstName, lastName, None, hydra);
    RunIsFirst(t.attempts);
    var updated := w.Log(MethodCall("oauth/updateUserInfo", [UserInfo(firstName, lastName)]));
    LoginCallFacts(updated, c, hydra);
  }

  /** The page's `login_challenge` query parameter, then `onSubmit`: the flow runs only when
      the form is valid. */
  method OnSubmit(b: Backend, query: map<string, Option<string>>, form: Form, updateUserInfo: Option<Error>,
                  hydra: HydraOutcome)
    returns (s: Submission)
    modifies b
    ensures Validate(FormSchema, form) != [] ==> s == Invalid(Validate(FormSchema, form)) && b.State() == old(b.State())
    ensures Validate(FormSchema, form) == [] ==>
      var t := UpdateThenLogin(old(b.State()), FromQuery(query), form["firstName"],
        if "lastName" in form then Some(form["lastName"]) else None, updateUserInfo, hydra);
      !t.Outcome().Pending? && s == Submitted(AfterSettle(t.Outcome())) && b.State() == t.world
  {
    var errors := Validate(FormSchema, form);
    if errors != [] {
      return Invalid(errors);
    }
    FormValid(form);
    var lastName := if "lastName" in form then Some(form["lastName"]) else None;
    var p := CallSignIn(b, FromQuery(query), form["firstName"], lastName, updateUserInfo, hydra);
    s := Submitted(AfterSettle(p));
  }
}
