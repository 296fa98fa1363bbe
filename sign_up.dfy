/** The sign-up page: `callSignUp` (create the account, then `oauth/login`), the profile it
    stores, its form schema, and the three handlers (submit, Facebook, Google). */
module SignUp {
  import opened Js
  import opened Accounts
  import opened Promises
  import opened Client
  import opened Forms
  import AuthService
  import OAuthMethods

  /** `email` at least 3 characters, `password` at least 6, `firstName` and `phone`
      required, `lastName` optional. */
  const FormSchema: seq<Rule> := [
    Rule("email", false, 3), Rule("password", false, 6), Rule("firstName", false, 0),
    Rule("lastName", true, 0), Rule("phone", false, 0)]

  lemma FormValid(form: Form)
    ensures Validate(FormSchema, form) == [] <==>
      "email" in form && JsLength(form["email"]) >= 3 && "password" in form && JsLength(form["password"]) >= 6 &&
      "firstName" in form && "phone" in form
  {
    ValidIff(FormSchema, form);
    if "email" in form && JsLength(form["email"]) >= 3 && "password" in form && JsLength(form["password"]) >= 6 &&
       "firstName" in form && "phone" in form {
      assert forall i | 0 <= i < |FormSchema| :: Satisfies(FormSchema[i], form);
    } else {
      assert !Satisfies(FormSchema[0], form) || !Satisfies(FormSchema[1], form) ||
        !Satisfies(FormSchema[2], form) || !Satisfies(FormSchema[4], form);
    }
  }

  /** `lastName` is optional: a form without it is valid. */
  lemma LastNameOptional(form: Form)
    requires Validate(FormSchema, form) == []
    ensures Validate(FormSchema, form - {"lastName"}) == []
  {
    FormValid(form);
    FormValid(form - {"lastName"});
  }

  function Lookup(form: Form, key: string): Option<string>
  {
    if key in form then Some(form[key]) else None
  }

  /** `${firstName} ${lastName}` as written: an absent last name prints as "undefined". */
  function DisplayNameAsWritten(firstName: string, lastName: Option<string>): string
  {
    firstName + " " + (if lastName.Some? then lastName.value else "undefined")
  }

  /** Without a last name the stored name ends in the word "undefined". */
  lemma DisplayNameAsWrittenShowsUndefined(firstName: string)
    ensures DisplayNameAsWritten(firstName, None) == firstName + " undefined"
    ensures DisplayNameAsWritten("Ana", None) == "Ana undefined"
  {
  }

  /** The display name made of the names the user gave, separated by one space. */
  function DisplayName(firstName: string, lastName: Option<string>): (name: string)
    ensures |firstName| <= |name| && name[..|firstName|] == firstName
    ensures lastName.None? ==> name == firstName
    ensures lastName.Some? ==> name == DisplayNameAsWritten(firstName, lastName)
  {
    if lastName.Some? then firstName + " " + lastName.value else firstName
  }

  /** The `profile` passed to `Accounts.createUser`; an undefined `lastName` is not stored. */
  function Profile(firstName: string, lastName: Option<string>, phone: string): (p: map<string, string>)
    ensures p.Keys == {"firstName", "name", "phone"} + (if lastName.Some? then {"lastName"} else {})
    ensures p["firstName"] == firstName && p["phone"] == phone && p["name"] == DisplayName(firstName, lastName)
    ensures lastName.Some? ==> p["lastName"] == lastName.value
  {
    map["firstName" := firstName, "name" := DisplayName(firstName, lastName), "phone" := phone] +
      if lastName.Some? then map["lastName" := lastName.value] else map[]
  }

  /** `callSignUp({ challenge, email, password, firstName, lastName, phone })`. */
  function CallSignUpTrace(w: World, c: Challenge, email: string, firstName: string, lastName: Option<string>,
                           phone: string, create: SignInOutcome, hydra: HydraOutcome): Trace<Option<string>>
  {
    var created := w.AccountCreation(email, Profile(firstName, lastName, phone), create);
    if create.SignInFailed? then Trace(created, [Reject(create.error)])
    else if !Truthy(c) then Trace(created, [Resolve(None)])
    else
      var accepted := LoginCall(created, c, hydra);
      Trace(accepted.world, [UrlAttempt(accepted.result)])
  }

  method CallSignUp(b: Backend, c: Challenge, email: string, firstName: string, lastName: Option<string>,
                    phone: string, create: SignInOutcome, hydra: HydraOutcome)
    returns (outcome: Promise<Option<string>>)
    modifies b
    ensures var t := CallSignUpTrace(old(b.State()), c, email, firstName, lastName, phone, create, hydra);
      b.State() == t.world && outcome == t.Outcome()
    ensures !outcome.Pending?
  {
    var promise := new Deferred<Option<string>>();
    b.CreateUser(email, Profile(firstName, lastName, phone), create);
    if create.SignInFailed? {
      promise.Reject(create.error);
    } else {
      if !Truthy(c) {
        promise.Resolve(None);
        return promise.state;
      }
      CallOAuthLoginSettling(b, promise, c, hydra);
    }
    outcome := promise.state;
  }

  /** A failed account creation rejects and `oauth/login` is not called. */
  lemma CallSignUpCreateFailure(w: World, c: Challenge, email: string, firstName: string, lastName: Option<string>,
                                phone: string, e: Error, hydra: HydraOutcome)
    ensures var t := CallSignUpTrace(w, c, email, firstName, lastName, phone, SignInFailed(e), hydra);
      t.Outcome() == Rejected(e) && t.world.calls == w.calls + [CreateUser(email, Profile(firstName, lastName, phone))] &&
      t.world.users == w.users
  {
    RunIsFirst<Option<string>>([Reject(e)]);
  }

  /** A created account holds the email, unverified, and the profile; without a challenge the
      flow resolves with no value and the new user stays logged in. */
  lemma CallSignUpWithoutChallenge(w: World, c: Challenge, email: string, firstName: string, lastName: Option<string>,
                                   phone: string, id: UserId, hydra: HydraOutcome)
    requires !Truthy(c)
    ensures var t := CallSignUpTrace(w, c, email, firstName, lastName, phone, SignedIn(id), hydra);
      t.Outcome() == Fulfilled(None) && t.world.session == Some(id) &&
      t.world.calls == w.calls + [CreateUser(email, Profile(firstName, lastName, phone))] &&
      id in t.world.users && t.world.users[id].emails == [EmailEntry(email, false)] &&
      t.world.users[id].profile["name"] == DisplayName(firstName, lastName)
  {
    RunIsFirst<Option<string>>([Resolve(None)]);
  }

  /** With a challenge, `oauth/login` accepts it for the new user, and the flow settles with
      the redirect URL or with Hydra's error. */
  lemma CallSignUpWithChallenge(w: World, c: Challenge, email: string, firstName: string, lastName: Option<string>,
                                phone: string, id: UserId, hydra: HydraOutcome)
    requires Truthy(c)
    ensures var t := CallSignUpTrace(w, c, email, firstName, lastName, phone, SignedIn(id), hydra);
      t.world.calls == w.calls + [CreateUser(email, Profile(firstName, lastName, phone)),
        MethodCall("oauth/login", [LoginOptions(c)]),
        AcceptLoginRequest(c.token, AcceptRequest(id, Bool(true), OAuthMethods.HydraSessionLifespan))]
        + (if hydra.Accepted? then [MethodCall("logout", [])] else []) &&
      t.Outcome() == (match hydra
        case Accepted(url) => Fulfilled(Some(url))
        case Refused(e) => Rejected(e))
  {
    var t := CallSignUpTrace(w, c, email, firstName, lastName, phone, SignedIn(id), hydra);
    RunIsFirst(t.attempts);
    LoginCallFacts(w.AccountCreation(email, Profile(firstName, lastName, phone), SignedIn(id)), c, hydra);
  }

  /** `signUpWithGoogle` hands the raw form values to `SignUpWithGoogle` without the
      validator: a form with only a first name, which the schema rejects, still starts the
      Google login. */
  lemma GoogleSignUpSkipsValidation(w: World, c: Challenge, firstName: string, login: ServiceOutcome,
                                    updateUserInfo: Option<Error>, hydra: HydraOutcome)
    requires firstName != ""
    ensures var value := map["firstName" := firstName];
      Validate(FormSchema, value) != [] &&
      var t := AuthService.SignUpWithGoogleTrace(w, c, Lookup(value, "firstName"), Lookup(value, "lastName"),
        login, updateUserInfo, hydra);
      |t.world.calls| > |w.calls| &&
      t.world.calls[|w.calls|] == LoginWithService("google", AuthService.GooglePermissions)
  {
    var value := map["firstName" := firstName];
    FormValid(value);
    assert Lookup(value, "firstName") == Some(firstName);
    AuthService.SignUpStartsWithProvider(w, c, firstName, Lookup(value, "lastName"), login, updateUserInfo, hydra);
  }

  /** The page's `login_challenge` query parameter, then `onSubmit`: the flow runs only when
      the form is valid. */
  method OnSubmit(b: Backend, query: map<string, Option<string>>, form: Form, create: SignInOutcome, hydra: HydraOutcome)
    returns (s: Submission)
    modifies b
    ensures Validate(FormSchema, form) != [] ==> s == Invalid(Validate(FormSchema, form)) && b.State() == old(b.State())
    ensures Validate(FormSchema, form) == [] ==>
      "email" in form && "firstName" in form && "phone" in form &&
      var t := CallSignUpTrace(old(b.State()), FromQuery(query), form["email"], form["firstName"],
        Lookup(form, "lastName"), form["phone"], create, hydra);
      !t.Outcome().Pending? && s == Submitted(AfterSettle(t.Outcome())) && b.State() == t.world
  {
    var errors := Validate(FormSchema, form);
    if errors != [] {
      return Invalid(errors);
    }
    FormValid(form);
    var p := CallSignUp(b, FromQuery(query), form["email"], form["firstName"], Lookup(form, "lastName"),
      form["phone"], create, hydra);
    s := Submitted(AfterSettle(p));
  }

  method SignUpWithFacebook(b: Backend, query: map<string, Option<string>>, login: ServiceOutcome, hydra: HydraOutcome)
    returns (r: HandlerResult)
    modifies b
    ensures var t := AuthService.SignInWithFacebookTrace(old(b.State()), FromQuery(query), login, hydra);
      !t.Outcome().Pending? && r == AfterSettle(t.Outcome()) && b.State() == t.world
  {
    var p := AuthService.SignInWithFacebook(b, FromQuery(query), login, hydra);
    r := AfterSettle(p);
  }

  /** `value` is the form's current values as `onChange` last reported them. */
  method SignUpWithGoogle(b: Backend, query: map<string, Option<string>>, value: Form, login: ServiceOutcome,
                          updateUserInfo: Option<Error>, hydra: HydraOutcome)
    returns (r: HandlerResult)
    modifies b
    ensures var t := AuthService.SignUpWithGoogleTrace(old(b.State()), FromQuery(query),
        Lookup(value, "firstName"), Lookup(value, "lastName"), login, updateUserInfo, hydra);
      !t.Outcome().Pending? && r == AfterSettle(t.Outcome()) && b.State() == t.world
  {
    var p := AuthService.SignUpWithGoogle(b, FromQuery(query), Lookup(value, "firstName"), Lookup(value, "lastName"),
      login, updateUserInfo, hydra);
    r := AfterSettle(p);
  }
}
