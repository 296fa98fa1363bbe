/** The sign-in page: `callSignIn` (password login, then `oauth/login`), its form schema, and
    the three handlers (password submit, Facebook, Google). */
module SignIn {
  import opened Js
  import opened Accounts
  import opened Promises
  import opened Client
  import opened Forms
  import AuthService
  import OAuthMethods

  /** `email` of at least 3 characters, `password` required. */
  const FormSchema: seq<Rule> := [Rule("email", false, 3), Rule("password", false, 0)]

  lemma FormValid(form: Form)
    ensures Validate(FormSchema, form) == [] <==>
      "email" in form && JsLength(form["email"]) >= 3 && "password" in form
  {
    ValidIff(FormSchema, form);
    assert Satisfies(FormSchema[0], form) && Satisfies(FormSchema[1], form) ==>
      forall i | 0 <= i < |FormSchema| :: Satisfies(FormSchema[i], form);
  }

  /** `callSignIn({ challenge, email, password })`. The password goes only to the foreign
      login call, so it is not part of the model. */
  function CallSignInTrace(w: World, c: Challenge, email: string, login: SignInOutcome, hydra: HydraOutcome): Trace<Option<string>>
  {
    var signedIn := w.PasswordLogin(email, login);
    if login.SignInFailed? then Trace(signedIn, [Reject(login.error)])
    else if !Truthy(c) then Trace(signedIn, [Resolve(None)])
    else
      var accepted := LoginCall(signedIn, c, hydra);
      Trace(accepted.world, [UrlAttempt(accepted.result)])
  }

  method CallSignIn(b: Backend, c: Challenge, email: string, login: SignInOutcome, hydra: HydraOutcome)
    returns (outcome: Promise<Option<string>>)
    modifies b
    ensures var t := CallSignInTrace(old(b.State()), c, email, login, hydra);
      b.State() == t.world && outcome == t.Outcome()
    ensures !outcome.Pending?
  {
    var promise := new Deferred<Option<string>>();
    b.LoginWithPassword(email, login);
    if login.SignInFailed? {
      promise.Reject(login.error);
    } else {
      if !Truthy(c) {
        promise.Resolve(None);
        return promise.state;
      }
      CallOAuthLoginSettling(b, promise, c, hydra);
    }
    outcome := promise.state;
  }

  /** A failed password login rejects and nothing else is called. */
  lemma CallSignInLoginFailure(w: World, c: Challenge, email: string, e: Error, hydra: HydraOutcome)
    ensures var t := CallSignInTrace(w, c, email, SignInFailed(e), hydra);
      t.Outcome() == Rejected(e) && t.world.calls == w.calls + [LoginWithPassword(email)]
  {
    RunIsFirst<Option<string>>([Reject(e)]);
  }

  /** Without a challenge the login is all there is: the promise resolves with no value and
      the user stays logged in. */
  lemma CallSignInWithoutChallenge(w: World, c: Challenge, email: string, id: UserId, hydra: HydraOutcome)
    requires !Truthy(c)
    ensures var t := CallSignInTrace(w, c, email, SignedIn(id), hydra);
      t.Outcome() == Fulfilled(None) && t.world.session == Some(id) &&
      t.world.calls == w.calls + [LoginWithPassword(email)]
  {
    RunIsFirst<Option<string>>([Resolve(None)]);
  }

  /** With a challenge, `oauth/login` accepts it for the user who just logged in, and the
      flow settles with the redirect URL or with Hydra's error. */
  lemma CallSignInWithChallenge(w: World, c: Challenge, email: string, id: UserId, hydra: HydraOutcome)
    requires Truthy(c)
    ensures var t := CallSignInTrace(w, c, email, SignedIn(id), hydra);
      t.world.calls == w.calls + [LoginWithPassword(email), MethodCall("oauth/login", [LoginOptions(c)]),
        AcceptLoginRequest(c.token, AcceptRequest(id, Bool(true), OAuthMethods.HydraSessionLifespan))]
        + (if hydra.Accepted? then [MethodCall("logout", [])] else []) &&
      t.Outcome() == (match hydra
        case Accepted(url) => Fulfilled(Some(url))
        case Refused(e) => Rejected(e)) &&
      (t.world.session == None <==> hydra.Accepted?)
  {
    var t := CallSignInTrace(w, c, email, SignedIn(id), hydra);
    RunIsFirst(t.attempts);
    LoginCallFacts(w.PasswordLogin(email, SignedIn(id)), c, hydra);
  }

  /** What a handler does: return a result, or throw out of the `async` function. */
  datatype HandlerOutcome = Returned(result: HandlerResult) | Threw(error: Error)

  /** `authWithGoogle` after `await signInWithGoogle(...)`, as written: it reads
      `result.isNew`, which throws when the flow resolved with no value. */
  function GoogleRouteAsWritten(c: Challenge, p: Promise<AuthService.GoogleResult>): HandlerOutcome
    requires !p.Pending?
  {
    match p
    case Rejected(e) => Returned(HandlerResult(false, Stay, Some(e)))
    case Fulfilled(NoResult) => Threw(TypeError)
    case Fulfilled(NewUser) =>
      Returned(HandlerResult(true, Push("/account/create?login_challenge=" + ChallengeText(c)), None))
    case Fulfilled(Existing(url)) =>
      Returned(HandlerResult(true, if url != "" then Redirect(url) else Stay, None))
  }

  /** A Google sign-in that succeeds without a challenge makes the handler throw. */
  lemma GoogleSignInWithoutChallengeThrows(w: World, c: Challenge, id: UserId, user: User,
                                           isNewUser: Result<bool, Error>, hydra: HydraOutcome)
    requires !Truthy(c)
    ensures var t := AuthService.SignInWithGoogleTrace(w, c, Authorized(id, user), isNewUser, hydra);
      !t.Outcome().Pending? && GoogleRouteAsWritten(c, t.Outcome()) == Threw(TypeError)
  {
    AuthService.NoChallengeStopsAfterLogin(w, c, id, user, "x", None, isNewUser, None, hydra);
  }

  /** `authWithGoogle` after the flow settles, with no value read as "nothing to do": a new
      user goes to the account-completion page for the same challenge (no browser redirect);
      otherwise the browser goes to the redirect URL when it is truthy. */
  function GoogleRoute(c: Challenge, p: Promise<AuthService.GoogleResult>): (r: HandlerResult)
    requires !p.Pending?
    ensures r.ok <==> p.Fulfilled?
    ensures r.submitError == (if p.Rejected? then Some(p.error) else None)
    ensures r.navigation.Push? <==> p == Fulfilled(AuthService.NewUser)
    ensures r.navigation.Push? ==> r.navigation.path == "/account/create?login_challenge=" + ChallengeText(c)
    ensures r.navigation.Redirect? <==> p.Fulfilled? && p.value.Existing? && p.value.redirectUrl != ""
    ensures r.navigation.Redirect? ==> r.navigation.url == p.value.redirectUrl
    ensures GoogleRouteAsWritten(c, p).Returned? ==> GoogleRouteAsWritten(c, p).result == r
  {
    match p
    case Rejected(e) => HandlerResult(false, Stay, Some(e))
    case Fulfilled(NoResult) => HandlerResult(true, Stay, None)
    case Fulfilled(NewUser) => HandlerResult(true, Push("/account/create?login_challenge=" + ChallengeText(c)), None)
    case Fulfilled(Existing(url)) => HandlerResult(true, if url != "" then Redirect(url) else Stay, None)
  }

  /** A new Google user is sent to `/account/create` with the challenge token. */
  lemma NewGoogleUserCompletesAccount(w: World, token: string, id: UserId, user: User, hydra: HydraOutcome)
    requires token != ""
    ensures var t := AuthService.SignInWithGoogleTrace(w, Param(token), Authorized(id, user), Success(true), hydra);
      !t.Outcome().Pending? &&
      GoogleRoute(Param(token), t.Outcome()) ==
        HandlerResult(true, Push("/account/create?login_challenge=" + token), None)
  {
    AuthService.GoogleNewUserSkipsLogin(w, Param(token), id, user, hydra);
  }

  /** The page's `login_challenge` query parameter, then `onSubmit`: the flow runs only when
      the form is valid. */
  method OnSubmit(b: Backend, query: map<string, Option<string>>, form: Form, login: SignInOutcome, hydra: HydraOutcome)
    returns (s: Submission)
    modifies b
    ensures Validate(FormSchema, form) != [] ==> s == Invalid(Validate(FormSchema, form)) && b.State() == old(b.State())
    ensures Validate(FormSchema, form) == [] ==>
      var t := CallSignInTrace(old(b.State()), FromQuery(query), form["email"], login, hydra);
      !t.Outcome().Pending? && s == Submitted(AfterSettle(t.Outcome())) && b.State() == t.world
  {
    var errors := Validate(FormSchema, form);
    if errors != [] {
      return Invalid(errors);
    }
    FormValid(form);
    var p := CallSignIn(b, FromQuery(query), form["email"], login, hydra);
    s := Submitted(AfterSettle(p));
  }

  method AuthWithFacebook(b: Backend, query: map<string, Option<string>>, login: ServiceOutcome, hydra: HydraOutcome)
    returns (r: HandlerResult)
    modifies b
    ensures var t := AuthService.SignInWithFacebookTrace(old(b.State()), FromQuery(query), login, hydra);
      !t.Outcome().Pending? && r == AfterSettle(t.Outcome()) && b.State() == t.world
  {
    var p := AuthService.SignInWithFacebook(b, FromQuery(query), login, hydra);
    r := AfterSettle(p);
  }

  method AuthWithGoogle(b: Backend, query: map<string, Option<string>>, login: ServiceOutcome,
                        isNewUser: Result<bool, Error>, hydra: HydraOutcome)
    returns (r: HandlerResult)
    modifies b
    ensures var c := FromQuery(query);
      var t := AuthService.SignInWithGoogleTrace(old(b.State()), c, login, isNewUser, hydra);
      !t.Outcome().Pending? && r == GoogleRoute(c, t.Outcome()) && b.State() == t.world
  {
    var c := FromQuery(query);
    var p := AuthService.SignInWithGoogle(b, c, login, isNewUser, hydra);
    r := GoogleRoute(c, p);
  }
}
