/** The social sign-in flows: `signInWithFacebook`, `signInWithGoogle` and
    `SignUpWithGoogle`. Each is a promise executor that chains callbacks. Several error
    branches call `reject` without returning, so the calls after them still run; the
    promise keeps the first settlement. */
module AuthService {
  import opened Js
  import opened Accounts
  import opened Promises
  import opened Client
  import OAuthMethods

  const FacebookPermissions: seq<string> := ["email", "public_profile"]
  const GooglePermissions: seq<string> := ["email"]
  const FirstNameRequired: Error := Message("El campo 'Primer Nombre' es requerido!")

  /** How `signInWithGoogle` resolves: nothing (no challenge), `{ isNew: true }`, or
      `{ redirectUrl, isNew: false }`. */
  datatype GoogleResult = NoResult | NewUser | Existing(redirectUrl: string)

  function LoginError(login: ServiceOutcome): Option<Error>
  {
    if login.Denied? then Some(login.error) else None
  }

  function SignInWithFacebookTrace(w: World, c: Challenge, login: ServiceOutcome, hydra: HydraOutcome): Trace<Option<string>>
  {
    var signedIn := w.ServiceLogin("facebook", FacebookPermissions, login);
    if login.Authorized? && !Truthy(c) then Trace(signedIn, [Resolve(None)])
    else
      var extended := ExtendCall(signedIn, "oauth/extendFbUser", "facebook");
      var accepted := LoginCall(extended.world, c, hydra);
      Trace(accepted.world,
        RejectIf(LoginError(login)) + RejectIf(extended.result) + [UrlAttempt(accepted.result)])
  }

  function SignInWithGoogleTrace(w: World, c: Challenge, login: ServiceOutcome,
                                 isNewUser: Result<bool, Error>, hydra: HydraOutcome): Trace<GoogleResult>
  {
    var signedIn := w.ServiceLogin("google", GooglePermissions, login);
    if login.Authorized? && !Truthy(c) then Trace(signedIn, [Resolve(NoResult)])
    else
      var extended := ExtendCall(signedIn, "oauth/extendGoogleUser", "google");
      var checked := UserCheckThenLogin(extended.world, c, isNewUser, hydra);
      Trace(checked.world, RejectIf(LoginError(login)) + RejectIf(extended.result) + checked.attempts)
  }

  /** `Meteor.call("oauth/isNewUser", callback)`: the callback rejects on an error without
      returning; a new user resolves `{ isNew: true }`; otherwise, and also after an error
      (`isNew` is then undefined), it calls `oauth/login`. */
  function UserCheckThenLogin(w: World, c: Challenge, isNewUser: Result<bool, Error>,
                              hydra: HydraOutcome): Trace<GoogleResult>
  {
    var asked := w.Log(MethodCall("oauth/isNewUser", []));
    var rejected := RejectIf(CheckError(isNewUser));
    if isNewUser == Success(true) then Trace(asked, rejected + [Resolve(NewUser)])
    else
      var accepted := LoginCall(asked, c, hydra);
      Trace(accepted.world, rejected + [ExistingAttempt(accepted.result)])
  }

  function CheckError(isNewUser: Result<bool, Error>): Option<Error>
  {
    if isNewUser.Failure? then Some(isNewUser.error) else None
  }

  /** The `oauth/login` callback of `signInWithGoogle`: `reject(oauthLoginError)` or
      `resolve({ redirectUrl, isNew: false })`. */
  function ExistingAttempt(r: Result<string, Error>): Attempt<GoogleResult>
  {
    match r
    case Success(url) => Resolve(Existing(url))
    case Failure(e) => Reject(e)
  }

  /** `firstName`/`lastName` are the raw form values: `None` when the form has no such key. */
  function SignUpWithGoogleTrace(w: World, c: Challenge, firstName: Option<string>, lastName: Option<string>,
                                 login: ServiceOutcome, updateUserInfo: Option<Error>,
                                 hydra: HydraOutcome): Trace<Option<string>>
  {
    if firstName.None? || firstName.value == "" then Trace(w, [Reject(FirstNameRequired)])
    else GoogleSignUpChain(w, c, firstName.value, lastName, login, updateUserInfo, hydra)
  }

  /** The `else` branch of `SignUpWithGoogle`: Google login, then (with a challenge)
      `oauth/extendGoogleUser` and `UpdateThenLogin`. */
  function GoogleSignUpChain(w: World, c: Challenge, firstName: string, lastName: Option<string>,
                             login: ServiceOutcome, updateUserInfo: Option<Error>,
                             hydra: HydraOutcome): Trace<Option<string>>
  {
    var signedIn := w.ServiceLogin("google", GooglePermissions, login);
    if login.Authorized? && !Truthy(c) then Trace(signedIn, [Resolve(None)])
    else
      var extended := ExtendCall(signedIn, "oauth/extendGoogleUser", "google");
      var updated := UpdateThenLogin(extended.world, c, firstName, lastName, updateUserInfo, hydra);
      Trace(updated.world, RejectIf(LoginError(login)) + RejectIf(extended.result) + updated.attempts)
  }

  method SignInWithFacebook(b: Backend, c: Challenge, login: ServiceOutcome, hydra: HydraOutcome)
    returns (outcome: Promise<Option<string>>)
    modifies b
    ensures var t := SignInWithFacebookTrace(old(b.State()), c, login, hydra);
      b.State() == t.world && outcome == t.Outcome()
    ensures !outcome.Pending?
  {
    var promise := new Deferred<Option<string>>();
    b.LoginWithService("facebook", FacebookPermissions, login);
    if login.Denied? {
      promise.Reject(login.error);
    } else if !Truthy(c) {
      promise.Resolve(None);
      return promise.state;
    }
    ghost var afterLogin := promise.attempts;
    assert afterLogin == RejectIf(LoginError(login));
    var extendError := CallExtend(b, "oauth/extendFbUser", "facebook");
    promise.RejectOn(extendError);
    ghost var afterExtend := promise.attempts;
    assert afterExtend == afterLogin + RejectIf(extendError);
    CallOAuthLoginSettling(b, promise, c, hydra);
    outcome := promise.state;
  }

  method SignInWithGoogle(b: Backend, c: Challenge, login: ServiceOutcome,
                          isNewUser: Result<bool, Error>, hydra: HydraOutcome)
    returns (outcome: Promise<GoogleResult>)
    modifies b
    ensures var t := SignInWithGoogleTrace(old(b.State()), c, login, isNewUser, hydra);
      b.State() == t.world && outcome == t.Outcome()
    ensures !outcome.Pending?
  {
    var promise := new Deferred<GoogleResult>();
    b.LoginWithService("google", GooglePermissions, login);
    if login.Denied? {
      promise.Reject(login.error);
    } else if !Truthy(c) {
      promise.Resolve(NoResult);
      return promise.state;
    }
    ghost var afterLogin := promise.attempts;
    assert afterLogin == RejectIf(LoginError(login));
    var extendError := CallExtend(b, "oauth/extendGoogleUser", "google");
    promise.RejectOn(extendError);
    ghost var afterExtend := promise.attempts;
    assert afterExtend == afterLogin + RejectIf(extendError);
    CallUserCheckThenLogin(b, promise, c, isNewUser, hydra);
    outcome := promise.state;
  }

  method CallUserCheckThenLogin(b: Backend, promise: Deferred<GoogleResult>, c: Challenge,
                                isNewUser: Result<bool, Error>, hydra: HydraOutcome)
    requires promise.Valid()
    modifies b, promise
    ensures var t := UserCheckThenLogin(old(b.State()), c, isNewUser, hydra);
      promise.Valid() && b.State() == t.world && promise.attempts == old(promise.attempts) + t.attempts
    ensures !promise.state.Pending?
  {
    ghost var before := promise.attempts;
    b.Record(MethodCall("oauth/isNewUser", []));
    promise.RejectOn(CheckError(isNewUser));
    if isNewUser.Success? && isNewUser.value {
      promise.Resolve(NewUser);
      AppendAssoc(before, RejectIf(CheckError(isNewUser)), [Resolve(NewUser)]);
    } else {
      ghost var asked := b.State();
      CallOAuthLoginExisting(b, promise, c, hydra);
      AppendAssoc(before, RejectIf(CheckError(isNewUser)), [ExistingAttempt(LoginCall(asked, c, hydra).result)]);
    }
  }

  method CallOAuthLoginExisting(b: Backend, promise: Deferred<GoogleResult>, c: Challenge, hydra: HydraOutcome)
    requires promise.Valid()
    modifies b, promise
    ensures var r := LoginCall(old(b.State()), c, hydra);
      b.State() == r.world && promise.Valid() && promise.attempts == old(promise.attempts) + [ExistingAttempt(r.result)]
    ensures !promise.state.Pending?
  {
    var redirect := CallOAuthLogin(b, c, hydra);
    if redirect.Failure? {
      promise.Reject(redirect.error);
    } else {
      promise.Resolve(Existing(redirect.value));
    }
  }

  method SignUpWithGoogle(b: Backend, c: Challenge, firstName: Option<string>, lastName: Option<string>,
                          login: ServiceOutcome, updateUserInfo: Option<Error>, hydra: HydraOutcome)
    returns (outcome: Promise<Option<string>>)
    modifies b
    ensures var t := SignUpWithGoogleTrace(old(b.State()), c, firstName, lastName, login, updateUserInfo, hydra);
      b.State() == t.world && outcome == t.Outcome()
    ensures !outcome.Pending?
  {
    if firstName.None? || firstName.value == "" {
      var promise := new Deferred<Option<string>>();
      promise.Reject(FirstNameRequired);
      outcome := promise.state;
    } else {
      outcome := RunGoogleSignUpChain(b, c, firstName.value, lastName, login, updateUserInfo, hydra);
    }
  }

  method RunGoogleSignUpChain(b: Backend, c: Challenge, firstName: string, lastName: Option<string>,
                              login: ServiceOutcome, updateUserInfo: Option<Error>, hydra: HydraOutcome)
    returns (outcome: Promise<Option<string>>)
    modifies b
    ensures var t := GoogleSignUpChain(old(b.State()), c, firstName, lastName, login, updateUserInfo, hydra);
      b.State() == t.world && outcome == t.Outcome()
    ensures !outcome.Pending?
  {
    var promise := new Deferred<Option<string>>();
    b.LoginWithService("google", GooglePermissions, login);
    if login.Denied? {
      promise.Reject(login.error);
    } else if !Truthy(c) {
      promise.Resolve(None);
      return promise.state;
    }
    ghost var afterLogin := promise.attempts;
    assert afterLogin == RejectIf(LoginError(login));
    var extendError := CallExtend(b, "oauth/extendGoogleUser", "google");
    promise.RejectOn(extendError);
    ghost var afterExtend := promise.attempts;
    assert afterExtend == afterLogin + RejectIf(extendError);
    CallUpdateThenLogin(b, promise, c, firstName, lastName, updateUserInfo, hydra);
    outcome := promise.state;
  }

  // Properties of the three flows.

  /** A provider login that succeeds without a challenge resolves with no value and makes
      no server call. */
  lemma NoChallengeStopsAfterLogin(w: World, c: Challenge, id: UserId, user: User,
                                   firstName: string, lastName: Option<string>,
                                   isNewUser: Result<bool, Error>, updateUserInfo: Option<Error>,
                                   hydra: HydraOutcome)
    requires !Truthy(c) && firstName != ""
    ensures var t := SignInWithFacebookTrace(w, c, Authorized(id, user), hydra);
      t.Outcome() == Fulfilled(None) &&
      t.world == w.ServiceLogin("facebook", FacebookPermissions, Authorized(id, user)) &&
      t.world.calls == w.calls + [LoginWithService("facebook", FacebookPermissions)]
    ensures var t := SignInWithGoogleTrace(w, c, Authorized(id, user), isNewUser, hydra);
      t.Outcome() == Fulfilled(NoResult) &&
      t.world.calls == w.calls + [LoginWithService("google", GooglePermissions)]
    ensures var t := SignUpWithGoogleTrace(w, c, Some(firstName), lastName, Authorized(id, user), updateUserInfo, hydra);
      t.Outcome() == Fulfilled(None) &&
      t.world.calls == w.calls + [LoginWithService("google", GooglePermissions)]
  {
    RunIsFirst<Option<string>>([Resolve(None)]);
    RunIsFirst([Resolve(NoResult)]);
  }

  /** A failed provider login is the outcome, whatever the later steps do: the executor goes
      on to `oauth/extendFbUser` and `oauth/login`, but the settled promise ignores them. */
  lemma FacebookLoginFailureWins(w: World, c: Challenge, e: Error, hydra: HydraOutcome)
    ensures var t := SignInWithFacebookTrace(w, c, Denied(e), hydra);
      t.Outcome() == Rejected(e) && MethodCall("oauth/login", [LoginOptions(c)]) in t.world.calls
  {
    var t := SignInWithFacebookTrace(w, c, Denied(e), hydra);
    RunIsFirst(t.attempts);
    var extended := ExtendCall(w.ServiceLogin("facebook", FacebookPermissions, Denied(e)), "oauth/extendFbUser", "facebook").world;
    LoginCallFacts(extended, c, hydra);
    assert t.world.calls[|extended.calls|] == MethodCall("oauth/login", [LoginOptions(c)]);
  }

  /** The same for `signInWithGoogle`; `oauth/login` runs unless `isNewUser` answers true. */
  lemma GoogleLoginFailureWins(w: World, c: Challenge, e: Error, isNewUser: Result<bool, Error>, hydra: HydraOutcome)
    ensures var t := SignInWithGoogleTrace(w, c, Denied(e), isNewUser, hydra);
      t.Outcome() == Rejected(e) &&
      (isNewUser != Success(true) ==> MethodCall("oauth/login", [LoginOptions(c)]) in t.world.calls)
  {
    var t := SignInWithGoogleTrace(w, c, Denied(e), isNewUser, hydra);
    RunIsFirst(t.attempts);
    var asked := ExtendCall(w.ServiceLogin("google", GooglePermissions, Denied(e)), "oauth/extendGoogleUser", "google")
      .world.Log(MethodCall("oauth/isNewUser", []));
    if isNewUser != Success(true) {
      LoginCallFacts(asked, c, hydra);
      assert t.world.calls[|asked.calls|] == MethodCall("oauth/login", [LoginOptions(c)]);
    }
  }

  /** The same for `SignUpWithGoogle` once a first name is given. */
  lemma SignUpLoginFailureWins(w: World, c: Challenge, e: Error, firstName: string, lastName: Option<string>,
                               updateUserInfo: Option<Error>, hydra: HydraOutcome)
    requires firstName != ""
    ensures var t := SignUpWithGoogleTrace(w, c, Some(firstName), lastName, Denied(e), updateUserInfo, hydra);
      t.Outcome() == Rejected(e) && MethodCall("oauth/login", [LoginOptions(c)]) in t.world.calls
  {
    var t := SignUpWithGoogleTrace(w, c, Some(firstName), lastName, Denied(e), updateUserInfo, hydra);
    RunIsFirst(t.attempts);
    var updated := ExtendCall(w.ServiceLogin("google", GooglePermissions, Denied(e)), "oauth/extendGoogleUser", "google")
      .world.Log(MethodCall("oauth/updateUserInfo", [UserInfo(firstName, lastName)]));
    LoginCallFacts(updated, c, hydra);
    assert t.world.calls[|updated.calls|] == MethodCall("oauth/login", [LoginOptions(c)]);
  }

  /** With a challenge, `signInWithFacebook` links the Facebook email, then calls
      `oauth/login` for the user who just logged in, and settles with its result. */
  lemma FacebookWithChallenge(w: World, c: Challenge, id: UserId, user: User, hydra: HydraOutcome)
    requires Truthy(c)
    ensures var t := SignInWithFacebookTrace(w, c, Authorized(id, user), hydra);
      t.world.calls[..|w.calls| + 3] == w.calls +
        [LoginWithService("facebook", FacebookPermissions), MethodCall("oauth/extendFbUser", []),
         MethodCall("oauth/login", [LoginOptions(c)])] &&
      AcceptLoginRequest(c.token, AcceptRequest(id, Bool(true), OAuthMethods.HydraSessionLifespan)) in t.world.calls &&
      t.Outcome() == (match hydra
        case Accepted(url) => Fulfilled(Some(url))
        case Refused(e) => Rejected(e)) &&
      ("facebook" in user.services ==>
        EmailEntry(user.services["facebook"].email, false) in t.world.users[id].emails)
  {
    var t := SignInWithFacebookTrace(w, c, Authorized(id, user), hydra);
    RunIsFirst(t.attempts);
    var signedIn := w.ServiceLogin("facebook", FacebookPermissions, Authorized(id, user));
    var logged := signedIn.Log(MethodCall("oauth/extendFbUser", []));
    OAuthMethods.ExtendUpdatesOnlyCurrentUser(logged, "facebook");
    var extended := ExtendCall(signedIn, "oauth/extendFbUser", "facebook");
    assert extended.result.None?;
    var accepted := LoginCall(extended.world, c, hydra);
    assert t == Trace(accepted.world, [UrlAttempt(accepted.result)]);
    LoginCallFacts(extended.world, c, hydra);
    assert t.world.calls[|extended.world.calls| + 1] == AcceptLoginRequest(c.token, AcceptRequest(id, Bool(true), OAuthMethods.HydraSessionLifespan));
  }

  /** A user `oauth/isNewUser` reports as new is sent to complete the account: the flow
      resolves `{ isNew: true }`, and `oauth/login` is never called. */
  lemma GoogleNewUserSkipsLogin(w: World, c: Challenge, id: UserId, user: User, hydra: HydraOutcome)
    requires Truthy(c)
    ensures var t := SignInWithGoogleTrace(w, c, Authorized(id, user), Success(true), hydra);
      t.Outcome() == Fulfilled(NewUser) &&
      t.world.calls == w.calls + [LoginWithService("google", GooglePermissions),
        MethodCall("oauth/extendGoogleUser", []), MethodCall("oauth/isNewUser", [])] &&
      t.world.session == Some(id) &&
      ("google" in user.services ==> EmailEntry(user.services["google"].email, false) in t.world.users[id].emails)
  {
    var t := SignInWithGoogleTrace(w, c, Authorized(id, user), Success(true), hydra);
    RunIsFirst(t.attempts);
  }

  /** An existing user gets the challenge accepted: `{ redirectUrl, isNew: false }` with the
      URL Hydra returned, or Hydra's error. */
  /** After a successful Google login with a challenge, the flow is the `oauth/isNewUser`
      callback run on the extended user, after the login and the extend call. */
  lemma GoogleSignInAfterExtend(w: World, c: Challenge, id: UserId, user: User,
                                isNewUser: Result<bool, Error>, hydra: HydraOutcome)
    requires Truthy(c)
    ensures var extended := ExtendCall(w.ServiceLogin("google", GooglePermissions, Authorized(id, user)),
        "oauth/extendGoogleUser", "google");
      extended.result.None? && extended.world.session == Some(id) &&
      extended.world.calls == w.calls + [LoginWithService("google", GooglePermissions),
        MethodCall("oauth/extendGoogleUser", [])] &&
      SignInWithGoogleTrace(w, c, Authorized(id, user), isNewUser, hydra)
        == UserCheckThenLogin(extended.world, c, isNewUser, hydra)
  {
    var extended := ExtendCall(w.ServiceLogin("google", GooglePermissions, Authorized(id, user)),
      "oauth/extendGoogleUser", "google");
    var checked := UserCheckThenLogin(extended.world, c, isNewUser, hydra);
    assert RejectIf<GoogleResult>(LoginError(Authorized(id, user))) + RejectIf(extended.result) + checked.attempts
      == checked.attempts;
  }

  lemma GoogleExistingUserAccepts(w: World, c: Challenge, id: UserId, user: User, hydra: HydraOutcome)
    requires Truthy(c)
    ensures var t := SignInWithGoogleTrace(w, c, Authorized(id, user), Success(false), hydra);
      t.world.calls[..|w.calls| + 4] == w.calls + [LoginWithService("google", GooglePermissions),
        MethodCall("oauth/extendGoogleUser", []), MethodCall("oauth/isNewUser", []),
        MethodCall("oauth/login", [LoginOptions(c)])] &&
      AcceptLoginRequest(c.token, AcceptRequest(id, Bool(true), OAuthMethods.HydraSessionLifespan)) in t.world.calls &&
      t.Outcome() == (match hydra
        case Accepted(url) => Fulfilled(Existing(url))
        case Refused(e) => Rejected(e)) &&
      (t.world.session == None <==> hydra.Accepted?)
  {
    GoogleSignInAfterExtend(w, c, id, user, Success(false), hydra);
    var extended := ExtendCall(w.ServiceLogin("google", GooglePermissions, Authorized(id, user)),
      "oauth/extendGoogleUser", "google");
    var asked := extended.world.Log(MethodCall("oauth/isNewUser", []));
    var accepted := LoginCall(asked, c, hydra);
    var t := UserCheckThenLogin(extended.world, c, Success(false), hydra);
    assert t == Trace(accepted.world, [ExistingAttempt(accepted.result)]);
    RunIsFirst(t.attempts);
    LoginCallFacts(asked, c, hydra);
    assert accepted.world.calls[|asked.calls| + 1] == AcceptLoginRequest(c.token, AcceptRequest(id, Bool(true), OAuthMethods.HydraSessionLifespan));
  }

  /** When `oauth/isNewUser` fails the caller sees that error, yet `oauth/login` still
      runs (its callback's `isNew` is undefined) and logs the user out if Hydra accepts. */
  lemma GoogleUserCheckFailureStillAccepts(w: World, c: Challenge, id: UserId, user: User, e: Error, url: string)
    requires Truthy(c)
    ensures var t := SignInWithGoogleTrace(w, c, Authorized(id, user), Failure(e), Accepted(url));
      t.Outcome() == Rejected(e) &&
      AcceptLoginRequest(c.token, AcceptRequest(id, Bool(true), OAuthMethods.HydraSessionLifespan)) in t.world.calls &&
      t.world.session == None
  {
    var t := SignInWithGoogleTrace(w, c, Authorized(id, user), Failure(e), Accepted(url));
    RunIsFirst(t.attempts);
    var signedIn := w.ServiceLogin("google", GooglePermissions, Authorized(id, user));
    var asked := ExtendCall(signedIn, "oauth/extendGoogleUser", "google").world.Log(MethodCall("oauth/isNewUser", []));
    LoginCallFacts(asked, c, Accepted(url));
    assert t.world.calls[|asked.calls| + 1] == AcceptLoginRequest(c.token, AcceptRequest(id, Bool(true), OAuthMethods.HydraSessionLifespan));
  }

  /** A failed Google login does not stop the chain: if the connection was already logged in
      as `previous`, the challenge is accepted for that user and the session is ended, while
      the caller sees only the login error. */
  lemma GoogleLoginFailureAcceptsForPreviousUser(w: World, token: string, previous: UserId, e: Error, url: string)
    requires w.session == Some(previous) && previous in w.users
    ensures var t := SignInWithGoogleTrace(w, Param(token), Denied(e), Success(false), Accepted(url));
      t.Outcome() == Rejected(e) &&
      AcceptLoginRequest(token, AcceptRequest(previous, Bool(true), OAuthMethods.HydraSessionLifespan)) in t.world.calls &&
      t.world.session == None
  {
    var t := SignInWithGoogleTrace(w, Param(token), Denied(e), Success(false), Accepted(url));
    RunIsFirst(t.attempts);
    var signedIn := w.ServiceLogin("google", GooglePermissions, Denied(e));
    var asked := ExtendCall(signedIn, "oauth/extendGoogleUser", "google").world.Log(MethodCall("oauth/isNewUser", []));
    LoginCallFacts(asked, Param(token), Accepted(url));
    assert t.world.calls[|asked.calls| + 1] == AcceptLoginRequest(token, AcceptRequest(previous, Bool(true), OAuthMethods.HydraSessionLifespan));
  }

  /** Without a first name `SignUpWithGoogle` rejects before any call is made. */
  lemma SignUpRequiresFirstName(w: World, c: Challenge, firstName: Option<string>, lastName: Option<string>,
                                login: ServiceOutcome, updateUserInfo: Option<Error>, hydra: HydraOutcome)
    requires firstName.None? || firstName.value == ""
    ensures var t := SignUpWithGoogleTrace(w, c, firstName, lastName, login, updateUserInfo, hydra);
      t.Outcome() == Rejected(FirstNameRequired) && t.world == w
  {
    RunIsFirst<Option<string>>([Reject(FirstNameRequired)]);
  }

  /** With a challenge, `SignUpWithGoogle` links the Google email, sends the names (never the
      phone) to `oauth/updateUserInfo`, then calls `oauth/login` for the new user. */
  lemma SignUpCallOrder(w: World, c: Challenge, id: UserId, user: User, firstName: string,
                        lastName: Option<string>, updateUserInfo: Option<Error>, hydra: HydraOutcome)
    requires Truthy(c) && firstName != ""
    ensures "phone" !in UserInfo(firstName, lastName).fields
    ensures var t := SignUpWithGoogleTrace(w, c, Some(firstName), lastName, Authorized(id, user), updateUserInfo, hydra);
      t.world.calls[..|w.calls| + 4] == w.calls +
        [LoginWithService("google", GooglePermissions), MethodCall("oauth/extendGoogleUser", []),
         MethodCall("oauth/updateUserInfo", [UserInfo(firstName, lastName)]),
         MethodCall("oauth/login", [LoginOptions(c)])] &&
      AcceptLoginRequest(c.token, AcceptRequest(id, Bool(true), OAuthMethods.HydraSessionLifespan)) in t.world.calls
  {
    var signedIn := w.ServiceLogin("google", GooglePermissions, Authorized(id, user));
    var extended := ExtendCall(signedIn, "oauth/extendGoogleUser", "google");
    UpdateThenLoginOrder(extended.world, c, firstName, lastName, updateUserInfo, hydra);
  }

  /** With a first name, the provider's popup is the first thing `signUpWithGoogle` does. */
  lemma SignUpStartsWithProvider(w: World, c: Challenge, firstName: string, lastName: Option<string>,
                                 login: ServiceOutcome, updateUserInfo: Option<Error>, hydra: HydraOutcome)
    requires firstName != ""
    ensures var t := SignUpWithGoogleTrace(w, c, Some(firstName), lastName, login, updateUserInfo, hydra);
      |t.world.calls| > |w.calls| &&
      t.world.calls[|w.calls|] == LoginWithService("google", GooglePermissions)
  {
    var signedIn := w.ServiceLogin("google", GooglePermissions, login);
    if !(login.Authorized? && !Truthy(c)) {
      var extended := ExtendCall(signedIn, "oauth/extendGoogleUser", "google");
      UpdateThenLoginOrder(extended.world, c, firstName, lastName, updateUserInfo, hydra);
      assert extended.world.calls[|w.calls|] == LoginWithService("google", GooglePermissions);
    }
  }

  /** A failed update is what the caller sees, although `oauth/login` has run all the same;
      otherwise the flow settles with `oauth/login`'s result. */
  lemma SignUpOutcome(w: World, c: Challenge, id: UserId, user: User, firstName: string,
                      lastName: Option<string>, updateUserInfo: Option<Error>, hydra: HydraOutcome)
    requires Truthy(c) && firstName != ""
    ensures var t := SignUpWithGoogleTrace(w, c, Some(firstName), lastName, Authorized(id, user), updateUserInfo, hydra);
      t.Outcome() == (if updateUserInfo.Some? then Rejected(updateUserInfo.value)
        else match hydra
          case Accepted(url) => Fulfilled(Some(url))
          case Refused(e) => Rejected(e))
  {
    var signedIn := w.ServiceLogin("google", GooglePermissions, Authorized(id, user));
    var extended := ExtendCall(signedIn, "oauth/extendGoogleUser", "google");
    assert extended.result.None? && extended.world.session.Some?;
    var updated := UpdateThenLogin(extended.world, c, firstName, lastName, updateUserInfo, hydra);
    UpdateThenLoginOutcome(extended.world, c, firstName, lastName, updateUserInfo, hydra);
    assert SignUpWithGoogleTrace(w, c, Some(firstName), lastName, Authorized(id, user), updateUserInfo, hydra).attempts
      == updated.attempts;
  }
}
