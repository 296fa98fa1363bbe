/** What the browser flows share: the `login_challenge` query parameter, the `Meteor.call`
    stubs they go through, and the trace a flow leaves. */
module Client {
  import opened Js
  import opened Accounts
  import opened Promises
  import OAuthMethods

  /** `queryString.parse(location.search).login_challenge`: absent, present without a value
      (`?login_challenge`, parsed as null) or a string. */
  datatype Challenge = Missing | NullParam | Param(token: string)

  function FromQuery(query: map<string, Option<string>>): (c: Challenge)
    ensures c.Missing? <==> "login_challenge" !in query
    ensures c.Param? <==> "login_challenge" in query && query["login_challenge"].Some?
    ensures c.Param? ==> c.token == query["login_challenge"].value
  {
    if "login_challenge" !in query then Missing
    else match query["login_challenge"]
      case None => NullParam
      case Some(token) => Param(token)
  }

  /** `!!challenge`. */
  predicate Truthy(c: Challenge)
  {
    c.Param? && c.token != ""
  }

  /** The challenge inside a template literal. */
  function ChallengeText(c: Challenge): string
  {
    match c
    case Missing => "undefined"
    case NullParam => "null"
    case Param(token) => token
  }

  /** `{ challenge }` as the server receives it: an `undefined` property is not sent. */
  function LoginOptions(c: Challenge): Value
  {
    match c
    case Missing => Object(map[])
    case NullParam => Object(map["challenge" := Null])
    case Param(token) => Object(map["challenge" := Str(token)])
  }

  /** `{ firstName, lastName }` as the server receives it. */
  function UserInfo(firstName: string, lastName: Option<string>): Value
  {
    Object(map["firstName" := Str(firstName)] +
      if lastName.Some? then map["lastName" := Str(lastName.value)] else map[])
  }

  /** `Meteor.call("oauth/login", { challenge })`. */
  function LoginCall(w: World, c: Challenge, hydra: HydraOutcome): Step<Result<string, Error>>
  {
    var w' := w.Log(MethodCall("oauth/login", [LoginOptions(c)]));
    OAuthMethods.OAuthLoginSpec(w', LoginOptions(c), hydra)
  }

  /** What `oauth/login` does when a client calls it. No client sends `remember`, so the
      server asks Hydra to remember the login; only a string challenge gets past the
      server's check, so a missing challenge fails even for a logged-in user. */
  lemma LoginCallFacts(w: World, c: Challenge, hydra: HydraOutcome)
    ensures var r := LoginCall(w, c, hydra);
      r.world.users == w.users &&
      |r.world.calls| > |w.calls| &&
      r.world.calls[..|w.calls| + 1] == w.calls + [MethodCall("oauth/login", [LoginOptions(c)])] &&
      (!c.Param? ==>
        r == Step(w.Log(MethodCall("oauth/login", [LoginOptions(c)])), Failure(MatchFailed("String")))) &&
      (c.Param? && w.session.None? ==>
        r == Step(w.Log(MethodCall("oauth/login", [LoginOptions(c)])), Failure(AccessDenied))) &&
      (c.Param? && w.session.Some? ==>
        var request := AcceptRequest(w.session.value, Bool(true), OAuthMethods.HydraSessionLifespan);
        r.world.calls == w.calls + [MethodCall("oauth/login", [LoginOptions(c)]), AcceptLoginRequest(c.token, request)]
          + (if hydra.Accepted? then [MethodCall("logout", [])] else [])) &&
      (r.result.Success? <==> c.Param? && w.session.Some? && hydra.Accepted?) &&
      (r.result.Success? ==> r.result.value == hydra.redirectTo && r.world.session == None) &&
      (c.Param? && w.session.Some? && hydra.Refused? ==> r.result == Failure(hydra.error)) &&
      (r.result.Failure? ==> r.world.session == w.session)
  {
    var w' := w.Log(MethodCall("oauth/login", [LoginOptions(c)]));
    OAuthMethods.OAuthLoginSpecFacts(w', LoginOptions(c), hydra);
    assert w'.calls[..|w.calls| + 1] == w.calls + [MethodCall("oauth/login", [LoginOptions(c)])];
  }

  /** `Meteor.call("oauth/extendFbUser")` (`name` names the server method, `service` the
      provider it links). It fails exactly when nobody is logged in or the logged-in user's
      record is gone. */
  function ExtendCall(w: World, name: string, service: string): (r: Step<Option<Error>>)
    ensures r.world.session == w.session && r.world.calls == w.calls + [MethodCall(name, [])]
    ensures r.result.Some? <==> w.session.None? || w.session.value !in w.users
  {
    OAuthMethods.ExtendSpec(w.Log(MethodCall(name, [])), service)
  }

  /** The settle attempts a flow made, and the state it left. */
  datatype Trace<T> = Trace(world: World, attempts: seq<Attempt<T>>)
  {
    function Outcome(): Promise<T>
    {
      Run(attempts)
    }
  }

  /** The `oauth/login` callback of the flows that resolve with the URL itself:
      `reject(oauthLoginError)` or `resolve(redirectUrl)`. */
  function UrlAttempt(r: Result<string, Error>): Attempt<Option<string>>
  {
    match r
    case Success(url) => Resolve(Some(url))
    case Failure(e) => Reject(e)
  }

  /** `Meteor.call("oauth/updateUserInfo", { firstName, lastName })`, whose callback rejects
      on an error without returning and then calls `oauth/login`, resolving with its URL. */
  function UpdateThenLogin(w: World, c: Challenge, firstName: string, lastName: Option<string>,
                           updateUserInfo: Option<Error>, hydra: HydraOutcome): Trace<Option<string>>
  {
    var accepted := LoginCall(w.Log(MethodCall("oauth/updateUserInfo", [UserInfo(firstName, lastName)])), c, hydra);
    Trace(accepted.world, RejectIf(updateUserInfo) + [UrlAttempt(accepted.result)])
  }

  /** The profile update comes first and `oauth/login` right after it, whatever the
      update's outcome; with a challenge and a logged-in user, Hydra is asked next to accept
      the challenge for that user. The users are not changed. */
  lemma UpdateThenLoginOrder(w: World, c: Challenge, firstName: string, lastName: Option<string>,
                             updateUserInfo: Option<Error>, hydra: HydraOutcome)
    ensures var t := UpdateThenLogin(w, c, firstName, lastName, updateUserInfo, hydra);
      t.world.users == w.users &&
      |t.world.calls| >= |w.calls| + 2 &&
      t.world.calls[..|w.calls| + 2] == w.calls +
        [MethodCall("oauth/updateUserInfo", [UserInfo(firstName, lastName)]), MethodCall("oauth/login", [LoginOptions(c)])] &&
      (c.Param? && w.session.Some? ==>
        |t.world.calls| > |w.calls| + 2 &&
        t.world.calls[|w.calls| + 2] ==
          AcceptLoginRequest(c.token, AcceptRequest(w.session.value, Bool(true), OAuthMethods.HydraSessionLifespan)))
  {
    var updated := w.Log(MethodCall("oauth/updateUserInfo", [UserInfo(firstName, lastName)]));
    LoginCallFacts(updated, c, hydra);
  }
  /** With a challenge and a signed-in user, the promise settles on the `oauth/updateUserInfo`
      error when there is one (the `oauth/login` call still goes out), and on Hydra's answer
      otherwise. */
  lemma UpdateThenLoginOutcome(w: World, c: Challenge, firstName: string, lastName: Option<string>,
                               updateUserInfo: Option<Error>, hydra: HydraOutcome)
    requires c.Param? && w.session.Some?
    ensures var t := UpdateThenLogin(w, c, firstName, lastName, updateUserInfo, hydra);
      t.Outcome() == (if updateUserInfo.Some? then Rejected(updateUserInfo.value)
        else match hydra
          case Accepted(url) => Fulfilled(Some(url))
          case Refused(e) => Rejected(e))
  {
    var t := UpdateThenLogin(w, c, firstName, lastName, updateUserInfo, hydra);
    RunIsFirst(t.attempts);
    var updated := w.Log(MethodCall("oauth/updateUserInfo", [UserInfo(firstName, lastName)]));
    LoginCallFacts(updated, c, hydra);
  }


  method CallOAuthLogin(b: Backend, c: Challenge, hydra: HydraOutcome) returns (result: Result<string, Error>)
    modifies b
    ensures Step(b.State(), result) == LoginCall(old(b.State()), c, hydra)
  {
    b.Record(MethodCall("oauth/login", [LoginOptions(c)]));
    result := OAuthMethods.OAuthLogin(b, LoginOptions(c), hydra);
  }

  method CallExtend(b: Backend, name: string, service: string) returns (error: Option<Error>)
    modifies b
    ensures Step(b.State(), error) == ExtendCall(old(b.State()), name, service)
  {
    b.Record(MethodCall(name, []));
    error := OAuthMethods.ExtendUser(b, service);
  }

  /** Runs `UpdateThenLogin` on the backend, settling `promise` along the way. */
  method CallUpdateThenLogin(b: Backend, promise: Deferred<Option<string>>, c: Challenge, firstName: string,
                             lastName: Option<string>, updateUserInfo: Option<Error>, hydra: HydraOutcome)
    requires promise.Valid()
    modifies b, promise
    ensures var t := UpdateThenLogin(old(b.State()), c, firstName, lastName, updateUserInfo, hydra);
      promise.Valid() && b.State() == t.world && promise.attempts == old(promise.attempts) + t.attempts
    ensures !promise.state.Pending?
  {
    ghost var before := promise.attempts;
    b.Record(MethodCall("oauth/updateUserInfo", [UserInfo(firstName, lastName)]));
    promise.RejectOn(updateUserInfo);
    ghost var w := b.State();
    CallOAuthLoginSettling(b, promise, c, hydra);
    AppendAssoc(before, RejectIf(updateUserInfo), [UrlAttempt(LoginCall(w, c, hydra).result)]);
  }

  /** `Meteor.call("oauth/login", { challenge }, callback)` whose callback rejects with the
      error or resolves with the redirect URL. */
  method CallOAuthLoginSettling(b: Backend, promise: Deferred<Option<string>>, c: Challenge, hydra: HydraOutcome)
    requires promise.Valid()
    modifies b, promise
    ensures var r := LoginCall(old(b.State()), c, hydra);
      b.State() == r.world && promise.Valid() && promise.attempts == old(promise.attempts) + [UrlAttempt(r.result)]
    ensures !promise.state.Pending?
  {
    var redirect := CallOAuthLogin(b, c, hydra);
    SettleUrl(promise, redirect);
  }

  /** The `oauth/login` callback: `reject(oauthLoginError)` or `resolve(redirectUrl)`. */
  method SettleUrl(promise: Deferred<Option<string>>, redirect: Result<string, Error>)
    requires promise.Valid()
    modifies promise
    ensures promise.Valid() && promise.attempts == old(promise.attempts) + [UrlAttempt(redirect)]
    ensures !promise.state.Pending?
  {
    if redirect.Failure? {
      promise.Reject(redirect.error);
    } else {
      promise.Resolve(Some(redirect.value));
    }
  }
}
