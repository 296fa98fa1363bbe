/** The server methods `oauth/login`, `oauth/checkIfUserExists`, `oauth/extendFbUser` and
    `oauth/extendGoogleUser`. Each runs on the connection whose logged-in user is
    `session`. */
module OAuthMethods {
  import opened Js
  import opened Accounts

  /** `HYDRA_SESSION_LIFESPAN`, in seconds, when the environment does not set it. */
  const HydraSessionLifespan: int := 86400

  /** The arguments of `oauth/login` once `check` has accepted them. */
  datatype LoginArgs = LoginArgs(challenge: string, remember: Value)

  /** `Match.Maybe(Boolean)`: absent, null or a boolean. */
  predicate MaybeBoolean(v: Value)
  {
    v.Undefined? || v.Null? || v.Bool?
  }

  /** The three `check` calls, in order, then `{ challenge, remember = true } = options`
      (the default applies to `undefined` only: a `null` is passed on). */
  function ParseLoginOptions(options: Value): (r: Result<LoginArgs, Error>)
    ensures r.Success? <==>
      options.Object? && Get(options, "challenge").Str? && MaybeBoolean(Get(options, "remember"))
    ensures !options.Object? ==> r == Failure(MatchFailed("Object"))
    ensures options.Object? && !Get(options, "challenge").Str? ==> r == Failure(MatchFailed("String"))
    ensures r.Success? ==> r.value.challenge == Get(options, "challenge").s
    ensures r.Success? ==> r.value.remember.Bool? || r.value.remember.Null?
    ensures r.Success? && Get(options, "remember").Undefined? ==> r.value.remember == Bool(true)
    ensures r.Success? && !Get(options, "remember").Undefined? ==> r.value.remember == Get(options, "remember")
  {
    if !options.Object? then Failure(MatchFailed("Object"))
    else
      var challenge := Get(options, "challenge");
      var remember := Get(options, "remember");
      if !challenge.Str? then Failure(MatchFailed("String"))
      else if !MaybeBoolean(remember) then Failure(MatchFailed("Match.Maybe(Boolean)"))
      else Success(LoginArgs(challenge.s, if remember.Undefined? then Bool(true) else remember))
  }

  /** `oauth/login`: accept the challenge with Hydra for the logged-in user, then log out. */
  function OAuthLoginSpec(w: World, options: Value, hydra: HydraOutcome): (r: Step<Result<string, Error>>)
    ensures r.world.users == w.users
  {
    match ParseLoginOptions(options)
    case Failure(e) => Step(w, Failure(e))
    case Success(args) =>
      if w.session.None? then Step(w, Failure(AccessDenied))
      else
        var request := AcceptRequest(w.session.value, args.remember, HydraSessionLifespan);
        var accepted := w.Log(AcceptLoginRequest(args.challenge, request));
        match hydra
        case Accepted(url) => Step(accepted.Log(MethodCall("logout", [])).(session := None), Success(url))
        case Refused(e) => Step(accepted, Failure(e))
  }

  /** The argument checks come first; without a logged-in user nothing happens; otherwise
      Hydra is asked to accept the challenge for that user, and only an accepted challenge
      returns Hydra's URL and ends the session. */
  lemma OAuthLoginSpecFacts(w: World, options: Value, hydra: HydraOutcome)
    ensures var r := OAuthLoginSpec(w, options, hydra);
      (ParseLoginOptions(options).Failure? ==> r == Step(w, Failure(ParseLoginOptions(options).error))) &&
      (ParseLoginOptions(options).Success? && w.session.None? ==> r == Step(w, Failure(AccessDenied))) &&
      (r.result.Success? <==> ParseLoginOptions(options).Success? && w.session.Some? && hydra.Accepted?) &&
      (r.result.Success? ==> r.result.value == hydra.redirectTo && r.world.session == None) &&
      (r.result.Failure? ==> r.world.session == w.session) &&
      (ParseLoginOptions(options).Success? && w.session.Some? && hydra.Refused? ==>
        r.result == Failure(hydra.error))
    ensures var r := OAuthLoginSpec(w, options, hydra);
      var args := ParseLoginOptions(options);
      args.Success? && w.session.Some? ==>
        var request := AcceptRequest(w.session.value, args.value.remember, HydraSessionLifespan);
        r.world.calls == w.calls + [AcceptLoginRequest(args.value.challenge, request)]
          + (if hydra.Accepted? then [MethodCall("logout", [])] else [])
  {
  }

  method OAuthLogin(b: Backend, options: Value, hydra: HydraOutcome) returns (result: Result<string, Error>)
    modifies b
    ensures Step(b.State(), result) == OAuthLoginSpec(old(b.State()), options, hydra)
  {
    if !options.Object? {
      return Failure(MatchFailed("Object"));
    }
    var challenge := Get(options, "challenge");
    if !challenge.Str? {
      return Failure(MatchFailed("String"));
    }
    var remember := Get(options, "remember");
    if !MaybeBoolean(remember) {
      return Failure(MatchFailed("Match.Maybe(Boolean)"));
    }
    if remember.Undefined? {
      remember := Bool(true);
    }
    if b.session.None? {
      return Failure(AccessDenied);
    }
    b.Record(AcceptLoginRequest(challenge.s, AcceptRequest(b.session.value, remember, HydraSessionLifespan)));
    match hydra {
      case Accepted(url) =>
        b.Logout();
        result := Success(url);
      case Refused(e) =>
        result := Failure(e);
    }
  }

  /** `oauth/checkIfUserExists`. */
  function CheckIfUserExists(users: map<UserId, User>, id: string): (found: bool)
    ensures found <==> exists u: UserId :: u in users && u == id
  {
    id in users
  }

  /** MongoDB's `$addToSet` on an array: append `e` unless an equal element is already there. */
  function AddToSet<T(==)>(s: seq<T>, e: T): (r: seq<T>)
    ensures e in r
    ensures |s| <= |r| <= |s| + 1 && r[..|s|] == s
    ensures forall x :: x in r ==> x in s || x == e
    ensures e in s ==> r == s
  {
    if e in s then s else s + [e]
  }

  predicate Distinct<T(==)>(s: seq<T>)
  {
    forall i, j :: 0 <= i < j < |s| ==> s[i] != s[j]
  }

  /** A second `$addToSet` of the same element changes nothing. */
  lemma AddToSetIdempotent<T>(s: seq<T>, e: T)
    ensures AddToSet(AddToSet(s, e), e) == AddToSet(s, e)
  {
  }

  /** `$addToSet` never introduces a duplicate element. */
  lemma AddToSetKeepsDistinct<T>(s: seq<T>, e: T)
    requires Distinct(s)
    ensures Distinct(AddToSet(s, e))
  {
  }

  /** Elements are compared whole: an address already there with `verified: true` gets a
      second, unverified entry. */
  lemma AddToSetRepeatsVerifiedAddress(address: string)
    ensures var s := [EmailEntry(address, true)];
      AddToSet(s, EmailEntry(address, false)) == s + [EmailEntry(address, false)]
  {
  }

  /** `oauth/extendFbUser` and `oauth/extendGoogleUser`, for `service` "facebook" or "google":
      if the current user has a `services.<service>` entry, `$addToSet` its email, unverified,
      to the user's `emails`. `Meteor.user()` is null when nobody is logged in (or the record
      is gone), and reading a property of it throws. */
  function ExtendSpec(w: World, service: string): (r: Step<Option<Error>>)
    ensures r.world.session == w.session && r.world.calls == w.calls
    ensures r.result.Some? <==> w.session.None? || w.session.value !in w.users
    ensures r.result.Some? ==> r.result.value == TypeError && r.world == w
  {
    if w.session.None? || w.session.value !in w.users then Step(w, Some(TypeError))
    else
      var id := w.session.value;
      var user := w.users[id];
      if service in user.services then
        var entry := EmailEntry(user.services[service].email, false);
        Step(w.(users := w.users[id := user.(emails := AddToSet(user.emails, entry))]), None)
      else Step(w, None)
  }

  /** Only the logged-in user's `emails` change: with a `services.<service>` entry its email
      is added, unverified, with `$addToSet`; without one nothing changes. No user is added
      or removed, and the user's services and profile stay as they were. */
  lemma ExtendUpdatesOnlyCurrentUser(w: World, service: string)
    ensures var r := ExtendSpec(w, service);
      r.world.users.Keys == w.users.Keys &&
      (forall id | id in w.users && w.session != Some(id) :: r.world.users[id] == w.users[id]) &&
      (r.result.None? ==>
        var before := w.users[w.session.value];
        var after := r.world.users[w.session.value];
        after.services == before.services && after.profile == before.profile &&
        (service in before.services ==>
          after.emails == AddToSet(before.emails, EmailEntry(before.services[service].email, false))) &&
        (service !in before.services ==> after == before))
  {
  }

  /** Extending twice leaves the store as extending once does. */
  lemma ExtendIdempotent(w: World, service: string)
    ensures ExtendSpec(ExtendSpec(w, service).world, service) == ExtendSpec(w, service)
  {
    var once := ExtendSpec(w, service);
    if once.result.None? {
      var id := w.session.value;
      var user := w.users[id];
      if service in user.services {
        var entry := EmailEntry(user.services[service].email, false);
        AddToSetIdempotent(user.emails, entry);
        assert once.world.users[id].services[service] == user.services[service];
        assert once.world.users[id := once.world.users[id]] == once.world.users;
      }
    }
  }

  method ExtendUser(b: Backend, service: string) returns (error: Option<Error>)
    modifies b
    ensures Step(b.State(), error) == ExtendSpec(old(b.State()), service)
  {
    if b.session.None? || b.session.value !in b.users {
      return Some(TypeError);
    }
    var id := b.session.value;
    var user := b.users[id];
    if service in user.services {
      var entry := EmailEntry(user.services[service].email, false);
      b.users := b.users[id := user.(emails := AddToSet(user.emails, entry))];
    }
    error := None;
  }

  method ExtendFbUser(b: Backend) returns (error: Option<Error>)
    modifies b
    ensures Step(b.State(), error) == ExtendSpec(old(b.State()), "facebook")
  {
    error := ExtendUser(b, "facebook");
  }

  method ExtendGoogleUser(b: Backend) returns (error: Option<Error>)
    modifies b
    ensures Step(b.State(), error) == ExtendSpec(old(b.State()), "google")
  {
    error := ExtendUser(b, "google");
  }
}
