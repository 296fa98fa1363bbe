/** The state the login flows act on: the Meteor users collection, the user the current
    connection is logged in as, and the ordered log of the external calls made. The
    foreign operations that change it (password and provider logins, account creation)
    are given their outcome as a parameter. */
module Accounts {
  import opened Js

  /** Meteor user ids are non-empty strings, so "logged in" is the same as a truthy `userId`. */
  type UserId = s: string | s != "" witness "u"

  /** One element of a user's `emails` array. */
  datatype EmailEntry = EmailEntry(address: string, verified: bool)

  /** What a social provider stored under `services.<name>` on login. */
  datatype ServiceEntry = ServiceEntry(email: string)

  datatype User = User(emails: seq<EmailEntry>, services: map<string, ServiceEntry>, profile: map<string, string>)

  /** Hydra's accept-login-request body. */
  datatype AcceptRequest = AcceptRequest(subject: UserId, remember: Value, rememberFor: int)

  /** The external calls the flows make, in the order they are made. */
  datatype Call =
    | LoginWithPassword(email: string)
    | LoginWithService(service: string, permissions: seq<string>)
    | CreateUser(email: string, profile: map<string, string>)
    | MethodCall(name: string, args: seq<Value>)
    | AcceptLoginRequest(challenge: string, request: AcceptRequest)

  /** Outcome of `Meteor.loginWithPassword` or `Accounts.createUser`: both log the connection in. */
  datatype SignInOutcome = SignedIn(id: UserId) | SignInFailed(error: Error)

  /** Outcome of `Meteor.loginWithGoogle`/`loginWithFacebook`: the account system stores the
      user's record (with its `services` entry) and logs the connection in. */
  datatype ServiceOutcome = Authorized(id: UserId, user: User) | Denied(error: Error)

  /** Outcome of Hydra's accept-login-request call. */
  datatype HydraOutcome = Accepted(redirectTo: string) | Refused(error: Error)

  datatype World = World(users: map<UserId, User>, session: Option<UserId>, calls: seq<Call>)
  {
    function Log(c: Call): World
    {
      this.(calls := calls + [c])
    }

    /** `Meteor.loginWithPassword(email, password)`; a failed login leaves the session as it was. */
    function PasswordLogin(email: string, o: SignInOutcome): World
    {
      var w := Log(LoginWithPassword(email));
      if o.SignedIn? then w.(session := Some(o.id)) else w
    }

    /** `Meteor.loginWith<Service>({requestPermissions})`. */
    function ServiceLogin(service: string, permissions: seq<string>, o: ServiceOutcome): World
    {
      var w := Log(LoginWithService(service, permissions));
      if o.Authorized? then w.(users := users[o.id := o.user], session := Some(o.id)) else w
    }

    /** `Accounts.createUser({email, password, profile})`: the new record holds the email,
        unverified, and the profile; the connection is logged in as the new user. */
    function AccountCreation(email: string, profile: map<string, string>, o: SignInOutcome): World
    {
      var w := Log(CreateUser(email, profile));
      if o.SignedIn? then
        w.(users := users[o.id := User([EmailEntry(email, false)], map[], profile)], session := Some(o.id))
      else w
    }
  }

  /** The result of a step together with the state it leaves. */
  datatype Step<T> = Step(world: World, result: T)

  class Backend {
    var users: map<UserId, User>
    var session: Option<UserId>
    var calls: seq<Call>

    function State(): World
      reads this
    {
      World(users, session, calls)
    }

    constructor (users: map<UserId, User>)
      ensures State() == World(users, None, [])
    {
      this.users := users;
      session := None;
      calls := [];
    }

    method Record(c: Call)
      modifies this
      ensures State() == old(State()).Log(c)
    {
      calls := calls + [c];
    }

    /** `Meteor.call("logout")` made by the server: the connection's user becomes null. */
    method Logout()
      modifies this
      ensures State() == old(State()).Log(MethodCall("logout", [])).(session := None)
    {
      Record(MethodCall("logout", []));
      session := None;
    }

    method LoginWithPassword(email: string, o: SignInOutcome)
      modifies this
      ensures State() == old(State()).PasswordLogin(email, o)
    {
      Record(Call.LoginWithPassword(email));
      if o.SignedIn? {
        session := Some(o.id);
      }
    }

    method LoginWithService(service: string, permissions: seq<string>, o: ServiceOutcome)
      modifies this
      ensures State() == old(State()).ServiceLogin(service, permissions, o)
    {
      Record(Call.LoginWithService(service, permissions));
      if o.Authorized? {
        users := users[o.id := o.user];
        session := Some(o.id);
      }
    }

    method CreateUser(email: string, profile: map<string, string>, o: SignInOutcome)
      modifies this
      ensures State() == old(State()).AccountCreation(email, profile, o)
    {
      Record(Call.CreateUser(email, profile));
      if o.SignedIn? {
        users := users[o.id := User([EmailEntry(email, false)], map[], profile)];
        session := Some(o.id);
      }
    }
  }
}
