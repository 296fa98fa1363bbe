# Login-challenge bridge of reaction-identity-lulis, in Dafny

The identity service sits between an OAuth2 authorization server (ORY Hydra) and Meteor's
accounts system. A browser comes to a sign-in, sign-up or account-completion page carrying a
`login_challenge` query parameter. It logs the user in by password, by Facebook or Google, or by
creating an account. It then calls the server method `oauth/login`, which:

- checks its arguments;
- asks Hydra to accept the challenge for the logged-in user;
- logs the Meteor session out;
- returns Hydra's redirect URL, which the browser follows.

This project models that bridge. It covers:

- the server methods in `server/oauthMethods.js`;
- the promise-returning client flows in `services/auth.js`;
- the three pages (`SignIn.js`, `SignUp.js`, `CreateAccount.js`): their `call…` flows, their
  form schemas and their handlers.

Modules, one per source file plus three shared ones:

| module | file | models |
|---|---|---|
| `Js` | js.dfy | JavaScript values as Meteor methods receive them; `Option`, `Result`, errors |
| `Promises` | promises.dfy | settle-once promises: the executor's attempts, of which the first wins (`Run`, `RunIsFirst`), and the `Deferred` result cell the flows settle |
| `Accounts` | accounts.dfy | the users collection, the connection's logged-in user and the log of external calls, as the `Backend` class with its pure view `World`; the foreign logins and `Accounts.createUser` as outcome parameters |
| `OAuthMethods` | oauth_methods.dfy | `oauthLogin`, `checkIfUserExists`, `extendFbUser`, `extendGoogleUser` |
| `Client` | client.dfy | the `login_challenge` parameter, `Meteor.call` of `oauth/login` and `oauth/extend…User`, and a flow's trace |
| `AuthService` | auth.dfy | `signInWithFacebook`, `signInWithGoogle`, `SignUpWithGoogle` |
| `Forms` | forms.dfy | SimpleSchema validation and the shared handler tail (`{ ok }`, the submit error, the redirect) |
| `SignIn`, `SignUp`, `CreateAccount` | sign_in.dfy, sign_up.dfy, create_account.dfy | the pages |

Each state-changing operation is a method on the shared `Backend`. Each such method is proved
against a pure function on `World` (`OAuthLoginSpec`, `ExtendSpec`, the `…Trace` functions),
and the lemmas state the source's promises about those functions. A flow's callbacks run one
after another, each settling the flow's promise at most once.

The model follows the code, including these behaviours a reader might not expect. The two
defects listed under "## Findings" are the exception: there the model keeps an as-written
member and uses the corrected definition in the rest of the flow.

- `$addToSet` compares whole `{ address, verified }` entries. So an address the user already
  holds as *verified* is added a second time, unverified (`AddToSetRepeatsVerifiedAddress`).
  It is not a no-op.
- `signInWithGoogle` calls `oauth/extendGoogleUser` before `oauth/isNewUser`. A new user is
  therefore extended first.
- `remember` defaults to `true` only when it is undefined. An explicit `null` passes
  `Match.Maybe(Boolean)` and is sent to Hydra as `null`.
- Every intermediate `reject` in `services/auth.js` and `CreateAccount.js` lacks a `return`.
  After a failed provider login, extend, user check or profile update, the remaining calls
  still run, `oauth/login` included. Only the first error reaches the caller. A failed Google
  login can thus still accept the challenge for a user who was already logged in on that
  connection (`GoogleLoginFailureAcceptsForPreviousUser`).

## Model

| member | source | states |
|---|---|---|
| Promises.Of | services/auth.js:3-26 | settling a pending promise leaves it settled; it is fulfilled exactly when the attempt is a resolve |
| Promises.RunIsFirst | services/auth.js:3-26 | settle-once: a promise given several resolve/reject attempts takes the first and ignores every later one |
| Promises.RunSnoc | services/auth.js:13-23 | a further attempt on a promise is applied with `Settle`, which changes only a pending promise |
| Promises.Deferred.Resolve | services/auth.js:10 | records a resolve attempt; the cell stays equal to the first attempt's outcome and is settled afterwards |
| Promises.Deferred.Reject | services/auth.js:8 | records a reject attempt; the cell stays equal to the first attempt's outcome and is settled afterwards |
| Promises.Deferred.RejectOn | services/auth.js:14-16 | `if (err) reject(err)` without `return`: records a reject only when there is an error, and execution goes on |
| Accounts.Backend.Logout | server/oauthMethods.js:39 | `Meteor.call("logout")` logs the call and clears the connection's user |
| Accounts.Backend.LoginWithPassword | client/components/SignIn.js:30 | logs the password login; a success sets the session to the user, a failure leaves it |
| Accounts.Backend.LoginWithService | services/auth.js:4-6 | logs the provider login with its permissions; a success stores the provider's user record and logs it in |
| Accounts.Backend.CreateUser | client/components/SignUp.js:39-49 | logs `createUser`; a success stores a user holding the email, unverified, and the profile, and logs it in |
| OAuthMethods.ParseLoginOptions | server/oauthMethods.js:18-21 | succeeds exactly when `options` is an object, `challenge` a string and `remember` undefined, null or boolean; fails with the first failing check in source order; `remember` defaults to `true` only when undefined |
| OAuthMethods.OAuthLoginSpec | server/oauthMethods.js:17-48 | `oauth/login` never changes the users |
| OAuthMethods.OAuthLoginSpecFacts | server/oauthMethods.js:17-48 | argument errors come before anything else; without a user it is Access Denied with nothing changed and Hydra not called; the accept request has the user as subject, the remember flag and `remember_for` 86400; success exactly when the arguments parse, a user is logged in and Hydra accepts, and then the result is Hydra's `redirect_to` and the session is logged out; a Hydra error is rethrown and keeps the session |
| OAuthMethods.OAuthLogin | server/oauthMethods.js:17-48 | performs the checks, the accept and the logout on the backend, leaving the state and result `OAuthLoginSpec` gives |
| OAuthMethods.CheckIfUserExists | server/oauthMethods.js:49-51 | true exactly when a user with that id is in the store |
| OAuthMethods.AddToSet | server/oauthMethods.js:58-61 | `$addToSet`: the entry is in the result; the old entries keep their order and are a prefix; at most one entry is added and nothing else; a present entry leaves the set unchanged |
| OAuthMethods.AddToSetIdempotent | server/oauthMethods.js:58-61 | adding the same entry twice equals adding it once |
| OAuthMethods.AddToSetKeepsDistinct | server/oauthMethods.js:58-61 | an array without duplicates keeps none after `$addToSet` |
| OAuthMethods.AddToSetRepeatsVerifiedAddress | server/oauthMethods.js:58-61 | an address already present as verified is added again as an unverified entry, giving two entries |
| OAuthMethods.ExtendSpec | server/oauthMethods.js:52-77 | a TypeError with nothing changed exactly when nobody is logged in or the user record is gone; the session and the log are unchanged |
| OAuthMethods.ExtendUpdatesOnlyCurrentUser | server/oauthMethods.js:52-77 | only the logged-in user's record changes: with the provider's service entry its email is added unverified with `$addToSet`, without it the record is unchanged; services and profile stay as they were; the other users and the set of ids are unchanged |
| OAuthMethods.ExtendIdempotent | server/oauthMethods.js:52-77 | extending twice leaves the same store as extending once |
| OAuthMethods.ExtendUser | server/oauthMethods.js:52-77 | updates the backend to the state `ExtendSpec` gives and returns its error |
| OAuthMethods.ExtendFbUser | server/oauthMethods.js:52-64 | `ExtendSpec` for the `facebook` service |
| OAuthMethods.ExtendGoogleUser | server/oauthMethods.js:65-77 | `ExtendSpec` for the `google` service |
| Client.FromQuery | client/components/SignIn.js:99 | the `login_challenge` parameter is missing, valueless or its string value, exactly as in the query |
| Client.LoginCallFacts | server/oauthMethods.js:17-48 | a client `oauth/login {challenge}`: a missing or valueless challenge fails the String check; without a user it is Access Denied; otherwise Hydra is asked to accept the token for the user with remember `true` and 86400, and the session is logged out exactly on acceptance |
| Client.ExtendCall | services/auth.js:13 | a client `oauth/extend…User` logs the call, keeps the session and fails exactly when no user is logged in or that user's record is gone |
| Client.CallOAuthLogin | services/auth.js:17 | logs the method call and runs `oauth/login`, leaving what `LoginCall` gives |
| Client.CallExtend | services/auth.js:13 | logs the method call and runs the extend method, leaving what `ExtendCall` gives |
| Client.UpdateThenLoginOrder | client/components/CreateAccount.js:28-33 | `oauth/updateUserInfo {firstName, lastName}` comes first, then `oauth/login {challenge}`, whatever the update's outcome; with a challenge and a user the accept request follows; the users are unchanged |
| Client.UpdateThenLoginOutcome | client/components/CreateAccount.js:28-39 | with a challenge and a logged-in user, a failed update is the outcome although `oauth/login` runs; otherwise Hydra's URL or error |
| Client.CallUpdateThenLogin | client/components/CreateAccount.js:28-40 | runs the update and `oauth/login` callbacks on the backend and the promise, recording the attempts and leaving the state `UpdateThenLogin` gives; the promise is settled |
| Client.CallOAuthLoginSettling | services/auth.js:17-23 | the `oauth/login` call with its callback: the state `LoginCall` gives, and one attempt, resolving the URL or rejecting the error; the promise is settled |
| Client.SettleUrl | services/auth.js:18-22 | rejects on an error and resolves with the URL otherwise; the promise is settled |
| AuthService.SignInWithFacebook | services/auth.js:2-27 | runs the Facebook chain on the backend; its state and settled promise are those of `SignInWithFacebookTrace` |
| AuthService.SignInWithGoogle | services/auth.js:28-66 | runs the Google sign-in chain; state and settled promise as `SignInWithGoogleTrace` gives |
| AuthService.SignUpWithGoogle | services/auth.js:68-105 | runs the Google sign-up chain; state and settled promise as `SignUpWithGoogleTrace` gives |
| AuthService.RunGoogleSignUpChain | services/auth.js:73-102 | the provider login and its callback chain, with a first name given: state and settled promise as `GoogleSignUpChain` gives |
| AuthService.CallUserCheckThenLogin | services/auth.js:43-62 | the `oauth/isNewUser` callback: rejects on an error without returning, resolves `{ isNew: true }` for a new user and otherwise calls `oauth/login`, as `UserCheckThenLogin` gives; the promise is settled |
| AuthService.CallOAuthLoginExisting | services/auth.js:53-60 | the `oauth/login` call of the Google sign-in: the state `LoginCall` gives, and one attempt resolving `{ redirectUrl, isNew: false }` or rejecting the error |
| AuthService.NoChallengeStopsAfterLogin | services/auth.js:9-11 | after a successful provider login without a truthy challenge, each of the three flows resolves with no value and makes no server call |
| AuthService.FacebookLoginFailureWins | services/auth.js:7-8 | a failed Facebook login is the outcome, although the extend and `oauth/login` calls still follow |
| AuthService.GoogleLoginFailureWins | services/auth.js:33-34 | a failed Google login is the outcome; `oauth/login` still runs unless the user check answers true |
| AuthService.SignUpLoginFailureWins | services/auth.js:76-77 | a failed Google login is the sign-up outcome, although the later calls still run |
| AuthService.FacebookWithChallenge | services/auth.js:2-27 | with a challenge: Facebook login with `email` and `public_profile`, then `oauth/extendFbUser`, then `oauth/login`; the outcome is the redirect URL or Hydra's error |
| AuthService.GoogleNewUserSkipsLogin | services/auth.js:43-50 | a user reported new gets `{ isNew: true }`, and `oauth/login` is never called |
| AuthService.GoogleSignInAfterExtend | services/auth.js:30-43 | after a successful Google login with a challenge, the extend call succeeds and keeps the user logged in, the log holds the login and the extend call, and the rest of the flow is the `oauth/isNewUser` callback |
| AuthService.GoogleExistingUserAccepts | services/auth.js:39-61 | with a challenge, an existing user goes through the Google login, `oauth/extendGoogleUser`, `oauth/isNewUser` and `oauth/login`, in that order; the challenge is accepted for the user; the outcome is `{ redirectUrl, isNew: false }` or `oauth/login`'s error; the session is logged out exactly when Hydra accepts |
| AuthService.GoogleUserCheckFailureStillAccepts | services/auth.js:43-53 | a failed user check is the outcome, yet `oauth/login` runs and logs the user out |
| AuthService.GoogleLoginFailureAcceptsForPreviousUser | services/auth.js:30-53 | after a failed Google login the challenge is still accepted for the user already logged in on the connection, while the caller sees the login error |
| AuthService.SignUpRequiresFirstName | services/auth.js:71 | without a first name the flow rejects with the Spanish "first name required" message and makes no call |
| AuthService.SignUpStartsWithProvider | services/auth.js:72-75 | with a first name, the Google login with the `email` permission is the first call the sign-up makes |
| AuthService.SignUpCallOrder | services/auth.js:82-99 | with a challenge: Google login, `oauth/extendGoogleUser`, `oauth/updateUserInfo {firstName, lastName}` (never the phone), then `oauth/login` |
| AuthService.SignUpOutcome | services/auth.js:87-99 | a failed profile update is the outcome although `oauth/login` has run; otherwise `oauth/login`'s URL or error |
| Forms.JsLength | client/components/SignUp.js:98-106 | the length SimpleSchema's `min` compares counts UTF-16 code units: between the number of characters and twice that, and equal to it when every character is in the Basic Multilingual Plane |
| Forms.JsLengthCountsSurrogates | client/components/SignUp.js:104-106 | three emoji have length 6, as JavaScript counts them |
| Forms.Check | client/components/SignIn.js:83 | a key reports an error exactly when it fails its rule; the error carries the key, is `required` exactly for a missing value, and otherwise is `minString` with the rule's minimum |
| Forms.Validate | client/components/SignIn.js:83 | `getFormValidator()` reports at most one error per schema key, so never more errors than keys |
| Forms.ValidateReportsFailingKeys | client/components/SignIn.js:83 | every reported error is the error of a failing schema key, and every failing key's error is reported |
| Forms.ValidateOnePerKey | client/components/SignIn.js:83 | with distinct keys in the schema, no two reported errors share a key |
| Forms.ValidIff | client/components/SignIn.js:83 | a form has no errors exactly when every key of the schema is satisfied |
| Forms.AfterSettle | client/components/SignIn.js:100-113 | a rejected flow gives `{ ok: false }` and shows its error; a fulfilled one gives `{ ok: true }`; the browser is redirected exactly when the URL is a non-empty string, and never pushed to a route |
| SignIn.FormValid | client/components/SignIn.js:74-82 | valid exactly when the email's JavaScript length is at least 3 and a password is given |
| SignIn.CallSignIn | client/components/SignIn.js:28-48 | runs the password login and `oauth/login` on the backend, as `CallSignInTrace` gives |
| SignIn.CallSignInLoginFailure | client/components/SignIn.js:30-32 | a failed password login rejects and `oauth/login` is never called |
| SignIn.CallSignInWithoutChallenge | client/components/SignIn.js:34-37 | without a truthy challenge the flow resolves with no value and the user stays logged in |
| SignIn.CallSignInWithChallenge | client/components/SignIn.js:38-44 | with a challenge it accepts it for the logged-in user and resolves with the redirect URL or rejects with Hydra's error |
| SignIn.GoogleSignInWithoutChallengeThrows | client/components/SignIn.js:114-129 | as written, a successful Google login without a challenge makes `authWithGoogle` throw a TypeError |
| SignIn.GoogleRoute | client/components/SignIn.js:114-129 | routes to `/account/create?login_challenge=<challenge>` exactly for a new user, redirects exactly for a non-empty URL of an existing user, fails exactly on an error, and agrees with the code whenever that returns |
| SignIn.NewGoogleUserCompletesAccount | client/components/SignIn.js:125 | a new Google user with a challenge is sent to the account-completion page carrying the same challenge, without a redirect |
| SignIn.OnSubmit | client/components/SignIn.js:135-150 | an invalid form gives the validator's errors and changes nothing; a valid one runs `callSignIn` and returns what the handler tail gives |
| SignIn.AuthWithFacebook | client/components/SignIn.js:100-113 | the Facebook flow followed by the handler tail |
| SignIn.AuthWithGoogle | client/components/SignIn.js:114-129 | the Google flow followed by `GoogleRoute` |
| SignUp.FormValid | client/components/SignUp.js:98-117 | valid exactly when the email's JavaScript length is 3 or more, the password's 6 or more, and first name and phone are present |
| SignUp.LastNameOptional | client/components/SignUp.js:110-113 | removing the last name from a valid form keeps it valid |
| SignUp.DisplayNameAsWrittenShowsUndefined | client/components/SignUp.js:46 | as written, a user without a last name is named "<first name> undefined" |
| SignUp.DisplayName | client/components/SignUp.js:46 | the name starts with the first name; it is the first name alone without a last name, and first name, space, last name otherwise |
| SignUp.Profile | client/components/SignUp.js:43-48 | the profile holds the first name, the display name and the phone, plus the last name only when one was given |
| SignUp.CallSignUp | client/components/SignUp.js:30-78 | runs `createUser` and `oauth/login` on the backend, as `CallSignUpTrace` gives |
| SignUp.CallSignUpCreateFailure | client/components/SignUp.js:50-52 | a failed `createUser` rejects, and `oauth/login` is not called |
| SignUp.CallSignUpWithoutChallenge | client/components/SignUp.js:54-57 | without a challenge it resolves with no value; the new user holds the email unverified and the display name, and stays logged in |
| SignUp.CallSignUpWithChallenge | client/components/SignUp.js:63-73 | with a challenge it accepts it for the new user and resolves with the URL or rejects with Hydra's error |
| SignUp.GoogleSignUpSkipsValidation | client/components/SignUp.js:152-156 | a form the schema rejects still starts the Google login |
| SignUp.OnSubmit | client/components/SignUp.js:168-187 | an invalid form gives the validator's errors and changes nothing; a valid one runs `callSignUp` and the handler tail |
| SignUp.SignUpWithFacebook | client/components/SignUp.js:137-150 | the Facebook flow followed by the handler tail |
| SignUp.SignUpWithGoogle | client/components/SignUp.js:152-166 | the raw current form values go to `SignUpWithGoogle`, then the handler tail |
| CreateAccount.FormValid | client/components/CreateAccount.js:60-68 | valid exactly when a first name is present; the last name may be absent |
| CreateAccount.CallSignIn | client/components/CreateAccount.js:26-42 | runs `oauth/updateUserInfo` and `oauth/login` on the backend; state and settled promise as `UpdateThenLogin` gives |
| CreateAccount.UpdateFailureStillAccepts | client/components/CreateAccount.js:29-33 | a failed update is the outcome, yet the challenge is accepted and the session logged out |
| CreateAccount.CallSignInOutcome | client/components/CreateAccount.js:33-39 | after a good update the flow settles with `oauth/login`'s result; without a challenge in the query it fails the server's String check |
| CreateAccount.OnSubmit | client/components/CreateAccount.js:84-106 | the challenge comes from the query; an invalid form changes nothing; a valid one runs `callSignIn` and the handler tail |

## Left out

- Rendering, styles, translations, the `isSubmitting` flag, `Random.id` and the date footer.
  These are presentation. The submit error and the navigation (`window.location.href`,
  `history.push`) are kept as the handler's returned decision.
- `client/components/ForgotPassword.js` is not part of this model. It is a GraphQL mutation
  behind a form.
- `server/main.js` is not part of this model. It registers the methods and wires the provider
  credentials.
- The implementations of `oauth/isNewUser` and `oauth/updateUserInfo` are not part of this
  model. Each is an outcome parameter and a logged call, and neither changes the store in the
  model.
- The Hydra admin client, `Meteor.loginWithPassword`, `loginWithFacebook`, `loginWithGoogle`,
  `Accounts.createUser` and MongoDB are foreign calls. Each is an outcome parameter. The user
  record a provider login stores is an input.
- Password hashing and the password itself are left out: the password never influences
  anything but the login outcome.
- `Logger.error` and `console.log` are left out: they are output only.
- Meteor's sanitising of errors sent to the client is left out. Errors reach the caller
  unchanged.
- The callback runtime is not modelled as concurrency. Each flow is one sequential method
  whose callbacks run in order.
- Single-use challenges are not a property of this code. Hydra enforces them.
- `HYDRA_SESSION_LIFESPAN` is fixed at its default 86400. The environment is not read.
- OAuthMethods.CheckIfUserExists: ids are strings. A non-string id is not modelled.
- OAuthMethods.ExtendSpec: the provider's email is always a string. A provider record without
  an email is not modelled.
- Client.FromQuery: a parameter repeated in the query, which `query-string` parses as an array,
  is not modelled.
- Forms.Validate: covers only what these schemas use (String keys, `optional`, `min`). Form
  values are strings, and an emptied input is an absent key.
- SignUp.Profile: uses the corrected `DisplayName`, so a user without a last name is stored
  with the first name alone. The code stores "<first name> undefined", or "<first name> null"
  and `lastName: null` for an emptied last-name input; `DisplayNameAsWritten` models the former.
  An emptied input is an absent key in this model, so the `null` case is not represented.
- SignIn.AuthWithGoogle: routes with the corrected `GoogleRoute`, so a successful Google login
  without a challenge returns `{ ok: true }` and stays on the page. The code throws a
  TypeError there; `GoogleSignInWithoutChallengeThrows` models that, and `GoogleRoute` agrees
  with the as-written route in every other case.
- Promises.Deferred: a flow's promise is settled in the order its callbacks are written. This
  assumes each callback runs after the call before it, as Meteor does on one connection.

## Findings

| source | as written | input that shows it | evidently intended | confidence | as-written member | corrected member |
|---|---|---|---|---|---|---|
| client/components/SignIn.js:125 | `result.isNew` is read from what `signInWithGoogle` resolved, and that is `undefined` when there is no challenge | a page without `login_challenge`, with a successful Google login: `signInWithGoogle` resolves with no value and the handler throws a TypeError outside its `try` | without a result the handler returns `{ ok: true }` and stays on the page | not executed | SignIn.GoogleSignInWithoutChallengeThrows | SignIn.GoogleRoute |
| client/components/SignUp.js:46 | `name: \`${firstName} ${lastName}\`` with `lastName` optional in the schema | first name "Ana" and no last name: the stored name is "Ana undefined" | the name is the first name alone when there is no last name | not executed | SignUp.DisplayNameAsWrittenShowsUndefined | SignUp.DisplayName |
