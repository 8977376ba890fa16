/**
 * The session holder (providers/auth-provider.tsx): the auth record, the
 * token kept in browser storage under `csoj_jwt`, and the transitions made
 * by start-up, login, logout and the profile fetch. A profile fetch is
 * asynchronous: starting it and its result are separate steps, and the
 * token to fetch with is what a start-up or a login hands on.
 */
module AuthProvider {
  import opened Wrappers
  import opened Types

  const TokenKey: string := "csoj_jwt"

  datatype AuthState = AuthState(token: Option<string>, user: Option<User>, isAuthenticated: bool, isLoading: bool)

  /** The auth record together with browser storage. */
  datatype Session = Session(auth: AuthState, storage: map<string, string>)

  function InitialAuth(): (a: AuthState)
    ensures a.token.None? && a.user.None? && !a.isAuthenticated && a.isLoading
  {
    AuthState(None, None, false, true)
  }

  /** `logout`: the token is removed from storage and the record is cleared. */
  function AfterLogout(s: Session): (r: Session)
    ensures r.auth == AuthState(None, None, false, false)
    ensures TokenKey !in r.storage
    ensures forall k :: k in s.storage && k != TokenKey ==> k in r.storage && r.storage[k] == s.storage[k]
    ensures forall k :: k in r.storage ==> k in s.storage
  {
    Session(AuthState(None, None, false, false), s.storage - {TokenKey})
  }

  /** The profile request made with `token` came back with the user, or failed; a failure is a logout. */
  function ProfileFetched(s: Session, token: string, profile: Option<User>): (r: Session)
    ensures profile.Some? ==> r == Session(AuthState(Some(token), profile, true, false), s.storage)
    ensures profile.None? ==> r == AfterLogout(s)
  {
    match profile
    case Some(user) => Session(AuthState(Some(token), Some(user), true, false), s.storage)
    case None => AfterLogout(s)
  }

  /** The token in storage, as `getItem` returns it. */
  function StoredToken(storage: map<string, string>): Option<string> {
    if TokenKey in storage then Some(storage[TokenKey]) else None
  }

  /**
   * The start-up effect. `decodedExp` is what decoding the stored token gives:
   * `None` when it does not decode, `Some(None)` when it has no expiry,
   * `Some(Some(exp))` with the expiry in seconds. A live token starts a
   * profile fetch (the token is returned and the record is untouched); an
   * expired, expiry-less or undecodable one logs out; with no token only the
   * loading flag is cleared.
   */
  function Startup(s: Session, decodedExp: Option<Option<int>>, now: int): (r: (Session, Option<string>))
    ensures !Truthy(StoredToken(s.storage)) ==>
      r == (Session(s.auth.(isLoading := false), s.storage), None)
    ensures Truthy(StoredToken(s.storage)) ==>
      if decodedExp.Some? && decodedExp.value.Some? && decodedExp.value.value * 1000 > now
      then r == (s, Some(s.storage[TokenKey]))
      else r == (AfterLogout(s), None)
  {
    var stored := StoredToken(s.storage);
    if Truthy(stored) then
      match decodedExp
      case Some(Some(exp)) =>
        if exp * 1000 > now then (s, Some(stored.value)) else (AfterLogout(s), None)
      case _ => (AfterLogout(s), None)
    else (Session(s.auth.(isLoading := false), s.storage), None)
  }

  /** `login`: the token is stored first; the profile fetch with it follows. */
  function AfterLogin(s: Session, token: string): (r: Session)
    ensures r.auth == s.auth
    ensures TokenKey in r.storage && r.storage[TokenKey] == token
    ensures r.storage == s.storage[TokenKey := token]
  {
    Session(s.auth, s.storage[TokenKey := token])
  }

  /** Authenticated means a token and a user are present and nothing is loading. */
  predicate AuthValid(a: AuthState) {
    a.isAuthenticated ==> a.token.Some? && a.user.Some? && !a.isLoading
  }

  /** What happens to the provider. */
  datatype AuthEvent =
    | Start(decodedExp: Option<Option<int>>, now: int)
    | LoginWith(token: string)
    | LogoutNow
    | ProfileResult(token: string, profile: Option<User>)

  function Step(s: Session, e: AuthEvent): Session {
    match e
    case Start(decodedExp, now) => Startup(s, decodedExp, now).0
    case LoginWith(token) => AfterLogin(s, token)
    case LogoutNow => AfterLogout(s)
    case ProfileResult(token, profile) => ProfileFetched(s, token, profile)
  }

  function Run(s: Session, events: seq<AuthEvent>): Session
    decreases |events|
  {
    if events == [] then s else Run(Step(s, events[0]), events[1..])
  }

  lemma StepValid(s: Session, e: AuthEvent)
    requires AuthValid(s.auth)
    ensures AuthValid(Step(s, e).auth)
  {
  }

  /** From the initial record, every reachable record keeps the invariant. */
  lemma {:induction false} RunValid(s: Session, events: seq<AuthEvent>)
    requires AuthValid(s.auth)
    ensures AuthValid(Run(s, events).auth)
    decreases |events|
  {
    if events != [] {
      StepValid(s, events[0]);
      RunValid(Step(s, events[0]), events[1..]);
    }
  }

  /** Login followed by a successful fetch authenticates with the token that storage now holds. */
  lemma LoginThenProfile(s: Session, token: string, user: User)
    ensures var r := ProfileFetched(AfterLogin(s, token), token, Some(user));
      && r.auth.isAuthenticated && r.auth.token == Some(token) && r.auth.user == Some(user)
      && TokenKey in r.storage && r.storage[TokenKey] == token
  {
  }

  /**
   * The record and storage can disagree: a logout made while a profile fetch
   * is in flight is undone by that fetch's success, which authenticates
   * although storage no longer holds the token.
   */
  lemma LogoutDuringFetch(s: Session, token: string, user: User)
    ensures var r := Run(s, [LoginWith(token), LogoutNow, ProfileResult(token, Some(user))]);
      r.auth.isAuthenticated && TokenKey !in r.storage
  {
    var s1 := AfterLogin(s, token);
    var s2 := AfterLogout(s1);
    assert Run(s, [LoginWith(token), LogoutNow, ProfileResult(token, Some(user))])
        == Run(s1, [LogoutNow, ProfileResult(token, Some(user))]);
    assert Run(s1, [LogoutNow, ProfileResult(token, Some(user))])
        == Run(s2, [ProfileResult(token, Some(user))]);
  }

  class AuthProviderState {
    var authState: AuthState
    var storage: map<string, string>

    function Current(): Session
      reads this
    {
      Session(authState, storage)
    }

    constructor(storage: map<string, string>)
      ensures authState == InitialAuth() && this.storage == storage
    {
      authState := AuthState(None, None, false, true);
      this.storage := storage;
    }

    method Logout()
      modifies this
      ensures Current() == AfterLogout(old(Current()))
    {
      storage := storage - {TokenKey};
      authState := AuthState(None, None, false, false);
    }

    method FetchUserProfileSettled(token: string, profile: Option<User>)
      modifies this
      ensures Current() == ProfileFetched(old(Current()), token, profile)
    {
      match profile {
        case Some(user) =>
          authState := AuthState(Some(token), Some(user), true, false);
        case None =>
          Logout();
      }
    }

    /** Returns the token a profile fetch is started with, if any. */
    method OnStartup(decodedExp: Option<Option<int>>, now: int) returns (fetchWith: Option<string>)
      modifies this
      ensures (Current(), fetchWith) == Startup(old(Current()), decodedExp, now)
    {
      var token := if TokenKey in storage then Some(storage[TokenKey]) else None;
      if token.Some? && token.value != "" {
        if decodedExp.Some? && decodedExp.value.Some? && decodedExp.value.value * 1000 > now {
          return token;
        }
        Logout();
        return None;
      }
      authState := authState.(isLoading := false);
      return None;
    }

    /** Stores the token; the caller then fetches the profile with it. */
    method Login(token: string)
      modifies this
      ensures Current() == AfterLogin(old(Current()), token)
    {
      storage := storage[TokenKey := token];
    }
  }
}
