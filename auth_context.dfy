/**
 * The sign-in state the client shares (src/context/AuthContext.tsx): the
 * signed-in user, a `loading` flag, and the two `localStorage` entries that
 * keep a session across reloads. `Session` and the `After…` functions state
 * what each step does to the user and the storage; `AuthProvider` performs
 * the steps on its fields.
 */
module AuthSession {
  import opened Basics
  import opened ClientApi

  /** `isAuthenticated`: someone is signed in. */
  predicate IsAuthenticated(user: Option<User>) { user.Some? }

  /** `isAdmin`: someone is signed in with the `admin` role. */
  predicate IsAdmin(user: Option<User>) { user.Some? && user.value.role == "admin" }

  lemma AdminIsAuthenticated(user: Option<User>)
    ensures IsAdmin(user) ==> IsAuthenticated(user)
    ensures IsAuthenticated(user) && user.value.role == "admin" ==> IsAdmin(user)
  {
  }

  /** The signed-in user and the browser's storage. */
  datatype Session = Session(user: Option<User>, storage: map<string, string>)

  /** The storage with both session entries removed. */
  function Forget(storage: map<string, string>): (r: map<string, string>)
    ensures TokenKey !in r && UserKey !in r
    ensures forall k | k in storage && k != TokenKey && k != UserKey :: k in r && r[k] == storage[k]
    ensures r.Keys <= storage.Keys
  {
    storage - {TokenKey, UserKey}
  }

  /** `checkAuth`: a stored, parsable user signs in; anything else wipes the entries. */
  function AfterCheckAuth(s: Session, parse: string -> Result<Option<User>, string>): Session
  {
    match GetCurrentUser(s.storage, parse)
    case SignedIn(Some(u)) => Session(Some(u), s.storage)
    case _ => Session(s.user, Forget(s.storage))
  }

  /** `login`: on success both entries are written and the user is set; otherwise nothing changes. */
  function AfterLogin(s: Session, email: string, password: string, stringify: User -> string): (Session, bool)
  {
    match Login(email, password)
    case LoginOk(u, token) =>
      if token != "" then (Session(Some(u), s.storage[TokenKey := token][UserKey := stringify(u)]), true)
      else (s, false)
    case LoginFailed(_) => (s, false)
  }

  /** `logout`: both entries removed, nobody signed in. */
  function AfterLogout(s: Session): Session
  {
    Session(None, Forget(s.storage))
  }

  /** `login` answers true exactly for the administrator's credentials, and then signs in an administrator. */
  lemma LoginSucceedsExactly(s: Session, email: string, password: string, stringify: User -> string)
    ensures AfterLogin(s, email, password, stringify).1 <==> email == AdminEmail && password == AdminPassword
    ensures !AfterLogin(s, email, password, stringify).1 ==> AfterLogin(s, email, password, stringify).0 == s
    ensures AfterLogin(s, email, password, stringify).1 ==>
      IsAdmin(AfterLogin(s, email, password, stringify).0.user)
  {
  }

  /** Logging out twice is logging out once. */
  lemma LogoutIdempotent(s: Session)
    ensures AfterLogout(AfterLogout(s)) == AfterLogout(s)
  {
    assert Forget(Forget(s.storage)) == Forget(s.storage);
  }

  /** After a logout the startup check finds nobody, and leaves nobody signed in. */
  lemma NoSessionAfterLogout(s: Session, parse: string -> Result<Option<User>, string>)
    ensures GetCurrentUser(AfterLogout(s).storage, parse) == NotSignedIn
    ensures AfterCheckAuth(AfterLogout(s), parse).user == None
  {
  }

  /**
   * A reload after a successful login signs the same user in again, provided
   * parsing the stored text gives back the user that was stored.
   */
  lemma LoginSurvivesReload(s: Session, email: string, password: string,
                            stringify: User -> string, parse: string -> Result<Option<User>, string>)
    requires AfterLogin(s, email, password, stringify).1
    requires var u := Login(email, password).user; stringify(u) != "" && parse(stringify(u)) == Ok(Some(u))
    ensures var stored := AfterLogin(s, email, password, stringify).0;
      AfterCheckAuth(Session(None, stored.storage), parse) == stored
  {
    var stored := AfterLogin(s, email, password, stringify).0;
    var u := Login(email, password).user;
    assert stored.storage[UserKey] == stringify(u);
    assert stored.storage[TokenKey] == Login(email, password).token;
  }

  /** The provider's state. `storage` stands for `localStorage`. */
  class AuthProvider {
    var user: Option<User>
    var loading: bool
    var storage: map<string, string>

    function State(): Session
      reads this
    {
      Session(user, storage)
    }

    /** Nobody signed in yet, and loading until the startup check ends. */
    constructor (storage0: map<string, string>)
      ensures user == None && loading && storage == storage0
    {
      user := None;
      loading := true;
      storage := storage0;
    }

    /** `checkAuth`, run once at startup. */
    method CheckAuth(parse: string -> Result<Option<User>, string>)
      modifies this
      ensures State() == AfterCheckAuth(old(State()), parse)
      ensures !loading
    {
      var result := GetCurrentUser(storage, parse);
      if result.SignedIn? && result.user.Some? {
        user := result.user;
      } else {
        storage := storage - {TokenKey};
        storage := storage - {UserKey};
      }
      loading := false;
    }

    /** `login`. */
    method Login(email: string, password: string, stringify: User -> string) returns (ok: bool)
      modifies this
      ensures (State(), ok) == AfterLogin(old(State()), email, password, stringify)
      ensures !loading
    {
      loading := true;
      var result := ClientApi.Login(email, password);
      if result.LoginOk? && result.token != "" {
        storage := storage[TokenKey := result.token];
        storage := storage[UserKey := stringify(result.user)];
        user := Some(result.user);
        loading := false;
        return true;
      }
      loading := false;
      return false;
    }

    /** `logout`. */
    method Logout()
      modifies this`user, this`storage
      ensures State() == AfterLogout(old(State()))
    {
      storage := storage - {TokenKey};
      storage := storage - {UserKey};
      user := None;
    }
  }
}
