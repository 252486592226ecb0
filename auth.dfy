/** The session store (src/context/AuthContext.tsx): the signed-in user and the
    token, restored from storage when the application mounts and refreshed from
    the profile endpoint; `login` and `logout`.
    The mount effect is specified by `Boot`, a function of the prior session, the
    browser state and the profile call's outcome; the store method is proved to
    carry it out through the shared HTTP client. */
module Auth {
  import opened Types
  import opened Json
  import opened Platform
  import Http

  datatype Session = Session(user: Option<User>, token: Option<string>)

  /** The store's invariant: a user is present exactly when a token is. */
  predicate Paired(s: Session) {
    s.user.Some? <==> s.token.Some?
  }

  const MePath: string := "/auth/me"
  const AuthInvalidLog: string := "Auth session invalid:"
  const NonAuthLog: string := "Profile fetch failed (non-auth error):"
  const LoggedOutText: string := "Logged out successfully"

  /** Where `login` sends each role. */
  function LandingFor(r: Role): (p: string)
    ensures r == Admin <==> p == "/admin/dashboard"
    ensures r == Provider <==> p == "/provider/dashboard"
    ensures r == Customer <==> p == "/"
  {
    match r
    case Admin => "/admin/dashboard"
    case Provider => "/provider/dashboard"
    case Customer => "/"
  }

  function LogoutEvents(): seq<Event> {
    [Navigate("/login"), Toast(ToastSuccess, LoggedOutText)]
  }

  function LoginEvents(u: User): seq<Event> {
    [Navigate(LandingFor(u.role)), Toast(ToastSuccess, "Welcome back, " + u.name + "!")]
  }

  /** Storage after `login(t, u)`. */
  function StorageAfterLogin(storage: map<string, Json>, t: string, u: User): map<string, Json> {
    storage[TokenKey := JStr(t)][UserKey := UserToJson(u)]
  }

  /** Storage after `logout()`. */
  function StorageAfterLogout(storage: map<string, Json>): map<string, Json> {
    storage - {TokenKey, UserKey}
  }

  /** A 401 or 403 from the profile call ends the session; nothing else does. */
  predicate IsAuthFailure(status: Option<int>) {
    status == Some(401) || status == Some(403)
  }

  datatype BootResult = BootResult(session: Session, storage: map<string, Json>, events: seq<Event>)

  /** The mount effect's `fetchProfile`, as a function of the session before it,
      the storage and page it runs on, and what the profile call returns. */
  function Boot(s: Session, storage: map<string, Json>, pathname: string, profile: ApiOutcome<User>): (r: BootResult)
    ensures r.events == [] <==> StoredToken(storage).None?
    ensures StoredToken(storage).None? ==> r.session == s && r.storage == storage
  {
    match StoredToken(storage)
    case None => BootResult(s, storage, [])
    case Some(t) =>
      var storedUser := UserKey in storage && storage[UserKey] != JStr("");
      if storedUser && UserFromJson(storage[UserKey]).None? then
        // JSON.parse throws inside the try: the non-auth branch, before any request
        BootResult(s, storage, [Console(NonAuthLog)])
      else
        // an absent or empty stored user is falsy: nothing is restored
        var restored := if storedUser then Session(UserFromJson(storage[UserKey]), Some(t)) else s;
        AfterProfile(restored, t, storage, pathname, profile)
  }

  /** The rest of `fetchProfile` once the stored session is restored: the profile
      call with token `t`, and what each of its outcomes does. */
  function AfterProfile(restored: Session, t: string, storage: map<string, Json>, pathname: string, profile: ApiOutcome<User>)
    : (r: BootResult)
    ensures |r.events| >= 1 && r.events[0] == Request("GET", MePath, Http.BearerHeader(storage))
    ensures !profile.Ok? && IsAuthFailure(Http.ErrorOf(profile).status) ==>
      r.session == Session(None, None) && TokenKey !in r.storage && UserKey !in r.storage
  {
    var request := [Request("GET", MePath, Http.BearerHeader(storage))];
    match profile
    case Ok(u) => BootResult(Session(Some(u), Some(t)), storage[UserKey := UserToJson(u)], request)
    case _ =>
      var status := Http.ErrorOf(profile).status;
      var st := Http.StorageAfterError(storage, status, pathname);
      var ev := request + Http.ErrorEvents(status, pathname);
      if IsAuthFailure(status) then
        BootResult(Session(None, None), StorageAfterLogout(st), ev + [Console(AuthInvalidLog)] + LogoutEvents())
      else
        BootResult(restored, st, ev + [Console(NonAuthLog)])
  }

  class AuthStore {
    var user: Option<User>
    var token: Option<string>
    var loading: bool
    const browser: Browser

    function Current(): Session
      reads this
    {
      Session(user, token)
    }

    /** `useState(null)`, `useState(null)`, `useState(true)`. */
    constructor (b: Browser)
      ensures browser == b && user == None && token == None && loading
      ensures Paired(Current())
    {
      browser := b;
      user, token, loading := None, None, true;
    }

    method Logout()
      modifies this, browser
      ensures user == None && token == None && loading == old(loading)
      ensures browser.storage == StorageAfterLogout(old(browser.storage))
      ensures browser.events == old(browser.events) + LogoutEvents()
      ensures browser.pathname == old(browser.pathname)
    {
      token, user := None, None;
      browser.RemoveItem(TokenKey);
      browser.RemoveItem(UserKey);
      browser.Emit(Navigate("/login"));
      browser.Emit(Toast(ToastSuccess, LoggedOutText));
    }

    method Login(newToken: string, newUser: User)
      modifies this, browser
      ensures user == Some(newUser) && token == Some(newToken) && loading == old(loading)
      ensures browser.storage == StorageAfterLogin(old(browser.storage), newToken, newUser)
      ensures browser.events == old(browser.events) + LoginEvents(newUser)
      ensures browser.pathname == old(browser.pathname)
    {
      token, user := Some(newToken), Some(newUser);
      browser.SetItem(TokenKey, JStr(newToken));
      browser.SetItem(UserKey, UserToJson(newUser));
      browser.Emit(Navigate(LandingFor(newUser.role)));
      browser.Emit(Toast(ToastSuccess, "Welcome back, " + newUser.name + "!"));
    }

    /** The mount effect: `fetchProfile()` followed by `setLoading(false)`. */
    method Bootstrap(profile: ApiOutcome<User>)
      modifies this, browser
      ensures var r := Boot(old(Current()), old(browser.storage), old(browser.pathname), profile);
        && Current() == r.session
        && browser.storage == r.storage
        && browser.events == old(browser.events) + r.events
      ensures browser.pathname == old(browser.pathname)
      ensures !loading
    {
      var storedToken := StoredToken(browser.storage);
      if storedToken.Some? {
        var t := storedToken.value;
        if UserKey in browser.storage && browser.storage[UserKey] != JStr("") {
          var parsed := UserFromJson(browser.storage[UserKey]);
          if parsed.None? {
            browser.Emit(Console(NonAuthLog));
            loading := false;
            return;
          }
          user, token := parsed, Some(t);
        }
        FetchProfile(t, profile);
      }
      loading := false;
    }

    /** The profile call and its handlers, after the stored session is restored. */
    method FetchProfile(t: string, profile: ApiOutcome<User>)
      modifies this, browser
      ensures var r := AfterProfile(old(Current()), t, old(browser.storage), old(browser.pathname), profile);
        && Current() == r.session
        && browser.storage == r.storage
        && browser.events == old(browser.events) + r.events
      ensures browser.pathname == old(browser.pathname) && loading == old(loading)
    {
      Http.Call(browser, "GET", MePath, profile);
      if profile.Ok? {
        user, token := Some(profile.data), Some(t);
        browser.SetItem(UserKey, UserToJson(profile.data));
      } else if IsAuthFailure(Http.ErrorOf(profile).status) {
        browser.Emit(Console(AuthInvalidLog));
        Logout();
      } else {
        browser.Emit(Console(NonAuthLog));
      }
    }
  }

  // ---- what the session store promises ----

  /** Every outcome of the mount effect keeps the user and the token paired. */
  lemma BootKeepsPaired(s: Session, storage: map<string, Json>, pathname: string, profile: ApiOutcome<User>)
    requires Paired(s)
    ensures Paired(Boot(s, storage, pathname, profile).session)
  {
  }

  /** Without a stored token nothing is requested and nothing changes. */
  lemma NoTokenNoRequest(s: Session, storage: map<string, Json>, pathname: string, profile: ApiOutcome<User>)
    requires StoredToken(storage).None?
    ensures Boot(s, storage, pathname, profile) == BootResult(s, storage, [])
  {
  }

  /** A successful profile call adopts the fresh user, keeps the stored token, and
      stores the fresh user so that it reads back. */
  lemma BootSuccess(s: Session, storage: map<string, Json>, pathname: string, u: User)
    requires StoredToken(storage).Some?
    requires UserKey in storage ==> UserFromJson(storage[UserKey]).Some?
    ensures var r := Boot(s, storage, pathname, Ok(u));
      && r.session == Session(Some(u), StoredToken(storage))
      && UserKey in r.storage && UserFromJson(r.storage[UserKey]) == Some(u)
      && r.events == [Request("GET", MePath, Some("Bearer " + StoredToken(storage).value))]
  {
    UserRoundTrip(u);
  }

  /** A 401 or 403 from the profile call signs out: both keys are gone, the next
      request carries no token, and the browser is sent to the login page. */
  lemma BootAuthFailureSignsOut(s: Session, storage: map<string, Json>, pathname: string, profile: ApiOutcome<User>)
    requires StoredToken(storage).Some?
    requires UserKey in storage ==> UserFromJson(storage[UserKey]).Some?
    requires !profile.Ok? && IsAuthFailure(Http.ErrorOf(profile).status)
    ensures var r := Boot(s, storage, pathname, profile);
      && r.session == Session(None, None)
      && TokenKey !in r.storage && UserKey !in r.storage
      && Http.BearerHeader(r.storage).None?
      && r.events[|r.events| - 2..] == LogoutEvents()
  {
  }

  /** Any other failure keeps the session restored from storage and every stored key. */
  lemma BootOtherFailureKeeps(s: Session, storage: map<string, Json>, pathname: string, profile: ApiOutcome<User>)
    requires StoredToken(storage).Some?
    requires UserKey in storage && UserFromJson(storage[UserKey]).Some?
    requires !profile.Ok? && !IsAuthFailure(Http.ErrorOf(profile).status)
    ensures var r := Boot(s, storage, pathname, profile);
      && r.session == Session(UserFromJson(storage[UserKey]), StoredToken(storage))
      && r.storage == storage
  {
  }

  /** A stored token without a stored user: a failure other than 401 or 403 leaves a
      signed-out store signed out, while the token stays in storage. */
  lemma TokenWithoutUserStaysSignedOut(storage: map<string, Json>, pathname: string, profile: ApiOutcome<User>)
    requires StoredToken(storage).Some? && UserKey !in storage
    requires !profile.Ok? && !IsAuthFailure(Http.ErrorOf(profile).status)
    ensures var r := Boot(Session(None, None), storage, pathname, profile);
      && r.session == Session(None, None)
      && r.storage == storage && StoredToken(r.storage) == StoredToken(storage)
  {
  }

  /** A stored user that is the empty text is falsy: nothing is restored or parsed,
      and the profile call is still made with the stored token. */
  lemma EmptyStoredUserStillFetches(s: Session, storage: map<string, Json>, pathname: string,
                                    profile: ApiOutcome<User>)
    requires StoredToken(storage).Some? && UserKey in storage && storage[UserKey] == JStr("")
    ensures var r := Boot(s, storage, pathname, profile);
      && r.events[0] == Request("GET", MePath, Some("Bearer " + StoredToken(storage).value))
      && (profile.Ok? ==> r.session == Session(Some(profile.data), StoredToken(storage)))
      && (!profile.Ok? && !IsAuthFailure(Http.ErrorOf(profile).status) ==> r.session == s)
  {
  }

  /** Signing out twice is signing out once: neither key is left either way. */
  lemma LogoutIdempotent(storage: map<string, Json>)
    ensures StorageAfterLogout(StorageAfterLogout(storage)) == StorageAfterLogout(storage)
    ensures TokenKey !in StorageAfterLogout(storage) && UserKey !in StorageAfterLogout(storage)
  {
  }

  /** Reloading after `login(t, u)` restores `u` even when the profile call fails
      for a reason other than authentication, and requests with `Bearer t`. */
  lemma ReloadAfterLogin(s: Session, storage: map<string, Json>, pathname: string, t: string, u: User,
                         profile: ApiOutcome<User>)
    requires t != ""
    requires !profile.Ok? ==> !IsAuthFailure(Http.ErrorOf(profile).status)
    ensures var r := Boot(s, StorageAfterLogin(storage, t, u), pathname, profile);
      && r.session == Session(Some(if profile.Ok? then profile.data else u), Some(t))
      && r.events[0] == Request("GET", MePath, Some("Bearer " + t))
  {
    var st := StorageAfterLogin(storage, t, u);
    assert st[TokenKey] == JStr(t);
    assert st[UserKey] == UserToJson(u);
    UserRoundTrip(u);
  }

  /** Reloading after `logout()` makes no request and keeps the signed-out session. */
  lemma ReloadAfterLogout(storage: map<string, Json>, pathname: string, profile: ApiOutcome<User>)
    ensures var r := Boot(Session(None, None), StorageAfterLogout(storage), pathname, profile);
      r.session == Session(None, None) && r.events == []
  {
  }

  /** Signing in or out never touches the stored cart. */
  lemma SessionKeepsCart(storage: map<string, Json>, t: string, u: User)
    ensures CartKey in StorageAfterLogin(storage, t, u) <==> CartKey in storage
    ensures CartKey in storage ==> StorageAfterLogin(storage, t, u)[CartKey] == storage[CartKey]
    ensures CartKey in StorageAfterLogout(storage) <==> CartKey in storage
    ensures CartKey in storage ==> StorageAfterLogout(storage)[CartKey] == storage[CartKey]
  {
  }
}
