/** The client session of frontend/context/auth.tsx: the `AuthProvider` state
    (`isAuthenticated`, `isLoading`, `user`), the access token it hands to the
    token store, the `access_token` cookie it writes for the route guard, and
    the page it sends the browser to on logout. The network calls the provider
    awaits (the refresh request, `apiLogin`, `apiAdminLogin`, `authFetch` of the
    profile, `apiUpdateProfile`) are oracle parameters: the outcome each call
    had. The provider is assumed mounted throughout. */
module Auth {
  import opened Common

  /** The profile `/auth/me/` returns. The role flags are optional fields of
      the JSON body. */
  datatype Profile = Profile(
    id: int, email: string, name: Option<string>, phone: Option<string>, country: Option<string>,
    isStaff: Option<bool>, isSuperuser: Option<bool>)

  /** The provider's state, with the two browser effects it records. */
  datatype Session = Session(
    isAuthenticated: bool,
    isLoading: bool,
    user: Option<Profile>,
    token: Option<string>,          // the token store `setAccessToken` writes
    accessCookie: Option<string>,   // `document.cookie` `access_token`; None once cleared
    location: Option<string>)       // `window.location.href` once assigned

  /** JavaScript truthiness of an optional string: present and non-empty. */
  predicate Truthy(v: Option<string>)
  {
    v.Some? && v.value != ""
  }

  /** The outcome of the startup `POST /auth/refresh/`: it threw, it answered
      with a non-OK status, or it answered OK with a body whose `access` field
      may be missing (the body falls back to `{}` when it does not parse). */
  datatype RefreshOutcome = RefreshThrew | RefreshNotOk | RefreshOk(access: Option<string>)

  /** The outcome of `authFetch('/auth/me/')`: it threw, it answered non-OK, or
      it answered OK with a body that parsed to a profile or (falling back to
      `null`) did not. */
  datatype MeOutcome = MeThrew | MeNotOk | MeOk(body: Option<Profile>)

  /** The outcome of `apiLogin`/`apiAdminLogin`: it threw, or it returned data
      whose `access` field may be missing. */
  datatype LoginOutcome = LoginThrew | LoginReturned(access: Option<string>)

  /** The state of a freshly mounted provider. */
  function Initial(storedToken: Option<string>, cookie: Option<string>): (s: Session)
    ensures !s.isAuthenticated && s.isLoading && s.user == None
    ensures s.token == storedToken && s.accessCookie == cookie && s.location == None
  {
    Session(false, true, None, storedToken, cookie, None)
  }

  /** The startup effect: refresh from the httpOnly cookie, then fetch the
      profile. `isLoading` ends false on every path (the `finally`). */
  function AfterRefresh(s: Session, refresh: RefreshOutcome, me: MeOutcome): (r: Session)
    ensures !r.isLoading && r.location == s.location
    ensures !(refresh.RefreshOk? && Truthy(refresh.access)) ==> r.token == s.token && r.accessCookie == s.accessCookie
    ensures refresh.RefreshThrew? || refresh.RefreshNotOk? ==> !r.isAuthenticated && r.user == s.user
    ensures refresh.RefreshOk? && !Truthy(refresh.access) ==> r == s.(isLoading := false)
    ensures refresh.RefreshOk? && Truthy(refresh.access) ==>
      r.isAuthenticated && r.token == refresh.access && r.accessCookie == refresh.access
    ensures refresh.RefreshOk? && Truthy(refresh.access) && me.MeOk? && me.body.Some? ==> r.user == me.body
    ensures !(refresh.RefreshOk? && Truthy(refresh.access) && me.MeOk? && me.body.Some?) ==> r.user == s.user
  {
    match refresh
    case RefreshThrew => s.(isAuthenticated := false, isLoading := false)
    case RefreshNotOk => s.(isAuthenticated := false, isLoading := false)
    case RefreshOk(access) =>
      if !Truthy(access) then s.(isLoading := false)
      else
        var t := s.(token := access, accessCookie := access, isAuthenticated := true);
        // `if (me && mounted) setUser(me)`: a body that did not parse leaves `user` alone
        var u := if me.MeOk? && me.body.Some? then t.(user := me.body) else t;
        u.(isLoading := false)
  }

  /** `login` and `adminLogin`: `isLoading` is raised for the call and lowered
      in the `finally`, whatever the call did; an error thrown by the login
      call propagates after that. */
  function AfterLogin(s: Session, outcome: LoginOutcome, me: MeOutcome): (r: Session)
    ensures !r.isLoading && r.accessCookie == s.accessCookie && r.location == s.location
    ensures !(outcome.LoginReturned? && Truthy(outcome.access)) ==> r == s.(isLoading := false)
    ensures outcome.LoginReturned? && Truthy(outcome.access) ==> r.isAuthenticated && r.token == outcome.access
    ensures outcome.LoginReturned? && Truthy(outcome.access) && me.MeOk? ==> r.user == me.body
    ensures !(outcome.LoginReturned? && Truthy(outcome.access) && me.MeOk?) ==> r.user == s.user
  {
    var loading := s.(isLoading := true);
    var done :=
      match outcome
      case LoginThrew => loading
      case LoginReturned(access) =>
        if !Truthy(access) then loading
        else
          var t := loading.(token := access, isAuthenticated := true);
          // `setUser(me)`: here a body that did not parse sets `user` to null
          if me.MeOk? then t.(user := me.body) else t;
    done.(isLoading := false)
  }

  /** Whether the user carries a truthy staff or superuser flag. */
  predicate IsAdminUser(user: Option<Profile>)
  {
    user.Some? &&
    ((user.value.isStaff.Some? && user.value.isStaff.value) ||
     (user.value.isSuperuser.Some? && user.value.isSuperuser.value))
  }

  /** The page `logout` sends the browser to. */
  function LogoutRedirect(user: Option<Profile>, pathname: string): (url: string)
    ensures url == "/admin/login" || url == "/signin"
    ensures url == "/admin/login" <==> IsAdminUser(user) || Contains(pathname, "/admin")
  {
    var isAdminRoute := Contains(pathname, "/admin") || StartsWith(pathname, "/admin");
    assert isAdminRoute <==> Contains(pathname, "/admin") by {
      if StartsWith(pathname, "/admin") { StartsWithContains(pathname, "/admin"); }
    }
    if IsAdminUser(user) || isAdminRoute then "/admin/login" else "/signin"
  }

  /** `logout`: clears the token, the flags, the user and the cookie, and
      navigates; the backend logout call is not awaited and its result is
      never read, so it has no part in the new state. */
  function AfterLogout(s: Session, pathname: string): (r: Session)
    ensures r.token == None && !r.isAuthenticated && r.user == None && r.accessCookie == None
    ensures r.isLoading == s.isLoading
    ensures r.location == Some(LogoutRedirect(s.user, pathname))
  {
    Session(false, s.isLoading, None, None, None, Some(LogoutRedirect(s.user, pathname)))
  }

  /** The user record `updateProfile` stores: only id, email, name, phone and country. */
  function StoredProfile(data: Profile): (p: Profile)
    ensures p.id == data.id && p.email == data.email && p.name == data.name
    ensures p.phone == data.phone && p.country == data.country
    ensures p.isStaff == None && p.isSuperuser == None
  {
    Profile(data.id, data.email, data.name, data.phone, data.country, None, None)
  }

  /** `updateProfile`: a returned profile replaces `user`; none leaves the state alone. */
  function AfterUpdateProfile(s: Session, data: Option<Profile>): (r: Session)
    ensures data.None? ==> r == s
    ensures data.Some? ==> r == s.(user := Some(StoredProfile(data.value)))
  {
    if data.Some? then s.(user := Some(StoredProfile(data.value))) else s
  }

  /* ---------- properties of whole scenarios ---------- */

  /** A failed or thrown startup refresh leaves a fresh session signed out,
      with no user and no longer loading. */
  lemma FailedRefreshSignedOut(storedToken: Option<string>, cookie: Option<string>, refresh: RefreshOutcome, me: MeOutcome)
    requires refresh.RefreshThrew? || refresh.RefreshNotOk? || (refresh.RefreshOk? && !Truthy(refresh.access))
    ensures var r := AfterRefresh(Initial(storedToken, cookie), refresh, me);
            !r.isAuthenticated && r.user == None && !r.isLoading
  {
  }

  /** A refresh that yields a token signs the session in even when the profile
      fetch fails, throws or returns a body that does not parse; the user then
      stays null. */
  lemma RefreshWithoutProfile(storedToken: Option<string>, cookie: Option<string>, access: string, me: MeOutcome)
    requires access != ""
    requires !(me.MeOk? && me.body.Some?)
    ensures var r := AfterRefresh(Initial(storedToken, cookie), RefreshOk(Some(access)), me);
            r.isAuthenticated && r.user == None && r.token == Some(access) && r.accessCookie == Some(access)
  {
  }

  /** A login whose call throws leaves a signed-out session signed out, with
      no user, and lowers `isLoading`. */
  lemma ThrownLoginStaysSignedOut(s: Session, me: MeOutcome)
    requires !s.isAuthenticated && s.user == None
    ensures var r := AfterLogin(s, LoginThrew, me);
            !r.isAuthenticated && r.user == None && !r.isLoading
  {
  }

  /** After `updateProfile` the stored user carries no role flags, so the
      logout redirect then depends on the path alone. */
  lemma UpdatedProfileLosesRole(s: Session, data: Profile, pathname: string)
    ensures LogoutRedirect(AfterUpdateProfile(s, Some(data)).user, pathname) ==
      (if Contains(pathname, "/admin") then "/admin/login" else "/signin")
  {
  }

  /** Logging out again on the same page changes nothing, except that a staff
      user who left from a non-admin page is now sent to "/signin". */
  lemma LogoutTwice(s: Session, pathname: string)
    ensures !IsAdminUser(s.user) ==> AfterLogout(AfterLogout(s, pathname), pathname) == AfterLogout(s, pathname)
    ensures IsAdminUser(s.user) && !Contains(pathname, "/admin") ==>
      AfterLogout(AfterLogout(s, pathname), pathname).location == Some("/signin")
  {
  }

  /** The provider as a mutable object. */
  class AuthSession {
    var isAuthenticated: bool
    var isLoading: bool
    var user: Option<Profile>
    var token: Option<string>
    var accessCookie: Option<string>
    var location: Option<string>

    function State(): Session
      reads this
    {
      Session(isAuthenticated, isLoading, user, token, accessCookie, location)
    }

    /** Mounting the provider: signed out, loading, no user. */
    constructor (storedToken: Option<string>, cookie: Option<string>)
      ensures State() == Initial(storedToken, cookie)
    {
      isAuthenticated := false;
      isLoading := true;
      user := None;
      token := storedToken;
      accessCookie := cookie;
      location := None;
    }

    /** The `useEffect` that runs once on mount. */
    method Init(refresh: RefreshOutcome, me: MeOutcome)
      modifies this
      ensures State() == AfterRefresh(old(State()), refresh, me)
    {
      if refresh.RefreshOk? {
        if Truthy(refresh.access) {
          token := refresh.access;
          accessCookie := refresh.access;
          isAuthenticated := true;
          if me.MeOk? && me.body.Some? {
            user := me.body;
          }
        }
      } else {
        isAuthenticated := false;
      }
      isLoading := false;
    }

    /** `login` (and, with `apiAdminLogin` as the call, `adminLogin`).
        `threw` reports that the login call's error propagates to the caller. */
    method Login(outcome: LoginOutcome, me: MeOutcome) returns (threw: bool)
      modifies this
      ensures State() == AfterLogin(old(State()), outcome, me)
      ensures threw <==> outcome.LoginThrew?
    {
      isLoading := true;
      threw := outcome.LoginThrew?;
      if outcome.LoginReturned? && Truthy(outcome.access) {
        token := outcome.access;
        isAuthenticated := true;
        if me.MeOk? {
          user := me.body;
        }
      }
      isLoading := false;
    }

    /** `adminLogin`: the same steps as `login` around another call. */
    method AdminLogin(outcome: LoginOutcome, me: MeOutcome) returns (threw: bool)
      modifies this
      ensures State() == AfterLogin(old(State()), outcome, me)
      ensures threw <==> outcome.LoginThrew?
    {
      threw := Login(outcome, me);
    }

    /** `updateProfile`, returning the data the call returned. */
    method UpdateProfile(data: Option<Profile>) returns (r: Option<Profile>)
      modifies this
      ensures State() == AfterUpdateProfile(old(State()), data)
      ensures r == data
    {
      if data.Some? {
        user := Some(StoredProfile(data.value));
      }
      r := data;
    }

    /** `logout`, on the page at `pathname`. */
    method Logout(pathname: string)
      modifies this
      ensures State() == AfterLogout(old(State()), pathname)
    {
      var redirectUrl := LogoutRedirect(user, pathname);
      token := None;
      isAuthenticated := false;
      user := None;
      accessCookie := None;
      location := Some(redirectUrl);
    }
  }
}
