/**
 * The admin session: login with the admin check, logout, restoring a session
 * after a page load, and refreshing the access token. Besides its own fields
 * the store writes three things outside itself, modelled here as fields: the
 * `admin_session` cookie, the `admin_session_storage` local-storage entry and
 * the token of the shared HTTP client.
 */
module Session {
  import opened Wrappers
  import opened Types
  import Api

  const CookieName: string := "admin_session"
  const StorageKey: string := "admin_session_storage"

  /** Days a remembered session cookie lives; `None` means a browser-session cookie. */
  const RememberDays: int := 7

  const LoginFailed: string := "Login failed"
  const NoUserData: string := "Invalid response from server. No user data received."
  const AccessDenied: string := "Access denied. Admin privileges required."

  /** The JSON object written to the cookie and to local storage. */
  datatype SessionData = SessionData(
    email: Option<string>,
    user: Option<User>,
    token: Option<string>,
    refreshToken: Option<string>,
    rememberMe: Option<bool>)

  /**
   * A non-empty persisted string: JSON that reads back as session data, or text
   * on which `JSON.parse` (or reading a field of what it returns) throws.
   */
  datatype Blob = Parses(data: SessionData) | Garbled

  datatype CookieEntry = CookieEntry(blob: Blob, expiresDays: Option<int>)

  /** `response.data` of the login call: `{ access_token, refresh_token, data: user }`. */
  datatype LoginPayload = LoginPayload(accessToken: Option<string>, refreshToken: Option<string>, user: Option<User>)

  /** `response.data` of the refresh call: `{ access_token }`. */
  datatype RefreshPayload = RefreshPayload(accessToken: Option<string>)

  /**
   * Why a login reply is refused, or `None` when it is accepted: a failed call
   * or a missing body, then a missing user, then a user who is not an admin.
   */
  function LoginRefusal(reply: Reply<LoginPayload>): (why: Option<string>)
    ensures reply.Err? ==> why == Some(reply.message)
    ensures reply == Ok(None) ==> why == Some(LoginFailed)
    ensures reply.Ok? && reply.data.Some? && reply.data.value.user == None ==> why == Some(NoUserData)
    ensures why == None <==> reply.Ok? && reply.data.Some? && reply.data.value.user.Some? && Flag(reply.data.value.user.value.isAdmin)
    ensures why != None && why != Some(LoginFailed) && why != Some(NoUserData) && reply.Ok? ==>
      why == Some(AccessDenied) && !Flag(reply.data.value.user.value.isAdmin)
  {
    match reply
    case Err(msg) => Some(msg)
    case Ok(None) => Some(LoginFailed)
    case Ok(Some(p)) =>
      if p.user == None then Some(NoUserData)
      else if !Flag(p.user.value.isAdmin) then Some(AccessDenied)
      else None
  }

  /** A session whose admin is not flagged as admin is always refused, whatever the tokens. */
  lemma NonAdminRefused(p: LoginPayload)
    requires p.user.Some? && !Flag(p.user.value.isAdmin)
    ensures LoginRefusal(Ok(Some(p))) == Some(AccessDenied)
  {
  }

  /**
   * The session data a page load restores: the cookie when it is present and
   * parses, otherwise local storage when it is present and parses, otherwise none.
   */
  function HydrationSource(cookie: Option<CookieEntry>, storage: Option<Blob>): (d: Option<SessionData>)
    ensures cookie.Some? && cookie.value.blob.Parses? ==> d == Some(cookie.value.blob.data)
    ensures (cookie.None? || cookie.value.blob.Garbled?) && storage.Some? && storage.value.Parses? ==> d == Some(storage.value.data)
    ensures d.None? <==> (cookie.None? || cookie.value.blob.Garbled?) && (storage.None? || storage.value.Garbled?)
  {
    if cookie.Some? && cookie.value.blob.Parses? then Some(cookie.value.blob.data)
    else if storage.Some? && storage.value.Parses? then Some(storage.value.data)
    else None
  }

  class SessionStore {
    var isAuthed: bool
    var adminEmail: Option<string>
    var adminUser: Option<User>
    var token: Option<string>
    var refreshToken: Option<string>
    var rememberMe: bool
    var loading: bool
    var error: Option<string>

    /** The `admin_session` cookie, if the browser holds one. */
    var cookie: Option<CookieEntry>
    /** The `admin_session_storage` entry, if local storage holds one. */
    var storage: Option<Blob>
    /** The HTTP client whose bearer token the session pushes. */
    const client: Api.ApiClient

    /** A renewed store on a page that may already hold a cookie and a storage entry. */
    constructor (client: Api.ApiClient, cookie: Option<CookieEntry>, storage: Option<Blob>)
      ensures this.client == client && this.cookie == cookie && this.storage == storage
      ensures !isAuthed && adminEmail == None && adminUser == None && token == None && refreshToken == None
      ensures !rememberMe && !loading && error == None
    {
      this.client := client;
      this.cookie := cookie;
      this.storage := storage;
      isAuthed := false;
      adminEmail := None;
      adminUser := None;
      token := None;
      refreshToken := None;
      rememberMe := false;
      loading := false;
      error := None;
    }

    /**
     * Logs in with the backend's `reply` to the login call. Only an admin user is
     * accepted; on success the session is kept in memory, in the cookie (for
     * seven days when remembered, for the browser session otherwise), in local
     * storage when remembered, and in the HTTP client.
     */
    method Login(email: string, password: string, remember: bool, reply: Reply<LoginPayload>) returns (ok: bool)
      modifies this, client
      ensures ok <==> LoginRefusal(reply) == None
      ensures !loading
      ensures !ok ==>
        && error == LoginRefusal(reply)
        && isAuthed == old(isAuthed) && token == old(token) && refreshToken == old(refreshToken)
        && adminEmail == old(adminEmail) && adminUser == old(adminUser) && rememberMe == old(rememberMe)
        && cookie == old(cookie) && storage == old(storage) && client.token == old(client.token)
      ensures ok ==>
        var p := reply.data.value;
        var u := p.user.value;
        var saved := Parses(SessionData(Some(u.email), Some(u), p.accessToken, p.refreshToken, Some(remember)));
        && isAuthed && error == None
        && token == p.accessToken && refreshToken == p.refreshToken
        && adminEmail == Some(u.email) && adminUser == Some(u) && rememberMe == remember
        && client.token == p.accessToken
        && cookie == Some(CookieEntry(saved, if remember then Some(RememberDays) else None))
        && storage == if remember then Some(saved) else old(storage)
    {
      loading := true;
      error := None;
      match reply {
        case Err(msg) =>
          error := Some(msg);
          loading := false;
          return false;
        case Ok(None) =>
          error := Some(LoginFailed);
          loading := false;
          return false;
        case Ok(Some(p)) =>
          if p.user == None {
            error := Some(NoUserData);
            loading := false;
            return false;
          }
          var user := p.user.value;
          if !Flag(user.isAdmin) {
            error := Some(AccessDenied);
            loading := false;
            return false;
          }
          client.SetToken(p.accessToken);
          var saved := Parses(SessionData(Some(user.email), Some(user), p.accessToken, p.refreshToken, Some(remember)));
          cookie := Some(CookieEntry(saved, if remember then Some(RememberDays) else None));
          if remember {
            storage := Some(saved);
          }
          isAuthed := true;
          adminEmail := Some(user.email);
          adminUser := Some(user);
          token := p.accessToken;
          refreshToken := p.refreshToken;
          rememberMe := remember;
          loading := false;
          error := None;
          return true;
      }
    }

    /**
     * Logs out. The logout endpoint is called (and its result ignored) only when
     * a refresh token is held; `calledBackend` says whether it was. Afterwards
     * nothing of the session is left in memory, in the browser or in the client.
     */
    method Logout() returns (calledBackend: bool)
      modifies this, client
      ensures calledBackend <==> Api.Held(old(refreshToken))
      ensures client.token == None && cookie == None && storage == None
      ensures !isAuthed && adminEmail == None && adminUser == None && token == None && refreshToken == None
      ensures !rememberMe && error == None && loading == old(loading)
    {
      calledBackend := refreshToken.Some? && refreshToken.value != "";
      client.SetToken(None);
      cookie := None;
      storage := None;
      isAuthed := false;
      adminEmail := None;
      adminUser := None;
      token := None;
      refreshToken := None;
      rememberMe := false;
      error := None;
    }

    /** Takes over a persisted session without calling the backend. */
    method Restore(d: SessionData)
      modifies this, client
      ensures client.token == d.token
      ensures isAuthed && adminEmail == d.email && adminUser == d.user
      ensures token == d.token && refreshToken == d.refreshToken && rememberMe == (d.rememberMe == Some(true))
      ensures loading == old(loading) && error == old(error) && cookie == old(cookie) && storage == old(storage)
    {
      client.SetToken(d.token);
      isAuthed := true;
      adminEmail := d.email;
      adminUser := d.user;
      token := d.token;
      refreshToken := d.refreshToken;
      rememberMe := d.rememberMe == Some(true);
    }

    /**
     * Restores the session on page load: from the cookie if it parses, otherwise
     * from local storage, which is then copied back into a seven-day cookie.
     * With neither, nothing changes.
     */
    method HydrateFromCookieOrStorage()
      modifies this, client
      ensures storage == old(storage) && loading == old(loading) && error == old(error)
      ensures HydrationSource(old(cookie), old(storage)) == None ==>
        && isAuthed == old(isAuthed) && adminEmail == old(adminEmail) && adminUser == old(adminUser)
        && token == old(token) && refreshToken == old(refreshToken) && rememberMe == old(rememberMe)
        && cookie == old(cookie) && client.token == old(client.token)
      ensures HydrationSource(old(cookie), old(storage)).Some? ==>
        var d := HydrationSource(old(cookie), old(storage)).value;
        && isAuthed && adminEmail == d.email && adminUser == d.user
        && token == d.token && refreshToken == d.refreshToken && rememberMe == (d.rememberMe == Some(true))
        && client.token == d.token
      ensures old(cookie).Some? && old(cookie).value.blob.Parses? ==> cookie == old(cookie)
      ensures (old(cookie).None? || old(cookie).value.blob.Garbled?) && old(storage).Some? && old(storage).value.Parses? ==>
        cookie == Some(CookieEntry(old(storage).value, Some(RememberDays)))
    {
      if cookie.Some? && cookie.value.blob.Parses? {
        Restore(cookie.value.blob.data);
        return;
      }
      if storage.Some? && storage.value.Parses? {
        cookie := Some(CookieEntry(storage.value, Some(RememberDays)));
        Restore(storage.value.data);
      }
    }

    /**
     * Trades the refresh token for a new access token, with the backend's
     * `reply`. Without a refresh token nothing happens; a failed call, an empty
     * reply, or a cookie that no longer parses ends the session.
     */
    method RefreshAccessToken(reply: Reply<RefreshPayload>) returns (ok: bool)
      modifies this, client
      ensures !Api.Held(old(refreshToken)) ==>
        && !ok
        && isAuthed == old(isAuthed) && token == old(token) && refreshToken == old(refreshToken)
        && adminEmail == old(adminEmail) && adminUser == old(adminUser) && rememberMe == old(rememberMe)
        && cookie == old(cookie) && storage == old(storage) && client.token == old(client.token)
        && error == old(error)
      ensures Api.Held(old(refreshToken)) && (reply.Err? || reply == Ok(None)) ==> !ok
      ensures Api.Held(old(refreshToken)) && reply.Ok? && reply.data.Some? && old(cookie).Some? && old(cookie).value.blob.Garbled? ==> !ok
      ensures Api.Held(old(refreshToken)) && !ok ==>
        && !isAuthed && adminEmail == None && adminUser == None && !rememberMe
        && token == None && refreshToken == None && error == None
        && cookie == None && storage == None && client.token == None
      ensures ok <==>
        && Api.Held(old(refreshToken)) && reply.Ok? && reply.data.Some?
        && (old(cookie).None? || old(cookie).value.blob.Parses?)
      ensures loading == old(loading)
      ensures ok ==>
        var renewed := reply.data.value.accessToken;
        && token == renewed && client.token == renewed && error == old(error)
        && refreshToken == old(refreshToken) && isAuthed == old(isAuthed) && rememberMe == old(rememberMe)
        && adminEmail == old(adminEmail) && adminUser == old(adminUser)
        && (old(cookie) == None ==> cookie == None && storage == old(storage))
        && (old(cookie).Some? ==>
             var saved := Parses(old(cookie).value.blob.data.(token := renewed));
             && cookie == Some(CookieEntry(saved, if rememberMe then Some(RememberDays) else None))
             && storage == if rememberMe then Some(saved) else old(storage))
    {
      if !(refreshToken.Some? && refreshToken.value != "") {
        return false;
      }
      if reply.Err? || reply.data.None? {
        var _ := Logout();
        return false;
      }
      var renewed := reply.data.value.accessToken;
      client.SetToken(renewed);
      if cookie.Some? {
        match cookie.value.blob {
          case Garbled =>
            var _ := Logout();
            return false;
          case Parses(d) =>
            var saved := Parses(d.(token := renewed));
            cookie := Some(CookieEntry(saved, if rememberMe then Some(RememberDays) else None));
            if rememberMe {
              storage := Some(saved);
            }
        }
      }
      token := renewed;
      return true;
    }

    method ClearError()
      modifies this
      ensures error == None
      ensures isAuthed == old(isAuthed) && token == old(token) && refreshToken == old(refreshToken)
      ensures adminEmail == old(adminEmail) && adminUser == old(adminUser) && rememberMe == old(rememberMe)
      ensures cookie == old(cookie) && storage == old(storage) && loading == old(loading)
    {
      error := None;
    }
  }
}
