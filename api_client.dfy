/**
 * The HTTP client: the bearer token it holds, the headers it sends, the way it
 * turns an HTTP exchange into an `ApiResponse`, and its table of endpoints.
 * The exchange itself (`fetch` and `response.json()`) is a parameter.
 */
module Api {
  import opened Wrappers
  import opened Strings
  import opened Types
  import Config

  // ---------------------------------------------------------------- headers

  const ContentType: string := "Content-Type"
  const Authorization: string := "Authorization"
  const JsonMediaType: string := "application/json"

  /** A token counts only when it is a non-empty string (JavaScript truthiness). */
  predicate Held(token: Option<string>) {
    token.Some? && token.value != ""
  }

  /**
   * The headers of a request: `Content-Type: application/json` unless the caller
   * sets it, then the caller's headers, then `Authorization: Bearer <token>`
   * whenever a token is held, replacing any `Authorization` the caller gave.
   */
  function RequestHeaders(token: Option<string>, caller: map<string, string>): (h: map<string, string>)
    ensures forall k :: k in h <==> k == ContentType || k in caller || (k == Authorization && Held(token))
    ensures h[ContentType] == if ContentType in caller then caller[ContentType] else JsonMediaType
    ensures forall k :: k in caller && k != Authorization ==> h[k] == caller[k]
    ensures Held(token) ==> h[Authorization] == "Bearer " + token.value
    ensures !Held(token) && Authorization in caller ==> h[Authorization] == caller[Authorization]
  {
    var merged := map[ContentType := JsonMediaType] + caller;
    if Held(token) then merged[Authorization := "Bearer " + token.value] else merged
  }

  /** The caller headers of the token-refresh call: the refresh token as bearer. */
  function RefreshHeaders(refreshToken: string): map<string, string> {
    map[Authorization := "Bearer " + refreshToken]
  }

  /**
   * While an access token is held, the refresh call carries the access token,
   * not the refresh token the caller put in `Authorization`.
   */
  lemma HeldTokenOverridesRefreshBearer(token: Option<string>, refreshToken: string)
    requires Held(token)
    ensures RequestHeaders(token, RefreshHeaders(refreshToken))[Authorization] == "Bearer " + token.value
  {
  }

  /** Without a token, a request carries exactly the caller's `Authorization`, if any. */
  lemma NoTokenNoAuthorization(caller: map<string, string>)
    ensures Authorization in RequestHeaders(None, caller) <==> Authorization in caller
    ensures Authorization in RequestHeaders(Some(""), caller) <==> Authorization in caller
  {
  }

  // ---------------------------------------------------------------- results

  /** JavaScript truthiness of a property value; an absent property is `undefined`. */
  predicate Truthy(v: Option<Json>) {
    match v
    case None => false
    case Some(JNull) => false
    case Some(JBool(b)) => b
    case Some(JNum(n)) => n != 0
    case Some(JStr(s)) => s != ""
    case Some(JArr(_)) => true
    case Some(JObj(_)) => true
  }

  /** `body.key` on a body that is not `null`. */
  function Field(body: Json, key: string): Option<Json> {
    match body
    case JObj(fields) => if key in fields then Some(fields[key]) else None
    case _ => None
  }

  /** What `fetch` and `response.json()` produced: a parsed body, or a thrown value. */
  datatype Exchange = Answered(ok: bool, body: Json) | Threw(thrown: Thrown)

  /** A thrown `Error` (network failure, a body that is not JSON) or any other thrown value. */
  datatype Thrown = ErrorObject(message: string) | NonError

  /** `{ error: text, data: undefined }`. */
  function Failed(text: string): ApiResponse<Json> {
    ApiResponse(None, None, Some(JStr(text)))
  }

  /** The text of a caught exception. */
  function ThrownText(t: Thrown): string {
    match t
    case ErrorObject(m) => m
    case NonError => "Network error"
  }

  /** `body.message || body.error || "An error occurred"`. */
  function ErrorValue(body: Json): (e: Json)
    ensures Truthy(Field(body, "message")) ==> Some(e) == Field(body, "message")
    ensures !Truthy(Field(body, "message")) && Truthy(Field(body, "error")) ==> Some(e) == Field(body, "error")
    ensures !Truthy(Field(body, "message")) && !Truthy(Field(body, "error")) ==> e == JStr("An error occurred")
    ensures Truthy(Some(e))
  {
    if Truthy(Field(body, "message")) then Field(body, "message").value
    else if Truthy(Field(body, "error")) then Field(body, "error").value
    else JStr("An error occurred")
  }

  /**
   * What `request` resolves to. `typeErrorText` is the message of the
   * `TypeError` the runtime raises when the code reads a property of a `null`
   * body or applies `in` to a body that is not an object; the `catch` turns it
   * into an error result like any other exception, so `request` never throws.
   */
  function ShapeResponse(ex: Exchange, typeErrorText: string): (r: ApiResponse<Json>)
    ensures r.error.Some? <==> r.data.None?
    ensures ex.Threw? ==> r == Failed(ThrownText(ex.thrown))
    ensures ex.Answered? && !ex.ok && ex.body != JNull ==>
      r == ApiResponse(None, None, Some(ErrorValue(ex.body)))
    ensures ex.Answered? && ex.ok && ex.body.JObj? ==>
      r.error == None && r.message == Field(ex.body, "message") &&
      r.data == Some(
        if "access_token" in ex.body.fields && "refresh_token" in ex.body.fields then ex.body
        else if Truthy(Field(ex.body, "data")) then Field(ex.body, "data").value
        else ex.body)
    ensures ex.Answered? && ex.ok && ex.body.JArr? ==> r == ApiResponse(None, Some(ex.body), None)
    ensures ex.Answered? && (ex.body == JNull || (ex.ok && !ex.body.JObj? && !ex.body.JArr?)) ==>
      r == Failed(typeErrorText)
  {
    match ex
    case Threw(t) => Failed(ThrownText(t))
    case Answered(ok, body) =>
      if !ok then
        if body == JNull then Failed(typeErrorText)
        else ApiResponse(None, None, Some(ErrorValue(body)))
      else
        match body
        case JObj(fields) =>
          var hasTokens := "access_token" in fields && "refresh_token" in fields;
          var data := if hasTokens then body
                      else if Truthy(Field(body, "data")) then Field(body, "data").value
                      else body;
          ApiResponse(Field(body, "message"), Some(data), None)
        case JArr(_) => ApiResponse(None, Some(body), None)
        case _ => Failed(typeErrorText)
  }

  /**
   * The stores test `if (response.error)`: every failed request has a truthy
   * error, except an exception whose message is empty (or an empty runtime
   * `TypeError` text).
   */
  lemma {:induction false} FailureIsTruthy(ex: Exchange, typeErrorText: string)
    requires typeErrorText != ""
    requires ex != Threw(ErrorObject(""))
    ensures ShapeResponse(ex, typeErrorText).error.Some? ==> Truthy(ShapeResponse(ex, typeErrorText).error)
  {
    match ex
    case Threw(t) =>
      assert ThrownText(t) != "";
    case Answered(ok, body) =>
      if !ok && body != JNull {
        assert Truthy(Some(ErrorValue(body)));
      }
  }

  // ---------------------------------------------------------------- endpoints

  datatype HttpMethod = Get | Post | Put | Patch | Delete

  /** The backend operations the client exposes, with the ids they put in the path. */
  datatype Endpoint =
    | Login
    | Logout
    | RefreshToken
    | FindUsers
    | FindUser(userId: string)
    | UpdateUser(userId: string)
    | DeleteUser(userId: string)
    | AllReports
    | ResolvedReports
    | ResolveReport(reportId: string)
    | DeleteReport(reportId: string)
    | AddReport
    | ChatMessages(chatId: string)
    | DeleteMessage(messageId: string)
    | AllChats
    | UserChats(userId: string)

  /** Method and path of each endpoint (a call without a `method` option is a GET). */
  function Route(e: Endpoint): (HttpMethod, string) {
    match e
    case Login => (Post, "/user/login")
    case Logout => (Post, "/user/logout")
    case RefreshToken => (Get, "/token/refresh-token")
    case FindUsers => (Get, "/user/find")
    case FindUser(id) => (Get, "/user/findbyid/" + id)
    case UpdateUser(id) => (Patch, "/user/update/" + id)
    case DeleteUser(id) => (Delete, "/user/delete/" + id)
    case AllReports => (Get, "/report/all")
    case ResolvedReports => (Get, "/report/resolved")
    case ResolveReport(id) => (Put, "/report/resolve/" + id)
    case DeleteReport(id) => (Delete, "/report/" + id)
    case AddReport => (Post, "/report/add")
    case ChatMessages(id) => (Get, "/message/find/" + id)
    case DeleteMessage(id) => (Delete, "/message/delete/" + id)
    case AllChats => (Get, "/chat/find")
    case UserChats(id) => (Get, "/chat/find/" + id)
  }

  /** The rest of `path` after `prefix`, if `path` starts with it. */
  function After(path: string, prefix: string): Option<string> {
    if StartsWith(path, prefix) then Some(path[|prefix|..]) else None
  }

  /** Recognises the endpoint a method and path belong to. */
  function ParseRoute(m: HttpMethod, path: string): Option<Endpoint> {
    match m
    case Post =>
      if path == "/user/login" then Some(Login)
      else if path == "/user/logout" then Some(Logout)
      else if path == "/report/add" then Some(AddReport)
      else None
    case Get =>
      if path == "/token/refresh-token" then Some(RefreshToken)
      else if path == "/user/find" then Some(FindUsers)
      else if path == "/report/all" then Some(AllReports)
      else if path == "/report/resolved" then Some(ResolvedReports)
      else if path == "/chat/find" then Some(AllChats)
      else if After(path, "/user/findbyid/").Some? then Some(FindUser(After(path, "/user/findbyid/").value))
      else if After(path, "/message/find/").Some? then Some(ChatMessages(After(path, "/message/find/").value))
      else if After(path, "/chat/find/").Some? then Some(UserChats(After(path, "/chat/find/").value))
      else None
    case Put =>
      if After(path, "/report/resolve/").Some? then Some(ResolveReport(After(path, "/report/resolve/").value))
      else None
    case Patch =>
      if After(path, "/user/update/").Some? then Some(UpdateUser(After(path, "/user/update/").value))
      else None
    case Delete =>
      if After(path, "/user/delete/").Some? then Some(DeleteUser(After(path, "/user/delete/").value))
      else if After(path, "/message/delete/").Some? then Some(DeleteMessage(After(path, "/message/delete/").value))
      else if After(path, "/report/").Some? then Some(DeleteReport(After(path, "/report/").value))
      else None
  }

  /** `prefix + id` starts with `prefix` and nothing else is left after it but `id`. */
  lemma AfterPrefix(prefix: string, id: string)
    ensures After(prefix + id, prefix) == Some(id)
  {
    assert (prefix + id)[..|prefix|] == prefix;
  }

  /** `prefix + id` does not start with `other` when the two differ within their common length. */
  lemma NotAfter(prefix: string, id: string, other: string, i: nat)
    requires i < |prefix| && i < |other| && prefix[i] != other[i]
    ensures After(prefix + id, other) == None
  {
  }

  /** The endpoint table is one-to-one: every endpoint is recovered from its method and path. */
  lemma RouteRoundTrip(e: Endpoint)
    ensures ParseRoute(Route(e).0, Route(e).1) == Some(e)
  {
    match e
    case FindUser(id) =>
      assert |Route(e).1| >= 15 && Route(e).1[1] == 'u';
      AfterPrefix("/user/findbyid/", id);
    case UpdateUser(id) => AfterPrefix("/user/update/", id);
    case DeleteUser(id) => AfterPrefix("/user/delete/", id);
    case ResolveReport(id) => AfterPrefix("/report/resolve/", id);
    case DeleteReport(id) =>
      NotAfter("/report/", id, "/user/delete/", 1);
      NotAfter("/report/", id, "/message/delete/", 1);
      AfterPrefix("/report/", id);
    case ChatMessages(id) =>
      assert |Route(e).1| >= 14;
      NotAfter("/message/find/", id, "/user/findbyid/", 1);
      AfterPrefix("/message/find/", id);
    case DeleteMessage(id) =>
      NotAfter("/message/delete/", id, "/user/delete/", 1);
      AfterPrefix("/message/delete/", id);
    case UserChats(id) =>
      assert |Route(e).1| >= 11;
      NotAfter("/chat/find/", id, "/user/findbyid/", 1);
      NotAfter("/chat/find/", id, "/message/find/", 1);
      AfterPrefix("/chat/find/", id);
    case _ =>
  }

  // ---------------------------------------------------------------- the client

  /** The one client instance the stores share. */
  class ApiClient {
    /** The bearer token; `null` until a session pushes one. */
    var token: Option<string>

    constructor ()
      ensures token == None
    {
      token := None;
    }

    method SetToken(t: Option<string>)
      modifies this
      ensures token == t
    {
      token := t;
    }

    /**
     * One request to `e` with the caller's extra headers; `exchange` is what the
     * network and the JSON parser produced. Returns what was sent and what the
     * caller gets back.
     */
    method Request(e: Endpoint, callerHeaders: map<string, string>, exchange: Exchange, typeErrorText: string)
      returns (m: HttpMethod, url: string, headers: map<string, string>, response: ApiResponse<Json>)
      ensures (m, Config.EndpointOf(url)) == (Route(e).0, Some(Route(e).1))
      ensures headers == RequestHeaders(token, callerHeaders)
      ensures response == ShapeResponse(exchange, typeErrorText)
    {
      var path;
      m, path := Route(e).0, Route(e).1;
      url := Config.BuildApiUrl(path);
      Config.EndpointRoundTrip(path);
      headers := map[ContentType := JsonMediaType] + callerHeaders;
      if token.Some? && token.value != "" {
        headers := headers[Authorization := "Bearer " + token.value];
      }
      response := ShapeResponse(exchange, typeErrorText);
    }
  }
}
