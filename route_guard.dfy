/** The edge middleware that keeps unauthenticated visitors out of the admin area. */
module RouteGuard {
  import opened Wrappers
  import opened Strings

  const LoginPath: string := "/admin/login"
  const AdminPrefix: string := "/admin"

  /** Let the request through, or redirect the browser to another path. */
  datatype Decision = Next | Redirect(path: string)

  /**
   * The guard's decision for a request to `pathname`; `sessionCookie` is the
   * `admin_session` cookie if the browser sent one. Only its presence matters.
   */
  function Middleware(pathname: string, sessionCookie: Option<string>): (d: Decision)
    ensures pathname == LoginPath ==> d == Next
    ensures !StartsWith(pathname, AdminPrefix) ==> d == Next
    ensures sessionCookie.Some? ==> d == Next
    ensures d != Next <==> pathname != LoginPath && StartsWith(pathname, AdminPrefix) && sessionCookie == None
    ensures d.Redirect? ==> d.path == LoginPath
  {
    if pathname == LoginPath then Next
    else if StartsWith(pathname, AdminPrefix) && sessionCookie == None then Redirect(LoginPath)
    else Next
  }

  /** The redirect target is always let through, so the guard never redirects twice in a row. */
  lemma NoRedirectLoop(pathname: string, sessionCookie: Option<string>)
    ensures Middleware(pathname, sessionCookie).Redirect? ==>
      Middleware(Middleware(pathname, sessionCookie).path, sessionCookie) == Next
  {
  }

  /** The value of the cookie is never examined: any two values give the same decision. */
  lemma CookieValueIgnored(pathname: string, v1: string, v2: string)
    ensures Middleware(pathname, Some(v1)) == Middleware(pathname, Some(v2))
  {
  }
}
