/** The server hook src/hooks.server.js: guard the `/admin` paths by the
    presence of a `sessionid` cookie. */
module Hooks {
  import opened Wrappers
  import opened JsValues

  /** `throw redirect(status, location)` or `resolve(event)`. */
  datatype Decision = Redirect(status: int, location: string) | Resolve

  const LoginPath := "/admin/login"
  const DashboardPath := "/admin/dashboard"

  /** `url.pathname.startsWith('/admin')`: a plain prefix test, so it also
      covers paths such as `/administrator`. */
  predicate IsAdminPath(pathname: string) {
    "/admin" <= pathname
  }

  /** `handle`: an admin path other than the login page without a session
      goes to the login page; the login page with a session goes to the
      dashboard; everything else is resolved. */
  function Handle(pathname: string, sessionId: Option<string>): (d: Decision)
    ensures d.Redirect? ==> d.status == 303 && IsAdminPath(pathname)
    ensures d == Redirect(303, LoginPath) <==> IsAdminPath(pathname) && !Truthy(sessionId) && pathname != LoginPath
    ensures d == Redirect(303, DashboardPath) <==> pathname == LoginPath && Truthy(sessionId)
  {
    var isAdminPath := IsAdminPath(pathname);
    var isLoginPage := pathname == LoginPath;
    if isAdminPath && !Truthy(sessionId) && !isLoginPage then Redirect(303, LoginPath)
    else if isLoginPage && Truthy(sessionId) then Redirect(303, DashboardPath)
    else Resolve
  }

  /** An admin page other than the login page is only ever served to a
      request that carries a session cookie. */
  lemma AdminNeedsSession(pathname: string, sessionId: Option<string>)
    requires IsAdminPath(pathname) && pathname != LoginPath
    ensures Handle(pathname, sessionId) == Resolve <==> Truthy(sessionId)
  {
  }

  /** Requests outside `/admin` always pass through. */
  lemma PublicPathsResolve(pathname: string, sessionId: Option<string>)
    requires !IsAdminPath(pathname)
    ensures Handle(pathname, sessionId) == Resolve
  {
  }

  /** A redirect never points at the page requested, and following it with
      the same cookie is resolved: no redirect loop. */
  lemma RedirectsSettle(pathname: string, sessionId: Option<string>)
    requires Handle(pathname, sessionId).Redirect?
    ensures Handle(pathname, sessionId).location != pathname
    ensures Handle(Handle(pathname, sessionId).location, sessionId) == Resolve
  {
    assert IsAdminPath(DashboardPath) && DashboardPath != LoginPath;
  }

  /** The prefix test is not a path-segment test: `/administrator` without
      a session is sent to the login page. */
  lemma PrefixCoversAdministrator()
    ensures Handle("/administrator", None) == Redirect(303, LoginPath)
  {
    assert IsAdminPath("/administrator");
  }
}
