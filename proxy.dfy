/** The admin-session guard of frontend/proxy.ts. Only whether the
    `adminSession` cookie is present matters; its value is never read. */
module Proxy {
  import opened Common
  import opened Middleware

  function Proxy(pathname: string, adminSession: Option<string>): (d: Decision)
    ensures d == Next || d == Redirect("/admin/login")
    ensures d.Redirect? <==> StartsWith(pathname, "/admin") && pathname != "/admin/login" && adminSession.None?
  {
    if StartsWith(pathname, "/admin") && pathname != "/admin/login" && adminSession.None? then
      Redirect("/admin/login")
    else Next
  }

  /** Any cookie value, even an empty one, lets the request through. */
  lemma CookieValueIgnored(pathname: string, a: string, b: string)
    ensures Proxy(pathname, Some(a)) == Proxy(pathname, Some(b)) == Next
  {
  }
}
