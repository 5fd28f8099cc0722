/** The route guard of frontend/middleware.ts: a pure decision on the request
    path and the `access_token` cookie. The cookie's value is never checked,
    only whether it is present and non-empty. */
module Middleware {
  import opened Common

  /** `NextResponse.next()` or `NextResponse.redirect(target)`. */
  datatype Decision = Next | Redirect(target: string)

  const PublicPages: seq<string> := ["/", "/signin", "/signup", "/admin/login"]
  const ProtectedPages: seq<string> := ["/portfolio", "/markets", "/alerts", "/profile", "/settings"]

  /** `protectedPages.some(page => pathname.startsWith(page))`. */
  predicate IsProtected(pathname: string)
  {
    exists page | page in ProtectedPages :: StartsWith(pathname, page)
  }

  /** `if (!token)`: a missing cookie and an empty one are alike. */
  predicate HasToken(token: Option<string>)
  {
    token.Some? && token.value != ""
  }

  function Middleware(pathname: string, token: Option<string>): (d: Decision)
    ensures pathname in PublicPages ==> d == Next
    ensures HasToken(token) ==> d == Next
    ensures d.Redirect? ==> d.target == "/signin" || d.target == "/admin/login"
    ensures d == Redirect("/signin") <==> pathname !in PublicPages && IsProtected(pathname) && !HasToken(token)
    ensures d == Redirect("/admin/login") <==>
      pathname !in PublicPages && !IsProtected(pathname) && StartsWith(pathname, "/admin") && !HasToken(token)
  {
    if pathname in PublicPages then Next
    else if IsProtected(pathname) && !HasToken(token) then Redirect("/signin")
    else if StartsWith(pathname, "/admin") then
      if pathname == "/admin/login" then Next
      else if !HasToken(token) then Redirect("/admin/login")
      else Next
    else Next
  }

  /** An empty cookie value guards like no cookie. */
  lemma EmptyTokenIsNoToken(pathname: string)
    ensures Middleware(pathname, Some("")) == Middleware(pathname, None)
  {
  }

  /** A path no rule names is allowed, with or without a token. */
  lemma UnguardedPathAllowed(pathname: string, token: Option<string>)
    requires !IsProtected(pathname) && !StartsWith(pathname, "/admin")
    ensures Middleware(pathname, token) == Next
  {
  }

  /** The protected test is a plain prefix: "/profileX" is guarded too. */
  lemma PrefixGuardsLookalike()
    ensures Middleware("/profileX", None) == Redirect("/signin")
  {
    assert StartsWith("/profileX", "/profile");
  }

  /** An admin path without a token goes to the admin login page. */
  lemma AdminPathNeedsToken(rest: string)
    requires "/admin" + rest != "/admin/login"
    ensures Middleware("/admin" + rest, None) == Redirect("/admin/login")
  {
    var pathname := "/admin" + rest;
    assert pathname[..6] == "/admin" && pathname[1] == 'a' && pathname[2] == 'd';
    forall page | page in ProtectedPages ensures !StartsWith(pathname, page) {
      assert |page| >= 3 && page[2] != 'd';
      if |page| <= |pathname| { assert pathname[..|page|][2] == 'd'; }
    }
  }
}
