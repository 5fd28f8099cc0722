/** The navigation of frontend/components/dashboard/sidebar.tsx. */
module Sidebar {
  import opened Common
  import Auth

  /** `isActive(path)`: the page is `path` itself or lies below it. */
  predicate IsActive(pathname: string, path: string)
  {
    pathname == path || StartsWith(pathname, path + "/")
  }

  /** The boundary is a slash: a page that only shares a prefix is not below. */
  lemma SlashBoundary(pathname: string, path: string)
    requires IsActive(pathname, path) && pathname != path
    ensures |pathname| > |path| && pathname[..|path|] == path && pathname[|path|] == '/'
  {
    assert (path + "/")[..|path|] == path;
    assert pathname[..|path|] == pathname[..|path| + 1][..|path|];
  }

  lemma PortfolioNotActiveOnLookalike()
    ensures !IsActive("/portfolioX", "/portfolio")
  {
    assert "/portfolioX"[10] == 'X';
  }

  /** The Dashboard item `isActive("/")`: exactly "/", or a path that starts
      with "//". */
  lemma DashboardActive(pathname: string)
    ensures IsActive(pathname, "/") <==> pathname == "/" || StartsWith(pathname, "//")
  {
    assert "/" + "/" == "//";
  }

  /** The Logout button hands over to the provider's `logout`. */
  method HandleLogout(session: Auth.AuthSession, pathname: string)
    modifies session
    ensures session.State() == Auth.AfterLogout(old(session.State()), pathname)
  {
    session.Logout(pathname);
  }
}
