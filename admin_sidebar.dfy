/** The navigation of frontend/components/admin/admin-sidebar.tsx. Its
    `isActive` is written out again there, identical to the dashboard
    sidebar's `Sidebar.IsActive`. */
module AdminSidebar {
  import opened Common
  import opened Sidebar
  import Auth

  /** The Dashboard item: `isActive("/admin") && pathname === "/admin"`. */
  function DashboardActive(pathname: string): (b: bool)
    ensures b <==> pathname == "/admin"
  {
    IsActive(pathname, "/admin") && pathname == "/admin"
  }

  /** User Management is active on "/admin/users" and every page below it. */
  lemma UsersActiveBelow(rest: string)
    ensures IsActive("/admin/users", "/admin/users")
    ensures IsActive("/admin/users/" + rest, "/admin/users")
  {
    assert ("/admin/users/" + rest)[..13] == "/admin/users/";
  }

  method HandleLogout(session: Auth.AuthSession, pathname: string)
    modifies session
    ensures session.State() == Auth.AfterLogout(old(session.State()), pathname)
  {
    session.Logout(pathname);
  }
}
