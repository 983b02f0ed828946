/** The guard around every dashboard page, decided by the session's `loading` and `user`. */
module DashboardLayout {
  import opened Wrappers
  import opened Types
  import Auth
  import Sidebar

  /** The redirect effect: to the login page once the session is resolved and empty. */
  function Redirect(loading: bool, user: Option<User>): (target: Option<string>)
    ensures target.Some? <==> !loading && user.None?
    ensures target.Some? ==> target.value == Auth.LoginPath
  {
    if !loading && user.None? then Some(Auth.LoginPath) else None
  }

  datatype Shown = Placeholder | Content

  /** The skeleton placeholder while loading or signed out; the sidebar and page otherwise. */
  function Render(loading: bool, user: Option<User>): (s: Shown)
    ensures s == Placeholder <==> loading || user.None?
    ensures s == Content <==> !loading && user.Some?
  {
    if loading || user.None? then Placeholder else Content
  }

  /**
   * A redirect only ever happens over the placeholder, never while loading,
   * and the page's content is only shown to a resolved user.
   */
  lemma GuardIsConsistent(loading: bool, user: Option<User>)
    ensures Redirect(loading, user).Some? ==> Render(loading, user) == Placeholder
    ensures loading ==> Redirect(loading, user) == None
    ensures Render(loading, user) == Content ==> Redirect(loading, user) == None
  {
  }

  /**
   * The guard checks only that someone is signed in: a guest who opens the
   * dashboard gets its content, with an empty menu.
   */
  lemma GuestPassesGuard(u: User)
    requires u.role == Types.Guest
    ensures Render(false, Some(u)) == Content
    ensures Sidebar.VisibleItems(Some(u)) == []
  {
    Sidebar.MenuByRole(u);
  }
}
