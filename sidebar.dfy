/**
 * The dashboard sidebar: a fixed menu, present only with a signed-in user,
 * filtered by the user's role; a home link and a logout button.
 */
module Sidebar {
  import opened Wrappers
  import opened Types
  import opened Seqs
  import Auth
  import LogsPage

  /** One menu entry. `title` is the entry's `label`; `label` is a reserved word in Dafny. */
  datatype MenuItem = MenuItem(href: string, title: string, roles: seq<Role>)

  const DashboardItem := MenuItem("/dashboard", "Dashboard", [Admin, Cashier])
  const BookingsItem := MenuItem("/dashboard/bookings", "Bookings", [Admin, Cashier])
  const RoomsItem := MenuItem("/dashboard/rooms", "Rooms", [Admin, Cashier])
  const LogsItem := MenuItem("/dashboard/logs", "Logs", [Admin])

  /** `menuItems`: the four entries when someone is signed in, none otherwise. */
  function MenuItems(user: Option<User>): (items: seq<MenuItem>)
    ensures user.None? <==> items == []
    ensures forall x :: x in items ==> Guest !in x.roles && Admin in x.roles
  {
    if user.Some? then [DashboardItem, BookingsItem, RoomsItem, LogsItem] else []
  }

  /** The filter's test: `user && item.roles.includes(user.role)`. */
  predicate Shown(item: MenuItem, user: Option<User>) {
    user.Some? && user.value.role in item.roles
  }

  /** `items.filter(item => Shown(item, user))`. */
  function Keep(items: seq<MenuItem>, user: Option<User>): (kept: seq<MenuItem>)
    ensures |kept| <= |items|
  {
    if items == [] then []
    else if Shown(items[0], user) then [items[0]] + Keep(items[1..], user)
    else Keep(items[1..], user)
  }

  /** The filter keeps exactly the shown entries, in their order. */
  lemma {:induction false} KeepSelects(items: seq<MenuItem>, user: Option<User>)
    ensures Subsequence(Keep(items, user), items)
    ensures forall x :: x in Keep(items, user) ==> x in items && Shown(x, user)
    ensures forall x :: x in items && Shown(x, user) ==> x in Keep(items, user)
  {
    if items != [] {
      assert items == [items[0]] + items[1..];
      var rest := Keep(items[1..], user);
      KeepSelects(items[1..], user);
      if Shown(items[0], user) {
        SubsequenceCons(items[0], rest, items[1..]);
      } else {
        SubsequenceSkip(rest, items);
      }
    }
  }

  /** The entries the sidebar lists for `user`. */
  function VisibleItems(user: Option<User>): (r: seq<MenuItem>)
    ensures Subsequence(r, MenuItems(user))
    ensures forall x :: x in r <==> x in MenuItems(user) && Shown(x, user)
  {
    KeepSelects(MenuItems(user), user);
    Keep(MenuItems(user), user)
  }

  lemma KeepCons(x: MenuItem, xs: seq<MenuItem>, user: Option<User>)
    ensures Keep([x] + xs, user) == if Shown(x, user) then [x] + Keep(xs, user) else Keep(xs, user)
  {
    assert ([x] + xs)[1..] == xs;
  }

  /** A four-entry list is filtered entry by entry. */
  lemma KeepFour(a: MenuItem, b: MenuItem, c: MenuItem, d: MenuItem, user: Option<User>)
    ensures Keep([a, b, c, d], user)
         == (if Shown(a, user) then [a] else []) + (if Shown(b, user) then [b] else [])
          + (if Shown(c, user) then [c] else []) + (if Shown(d, user) then [d] else [])
  {
    KeepCons(d, [], user);
    KeepCons(c, [d], user);
    KeepCons(b, [c, d], user);
    KeepCons(a, [b, c, d], user);
    assert [a, b, c, d] == [a] + ([b] + ([c] + ([d] + [])));
  }

  /** Who sees what: admins all four, cashiers all but Logs, guests and nobody nothing. */
  lemma MenuByRole(u: User)
    ensures u.role == Admin ==> VisibleItems(Some(u)) == [DashboardItem, BookingsItem, RoomsItem, LogsItem]
    ensures u.role == Cashier ==> VisibleItems(Some(u)) == [DashboardItem, BookingsItem, RoomsItem]
    ensures u.role == Guest ==> VisibleItems(Some(u)) == []
    ensures VisibleItems(None) == []
  {
    KeepFour(DashboardItem, BookingsItem, RoomsItem, LogsItem, Some(u));
  }

  /**
   * The roles `login` sends to the dashboard are exactly the roles that find
   * something in its menu.
   */
  lemma DashboardUsersHaveMenu(u: User)
    ensures Auth.HomeFor(u.role) == "/dashboard" <==> VisibleItems(Some(u)) != []
  {
    MenuByRole(u);
  }

  /** The Logs entry is listed exactly for the users the logs page lets in. */
  lemma LogsEntryMatchesLogsPage(user: Option<User>, loading: bool, logs: seq<LogEntry>)
    ensures LogsItem in VisibleItems(user) <==> LogsPage.Render(user, loading, logs) != LogsPage.AccessDenied
  {
    if user.Some? { MenuByRole(user.value); }
  }

  /** The home link: the dashboard with a user, the landing page without. */
  function HomeHref(user: Option<User>): (href: string)
    ensures href == "/dashboard" <==> user.Some?
    ensures href == "/" <==> user.None?
  {
    if user.Some? then "/dashboard" else "/"
  }

  /** The logout button is rendered only with a user. */
  predicate ShowsLogout(user: Option<User>): (shown: bool)
    ensures shown <==> HomeHref(user) == "/dashboard"
  {
    user.Some?
  }
}
