/** The layout around every admin page: the guard effect that sends the
    browser to the admin login, the render decision, and the sidebar's
    active link and the page title chosen from the path. */
module AdminLayout {
  import opened JsValues
  import opened Session
  import Text
  import AdminUsers

  const LOGIN_PATH: string := "/admin/login"

  // ----------------------------------------------------------- guard

  /** The guard effect: where it sends the browser, if anywhere. The login
      page is never guarded; a signed-out visitor and a session without the
      admin role are both sent to the login page. */
  function Redirect(status: Status, session: Option<SessionUser>, pathname: string): (r: Option<string>)
    ensures r.Some? ==> r.value == LOGIN_PATH
    ensures r.Some? ==> status != Loading && pathname != LOGIN_PATH
  {
    if status == Loading then None
    else if pathname == LOGIN_PATH then None
    else if status == Unauthenticated then Some(LOGIN_PATH)
    else if session.Some? && session.value.role != Some("admin") then Some(LOGIN_PATH)
    else None
  }

  /** What the layout renders: nothing, the page alone (the login page), or
      the page inside the admin shell with the signed-in name and the title. */
  datatype View = Nothing | Bare | Shell(adminName: string, title: string)

  /** Whether the page under the layout is mounted. */
  predicate ChildrenMounted(view: View) {
    !view.Nothing?
  }

  /** The render decision as written: it looks at the status and whether a
      session exists, not at the role. */
  function LayoutView(status: Status, session: Option<SessionUser>, pathname: string): (v: View)
    ensures pathname == LOGIN_PATH <==> v.Bare?
    ensures v.Shell? ==> status != Loading && session.Some?
    ensures v.Shell? ==> v.title == PageTitle(pathname)
  {
    if pathname == LOGIN_PATH then Bare
    else if status == Loading || session.None? then Nothing
    else Shell(StringOr(session.value.name, "Admin"), PageTitle(pathname))
  }

  /** The render decision the guard evidently intends: the shell, and the page
      in it, only for an admin session. */
  function GuardedLayoutView(status: Status, session: Option<SessionUser>, pathname: string): (v: View)
    ensures pathname == LOGIN_PATH <==> v.Bare?
    ensures v.Shell? ==> status == Authenticated && IsAdminSession(session)
  {
    if pathname == LOGIN_PATH then Bare
    else if status != Authenticated || !IsAdminSession(session) then Nothing
    else Shell(StringOr(session.value.name, "Admin"), PageTitle(pathname))
  }

  /** The guard's decisions: nothing while loading, never on the login page,
      the login page for visitors, and for a session exactly when it lacks
      the admin role. */
  lemma GuardDecisions(status: Status, session: Option<SessionUser>, pathname: string)
    ensures status == Loading ==> Redirect(status, session, pathname).None?
    ensures status == Loading && pathname != LOGIN_PATH ==> LayoutView(status, session, pathname) == Nothing
    ensures pathname == LOGIN_PATH ==>
      Redirect(status, session, pathname).None? && LayoutView(status, session, pathname) == Bare
    ensures status == Unauthenticated && pathname != LOGIN_PATH ==>
      Redirect(status, session, pathname) == Some(LOGIN_PATH)
    ensures status == Authenticated && session.Some? && pathname != LOGIN_PATH ==>
      (Redirect(status, session, pathname).None? <==> IsAdminSession(session))
  {
  }

  /** As written, a signed-in user without the admin role who opens the user
      table gets the shell and the page mounted while the redirect is still
      pending, and that page's fetch effect runs for their session. */
  lemma NonAdminGetsShell(user: SessionUser)
    requires user.role != Some("admin")
    ensures Redirect(Authenticated, Some(user), "/admin/users") == Some(LOGIN_PATH)
    ensures LayoutView(Authenticated, Some(user), "/admin/users").Shell?
    ensures ChildrenMounted(LayoutView(Authenticated, Some(user), "/admin/users"))
    ensures AdminUsers.ShouldFetch(Some(user))
  {
  }

  /** With the role in the render decision, the shell never shows while a
      redirect is pending, and for admins nothing else changes. */
  lemma GuardedShellOnlyForAdmins(status: Status, session: Option<SessionUser>, pathname: string)
    ensures GuardedLayoutView(status, session, pathname).Shell? ==> Redirect(status, session, pathname).None?
    ensures status == Authenticated && IsAdminSession(session) ==> GuardedLayoutView(status, session, pathname) == LayoutView(status, session, pathname)
    ensures Redirect(status, session, pathname).Some? ==> !ChildrenMounted(GuardedLayoutView(status, session, pathname))
  {
  }

  /** Whether an admin page other than the login page mounts and loads the
      user table, under the corrected render decision. */
  predicate UserTableLoads(status: Status, session: Option<SessionUser>, pathname: string) {
    pathname != LOGIN_PATH && ChildrenMounted(GuardedLayoutView(status, session, pathname)) &&
    AdminUsers.ShouldFetch(session)
  }

  /** Under the corrected decision only an admin session loads the table. */
  lemma OnlyAdminsLoadUserTable(status: Status, session: Option<SessionUser>, pathname: string)
    ensures UserTableLoads(status, session, pathname) <==>
      pathname != LOGIN_PATH && status == Authenticated && IsAdminSession(session)
  {
  }

  // ------------------------------------------------------- navigation

  datatype NavItem = Dashboard | Users | Posts | Reports | Settings {
    function Href(): string {
      match this
      case Dashboard => "/admin"
      case Users => "/admin/users"
      case Posts => "/admin/posts"
      case Reports => "/admin/reports"
      case Settings => "/admin/settings"
    }

    /** The page title shown for the section; settings has none. */
    function Title(): string {
      match this
      case Dashboard => "대시보드 현황"
      case Users => "회원 관리"
      case Posts => "게시글 관리"
      case Reports => "신고 접수"
      case Settings => ""
    }
  }

  /** The dashboard link is active on its own path only, the others on every
      path they prefix. */
  predicate IsActive(item: NavItem, pathname: string)
    ensures IsActive(item, pathname) ==> Text.StartsWith(pathname, item.Href())
  {
    if item == Dashboard then pathname == item.Href() else Text.StartsWith(pathname, item.Href())
  }

  /** The page title: each of the four conditions adds its text when it
      holds, in the order the header lists them. */
  function PageTitle(pathname: string): (t: string)
    ensures t != "" ==> Text.StartsWith(pathname, "/admin")
  {
    (if pathname == "/admin" then "대시보드 현황" else "") +
    (if Text.StartsWith(pathname, "/admin/users") then "회원 관리" else "") +
    (if Text.StartsWith(pathname, "/admin/posts") then "게시글 관리" else "") +
    (if Text.StartsWith(pathname, "/admin/reports") then "신고 접수" else "")
  }

  /** No path makes two links active at once. */
  lemma AtMostOneActive(pathname: string, a: NavItem, b: NavItem)
    requires IsActive(a, pathname) && IsActive(b, pathname)
    ensures a == b
  {
    if a != Dashboard && b != Dashboard {
      PrefixesAgree(pathname, a.Href(), b.Href(), 7);
    }
  }

  /** Two prefixes of one path agree wherever both reach. */
  lemma PrefixesAgree(pathname: string, x: string, y: string, j: nat)
    requires Text.StartsWith(pathname, x) && Text.StartsWith(pathname, y)
    requires j < |x| && j < |y|
    ensures x[j] == y[j]
  {
    assert x[j] == pathname[..|x|][j];
    assert y[j] == pathname[..|y|][j];
  }

  /** The title is the active section's, and empty where no link is active. */
  lemma TitleOfActive(pathname: string, item: NavItem)
    ensures IsActive(item, pathname) ==> PageTitle(pathname) == item.Title()
    ensures (forall n: NavItem :: !IsActive(n, pathname)) ==> PageTitle(pathname) == ""
  {
    if IsActive(item, pathname) {
      forall n: NavItem | n != item ensures !IsActive(n, pathname) {
        if IsActive(n, pathname) {
          AtMostOneActive(pathname, item, n);
        }
      }
      assert !IsActive(Users, pathname) || item == Users;
      assert !IsActive(Posts, pathname) || item == Posts;
      assert !IsActive(Reports, pathname) || item == Reports;
      assert !IsActive(Dashboard, pathname) || item == Dashboard;
    }
    if forall n: NavItem :: !IsActive(n, pathname) {
      assert !IsActive(Dashboard, pathname) && !IsActive(Users, pathname);
      assert !IsActive(Posts, pathname) && !IsActive(Reports, pathname);
    }
  }

  /** A section's link stays active on every path below it, while the
      dashboard link is active on "/admin" alone. */
  lemma ActiveBelowSection(item: NavItem, rest: string)
    requires item != Dashboard
    ensures IsActive(item, item.Href() + rest)
    ensures IsActive(Dashboard, "/admin")
    ensures !IsActive(Dashboard, item.Href() + rest)
  {
    assert (item.Href() + rest)[..|item.Href()|] == item.Href();
  }
}
