/**
 * The sidebar's navigation highlighting and its unread badge
 * (src/components/Sidebar.tsx).
 */
module Sidebar {
  import opened Common
  import opened Strings

  /** One navigation entry; only the notifications entry carries a badge (the unread count). */
  datatype NavItem = NavItem(name: string, href: string, icon: string, badge: Option<int>)

  /** The fixed navigation list, in display order, with the current unread count on the notifications entry. */
  function Navigation(unreadCount: int): (nav: seq<NavItem>)
    ensures |nav| == 8
  {
    [ NavItem("ダッシュボード", "/dashboard", "📊", None),
      NavItem("案件一覧", "/projects", "📋", None),
      NavItem("案件作成", "/projects/new", "➕", None),
      NavItem("チャット", "/chat", "💬", None),
      NavItem("提案管理", "/proposals", "📝", None),
      NavItem("通知", "/notifications", "🔔", Some(unreadCount)),
      NavItem("レビュー", "/reviews", "⭐", None),
      NavItem("プロフィール", "/profile", "👤", None) ]
  }

  /**
   * `isActive(href)` for the current `pathname`: an exact match wins; the
   * dashboard matches only exactly; the project list matches itself and its
   * child paths except those under `/projects/new`; every other entry matches
   * by raw string prefix.
   */
  predicate IsActive(pathname: string, href: string) {
    if pathname == href then true
    else if href == "/dashboard" then false
    else if href == "/projects" then
      pathname == "/projects" || (StartsWith(pathname, "/projects/") && !StartsWith(pathname, "/projects/new"))
    else StartsWith(pathname, href)
  }

  lemma ExactMatchIsActive(href: string)
    ensures IsActive(href, href)
  {
  }

  /** The dashboard is highlighted on its own path only. */
  lemma DashboardOnlyExact(pathname: string)
    ensures IsActive(pathname, "/dashboard") <==> pathname == "/dashboard"
  {
  }

  /**
   * The project list is highlighted on `/projects` and on `/projects/<rest>`,
   * except under `/projects/new` (which also excludes `/projects/new-with-ai`).
   */
  lemma ProjectsRule(pathname: string)
    ensures IsActive(pathname, "/projects") <==>
      pathname == "/projects" || (StartsWith(pathname, "/projects/") && !StartsWith(pathname, "/projects/new"))
  {
  }

  /** Every other entry is highlighted exactly when the path starts with its href. */
  lemma OtherEntriesByPrefix(pathname: string, href: string)
    requires href != "/dashboard" && href != "/projects"
    ensures IsActive(pathname, href) <==> StartsWith(pathname, href)
  {
  }

  /** A highlighted entry's href is always a prefix of the path. */
  lemma ActiveIsPrefix(pathname: string, href: string)
    ensures IsActive(pathname, href) ==> StartsWith(pathname, href)
  {
    if pathname != href && href == "/projects" && StartsWith(pathname, "/projects/") {
      StartsWithTrans(pathname, "/projects/", "/projects");
    }
  }

  /**
   * A highlighted entry whose href has at least five characters fixes the
   * second and fifth character of the path; these two characters tell all
   * hrefs of the list apart except `/projects` and `/projects/new`.
   */
  lemma ActiveFixesKey(pathname: string, href: string)
    requires |href| >= 5
    ensures IsActive(pathname, href) ==> |pathname| >= 5 && pathname[1] == href[1] && pathname[4] == href[4]
  {
    ActiveIsPrefix(pathname, href);
    if IsActive(pathname, href) {
      assert pathname[..|href|][1] == href[1] && pathname[..|href|][4] == href[4];
    }
  }

  /** `/projects` is never highlighted together with `/projects/new`. */
  lemma ProjectsExcludesNew(pathname: string)
    ensures !(IsActive(pathname, "/projects") && IsActive(pathname, "/projects/new"))
  {
  }

  /** Whatever the path, at most one navigation entry is highlighted. */
  lemma AtMostOneActive(pathname: string, unreadCount: int)
    ensures forall x, y | x in Navigation(unreadCount) && y in Navigation(unreadCount) ::
      IsActive(pathname, x.href) && IsActive(pathname, y.href) ==> x == y
  {
    var nav := Navigation(unreadCount);
    forall x, y | x in nav && y in nav
      ensures IsActive(pathname, x.href) && IsActive(pathname, y.href) ==> x == y
    {
      ActiveFixesKey(pathname, x.href);
      ActiveFixesKey(pathname, y.href);
      ProjectsExcludesNew(pathname);
    }
  }

  /** "At most one" cannot be strengthened to "exactly one": the root path highlights nothing. */
  lemma RootHighlightsNothing(unreadCount: int)
    ensures forall x | x in Navigation(unreadCount) :: !IsActive("/", x.href)
  {
    forall x | x in Navigation(unreadCount) ensures !IsActive("/", x.href) {
      ActiveFixesKey("/", x.href);
    }
  }

  /** What the collapsed sidebar shows over an icon. */
  datatype BadgeLabel = NinePlus | Number(n: int)

  /**
   * The badge over the icon: shown only for a defined, positive badge; it reads
   * '9+' above nine and the number itself otherwise.
   */
  function IconBadge(badge: Option<int>): (r: Option<BadgeLabel>)
    ensures r.Some? <==> badge.Some? && badge.value > 0
    ensures r == Some(NinePlus) <==> badge.Some? && badge.value > 9
    ensures r.Some? && r.value.Number? ==> r.value.n == badge.value && 1 <= r.value.n <= 9
  {
    match badge
    case Some(n) => if n > 0 then Some(if n > 9 then NinePlus else Number(n)) else None
    case None => None
  }

  /** The badge next to the name in the expanded sidebar: the raw number, under the same condition. */
  function LabelBadge(badge: Option<int>): (r: Option<int>)
    ensures r.Some? <==> badge.Some? && badge.value > 0
    ensures r.Some? ==> r.value == badge.value
  {
    match badge
    case Some(n) => if n > 0 then Some(n) else None
    case None => None
  }

  /** Both badges appear together, and only the icon badge is capped. */
  lemma BadgesAgree(badge: Option<int>)
    ensures IconBadge(badge).Some? <==> LabelBadge(badge).Some?
    ensures LabelBadge(badge).Some? && LabelBadge(badge).value <= 9 ==> IconBadge(badge) == Some(Number(LabelBadge(badge).value))
  {
  }
}
