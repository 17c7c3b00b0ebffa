/**
 * The side navigation (src/components/main-nav.tsx): a fixed table of links, each
 * shown to the roles it lists, and the rule that marks the current page's link.
 */
module Nav {
  import opened Wrappers
  import opened Lists
  import opened Auth

  datatype NavLink = NavLink(href: string, labelKey: string, roles: seq<Role>)

  /** A link as drawn: where it goes, its label, and whether it is the current page. */
  datatype Rendered = Rendered(href: string, labelKey: string, active: bool)

  const AllRoles: seq<Role> := [Admin, Designer, Reviewer, Manager]

  const NavLinks: seq<NavLink> := [
    NavLink("/dashboard", "dashboard", AllRoles),
    NavLink("/my-tasks", "myTasks", [Designer, Reviewer]),
    NavLink("/all-tasks", "allTasks", [Admin, Manager]),
    NavLink("/tasks/new", "newTask", [Admin, Designer]),
    NavLink("/accounts", "accounts", [Admin])
  ]

  const BottomLinks: seq<NavLink> := [
    NavLink("/profile", "profile", AllRoles)
  ]

  function ShownTo(role: Role): NavLink -> bool
  {
    (link: NavLink) => role in link.roles
  }

  function RenderAt(pathname: string): NavLink -> Rendered
  {
    (link: NavLink) => Rendered(link.href, link.labelKey, pathname == link.href)
  }

  /** `renderLink` over a list: the links the role may see, each marked active when it is the current page. */
  function RenderLinks(links: seq<NavLink>, role: Role, pathname: string): seq<Rendered>
  {
    Map(Filter(links, ShownTo(role)), RenderAt(pathname))
  }

  /**
   * The drawn navigation: the logo link first, then the role's links (the main ones
   * and then the bottom ones), and last the logout button.
   */
  datatype NavView = NavView(logoHref: string, links: seq<Rendered>, logoutButton: bool)

  /** The whole navigation: nothing without a user, otherwise the logo, the links and the logout button. */
  function RenderNav(user: Option<User>, pathname: string): Option<NavView>
  {
    if user.None? then None
    else Some(NavView(
      "/dashboard",
      RenderLinks(NavLinks, user.value.role, pathname) + RenderLinks(BottomLinks, user.value.role, pathname),
      true))
  }

  /** The hrefs of the links a role sees, in order. */
  function VisibleHrefs(role: Role): seq<string>
  {
    Map(Filter(NavLinks + BottomLinks, ShownTo(role)), (link: NavLink) => link.href)
  }

  /**
   * Every signed-in user gets the logo link to the dashboard and the logout button;
   * the hrefs of the table links drawn between them are exactly the role's visible hrefs.
   */
  lemma RenderNavHrefs(u: User, pathname: string)
    ensures RenderNav(Some(u), pathname).Some?
    ensures RenderNav(Some(u), pathname).value.logoHref == "/dashboard"
    ensures RenderNav(Some(u), pathname).value.logoutButton
    ensures Map(RenderNav(Some(u), pathname).value.links, (r: Rendered) => r.href) == VisibleHrefs(u.role)
  {
    var p := ShownTo(u.role);
    var href := (r: Rendered) => r.href;
    var main := RenderLinks(NavLinks, u.role, pathname);
    var bottom := RenderLinks(BottomLinks, u.role, pathname);
    FilterAppend(NavLinks, BottomLinks, p);
    MapAppend(main, bottom, href);
    MapAppend(Filter(NavLinks, p), Filter(BottomLinks, p), (link: NavLink) => link.href);
  }

  /** With no user the navigation is not drawn at all. */
  lemma NoUserNoNav(pathname: string)
    ensures RenderNav(None, pathname) == None
  {
  }

  /**
   * A link is drawn exactly when the user's role is among its roles, it is active
   * exactly when it is the current page, and the drawn links keep the table's order.
   */
  lemma RenderLinksSpec(links: seq<NavLink>, role: Role, pathname: string)
    ensures forall k :: 0 <= k < |RenderLinks(links, role, pathname)| ==>
      (RenderLinks(links, role, pathname)[k].active <==> RenderLinks(links, role, pathname)[k].href == pathname)
    ensures forall k :: 0 <= k < |links| && role in links[k].roles ==>
      RenderAt(pathname)(links[k]) in RenderLinks(links, role, pathname)
    ensures forall k :: 0 <= k < |Filter(links, ShownTo(role))| ==>
      Filter(links, ShownTo(role))[k] in links && role in Filter(links, ShownTo(role))[k].roles
    ensures IsSubsequence(Filter(links, ShownTo(role)), links)
  {
    FilterMembers(links, ShownTo(role));
    FilterIsSubsequence(links, ShownTo(role));
    var kept := Filter(links, ShownTo(role));
    forall k | 0 <= k < |links| && role in links[k].roles
      ensures RenderAt(pathname)(links[k]) in RenderLinks(links, role, pathname)
    {
      var j :| 0 <= j < |kept| && kept[j] == links[k];
      assert RenderLinks(links, role, pathname)[j] == RenderAt(pathname)(links[k]);
    }
  }

  /** Which of the six links a role sees, link by link. */
  lemma ShownLinks(role: Role)
    ensures var all := NavLinks + BottomLinks; var p := ShownTo(role);
      Filter(all, p)
      == Keep(p, all[0]) + (Keep(p, all[1]) + (Keep(p, all[2]) + (Keep(p, all[3]) + (Keep(p, all[4]) + Keep(p, all[5])))))
  {
    FilterOfSix(NavLinks + BottomLinks, ShownTo(role));
  }

  /** The role table, role by role: the exact pages each role is offered, in drawing order. */
  lemma VisibleHrefsAdmin()
    ensures VisibleHrefs(Admin) == ["/dashboard", "/all-tasks", "/tasks/new", "/accounts", "/profile"]
  {
    var all := NavLinks + BottomLinks;
    var p := ShownTo(Admin);
    ShownLinks(Admin);
    assert Keep(p, all[0]) == [all[0]];
    assert Keep(p, all[1]) == [];
    assert Keep(p, all[2]) == [all[2]];
    assert Keep(p, all[3]) == [all[3]];
    assert Keep(p, all[4]) == [all[4]];
    assert Keep(p, all[5]) == [all[5]];
    assert Filter(all, p) == [all[0], all[2], all[3], all[4], all[5]];
  }

  lemma VisibleHrefsDesigner()
    ensures VisibleHrefs(Designer) == ["/dashboard", "/my-tasks", "/tasks/new", "/profile"]
  {
    var all := NavLinks + BottomLinks;
    var p := ShownTo(Designer);
    ShownLinks(Designer);
    assert Keep(p, all[0]) == [all[0]];
    assert Keep(p, all[1]) == [all[1]];
    assert Keep(p, all[2]) == [];
    assert Keep(p, all[3]) == [all[3]];
    assert Keep(p, all[4]) == [];
    assert Keep(p, all[5]) == [all[5]];
    assert Filter(all, p) == [all[0], all[1], all[3], all[5]];
  }

  lemma VisibleHrefsReviewer()
    ensures VisibleHrefs(Reviewer) == ["/dashboard", "/my-tasks", "/profile"]
  {
    var all := NavLinks + BottomLinks;
    var p := ShownTo(Reviewer);
    ShownLinks(Reviewer);
    assert Keep(p, all[0]) == [all[0]];
    assert Keep(p, all[1]) == [all[1]];
    assert Keep(p, all[2]) == [];
    assert Keep(p, all[3]) == [];
    assert Keep(p, all[4]) == [];
    assert Keep(p, all[5]) == [all[5]];
    assert Filter(all, p) == [all[0], all[1], all[5]];
  }

  lemma VisibleHrefsManager()
    ensures VisibleHrefs(Manager) == ["/dashboard", "/all-tasks", "/profile"]
  {
    var all := NavLinks + BottomLinks;
    var p := ShownTo(Manager);
    ShownLinks(Manager);
    assert Keep(p, all[0]) == [all[0]];
    assert Keep(p, all[1]) == [];
    assert Keep(p, all[2]) == [all[2]];
    assert Keep(p, all[3]) == [];
    assert Keep(p, all[4]) == [];
    assert Keep(p, all[5]) == [all[5]];
    assert Filter(all, p) == [all[0], all[2], all[5]];
  }

}
