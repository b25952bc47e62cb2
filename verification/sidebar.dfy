/** components/layout/sidebar.tsx: which navigation links a user sees, which one is
    highlighted, and the user badge at the bottom. */
module Sidebar {
  import opened Types
  import opened Text

  /** A link and the roles it is shown to (the source lists the roles by name). */
  datatype NavItem = NavItem(name: string, href: string, roles: set<Role>)

  const Everyone: set<Role> := {Admin, TestLead, Tester, ReadOnly}

  /** `navigation`. */
  const Navigation: seq<NavItem> := [
    NavItem("Dashboard", "/dashboard", Everyone),
    NavItem("Projects", "/projects", Everyone),
    NavItem("Test Cases", "/test-cases", Everyone),
    NavItem("Test Execution", "/executions", {Admin, TestLead, Tester}),
    NavItem("Analytics", "/analytics", Everyone),
    NavItem("Users", "/users", {Admin})
  ]

  /** The items whose roles include role, in their original order. */
  function ForRole(items: seq<NavItem>, role: Role): (r: seq<NavItem>)
    ensures |r| <= |items|
  {
    if items == [] then []
    else (if role in items[0].roles then [items[0]] else []) + ForRole(items[1..], role)
  }

  /** An item is shown iff the user's role is among its roles. */
  lemma {:induction false} ForRoleMembers(items: seq<NavItem>, role: Role)
    ensures forall item :: item in ForRole(items, role) <==> item in items && role in item.roles
  {
    if items != [] {
      ForRoleMembers(items[1..], role);
      assert items == [items[0]] + items[1..];
    }
  }

  /** The rendered list: nothing at all without a user (`if (!user) return null`). */
  function VisibleNavigation(user: Option<User>): (r: Option<seq<NavItem>>)
    ensures user.None? <==> r.None?
    ensures user.Some? ==> r.value == ForRole(Navigation, user.value.role)
  {
    match user
    case None => None
    case Some(u) => Some(ForRole(Navigation, u.role))
  }

  /** What each role is shown, from the last link backwards. */
  lemma {:induction false} ForRoleSuffixes(role: Role)
    ensures ForRole(Navigation[6..], role) == []
    ensures ForRole(Navigation[5..], role) == if role == Admin then [Navigation[5]] else []
    ensures ForRole(Navigation[4..], role) == [Navigation[4]] + ForRole(Navigation[5..], role)
    ensures ForRole(Navigation[3..], role) == (if role != ReadOnly then [Navigation[3]] else []) + ForRole(Navigation[4..], role)
    ensures ForRole(Navigation[..], role) == Navigation[..3] + ForRole(Navigation[3..], role)
  {
    var n := Navigation;
    assert n[5..][1..] == n[6..] && n[4..][1..] == n[5..] && n[3..][1..] == n[4..];
    assert ForRole(n[2..], role) == [n[2]] + ForRole(n[3..], role) by { assert n[2..][1..] == n[3..]; }
    assert ForRole(n[1..], role) == [n[1]] + ForRole(n[2..], role) by { assert n[1..][1..] == n[2..]; }
    assert n[..3] == [n[0], n[1], n[2]];
  }

  /** Admins see all six links, test leads and testers all but Users, read-only users
      all but Test Execution and Users. */
  lemma LinksPerRole()
    ensures ForRole(Navigation, Admin) == Navigation
    ensures ForRole(Navigation, TestLead) == Navigation[..5]
    ensures ForRole(Navigation, Tester) == Navigation[..5]
    ensures ForRole(Navigation, ReadOnly) == Navigation[..3] + [Navigation[4]]
  {
    ForRoleSuffixes(Admin);
    ForRoleSuffixes(TestLead);
    ForRoleSuffixes(Tester);
    ForRoleSuffixes(ReadOnly);
    assert Navigation[..] == Navigation;
    assert Navigation[..5] == Navigation[..3] + [Navigation[3], Navigation[4]];
    assert Navigation == Navigation[..3] + [Navigation[3], Navigation[4], Navigation[5]];
  }

  /** `pathname === href || pathname.startsWith(href + "/")`. */
  predicate IsActive(pathname: string, href: string)
  {
    pathname == href || href + "/" <= pathname
  }

  /** A link is active only on its own path or below it as a path segment, never on a
      sibling that merely shares its spelling. */
  lemma ActiveMeansSegment(pathname: string, href: string)
    ensures IsActive(pathname, href) ==> href <= pathname
    ensures IsActive(pathname, href) && pathname != href ==> |pathname| > |href| && pathname[|href|] == '/'
    ensures !IsActive("/projects-x", "/projects") && IsActive("/projects/7", "/projects")
  {
    assert "/projects-x"[9] == '-';
    assert ("/projects" + "/")[9] == '/';
    assert "/projects/7"[..10] == "/projects" + "/";
    if IsActive(pathname, href) && pathname != href {
      assert pathname[|href|] == (href + "/")[|href|];
    }
  }

  /** `s.replace("-", " ")`: a string pattern replaces the first occurrence only. */
  function ReplaceFirst(s: string, from: char, to: char): (r: string)
    ensures |r| == |s|
    ensures from !in s ==> r == s
    ensures from in s ==> r == s[..IndexOf(s, from)] + [to] + s[IndexOf(s, from) + 1..]
  {
    if from in s then s[..IndexOf(s, from)] + [to] + s[IndexOf(s, from) + 1..] else s
  }

  /** The role caption under the user's name. */
  function RoleLabel(role: Role): string
  {
    ReplaceFirst(RoleName(role), '-', ' ')
  }

  /** The captions: the dash of the two-word roles becomes a space. */
  lemma RoleLabels()
    ensures RoleLabel(Admin) == "admin" && RoleLabel(Tester) == "tester"
    ensures RoleLabel(TestLead) == "test lead" && RoleLabel(ReadOnly) == "read only"
  {
    var tl, ro := RoleName(TestLead), RoleName(ReadOnly);
    assert tl[4] == '-' && '-' !in tl[..4];
    assert ro[4] == '-' && '-' !in ro[..4];
    assert '-' !in RoleName(Admin) && '-' !in RoleName(Tester);
  }

  /** Only the first dash becomes a space: one dash fewer, one space more, same length. */
  lemma ReplaceFirstCounts(s: string, from: char, to: char)
    requires from in s && from != to
    ensures multiset(ReplaceFirst(s, from, to))[from] == multiset(s)[from] - 1
    ensures multiset(ReplaceFirst(s, from, to))[to] == multiset(s)[to] + 1
  {
    var k := IndexOf(s, from);
    assert s == s[..k] + [from] + s[k + 1..];
    assert multiset(s) == multiset(s[..k]) + multiset([from]) + multiset(s[k + 1..]);
  }

  /** `full_name.charAt(0).toUpperCase()` (ASCII letters): empty for an empty name. */
  function AvatarInitial(fullName: string): (r: string)
    ensures fullName == "" <==> r == ""
    ensures fullName != "" ==> r == [UpperChar(fullName[0])]
  {
    if fullName == "" then "" else [UpperChar(fullName[0])]
  }
}
