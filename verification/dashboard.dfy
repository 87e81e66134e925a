/** app/dashboard/page.tsx: the role-filtered navigation, the role badge,
    emoji and label, the redirect without a user, and logout. */
module Dashboard {
  import opened Wrappers
  import opened Entities
  import Text
  import Listing
  import Team
  import Auth

  datatype NavItem = NavItem(name: string, href: string, icon: string, description: string, roles: seq<string>)

  /** `navigationItems`, in declaration order. */
  const NAVIGATION_ITEMS: seq<NavItem> := [
    NavItem("Work Orders", "/work-orders", "📋", "View and manage work orders", ["admin", "manager", "field_worker"]),
    NavItem("Team Members", "/team", "👥", "Manage team members and assignments", ["admin", "manager"]),
    NavItem("Live Tracking", "/tracking", "📍", "Real-time location tracking", ["admin", "manager"]),
    NavItem("Messages", "/messages", "💬", "Team communication", ["admin", "manager", "field_worker"]),
    NavItem("Analytics", "/analytics", "📊", "Performance metrics and reports", ["admin", "manager"]),
    NavItem("My Performance", "/performance", "⭐", "View your ratings and feedback", ["field_worker"])
  ]

  /** `items.filter(item => item.roles.includes(role))`. */
  function ItemsFor(items: seq<NavItem>, role: string): (r: seq<NavItem>)
    ensures |r| <= |items|
    ensures forall k :: 0 <= k < |r| ==> role in r[k].roles
  {
    if items == [] then []
    else if role in items[0].roles then [items[0]] + ItemsFor(items[1..], role)
    else ItemsFor(items[1..], role)
  }

  /** The filter keeps the declaration order, and an item survives exactly
      when its role list names the role. */
  lemma {:induction false} ItemsForExact(items: seq<NavItem>, role: string)
    ensures Listing.Subsequence(ItemsFor(items, role), items)
    ensures forall it :: it in ItemsFor(items, role) <==> it in items && role in it.roles
  {
    if items != [] {
      ItemsForExact(items[1..], role);
      var rest := ItemsFor(items[1..], role);
      if role in items[0].roles {
        assert ([items[0]] + rest)[1..] == rest;
      } else {
        Listing.SubsequenceSkip(rest, items);
      }
      assert items == [items[0]] + items[1..];
    }
  }

  /** One step of the filter, for unfolding it over the constant list. */
  lemma ItemsForStep(items: seq<NavItem>, role: string)
    requires items != []
    ensures ItemsFor(items, role) == (if role in items[0].roles then [items[0]] else []) + ItemsFor(items[1..], role)
  {
  }

  /** `visibleNavItems`. */
  function VisibleNavItems(role: string): seq<NavItem>
  {
    ItemsFor(NAVIGATION_ITEMS, role)
  }

  function Names(items: seq<NavItem>): (r: seq<string>)
    ensures |r| == |items|
    ensures forall k :: 0 <= k < |items| ==> r[k] == items[k].name
  {
    seq(|items|, k requires 0 <= k < |items| => items[k].name)
  }

  /** A field worker finds Work Orders, Messages and My Performance. */
  lemma FieldWorkerNavigation()
    ensures VisibleNavItems("field_worker") == [NAVIGATION_ITEMS[0], NAVIGATION_ITEMS[3], NAVIGATION_ITEMS[5]]
    ensures Names(VisibleNavItems("field_worker")) == ["Work Orders", "Messages", "My Performance"]
  {
    var n := NAVIGATION_ITEMS;
    var w := "field_worker";
    ItemsForStep(n[5..], w);
    assert n[5..][1..] == [];
    ItemsForStep(n[4..], w);
    assert n[4..][1..] == n[5..];
    ItemsForStep(n[3..], w);
    assert n[3..][1..] == n[4..];
    ItemsForStep(n[2..], w);
    assert n[2..][1..] == n[3..];
    ItemsForStep(n[1..], w);
    assert n[1..][1..] == n[2..];
    ItemsForStep(n, w);
  }

  /** Admins and managers find the same five entries. */
  lemma StaffNavigation(role: string)
    requires role == "admin" || role == "manager"
    ensures VisibleNavItems(role) == NAVIGATION_ITEMS[..5]
    ensures Names(VisibleNavItems(role)) == ["Work Orders", "Team Members", "Live Tracking", "Messages", "Analytics"]
  {
    var n := NAVIGATION_ITEMS;
    ItemsForStep(n[5..], role);
    assert n[5..][1..] == [];
    ItemsForStep(n[4..], role);
    assert n[4..][1..] == n[5..];
    ItemsForStep(n[3..], role);
    assert n[3..][1..] == n[4..];
    ItemsForStep(n[2..], role);
    assert n[2..][1..] == n[3..];
    ItemsForStep(n[1..], role);
    assert n[1..][1..] == n[2..];
    ItemsForStep(n, role);
  }

  /** A role outside the three gets no navigation at all. */
  lemma UnknownRoleNavigation(role: string)
    requires role !in Team.ROLE_VALUES
    ensures VisibleNavItems(role) == []
  {
    ItemsForExact(NAVIGATION_ITEMS, role);
  }

  /** The role emoji: a two-way ternary that gives the wrench to every role
      other than admin and manager. */
  function RoleEmoji(role: string): (e: string)
    ensures e == "🔧" <==> role != "admin" && role != "manager"
    ensures role == "admin" ==> e == "👨‍💼"
    ensures role == "manager" ==> e == "👔"
  {
    if role == "admin" then "👨‍💼" else if role == "manager" then "👔" else "🔧"
  }

  /** The dashboard emoji agrees with the team page's icon on the three
      roles and departs from it on every other one. */
  lemma EmojiVersusTeamIcon(role: string)
    ensures role in Team.ROLE_VALUES ==> RoleEmoji(role) == Team.RoleIcon(role)
    ensures role !in Team.ROLE_VALUES ==> RoleEmoji(role) == "🔧" && Team.RoleIcon(role) == "👤"
  {
  }

  /** The welcome card. */
  datatype Screen = Nothing | Home(name: string, badgeColor: string, roleLabel: string, emoji: string, nav: seq<NavItem>)

  /** The page body: nothing without a user, else the card and the
      navigation for the user's role. */
  function Render(user: Option<User>): (s: Screen)
    ensures s.Nothing? <==> user.None?
    ensures s.Home? ==>
      && s.badgeColor == Team.RoleBadgeColor(user.value.role)
      && s.roleLabel == Text.BadgeLabel(user.value.role)
      && s.emoji == RoleEmoji(user.value.role)
      && s.nav == VisibleNavItems(user.value.role)
  {
    if user.None? then Nothing
    else
      var role := user.value.role;
      Home(user.value.name, Team.RoleBadgeColor(role), Text.BadgeLabel(role), RoleEmoji(role), VisibleNavItems(role))
  }

  /** The mount effect: a missing user sends the browser to the login page. */
  function RedirectOnMount(user: Option<User>): (target: Option<string>)
    ensures target.Some? <==> user.None?
    ensures target.Some? ==> target.value == LOGIN_PATH && Render(user).Nothing?
  {
    if user.None? then Some(LOGIN_PATH) else None
  }

  /** `handleLogout`: the session is cleared, then the login page is the
      target. */
  method HandleLogout(auth: Auth.AuthProvider) returns (target: string)
    requires auth.Valid()
    modifies auth
    ensures auth.Valid()
    ensures auth.user == None && auth.token == None
    ensures Auth.TOKEN_KEY !in auth.storage && Auth.USER_KEY !in auth.storage
    ensures target == LOGIN_PATH
    ensures RedirectOnMount(auth.user) == Some(target)
  {
    auth.Logout();
    target := LOGIN_PATH;
  }
}
