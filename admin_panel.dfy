// The admin shell (src/components/AdminPanel.tsx): the role title and colour,
// the navigation items each role may use, and the tab and mobile-menu state
// that decides which admin screen is shown.

module AdminPanel {
  import opened Types
  import opened Seqs

  /** `getRoleTitle(role)`. */
  function RoleTitle(role: string): (title: string)
    ensures role == "super_admin" ==> title == "Super Administrator"
    ensures role == "municipal_admin" ==> title == "Municipal Administrator"
    ensures role == "operator_admin" ==> title == "Fleet Operator"
    ensures role != "super_admin" && role != "municipal_admin" && role != "operator_admin" ==> title == "Administrator"
  {
    if role == "super_admin" then "Super Administrator"
    else if role == "municipal_admin" then "Municipal Administrator"
    else if role == "operator_admin" then "Fleet Operator"
    else "Administrator"
  }

  /** The three admin roles get three different titles, none of them the fallback, which the commuter role gets. */
  lemma RoleTitlesDistinct(r1: Role, r2: Role)
    ensures RoleTitle(RoleName(r1)) == "Administrator" <==> r1 == Commuter
    ensures r1 != r2 ==> RoleTitle(RoleName(r1)) != RoleTitle(RoleName(r2))
  {
  }

  /** `getRoleColor(role)`. */
  function RoleColor(role: string): (c: Color)
    ensures role == "super_admin" ==> c == Red
    ensures role == "municipal_admin" ==> c == Green
    ensures role == "operator_admin" ==> c == Purple
    ensures role != "super_admin" && role != "municipal_admin" && role != "operator_admin" ==> c == Gray
  {
    if role == "super_admin" then Red
    else if role == "municipal_admin" then Green
    else if role == "operator_admin" then Purple
    else Gray
  }

  /** The three admin roles get three different colours, none of them the fallback, which the commuter role gets. */
  lemma RoleColorsDistinct(r1: Role, r2: Role)
    ensures RoleColor(RoleName(r1)) == Gray <==> r1 == Commuter
    ensures r1 != r2 ==> RoleColor(RoleName(r1)) != RoleColor(RoleName(r2))
  {
  }

  datatype AdminTab = DashboardTab | FleetTab | RoutesTab | AnalyticsTab | GrievancesTab

  datatype NavItem = NavItem(id: AdminTab, caption: string, available: bool)

  /** `navigationItems`: the five tabs in order; only "Routes & Stops" depends on the role. */
  function NavigationItems(role: Role): (items: seq<NavItem>)
    ensures |items| == 5
    ensures forall i :: 0 <= i < 5 ==> (items[i].available <==> items[i].id != RoutesTab || role != OperatorAdmin)
    ensures TabsInPlace(items)
  {
    [NavItem(DashboardTab, "Dashboard", true),
     NavItem(FleetTab, "Fleet Management", true),
     NavItem(RoutesTab, "Routes & Stops", role != OperatorAdmin),
     NavItem(AnalyticsTab, "Analytics", true),
     NavItem(GrievancesTab, "Grievances", true)]
  }

  /** `availableItems`. */
  function AvailableItems(role: Role): (items: seq<NavItem>)
    ensures forall i :: 0 <= i < |items| ==> items[i].available
  {
    Filter(NavigationItems(role), (item: NavItem) => item.available)
  }

  /** Some item of `items` opens `tab`. */
  ghost predicate Offers(items: seq<NavItem>, tab: AdminTab) {
    exists i :: 0 <= i < |items| && items[i].id == tab
  }

  /** Every role but the fleet operator keeps all five items; the operator loses exactly "Routes & Stops". */
  lemma AvailableItemsOf(role: Role)
    ensures role != OperatorAdmin ==> AvailableItems(role) == NavigationItems(role)
    ensures role == OperatorAdmin ==> AvailableItems(role) == NavigationItems(role)[..2] + NavigationItems(role)[3..]
  {
    var items := NavigationItems(role);
    var p := (item: NavItem) => item.available;
    if role != OperatorAdmin {
      FilterAll(items, p);
    } else {
      var front, back := items[..2], items[3..];
      assert items == front + [items[2]] + back;
      FilterAll(front, p);
      FilterAll(back, p);
      FilterAppend(front, [items[2]], p);
      FilterAppend(front + [items[2]], back, p);
    }
  }

  /** The rule the items encode: every tab but "Routes & Stops" is open to all, that one to all but the fleet operator. */
  predicate TabAvailable(role: Role, tab: AdminTab) {
    tab != RoutesTab || role != OperatorAdmin
  }

  /** The rule and the filtered list agree on every tab. */
  lemma TabAvailableIff(role: Role, tab: AdminTab)
    ensures TabAvailable(role, tab) <==> Offers(AvailableItems(role), tab)
  {
    AvailableItemsOf(role);
    if role != OperatorAdmin {
      OffersEveryTab(NavigationItems(role), tab);
    } else {
      OffersAllButThird(NavigationItems(role), tab);
    }
  }

  /** The position of each tab in `navigationItems`. */
  function TabIndex(tab: AdminTab): (k: nat)
    ensures k < 5
  {
    match tab
    case DashboardTab => 0
    case FleetTab => 1
    case RoutesTab => 2
    case AnalyticsTab => 3
    case GrievancesTab => 4
  }

  /** Each of the five positions holds the tab `TabIndex` puts there. */
  predicate TabsInPlace(nav: seq<NavItem>)
    requires |nav| == 5
  {
    (forall tab :: nav[TabIndex(tab)].id == tab) &&
    (forall i :: 0 <= i < 5 ==> TabIndex(nav[i].id) == i)
  }

  /** A list with each tab at its own position offers every tab. */
  lemma OffersEveryTab(nav: seq<NavItem>, tab: AdminTab)
    requires |nav| == 5 && TabsInPlace(nav)
    ensures Offers(nav, tab)
  {
    assert nav[TabIndex(tab)].id == tab;
  }

  /** Dropping the third item of such a list loses exactly "Routes & Stops". */
  lemma OffersAllButThird(nav: seq<NavItem>, tab: AdminTab)
    requires |nav| == 5 && TabsInPlace(nav)
    ensures Offers(nav[..2] + nav[3..], tab) <==> tab != RoutesTab
  {
    var items := nav[..2] + nav[3..];
    assert forall i :: 0 <= i < |items| ==> items[i] == if i < 2 then nav[i] else nav[i + 1];
    if tab != RoutesTab {
      var k := TabIndex(tab);
      assert items[if k < 2 then k else k - 1].id == tab;
    }
  }

  /** Every button of `availableItems` opens a tab the role may see. */
  lemma AvailableItemOpens(role: Role, index: int)
    requires 0 <= index < |AvailableItems(role)|
    ensures TabAvailable(role, AvailableItems(role)[index].id)
  {
    var items := AvailableItems(role);
    TabAvailableIff(role, items[index].id);
    assert Offers(items, items[index].id);
  }

  /** "Routes & Stops" can be reached exactly by the roles other than the fleet operator; four or five items remain, in order. */
  lemma RoutesAvailableIff(role: Role)
    ensures Offers(AvailableItems(role), RoutesTab) <==> role != OperatorAdmin
    ensures |AvailableItems(role)| == if role == OperatorAdmin then 4 else 5
    ensures IsSubsequence(AvailableItems(role), NavigationItems(role))
  {
    TabAvailableIff(role, RoutesTab);
    AvailableItemsOf(role);
    FilterIsSubsequence(NavigationItems(role), (item: NavItem) => item.available);
  }

  /** The screen the main area shows for a tab. */
  datatype AdminScreen = DashboardScreen | FleetScreen | RouteScreen | AnalyticsScreen | GrievanceScreen

  function ScreenFor(tab: AdminTab): AdminScreen {
    match tab
    case DashboardTab => DashboardScreen
    case FleetTab => FleetScreen
    case RoutesTab => RouteScreen
    case AnalyticsTab => AnalyticsScreen
    case GrievancesTab => GrievanceScreen
  }

  /** The panel's state; tabs are chosen only through the buttons of `availableItems`. */
  class AdminPanelState {
    const user: User
    var activeTab: AdminTab
    var isMenuOpen: bool

    ghost predicate Valid()
      reads this
    {
      TabAvailable(user.role, activeTab)
    }

    constructor(user: User)
      ensures this.user == user && activeTab == DashboardTab && !isMenuOpen
      ensures Valid()
    {
      this.user := user;
      activeTab, isMenuOpen := DashboardTab, false;
    }

    method OpenMenu()
      modifies this`isMenuOpen
      ensures isMenuOpen
    {
      isMenuOpen := true;
    }

    method CloseMenu()
      modifies this`isMenuOpen
      ensures !isMenuOpen
    {
      isMenuOpen := false;
    }

    /** A sidebar button, the `index`-th available item. */
    method ChooseTab(index: int)
      requires 0 <= index < |AvailableItems(user.role)|
      modifies this`activeTab
      ensures activeTab == AvailableItems(user.role)[index].id && Valid()
    {
      AvailableItemOpens(user.role, index);
      activeTab := AvailableItems(user.role)[index].id;
    }

    /** A mobile-menu button: the tab is set, then the menu closes. */
    method ChooseTabFromMenu(index: int)
      requires 0 <= index < |AvailableItems(user.role)|
      modifies this`activeTab, this`isMenuOpen
      ensures activeTab == AvailableItems(user.role)[index].id && !isMenuOpen && Valid()
    {
      AvailableItemOpens(user.role, index);
      activeTab := AvailableItems(user.role)[index].id;
      isMenuOpen := false;
    }

    /** The screen shown; a fleet operator never gets the route screen. */
    function Shown(): (s: AdminScreen)
      requires Valid()
      reads this
      ensures s == ScreenFor(activeTab)
      ensures user.role == OperatorAdmin ==> s != RouteScreen
    {
      ScreenFor(activeTab)
    }
  }
}
