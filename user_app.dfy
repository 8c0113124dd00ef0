// The commuter app (src/components/UserApp.tsx): the tabs and mobile menu,
// the bus selected on the live map, the active bus and route derived from
// it, and the info bar with its status badge.

module UserApp {
  import opened Types
  import opened Queries
  import opened Selection
  import LiveMap
  import Text

  /** `selectedBus ? mockBuses.find(b => b.id === selectedBus) : null`; the empty id is falsy like null. */
  function ActiveBus(buses: seq<Bus>, selectedBus: Option<string>): (r: Option<Bus>)
    ensures selectedBus.None? || selectedBus == Some("") ==> r.None?
    ensures selectedBus.Some? && selectedBus.value != "" ==> r == FindBus(buses, selectedBus.value)
    ensures r.Some? ==> selectedBus == Some(r.value.id) && r.value in buses
  {
    match selectedBus
    case None => None
    case Some(id) => if id == "" then None else FindBus(buses, id)
  }

  /** `activeBus ? mockRoutes.find(r => r.id === activeBus.routeId) : null`. */
  function ActiveRoute(routes: seq<Route>, activeBus: Option<Bus>): (r: Option<Route>)
    ensures r.Some? ==> activeBus.Some? && r.value.id == activeBus.value.routeId && r.value in routes
    ensures activeBus.Some? && r.None? ==> forall i :: 0 <= i < |routes| ==> routes[i].id != activeBus.value.routeId
  {
    match activeBus
    case None => None
    case Some(bus) => FindRoute(routes, bus.routeId)
  }

  /** `getStatusColor(status)`. */
  function StatusColor(status: string): (c: Color)
    ensures status == "running" ==> c == Green
    ensures status == "delayed" ==> c == Orange
    ensures status == "breakdown" ==> c == Red
    ensures status != "running" && status != "delayed" && status != "breakdown" ==> c == Gray
  {
    if status == "running" then Green
    else if status == "delayed" then Orange
    else if status == "breakdown" then Red
    else Gray
  }

  /** The app's text colours are the live map's marker colours. */
  lemma StatusColorAgreesWithLiveMap(status: string)
    ensures StatusColor(status) == LiveMap.BusStatusColor(status)
  {
  }

  /** The info-bar badge: running green, delayed orange, everything else red. */
  function InfoBarBadge(status: string): (c: Color)
    ensures status == "running" ==> c == Green
    ensures status == "delayed" ==> c == Orange
    ensures status != "running" && status != "delayed" ==> c == Red
  {
    if status == "running" then Green
    else if status == "delayed" then Orange
    else Red
  }

  /** The badge and the text colour agree except on the fallback: a scheduled bus gets a red badge. */
  lemma BadgeAgreesExceptFallback(status: string)
    ensures StatusColor(status) != Gray ==> InfoBarBadge(status) == StatusColor(status)
    ensures StatusColor(status) == Gray ==> InfoBarBadge(status) == Red
    ensures InfoBarBadge(BusStatusName(Scheduled)) == Red
  {
  }

  /** What the info bar above the tab content shows. */
  datatype InfoBar = InfoBar(
    busNumber: string,
    routeNumber: string,
    routeName: string,
    badge: Color,
    statusLabel: string,
    eta: int,
    speed: int,
    passengers: int,
    capacity: int)

  /** The bar is drawn only when both the active bus and its route exist. */
  function InfoBarOf(buses: seq<Bus>, routes: seq<Route>, selectedBus: Option<string>): (r: Option<InfoBar>)
    ensures r.Some? <==> ActiveBus(buses, selectedBus).Some? &&
                         ActiveRoute(routes, ActiveBus(buses, selectedBus)).Some?
    ensures r.Some? ==> var bus := ActiveBus(buses, selectedBus).value;
                        var route := ActiveRoute(routes, ActiveBus(buses, selectedBus)).value;
                        r.value.busNumber == bus.number && r.value.eta == bus.eta &&
                        r.value.badge == InfoBarBadge(BusStatusName(bus.status)) &&
                        r.value.statusLabel == Text.Capitalize(BusStatusName(bus.status)) &&
                        r.value.speed == bus.speed && r.value.passengers == bus.passengers &&
                        r.value.capacity == bus.capacity &&
                        r.value.routeNumber == route.number && r.value.routeName == route.name
  {
    var activeBus := ActiveBus(buses, selectedBus);
    var activeRoute := ActiveRoute(routes, activeBus);
    if activeBus.Some? && activeRoute.Some? then
      var bus, route := activeBus.value, activeRoute.value;
      Some(InfoBar(bus.number, route.number, route.name, InfoBarBadge(BusStatusName(bus.status)),
                   Text.Capitalize(BusStatusName(bus.status)), bus.eta, bus.speed, bus.passengers, bus.capacity))
    else None
  }

  /** The profile's phone field: `user.phone || ''`. */
  function PhoneField(user: User): (phone: string)
    ensures user.phone.None? ==> phone == ""
    ensures user.phone.Some? ==> phone == user.phone.value
  {
    match user.phone
    case Some(p) => p
    case None => ""
  }

  datatype Tab = MapTab | PlannerTab | SafetyTab | ProfileTab

  /** The commuter app's state. */
  class UserAppState {
    var activeTab: Tab
    var isMenuOpen: bool
    var selectedBus: Option<string>

    constructor()
      ensures activeTab == MapTab && !isMenuOpen && selectedBus == None
    {
      activeTab, isMenuOpen, selectedBus := MapTab, false, None;
    }

    method OpenMenu()
      modifies this`isMenuOpen
      ensures isMenuOpen
    {
      isMenuOpen := true;
    }

    method CloseMenu()
      modifies this`isMenuOpen
      ensures !isMenuOpen
    {
      isMenuOpen := false;
    }

    /** A tab in the sidebar or the bottom bar. */
    method ChooseTab(tab: Tab)
      modifies this`activeTab
      ensures activeTab == tab
    {
      activeTab := tab;
    }

    /** A tab in the mobile menu: the tab is set, then the menu closes. */
    method ChooseTabFromMenu(tab: Tab)
      modifies this`activeTab, this`isMenuOpen
      ensures activeTab == tab && !isMenuOpen
    {
      activeTab := tab;
      isMenuOpen := false;
    }

    /** `onBusSelect={setSelectedBus}`: the live map reports the new selection. */
    method OnBusSelect(reported: Option<string>)
      modifies this`selectedBus
      ensures selectedBus == reported
    {
      selectedBus := reported;
    }

    /** A click on a bus in the live map, through its callback. */
    method ClickBusOnMap(busId: string)
      modifies this`selectedBus
      ensures selectedBus == Toggle(old(selectedBus), busId)
    {
      OnBusSelect(LiveMap.BusClick(selectedBus, busId));
    }

    function InfoBarShown(buses: seq<Bus>, routes: seq<Route>): (r: Option<InfoBar>)
      reads this
      ensures r.Some? ==> selectedBus.Some? && selectedBus.value != ""
      ensures r == InfoBarOf(buses, routes, selectedBus)
    {
      InfoBarOf(buses, routes, selectedBus)
    }
  }
}
