// The live map (src/components/LiveMap.tsx): the bus list filtered by route,
// the fleet status panel, the map colours, the bus selection callback, the
// per-bus lookups and the nearby-stops panel.

module LiveMap {
  import opened Types
  import opened Seqs
  import opened Queries
  import opened Selection
  import FleetManagement

  datatype ViewMode = AllBuses | ByRoute

  /** `filteredBuses`. */
  function FilteredBuses(buses: seq<Bus>, mode: ViewMode, selectedRoute: string): (r: seq<Bus>)
    ensures mode == AllBuses ==> r == buses
    ensures mode == ByRoute ==> forall i :: 0 <= i < |r| ==> r[i] in buses && r[i].routeId == selectedRoute
    ensures mode == ByRoute ==> forall i :: 0 <= i < |buses| && buses[i].routeId == selectedRoute ==> buses[i] in r
  {
    if mode == AllBuses then buses else Filter(buses, (b: Bus) => b.routeId == selectedRoute)
  }

  /** Either way the list keeps the order of the fleet. */
  lemma FilteredBusesKeepOrder(buses: seq<Bus>, mode: ViewMode, selectedRoute: string)
    ensures IsSubsequence(FilteredBuses(buses, mode, selectedRoute), buses)
  {
    if mode == AllBuses {
      FilterAll(buses, (b: Bus) => true);
      FilterIsSubsequence(buses, (b: Bus) => true);
    } else {
      FilterIsSubsequence(buses, (b: Bus) => b.routeId == selectedRoute);
    }
  }

  /** Switching to "By Route" before choosing a route (the empty selection) lists no bus. */
  lemma NoRouteChosenListsNothing(buses: seq<Bus>)
    requires forall i :: 0 <= i < |buses| ==> buses[i].routeId != ""
    ensures FilteredBuses(buses, ByRoute, "") == []
  {
    FilterNone(buses, (b: Bus) => b.routeId == "");
  }

  /** `getBusStatusColor(status)` of this screen. */
  function BusStatusColor(status: string): (c: Color)
    ensures status == "running" ==> c == Green
    ensures status == "delayed" ==> c == Orange
    ensures status == "breakdown" ==> c == Red
    ensures status != "running" && status != "delayed" && status != "breakdown" ==> c == Gray
  {
    if status == "running" then Green
    else if status == "delayed" then Orange
    else if status == "breakdown" then Red
    else Gray
  }

  /** The map and the fleet screen disagree: delayed is orange here and yellow there, scheduled gray here and blue there. */
  lemma ColoursDifferFromFleetScreen()
    ensures BusStatusColor(BusStatusName(Delayed)) == Orange
    ensures FleetManagement.BusStatusColor(BusStatusName(Delayed)) == Yellow
    ensures BusStatusColor(BusStatusName(Scheduled)) == Gray
    ensures FleetManagement.BusStatusColor(BusStatusName(Scheduled)) == Blue
  {
  }

  /** The "Fleet Status" panel. */
  datatype FleetStatus = FleetStatus(active: nat, delayed: nat, breakdown: nat)

  function StatusPanel(buses: seq<Bus>): (s: FleetStatus)
    ensures s.active == |BusesWithStatus(buses, Running)|
    ensures s.delayed == |BusesWithStatus(buses, Delayed)|
    ensures s.breakdown == |BusesWithStatus(buses, Breakdown)|
    ensures s.active + s.delayed + s.breakdown <= |buses|
  {
    BusStatusPartition(buses);
    FleetStatus(|BusesWithStatus(buses, Running)|, |BusesWithStatus(buses, Delayed)|,
                |BusesWithStatus(buses, Breakdown)|)
  }

  /** The panel counts the whole fleet, so for every status it shows at least as many buses as the filtered list holds. */
  lemma StatusPanelCoversFilteredList(buses: seq<Bus>, mode: ViewMode, selectedRoute: string, s: BusStatus)
    ensures |BusesWithStatus(FilteredBuses(buses, mode, selectedRoute), s)| <= |BusesWithStatus(buses, s)|
  {
    FilteredBusesKeepOrder(buses, mode, selectedRoute);
    FilterSubsequenceLength(FilteredBuses(buses, mode, selectedRoute), buses, (b: Bus) => b.status == s);
  }

  /** The value passed to `onBusSelect` by a click on a marker or a list entry. */
  function BusClick(selectedBus: Option<string>, busId: string): (reported: Option<string>)
    ensures reported.None? <==> selectedBus == Some(busId)
    ensures reported.Some? ==> reported.value == busId
  {
    Toggle(selectedBus, busId)
  }

  /** What a bus list entry looks up: route, driver and next stop, each possibly missing. */
  datatype BusEntry = BusEntry(route: Option<Route>, driver: Option<Driver>, nextStop: Option<BusStop>)

  function LookUpEntry(bus: Bus, routes: seq<Route>, drivers: seq<Driver>, stops: seq<BusStop>): (e: BusEntry)
    ensures e.route.None? <==> forall i :: 0 <= i < |routes| ==> routes[i].id != bus.routeId
    ensures e.route.Some? ==> exists j :: 0 <= j < |routes| && routes[j] == e.route.value && e.route.value.id == bus.routeId &&
                                          forall k :: 0 <= k < j ==> routes[k].id != bus.routeId
    ensures e.driver.None? <==> forall i :: 0 <= i < |drivers| ==> drivers[i].id != bus.driverId
    ensures e.driver.Some? ==> exists j :: 0 <= j < |drivers| && drivers[j] == e.driver.value && e.driver.value.id == bus.driverId &&
                                           forall k :: 0 <= k < j ==> drivers[k].id != bus.driverId
    ensures e.nextStop.None? <==> forall i :: 0 <= i < |stops| ==> stops[i].id != bus.nextStopId
    ensures e.nextStop.Some? ==> exists j :: 0 <= j < |stops| && stops[j] == e.nextStop.value && e.nextStop.value.id == bus.nextStopId &&
                                             forall k :: 0 <= k < j ==> stops[k].id != bus.nextStopId
  {
    BusEntry(FindRoute(routes, bus.routeId), FindDriver(drivers, bus.driverId), FindStop(stops, bus.nextStopId))
  }

  /** `stops.slice(0, 4)`. */
  function NearbyStops(stops: seq<BusStop>): (r: seq<BusStop>)
    ensures r <= stops
    ensures |r| == if |stops| < 4 then |stops| else 4
  {
    Take(stops, 4)
  }

  /** The map's own state: the view mode and the route chosen for it. */
  class LiveMapState {
    var viewMode: ViewMode
    var selectedRoute: string

    constructor()
      ensures viewMode == AllBuses && selectedRoute == ""
    {
      viewMode, selectedRoute := AllBuses, "";
    }

    method SetViewMode(mode: ViewMode)
      modifies this`viewMode
      ensures viewMode == mode
    {
      viewMode := mode;
    }

    method SetSelectedRoute(routeId: string)
      modifies this`selectedRoute
      ensures selectedRoute == routeId
    {
      selectedRoute := routeId;
    }

    /** The buses drawn on the map and in the list. */
    function Shown(buses: seq<Bus>): (r: seq<Bus>)
      reads this
      ensures IsSubsequence(r, buses)
      ensures viewMode == AllBuses ==> r == buses
      ensures viewMode == ByRoute ==> forall i :: 0 <= i < |r| ==> r[i].routeId == selectedRoute
      ensures r == FilteredBuses(buses, viewMode, selectedRoute)
    {
      FilteredBusesKeepOrder(buses, viewMode, selectedRoute);
      FilteredBuses(buses, viewMode, selectedRoute)
    }
  }
}
