// The routes and stops screen (src/components/admin/RouteManagement.tsx):
// who may manage stops, the two views, the expandable route rows with their
// numbered stops, the route statistics and the add-stop modal.

module RouteManagement {
  import opened Types
  import opened Numeric
  import opened Selection
  import AdminPanel

  /** `canManageStops`. */
  predicate CanManageStops(role: Role) {
    role == SuperAdmin || role == MunicipalAdmin
  }

  /** Whoever may manage stops can also reach this screen from the admin panel; the commuter and the fleet operator cannot manage stops. */
  lemma StopManagersReachRoutes(role: Role)
    ensures CanManageStops(role) ==> AdminPanel.TabAvailable(role, AdminPanel.RoutesTab)
    ensures !CanManageStops(role) <==> role == Commuter || role == OperatorAdmin
  {
  }

  /** The numbered list of an expanded route: position `index + 1` and the stop's name, in route order. */
  function StopNumbering(stops: seq<BusStop>): (rows: seq<(int, string)>)
    ensures |rows| == |stops|
    ensures forall i :: 0 <= i < |rows| ==> rows[i] == (i + 1, stops[i].name)
  {
    seq(|stops|, i requires 0 <= i < |stops| => (i + 1, stops[i].name))
  }

  /** The numbers run 1, 2, ..., n without gaps. */
  lemma StopNumbersConsecutive(stops: seq<BusStop>)
    ensures stops != [] ==> StopNumbering(stops)[0].0 == 1 && StopNumbering(stops)[|stops| - 1].0 == |stops|
    ensures forall i :: 0 < i < |stops| ==> StopNumbering(stops)[i].0 == StopNumbering(stops)[i - 1].0 + 1
  {
  }

  /** `routes.reduce((sum, route) => sum + route.frequency, 0)`. */
  function FrequencySum(routes: seq<Route>): int
  {
    if routes == [] then 0 else FrequencySum(routes[..|routes| - 1]) + routes[|routes| - 1].frequency
  }

  lemma {:induction false} FrequencySumBounds(routes: seq<Route>, lo: int, hi: int)
    requires forall i :: 0 <= i < |routes| ==> lo <= routes[i].frequency <= hi
    ensures |routes| * lo <= FrequencySum(routes) <= |routes| * hi
  {
    if routes != [] {
      FrequencySumBounds(routes[..|routes| - 1], lo, hi);
    }
  }

  /** "Average Frequency": `Math.round(sum / routes.length)`; without routes it is undefined (JavaScript shows NaN). */
  function AverageFrequency(routes: seq<Route>): (avg: Option<int>)
    ensures avg.None? <==> routes == []
    ensures avg.Some? ==> 2 * |routes| * avg.value - |routes| <= 2 * FrequencySum(routes) < 2 * |routes| * avg.value + |routes|
  {
    if routes == [] then None else Some(RoundRatio(FrequencySum(routes), |routes|))
  }

  /** The average lies between the least and the greatest frequency. */
  lemma AverageWithinRange(routes: seq<Route>, lo: int, hi: int)
    requires routes != []
    requires forall i :: 0 <= i < |routes| ==> lo <= routes[i].frequency <= hi
    ensures AverageFrequency(routes).Some? && lo <= AverageFrequency(routes).value <= hi
  {
    FrequencySumBounds(routes, lo, hi);
    RoundRatioWithin(FrequencySum(routes), |routes|, lo, hi);
  }

  /** "Popular Routes": the usage figure shown for the route at `index`. */
  function PopularUsage(index: int): (percent: int)
    ensures index == 0 ==> percent == 95
    ensures index >= 0 ==> percent <= 95
  {
    95 - index * 5
  }

  /** Later routes always rank lower, five points per place. */
  lemma PopularUsageDecreasing(i: int, j: int)
    requires i < j
    ensures PopularUsage(j) < PopularUsage(i)
    ensures PopularUsage(i) - PopularUsage(j) == 5 * (j - i)
  {
  }

  datatype RouteView = RoutesView | StopsView

  /** The screen's state for one signed-in admin. */
  class RouteManagementState {
    const user: User
    var activeView: RouteView
    var selectedRoute: Option<string>
    var isAddingStop: bool

    constructor(user: User)
      ensures this.user == user
      ensures activeView == RoutesView && selectedRoute == None && !isAddingStop
    {
      this.user := user;
      activeView, selectedRoute, isAddingStop := RoutesView, None, false;
    }

    /** The "Bus Stops" button is drawn only for those who may manage stops. */
    function StopsButtonShown(): (shown: bool)
      reads this
      ensures shown <==> CanManageStops(user.role)
    {
      CanManageStops(user.role)
    }

    method ShowRoutes()
      modifies this`activeView
      ensures activeView == RoutesView
    {
      activeView := RoutesView;
    }

    method ShowStops()
      requires StopsButtonShown()
      modifies this`activeView
      ensures activeView == StopsView
    {
      activeView := StopsView;
    }

    /** The stop list is drawn in the stops view, and only for those who may manage stops. */
    function StopsViewShown(): (shown: bool)
      reads this
      ensures shown <==> activeView == StopsView && CanManageStops(user.role)
      ensures user.role == OperatorAdmin || user.role == Commuter ==> !shown
    {
      activeView == StopsView && CanManageStops(user.role)
    }

    /** A click on a route row: the expanded one collapses, any other expands. */
    method ClickRoute(routeId: string)
      modifies this`selectedRoute
      ensures selectedRoute == Toggle(old(selectedRoute), routeId)
      ensures selectedRoute == None <==> old(selectedRoute) == Some(routeId)
    {
      selectedRoute := Toggle(selectedRoute, routeId);
    }

    /** "Add Bus Stop", drawn only in the stops view, opens the modal. */
    method OpenAddStop()
      requires StopsViewShown()
      modifies this`isAddingStop
      ensures isAddingStop
    {
      isAddingStop := true;
    }

    /** "Cancel" closes it; the modal's "Add Stop" button has no handler and changes nothing. */
    method CancelAddStop()
      modifies this`isAddingStop
      ensures !isAddingStop
    {
      isAddingStop := false;
    }
  }
}
