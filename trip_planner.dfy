// The trip planner screen (src/components/TripPlanner.tsx): the direct-route
// finder behind "Find Routes", the journey-time and fare estimates, stop
// names and the intermediate-stop count shown on each result card.

module TripPlanner {
  import opened Types
  import opened Seqs
  import opened Numeric
  import opened Queries

  /** The filter of `handleSearch`: both stops are on the route and the origin's first index is smaller. */
  predicate ConnectsInOrder(route: Route, fromId: string, toId: string) {
    var ids := StopIds(route.stops);
    var fromIndex, toIndex := IndexOf(ids, fromId), IndexOf(ids, toId);
    fromIndex != -1 && toIndex != -1 && fromIndex < toIndex
  }

  /** Reference reading: `toId` is on the route and `fromId` occurs before its first occurrence. */
  ghost predicate ServesInOrder(ids: seq<string>, fromId: string, toId: string) {
    exists j :: 0 <= j < |ids| && ids[j] == toId && toId !in ids[..j] && fromId in ids[..j]
  }

  lemma ConnectsInOrderIff(route: Route, fromId: string, toId: string)
    ensures ConnectsInOrder(route, fromId, toId) <==> ServesInOrder(StopIds(route.stops), fromId, toId)
  {
    var ids := StopIds(route.stops);
    var fi, ti := IndexOf(ids, fromId), IndexOf(ids, toId);
    if ConnectsInOrder(route, fromId, toId) {
      assert ids[..ti][fi] == fromId;
      assert ServesInOrder(ids, fromId, toId);
    }
    if ServesInOrder(ids, fromId, toId) {
      var j :| 0 <= j < |ids| && ids[j] == toId && toId !in ids[..j] && fromId in ids[..j];
      assert forall m :: 0 <= m < j ==> ids[..j][m] == ids[m];
      assert ti == j;
      var k :| 0 <= k < j && ids[..j][k] == fromId;
      assert ids[k] == fromId;
      assert forall m :: 0 <= m < fi ==> ids[..fi][m] == ids[m];
      assert fi <= k;
    }
  }

  /** `routes.filter(...)` in `handleSearch`. */
  function FindDirectRoutes(routes: seq<Route>, fromId: string, toId: string): (r: seq<Route>)
    ensures forall i :: 0 <= i < |r| ==> r[i] in routes && ConnectsInOrder(r[i], fromId, toId)
    ensures forall i :: 0 <= i < |routes| && ConnectsInOrder(routes[i], fromId, toId) ==> routes[i] in r
  {
    Filter(routes, (route: Route) => ConnectsInOrder(route, fromId, toId))
  }

  /** A route is a result exactly when it serves the destination with the origin somewhere before it. */
  lemma DirectRouteMembership(routes: seq<Route>, fromId: string, toId: string, route: Route)
    ensures route in FindDirectRoutes(routes, fromId, toId) <==>
            route in routes && ServesInOrder(StopIds(route.stops), fromId, toId)
  {
    ConnectsInOrderIff(route, fromId, toId);
    var r := FindDirectRoutes(routes, fromId, toId);
    if route in r {
      var i :| 0 <= i < |r| && r[i] == route;
    }
    if route in routes {
      var i :| 0 <= i < |routes| && routes[i] == route;
    }
  }

  /** The results keep the input order: deleting the non-matching routes gives them. */
  lemma DirectRoutesKeepOrder(routes: seq<Route>, fromId: string, toId: string)
    ensures IsSubsequence(FindDirectRoutes(routes, fromId, toId), routes)
  {
    FilterIsSubsequence(routes, (route: Route) => ConnectsInOrder(route, fromId, toId));
  }

  /** Asking for a trip from a stop to itself finds nothing. */
  lemma SameStopFindsNothing(routes: seq<Route>, stopId: string)
    ensures FindDirectRoutes(routes, stopId, stopId) == []
  {
    FilterNone(routes, (route: Route) => ConnectsInOrder(route, stopId, stopId));
  }

  /** Routes are directional: no route answers both a query and its reverse. */
  lemma ReverseQueryDisjoint(routes: seq<Route>, a: string, b: string)
    ensures forall i :: 0 <= i < |FindDirectRoutes(routes, a, b)| ==>
              FindDirectRoutes(routes, a, b)[i] !in FindDirectRoutes(routes, b, a)
  {
    var ab, ba := FindDirectRoutes(routes, a, b), FindDirectRoutes(routes, b, a);
    forall i | 0 <= i < |ab| ensures ab[i] !in ba {
      assert ConnectsInOrder(ab[i], a, b);
      assert !ConnectsInOrder(ab[i], b, a);
    }
  }

  /** `toIndex - fromIndex` of `calculateTripTime`, with -1 for a stop that is not on the route. */
  function StopCount(route: Route, fromId: string, toId: string): int {
    var ids := StopIds(route.stops);
    IndexOf(ids, toId) - IndexOf(ids, fromId)
  }

  /** `Math.round(stopCount * 3 + Math.random() * 10)`, with `jitter` standing for `Math.random() * 10`. */
  function TripMinutes(stopCount: int, jitter: real): (t: int)
    requires 0.0 <= jitter < 10.0
    ensures 3 * stopCount <= t <= 3 * stopCount + 10
  {
    Round(stopCount as real * 3.0 + jitter)
  }

  /** `calculateTripTime(route, fromStopId, toStopId)`. */
  function CalculateTripTime(route: Route, fromId: string, toId: string, jitter: real): (t: int)
    requires 0.0 <= jitter < 10.0
    ensures 3 * StopCount(route, fromId, toId) <= t <= 3 * StopCount(route, fromId, toId) + 10
    ensures ConnectsInOrder(route, fromId, toId) ==> t >= 3
  {
    TripMinutes(StopCount(route, fromId, toId), jitter)
  }

  /** For a fixed jitter, more stops never mean a shorter trip. */
  lemma TripMinutesMonotone(k1: int, k2: int, jitter: real)
    requires 0.0 <= jitter < 10.0
    requires k1 <= k2
    ensures TripMinutes(k1, jitter) <= TripMinutes(k2, jitter)
  {
    RoundMonotone(k1 as real * 3.0 + jitter, k2 as real * 3.0 + jitter);
  }

  /** `(route.fare * 0.8).toFixed(2)` in cents: within half a cent of 80 % of the base fare, never a tie. */
  function EstimatedFare(route: Route): (cents: int)
    ensures 10 * cents - 5 < 8 * route.fare < 10 * cents + 5
    ensures 0 <= route.fare ==> 0 <= cents <= route.fare
  {
    RoundRatio(4 * route.fare, 5)
  }

  /** The estimate is a function of the base fare alone (no randomness, unlike the trip time). */
  lemma FareDependsOnlyOnBaseFare(r1: Route, r2: Route)
    requires r1.fare == r2.fare
    ensures EstimatedFare(r1) == EstimatedFare(r2)
  {
  }

  /** `stops.find(s => s.id === stopId)?.name || stopId`: an empty name also falls back to the id. */
  function StopName(stops: seq<BusStop>, stopId: string): (name: string)
    ensures (forall i :: 0 <= i < |stops| ==> stops[i].id != stopId) ==> name == stopId
    ensures forall j :: 0 <= j < |stops| && stops[j].id == stopId && (forall k :: 0 <= k < j ==> stops[k].id != stopId) ==>
              name == if stops[j].name != "" then stops[j].name else stopId
  {
    match FindStop(stops, stopId)
    case Some(stop) => if stop.name != "" then stop.name else stopId
    case None => stopId
  }

  /** The stops of the "N intermediate stops" line: those whose first index lies strictly between the two. */
  function IntermediateStops(route: Route, fromId: string, toId: string): seq<BusStop> {
    var ids := StopIds(route.stops);
    var fromIndex, toIndex := IndexOf(ids, fromId), IndexOf(ids, toId);
    Filter(route.stops, (s: BusStop) => fromIndex < IndexOf(ids, s.id) < toIndex)
  }

  /** On a route without repeated stops, the intermediate stops are the slice between the two, one fewer than the stop count. */
  lemma IntermediateStopsBetween(route: Route, fromId: string, toId: string)
    requires Distinct(StopIds(route.stops))
    requires ConnectsInOrder(route, fromId, toId)
    ensures var ids := StopIds(route.stops);
            IntermediateStops(route, fromId, toId) == route.stops[IndexOf(ids, fromId) + 1..IndexOf(ids, toId)]
    ensures |IntermediateStops(route, fromId, toId)| == StopCount(route, fromId, toId) - 1
  {
    var ids := StopIds(route.stops);
    var fi, ti := IndexOf(ids, fromId), IndexOf(ids, toId);
    var p := (s: BusStop) => fi < IndexOf(ids, s.id) < ti;
    forall k | 0 <= k < |route.stops| ensures p(route.stops[k]) <==> fi + 1 <= k < ti {
      IndexOfDistinct(ids, k);
    }
    FilterWindow(route.stops, p, fi + 1, ti);
  }

  /** `routes.slice(0, 4)`: the "Popular Routes" panel lists the first four routes, in order. */
  function PopularRoutes(routes: seq<Route>): (r: seq<Route>)
    ensures r <= routes
    ensures |routes| >= 4 ==> |r| == 4
    ensures |routes| < 4 ==> r == routes
  {
    Take(routes, 4)
  }

  /** What a result card shows. */
  datatype TripCard = TripCard(
    routeNumber: string,
    minutes: int,
    fareCents: int,
    fromName: string,
    intermediateCount: nat,
    toName: string)

  /** The planner's state: the two selects, the results and the in-flight search. */
  class TripPlannerState {
    const routes: seq<Route>
    const stops: seq<BusStop>
    var fromStop: string
    var toStop: string
    var searchResults: seq<Route>
    var isSearching: bool
    /** The stops captured when the running search started; it completes after its delay. */
    var pendingQuery: Option<(string, string)>

    ghost predicate Valid()
      reads this
    {
      isSearching <==> pendingQuery.Some?
    }

    constructor(routes: seq<Route>, stops: seq<BusStop>)
      ensures Valid() && this.routes == routes && this.stops == stops
      ensures fromStop == "" && toStop == "" && searchResults == [] && !isSearching
    {
      this.routes, this.stops := routes, stops;
      fromStop, toStop := "", "";
      searchResults, isSearching, pendingQuery := [], false, None;
    }

    method SetFromStop(stopId: string)
      modifies this`fromStop
      ensures fromStop == stopId
    {
      fromStop := stopId;
    }

    method SetToStop(stopId: string)
      modifies this`toStop
      ensures toStop == stopId
    {
      toStop := stopId;
    }

    /** "Find Routes" is clickable only with both stops chosen and no search running. */
    function SearchEnabled(): (enabled: bool)
      reads this
      ensures enabled <==> fromStop != "" && toStop != "" && !isSearching
    {
      fromStop != "" && toStop != "" && !isSearching
    }

    /** `handleSearch` up to its delay: without both stops nothing happens, otherwise the search starts. */
    method HandleSearch()
      requires Valid() && !isSearching
      modifies this
      ensures Valid()
      ensures isSearching <==> old(SearchEnabled())
      ensures old(fromStop) == "" || old(toStop) == "" ==> unchanged(this)
      ensures old(fromStop) != "" && old(toStop) != "" ==>
                isSearching && pendingQuery == Some((fromStop, toStop)) &&
                searchResults == old(searchResults) && fromStop == old(fromStop) && toStop == old(toStop)
    {
      if fromStop == "" || toStop == "" {
        return;
      }
      isSearching := true;
      pendingQuery := Some((fromStop, toStop));
    }

    /** `handleSearch` after its delay: the results of the captured query replace the old ones. */
    method FinishSearch()
      requires Valid() && isSearching
      modifies this`searchResults, this`isSearching, this`pendingQuery
      ensures Valid() && !isSearching
      ensures searchResults == FindDirectRoutes(routes, old(pendingQuery).value.0, old(pendingQuery).value.1)
    {
      var (fromId, toId) := pendingQuery.value;
      searchResults := FindDirectRoutes(routes, fromId, toId);
      isSearching := false;
      pendingQuery := None;
    }

    /** The "No Direct Routes Found" panel. */
    function ShowsNoRoutesMessage(): (shown: bool)
      reads this
      ensures shown <==> searchResults == [] && fromStop != "" && toStop != "" && !isSearching
    {
      |searchResults| == 0 && fromStop != "" && toStop != "" && !isSearching
    }

    /** The card of one result, computed from the stops currently selected. */
    function ResultCard(route: Route, jitter: real): (card: TripCard)
      requires 0.0 <= jitter < 10.0
      reads this
      ensures card.fareCents == EstimatedFare(route)
      ensures 3 * StopCount(route, fromStop, toStop) <= card.minutes <= 3 * StopCount(route, fromStop, toStop) + 10
      ensures Distinct(StopIds(route.stops)) && ConnectsInOrder(route, fromStop, toStop) ==>
                card.intermediateCount == StopCount(route, fromStop, toStop) - 1
    {
      var between := IntermediateStops(route, fromStop, toStop);
      var wellFormed := Distinct(StopIds(route.stops)) && ConnectsInOrder(route, fromStop, toStop);
      assert wellFormed ==> |between| == StopCount(route, fromStop, toStop) - 1 by {
        if wellFormed {
          IntermediateStopsBetween(route, fromStop, toStop);
        }
      }
      TripCard(route.number, CalculateTripTime(route, fromStop, toStop, jitter), EstimatedFare(route),
               StopName(stops, fromStop), |between|, StopName(stops, toStop))
    }
  }

  /** While a search runs the button is disabled, so a second click cannot start another. */
  lemma SearchingDisablesButton(planner: TripPlannerState)
    ensures planner.isSearching ==> !planner.SearchEnabled()
  {
  }

  /** Choosing two stops without searching already shows "No Direct Routes Found". */
  method NoRoutesMessageBeforeAnySearch(routes: seq<Route>, stops: seq<BusStop>, a: string, b: string)
    returns (shown: bool)
    requires a != "" && b != ""
    ensures shown
  {
    var planner := new TripPlannerState(routes, stops);
    planner.SetFromStop(a);
    planner.SetToStop(b);
    shown := planner.ShowsNoRoutesMessage();
  }
}
