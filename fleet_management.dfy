// The fleet management screen (src/components/admin/FleetManagement.tsx):
// status and rating colours, the occupancy percentage, the fleet statistics,
// the driver-to-bus assignment and the bus/driver view with its expandable rows.

module FleetManagement {
  import opened Types
  import opened Seqs
  import opened Numeric
  import opened Text
  import opened Queries
  import opened Selection

  /** `getBusStatusColor(status)`. */
  function BusStatusColor(status: string): (c: Color)
    ensures status == "running" ==> c == Green
    ensures status == "delayed" ==> c == Yellow
    ensures status == "breakdown" ==> c == Red
    ensures status == "scheduled" ==> c == Blue
    ensures status != "running" && status != "delayed" && status != "breakdown" && status != "scheduled" ==> c == Gray
  {
    if status == "running" then Green
    else if status == "delayed" then Yellow
    else if status == "breakdown" then Red
    else if status == "scheduled" then Blue
    else Gray
  }

  /** On this screen the four statuses get four different colours, none of them the fallback gray. */
  lemma BusStatusColorsDistinct(s1: BusStatus, s2: BusStatus)
    ensures BusStatusColor(BusStatusName(s1)) != Gray
    ensures s1 != s2 ==> BusStatusColor(BusStatusName(s1)) != BusStatusColor(BusStatusName(s2))
  {
  }

  /** `getDriverRatingColor(rating)`, with the rating in tenths of a star (4.5 is 45). */
  function DriverRatingColor(ratingTenths: int): (c: Color)
    ensures ratingTenths >= 45 ==> c == Green
    ensures 40 <= ratingTenths < 45 ==> c == Yellow
    ensures ratingTenths < 40 ==> c == Red
  {
    if ratingTenths >= 45 then Green
    else if ratingTenths >= 40 then Yellow
    else Red
  }

  /** The order of the rating bands: red below yellow below green. */
  function BandRank(c: Color): int {
    match c
    case Red => 0
    case Yellow => 1
    case Green => 2
    case _ => -1
  }

  /** A better rating never falls into a worse band. */
  lemma DriverRatingColorMonotone(a: int, b: int)
    requires a <= b
    ensures 0 <= BandRank(DriverRatingColor(a)) <= BandRank(DriverRatingColor(b))
  {
  }

  /** `Math.round((bus.passengers / bus.capacity) * 100)`; a zero capacity has no percentage (JavaScript shows NaN or Infinity). */
  function Occupancy(bus: Bus): (r: Option<int>)
    ensures r.None? <==> bus.capacity == 0
    ensures r.Some? && bus.capacity > 0 ==>
              2 * bus.capacity * r.value - bus.capacity <= 200 * bus.passengers < 2 * bus.capacity * r.value + bus.capacity
  {
    if bus.capacity == 0 then None else Some(RoundRatio(100 * bus.passengers, bus.capacity))
  }

  /** The integer percentage is the rounding of the exact ratio. */
  lemma OccupancyIsRoundedRatio(bus: Bus)
    requires bus.capacity > 0
    ensures Occupancy(bus) == Some(Round((100 * bus.passengers) as real / bus.capacity as real))
  {
    RoundRatioIsRound(100 * bus.passengers, bus.capacity);
  }

  /** A bus carrying no more than its capacity shows a percentage between 0 and 100. */
  lemma OccupancyBounded(bus: Bus)
    requires bus.capacity > 0 && 0 <= bus.passengers <= bus.capacity
    ensures Occupancy(bus).Some? && 0 <= Occupancy(bus).value <= 100
  {
    RoundRatioWithin(100 * bus.passengers, bus.capacity, 0, 100);
  }

  /** `status.charAt(0).toUpperCase() + status.slice(1)`. */
  function StatusLabel(status: string): (shown: string)
    ensures |shown| == |status|
    ensures status != [] ==> shown[0] == ToUpper(status[0]) && shown[1..] == status[1..]
  {
    Capitalize(status)
  }

  lemma BusStatusLabels()
    ensures StatusLabel(BusStatusName(Running)) == "Running"
    ensures StatusLabel(BusStatusName(Scheduled)) == "Scheduled"
    ensures StatusLabel(BusStatusName(Breakdown)) == "Breakdown"
    ensures StatusLabel(BusStatusName(Delayed)) == "Delayed"
  {
    assert StatusLabel("running") == "Running";
    assert StatusLabel("scheduled") == "Scheduled";
    assert StatusLabel("breakdown") == "Breakdown";
    assert StatusLabel("delayed") == "Delayed";
  }

  /** The "Fleet Statistics" panel. */
  datatype FleetStats = FleetStats(total: nat, active: nat, delayed: nat, breakdown: nat)

  function FleetStatistics(buses: seq<Bus>): (s: FleetStats)
    ensures s.total == |buses|
    ensures s.active == |BusesWithStatus(buses, Running)|
    ensures s.delayed == |BusesWithStatus(buses, Delayed)|
    ensures s.breakdown == |BusesWithStatus(buses, Breakdown)|
  {
    FleetStats(|buses|, |BusesWithStatus(buses, Running)|, |BusesWithStatus(buses, Delayed)|,
               |BusesWithStatus(buses, Breakdown)|)
  }

  /** The three shown counts miss exactly the scheduled buses, so they never exceed the total. */
  lemma FleetStatisticsAccount(buses: seq<Bus>)
    ensures var s := FleetStatistics(buses);
            s.active + s.delayed + s.breakdown == s.total - |BusesWithStatus(buses, Scheduled)|
    ensures var s := FleetStatistics(buses);
            s.active + s.delayed + s.breakdown <= s.total
  {
    BusStatusPartition(buses);
  }

  /** `mockBuses.find(b => b.driverId === driver.id)`. */
  function AssignedBus(buses: seq<Bus>, driver: Driver): (r: Option<Bus>)
    ensures r.None? <==> forall i :: 0 <= i < |buses| ==> buses[i].driverId != driver.id
    ensures r.Some? ==> exists j :: 0 <= j < |buses| && buses[j] == r.value && r.value.driverId == driver.id &&
                                    forall k :: 0 <= k < j ==> buses[k].driverId != driver.id
  {
    Find(buses, (b: Bus) => b.driverId == driver.id)
  }

  /** The duty line of a driver card. */
  datatype Duty = Driving(busNumber: string, routeNumber: string) | OffDuty

  function DriverDuty(buses: seq<Bus>, routes: seq<Route>, driver: Driver): (d: Duty)
    ensures d.OffDuty? <==>
              AssignedBus(buses, driver).None? || FindRoute(routes, AssignedBus(buses, driver).value.routeId).None?
    ensures d.Driving? ==> exists j :: 0 <= j < |buses| && buses[j].driverId == driver.id && d.busNumber == buses[j].number &&
                                       (forall k :: 0 <= k < j ==> buses[k].driverId != driver.id) &&
                                       FindRoute(routes, buses[j].routeId).Some? &&
                                       d.routeNumber == FindRoute(routes, buses[j].routeId).value.number
  {
    match AssignedBus(buses, driver)
    case None => OffDuty
    case Some(bus) =>
      match FindRoute(routes, bus.routeId)
      case None => OffDuty
      case Some(route) => Driving(bus.number, route.number)
  }

  /** A driver no bus names is off duty. */
  lemma UnassignedDriverOffDuty(buses: seq<Bus>, routes: seq<Route>, driver: Driver)
    requires forall i :: 0 <= i < |buses| ==> buses[i].driverId != driver.id
    ensures DriverDuty(buses, routes, driver) == OffDuty
  {
  }

  datatype FleetView = BusesView | DriversView

  /** The screen's state: which list is shown and which bus row is expanded. */
  class FleetManagementState {
    var activeView: FleetView
    var selectedBus: Option<string>

    constructor()
      ensures activeView == BusesView && selectedBus == None
    {
      activeView, selectedBus := BusesView, None;
    }

    method ShowBuses()
      modifies this`activeView
      ensures activeView == BusesView
    {
      activeView := BusesView;
    }

    method ShowDrivers()
      modifies this`activeView
      ensures activeView == DriversView
    {
      activeView := DriversView;
    }

    /** A click on a bus row: the selected row collapses, any other row becomes the selection. */
    method ClickBus(busId: string)
      modifies this`selectedBus
      ensures selectedBus == Toggle(old(selectedBus), busId)
      ensures selectedBus == None <==> old(selectedBus) == Some(busId)
    {
      selectedBus := Toggle(selectedBus, busId);
    }

    /** The ids of the bus rows drawn with their detail panel. */
    function ExpandedBuses(buses: seq<Bus>): (r: seq<string>)
      reads this
      ensures Distinct(BusIds(buses)) ==> |r| <= 1
      ensures forall i :: 0 <= i < |r| ==> selectedBus == Some(r[i])
    {
      var ids := BusIds(buses);
      assert Distinct(ids) ==> |ExpandedRows(ids, selectedBus)| <= 1 by {
        if Distinct(ids) {
          AtMostOneExpanded(ids, selectedBus);
        }
      }
      ExpandedRows(ids, selectedBus)
    }
  }

  function BusIds(buses: seq<Bus>): (ids: seq<string>)
    ensures |ids| == |buses|
    ensures forall i :: 0 <= i < |buses| ==> ids[i] == buses[i].id
  {
    seq(|buses|, i requires 0 <= i < |buses| => buses[i].id)
  }
}
