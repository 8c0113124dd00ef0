// The admin dashboard (src/components/admin/AdminDashboard.tsx): the status
// card counts, the fleet map marker colour and the route performance bands.

module AdminDashboard {
  import opened Types
  import opened Queries
  import LiveMap
  import UserApp

  /** `mockBuses.filter(bus => bus.status === 'running').length`. */
  function ActiveBusCount(buses: seq<Bus>): (n: nat)
    ensures n == |BusesWithStatus(buses, Running)|
    ensures n <= |buses|
  {
    |BusesWithStatus(buses, Running)|
  }

  /** The active count falls short of the total by exactly the buses in the other three statuses. */
  lemma ActiveBusesShortfall(buses: seq<Bus>)
    ensures |buses| - ActiveBusCount(buses) ==
            |BusesWithStatus(buses, Scheduled)| + |BusesWithStatus(buses, Breakdown)| + |BusesWithStatus(buses, Delayed)|
  {
    BusStatusPartition(buses);
  }

  /** `mockGrievances.filter(g => g.status === 'open').length`. */
  function OpenGrievanceCount(gs: seq<Grievance>): (n: nat)
    ensures n == |GrievancesWithStatus(gs, Open)|
    ensures n <= |gs|
  {
    |GrievancesWithStatus(gs, Open)|
  }

  /** The colour of a bus on the dashboard's map. */
  function MarkerColor(status: BusStatus): (c: Color)
    ensures status == Running ==> c == Green
    ensures status == Delayed ==> c == Orange
    ensures status != Running && status != Delayed ==> c == Red
  {
    if status == Running then Green
    else if status == Delayed then Orange
    else Red
  }

  /** The dashboard marker is the commuter info-bar badge, and differs from the live map only for scheduled buses. */
  lemma MarkerColorAcrossScreens(status: BusStatus)
    ensures MarkerColor(status) == UserApp.InfoBarBadge(BusStatusName(status))
    ensures MarkerColor(status) == LiveMap.BusStatusColor(BusStatusName(status)) <==> status != Scheduled
  {
  }

  /** `[92, 88, 95][index]`: undefined past the third route. */
  function PerformanceValue(index: int): (p: Option<int>)
    ensures p.Some? <==> 0 <= index < 3
    ensures p.Some? ==> 88 <= p.value <= 95
  {
    if 0 <= index < 3 then Some([92, 88, 95][index]) else None
  }

  /** The text class: at least 90 green, at least 80 yellow, otherwise (and for undefined) red. */
  function PerformanceTextColor(p: Option<int>): (c: Color)
    ensures p.Some? && p.value >= 90 ==> c == Green
    ensures p.Some? && 80 <= p.value < 90 ==> c == Yellow
    ensures p.None? || p.value < 80 ==> c == Red
  {
    match p
    case None => Red
    case Some(v) => if v >= 90 then Green else if v >= 80 then Yellow else Red
  }

  /** The background class, written separately in the source with the same thresholds. */
  function PerformanceBgColor(p: Option<int>): (c: Color)
    ensures p.Some? && p.value >= 90 ==> c == Green
    ensures p.Some? && 80 <= p.value < 90 ==> c == Yellow
    ensures p.None? || p.value < 80 ==> c == Red
  {
    if p.Some? && p.value >= 90 then Green
    else if p.Some? && p.value >= 80 then Yellow
    else Red
  }

  lemma PerformanceBandsAgree(p: Option<int>)
    ensures PerformanceTextColor(p) == PerformanceBgColor(p)
  {
  }

  /** A better figure never falls into a worse band. */
  lemma PerformanceBandMonotone(a: int, b: int)
    requires a <= b
    ensures Rank(PerformanceTextColor(Some(a))) <= Rank(PerformanceTextColor(Some(b)))
  {
  }

  function Rank(c: Color): int {
    if c == Green then 2 else if c == Yellow then 1 else 0
  }

  /** With the three mock routes: green, yellow, green; a fourth route would be red. */
  lemma MockRoutePerformance()
    ensures PerformanceTextColor(PerformanceValue(0)) == Green
    ensures PerformanceTextColor(PerformanceValue(1)) == Yellow
    ensures PerformanceTextColor(PerformanceValue(2)) == Green
    ensures PerformanceTextColor(PerformanceValue(3)) == Red
  {
  }
}
