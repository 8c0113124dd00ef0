// Lookups by id and status filters that several screens share
// (`routes.find(r => r.id === ...)`, `buses.filter(b => b.status === ...)`).

module Queries {
  import opened Types
  import opened Seqs

  /** `route.stops.map(s => s.id)`. */
  function StopIds(stops: seq<BusStop>): (ids: seq<string>)
    ensures |ids| == |stops|
    ensures forall i :: 0 <= i < |stops| ==> ids[i] == stops[i].id
  {
    seq(|stops|, i requires 0 <= i < |stops| => stops[i].id)
  }

  /** `stops.find(s => s.id === id)`. */
  function FindStop(stops: seq<BusStop>, id: string): (r: Option<BusStop>)
    ensures r.None? <==> forall i :: 0 <= i < |stops| ==> stops[i].id != id
    ensures r.Some? ==> exists j :: 0 <= j < |stops| && stops[j] == r.value && r.value.id == id &&
                                    forall k :: 0 <= k < j ==> stops[k].id != id
  {
    Find(stops, (s: BusStop) => s.id == id)
  }

  /** `routes.find(r => r.id === id)`. */
  function FindRoute(routes: seq<Route>, id: string): (r: Option<Route>)
    ensures r.None? <==> forall i :: 0 <= i < |routes| ==> routes[i].id != id
    ensures r.Some? ==> exists j :: 0 <= j < |routes| && routes[j] == r.value && r.value.id == id &&
                                    forall k :: 0 <= k < j ==> routes[k].id != id
  {
    Find(routes, (x: Route) => x.id == id)
  }

  /** `drivers.find(d => d.id === id)`. */
  function FindDriver(drivers: seq<Driver>, id: string): (r: Option<Driver>)
    ensures r.None? <==> forall i :: 0 <= i < |drivers| ==> drivers[i].id != id
    ensures r.Some? ==> exists j :: 0 <= j < |drivers| && drivers[j] == r.value && r.value.id == id &&
                                    forall k :: 0 <= k < j ==> drivers[k].id != id
  {
    Find(drivers, (d: Driver) => d.id == id)
  }

  /** `buses.find(b => b.id === id)`. */
  function FindBus(buses: seq<Bus>, id: string): (r: Option<Bus>)
    ensures r.None? <==> forall i :: 0 <= i < |buses| ==> buses[i].id != id
    ensures r.Some? ==> exists j :: 0 <= j < |buses| && buses[j] == r.value && r.value.id == id &&
                                   forall k :: 0 <= k < j ==> buses[k].id != id
  {
    Find(buses, (b: Bus) => b.id == id)
  }

  /** `buses.filter(b => b.status === s)`. */
  function BusesWithStatus(buses: seq<Bus>, s: BusStatus): (r: seq<Bus>)
    ensures forall i :: 0 <= i < |r| ==> r[i].status == s && r[i] in buses
    ensures forall i :: 0 <= i < |buses| && buses[i].status == s ==> buses[i] in r
  {
    Filter(buses, (b: Bus) => b.status == s)
  }

  /** Every bus has exactly one of the four statuses, so the four counts add up to the fleet. */
  lemma {:induction false} BusStatusPartition(buses: seq<Bus>)
    ensures |BusesWithStatus(buses, Running)| + |BusesWithStatus(buses, Scheduled)| +
            |BusesWithStatus(buses, Breakdown)| + |BusesWithStatus(buses, Delayed)| == |buses|
  {
    if buses != [] {
      BusStatusPartition(buses[1..]);
    }
  }

  /** `grievances.filter(g => g.status === s)`. */
  function GrievancesWithStatus(gs: seq<Grievance>, s: GrievanceStatus): (r: seq<Grievance>)
    ensures forall i :: 0 <= i < |r| ==> r[i].status == s && r[i] in gs
    ensures forall i :: 0 <= i < |gs| && gs[i].status == s ==> gs[i] in r
  {
    Filter(gs, (g: Grievance) => g.status == s)
  }

  lemma {:induction false} GrievanceStatusPartition(gs: seq<Grievance>)
    ensures |GrievancesWithStatus(gs, Open)| + |GrievancesWithStatus(gs, InProgress)| +
            |GrievancesWithStatus(gs, Resolved)| + |GrievancesWithStatus(gs, Closed)| == |gs|
  {
    if gs != [] {
      GrievanceStatusPartition(gs[1..]);
    }
  }
}
