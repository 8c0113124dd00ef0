// What the screens show for the built-in dataset (src/data/mockData.ts): the
// trip planner's results, the fare and occupancy figures, the statistics
// panels and the average route frequency.

module Scenarios {
  import opened Types
  import opened Seqs
  import opened Queries
  import opened MockData
  import TripPlanner
  import FleetManagement
  import GrievanceManagement
  import RouteManagement

  /** City Center to University: routes 101 and 102 both serve it, in that order. */
  lemma CityCenterToUniversity()
    ensures TripPlanner.FindDirectRoutes(MockRoutes, "1", "4") == [MockRoutes[0], MockRoutes[1]]
  {
    FirstRoutesConnect();
    ThirdRouteMissesCityCenter();
    assert MockRoutes == [MockRoutes[0], MockRoutes[1], MockRoutes[2]];
    FilterKeepsFirstTwo(MockRoutes[0], MockRoutes[1], MockRoutes[2],
                        (route: Route) => TripPlanner.ConnectsInOrder(route, "1", "4"));
  }

  lemma FirstRoutesConnect()
    ensures TripPlanner.ConnectsInOrder(MockRoutes[0], "1", "4")
    ensures TripPlanner.ConnectsInOrder(MockRoutes[1], "1", "4")
  {
    var ids0, ids1 := StopIds(MockRoutes[0].stops), StopIds(MockRoutes[1].stops);
    assert ids0 == ["1", "2", "4"] && ids1 == ["3", "1", "5", "4"];
    assert IndexOf(ids0, "1") == 0 && IndexOf(ids0, "4") == 2;
    assert ids1[..1] == ["3"] && ids1[..3] == ["3", "1", "5"];
    assert IndexOf(ids1, "1") == 1 && IndexOf(ids1, "4") == 3;
  }

  lemma ThirdRouteMissesCityCenter()
    ensures IndexOf(StopIds(MockRoutes[2].stops), "1") == -1
    ensures !TripPlanner.ConnectsInOrder(MockRoutes[2], "1", "4")
    ensures !TripPlanner.ConnectsInOrder(MockRoutes[2], "4", "1")
  {
    assert StopIds(MockRoutes[2].stops) == ["2", "3", "5", "6"];
  }

  lemma FilterKeepsFirstTwo<T>(a: T, b: T, c: T, p: T -> bool)
    requires p(a) && p(b) && !p(c)
    ensures Filter([a, b, c], p) == [a, b]
  {
    assert [a, b, c][1..] == [b, c] && [b, c][1..] == [c] && [c][1..] == [];
    assert Filter([c], p) == Filter([], p) == [];
    assert Filter([b, c], p) == [b] + Filter([c], p) == [b];
    assert Filter([a, b, c], p) == [a] + Filter([b, c], p);
  }

  /** University to City Center: no route runs that way. */
  lemma UniversityToCityCenter()
    ensures TripPlanner.FindDirectRoutes(MockRoutes, "4", "1") == []
  {
    FirstRoutesConnect();
    ThirdRouteMissesCityCenter();
    OneWay(MockRoutes[0], "1", "4");
    OneWay(MockRoutes[1], "1", "4");
    NoneConnect(MockRoutes[0], MockRoutes[1], MockRoutes[2], "4", "1");
    assert MockRoutes == [MockRoutes[0], MockRoutes[1], MockRoutes[2]];
  }

  lemma NoneConnect(a: Route, b: Route, c: Route, fromId: string, toId: string)
    requires !TripPlanner.ConnectsInOrder(a, fromId, toId)
    requires !TripPlanner.ConnectsInOrder(b, fromId, toId)
    requires !TripPlanner.ConnectsInOrder(c, fromId, toId)
    ensures TripPlanner.FindDirectRoutes([a, b, c], fromId, toId) == []
  {
    FilterNone([a, b, c], (route: Route) => TripPlanner.ConnectsInOrder(route, fromId, toId));
  }

  lemma OneWay(route: Route, a: string, b: string)
    requires TripPlanner.ConnectsInOrder(route, a, b)
    ensures !TripPlanner.ConnectsInOrder(route, b, a)
  {
  }

  /** The estimated fares of the three routes: $2.00, $2.40 and $4.00. */
  lemma MockFares()
    ensures TripPlanner.EstimatedFare(MockRoutes[0]) == 200
    ensures TripPlanner.EstimatedFare(MockRoutes[1]) == 240
    ensures TripPlanner.EstimatedFare(MockRoutes[2]) == 400
  {
  }

  /** The occupancy bars of the three buses: 36 %, 24 % and 53 %. */
  lemma MockOccupancy()
    ensures FleetManagement.Occupancy(MockBuses[0]) == Some(36)
    ensures FleetManagement.Occupancy(MockBuses[1]) == Some(24)
    ensures FleetManagement.Occupancy(MockBuses[2]) == Some(53)
  {
  }

  /** One bus of each shown status: one running, one delayed, one broken down. */
  lemma MockFleetStatistics()
    ensures FleetManagement.FleetStatistics(MockBuses) == FleetManagement.FleetStats(3, 1, 1, 1)
  {
    FleetManagement.FleetStatisticsAccount(MockBuses);
    assert MockBuses[1..][1..] == [MockBuses[2]];
  }

  /** Driver 1 drives BT-101-A on route 101; driver 4 has no bus. */
  lemma MockDuties()
    ensures FleetManagement.DriverDuty(MockBuses, MockRoutes, MockDrivers[0]) == FleetManagement.Driving("BT-101-A", "101")
    ensures FleetManagement.DriverDuty(MockBuses, MockRoutes, MockDrivers[3]) == FleetManagement.OffDuty
  {
    FirstDriverOnFirstBus();
    assert FindRoute(MockRoutes, MockBuses[0].routeId) == Some(MockRoutes[0]);
    FleetManagement.UnassignedDriverOffDuty(MockBuses, MockRoutes, MockDrivers[3]);
  }

  lemma FirstDriverOnFirstBus()
    ensures FleetManagement.AssignedBus(MockBuses, MockDrivers[0]) == Some(MockBuses[0])
  {
    assert MockBuses[0].driverId == MockDrivers[0].id;
  }

  /** The grievance filter buttons: 3 in all, one open, one in progress, one resolved, none closed. */
  lemma MockGrievanceCounts()
    ensures GrievanceManagement.CountStatuses(MockGrievances) == GrievanceManagement.StatusCounts(3, 1, 1, 1, 0)
  {
    assert MockGrievances[1..][1..] == [MockGrievances[2]];
  }

  /** Frequencies 15, 20 and 30 minutes average to 21.67, displayed as 22. */
  lemma MockAverageFrequency()
    ensures RouteManagement.AverageFrequency(MockRoutes) == Some(22)
  {
    assert MockRoutes == [MockRoutes[0], MockRoutes[1], MockRoutes[2]];
    FrequencySumOfThree(MockRoutes[0], MockRoutes[1], MockRoutes[2]);
  }

  lemma FrequencySumOfThree(a: Route, b: Route, c: Route)
    ensures RouteManagement.FrequencySum([a, b, c]) == a.frequency + b.frequency + c.frequency
  {
    assert [a, b, c][..2] == [a, b] && [a, b][..1] == [a] && [a][..0] == [];
    assert RouteManagement.FrequencySum([a]) == RouteManagement.FrequencySum([]) + a.frequency == a.frequency;
    assert RouteManagement.FrequencySum([a, b]) == RouteManagement.FrequencySum([a]) + b.frequency;
    assert RouteManagement.FrequencySum([a, b, c]) == RouteManagement.FrequencySum([a, b]) + c.frequency;
  }
}
