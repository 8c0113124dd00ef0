// The hardcoded dataset every screen renders (src/data/mockData.ts), with the
// referential and bound invariants that hold of it.

module MockData {
  import opened Types
  import opened Seqs
  import opened Queries

  const MockStops: seq<BusStop> := [
    BusStop("1", "City Center", 40.7128, -74.0060, ["101", "102"], Covered),
    BusStop("2", "Railway Station", 40.7580, -73.9855, ["101", "103"], ToBeCovered),
    BusStop("3", "Hospital", 40.7489, -73.9680, ["102", "103"], Covered),
    BusStop("4", "University", 40.7282, -73.9942, ["101", "102"], ToBeCovered),
    BusStop("5", "Shopping Mall", 40.7349, -74.0020, ["102", "103"], Covered),
    BusStop("6", "Airport", 40.6892, -74.1745, ["103"], ToBeCovered)
  ]

  const MockRoutes: seq<Route> := [
    Route("101", "101", "City Center - University",
          [MockStops[0], MockStops[1], MockStops[3]], "06:00", "22:00", 15, 250, 12.5),
    Route("102", "102", "Hospital - Shopping Mall",
          [MockStops[2], MockStops[0], MockStops[4], MockStops[3]], "05:30", "23:00", 20, 300, 18.2),
    Route("103", "103", "Railway - Airport Express",
          [MockStops[1], MockStops[2], MockStops[4], MockStops[5]], "05:00", "23:30", 30, 500, 28.7)
  ]

  const MockDrivers: seq<Driver> := [
    Driver("1", "John Smith", "+1234567890", "DL123456", 48, 95, 1240),
    Driver("2", "Maria Garcia", "+1234567891", "DL123457", 49, 97, 980),
    Driver("3", "David Johnson", "+1234567892", "DL123458", 46, 92, 1580),
    Driver("4", "Sarah Wilson", "+1234567893", "DL123459", 47, 94, 760)
  ]

  const MockBuses: seq<Bus> := [
    Bus("1", "BT-101-A", "101", "1", 40.7128, -74.0060, 25, Running, 18, 50, "2", 8),
    Bus("2", "BT-102-B", "102", "2", 40.7489, -73.9680, 0, Breakdown, 12, 50, "1", 0),
    Bus("3", "BT-103-C", "103", "3", 40.7580, -73.9855, 35, Delayed, 32, 60, "3", 12)
  ]

  const MockGrievances: seq<Grievance> := [
    Grievance("1", "user1", "Bus 101-A arrived 15 minutes late",
              "The bus was consistently late for the past week during morning hours.",
              Delay, Open, Medium, "2024-01-15T08:30:00", None),
    Grievance("2", "user2", "Driver behavior - Route 102",
              "Driver was using phone while driving and skipped a bus stop.",
              DriverBehavior, InProgress, High, "2024-01-14T16:45:00", Some("supervisor1")),
    Grievance("3", "user3", "Bus condition poor - AC not working",
              "Air conditioning system in bus 103-C has not been working for several days.",
              BusCondition, Resolved, Medium, "2024-01-12T11:20:00", None)
  ]

  const MockUsers: seq<User> := [
    User("user1", "Alice Johnson", "alice@example.com", Commuter, Some("+1234567890"),
         Some([EmergencyContact("1", "Bob Johnson", "+1234567891", "Spouse")])),
    User("admin1", "Admin User", "admin@boltransit.com", SuperAdmin, None, None),
    User("municipal1", "Municipal Admin", "municipal@city.gov", MunicipalAdmin, None, None)
  ]

  /** Stop ids are unique. */
  lemma StopIdsUnique()
    ensures Distinct(StopIds(MockStops))
  {
    assert StopIds(MockStops) == ["1", "2", "3", "4", "5", "6"];
  }

  /** Every route visits at least one stop and no stop twice. */
  lemma RouteStopsWellFormed()
    ensures forall i :: 0 <= i < |MockRoutes| ==>
              |MockRoutes[i].stops| > 0 && Distinct(StopIds(MockRoutes[i].stops))
  {
    assert StopIds(MockRoutes[0].stops) == ["1", "2", "4"];
    assert StopIds(MockRoutes[1].stops) == ["3", "1", "5", "4"];
    assert StopIds(MockRoutes[2].stops) == ["2", "3", "5", "6"];
  }

  /** Each stop's `routes` list names exactly the routes whose stop sequence contains it. */
  lemma StopRoutesConsistent()
    ensures forall i, j :: 0 <= i < |MockStops| && 0 <= j < |MockRoutes| ==>
              (MockRoutes[j].id in MockStops[i].routes <==> MockStops[i].id in StopIds(MockRoutes[j].stops))
  {
    assert StopIds(MockRoutes[0].stops) == ["1", "2", "4"];
    assert StopIds(MockRoutes[1].stops) == ["3", "1", "5", "4"];
    assert StopIds(MockRoutes[2].stops) == ["2", "3", "5", "6"];
  }

  /** Every bus has room and carries no more passengers than it has room for. */
  lemma BusLoadsBounded()
    ensures forall i :: 0 <= i < |MockBuses| ==>
              MockBuses[i].capacity > 0 && 0 <= MockBuses[i].passengers <= MockBuses[i].capacity
  {
  }

  /** The broken-down bus stands still and has no arrival estimate. */
  lemma BreakdownBusStopped()
    ensures forall i :: 0 <= i < |MockBuses| && MockBuses[i].status == Breakdown ==>
              MockBuses[i].speed == 0 && MockBuses[i].eta == 0
  {
  }

  /** The bus's route, driver and next stop all exist, and the next stop lies on the bus's own route. */
  ghost predicate ReferencesResolve(b: Bus) {
    FindRoute(MockRoutes, b.routeId).Some? &&
    FindDriver(MockDrivers, b.driverId).Some? &&
    FindStop(MockStops, b.nextStopId).Some? &&
    b.nextStopId in StopIds(FindRoute(MockRoutes, b.routeId).value.stops)
  }

  lemma FirstBusReferencesResolve()
    ensures ReferencesResolve(MockBuses[0])
  {
    assert FindRoute(MockRoutes, "101") == Some(MockRoutes[0]);
    assert FindDriver(MockDrivers, "1") == Some(MockDrivers[0]);
    assert FindStop(MockStops, "2") == Some(MockStops[1]);
    assert StopIds(MockRoutes[0].stops)[1] == "2";
  }

  lemma SecondBusReferencesResolve()
    ensures ReferencesResolve(MockBuses[1])
  {
    assert MockRoutes[0].id != "102";
    assert FindRoute(MockRoutes, "102") == Some(MockRoutes[1]);
    assert FindDriver(MockDrivers, "2") == Some(MockDrivers[1]);
    assert FindStop(MockStops, "1") == Some(MockStops[0]);
    assert StopIds(MockRoutes[1].stops)[1] == "1";
  }

  lemma ThirdBusReferencesResolve()
    ensures ReferencesResolve(MockBuses[2])
  {
    assert MockRoutes[0].id != "103" && MockRoutes[1].id != "103";
    assert FindRoute(MockRoutes, "103") == Some(MockRoutes[2]);
    assert FindDriver(MockDrivers, "3") == Some(MockDrivers[2]);
    assert FindStop(MockStops, "3") == Some(MockStops[2]);
    assert StopIds(MockRoutes[2].stops)[1] == "3";
  }

  /** Every bus's route, driver and next stop exist, and the next stop lies on the bus's own route. */
  lemma BusReferencesResolve()
    ensures forall i :: 0 <= i < |MockBuses| ==> ReferencesResolve(MockBuses[i])
  {
    forall i | 0 <= i < |MockBuses| ensures ReferencesResolve(MockBuses[i]) {
      if i == 0 {
        FirstBusReferencesResolve();
      } else if i == 1 {
        SecondBusReferencesResolve();
      } else {
        ThirdBusReferencesResolve();
      }
    }
  }
}
