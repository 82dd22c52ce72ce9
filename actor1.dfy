/**
 * ScheduleAdherenceActor1: one message handler per message kind, all working
 * on four instance fields that live as long as the actor: the trip, the
 * route, the stop-time list (all three null at first) and the passenger
 * count. Null is None here. A handler returns what it published, or the fault
 * it threw; when it throws, the fields are left as they were at the throw.
 */
module Actor1 {
  import opened Domain
  import StopDistance

  class ScheduleAdherenceActor1 {
    var trip: Option<Trip>
    var route: Option<Route>
    var stopTimes: Option<seq<StopTime>>
    var passengerCount: int

    /**
     * The count is never negative; a trip is only ever set after the
     * stop-time list, and a route only after a trip.
     */
    ghost predicate Valid()
      reads this
    {
      && passengerCount >= 0
      && (trip.Some? ==> stopTimes.Some?)
      && (route.Some? ==> trip.Some?)
    }

    constructor ()
      ensures Valid()
      ensures trip == None && route == None && stopTimes == None && passengerCount == 0
    {
      trip := None;
      route := None;
      stopTimes := None;
      passengerCount := 0;
    }

    /**
     * SumDistances() over the fields: the route's stops are indexed first
     * (a null route throws), then the stop-time list is read (a null list
     * throws); otherwise it is the distance of the stop named by the last
     * stop time, or 0 when the list is empty.
     */
    function SumDistances(): (r: Result<real>)
      reads this
      ensures route.None? ==> r == Failure(NullRoute)
      ensures route.Some? && stopTimes.None? ==> r.Failure?
      ensures r.Success? <==>
        && route.Some? && stopTimes.Some?
        && StopDistance.DistinctIds(route.value.stops)
        && StopDistance.AllOnRoute(route.value.stops, stopTimes.value)
      ensures r.Success? && stopTimes.value == [] ==> r.value == 0.0
      ensures r.Success? && stopTimes.value != [] ==>
        var last := stopTimes.value[|stopTimes.value| - 1];
        StopDistance.HasStop(route.value.stops, last.stopId) &&
        r.value == StopDistance.DistanceOf(route.value.stops, last.stopId)
    {
      if route.None? then Failure(NullRoute)
      else if stopTimes.None? then
        match StopDistance.StopsById(route.value.stops)
        case Failure(f) => Failure(f)
        case Success(_) => Failure(NullStopTimes)
      else StopDistance.SumDistances(route.value, stopTimes.value)
    }

    /**
     * A VehicleRouteStatus. OnRoute always replaces the stop-time list with an
     * empty one, and only with a trip id overwrites the trip and then the route.
     * NoRoute does nothing while the trip is null; otherwise it publishes one
     * trip execution for the trip held and clears nothing.
     */
    method ReceiveStatus(msg: VehicleRouteStatus, clients: Clients) returns (r: Result<seq<TripExecution>>)
      requires Valid()
      modifies this
      ensures Valid()
      ensures passengerCount == old(passengerCount)
      ensures msg.state == OnRoute ==> stopTimes == Some([])
      ensures msg.state == OnRoute && msg.tripId.None? ==>
        trip == old(trip) && route == old(route) && r == Success([])
      ensures msg.state == OnRoute && msg.tripId.Some? && msg.tripId.value !in clients.trips ==>
        trip == old(trip) && route == old(route) && r == Failure(TripNotFound(msg.tripId.value))
      ensures msg.state == OnRoute && msg.tripId.Some? && msg.tripId.value in clients.trips ==>
        var fetched := clients.trips[msg.tripId.value];
        && trip == Some(fetched)
        && (fetched.routeId in clients.routes ==> route == Some(clients.routes[fetched.routeId]) && r == Success([]))
        && (fetched.routeId !in clients.routes ==> route == old(route) && r == Failure(RouteNotFound(fetched.routeId)))
      ensures msg.state == NoRoute ==>
        trip == old(trip) && route == old(route) && stopTimes == old(stopTimes)
      ensures msg.state == NoRoute && old(trip).None? ==> r == Success([])
      ensures msg.state == NoRoute && old(trip).Some? ==>
        match old(SumDistances())
        case Success(distance) => r == Success([TripExecution(old(trip).value.tripId, distance)])
        case Failure(f) => r == Failure(f)
    {
      if msg.state == OnRoute {
        stopTimes := Some([]);
        if msg.tripId.Some? {
          if msg.tripId.value !in clients.trips {
            return Failure(TripNotFound(msg.tripId.value));
          }
          trip := Some(clients.trips[msg.tripId.value]);
          if trip.value.routeId !in clients.routes {
            return Failure(RouteNotFound(trip.value.routeId));
          }
          route := Some(clients.routes[trip.value.routeId]);
        }
        r := Success([]);
      } else {
        if trip.None? {
          return Success([]);
        }
        var distance := SumDistances();
        if distance.Failure? {
          return Failure(distance.fault);
        }
        r := Success([TripExecution(trip.value.tripId, distance.value)]);
      }
    }

    /**
     * A StopTime: appended to the list, and the passenger count moved by the
     * boardings and alightings and clamped at zero; the count is never reset
     * between trips. Before any OnRoute the list is null and the handler throws.
     */
    method ReceiveStopTime(msg: StopTime) returns (r: Result<seq<TripExecution>>)
      requires Valid()
      modifies this
      ensures Valid()
      ensures trip == old(trip) && route == old(route)
      ensures old(stopTimes).None? ==>
        r == Failure(NullStopTimes) && stopTimes == None && passengerCount == old(passengerCount)
      ensures old(stopTimes).Some? ==>
        && r == Success([])
        && stopTimes == Some(old(stopTimes).value + [msg])
        && passengerCount == Board(old(passengerCount), msg)
    {
      if stopTimes.None? {
        return Failure(NullStopTimes);
      }
      stopTimes := Some(stopTimes.value + [msg]);
      passengerCount := Board(passengerCount, msg);
      r := Success([]);
    }
  }

  /** What a handler result adds to the event stream. */
  function Events(r: Result<seq<TripExecution>>): seq<TripExecution> {
    if r.Success? then r.value else []
  }

  /**
   * The repository's test, which runs against this actor: route 2 with stops
   * (1, 10) and (2, 20); OnRoute(trip 1), StopTime(stop 1), StopTime(stop 2),
   * NoRoute publishes exactly one trip execution, of 20 meters, for trip 1.
   */
  method TestScenario(route: Route, clients: Clients, assignment: VehicleRouteStatus, first: StopTime, second: StopTime,
                      unassignment: VehicleRouteStatus)
    returns (published: seq<TripExecution>)
    requires route == Route(2, [Stop(1, 10.0), Stop(2, 20.0)], 100.0)
    requires clients == Clients(map[1 := Trip(1, 2)], map[2 := route])
    requires assignment == VehicleRouteStatus(4, 3, Some(2), Some(1), OnRoute)
    requires first == StopTime(1, 2, 0, 0) && second == StopTime(2, 2, 0, 0)
    requires unassignment == VehicleRouteStatus(4, 3, Some(2), Some(1), NoRoute)
    ensures published == [TripExecution(1, 20.0)]
  {
    var actor;
    actor, published := TestTripStart(route, clients, assignment, first, second);
    StopDistance.TestRouteDistance(route, first, second);
    assert actor.SumDistances() == Success(20.0);
    var r := actor.ReceiveStatus(unassignment, clients);
    published := published + Events(r);
  }

  /** The first three messages of TestScenario: a trip start and two stop times, publishing nothing. */
  method TestTripStart(route: Route, clients: Clients, assignment: VehicleRouteStatus, first: StopTime, second: StopTime)
    returns (actor: ScheduleAdherenceActor1, published: seq<TripExecution>)
    requires route == Route(2, [Stop(1, 10.0), Stop(2, 20.0)], 100.0)
    requires clients == Clients(map[1 := Trip(1, 2)], map[2 := route])
    requires assignment == VehicleRouteStatus(4, 3, Some(2), Some(1), OnRoute)
    ensures fresh(actor) && actor.Valid()
    ensures actor.trip == Some(Trip(1, 2)) && actor.route == Some(route) && actor.stopTimes == Some([first, second])
    ensures published == []
  {
    assert [] + [first] == [first];
    assert [first] + [second] == [first, second];
    actor := new ScheduleAdherenceActor1();
    var r := actor.ReceiveStatus(assignment, clients);
    published := Events(r);
    assert r == Success([]) && actor.trip == Some(Trip(1, 2)) && actor.route == Some(route);
    r := actor.ReceiveStopTime(first);
    published := published + Events(r);
    r := actor.ReceiveStopTime(second);
    published := published + Events(r);
  }

  /**
   * The stale-state bug: after a complete trip with a trip id, an OnRoute
   * without a trip id and a NoRoute publish a second trip execution for the
   * same trip, computed over the new stop times against the old route.
   */
  method StaleTripRepublished(clients: Clients, start: VehicleRouteStatus, reassign: VehicleRouteStatus,
                              end: VehicleRouteStatus, st: StopTime, j: nat)
    returns (first: seq<TripExecution>, second: seq<TripExecution>)
    requires start.state == OnRoute && start.tripId.Some? && start.tripId.value in clients.trips
    requires clients.trips[start.tripId.value].routeId in clients.routes
    requires StopDistance.DistinctIds(clients.routes[clients.trips[start.tripId.value].routeId].stops)
    requires reassign.state == OnRoute && reassign.tripId.None?
    requires end.state == NoRoute
    requires
      var stops := clients.routes[clients.trips[start.tripId.value].routeId].stops;
      j < |stops| && stops[j].stopId == st.stopId
    ensures
      var trip := clients.trips[start.tripId.value];
      var stops := clients.routes[trip.routeId].stops;
      && first == [TripExecution(trip.tripId, 0.0)]
      && second == [TripExecution(trip.tripId, stops[j].distanceAlongRoute)]
  {
    var actor := new ScheduleAdherenceActor1();
    var r := actor.ReceiveStatus(start, clients);
    var route := actor.route.value;
    assert StopDistance.SumDistances(route, []) == Success(0.0);
    r := actor.ReceiveStatus(end, clients);
    first := Events(r);
    r := actor.ReceiveStatus(reassign, clients);
    r := actor.ReceiveStopTime(st);
    StopDistance.AppendStop(route, [], st, j);
    assert actor.stopTimes.value == [] + [st];
    r := actor.ReceiveStatus(end, clients);
    second := Events(r);
  }
}
