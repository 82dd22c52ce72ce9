/**
 * The values exchanged by the schedule-adherence actors: the trip and route
 * metadata fetched from the lookup clients, the two kinds of message an actor
 * consumes, the event it publishes, and the faults a handler can raise.
 * The shapes follow how the repository constructs them in its test
 * (Trip(tripId, routeId), Stop(stopId, distanceAlongRoute),
 * Route(routeId, stops, routeDistance), ...).
 */
module Domain {

  type TripId = int
  type RouteId = int
  type StopId = int

  /** The optional fields of a status message (an F# option in the source). */
  datatype Option<+T> = None | Some(value: T)

  /** The exceptions a handler can throw; each one ends normal handling. */
  datatype Fault =
    | TripNotFound(tripId: TripId)      // the trip client cannot produce the trip
    | RouteNotFound(routeId: RouteId)   // the route client cannot produce the route
    | DuplicateStopId(stopId: StopId)   // ToDictionary meets a stop id twice
    | UnknownStopId(stopId: StopId)     // the dictionary indexer misses a stop id
    | NullRoute                         // a null route is dereferenced
    | NullStopTimes                     // a null stop-time list is used
    | InvalidStateDataCast              // the FSM state data has the wrong type

  /** Either a value or the fault that was thrown instead. */
  datatype Result<+T> = Success(value: T) | Failure(fault: Fault) {
    predicate IsFailure() {
      Failure?
    }

    function PropagateFailure<U>(): Result<U>
      requires Failure?
    {
      Failure(fault)
    }

    function Extract(): T
      requires Success?
    {
      value
    }
  }

  datatype Trip = Trip(tripId: TripId, routeId: RouteId)

  /** Distances are doubles in the source; they are only selected, never computed with. */
  datatype Stop = Stop(stopId: StopId, distanceAlongRoute: real)

  datatype Route = Route(routeId: RouteId, stops: seq<Stop>, routeDistance: real)

  datatype VehicleRouteState = OnRoute | NoRoute

  datatype VehicleRouteStatus = VehicleRouteStatus(
    vehicleId: int,
    driverId: int,
    routeId: Option<RouteId>,
    tripId: Option<TripId>,
    state: VehicleRouteState)

  datatype StopTime = StopTime(stopId: StopId, routeId: RouteId, passengerOn: int, passengerOff: int)

  /** The event published when a trip ends. */
  datatype TripExecution = TripExecution(tripId: TripId, totalDistanceMeters: real)

  /** What an actor's mailbox delivers: one of the two message kinds. */
  datatype Message = Status(status: VehicleRouteStatus) | Passage(stopTime: StopTime)

  /**
   * The trip and route clients, as the lookups they answer. A key that is
   * missing stands for a lookup that fails (not found or transport error).
   */
  datatype Clients = Clients(trips: map<TripId, Trip>, routes: map<RouteId, Route>)

  /** The state an actor is left in after one message, and what it published. */
  datatype Reaction<S> = Reaction(state: S, published: seq<TripExecution>)

  /** The mailbox: messages handled one at a time by a step, publications in order. */
  function Mailbox<S>(step: (S, Message) -> Reaction<S>, s: S, msgs: seq<Message>): Reaction<S> {
    if msgs == [] then Reaction(s, [])
    else
      var before := Mailbox(step, s, msgs[..|msgs| - 1]);
      var after := step(before.state, msgs[|msgs| - 1]);
      Reaction(after.state, before.published + after.published)
  }

  /** Running two batches of messages is running their concatenation. */
  lemma {:induction false} MailboxAppend<S>(step: (S, Message) -> Reaction<S>, s: S, xs: seq<Message>, ys: seq<Message>)
    ensures Mailbox(step, s, xs + ys) ==
      var first := Mailbox(step, s, xs);
      var second := Mailbox(step, first.state, ys);
      Reaction(second.state, first.published + second.published)
  {
    if ys == [] {
      assert xs + ys == xs;
    } else {
      var zs, front, last := xs + ys, ys[..|ys| - 1], ys[|ys| - 1];
      assert zs[..|zs| - 1] == xs + front;
      MailboxAppend(step, s, xs, front);
    }
  }

  /** An OnRoute status that carries a trip id: the only message that starts a trip. */
  predicate StartsTrip(msg: Message) {
    msg.Status? && msg.status.state == OnRoute && msg.status.tripId.Some?
  }

  /** A NoRoute status: the message that ends a trip. */
  predicate EndsTrip(msg: Message) {
    msg.Status? && msg.status.state == NoRoute
  }

  /**
   * Fetch the trip, then the route named by the trip's route id, as every
   * actor does on a trip start.
   */
  function FetchTripAndRoute(clients: Clients, tripId: TripId): (r: Result<(Trip, Route)>)
    ensures r.Success? <==> tripId in clients.trips && clients.trips[tripId].routeId in clients.routes
    ensures r.Success? ==> r.value.0 == clients.trips[tripId] && r.value.1 == clients.routes[r.value.0.routeId]
    ensures tripId !in clients.trips ==> r == Failure(TripNotFound(tripId))
    ensures tripId in clients.trips && r.Failure? ==> r == Failure(RouteNotFound(clients.trips[tripId].routeId))
  {
    if tripId !in clients.trips then Failure(TripNotFound(tripId))
    else
      var trip := clients.trips[tripId];
      if trip.routeId !in clients.routes then Failure(RouteNotFound(trip.routeId))
      else Success((trip, clients.routes[trip.routeId]))
  }

  /**
   * The running passenger count after a stop: boardings added, alightings
   * taken away, and a deficit clamped to zero.
   */
  function Board(count: int, stopTime: StopTime): (r: int)
    ensures r >= 0
    ensures r >= count + stopTime.passengerOn - stopTime.passengerOff
    ensures r == count + stopTime.passengerOn - stopTime.passengerOff || r == 0
  {
    var updated := count + stopTime.passengerOn - stopTime.passengerOff;
    if updated < 0 then 0 else updated
  }

  /** The count after a whole sequence of stops, in order. */
  function BoardAll(count: int, stopTimes: seq<StopTime>): int
  {
    if stopTimes == [] then count
    else Board(BoardAll(count, stopTimes[..|stopTimes| - 1]), stopTimes[|stopTimes| - 1])
  }

  /** The stop times among a sequence of messages, in arrival order. */
  function StopTimesOf(msgs: seq<Message>): seq<StopTime>
  {
    if msgs == [] then []
    else
      var last := msgs[|msgs| - 1];
      StopTimesOf(msgs[..|msgs| - 1]) + (if last.Passage? then [last.stopTime] else [])
  }

  /** One more message adds its stop time, if it carries one, at the end. */
  lemma StopTimesOfAppend(msgs: seq<Message>, msg: Message)
    ensures StopTimesOf(msgs + [msg]) == StopTimesOf(msgs) + (if msg.Passage? then [msg.stopTime] else [])
  {
    assert (msgs + [msg])[..|msgs|] == msgs;
  }

  /** One more stop applies its passenger delta, with the clamp, to the count so far. */
  lemma BoardAllAppend(count: int, stopTimes: seq<StopTime>, stopTime: StopTime)
    ensures BoardAll(count, stopTimes + [stopTime]) == Board(BoardAll(count, stopTimes), stopTime)
  {
    assert (stopTimes + [stopTime])[..|stopTimes|] == stopTimes;
  }
}
