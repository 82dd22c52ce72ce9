/**
 * ScheduleAdherenceActor2: explicit Become transitions between two
 * behaviours, with the per-trip data scoped to the behaviour.
 *
 * WaitingForTrip(passengerCount) handles only VehicleRouteStatus: an OnRoute
 * with a trip id fetches the trip, then its route, and becomes
 * CollectingTripData. CollectingTripData(passengerCount, trip, route) owns
 * two closure locals, the stop-time list and the updated passenger count,
 * created afresh each time the behaviour is entered; a StopTime appends to
 * the one and clamps the other, a NoRoute publishes the trip execution and
 * becomes WaitingForTrip with the updated count.
 *
 * A behaviour with its closure locals is a value of Behaviour; the mailbox is
 * a sequence of messages folded through Step. A handler that throws leaves the
 * actor Faulted (what the supervisor then does is not part of this model).
 */
module Actor2 {
  import opened Domain
  import opened StopDistance

  datatype Behaviour =
    | WaitingForTrip(passengerCount: int)
      /** passengerCount is the closure's updatedPassengerCount */
    | CollectingTripData(passengerCount: int, trip: Trip, route: Route, stopTimes: seq<StopTime>)
    | Faulted(fault: Fault)

  /** The constructor's Become(() => WaitingForTrip(passengerCount: 0)). */
  const Initial: Behaviour := WaitingForTrip(0)

  /** The count is never negative while the actor is running. */
  predicate CountNonNegative(b: Behaviour) {
    b.Faulted? || b.passengerCount >= 0
  }

  /** One message handled by the current behaviour. */
  function Step(b: Behaviour, msg: Message, clients: Clients): Reaction<Behaviour> {
    match b
    case Faulted(_) => Reaction(b, [])
    case WaitingForTrip(count) =>
      // a StopTime has no handler here and goes unhandled; so do NoRoute and
      // an OnRoute without a trip id, which the handler matches and ignores
      if StartsTrip(msg) then
        match FetchTripAndRoute(clients, msg.status.tripId.value)
        case Failure(f) => Reaction(Faulted(f), [])
        case Success((trip, route)) => Reaction(CollectingTripData(count, trip, route, []), [])
      else Reaction(b, [])
    case CollectingTripData(count, trip, route, stopTimes) =>
      match msg
      case Passage(st) =>
        Reaction(CollectingTripData(Board(count, st), trip, route, stopTimes + [st]), [])
      case Status(status) =>
        if status.state == NoRoute then
          match SumDistances(route, stopTimes)
          case Failure(f) => Reaction(Faulted(f), [])
          case Success(distance) =>
            Reaction(WaitingForTrip(count), [TripExecution(trip.tripId, distance)])
        else Reaction(b, [])
  }

  /** The mailbox: messages handled one at a time, publications in order. */
  function Run(b: Behaviour, msgs: seq<Message>, clients: Clients): Reaction<Behaviour> {
    Mailbox((s, msg) => Step(s, msg, clients), b, msgs)
  }

  /** The last message is handled by Step in the state the earlier ones left. */
  lemma RunLast(b: Behaviour, msgs: seq<Message>, clients: Clients)
    requires msgs != []
    ensures Run(b, msgs, clients) ==
      var before := Run(b, msgs[..|msgs| - 1], clients);
      var after := Step(before.state, msgs[|msgs| - 1], clients);
      Reaction(after.state, before.published + after.published)
  {
  }

  /** Running two batches of messages is running their concatenation. */
  lemma RunAppend(b: Behaviour, xs: seq<Message>, ys: seq<Message>, clients: Clients)
    ensures Run(b, xs + ys, clients) ==
      var first := Run(b, xs, clients);
      var second := Run(first.state, ys, clients);
      Reaction(second.state, first.published + second.published)
  {
    MailboxAppend((s, msg) => Step(s, msg, clients), b, xs, ys);
  }

  /**
   * WaitingForTrip publishes nothing, and it changes state exactly on an
   * OnRoute with a trip id: to CollectingTripData with an empty stop-time
   * list and the same count, or Faulted when a lookup fails.
   */
  lemma WaitingStep(count: int, msg: Message, clients: Clients)
    ensures Step(WaitingForTrip(count), msg, clients).published == []
    ensures Step(WaitingForTrip(count), msg, clients).state != WaitingForTrip(count) <==> StartsTrip(msg)
    ensures StartsTrip(msg) ==>
      var id := msg.status.tripId.value;
      var s := Step(WaitingForTrip(count), msg, clients).state;
      match FetchTripAndRoute(clients, id)
      case Success((trip, route)) => s == CollectingTripData(count, trip, route, [])
      case Failure(f) => s == Faulted(f)
  {
  }

  /**
   * Every entry into CollectingTripData comes from WaitingForTrip on a trip
   * start, with the fetched trip and route, an empty stop-time list and the
   * carried-in count: nothing of an earlier trip is carried in.
   */
  lemma EntryStartsAfresh(b: Behaviour, msg: Message, clients: Clients)
    requires !b.CollectingTripData?
    requires Step(b, msg, clients).state.CollectingTripData?
    ensures b.WaitingForTrip? && StartsTrip(msg)
    ensures
      var s := Step(b, msg, clients).state;
      var id := msg.status.tripId.value;
      && id in clients.trips
      && s == CollectingTripData(b.passengerCount, clients.trips[id], clients.routes[clients.trips[id].routeId], [])
  {
  }

  /**
   * In CollectingTripData: a StopTime appends and clamps the count; an OnRoute
   * changes nothing; a NoRoute publishes exactly one trip execution with the
   * distance of the stop times collected and returns to WaitingForTrip with
   * the count carried forward.
   */
  lemma CollectingStep(count: int, trip: Trip, route: Route, stopTimes: seq<StopTime>, msg: Message, clients: Clients)
    ensures
      var b := CollectingTripData(count, trip, route, stopTimes);
      var r := Step(b, msg, clients);
      && (msg.Passage? ==>
            r == Reaction(CollectingTripData(Board(count, msg.stopTime), trip, route, stopTimes + [msg.stopTime]), []))
      && (msg.Status? && msg.status.state == OnRoute ==> r == Reaction(b, []))
      && (EndsTrip(msg) && SumDistances(route, stopTimes).Success? ==>
            r == Reaction(WaitingForTrip(count), [TripExecution(trip.tripId, SumDistances(route, stopTimes).value)]))
      && (EndsTrip(msg) && SumDistances(route, stopTimes).Failure? ==>
            r == Reaction(Faulted(SumDistances(route, stopTimes).fault), []))
  {
  }

  /** From a non-negative count, the count stays non-negative whatever the stop times say. */
  lemma {:induction false} RunKeepsCountNonNegative(b: Behaviour, msgs: seq<Message>, clients: Clients)
    requires CountNonNegative(b)
    ensures CountNonNegative(Run(b, msgs, clients).state)
  {
    if msgs != [] {
      RunKeepsCountNonNegative(b, msgs[..|msgs| - 1], clients);
    }
  }

  /**
   * While no NoRoute arrives, CollectingTripData keeps its trip and route,
   * appends every stop time in order, applies every passenger delta with the
   * clamp, and publishes nothing.
   */
  lemma {:induction false} CollectingRun(count: int, trip: Trip, route: Route, stopTimes: seq<StopTime>,
                                         msgs: seq<Message>, clients: Clients)
    requires forall i :: 0 <= i < |msgs| ==> !EndsTrip(msgs[i])
    ensures Run(CollectingTripData(count, trip, route, stopTimes), msgs, clients) ==
      Reaction(CollectingTripData(BoardAll(count, StopTimesOf(msgs)), trip, route, stopTimes + StopTimesOf(msgs)), [])
  {
    if msgs == [] {
      assert stopTimes + [] == stopTimes;
    } else {
      var front, last := msgs[..|msgs| - 1], msgs[|msgs| - 1];
      assert msgs == front + [last];
      CollectingRun(count, trip, route, stopTimes, front, clients);
      RunLast(CollectingTripData(count, trip, route, stopTimes), msgs, clients);
      assert !EndsTrip(last);
      CollectingRunStep(count, trip, route, stopTimes, front, last, clients);
    }
  }

  /** The inductive step of CollectingRun: one more message that is not a NoRoute. */
  lemma CollectingRunStep(count: int, trip: Trip, route: Route, stopTimes: seq<StopTime>,
                          front: seq<Message>, last: Message, clients: Clients)
    requires !EndsTrip(last)
    ensures
      var collected := StopTimesOf(front);
      var current := CollectingTripData(BoardAll(count, collected), trip, route, stopTimes + collected);
      var all := StopTimesOf(front + [last]);
      Step(current, last, clients) ==
        Reaction(CollectingTripData(BoardAll(count, all), trip, route, stopTimes + all), [])
  {
    var collected := StopTimesOf(front);
    CollectingStep(BoardAll(count, collected), trip, route, stopTimes + collected, last, clients);
    StopTimesOfAppend(front, last);
    if last.Passage? {
      BoardAllAppend(count, collected, last.stopTime);
      assert stopTimes + (collected + [last.stopTime]) == stopTimes + collected + [last.stopTime];
    } else {
      assert collected + [] == collected;
    }
  }

  /**
   * A whole trip: a trip start, any messages without a NoRoute, then a
   * NoRoute. The actor publishes exactly one trip execution, for the fetched
   * trip, whose distance is that of the stop named by the last stop time
   * received since the trip start (0 when there was none), and it is back in
   * WaitingForTrip with the count carried forward.
   */
  lemma WholeTrip(count: int, start: Message, during: seq<Message>, end: Message, clients: Clients)
    requires StartsTrip(start) && FetchTripAndRoute(clients, start.status.tripId.value).Success?
    requires forall i :: 0 <= i < |during| ==> !EndsTrip(during[i])
    requires EndsTrip(end)
    requires
      var route := FetchTripAndRoute(clients, start.status.tripId.value).value.1;
      SumDistances(route, StopTimesOf(during)).Success?
    ensures
      var trip := clients.trips[start.status.tripId.value];
      var route := clients.routes[trip.routeId];
      var stopTimes := StopTimesOf(during);
      var distance := if stopTimes == [] then 0.0 else DistanceOf(route.stops, stopTimes[|stopTimes| - 1].stopId);
      && (stopTimes != [] ==> HasStop(route.stops, stopTimes[|stopTimes| - 1].stopId))
      && Run(WaitingForTrip(count), [start] + during + [end], clients) ==
         Reaction(WaitingForTrip(BoardAll(count, stopTimes)), [TripExecution(trip.tripId, distance)])
  {
    var trip := clients.trips[start.status.tripId.value];
    var route := clients.routes[trip.routeId];
    var stopTimes := StopTimesOf(during);
    TripUnderway(count, start, during, clients);
    var all := [start] + during + [end];
    assert all[..|all| - 1] == [start] + during && all[|all| - 1] == end;
    CollectingStep(BoardAll(count, stopTimes), trip, route, stopTimes, end, clients);
    RunLast(WaitingForTrip(count), all, clients);
  }

  /**
   * A trip start followed by messages without a NoRoute: the actor is
   * collecting for the fetched trip and route, holding exactly the stop times
   * received since the start, and has published nothing.
   */
  lemma TripUnderway(count: int, start: Message, during: seq<Message>, clients: Clients)
    requires StartsTrip(start) && FetchTripAndRoute(clients, start.status.tripId.value).Success?
    requires forall i :: 0 <= i < |during| ==> !EndsTrip(during[i])
    ensures
      var trip := clients.trips[start.status.tripId.value];
      var route := clients.routes[trip.routeId];
      var stopTimes := StopTimesOf(during);
      Run(WaitingForTrip(count), [start] + during, clients) ==
        Reaction(CollectingTripData(BoardAll(count, stopTimes), trip, route, stopTimes), [])
  {
    var trip := clients.trips[start.status.tripId.value];
    var route := clients.routes[trip.routeId];
    assert Run(WaitingForTrip(count), [start], clients) == Reaction(CollectingTripData(count, trip, route, []), []) by {
      assert [start][..0] == [];
      RunLast(WaitingForTrip(count), [start], clients);
    }
    RunAppend(WaitingForTrip(count), [start], during, clients);
    CollectingRun(count, trip, route, [], during, clients);
    assert [] + StopTimesOf(during) == StopTimesOf(during);
  }

  /**
   * Isolation between trips: whenever the actor is collecting, its stop-time
   * list holds exactly the stop times received since the trip start that
   * opened the current trip (msgs[k - 1]), no NoRoute has arrived since, and
   * that trip started from WaitingForTrip with an empty list.
   */
  lemma {:induction false} StopTimesSinceTripStart(b: Behaviour, msgs: seq<Message>, clients: Clients) returns (k: nat)
    requires !b.CollectingTripData?
    requires Run(b, msgs, clients).state.CollectingTripData?
    ensures 0 < k <= |msgs|
    ensures StartsTrip(msgs[k - 1])
    ensures Run(b, msgs[..k - 1], clients).state.WaitingForTrip?
    ensures forall i :: k <= i < |msgs| ==> !EndsTrip(msgs[i])
    ensures Run(b, msgs, clients).state.stopTimes == StopTimesOf(msgs[k..])
  {
    if msgs == [] {
      assert false;
    }
    var front, last := msgs[..|msgs| - 1], msgs[|msgs| - 1];
    var before := Run(b, front, clients).state;
    var after := Step(before, last, clients).state;
    assert Run(b, msgs, clients).state == after;
    if before.CollectingTripData? {
      k := StopTimesSinceTripStart(b, front, clients);
      CollectingExtends(b, msgs, k, clients);
    } else {
      EntryStartsAfresh(before, last, clients);
      k := |msgs|;
      assert msgs[..k - 1] == front;
      assert msgs[k..] == [];
    }
  }

  /** The inductive step of StopTimesSinceTripStart: one more message while collecting. */
  lemma CollectingExtends(b: Behaviour, msgs: seq<Message>, k: nat, clients: Clients)
    requires 0 < k < |msgs|
    requires
      var front := msgs[..|msgs| - 1];
      && StartsTrip(front[k - 1])
      && Run(b, front[..k - 1], clients).state.WaitingForTrip?
      && (forall i :: k <= i < |front| ==> !EndsTrip(front[i]))
      && Run(b, front, clients).state.CollectingTripData?
      && Run(b, front, clients).state.stopTimes == StopTimesOf(front[k..])
    requires Run(b, msgs, clients).state.CollectingTripData?
    ensures StartsTrip(msgs[k - 1])
    ensures Run(b, msgs[..k - 1], clients).state.WaitingForTrip?
    ensures forall i :: k <= i < |msgs| ==> !EndsTrip(msgs[i])
    ensures Run(b, msgs, clients).state.stopTimes == StopTimesOf(msgs[k..])
  {
    var front, last := msgs[..|msgs| - 1], msgs[|msgs| - 1];
    var before := Run(b, front, clients).state;
    assert Run(b, msgs, clients).state == Step(before, last, clients).state;
    CollectingStep(before.passengerCount, before.trip, before.route, before.stopTimes, last, clients);
    assert !EndsTrip(last);
    var since := msgs[k..];
    assert since[..|since| - 1] == front[k..] && since[|since| - 1] == last;
    assert msgs[..k - 1] == front[..k - 1];
    assert forall i :: k <= i < |msgs| ==> !EndsTrip(msgs[i]) by {
      forall i | k <= i < |msgs| - 1
        ensures !EndsTrip(msgs[i])
      {
        assert msgs[i] == front[i];
      }
    }
  }

  /** WaitingForTrip ignores every message that is not a trip start, and publishes nothing. */
  lemma {:induction false} WaitingRun(count: int, msgs: seq<Message>, clients: Clients)
    requires forall i :: 0 <= i < |msgs| ==> !StartsTrip(msgs[i])
    ensures Run(WaitingForTrip(count), msgs, clients) == Reaction(WaitingForTrip(count), [])
  {
    if msgs != [] {
      WaitingRun(count, msgs[..|msgs| - 1], clients);
      RunLast(WaitingForTrip(count), msgs, clients);
      assert !StartsTrip(msgs[|msgs| - 1]);
    }
  }

  /**
   * The stale-trip sequence that trips up the field-based actor: a complete
   * trip with a trip id, then an OnRoute without one, any messages without a
   * trip start (stop times included) and a NoRoute. This actor publishes once,
   * for the first trip only, and the later stop times change nothing.
   */
  lemma NoStaleTrip(count: int, start: Message, during: seq<Message>, end: Message,
                    reassign: Message, later: seq<Message>, clients: Clients)
    requires StartsTrip(start) && FetchTripAndRoute(clients, start.status.tripId.value).Success?
    requires forall i :: 0 <= i < |during| ==> !EndsTrip(during[i])
    requires EndsTrip(end)
    requires
      var route := FetchTripAndRoute(clients, start.status.tripId.value).value.1;
      SumDistances(route, StopTimesOf(during)).Success?
    requires reassign.Status? && reassign.status.state == OnRoute && reassign.status.tripId.None?
    requires forall i :: 0 <= i < |later| ==> !StartsTrip(later[i])
    ensures
      var trip := clients.trips[start.status.tripId.value];
      var route := clients.routes[trip.routeId];
      var stopTimes := StopTimesOf(during);
      var distance := if stopTimes == [] then 0.0 else DistanceOf(route.stops, stopTimes[|stopTimes| - 1].stopId);
      && (stopTimes != [] ==> HasStop(route.stops, stopTimes[|stopTimes| - 1].stopId))
      && Run(WaitingForTrip(count), [start] + during + [end] + [reassign] + later + [end], clients) ==
         Reaction(WaitingForTrip(BoardAll(count, stopTimes)), [TripExecution(trip.tripId, distance)])
  {
    var firstTrip, rest := [start] + during + [end], [reassign] + later + [end];
    assert firstTrip + rest == [start] + during + [end] + [reassign] + later + [end];
    WholeTrip(count, start, during, end, clients);
    var first := Run(WaitingForTrip(count), firstTrip, clients);
    NoTripStartIgnored(first.state.passengerCount, reassign, later, end, clients);
    RunAppend(WaitingForTrip(count), firstTrip, rest, clients);
    assert first.published + [] == first.published;
  }

  /** Between trips, an OnRoute without a trip id, messages without a trip start and a NoRoute are all ignored. */
  lemma NoTripStartIgnored(count: int, reassign: Message, later: seq<Message>, end: Message, clients: Clients)
    requires reassign.Status? && reassign.status.state == OnRoute && reassign.status.tripId.None?
    requires forall i :: 0 <= i < |later| ==> !StartsTrip(later[i])
    requires EndsTrip(end)
    ensures Run(WaitingForTrip(count), [reassign] + later + [end], clients) == Reaction(WaitingForTrip(count), [])
  {
    var rest := [reassign] + later + [end];
    forall i | 0 < i < |rest| - 1
      ensures !StartsTrip(rest[i])
    {
      assert rest[i] == later[i - 1];
    }
    WaitingRun(count, rest, clients);
  }

  /**
   * The repository's test scenario: route 2 with stops (1, 10) and (2, 20);
   * OnRoute(trip 1), StopTime(stop 1), StopTime(stop 2), NoRoute publishes one
   * trip execution of 20 meters for trip 1.
   */
  lemma TestScenario(route: Route, clients: Clients, assignment: Message, stopTimes: seq<Message>, unassignment: Message)
    requires route == Route(2, [Stop(1, 10.0), Stop(2, 20.0)], 100.0)
    requires clients == Clients(map[1 := Trip(1, 2)], map[2 := route])
    requires assignment == Status(VehicleRouteStatus(4, 3, Some(2), Some(1), OnRoute))
    requires unassignment == Status(VehicleRouteStatus(4, 3, Some(2), Some(1), NoRoute))
    requires stopTimes == [Passage(StopTime(1, 2, 0, 0)), Passage(StopTime(2, 2, 0, 0))]
    ensures Run(Initial, [assignment] + stopTimes + [unassignment], clients).published == [TripExecution(1, 20.0)]
  {
    assert [] + [stopTimes[0]] == [stopTimes[0]] && [stopTimes[0]] + [stopTimes[1]] == stopTimes;
    StopTimesOfAppend([], stopTimes[0]);
    StopTimesOfAppend([stopTimes[0]], stopTimes[1]);
    TestRouteDistance(route, StopTime(1, 2, 0, 0), StopTime(2, 2, 0, 0));
    WholeTrip(0, assignment, stopTimes, unassignment, clients);
  }
}
