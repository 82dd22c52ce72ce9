/**
 * FsmScheduleAdherenceActor: a finite-state machine whose states are
 * WaitingForTrip and CollectingTripData and whose single state-data slot is
 * an untyped object, cast in each state: to an int in WaitingForTrip, to the
 * tuple (passengerCount, trip, route, stopTimes) in CollectingTripData. A
 * cast that does not fit throws.
 *
 * After publishing a trip execution the source moves to CollectingTripData
 * with only the int count as data, so the next event fails the tuple cast.
 * Step takes the state entered after publishing as a parameter: AsWritten is
 * the source's choice, Intended is WaitingForTrip, under which the machine
 * behaves exactly like ScheduleAdherenceActor2.
 */
module FsmActor {
  import opened Domain
  import opened StopDistance
  import Actor2

  datatype StateName = WaitingForTrip | CollectingTripData

  /** What the object-typed state data can hold. */
  datatype StateData =
    | Count(passengerCount: int)
    | TripData(passengerCount: int, trip: Trip, route: Route, stopTimes: seq<StopTime>)

  datatype Machine = Running(name: StateName, data: StateData) | Faulted(fault: Fault)

  /** StartWith(State.WaitingForTrip, 0). */
  const Start: Machine := Running(WaitingForTrip, Count(0))

  /** GoTo(State.CollectingTripData).Using(passengerCount) after publishing, as the source has it. */
  const AsWritten: StateName := CollectingTripData

  /** The state the publishing transition evidently means to enter. */
  const Intended: StateName := WaitingForTrip

  /** One event handled by the When(...) block of the current state. */
  function Step(m: Machine, msg: Message, clients: Clients, afterPublish: StateName): Reaction<Machine> {
    match m
    case Faulted(_) => Reaction(m, [])
    case Running(WaitingForTrip, data) =>
      if !data.Count? then Reaction(Faulted(InvalidStateDataCast), [])
      else if StartsTrip(msg) then
        match FetchTripAndRoute(clients, msg.status.tripId.value)
        case Failure(f) => Reaction(Faulted(f), [])
        case Success((trip, route)) =>
          Reaction(Running(CollectingTripData, TripData(data.passengerCount, trip, route, [])), [])
      else Reaction(m, [])  // Stay()
    case Running(CollectingTripData, data) =>
      if !data.TripData? then Reaction(Faulted(InvalidStateDataCast), [])
      else
        match msg
        case Passage(st) =>
          var count := Board(data.passengerCount, st);
          Reaction(Running(CollectingTripData, TripData(count, data.trip, data.route, data.stopTimes + [st])), [])
        case Status(status) =>
          if status.state == NoRoute then
            match SumDistances(data.route, data.stopTimes)
            case Failure(f) => Reaction(Faulted(f), [])
            case Success(distance) =>
              Reaction(Running(afterPublish, Count(data.passengerCount)), [TripExecution(data.trip.tripId, distance)])
          else Reaction(m, [])  // Stay()
  }

  /** The event queue: events handled one at a time, publications in order. */
  function Run(m: Machine, msgs: seq<Message>, clients: Clients, afterPublish: StateName): Reaction<Machine> {
    Mailbox((s, msg) => Step(s, msg, clients, afterPublish), m, msgs)
  }

  /** The last event is handled by Step in the state the earlier ones left. */
  lemma RunLast(m: Machine, msgs: seq<Message>, clients: Clients, afterPublish: StateName)
    requires msgs != []
    ensures Run(m, msgs, clients, afterPublish) ==
      var before := Run(m, msgs[..|msgs| - 1], clients, afterPublish);
      var after := Step(before.state, msgs[|msgs| - 1], clients, afterPublish);
      Reaction(after.state, before.published + after.published)
  {
  }

  /** The FSM state and data that correspond to a behaviour of ScheduleAdherenceActor2. */
  function FromActor2(b: Actor2.Behaviour): Machine {
    match b
    case WaitingForTrip(count) => Running(WaitingForTrip, Count(count))
    case CollectingTripData(count, trip, route, stopTimes) =>
      Running(CollectingTripData, TripData(count, trip, route, stopTimes))
    case Faulted(f) => Faulted(f)
  }

  /**
   * One event: the machine does what ScheduleAdherenceActor2 does, except that
   * after publishing it enters afterPublish instead of WaitingForTrip.
   */
  lemma StepMatchesActor2(b: Actor2.Behaviour, msg: Message, clients: Clients, afterPublish: StateName)
    ensures
      var a := Actor2.Step(b, msg, clients);
      && (a.published != [] ==> a.state.WaitingForTrip?)
      && Step(FromActor2(b), msg, clients, afterPublish) ==
         if a.published == [] then Reaction(FromActor2(a.state), [])
         else Reaction(Running(afterPublish, Count(a.state.passengerCount)), a.published)
  {
  }

  /** Start is the image of ScheduleAdherenceActor2's initial behaviour. */
  lemma StartMatchesActor2()
    ensures Start == FromActor2(Actor2.Initial)
  {
  }

  /**
   * With the intended transition the machine and ScheduleAdherenceActor2 agree
   * on every message sequence: the same state and the same publications.
   */
  lemma {:induction false} IntendedMatchesActor2(b: Actor2.Behaviour, msgs: seq<Message>, clients: Clients)
    ensures
      var a := Actor2.Run(b, msgs, clients);
      Run(FromActor2(b), msgs, clients, Intended) == Reaction(FromActor2(a.state), a.published)
  {
    if msgs != [] {
      var front := msgs[..|msgs| - 1];
      IntendedMatchesActor2(b, front, clients);
      StepMatchesActor2(Actor2.Run(b, front, clients).state, msgs[|msgs| - 1], clients, Intended);
    }
  }

  /**
   * As written, the machine agrees with ScheduleAdherenceActor2 on every
   * message sequence along which ScheduleAdherenceActor2 has published
   * nothing yet.
   */
  lemma {:induction false} AsWrittenMatchesBeforeFirstPublish(b: Actor2.Behaviour, msgs: seq<Message>, clients: Clients)
    requires Actor2.Run(b, msgs, clients).published == []
    ensures Run(FromActor2(b), msgs, clients, AsWritten) == Reaction(FromActor2(Actor2.Run(b, msgs, clients).state), [])
  {
    if msgs != [] {
      var front := msgs[..|msgs| - 1];
      AsWrittenMatchesBeforeFirstPublish(b, front, clients);
      StepMatchesActor2(Actor2.Run(b, front, clients).state, msgs[|msgs| - 1], clients, AsWritten);
    }
  }

  /**
   * Up to and including the first trip end, the machine as written publishes
   * what ScheduleAdherenceActor2 publishes; at that trip end it is left in
   * CollectingTripData holding only the count.
   */
  lemma AsWrittenFirstTripEnd(b: Actor2.Behaviour, msgs: seq<Message>, last: Message, clients: Clients)
    requires Actor2.Run(b, msgs, clients).published == []
    ensures
      var a := Actor2.Run(b, msgs + [last], clients);
      var m := Run(FromActor2(b), msgs + [last], clients, AsWritten);
      && m.published == a.published
      && (a.published == [] ==> m.state == FromActor2(a.state))
      && (a.published != [] ==>
            a.state.WaitingForTrip? && m.state == Running(CollectingTripData, Count(a.state.passengerCount)))
  {
    assert (msgs + [last])[..|msgs|] == msgs;
    AsWrittenMatchesBeforeFirstPublish(b, msgs, clients);
    StepMatchesActor2(Actor2.Run(b, msgs, clients).state, last, clients, AsWritten);
  }

  /** A machine that has faulted handles nothing more and publishes nothing. */
  lemma {:induction false} FaultedStays(f: Fault, msgs: seq<Message>, clients: Clients, afterPublish: StateName)
    ensures Run(Faulted(f), msgs, clients, afterPublish) == Reaction(Faulted(f), [])
  {
    if msgs != [] {
      FaultedStays(f, msgs[..|msgs| - 1], clients, afterPublish);
    }
  }

  /**
   * After the first trip end, as written, the next event of any kind fails the
   * tuple cast: the machine faults and never publishes again.
   */
  lemma {:induction false} AsWrittenFaultsAfterTripEnd(count: int, msgs: seq<Message>, clients: Clients)
    requires msgs != []
    ensures Run(Running(CollectingTripData, Count(count)), msgs, clients, AsWritten) ==
      Reaction(Faulted(InvalidStateDataCast), [])
  {
    var front := msgs[..|msgs| - 1];
    if front != [] {
      AsWrittenFaultsAfterTripEnd(count, front, clients);
    }
    RunLast(Running(CollectingTripData, Count(count)), msgs, clients, AsWritten);
  }

  /**
   * Two trips back to back: the machine as written reports only the first,
   * the intended machine (and ScheduleAdherenceActor2) reports both.
   */
  lemma SecondTripLost(route: Route, clients: Clients, assignment: Message, unassignment: Message, passage: Message)
    requires route == Route(2, [Stop(1, 10.0), Stop(2, 20.0)], 100.0)
    requires clients == Clients(map[1 := Trip(1, 2)], map[2 := route])
    requires assignment == Status(VehicleRouteStatus(4, 3, Some(2), Some(1), OnRoute))
    requires unassignment == Status(VehicleRouteStatus(4, 3, Some(2), Some(1), NoRoute))
    requires passage == Passage(StopTime(2, 2, 0, 0))
    ensures
      var msgs := [assignment, unassignment, assignment, passage, unassignment];
      && Run(Start, msgs, clients, AsWritten).published == [TripExecution(1, 0.0)]
      && Run(Start, msgs, clients, Intended).published == [TripExecution(1, 0.0), TripExecution(1, 20.0)]
  {
    var msgs := [assignment, unassignment, assignment, passage, unassignment];
    var firstTrip, secondTrip := [assignment, unassignment], [assignment, passage, unassignment];
    assert msgs == firstTrip + secondTrip;
    FirstTripPublishes(route, clients, assignment, unassignment, AsWritten);
    AsWrittenFaultsAfterTripEnd(0, secondTrip, clients);
    RunAppend(Start, firstTrip, secondTrip, clients, AsWritten);
    FirstTripPublishes(route, clients, assignment, unassignment, Intended);
    SecondTripPublishes(route, clients, assignment, unassignment, passage);
    RunAppend(Start, firstTrip, secondTrip, clients, Intended);
  }

  /** The first trip of SecondTripLost: no stop times, 0 meters, then the state entered after publishing. */
  lemma FirstTripPublishes(route: Route, clients: Clients, assignment: Message, unassignment: Message, afterPublish: StateName)
    requires route == Route(2, [Stop(1, 10.0), Stop(2, 20.0)], 100.0)
    requires clients == Clients(map[1 := Trip(1, 2)], map[2 := route])
    requires assignment == Status(VehicleRouteStatus(4, 3, Some(2), Some(1), OnRoute))
    requires unassignment == Status(VehicleRouteStatus(4, 3, Some(2), Some(1), NoRoute))
    ensures Run(Start, [assignment, unassignment], clients, afterPublish) ==
      Reaction(Running(afterPublish, Count(0)), [TripExecution(1, 0.0)])
  {
    assert [assignment, unassignment][..1] == [assignment] && [assignment][..0] == [];
    assert SumDistances(route, []) == Success(0.0);
    var collecting := Running(CollectingTripData, TripData(0, Trip(1, 2), route, []));
    RunLast(Start, [assignment], clients, afterPublish);
    assert Run(Start, [assignment], clients, afterPublish) == Reaction(collecting, []);
    RunLast(Start, [assignment, unassignment], clients, afterPublish);
  }

  /** The second trip of SecondTripLost, run by the intended machine: stop 2 passed, 20 meters. */
  lemma SecondTripPublishes(route: Route, clients: Clients, assignment: Message, unassignment: Message, passage: Message)
    requires route == Route(2, [Stop(1, 10.0), Stop(2, 20.0)], 100.0)
    requires clients == Clients(map[1 := Trip(1, 2)], map[2 := route])
    requires assignment == Status(VehicleRouteStatus(4, 3, Some(2), Some(1), OnRoute))
    requires unassignment == Status(VehicleRouteStatus(4, 3, Some(2), Some(1), NoRoute))
    requires passage == Passage(StopTime(2, 2, 0, 0))
    ensures Run(Start, [assignment, passage, unassignment], clients, Intended) ==
      Reaction(Start, [TripExecution(1, 20.0)])
  {
    var msgs := [assignment, passage, unassignment];
    assert msgs[..1] == [assignment] && [assignment][..0] == [];
    assert msgs[..2] == [assignment, passage] && [assignment, passage][..1] == [assignment];
    assert SumDistances(route, []) == Success(0.0);
    AppendStop(route, [], passage.stopTime, 1);
    assert [] + [passage.stopTime] == [passage.stopTime];
    var collecting := Running(CollectingTripData, TripData(0, Trip(1, 2), route, []));
    RunLast(Start, [assignment], clients, Intended);
    assert Run(Start, [assignment], clients, Intended) == Reaction(collecting, []);
    RunLast(Start, msgs[..2], clients, Intended);
    assert Run(Start, msgs[..2], clients, Intended) ==
      Reaction(Running(CollectingTripData, TripData(0, Trip(1, 2), route, [passage.stopTime])), []);
    RunLast(Start, msgs, clients, Intended);
  }

  /** Running two batches of events is running their concatenation. */
  lemma RunAppend(m: Machine, xs: seq<Message>, ys: seq<Message>, clients: Clients, afterPublish: StateName)
    ensures Run(m, xs + ys, clients, afterPublish) ==
      var first := Run(m, xs, clients, afterPublish);
      var second := Run(first.state, ys, clients, afterPublish);
      Reaction(second.state, first.published + second.published)
  {
    MailboxAppend((s, msg) => Step(s, msg, clients, afterPublish), m, xs, ys);
  }

}
