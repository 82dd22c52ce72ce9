# Schedule adherence actors, modelled in Dafny

The repository tracks one vehicle's trip along a transit route. A per-vehicle
actor consumes two kinds of message: `VehicleRouteStatus` (OnRoute or NoRoute,
with an optional trip id) and `StopTime` (stop id, passengers on, passengers
off). On a trip start it fetches the `Trip` from the trip client, then the
`Route` named by the trip's route id from the route client. While the trip runs
it keeps the stop times received and a running passenger count clamped at
zero. On NoRoute it publishes `TripExecution(tripId, distance)`, where the
distance is the distance along the route of the stop named by the last stop
time, or 0 when there was none.

The repository writes this actor three times, and the model keeps all three:

- `Actor2` (ScheduleAdherenceActor2). Two behaviours switched with `Become`.
  The per-trip data lives in closure locals that are created afresh on each
  entry into CollectingTripData. A behaviour and its locals are one value of
  `Behaviour`. `Step` handles one message and `Run` folds the mailbox.
- `FsmActor` (FsmScheduleAdherenceActor). A framework state machine with one
  untyped state-data slot that each state casts. `Step` takes the state entered
  after publishing as a parameter. `AsWritten` is the source's choice and
  `Intended` is WaitingForTrip.
- `Actor1` (ScheduleAdherenceActor1). A class whose four mutable fields are
  shared by all messages (`trip`, `route`, `stopTimes`, `passengerCount`). It
  has one method per message kind and a `SumDistances()` function that reads
  the fields.

The other two modules are shared:

- `Domain` holds the message and metadata types, the clients as maps (a missing
  key is a failed lookup), the trip-then-route fetch, the clamped passenger
  update and `Mailbox`, the fold of a step over a message sequence that both
  Actor2 and FsmActor use as their `Run`.
- `StopDistance` holds `SumDistances`. The three source files define it with
  the same text: ToDictionary over the route's stops, then Select, then
  LastOrDefault.

Publication is an output sequence. An exception is a `Fault`. After a fault,
Actor2 and FsmActor sit in a `Faulted` state that ignores every later message.
Actor1's handlers return the fault and leave the fields as they were at the
throw.

Where the code and an idealised design differ, the model follows the code.
An OnRoute that arrives mid-trip is ignored by Actor2 and by the state
machine, which keep collecting for the trip they have. Actor1 instead restarts
on every OnRoute: it empties the stop-time list, and with a trip id it
re-fetches and overwrites the trip and then the route; without a trip id it
keeps the old trip and route. An idealised design would also leave the actor
idle when a lookup fails, but Actor1 is left with the new trip and the old
route when only the route lookup fails.

## Model

| member | source | states |
|---|---|---|
| Domain.FetchTripAndRoute | 2017-rocks-q1/Rocks/Rocks.Csharp/ScheduleAdherence/ScheduleAdherenceActor2.cs:50-51 | Succeeds exactly when the trip id is known and the trip's route id is known. It yields that trip and that trip's route. Otherwise it fails with TripNotFound, or with RouteNotFound for the trip's route id. |
| Domain.Board | 2017-rocks-q1/Rocks/Rocks.Csharp/ScheduleAdherence/ScheduleAdherenceActor2.cs:85-87 | The new count is max(0, count + on - off): never negative, whatever the signs or sizes of on and off. |
| Domain.Mailbox | 2017-rocks-q1/Rocks/Rocks.Csharp/ScheduleAdherence/ScheduleAdherenceActor2.cs:41-88 | The mailbox of the two pure actors: each message is handled in turn by the state the earlier ones left, and the publications are concatenated in order. It has no contract of its own; Domain.MailboxAppend and the Run lemmas below state its behaviour. |
| Domain.MailboxAppend | 2017-rocks-q1/Rocks/Rocks.Csharp/ScheduleAdherence/ScheduleAdherenceActor2.cs:41-88 | Handling two batches of messages one after the other is handling their concatenation: the state carries over and the publications concatenate. |
| StopDistance.StopsById | 2017-rocks-q1/Rocks/Rocks.Csharp/ScheduleAdherence/ScheduleAdherenceActor2.cs:94 | ToDictionary succeeds exactly when the route's stop ids are distinct. The keys are then exactly the route's stop ids, and each id maps to its stop. Otherwise the fault is DuplicateStopId. |
| StopDistance.SelectDistances | 2017-rocks-q1/Rocks/Rocks.Csharp/ScheduleAdherence/ScheduleAdherenceActor2.cs:96-98 | Succeeds exactly when every stop time's id is in the dictionary. It yields one distance per stop time, in order. Otherwise the fault is UnknownStopId. |
| StopDistance.LastOrDefault | 2017-rocks-q1/Rocks/Rocks.Csharp/ScheduleAdherence/ScheduleAdherenceActor2.cs:99 | The last selected distance, or 0 when none was selected. It has no contract of its own; the StopDistance.SumDistances row states what it contributes. |
| StopDistance.SumDistances | 2017-rocks-q1/Rocks/Rocks.Csharp/ScheduleAdherence/ScheduleAdherenceActor2.cs:92-100 | Succeeds exactly when the route's ids are distinct and every stop time names a stop on the route. The result is 0 for no stop times. Otherwise it is the distance of the stop named by the last stop time, by the reference DistanceOf. Duplicate ids fail even when there are no stop times. |
| StopDistance.DistanceOfStop | 2017-rocks-q1/Rocks/Rocks.Csharp/ScheduleAdherence/ScheduleAdherenceActor2.cs:94-97 | On a route with distinct ids, the stop looked up by id is the one stop with that id. |
| StopDistance.LastStopDecides | 2017-rocks-q1/Rocks/Rocks.Csharp/ScheduleAdherence/ScheduleAdherenceActor2.cs:96-99 | Earlier stop times never affect the distance. Two histories that end in the same stop time give the same result. |
| StopDistance.AppendStop | 2017-rocks-q1/Rocks/Rocks.Csharp/ScheduleAdherence/ScheduleAdherenceActor2.cs:96-99 | Appending a stop time for a stop on the route gives exactly that stop's distance: SumDistances(xs + [x]) == dist(x). |
| Actor2.Step | 2017-rocks-q1/Rocks/Rocks.Csharp/ScheduleAdherence/ScheduleAdherenceActor2.cs:44-88 | One message handled by the current behaviour. It has no contract of its own; Actor2.WaitingStep, Actor2.EntryStartsAfresh and Actor2.CollectingStep state its behaviour case by case. |
| Actor2.WaitingStep | 2017-rocks-q1/Rocks/Rocks.Csharp/ScheduleAdherence/ScheduleAdherenceActor2.cs:44-56 | WaitingForTrip never publishes. It changes state exactly on an OnRoute with a trip id: to CollectingTripData with an empty list and the same count, or to Faulted when a lookup fails. NoRoute, OnRoute without a trip id and StopTime leave it unchanged. |
| Actor2.EntryStartsAfresh | 2017-rocks-q1/Rocks/Rocks.Csharp/ScheduleAdherence/ScheduleAdherenceActor2.cs:50-64 | Every entry into CollectingTripData comes from WaitingForTrip on a trip start. It carries the fetched trip and route, an empty stop-time list and the carried-in count. |
| Actor2.CollectingStep | 2017-rocks-q1/Rocks/Rocks.Csharp/ScheduleAdherence/ScheduleAdherenceActor2.cs:66-88 | In CollectingTripData a StopTime appends at the end and clamps the count. OnRoute changes nothing and publishes nothing. NoRoute publishes exactly one TripExecution(trip id, SumDistances) and returns to WaitingForTrip with the count. If SumDistances throws, the actor faults without publishing. |
| Actor2.RunKeepsCountNonNegative | 2017-rocks-q1/Rocks/Rocks.Csharp/ScheduleAdherence/ScheduleAdherenceActor2.cs:81-88 | From a non-negative count, and so from the initial WaitingForTrip(0), the count stays non-negative over any message sequence. |
| Actor2.WaitingRun | 2017-rocks-q1/Rocks/Rocks.Csharp/ScheduleAdherence/ScheduleAdherenceActor2.cs:44-56 | WaitingForTrip ignores any run of messages without a trip start: the state stays as it is and nothing is published. |
| Actor2.CollectingRun | 2017-rocks-q1/Rocks/Rocks.Csharp/ScheduleAdherence/ScheduleAdherenceActor2.cs:81-88 | Until a NoRoute arrives, CollectingTripData keeps its trip and route and appends every stop time in order. It applies every passenger delta with the clamp and publishes nothing. |
| Actor2.TripUnderway | 2017-rocks-q1/Rocks/Rocks.Csharp/ScheduleAdherence/ScheduleAdherenceActor2.cs:50-64 | After a trip start and messages without a NoRoute, the actor is collecting for the fetched trip and route, holds exactly the stop times received since the start with the clamped count, and has published nothing. |
| Actor2.WholeTrip | 2017-rocks-q1/Rocks/Rocks.Csharp/ScheduleAdherence/ScheduleAdherenceActor2.cs:50-79 | A trip start, messages without NoRoute, then NoRoute publish exactly one TripExecution for the fetched trip. Its distance is that of the last stop time's stop, or 0 when there was none. The actor ends in WaitingForTrip with the count carried forward. |
| Actor2.StopTimesSinceTripStart | 2017-rocks-q1/Rocks/Rocks.Csharp/ScheduleAdherence/ScheduleAdherenceActor2.cs:58-88 | Whenever the actor is collecting, its list is exactly the stop times received since the trip start that opened the trip. No NoRoute has arrived since then, and that trip start came from WaitingForTrip. |
| Actor2.NoStaleTrip | 2017-rocks-q1/Rocks/Rocks.Csharp/ScheduleAdherence/ScheduleAdherenceActor2.cs:44-79 | A complete trip, then an OnRoute without a trip id, any messages without a trip start (stop times included) and a NoRoute, publish exactly one TripExecution: the first trip's, with the distance of its own last stop. The later stop times change nothing. |
| Actor2.NoTripStartIgnored | 2017-rocks-q1/Rocks/Rocks.Csharp/ScheduleAdherence/ScheduleAdherenceActor2.cs:44-56 | Between trips, an OnRoute without a trip id, messages without a trip start and a NoRoute leave WaitingForTrip as it is and publish nothing. |
| Actor2.TestScenario | 2017-rocks-q1/Rocks/Rocks.Csharp.Tests/ScheduleAdherence/ScheduleAdherenceTests.cs:28-81 | The repository's scenario publishes exactly TripExecution(1, 20). |
| FsmActor.Step | 2017-rocks-q1/Rocks/Rocks.Csharp/ScheduleAdherence/FsmScheduleAdherenceActor.cs:36-75 | One event handled by the current state and its cast state data. It has no contract of its own; FsmActor.StepMatchesActor2 and FsmActor.AsWrittenFaultsAfterTripEnd state its behaviour. |
| FsmActor.StepMatchesActor2 | 2017-rocks-q1/Rocks/Rocks.Csharp/ScheduleAdherence/FsmScheduleAdherenceActor.cs:36-75 | On every event the state machine does what Actor2 does, except that after publishing it enters the given state instead of WaitingForTrip. |
| FsmActor.StartMatchesActor2 | 2017-rocks-q1/Rocks/Rocks.Csharp/ScheduleAdherence/FsmScheduleAdherenceActor.cs:100 | The machine starts in WaitingForTrip with data 0, the image of Actor2's initial behaviour. |
| FsmActor.IntendedMatchesActor2 | 2017-rocks-q1/Rocks/Rocks.Csharp/ScheduleAdherence/FsmScheduleAdherenceActor.cs:36-73 | When it enters WaitingForTrip after publishing, the machine produces the same state and the same publications as Actor2 on every message sequence. |
| FsmActor.AsWrittenMatchesBeforeFirstPublish | 2017-rocks-q1/Rocks/Rocks.Csharp/ScheduleAdherence/FsmScheduleAdherenceActor.cs:36-69 | As written, the machine agrees with Actor2 in state and publications on every sequence along which Actor2 has not yet published. |
| FsmActor.AsWrittenFirstTripEnd | 2017-rocks-q1/Rocks/Rocks.Csharp/ScheduleAdherence/FsmScheduleAdherenceActor.cs:66-71 | As written, the machine publishes what Actor2 publishes up to and including the first trip end. At that trip end it is left in CollectingTripData holding only the count. |
| FsmActor.AsWrittenFaultsAfterTripEnd | 2017-rocks-q1/Rocks/Rocks.Csharp/ScheduleAdherence/FsmScheduleAdherenceActor.cs:52-71 | From CollectingTripData holding only the count, any next event fails the tuple cast. The machine faults and publishes nothing more. |
| FsmActor.SecondTripLost | 2017-rocks-q1/Rocks/Rocks.Csharp/ScheduleAdherence/FsmScheduleAdherenceActor.cs:52-75 | Two trips back to back: as written only the first trip is published, while the intended machine publishes both. |
| Actor1.ScheduleAdherenceActor1.constructor | 2017-rocks-q1/Rocks/Rocks.Csharp/ScheduleAdherence/ScheduleAdherenceActor1.cs:38-41 | The trip, route and stop-time list start null, and the count starts at 0. |
| Actor1.ScheduleAdherenceActor1.SumDistances | 2017-rocks-q1/Rocks/Rocks.Csharp/ScheduleAdherence/ScheduleAdherenceActor1.cs:84-92 | Over the fields: a null route or a null list throws. Otherwise it gives the last stop time's stop distance, or 0 for an empty list. It has the same duplicate-id and unknown-id failures as the pure version. |
| Actor1.ScheduleAdherenceActor1.ReceiveStatus | 2017-rocks-q1/Rocks/Rocks.Csharp/ScheduleAdherence/ScheduleAdherenceActor1.cs:50-71 | OnRoute always resets the list to empty. Only with a trip id does it overwrite the trip, then the route; a failed route lookup leaves the new trip with the old route. NoRoute with a null trip does nothing. NoRoute with a trip publishes one TripExecution for it and clears nothing. The count is untouched. |
| Actor1.ScheduleAdherenceActor1.ReceiveStopTime | 2017-rocks-q1/Rocks/Rocks.Csharp/ScheduleAdherence/ScheduleAdherenceActor1.cs:73-81 | Appends to the list and applies the clamp. The count is never negative and never reset. Before any OnRoute the list is null and the handler throws, changing nothing. |
| Actor1.TestScenario | 2017-rocks-q1/Rocks/Rocks.Csharp.Tests/ScheduleAdherence/ScheduleAdherenceTests.cs:28-81 | The repository's test, which runs against this actor, publishes exactly one TripExecution(1, 20). |
| Actor1.StaleTripRepublished | 2017-rocks-q1/Rocks/Rocks.Csharp/ScheduleAdherence/ScheduleAdherenceActor1.cs:50-70 | After a complete trip T, OnRoute without a trip id, a StopTime and NoRoute publish a second TripExecution for T. Its distance comes from the new stop times against T's old route. |

## Left out

- Akka itself is not modelled: ReceiveActor, Become, ReceiveAsync, the FSM base class, GoTo/Stay/Using and the event stream. The mailbox is a sequence of messages handled one at a time, and the event stream is the published sequence.
- Supervision and restart after a handler throws are supervisor policy, which the source does not show. A throw ends the model's run in Faulted (Actor2, FsmActor), or returns the fault with the fields as they were at the throw (Actor1).
- Unhandled messages, such as a StopTime while Actor2 is in WaitingForTrip, go to Akka's unhandled-message handling. The model treats them as no change and no TripExecution.
- The trip and route clients are maps, so a lookup either answers or fails. Asynchrony, transport errors and cancellation are not modelled, and neither is the blocking `.Result` in the state machine.
- The state machine's OnTransition block has only empty bodies and no observable effect.
- The state machine appends to the shared stop-time list in place before re-wrapping it. The model builds a new sequence, and because the old state data is discarded, the aliasing is not observable.
- Actor2's CollectingTripData receives a passengerCount parameter and copies it into a local, updatedPassengerCount. The model keeps only the local, because the parameter is never read again.
- Distances are `real`, not double. The code only selects a distance and never computes with it, so rounding never arises.
- The passenger count is an unbounded `int`. The source's unchecked 32-bit overflow is not modelled.
- Vehicle id, driver id, the message route ids and the route distance carry no logic. They are kept in the types and never read.
- SumDistances fails on an unknown stop id anywhere in the list. That is how LastOrDefault behaves on .NET Framework, where it enumerates the whole Select. Newer .NET runtimes evaluate only the last element of a list-backed Select, and the model does not cover that variant.
- The FSharpOption extension helpers are replaced by the model's own Option type.

## Findings

| source | as written | input that shows it | evidently intended | confidence | as-written member | corrected member |
|---|---|---|---|---|---|---|
| 2017-rocks-q1/Rocks/Rocks.Csharp/ScheduleAdherence/FsmScheduleAdherenceActor.cs:71 | After publishing, the machine goes to CollectingTripData with only the int count as data. | OnRoute(trip 1), NoRoute, OnRoute(trip 1), StopTime(stop 2), NoRoute. The third event fails the tuple cast at line 54, so the second trip is never published. | Go to WaitingForTrip with the count, as ScheduleAdherenceActor2 does. | not executed; high | FsmActor.SecondTripLost | FsmActor.IntendedMatchesActor2 |
| 2017-rocks-q1/Rocks/Rocks.Csharp/ScheduleAdherence/ScheduleAdherenceActor1.cs:62-70 | NoRoute never clears the trip, and OnRoute without a trip id keeps the old trip and route. | A complete trip 1, then OnRoute without a trip id, StopTime(stop 2), NoRoute. A second TripExecution for trip 1 is published, measured against the old route. | One TripExecution per trip, with no trip data carried across a NoRoute, as the repository's rewrite ScheduleAdherenceActor2 does. | not executed; high (the class comment points at this bug) | Actor1.StaleTripRepublished | Actor2.NoStaleTrip |
