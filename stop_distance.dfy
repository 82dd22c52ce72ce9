/**
 * SumDistances, which each of the three actors defines with the same text:
 * index the route's stops by id (ToDictionary), map every recorded stop time
 * to the distance along the route of the stop it names (Select), and keep the
 * last of those distances, or 0 when nothing was recorded (LastOrDefault).
 * Despite its name it sums nothing: the result is the distance of the last
 * stop passed.
 */
module StopDistance {
  import opened Domain

  /** The stop ids of a route, in route order. */
  predicate HasStop(stops: seq<Stop>, id: StopId) {
    exists j :: 0 <= j < |stops| && stops[j].stopId == id
  }

  /** No stop id occurs twice on the route. */
  predicate DistinctIds(stops: seq<Stop>) {
    forall i, j :: 0 <= i < j < |stops| ==> stops[i].stopId != stops[j].stopId
  }

  /** Reference definition: the distance of the first stop on the route with the given id. */
  function DistanceOf(stops: seq<Stop>, id: StopId): real
    requires HasStop(stops, id)
  {
    if stops[0].stopId == id then stops[0].distanceAlongRoute
    else
      assert HasStop(stops[1..], id) by {
        var j :| 0 <= j < |stops| && stops[j].stopId == id;
        assert stops[1..][j - 1].stopId == id;
      }
      DistanceOf(stops[1..], id)
  }

  /** On a route with distinct ids, DistanceOf is the distance of the one stop with that id. */
  lemma {:induction false} DistanceOfStop(stops: seq<Stop>, j: nat)
    requires DistinctIds(stops) && j < |stops|
    ensures HasStop(stops, stops[j].stopId)
    ensures DistanceOf(stops, stops[j].stopId) == stops[j].distanceAlongRoute
  {
    if j > 0 {
      assert stops[0].stopId != stops[j].stopId;
      assert stops[1..][j - 1] == stops[j];
      DistanceOfStop(stops[1..], j - 1);
    }
  }

  /**
   * ToDictionary: the stops keyed by id, added in route order; the first id
   * met a second time throws.
   */
  function StopsById(stops: seq<Stop>): (r: Result<map<StopId, Stop>>)
    ensures r.Success? <==> DistinctIds(stops)
    ensures r.Success? ==> forall id :: id in r.value <==> HasStop(stops, id)
    ensures r.Success? ==> forall j :: 0 <= j < |stops| ==> stops[j].stopId in r.value && r.value[stops[j].stopId] == stops[j]
    ensures r.Failure? ==> r.fault.DuplicateStopId?
  {
    if stops == [] then Success(map[])
    else
      var front := stops[..|stops| - 1];
      var last := stops[|stops| - 1];
      match StopsById(front)
      case Failure(f) =>
        assert !DistinctIds(stops) by {
          var i, j :| 0 <= i < j < |front| && front[i].stopId == front[j].stopId;
          assert stops[i] == front[i] && stops[j] == front[j];
        }
        Failure(f)
      case Success(m) =>
        if last.stopId in m then
          assert !DistinctIds(stops) by {
            var i :| 0 <= i < |front| && front[i].stopId == last.stopId;
            assert stops[i] == front[i];
          }
          Failure(DuplicateStopId(last.stopId))
        else
          var r := m[last.stopId := last];
          assert forall id :: id in r <==> HasStop(stops, id) by {
            forall id
              ensures id in r <==> HasStop(stops, id)
            {
              if HasStop(stops, id) && id != last.stopId {
                var j :| 0 <= j < |stops| && stops[j].stopId == id;
                assert front[j] == stops[j];
              }
              if id in m {
                var j :| 0 <= j < |front| && front[j].stopId == id;
                assert stops[j] == front[j];
              }
            }
          }
          assert forall j :: 0 <= j < |stops| ==> r[stops[j].stopId] == stops[j] by {
            forall j | 0 <= j < |stops|
              ensures r[stops[j].stopId] == stops[j]
            {
              if j < |stops| - 1 {
                assert front[j] == stops[j];
              }
            }
          }
          Success(r)
  }

  /**
   * Select: the distance of every recorded stop time's stop, in order; an id
   * missing from the dictionary throws.
   */
  function SelectDistances(byId: map<StopId, Stop>, stopTimes: seq<StopTime>): (r: Result<seq<real>>)
    ensures r.Success? <==> forall i :: 0 <= i < |stopTimes| ==> stopTimes[i].stopId in byId
    ensures r.Success? ==> |r.value| == |stopTimes|
    ensures r.Failure? ==> r.fault.UnknownStopId?
    ensures r.Success? ==> forall i :: 0 <= i < |stopTimes| ==> r.value[i] == byId[stopTimes[i].stopId].distanceAlongRoute
  {
    if stopTimes == [] then Success([])
    else
      var last := stopTimes[|stopTimes| - 1];
      var front :- SelectDistances(byId, stopTimes[..|stopTimes| - 1]);
      if last.stopId !in byId then Failure(UnknownStopId(last.stopId))
      else Success(front + [byId[last.stopId].distanceAlongRoute])
  }

  /** LastOrDefault over the selected distances. */
  function LastOrDefault(distances: seq<real>): real {
    if distances == [] then 0.0 else distances[|distances| - 1]
  }

  /** Every recorded stop time names a stop of the route. */
  predicate AllOnRoute(stops: seq<Stop>, stopTimes: seq<StopTime>) {
    forall i :: 0 <= i < |stopTimes| ==> HasStop(stops, stopTimes[i].stopId)
  }

  /**
   * The distance of the last stop passed: 0 for no stop times, otherwise the
   * distance along the route of the stop the last stop time names. It throws
   * when the route repeats a stop id (even with no stop times, since the
   * dictionary is built first) or when any stop time names a stop that is not
   * on the route.
   */
  function SumDistances(route: Route, stopTimes: seq<StopTime>): (r: Result<real>)
    ensures r.Success? <==> DistinctIds(route.stops) && AllOnRoute(route.stops, stopTimes)
    ensures r.Success? && stopTimes == [] ==> r.value == 0.0
    ensures r.Success? && stopTimes != [] ==>
      HasStop(route.stops, stopTimes[|stopTimes| - 1].stopId) &&
      r.value == DistanceOf(route.stops, stopTimes[|stopTimes| - 1].stopId)
    ensures !DistinctIds(route.stops) ==> r.Failure? && r.fault.DuplicateStopId?
    ensures DistinctIds(route.stops) && r.Failure? ==> r.fault.UnknownStopId?
  {
    var byId :- StopsById(route.stops);
    var distances :- SelectDistances(byId, stopTimes);
    assert stopTimes != [] ==>
      HasStop(route.stops, stopTimes[|stopTimes| - 1].stopId) &&
      LastOrDefault(distances) == DistanceOf(route.stops, stopTimes[|stopTimes| - 1].stopId) by {
      if stopTimes != [] {
        var id := stopTimes[|stopTimes| - 1].stopId;
        var j :| 0 <= j < |route.stops| && route.stops[j].stopId == id;
        DistanceOfStop(route.stops, j);
      }
    }
    Success(LastOrDefault(distances))
  }

  /**
   * Earlier stop times never affect the result: two histories that end with
   * the same stop time give the same distance whenever both succeed.
   */
  lemma LastStopDecides(route: Route, earlier: seq<StopTime>, other: seq<StopTime>, last: StopTime)
    requires SumDistances(route, earlier + [last]).Success?
    requires SumDistances(route, other + [last]).Success?
    ensures SumDistances(route, earlier + [last]) == SumDistances(route, other + [last])
  {
    assert (earlier + [last])[|earlier|] == last;
    assert (other + [last])[|other|] == last;
  }

  /** Appending a stop of the route keeps SumDistances defined and makes it that stop's distance. */
  lemma AppendStop(route: Route, stopTimes: seq<StopTime>, st: StopTime, j: nat)
    requires SumDistances(route, stopTimes).Success?
    requires j < |route.stops| && route.stops[j].stopId == st.stopId
    ensures SumDistances(route, stopTimes + [st]) == Success(route.stops[j].distanceAlongRoute)
  {
    var all := stopTimes + [st];
    assert forall i :: 0 <= i < |stopTimes| ==> all[i] == stopTimes[i];
    assert AllOnRoute(route.stops, all) by {
      forall i | 0 <= i < |all|
        ensures HasStop(route.stops, all[i].stopId)
      {
        if i == |stopTimes| {
          assert route.stops[j].stopId == all[i].stopId;
        }
      }
    }
    DistanceOfStop(route.stops, j);
  }

  /** On the test's route, the stop times for stops 1 and 2 measure 20 meters. */
  lemma TestRouteDistance(route: Route, first: StopTime, second: StopTime)
    requires route.stops == [Stop(1, 10.0), Stop(2, 20.0)]
    requires first.stopId == 1 && second.stopId == 2
    ensures SumDistances(route, [first, second]) == Success(20.0)
  {
    AppendStop(route, [], first, 0);
    assert [] + [first] == [first];
    AppendStop(route, [first], second, 1);
  }
}
