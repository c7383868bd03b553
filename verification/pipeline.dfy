/**
 The middle task of the pipeline DAG (dags/bus_data_pipeline.py): it flattens the
 telemetry response with the route directory the first task produced, stamps every
 vehicle record with the run's scheduled time, and hands stops and stamped vehicles to
 the upload task. The scheduled time is a parameter: the ISO-8601 text of the run's
 execution date.
 */
module Pipeline {
  import opened Base
  import opened Telemetry
  import Routes
  import Upload

  /** Sets `Scheduled Task Time` on every vehicle record. */
  function Stamp(vs: seq<VehicleRecord>, ts: string): (r: seq<VehicleRecord>)
    ensures |r| == |vs|
    ensures forall i :: 0 <= i < |r| ==> r[i].scheduledTaskTime == Some(ts)
    ensures forall i :: 0 <= i < |r| ==> r[i].(scheduledTaskTime := vs[i].scheduledTaskTime) == vs[i]
  {
    seq(|vs|, i requires 0 <= i < |vs| => vs[i].(scheduledTaskTime := Some(ts)))
  }

  /** Stamping again replaces the earlier stamp; in particular stamping twice with the
      same time is stamping once. */
  lemma StampLatestWins(vs: seq<VehicleRecord>, earlier: string, later: string)
    ensures Stamp(Stamp(vs, earlier), later) == Stamp(vs, later)
  {
  }

  lemma StampIdempotent(vs: seq<VehicleRecord>, ts: string)
    ensures Stamp(Stamp(vs, ts), ts) == Stamp(vs, ts)
  {
    StampLatestWins(vs, ts, ts);
  }

  /** Stamping does not change a vehicle's identity, so a GPS fix re-sent at a later run
      overwrites the document of the earlier run. */
  lemma StampKeepsIdentity(vs: seq<VehicleRecord>, ts: string, i: int)
    requires 0 <= i < |vs|
    ensures Upload.VehicleIdentity(Stamp(vs, ts)[i]) == Upload.VehicleIdentity(vs[i])
  {
  }

  /** task_fetch_and_process_bus_data: flatten, then stamp the vehicles; stops are handed
      on as the extractor produced them. An exception of the extractor ends the task. */
  function FetchStage(resp: Response<seq<RouteTelemetry>>, dict: Routes.RouteDict, ts: string): (r: Result<Extracted>)
    ensures var x := FetchAndProcessBusData(resp, dict);
            && (r.Failure? <==> x.Failure?)
            && (r.Failure? ==> r.error == x.error)
            && (r.Success? ==> r.value.stops == x.value.stops)
            && (r.Success? ==> |r.value.vehicles| == |x.value.vehicles|)
            && (r.Success? ==> forall i :: 0 <= i < |r.value.vehicles| ==>
                                 r.value.vehicles[i] == x.value.vehicles[i].(scheduledTaskTime := Some(ts)))
  {
    match FetchAndProcessBusData(resp, dict)
    case Failure(e) => Failure(e)
    case Success(x) => Success(Extracted(x.stops, Stamp(x.vehicles, ts)))
  }

  /** A well-formed response reaches the hand-off with one stop record per pattern point
      and one vehicle record per vehicle, every vehicle carrying the run's time. */
  lemma HandOffCounts(routes: seq<RouteTelemetry>, dict: Routes.RouteDict, ts: string)
    requires forall i :: 0 <= i < |routes| ==> RouteOk(routes[i])
    ensures FetchStage(Received(routes), dict, ts).Success?
    ensures |FetchStage(Received(routes), dict, ts).value.stops| == TotalPoints(routes)
    ensures |FetchStage(Received(routes), dict, ts).value.vehicles| == TotalVehicles(routes)
    ensures forall i :: 0 <= i < |FetchStage(Received(routes), dict, ts).value.vehicles| ==>
              FetchStage(Received(routes), dict, ts).value.vehicles[i].scheduledTaskTime == Some(ts)
  {
    ExtractSucceeds(routes, dict);
    ExtractCounts(routes, dict);
  }

  /** Vehicle `k` of direction `j` of route `i` reaches the hand-off at the extractor's
      position for it, as the record the extractor built plus the run's time. */
  lemma HandOffVehicleAt(routes: seq<RouteTelemetry>, dict: Routes.RouteDict, ts: string, i: int, j: int, k: int)
    requires Extract(routes, dict).Success?
    requires 0 <= i < |routes| && 0 <= j < |Items(routes[i].vehiclesByDirections)|
    requires 0 <= k < |Items(Items(routes[i].vehiclesByDirections)[j].vehicles)|
    ensures var h := FetchStage(Received(routes), dict, ts).value;
            var off := VehicleOffset(routes, i, j, k);
            && off < |h.vehicles|
            && h.vehicles[off].scheduledTaskTime == Some(ts)
            && VehicleOf(Context(routes[i], dict), Items(routes[i].vehiclesByDirections)[j].directionKey.Get(),
                         Items(Items(routes[i].vehiclesByDirections)[j].vehicles)[k])
               == Success(h.vehicles[off].(scheduledTaskTime := None))
  {
    var d := Items(routes[i].vehiclesByDirections)[j];
    var off := VehicleOffset(routes, i, j, k);
    ExtractVehicleAt(routes, dict, i, j, k);
    var r := Extract(routes, dict).value.vehicles[off];
    VehicleRecordFields(routes[i], dict, d.directionKey.Get(), Items(d.vehicles)[k], r);
    assert FetchStage(Received(routes), dict, ts).value.vehicles[off] == r.(scheduledTaskTime := Some(ts));
  }
}
