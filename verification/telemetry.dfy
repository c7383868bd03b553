/**
 The telemetry extractor (dags/get_bus.py): flattens the pattern-paths response
 (route -> patternPaths -> patternPoints, and route -> vehiclesByDirections -> vehicles)
 into a flat sequence of stop records and a flat sequence of vehicle records.

 Every loop of the source appends to a list, so every fold here recurses on the
 prefix and appends the last element's contribution. The first exception ends the
 whole call: a fold that meets a Failure passes it on and produces no records.
 */
module Telemetry {
  import opened Base
  import Routes

  // ---------------------------------------------------------------- input shape

  datatype StopInfo = StopInfo(name: Field<Scalar>, stopCode: Field<Scalar>)

  datatype PatternPoint = PatternPoint(stop: Field<StopInfo>, latitude: Field<Scalar>, longitude: Field<Scalar>)

  datatype PatternPath = PatternPath(
    patternKey: Field<Scalar>,
    directionKey: Field<Scalar>,
    patternPoints: Field<seq<PatternPoint>>)

  datatype Amenity = Amenity(name: Field<string>)

  datatype Location = Location(
    lastGpsDate: Field<Scalar>,
    latitude: Field<Scalar>,
    longitude: Field<Scalar>,
    speed: Field<Scalar>,
    heading: Field<Scalar>)

  datatype Vehicle = Vehicle(
    name: Field<Scalar>,
    passengerCapacity: Field<Scalar>,
    passengersOnboard: Field<Scalar>,
    amenities: Field<seq<Amenity>>,
    location: Field<Location>,
    isExtraTrip: Field<Scalar>)

  datatype Direction = Direction(directionKey: Field<Scalar>, vehicles: Field<seq<Vehicle>>)

  datatype RouteTelemetry = RouteTelemetry(
    routeKey: Field<string>,
    patternPaths: Field<seq<PatternPath>>,
    vehiclesByDirections: Field<seq<Direction>>)

  // ---------------------------------------------------------------- output shape

  /** One flattened pattern point. Every member may be None. */
  datatype StopRecord = StopRecord(
    routeKey: Option<string>,
    routeSymbol: Option<string>,
    routeName: Option<string>,
    patternKey: Option<Scalar>,
    directionKey: Option<Scalar>,
    stopName: Option<Scalar>,
    stopCode: Option<Scalar>,
    latitude: Option<Scalar>,
    longitude: Option<Scalar>)

  /** One flattened vehicle. `scheduledTaskTime` is None (the key is not present) until
      the pipeline stamps the record. */
  datatype VehicleRecord = VehicleRecord(
    routeKey: Option<string>,
    routeSymbol: Option<string>,
    routeName: Option<string>,
    directionKey: Option<Scalar>,
    vehicleName: Option<Scalar>,
    passengerCapacity: Option<Scalar>,
    passengersOnboard: Option<Scalar>,
    amenities: string,
    lastGpsDate: Option<Scalar>,
    latitude: Option<Scalar>,
    longitude: Option<Scalar>,
    speed: Option<Scalar>,
    heading: Option<Scalar>,
    isExtraTrip: Option<Scalar>,
    scheduledTaskTime: Option<string>)

  datatype Extracted = Extracted(stops: seq<StopRecord>, vehicles: seq<VehicleRecord>)

  /** The route-level values every record of a route carries. */
  datatype RouteContext = RouteContext(routeKey: Option<string>, symbol: Option<string>, name: Option<string>)

  /** Symbol and name given to a route key the directory does not know. */
  const Unknown := "Unknown"

  /** The separator amenity names are joined with. */
  const AmenitySeparator := ", "

  // ---------------------------------------------------------------- well-formedness

  /** The response parts the loops can process without raising. */
  predicate PathOk(p: PatternPath)
  {
    !p.patternPoints.Null?
  }

  predicate VehicleOk(v: Vehicle)
  {
    && !v.amenities.Null?
    && (forall a :: 0 <= a < |Items(v.amenities)| ==> Items(v.amenities)[a].name.Val?)
    && !v.location.Null?
  }

  predicate DirectionOk(d: Direction)
  {
    && !d.vehicles.Null?
    && forall k :: 0 <= k < |Items(d.vehicles)| ==> VehicleOk(Items(d.vehicles)[k])
  }

  predicate RouteOk(r: RouteTelemetry)
  {
    && !r.patternPaths.Null?
    && (forall j :: 0 <= j < |Items(r.patternPaths)| ==> PathOk(Items(r.patternPaths)[j]))
    && !r.vehiclesByDirections.Null?
    && (forall j :: 0 <= j < |Items(r.vehiclesByDirections)| ==> DirectionOk(Items(r.vehiclesByDirections)[j]))
  }

  // ---------------------------------------------------------------- counts

  /** Number of pattern points under the first `m` patterns. */
  function PointsUpTo(paths: seq<PatternPath>, m: int): nat
    requires 0 <= m <= |paths|
  {
    if m == 0 then 0 else PointsUpTo(paths, m - 1) + |Items(paths[m - 1].patternPoints)|
  }

  /** Number of pattern points of one route. */
  function RoutePoints(route: RouteTelemetry): nat
  {
    PointsUpTo(Items(route.patternPaths), |Items(route.patternPaths)|)
  }

  /** Number of pattern points under all patterns of the first `m` routes. */
  function RoutePointsUpTo(routes: seq<RouteTelemetry>, m: int): nat
    requires 0 <= m <= |routes|
  {
    if m == 0 then 0 else RoutePointsUpTo(routes, m - 1) + RoutePoints(routes[m - 1])
  }

  /** Number of vehicles under the first `m` directions. */
  function VehiclesUpTo(ds: seq<Direction>, m: int): nat
    requires 0 <= m <= |ds|
  {
    if m == 0 then 0 else VehiclesUpTo(ds, m - 1) + |Items(ds[m - 1].vehicles)|
  }

  /** Number of vehicles of one route. */
  function RouteVehicleCount(route: RouteTelemetry): nat
  {
    VehiclesUpTo(Items(route.vehiclesByDirections), |Items(route.vehiclesByDirections)|)
  }

  /** Number of vehicles under all directions of the first `m` routes. */
  function RouteVehiclesUpTo(routes: seq<RouteTelemetry>, m: int): nat
    requires 0 <= m <= |routes|
  {
    if m == 0 then 0 else RouteVehiclesUpTo(routes, m - 1) + RouteVehicleCount(routes[m - 1])
  }

  /** Number of pattern points in the whole response. */
  function TotalPoints(routes: seq<RouteTelemetry>): nat
  {
    RoutePointsUpTo(routes, |routes|)
  }

  /** Number of vehicles in the whole response. */
  function TotalVehicles(routes: seq<RouteTelemetry>): nat
  {
    RouteVehiclesUpTo(routes, |routes|)
  }

  // ---------------------------------------------------------------- stop records

  /** `route_dict.get(route_key, ['Unknown', 'Unknown'])`. */
  function Context(route: RouteTelemetry, dict: Routes.RouteDict): (ctx: RouteContext)
    ensures CarriesRoute(ctx.routeKey, ctx.symbol, ctx.name, route, dict)
  {
    var key := route.routeKey.Get();
    if key.Some? && key.value in dict then RouteContext(key, dict[key.value].symbol, dict[key.value].name)
    else RouteContext(key, Some(Unknown), Some(Unknown))
  }

  /** The record of one pattern point; `point.get('stop') or {}` turns a missing or
      null stop into an empty object. */
  function StopOf(ctx: RouteContext, path: PatternPath, point: PatternPoint): (r: StopRecord)
    ensures r.routeKey == ctx.routeKey && r.routeSymbol == ctx.symbol && r.routeName == ctx.name
    ensures r.patternKey == path.patternKey.Get() && r.directionKey == path.directionKey.Get()
    ensures point.stop.Val? ==> r.stopName == point.stop.value.name.Get() && r.stopCode == point.stop.value.stopCode.Get()
    ensures !point.stop.Val? ==> r.stopName == None && r.stopCode == None
    ensures r.latitude == point.latitude.Get() && r.longitude == point.longitude.Get()
  {
    var info := if point.stop.Val? then point.stop.value else StopInfo(Absent, Absent);
    StopRecord(
      ctx.routeKey, ctx.symbol, ctx.name,
      path.patternKey.Get(), path.directionKey.Get(),
      info.name.Get(), info.stopCode.Get(),
      point.latitude.Get(), point.longitude.Get())
  }

  /** The point loop of one pattern: one record per point, in point order, never
      skipping one. `PathStopsAt` places these records in the route's stop list. */
  function PointStops(ctx: RouteContext, path: PatternPath, points: seq<PatternPoint>): (r: seq<StopRecord>)
    ensures |r| == |points|
    ensures forall k :: 0 <= k < |points| ==> r[k] == StopOf(ctx, path, points[k])
  {
    seq(|points|, k requires 0 <= k < |points| => StopOf(ctx, path, points[k]))
  }

  /** The pattern loop of one route, after its first `m` patterns. */
  function PathStops(ctx: RouteContext, paths: seq<PatternPath>, m: int): (r: Result<seq<StopRecord>>)
    requires 0 <= m <= |paths|
    ensures r.Success? ==> |r.value| == PointsUpTo(paths, m)
  {
    if m == 0 then Success([])
    else
      match PathStops(ctx, paths, m - 1)
      case Failure(e) => Failure(e)
      case Success(acc) =>
        match Iterate(paths[m - 1].patternPoints, "patternPoints")
        case Failure(e) => Failure(e)
        case Success(points) => Success(acc + PointStops(ctx, paths[m - 1], points))
  }

  /** The stop records of one route. */
  function RouteStops(route: RouteTelemetry, dict: Routes.RouteDict): (r: Result<seq<StopRecord>>)
    ensures r.Success? ==> |r.value| == RoutePoints(route)
  {
    match Iterate(route.patternPaths, "patternPaths")
    case Failure(e) => Failure(e)
    case Success(paths) => PathStops(Context(route, dict), paths, |paths|)
  }

  // ---------------------------------------------------------------- vehicle records

  /** `', '.join` over the names of the first `m` amenities: a None name raises. */
  function JoinUpTo(amenities: seq<Amenity>, m: int): (r: Result<string>)
    requires 0 <= m <= |amenities|
    ensures r.Success? <==> forall a :: 0 <= a < m ==> amenities[a].name.Val?
    ensures r.Failure? ==> r.error == JoinOfNone("amenities")
  {
    if m == 0 then Success("")
    else
      match JoinUpTo(amenities, m - 1)
      case Failure(e) => Failure(e)
      case Success(acc) =>
        var name := amenities[m - 1].name;
        if !name.Val? then Failure(JoinOfNone("amenities"))
        else if m == 1 then Success(name.value)
        else Success(acc + AmenitySeparator + name.value)
  }

  /** `', '.join(a.get('name') for a in amenities)`. */
  function JoinNames(amenities: seq<Amenity>): (r: Result<string>)
    ensures r.Success? <==> forall a :: 0 <= a < |amenities| ==> amenities[a].name.Val?
    ensures r.Failure? ==> r.error == JoinOfNone("amenities")
    ensures amenities == [] ==> r == Success("")
    ensures |amenities| == 1 && amenities[0].name.Val? ==> r == Success(amenities[0].name.value)
  {
    JoinUpTo(amenities, |amenities|)
  }

  /** Total length of the names of the first `m` amenities. */
  function NameLengths(amenities: seq<Amenity>, m: int): nat
    requires 0 <= m <= |amenities|
  {
    if m == 0 then 0
    else
      var name := amenities[m - 1].name;
      NameLengths(amenities, m - 1) + (if name.Val? then |name.value| else 0)
  }

  /** The joined text is the names with one ", " between each pair and none at either
      end, so its length is the names' total plus two per gap. */
  lemma {:induction false} JoinedLength(amenities: seq<Amenity>, m: int)
    requires 0 < m <= |amenities| && JoinUpTo(amenities, m).Success?
    ensures |JoinUpTo(amenities, m).value| == NameLengths(amenities, m) + |AmenitySeparator| * (m - 1)
  {
    if m > 1 {
      JoinedLength(amenities, m - 1);
    }
  }

  /** Name `a` of the joined text starts after the names before it and one ", " per
      earlier name; a ", " follows it unless it is the last name, which ends the text. */
  lemma {:induction false} JoinedNameAt(amenities: seq<Amenity>, m: int, a: int)
    requires 0 < m <= |amenities| && JoinUpTo(amenities, m).Success?
    requires 0 <= a < m
    ensures var s := JoinUpTo(amenities, m).value;
            var name := amenities[a].name.Get().value;
            var off := NameLengths(amenities, a) + |AmenitySeparator| * a;
            && off + |name| <= |s|
            && s[off..off + |name|] == name
            && (a < m - 1 ==> off + |name| + |AmenitySeparator| <= |s| &&
                              s[off + |name|..off + |name| + |AmenitySeparator|] == AmenitySeparator)
            && (a == m - 1 ==> off + |name| == |s|)
  {
    if m > 1 {
      var acc := JoinUpTo(amenities, m - 1).value;
      var s := JoinUpTo(amenities, m).value;
      var last := amenities[m - 1].name.value;
      assert s == acc + AmenitySeparator + last;
      JoinedLength(amenities, m - 1);
      if a < m - 1 {
        JoinedNameAt(amenities, m - 1, a);
        assert s[..|acc|] == acc;
      }
    }
  }

  /** The record of one vehicle. The amenities are read (and joined) before the
      location, so their errors come first; a missing location reads as `{}`, an
      explicit null one raises on `.get`. */
  function VehicleOf(ctx: RouteContext, directionKey: Option<Scalar>, v: Vehicle): (r: Result<VehicleRecord>)
    ensures r.Success? <==> VehicleOk(v)
  {
    match Iterate(v.amenities, "amenities")
    case Failure(e) => Failure(e)
    case Success(amenities) =>
      match JoinNames(amenities)
      case Failure(e) => Failure(e)
      case Success(joined) =>
        if v.location.Null? then Failure(NullHasNoGet("location"))
        else
          var loc := if v.location.Val? then v.location.value else Location(Absent, Absent, Absent, Absent, Absent);
          Success(VehicleRecord(
            ctx.routeKey, ctx.symbol, ctx.name,
            directionKey,
            v.name.Get(), v.passengerCapacity.Get(), v.passengersOnboard.Get(),
            joined,
            loc.lastGpsDate.Get(), loc.latitude.Get(), loc.longitude.Get(), loc.speed.Get(), loc.heading.Get(),
            v.isExtraTrip.Get(),
            None))
  }

  /** The vehicle loop of one direction, after its first `m` vehicles. */
  function VehiclesOf(ctx: RouteContext, directionKey: Option<Scalar>, vs: seq<Vehicle>, m: int): (r: Result<seq<VehicleRecord>>)
    requires 0 <= m <= |vs|
    ensures r.Success? ==> |r.value| == m
  {
    if m == 0 then Success([])
    else
      match VehiclesOf(ctx, directionKey, vs, m - 1)
      case Failure(e) => Failure(e)
      case Success(acc) =>
        match VehicleOf(ctx, directionKey, vs[m - 1])
        case Failure(e) => Failure(e)
        case Success(record) => Success(acc + [record])
  }

  /** The direction loop of one route, after its first `m` directions. */
  function DirectionVehicles(ctx: RouteContext, ds: seq<Direction>, m: int): (r: Result<seq<VehicleRecord>>)
    requires 0 <= m <= |ds|
    ensures r.Success? ==> |r.value| == VehiclesUpTo(ds, m)
  {
    if m == 0 then Success([])
    else
      var d := ds[m - 1];
      match DirectionVehicles(ctx, ds, m - 1)
      case Failure(e) => Failure(e)
      case Success(acc) =>
        match Iterate(d.vehicles, "vehicles")
        case Failure(e) => Failure(e)
        case Success(vs) =>
          match VehiclesOf(ctx, d.directionKey.Get(), vs, |vs|)
          case Failure(e) => Failure(e)
          case Success(records) => Success(acc + records)
  }

  /** The vehicle records of one route. */
  function RouteVehicles(route: RouteTelemetry, dict: Routes.RouteDict): (r: Result<seq<VehicleRecord>>)
    ensures r.Success? ==> |r.value| == RouteVehicleCount(route)
  {
    match Iterate(route.vehiclesByDirections, "vehiclesByDirections")
    case Failure(e) => Failure(e)
    case Success(ds) => DirectionVehicles(Context(route, dict), ds, |ds|)
  }

  // ---------------------------------------------------------------- the whole response

  /** What one route contributes to the response: its stop records, then its vehicle
      records, or the exception each raised. */
  datatype RoutePart = RoutePart(stops: Result<seq<StopRecord>>, vehicles: Result<seq<VehicleRecord>>)

  predicate PartOk(p: RoutePart)
  {
    p.stops.Success? && p.vehicles.Success?
  }

  function PartOf(route: RouteTelemetry, dict: Routes.RouteDict): RoutePart
  {
    RoutePart(RouteStops(route, dict), RouteVehicles(route, dict))
  }

  /** The contribution of every route, in response order. */
  function Parts(routes: seq<RouteTelemetry>, dict: Routes.RouteDict): (ps: seq<RoutePart>)
    ensures |ps| == |routes|
  {
    seq(|routes|, i requires 0 <= i < |routes| => PartOf(routes[i], dict))
  }

  /** Number of stop records of the first `m` parts. */
  function PartStops(parts: seq<RoutePart>, m: int): nat
    requires 0 <= m <= |parts|
  {
    if m == 0 then 0
    else PartStops(parts, m - 1) + (if parts[m - 1].stops.Success? then |parts[m - 1].stops.value| else 0)
  }

  /** Number of vehicle records of the first `m` parts. */
  function PartVehicles(parts: seq<RoutePart>, m: int): nat
    requires 0 <= m <= |parts|
  {
    if m == 0 then 0
    else PartVehicles(parts, m - 1) + (if parts[m - 1].vehicles.Success? then |parts[m - 1].vehicles.value| else 0)
  }

  /** The route loop after its first `m` routes: the first exception raised, in the
      order route 0's stops, route 0's vehicles, route 1's stops, ..., or the records
      of all of them concatenated in that order. */
  function Gather(parts: seq<RoutePart>, m: int): (r: Result<Extracted>)
    requires 0 <= m <= |parts|
    ensures r.Success? <==> forall i :: 0 <= i < m ==> PartOk(parts[i])
    ensures r.Success? ==> |r.value.stops| == PartStops(parts, m)
    ensures r.Success? ==> |r.value.vehicles| == PartVehicles(parts, m)
  {
    if m == 0 then Success(Extracted([], []))
    else
      match Gather(parts, m - 1)
      case Failure(e) => Failure(e)
      case Success(acc) =>
        match parts[m - 1].stops
        case Failure(e) => Failure(e)
        case Success(stops) =>
          match parts[m - 1].vehicles
          case Failure(e) => Failure(e)
          case Success(vehicles) => Success(Extracted(acc.stops + stops, acc.vehicles + vehicles))
  }

  /** The flattening of the whole response. */
  function Extract(routes: seq<RouteTelemetry>, dict: Routes.RouteDict): (r: Result<Extracted>)
    ensures r.Success? <==> forall i :: 0 <= i < |routes| ==> PartOk(PartOf(routes[i], dict))
  {
    var ps := Parts(routes, dict);
    assert forall i :: 0 <= i < |routes| ==> ps[i] == PartOf(routes[i], dict);
    Gather(ps, |routes|)
  }

  /** fetch_and_process_bus_data: the POST or JSON parse raises before any record is
      produced; otherwise the response is flattened. */
  function FetchAndProcessBusData(resp: Response<seq<RouteTelemetry>>, dict: Routes.RouteDict): (r: Result<Extracted>)
    ensures resp.HttpFailed? ==> r == Failure(RequestFailed)
    ensures resp.BodyNotJson? ==> r == Failure(NotJson)
    ensures resp.Received? ==> r == Extract(resp.body, dict)
  {
    match resp.Body()
    case Failure(e) => Failure(e)
    case Success(routes) => Extract(routes, dict)
  }

  // ---------------------------------------------------------------- when the extractor raises

  /** The pattern loop raises exactly when a pattern's point list is an explicit null. */
  lemma {:induction false} PathStopsSucceeds(ctx: RouteContext, paths: seq<PatternPath>, m: int)
    requires 0 <= m <= |paths|
    ensures PathStops(ctx, paths, m).Success? <==> forall j :: 0 <= j < m ==> PathOk(paths[j])
    ensures PathStops(ctx, paths, m).Failure? ==> PathStops(ctx, paths, m).error == NotIterable("patternPoints")
  {
    if m > 0 {
      PathStopsSucceeds(ctx, paths, m - 1);
    }
  }

  /** The vehicle loop of a direction raises exactly when one of its vehicles is malformed. */
  lemma {:induction false} VehiclesOfSucceeds(ctx: RouteContext, directionKey: Option<Scalar>, vs: seq<Vehicle>, m: int)
    requires 0 <= m <= |vs|
    ensures VehiclesOf(ctx, directionKey, vs, m).Success? <==> forall k :: 0 <= k < m ==> VehicleOk(vs[k])
  {
    if m > 0 {
      VehiclesOfSucceeds(ctx, directionKey, vs, m - 1);
    }
  }

  /** The direction loop raises exactly when one of its directions is malformed. */
  lemma {:induction false} DirectionVehiclesSucceeds(ctx: RouteContext, ds: seq<Direction>, m: int)
    requires 0 <= m <= |ds|
    ensures DirectionVehicles(ctx, ds, m).Success? <==> forall j :: 0 <= j < m ==> DirectionOk(ds[j])
  {
    if m > 0 {
      DirectionVehiclesSucceeds(ctx, ds, m - 1);
      var vs := Items(ds[m - 1].vehicles);
      VehiclesOfSucceeds(ctx, ds[m - 1].directionKey.Get(), vs, |vs|);
    }
  }

  lemma RouteSucceeds(route: RouteTelemetry, dict: Routes.RouteDict)
    ensures RouteStops(route, dict).Success? && RouteVehicles(route, dict).Success? <==> RouteOk(route)
  {
    var paths := Items(route.patternPaths);
    var ds := Items(route.vehiclesByDirections);
    PathStopsSucceeds(Context(route, dict), paths, |paths|);
    DirectionVehiclesSucceeds(Context(route, dict), ds, |ds|);
  }

  /** Flattening raises exactly when the response holds an explicit null where the
      code iterates a list or reads the location, or an amenity name that is missing
      or null. */
  lemma ExtractSucceeds(routes: seq<RouteTelemetry>, dict: Routes.RouteDict)
    ensures Extract(routes, dict).Success? <==> forall i :: 0 <= i < |routes| ==> RouteOk(routes[i])
  {
    forall i | 0 <= i < |routes|
      ensures PartOk(PartOf(routes[i], dict)) <==> RouteOk(routes[i])
    {
      RouteSucceeds(routes[i], dict);
    }
  }

  /** Every part succeeded and holds as many records as its route has pattern points
      and vehicles. */
  predicate Sized(routes: seq<RouteTelemetry>, ps: seq<RoutePart>)
  {
    && |ps| == |routes|
    && forall i :: 0 <= i < |ps| ==>
         && PartOk(ps[i])
         && |ps[i].stops.value| == RoutePoints(routes[i])
         && |ps[i].vehicles.value| == RouteVehicleCount(routes[i])
  }

  /** Sized parts contribute, together, as many records as their routes have points
      and vehicles. */
  lemma {:induction false} PartCounts(routes: seq<RouteTelemetry>, ps: seq<RoutePart>, m: int)
    requires Sized(routes, ps) && 0 <= m <= |ps|
    ensures PartStops(ps, m) == RoutePointsUpTo(routes, m)
    ensures PartVehicles(ps, m) == RouteVehiclesUpTo(routes, m)
  {
    if m > 0 {
      PartCounts(routes, ps, m - 1);
    }
  }

  /** After a successful flattening every route's part is sized. */
  lemma PartsSized(routes: seq<RouteTelemetry>, dict: Routes.RouteDict)
    requires Extract(routes, dict).Success?
    ensures Sized(routes, Parts(routes, dict))
  {
    var ps := Parts(routes, dict);
    forall i | 0 <= i < |ps|
      ensures PartOk(ps[i]) && |ps[i].stops.value| == RoutePoints(routes[i])
      ensures |ps[i].vehicles.value| == RouteVehicleCount(routes[i])
    {
      assert ps[i] == PartOf(routes[i], dict);
    }
  }

  /** A successful flattening has one stop record per pattern point and one vehicle
      record per vehicle of the response. */
  lemma ExtractCounts(routes: seq<RouteTelemetry>, dict: Routes.RouteDict)
    requires Extract(routes, dict).Success?
    ensures |Extract(routes, dict).value.stops| == TotalPoints(routes)
    ensures |Extract(routes, dict).value.vehicles| == TotalVehicles(routes)
  {
    PartsSized(routes, dict);
    PartCounts(routes, Parts(routes, dict), |routes|);
  }

  // ---------------------------------------------------------------- positions and order

  /** Point `k` of pattern `j` becomes the record after the points of the patterns
      before it. */
  lemma {:induction false} PathStopsAt(ctx: RouteContext, paths: seq<PatternPath>, m: int, j: int, k: int)
    requires 0 <= m <= |paths| && PathStops(ctx, paths, m).Success?
    requires 0 <= j < m && 0 <= k < |Items(paths[j].patternPoints)|
    ensures PointsUpTo(paths, j) + k < |PathStops(ctx, paths, m).value|
    ensures PathStops(ctx, paths, m).value[PointsUpTo(paths, j) + k]
            == StopOf(ctx, paths[j], Items(paths[j].patternPoints)[k])
  {
    if j < m - 1 {
      PathStopsAt(ctx, paths, m - 1, j, k);
    }
  }

  /** Vehicle `k` of a direction becomes its record number `k`. */
  lemma {:induction false} VehiclesOfAt(ctx: RouteContext, directionKey: Option<Scalar>, vs: seq<Vehicle>, m: int, k: int)
    requires 0 <= m <= |vs| && VehiclesOf(ctx, directionKey, vs, m).Success?
    requires 0 <= k < m
    ensures VehicleOf(ctx, directionKey, vs[k]) == Success(VehiclesOf(ctx, directionKey, vs, m).value[k])
  {
    if k < m - 1 {
      VehiclesOfAt(ctx, directionKey, vs, m - 1, k);
    }
  }

  /** A position of the left operand of a concatenation. */
  lemma AppendLeft<T>(a: seq<T>, b: seq<T>, all: seq<T>, off: int)
    requires all == a + b && 0 <= off < |a|
    ensures off < |all| && all[off] == a[off]
  {
  }

  /** A position of the right operand of a concatenation. */
  lemma AppendRight<T>(a: seq<T>, b: seq<T>, all: seq<T>, x: int, off: int)
    requires all == a + b && 0 <= x < |b| && off == |a| + x
    ensures off < |all| && all[off] == b[x]
  {
  }

  /** The records of direction `j` sit, in order, after those of the directions before it. */
  lemma {:induction false} DirectionVehiclesAt(ctx: RouteContext, ds: seq<Direction>, m: int, j: int, x: int, off: int)
    requires 0 <= m <= |ds| && DirectionVehicles(ctx, ds, m).Success?
    requires 0 <= j < m && 0 <= x < |Items(ds[j].vehicles)| && off == VehiclesUpTo(ds, j) + x
    ensures VehiclesOf(ctx, ds[j].directionKey.Get(), Items(ds[j].vehicles), |Items(ds[j].vehicles)|).Success?
    ensures off < |DirectionVehicles(ctx, ds, m).value|
    ensures DirectionVehicles(ctx, ds, m).value[off]
            == VehiclesOf(ctx, ds[j].directionKey.Get(), Items(ds[j].vehicles), |Items(ds[j].vehicles)|).value[x]
  {
    var acc := DirectionVehicles(ctx, ds, m - 1).value;
    var vs := Items(ds[m - 1].vehicles);
    var mine := VehiclesOf(ctx, ds[m - 1].directionKey.Get(), vs, |vs|).value;
    var all := DirectionVehicles(ctx, ds, m).value;
    assert all == acc + mine;
    if j < m - 1 {
      DirectionVehiclesAt(ctx, ds, m - 1, j, x, off);
      VehiclesUpToMono(ds, j, m - 1);
      AppendLeft(acc, mine, all, off);
    } else {
      AppendRight(acc, mine, all, x, off);
    }
  }

  /** Position of point `k` of pattern `j` of route `i` among all stop records: the
      points of every earlier route, then of every earlier pattern of route `i`. */
  function StopOffset(routes: seq<RouteTelemetry>, i: int, j: int, k: nat): nat
    requires 0 <= i < |routes| && 0 <= j <= |Items(routes[i].patternPaths)|
  {
    RoutePointsUpTo(routes, i) + (PointsUpTo(Items(routes[i].patternPaths), j) + k)
  }

  /** Position of vehicle `k` of direction `j` of route `i` among all vehicle records. */
  function VehicleOffset(routes: seq<RouteTelemetry>, i: int, j: int, k: nat): nat
    requires 0 <= i < |routes| && 0 <= j <= |Items(routes[i].vehiclesByDirections)|
  {
    RouteVehiclesUpTo(routes, i) + (VehiclesUpTo(Items(routes[i].vehiclesByDirections), j) + k)
  }

  /** The stop records of part `i` sit, in order, after those of the parts before it. */
  lemma {:induction false} GatherStopsAt(parts: seq<RoutePart>, m: int, i: int, x: int)
    requires 0 <= m <= |parts| && Gather(parts, m).Success?
    requires 0 <= i < m && parts[i].stops.Success? && 0 <= x < |parts[i].stops.value|
    ensures PartStops(parts, i) + x < |Gather(parts, m).value.stops|
    ensures Gather(parts, m).value.stops[PartStops(parts, i) + x] == parts[i].stops.value[x]
  {
    if i < m - 1 {
      GatherStopsAt(parts, m - 1, i, x);
    }
  }

  /** The vehicle records of part `i` sit, in order, after those of the parts before it. */
  lemma {:induction false} GatherVehiclesAt(parts: seq<RoutePart>, m: int, i: int, x: int)
    requires 0 <= m <= |parts| && Gather(parts, m).Success?
    requires 0 <= i < m && parts[i].vehicles.Success? && 0 <= x < |parts[i].vehicles.value|
    ensures PartVehicles(parts, i) + x < |Gather(parts, m).value.vehicles|
    ensures Gather(parts, m).value.vehicles[PartVehicles(parts, i) + x] == parts[i].vehicles.value[x]
  {
    if i < m - 1 {
      GatherVehiclesAt(parts, m - 1, i, x);
    }
  }

  /** Point `k` of pattern `j` of a route is its stop record number `x`. */
  lemma RouteStopAt(route: RouteTelemetry, dict: Routes.RouteDict, j: int, k: int, x: int)
    requires RouteStops(route, dict).Success?
    requires 0 <= j < |Items(route.patternPaths)| && 0 <= k < |Items(Items(route.patternPaths)[j].patternPoints)|
    requires x == PointsUpTo(Items(route.patternPaths), j) + k
    ensures x < |RouteStops(route, dict).value|
    ensures RouteStops(route, dict).value[x]
            == StopOf(Context(route, dict), Items(route.patternPaths)[j], Items(Items(route.patternPaths)[j].patternPoints)[k])
  {
    var paths := Items(route.patternPaths);
    PathStopsAt(Context(route, dict), paths, |paths|, j, k);
  }

  /** Vehicle `k` of direction `j` of a route is its vehicle record number `x`. */
  lemma RouteVehicleAt(route: RouteTelemetry, dict: Routes.RouteDict, j: int, k: int, x: int)
    requires RouteVehicles(route, dict).Success?
    requires 0 <= j < |Items(route.vehiclesByDirections)| && 0 <= k < |Items(Items(route.vehiclesByDirections)[j].vehicles)|
    requires x == VehiclesUpTo(Items(route.vehiclesByDirections), j) + k
    ensures x < |RouteVehicles(route, dict).value|
    ensures VehicleOf(Context(route, dict), Items(route.vehiclesByDirections)[j].directionKey.Get(),
                      Items(Items(route.vehiclesByDirections)[j].vehicles)[k])
            == Success(RouteVehicles(route, dict).value[x])
  {
    var ds := Items(route.vehiclesByDirections);
    var vs := Items(ds[j].vehicles);
    DirectionVehiclesAt(Context(route, dict), ds, |ds|, j, k, x);
    VehiclesOfAt(Context(route, dict), ds[j].directionKey.Get(), vs, |vs|, k);
  }

  /** The stop records of sized part `i` sit after those of the routes before it. */
  lemma SizedStopsAt(routes: seq<RouteTelemetry>, ps: seq<RoutePart>, i: int, x: int, off: int)
    requires Sized(routes, ps) && 0 <= i < |ps| && 0 <= x < RoutePoints(routes[i]) && off == RoutePointsUpTo(routes, i) + x
    ensures Gather(ps, |routes|).Success?
    ensures off < |Gather(ps, |routes|).value.stops|
    ensures Gather(ps, |routes|).value.stops[off] == ps[i].stops.value[x]
  {
    PartCounts(routes, ps, i);
    GatherStopsAt(ps, |ps|, i, x);
  }

  /** The vehicle records of sized part `i` sit after those of the routes before it. */
  lemma SizedVehiclesAt(routes: seq<RouteTelemetry>, ps: seq<RoutePart>, i: int, x: int, off: int)
    requires Sized(routes, ps) && 0 <= i < |ps| && 0 <= x < RouteVehicleCount(routes[i]) && off == RouteVehiclesUpTo(routes, i) + x
    ensures Gather(ps, |routes|).Success?
    ensures off < |Gather(ps, |routes|).value.vehicles|
    ensures Gather(ps, |routes|).value.vehicles[off] == ps[i].vehicles.value[x]
  {
    PartCounts(routes, ps, i);
    GatherVehiclesAt(ps, |ps|, i, x);
  }

  /** The stop records of route `i` sit, in order, after those of the routes before it. */
  lemma ExtractRouteStops(routes: seq<RouteTelemetry>, dict: Routes.RouteDict, i: int, x: int, off: int)
    requires Extract(routes, dict).Success?
    requires 0 <= i < |routes| && 0 <= x < RoutePoints(routes[i]) && off == RoutePointsUpTo(routes, i) + x
    ensures RouteStops(routes[i], dict).Success?
    ensures x < |RouteStops(routes[i], dict).value|
    ensures off < |Extract(routes, dict).value.stops|
    ensures Extract(routes, dict).value.stops[off] == RouteStops(routes[i], dict).value[x]
  {
    PartsSized(routes, dict);
    SizedStopsAt(routes, Parts(routes, dict), i, x, off);
    assert Parts(routes, dict)[i] == PartOf(routes[i], dict);
  }

  /** The vehicle records of route `i` sit, in order, after those of the routes before it. */
  lemma ExtractRouteVehicles(routes: seq<RouteTelemetry>, dict: Routes.RouteDict, i: int, x: int, off: int)
    requires Extract(routes, dict).Success?
    requires 0 <= i < |routes| && 0 <= x < RouteVehicleCount(routes[i]) && off == RouteVehiclesUpTo(routes, i) + x
    ensures RouteVehicles(routes[i], dict).Success?
    ensures x < |RouteVehicles(routes[i], dict).value|
    ensures off < |Extract(routes, dict).value.vehicles|
    ensures Extract(routes, dict).value.vehicles[off] == RouteVehicles(routes[i], dict).value[x]
  {
    PartsSized(routes, dict);
    SizedVehiclesAt(routes, Parts(routes, dict), i, x, off);
    assert Parts(routes, dict)[i] == PartOf(routes[i], dict);
  }

  /** Point `k` of pattern `j` of route `i` becomes the stop record at
      StopOffset(routes, i, j, k). */
  lemma ExtractStopAt(routes: seq<RouteTelemetry>, dict: Routes.RouteDict, i: int, j: int, k: int)
    requires Extract(routes, dict).Success?
    requires 0 <= i < |routes| && 0 <= j < |Items(routes[i].patternPaths)|
    requires 0 <= k < |Items(Items(routes[i].patternPaths)[j].patternPoints)|
    ensures StopOffset(routes, i, j, k) < |Extract(routes, dict).value.stops|
    ensures Extract(routes, dict).value.stops[StopOffset(routes, i, j, k)]
            == StopOf(Context(routes[i], dict), Items(routes[i].patternPaths)[j],
                      Items(Items(routes[i].patternPaths)[j].patternPoints)[k])
  {
    var paths := Items(routes[i].patternPaths);
    PointsUpToMono(paths, j, |paths|);
    var x := PointsUpTo(paths, j) + k;
    ExtractRouteStops(routes, dict, i, x, StopOffset(routes, i, j, k));
    RouteStopAt(routes[i], dict, j, k, x);
  }

  /** Vehicle `k` of direction `j` of route `i` becomes the vehicle record at
      VehicleOffset(routes, i, j, k). */
  lemma ExtractVehicleAt(routes: seq<RouteTelemetry>, dict: Routes.RouteDict, i: int, j: int, k: int)
    requires Extract(routes, dict).Success?
    requires 0 <= i < |routes| && 0 <= j < |Items(routes[i].vehiclesByDirections)|
    requires 0 <= k < |Items(Items(routes[i].vehiclesByDirections)[j].vehicles)|
    ensures VehicleOffset(routes, i, j, k) < |Extract(routes, dict).value.vehicles|
    ensures VehicleOf(Context(routes[i], dict), Items(routes[i].vehiclesByDirections)[j].directionKey.Get(),
                      Items(Items(routes[i].vehiclesByDirections)[j].vehicles)[k])
            == Success(Extract(routes, dict).value.vehicles[VehicleOffset(routes, i, j, k)])
  {
    var ds := Items(routes[i].vehiclesByDirections);
    VehiclesUpToMono(ds, j, |ds|);
    var x := VehiclesUpTo(ds, j) + k;
    ExtractRouteVehicles(routes, dict, i, x, VehicleOffset(routes, i, j, k));
    RouteVehicleAt(routes[i], dict, j, k, x);
  }

  /** The route fields a record carries: the route's key, and the directory's
      (shortName, name) for it, or ("Unknown", "Unknown") when the key is missing from
      the response or from the directory. */
  predicate CarriesRoute(key: Option<string>, symbol: Option<string>, name: Option<string>,
                         route: RouteTelemetry, dict: Routes.RouteDict)
  {
    && key == route.routeKey.Get()
    && (route.routeKey.Val? && route.routeKey.value in dict ==>
          symbol == dict[route.routeKey.value].symbol && name == dict[route.routeKey.value].name)
    && (!(route.routeKey.Val? && route.routeKey.value in dict) ==>
          symbol == Some(Unknown) && name == Some(Unknown))
  }

  /** A stop record carries the route's fields (with the "Unknown" default), the
      pattern's keys, the stop's name and code (None when the stop is missing or null)
      and the point's coordinates. */
  lemma StopRecordFields(route: RouteTelemetry, dict: Routes.RouteDict, path: PatternPath, point: PatternPoint)
    ensures var s := StopOf(Context(route, dict), path, point);
            && CarriesRoute(s.routeKey, s.routeSymbol, s.routeName, route, dict)
            && s.patternKey == path.patternKey.Get()
            && s.directionKey == path.directionKey.Get()
            && (point.stop.Val? ==> s.stopName == point.stop.value.name.Get()
                                    && s.stopCode == point.stop.value.stopCode.Get())
            && (!point.stop.Val? ==> s.stopName == None && s.stopCode == None)
            && s.latitude == point.latitude.Get()
            && s.longitude == point.longitude.Get()
  {
  }

  /** A vehicle record carries the route's fields, the direction key, the vehicle's
      own fields, its amenity names joined with ", " ("" when there are none), and its
      location fields, all None when the location is missing; it has no scheduled
      time yet. */
  lemma VehicleRecordFields(route: RouteTelemetry, dict: Routes.RouteDict, directionKey: Option<Scalar>,
                            v: Vehicle, r: VehicleRecord)
    requires VehicleOf(Context(route, dict), directionKey, v) == Success(r)
    ensures && CarriesRoute(r.routeKey, r.routeSymbol, r.routeName, route, dict)
            && r.directionKey == directionKey
            && r.vehicleName == v.name.Get()
            && r.passengerCapacity == v.passengerCapacity.Get()
            && r.passengersOnboard == v.passengersOnboard.Get()
            && r.isExtraTrip == v.isExtraTrip.Get()
            && JoinNames(Items(v.amenities)) == Success(r.amenities)
            && (Items(v.amenities) == [] ==> r.amenities == "")
            && (v.location.Absent? ==>
                  r.lastGpsDate == None && r.latitude == None && r.longitude == None
                  && r.speed == None && r.heading == None)
            && (v.location.Val? ==>
                  r.lastGpsDate == v.location.value.lastGpsDate.Get()
                  && r.latitude == v.location.value.latitude.Get()
                  && r.longitude == v.location.value.longitude.Get()
                  && r.speed == v.location.value.speed.Get()
                  && r.heading == v.location.value.heading.Get())
            && r.scheduledTaskTime == None
  {
  }

  lemma {:induction false} PointsUpToMono(paths: seq<PatternPath>, a: int, b: int)
    requires 0 <= a < b <= |paths|
    ensures PointsUpTo(paths, a) + |Items(paths[a].patternPoints)| <= PointsUpTo(paths, b)
  {
    if a < b - 1 {
      PointsUpToMono(paths, a, b - 1);
    }
  }

  lemma {:induction false} RoutePointsUpToMono(routes: seq<RouteTelemetry>, a: int, b: int)
    requires 0 <= a < b <= |routes|
    ensures RoutePointsUpTo(routes, a) + RoutePoints(routes[a]) <= RoutePointsUpTo(routes, b)
  {
    if a < b - 1 {
      RoutePointsUpToMono(routes, a, b - 1);
    }
  }

  lemma {:induction false} VehiclesUpToMono(ds: seq<Direction>, a: int, b: int)
    requires 0 <= a < b <= |ds|
    ensures VehiclesUpTo(ds, a) + |Items(ds[a].vehicles)| <= VehiclesUpTo(ds, b)
  {
    if a < b - 1 {
      VehiclesUpToMono(ds, a, b - 1);
    }
  }

  lemma {:induction false} RouteVehiclesUpToMono(routes: seq<RouteTelemetry>, a: int, b: int)
    requires 0 <= a < b <= |routes|
    ensures RouteVehiclesUpTo(routes, a) + RouteVehicleCount(routes[a]) <= RouteVehiclesUpTo(routes, b)
  {
    if a < b - 1 {
      RouteVehiclesUpToMono(routes, a, b - 1);
    }
  }

  /** Stop records come out in response order: by route, then pattern, then point. */
  lemma StopsInResponseOrder(routes: seq<RouteTelemetry>, i: int, j: int, k: int, i2: int, j2: int, k2: int)
    requires 0 <= i < |routes| && 0 <= j < |Items(routes[i].patternPaths)|
    requires 0 <= k < |Items(Items(routes[i].patternPaths)[j].patternPoints)|
    requires 0 <= i2 < |routes| && 0 <= j2 < |Items(routes[i2].patternPaths)|
    requires 0 <= k2
    requires i < i2 || (i == i2 && j < j2) || (i == i2 && j == j2 && k < k2)
    ensures StopOffset(routes, i, j, k) < StopOffset(routes, i2, j2, k2)
  {
    var paths := Items(routes[i].patternPaths);
    if i < i2 {
      PointsUpToMono(paths, j, |paths|);
      RoutePointsUpToMono(routes, i, i2);
    } else if j < j2 {
      PointsUpToMono(paths, j, j2);
    }
  }

  /** Vehicle records come out in response order: by route, then direction, then vehicle. */
  lemma VehiclesInResponseOrder(routes: seq<RouteTelemetry>, i: int, j: int, k: int, i2: int, j2: int, k2: int)
    requires 0 <= i < |routes| && 0 <= j < |Items(routes[i].vehiclesByDirections)|
    requires 0 <= k < |Items(Items(routes[i].vehiclesByDirections)[j].vehicles)|
    requires 0 <= i2 < |routes| && 0 <= j2 < |Items(routes[i2].vehiclesByDirections)|
    requires 0 <= k2
    requires i < i2 || (i == i2 && j < j2) || (i == i2 && j == j2 && k < k2)
    ensures VehicleOffset(routes, i, j, k) < VehicleOffset(routes, i2, j2, k2)
  {
    var ds := Items(routes[i].vehiclesByDirections);
    if i < i2 {
      VehiclesUpToMono(ds, j, |ds|);
      RouteVehiclesUpToMono(routes, i, i2);
    } else if j < j2 {
      VehiclesUpToMono(ds, j, j2);
    }
  }
}
