/**
 The route directory fetcher (dags/get_route.py): turns the parsed base-data response
 `{routes: [{key, shortName, name}]}` into the form payload for the telemetry request
 and the route-key -> (shortName, name) directory.
 */
module Routes {
  import opened Base

  /** One entry of the `routes` list. */
  datatype RouteEntry = RouteEntry(key: Field<string>, shortName: Field<string>, name: Field<string>)

  /** The parsed base-data response. */
  datatype BaseData = BaseData(routes: Field<seq<RouteEntry>>)

  /** Display metadata of a route key: (shortName, name), either of which may be None. */
  datatype RouteMeta = RouteMeta(symbol: Option<string>, name: Option<string>)

  /** Form-encoded body of the telemetry request: (field name, value) pairs. */
  type Payload = seq<(string, string)>

  /** The route-key directory handed to the telemetry extractor. */
  type RouteDict = map<string, RouteMeta>

  datatype RouteData = RouteData(payload: Payload, dict: RouteDict)

  /** The form field every payload pair carries. */
  const RouteKeysField := "routeKeys[]"

  /** `if route_key:` holds only for a present, non-null, non-empty key. */
  predicate Kept(r: RouteEntry)
    ensures Kept(r) <==> r.key.Get().Some? && r.key.Get().value != ""
  {
    r.key.Val? && r.key.value != ""
  }

  function MetaOf(r: RouteEntry): RouteMeta
  {
    RouteMeta(r.shortName.Get(), r.name.Get())
  }

  /** Indices of the routes the loop keeps. */
  function KeptIndices(routes: seq<RouteEntry>): set<int>
  {
    set i | 0 <= i < |routes| && Kept(routes[i])
  }

  /** Number of kept routes before index `i`. */
  function Rank(routes: seq<RouteEntry>, i: int): nat
    requires 0 <= i <= |routes|
  {
    |KeptIndices(routes[..i])|
  }

  /** Indices of the kept routes whose key is `k`. */
  function IndicesWithKey(routes: seq<RouteEntry>, k: string): set<int>
  {
    set i | 0 <= i < |routes| && Kept(routes[i]) && routes[i].key.value == k
  }

  /** The route loop: each kept route appends one payload pair and (re)binds its key
      in the directory; the payload is built from the kept keys in the same order. */
  function Normalise(routes: seq<RouteEntry>): (d: RouteData)
    ensures forall j :: 0 <= j < |d.payload| ==>
              d.payload[j].0 == RouteKeysField && d.payload[j].1 != "" && d.payload[j].1 in d.dict
  {
    if routes == [] then RouteData([], map[])
    else
      var acc := Normalise(routes[..|routes| - 1]);
      var r := routes[|routes| - 1];
      if Kept(r) then
        RouteData(acc.payload + [(RouteKeysField, r.key.value)], acc.dict[r.key.value := MetaOf(r)])
      else
        acc
  }

  /** get_route_keys: a failed request or unparsable body re-raises; a missing `routes`
      member gives nothing; an explicit null `routes` raises when iterated. */
  function GetRouteKeys(resp: Response<BaseData>): (r: Result<RouteData>)
    ensures resp.HttpFailed? ==> r == Failure(RequestFailed)
    ensures resp.BodyNotJson? ==> r == Failure(NotJson)
    ensures resp.Received? && resp.body.routes.Absent? ==> r == Success(RouteData([], map[]))
    ensures resp.Received? && resp.body.routes.Null? ==> r == Failure(NotIterable("routes"))
    ensures resp.Received? && resp.body.routes.Val? ==> r == Success(Normalise(resp.body.routes.value))
  {
    match resp.Body()
    case Failure(e) => Failure(e)
    case Success(data) =>
      match Iterate(data.routes, "routes")
      case Failure(e) => Failure(e)
      case Success(routes) => Success(Normalise(routes))
  }

  lemma KeptIndicesSnoc(routes: seq<RouteEntry>)
    requires routes != []
    ensures var n := |routes| - 1;
            KeptIndices(routes) == KeptIndices(routes[..n]) + (if Kept(routes[n]) then {n} else {})
  {
  }

  /** The payload has one pair per route with a truthy key: missing, null and empty
      keys are skipped. */
  lemma {:induction false} PayloadLength(routes: seq<RouteEntry>)
    ensures |Normalise(routes).payload| == |KeptIndices(routes)|
  {
    if routes != [] {
      var n := |routes| - 1;
      PayloadLength(routes[..n]);
      KeptIndicesSnoc(routes);
      assert n !in KeptIndices(routes[..n]);
    }
  }

  /** The kept route at index `i` lands at the payload position given by the number of
      kept routes before it, as the pair ("routeKeys[]", key). */
  lemma {:induction false} PayloadPosition(routes: seq<RouteEntry>, i: int)
    requires 0 <= i < |routes| && Kept(routes[i])
    ensures Rank(routes, i) < |Normalise(routes).payload|
    ensures Normalise(routes).payload[Rank(routes, i)] == (RouteKeysField, routes[i].key.value)
  {
    var n := |routes| - 1;
    PayloadLength(routes[..i]);
    if i == n {
      assert routes[..n] == routes[..i];
    } else {
      PayloadPosition(routes[..n], i);
      assert routes[..n][..i] == routes[..i];
    }
  }

  lemma SubsetCard(a: set<int>, b: set<int>)
    requires a <= b
    ensures |a| <= |b|
  {
    assert b == a + (b - a);
  }

  /** Kept routes keep their relative order in the payload. */
  lemma PayloadOrder(routes: seq<RouteEntry>, i: int, j: int)
    requires 0 <= i < j < |routes| && Kept(routes[i]) && Kept(routes[j])
    ensures Rank(routes, i) < Rank(routes, j)
  {
    var before := KeptIndices(routes[..i]) + {i};
    forall x | x in before
      ensures x in KeptIndices(routes[..j])
    {
      assert routes[..j][x] == routes[x];
      if x < i {
        assert routes[..i][x] == routes[x];
      }
    }
    assert i !in KeptIndices(routes[..i]);
    assert |before| == Rank(routes, i) + 1;
    SubsetCard(before, KeptIndices(routes[..j]));
  }

  /** A key occurs in the payload once per kept route carrying it: duplicates are not
      removed. */
  lemma {:induction false} PayloadMultiplicity(routes: seq<RouteEntry>, k: string)
    ensures multiset(Normalise(routes).payload)[(RouteKeysField, k)] == |IndicesWithKey(routes, k)|
  {
    if routes != [] {
      var n := |routes| - 1;
      PayloadMultiplicity(routes[..n], k);
      assert n !in IndicesWithKey(routes[..n], k);
      if Kept(routes[n]) && routes[n].key.value == k {
        assert IndicesWithKey(routes, k) == IndicesWithKey(routes[..n], k) + {n};
      } else {
        assert IndicesWithKey(routes, k) == IndicesWithKey(routes[..n], k);
      }
    }
  }

  /** The directory's keys are exactly the kept keys. */
  lemma {:induction false} DictKeys(routes: seq<RouteEntry>)
    ensures Normalise(routes).dict.Keys == set i | i in KeptIndices(routes) :: routes[i].key.value
  {
    if routes != [] {
      var n := |routes| - 1;
      DictKeys(routes[..n]);
      KeptIndicesSnoc(routes);
      assert forall i :: 0 <= i < n ==> routes[..n][i] == routes[i];
    }
  }

  /** Last write wins: a key maps to the (shortName, name) of the last kept route that
      carries it. */
  lemma {:induction false} DictLastWins(routes: seq<RouteEntry>, i: int)
    requires 0 <= i < |routes| && Kept(routes[i])
    requires forall j :: i < j < |routes| && Kept(routes[j]) ==> routes[j].key != routes[i].key
    ensures routes[i].key.value in Normalise(routes).dict
    ensures Normalise(routes).dict[routes[i].key.value] == MetaOf(routes[i])
  {
    var n := |routes| - 1;
    if i < n {
      DictLastWins(routes[..n], i);
    }
  }
}
