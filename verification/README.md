# Bus telemetry pipeline model

A Dafny model of the data-shaping core of a three-stage bus-telemetry pipeline that
runs once a minute:

1. **Route directory** (`get_route_keys`). The base-data response
   `{routes: [{key, shortName, name}]}` is turned into two things: a form payload of
   `("routeKeys[]", key)` pairs, and a directory `key -> (shortName, name)`. Routes
   whose key is missing, null or empty are skipped.
2. **Telemetry flattening** (`fetch_and_process_bus_data`). The pattern-paths
   response is flattened into stop records and vehicle records:
   - stops follow route → patternPaths → patternPoints;
   - vehicles follow route → vehiclesByDirections → vehicles.
3. **Stamping and upload.** The middle task stamps every vehicle record with the
   run's scheduled time. `upload_to_cosmos` then gives each record an id: the md5
   digest of an identity string. It upserts the record into the `vehicle_data` or
   `stop_data` container and counts the writes that succeed.

Modules, one per source file:

| file | module | models |
|---|---|---|
| `base.dfy` | `Base` | Optional values and three-way JSON members (missing / null / value). Also the exceptions that end a stage, and the outcome of one HTTP call. |
| `routes.dfy` | `Routes` | `dags/get_route.py` |
| `telemetry.dfy` | `Telemetry` | `dags/get_bus.py` |
| `upload.dfy` | `Upload` | `dags/upload.py` |
| `pipeline.dfy` | `Pipeline` | The stamping step of `dags/bus_data_pipeline.py` |

Modelling choices:

- **JSON members.** A member of a parsed JSON object is a `Field`: `Absent`, `Null`
  or `Val(x)`. The code tells the first two apart only where it passes a default to
  `dict.get`:
  - `for x in obj.get(k, [])` iterates a missing list as empty but raises on an
    explicit null.
  - `vehicle.get('location', {})` reads a missing location as `{}`. An explicit null
    location makes the next `.get` raise.
- **Exceptions.** The first exception ends the stage. It is a `Failure` carrying an
  `Error`, and no partial output is returned.
- **Scalars.** JSON scalars (numbers, booleans, strings) are carried as the text
  `str()` renders them to. The pipeline only copies them and formats them into
  identity strings.
- **Parameters for I/O.** The following come in as parameters:
  - each HTTP response (`Response`: received body, HTTP failure or unparsable body);
  - whether the database connection could be set up;
  - the md5 digest, as a function `hash: string -> string`;
  - the outcome of each `upsert_item` call, as one boolean per record;
  - the run's scheduled time, as its ISO-8601 text.
- **Store.** A container is a map from document id to document. A document is the
  record plus the `id` member the loop sets on it.

Behaviour of the code that the model keeps:

- **Null members.** An explicit null raises and ends the whole extraction, with no
  records returned, in these places:
  - a null `patternPaths`, `patternPoints`, `vehiclesByDirections`, `vehicles` or
    `amenities` list (iterating None);
  - a missing or null amenity name (`str.join` of None);
  - a null `location` (`None.get`).

  Every other missing or null scalar member reads as None in the record. A missing
  list iterates as empty, so a missing `amenities` gives `""` and a missing point or
  vehicle list gives no records.
- **Duplicate keys.** A key carried by two routes appears twice in the payload. The
  directory keeps the last route's names.
- **Empty keys.** Routes whose key is the empty string are skipped, like those whose
  key is missing or null.
- **Mutation.** The code sets `Scheduled Task Time` on vehicle records after
  extraction and `id` on every record before its write. The model expresses both as
  new values (`Stamp`, `Document`).

## Model

| member | source | states |
|---|---|---|
| Base.Iterate | dags/get_route.py:24 | Iterating `obj.get(key, [])` succeeds exactly when the member is not an explicit null. It yields the list's items, or none when the member is missing; a null fails with a not-iterable error naming the key. |
| Routes.Normalise | dags/get_route.py:21-33 | Every payload pair is `("routeKeys[]", k)` with `k` non-empty and bound in the directory. |
| Routes.GetRouteKeys | dags/get_route.py:7-36 | A failed POST or unparsable body re-raises and produces nothing. A response without `routes` gives an empty payload and directory, and a null `routes` raises. Otherwise the route list is normalised. |
| Routes.Kept | dags/get_route.py:25-28 | A route is kept exactly when `route.get('key')` is neither None nor the empty string. |
| Routes.PayloadLength | dags/get_route.py:24-33 | The payload has exactly one pair per route with a truthy key; missing, null and empty keys are skipped. |
| Routes.PayloadPosition | dags/get_route.py:24-33 | A kept route's key sits at the payload position given by the number of kept routes before it. |
| Routes.PayloadOrder | dags/get_route.py:24-33 | Kept routes keep their relative response order in the payload. |
| Routes.PayloadMultiplicity | dags/get_route.py:28-33 | A key occurs in the payload once per kept route carrying it, so duplicates are not removed. |
| Routes.DictKeys | dags/get_route.py:25-30 | The directory's key set is exactly the set of kept keys. |
| Routes.DictLastWins | dags/get_route.py:28-30 | A key maps to the (shortName, name) of the last kept route carrying it; either name may be None. |
| Telemetry.Context | dags/get_bus.py:39-41 | A route's fields are its key and the directory's (shortName, name) for it, or "Unknown"/"Unknown" when the key is missing, null or not in the directory. |
| Telemetry.StopOf | dags/get_bus.py:49-66 | A stop record takes the route fields, the pattern's keys, the point's coordinates, and the stop's name and code; a missing or null stop gives None for both. |
| Telemetry.PointStops | dags/get_bus.py:48-66 | The point loop emits one stop record per point, in point order, and never skips a point. |
| Telemetry.PathStops | dags/get_bus.py:44-66 | When the pattern loop succeeds, it emits one stop record per pattern point of the patterns seen so far. |
| Telemetry.RouteStops | dags/get_bus.py:44-66 | When a route's pattern loop succeeds, it emits one stop record per pattern point of the route. |
| Telemetry.JoinUpTo | dags/get_bus.py:75-77 | The join of the first `m` amenity names succeeds exactly when none of them is None; otherwise it fails with the join error. |
| Telemetry.JoinNames | dags/get_bus.py:75-77 | Joining the amenity names succeeds exactly when none is None. An empty amenity list gives `""`, and a single name gives that name unchanged. |
| Telemetry.JoinedLength | dags/get_bus.py:75-77 | The joined text's length is the names' total length plus two per gap between neighbours. |
| Telemetry.JoinedNameAt | dags/get_bus.py:75-77 | Name `a` sits in the joined text right after the earlier names and one `", "` per earlier name. A `", "` follows every name but the last, and the last name ends the text. |
| Telemetry.VehicleOf | dags/get_bus.py:72-100 | A vehicle yields a record exactly when its amenity list is not null, every amenity name is present and not null, and its location is not an explicit null. |
| Telemetry.VehiclesOf | dags/get_bus.py:71-100 | A successful vehicle loop emits one record per vehicle, never skipping one. |
| Telemetry.DirectionVehicles | dags/get_bus.py:69-100 | A successful direction loop emits one record per vehicle of the directions seen so far. |
| Telemetry.RouteVehicles | dags/get_bus.py:69-100 | A route's successful vehicle loop emits one record per vehicle of the route. |
| Telemetry.Gather | dags/get_bus.py:38-106 | The route loop succeeds exactly when every route's part succeeds. Its record counts are the sums of the parts' counts. |
| Telemetry.Extract | dags/get_bus.py:38-106 | The route loop finishes exactly when, for every route, both its pattern pass and its vehicle pass succeed. |
| Telemetry.FetchAndProcessBusData | dags/get_bus.py:15-31 | A failed POST or unparsable body raises before any record is produced. A received body is flattened. |
| Telemetry.PathStopsSucceeds | dags/get_bus.py:44-48 | The pattern loop raises exactly when some pattern's point list is an explicit null, and then with the not-iterable error for `patternPoints`. |
| Telemetry.VehiclesOfSucceeds | dags/get_bus.py:71-83 | A direction's vehicle loop raises exactly when one of its vehicles is malformed. |
| Telemetry.DirectionVehiclesSucceeds | dags/get_bus.py:69-83 | The direction loop raises exactly when one of its directions is malformed. |
| Telemetry.RouteSucceeds | dags/get_bus.py:38-100 | Both loops of a route succeed exactly when the route is well formed. |
| Telemetry.ExtractSucceeds | dags/get_bus.py:38-100 | Flattening succeeds exactly when every route is well formed: no null list the loops iterate, no missing or null amenity name, no null location. |
| Telemetry.PartCounts | dags/get_bus.py:38-100 | The records of well-sized parts add up to the points and vehicles of the routes so far. |
| Telemetry.PartsSized | dags/get_bus.py:38-100 | After a successful flattening, every route's part holds one stop record per point and one vehicle record per vehicle of that route. |
| Telemetry.ExtractCounts | dags/get_bus.py:44-100 | The number of stop records is the sum of patternPoints over routes and patterns. The number of vehicle records is the sum of vehicles over routes and directions. |
| Telemetry.PathStopsAt | dags/get_bus.py:44-66 | Point `k` of pattern `j` becomes the stop record placed after all points of the earlier patterns. |
| Telemetry.VehiclesOfAt | dags/get_bus.py:71-100 | Vehicle `k` of a direction becomes that direction's record number `k`. |
| Telemetry.DirectionVehiclesAt | dags/get_bus.py:69-100 | The records of direction `j` follow, in order, those of all earlier directions. |
| Telemetry.GatherStopsAt | dags/get_bus.py:38-66 | The stop records of route part `i` follow, in order, those of all earlier parts. |
| Telemetry.GatherVehiclesAt | dags/get_bus.py:38-100 | The vehicle records of route part `i` follow, in order, those of all earlier parts. |
| Telemetry.RouteStopAt | dags/get_bus.py:44-66 | Point `k` of pattern `j` of a route is that route's stop record at the offset counting the earlier patterns' points. |
| Telemetry.RouteVehicleAt | dags/get_bus.py:69-100 | Vehicle `k` of direction `j` of a route is that route's vehicle record at the offset counting the earlier directions' vehicles. |
| Telemetry.SizedStopsAt | dags/get_bus.py:38-66 | With every part well sized, route `i`'s stop records follow those of the earlier routes. |
| Telemetry.SizedVehiclesAt | dags/get_bus.py:38-100 | With every part well sized, route `i`'s vehicle records follow those of the earlier routes. |
| Telemetry.ExtractRouteStops | dags/get_bus.py:38-66 | In a successful flattening, route `i`'s stop records sit, in order, after those of the earlier routes. |
| Telemetry.ExtractRouteVehicles | dags/get_bus.py:38-100 | In a successful flattening, route `i`'s vehicle records sit, in order, after those of the earlier routes. |
| Telemetry.ExtractStopAt | dags/get_bus.py:38-66 | Point `k` of pattern `j` of route `i` is the stop record at the offset counting all earlier routes' and patterns' points. |
| Telemetry.ExtractVehicleAt | dags/get_bus.py:38-100 | Vehicle `k` of direction `j` of route `i` is the vehicle record at the offset counting all earlier routes' and directions' vehicles. |
| Telemetry.StopRecordFields | dags/get_bus.py:39-66 | A stop record carries: the route key and the directory's names, or "Unknown"/"Unknown" for a key the directory lacks; the pattern and direction keys; the stop's name and code (None when the stop is missing or null); the point's coordinates. |
| Telemetry.VehicleRecordFields | dags/get_bus.py:39-100 | A vehicle record carries: the route fields with the same default; the direction key and the vehicle's own members; the `", "`-joined amenity names (`""` for none); the location fields (all None for a missing location); no scheduled time yet. |
| Telemetry.StopsInResponseOrder | dags/get_bus.py:38-66 | Stop records come out ordered by route, then pattern, then point. |
| Telemetry.VehiclesInResponseOrder | dags/get_bus.py:38-100 | Vehicle records come out ordered by route, then direction, then vehicle. |
| Upload.UpsertAll | dags/upload.py:49-63 | The success counter never exceeds the number of records, the loop logs one attempt per record, and every document stays under its own id. |
| Upload.UpsertLastWins | dags/upload.py:56-59 | An upsert replaces the document under its id, so the last successful write to an id decides what is stored. |
| Upload.UpsertCount | dags/upload.py:49-63 | The counter is the number of successful writes. It equals the number of records exactly when no write failed. |
| Upload.UpsertFrame | dags/upload.py:56-63 | The store gains a document under each id a successful write went to. Every other id keeps its document, and a failed write changes nothing. |
| Upload.VehicleIdentityParts | dags/upload.py:52 | A vehicle's identity string is its rendered name, one `_`, and its rendered GPS date. |
| Upload.StopIdentityParts | dags/upload.py:71 | A stop's identity string has its four rendered parts and three `_`; it starts with the route key and `_` and ends with `_` and the longitude. |
| Upload.VehicleDocuments | dags/upload.py:50-54 | Each vehicle record, in order, becomes a document whose id is the md5 digest of its identity string. |
| Upload.StopDocuments | dags/upload.py:69-73 | Each stop record, in order, becomes a document whose id is the md5 digest of its identity string. |
| Upload.SplitAtSeparator | dags/upload.py:52 | A string joined at `_`, whose left parts contain no `_`, splits back into the same parts. |
| Upload.VehicleIdentityInjective | dags/upload.py:52-54 | With `_`-free vehicle names, two vehicles have the same identity string exactly when their names and GPS dates render alike. |
| Upload.VehicleIdentityPerFix | dags/upload.py:52-54 | For the same vehicle name, the identity string changes exactly when the rendered GPS date changes. |
| Upload.StopIdentityInjective | dags/upload.py:71-73 | With `_`-free route keys, pattern keys and latitudes, two stops have the same identity exactly when all four parts render alike. |
| Upload.UploadToCosmos | dags/upload.py:13-84 | A connection or container failure raises before any write, and only then does the upload fail. Otherwise the write log has one attempt per record, and every document stays under its own id. |
| Upload.UpsertLog | dags/upload.py:50-63 | The write loop logs record `i`'s attempt at position `i`, with that record's id and its own outcome, whatever the earlier writes did. |
| Upload.UploadAttempts | dags/upload.py:48-84 | Every vehicle is attempted, in order, then every stop, in order. Each attempt carries the md5 digest of its record's identity string and that write's outcome. |
| Upload.UploadCounts | dags/upload.py:49-84 | `vehicle_count` and `stop_count` are the numbers of successful writes of their kind. Each equals its input length exactly when none of that kind failed. |
| Upload.UploadStores | dags/upload.py:50-82 | Each container gains a document under every successfully written id of its kind and keeps every other document. |
| Upload.StopDedup | dags/upload.py:69-78 | Two stops with the same identity land in one document, which holds the later stop unless a still later write reuses its id. |
| Upload.VehicleHistory | dags/upload.py:50-59 | A successfully written vehicle record stays stored under its id unless a later successful write goes to the same id. |
| Pipeline.Stamp | dags/bus_data_pipeline.py:52-53 | Stamping keeps the number and order of vehicle records. Every record's scheduled time becomes the run's time, and no other field changes. |
| Pipeline.StampLatestWins | dags/bus_data_pipeline.py:52-53 | Stamping again replaces the earlier stamp. |
| Pipeline.StampIdempotent | dags/bus_data_pipeline.py:52-53 | Stamping twice with the same time is the same as stamping once. |
| Pipeline.StampKeepsIdentity | dags/bus_data_pipeline.py:52-53 | Stamping leaves a vehicle's identity string unchanged, so a GPS fix re-sent by a later run overwrites the same document. |
| Pipeline.FetchStage | dags/bus_data_pipeline.py:40-53 | The middle task fails exactly when the extractor raises, with the same error. Otherwise stops pass on unchanged, and vehicles pass on in number and order with the run's time set. |
| Pipeline.HandOffCounts | dags/bus_data_pipeline.py:50-53 | A well-formed response reaches the hand-off with one stop record per pattern point and one vehicle record per vehicle, all stamped. |
| Pipeline.HandOffVehicleAt | dags/bus_data_pipeline.py:50-53 | Each vehicle of the response reaches the hand-off at its extraction offset: the extractor's record with the run's time set. |

## Left out

- HTTP and JSON decoding: the two POSTs, their headers, `raise_for_status` and
  `response.json()` are I/O. They appear only as the three outcomes of a `Response`.
- JSON values of the wrong kind: a base-data body that is not an object (a list or
  null body raises on `.get`), a `routes` member that is not a list (an object there
  iterates its keys, and `.get` on a key raises), a top-level telemetry body that is
  not a list, list elements that are not objects, non-string route keys or amenity
  names. The datatypes exclude them. In the code most of these raise; an empty object
  or empty string as the telemetry body is iterated zero times and gives empty lists,
  and a non-string truthy route key is kept.
- The Airflow DAG: operators, scheduling, retries, XCom, and the temporary JSON files
  between tasks (including their removal). This is scheduler and file plumbing. The
  JSON round trip between tasks turns the directory's tuples into lists; the symbol
  and name unpacked from a directory entry (dags/get_bus.py:41) are the same either
  way.
- The Cosmos client: reading the connection, creating the client and container
  handles, logging, and partition keys. These are a foreign service. Any setup
  failure is the single `connected` flag, and a write's outcome is one boolean.
- Upload.UploadToCosmos: only `CosmosHttpResponseError` is swallowed. Any other
  exception during a write would end the upload midway; this is not modelled, as a
  binary success/failure oracle stands for every write.
- md5 is the parameter `hash`; its collision-freedom is not modelled.
- Upload.VehicleHistory: takes as a hypothesis that no later successful write
  produces the same digest. md5 collision-freedom is outside the model, so distinct
  identity strings are not proved to give distinct ids.
- Upload.VehicleIdentityInjective: holds only for vehicle names without `_`. A name
  containing `_` can make two different (name, date) pairs share an identity string.
- Upload.StopIdentityInjective: holds only when the first three parts contain no
  `_`, for the same reason.
- Floating-point latitude, longitude, speed and heading, and Python's `str()` of
  them. They are carried as their rendered text. `None` renders as `"None"`, so a
  missing value and the string `"None"` share an identity part.
- The exception classes: `TypeError`, `AttributeError`, `HTTPError` and `ValueError`
  are told apart only as far as the `Error` constructors do.
- The route directory's payload goes into the telemetry POST, but the response is a
  parameter, so the payload's effect on the response is not modelled.
- Logging of counts and ids, and the `df_new_*` commented-out code.
