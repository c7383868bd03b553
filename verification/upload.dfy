/**
 The upsert sink (dags/upload.py): every vehicle record, then every stop record, gets an
 `id` (the md5 digest of an identity string built from some of its members) and is
 upserted into its container. A write that the store rejects is logged and skipped; the
 loop goes on, and the per-kind counters count only the writes that succeeded.

 The store is a map from document id to document. The digest function and the outcome
 of each write are parameters: `hash` stands for `md5(...).hexdigest()`, and one boolean
 per record says whether its `upsert_item` call succeeded.
 */
module Upload {
  import opened Base
  import opened Telemetry

  /** A stored record together with the `id` member the upload loop adds to it. */
  datatype Document<R> = Document(id: string, record: R)

  /** A container: documents by id. */
  type Container<R> = map<string, Document<R>>

  /** Every document sits under its own id. */
  predicate Keyed<R>(c: Container<R>)
  {
    forall k :: k in c ==> c[k].id == k
  }

  /** The `bus_data` database: the `vehicle_data` and `stop_data` containers. */
  datatype Database = Database(vehicleData: Container<VehicleRecord>, stopData: Container<StopRecord>)

  /** The character identity parts are joined with. */
  const IdentitySeparator := "_"

  /** `f"{Vehicle Name}_{Last GPS Date}"`: a vehicle has one document per GPS fix. */
  function VehicleIdentity(v: VehicleRecord): string
  {
    Render(v.vehicleName) + IdentitySeparator + Render(v.lastGpsDate)
  }

  /** `f"{Route Key}_{Pattern Key}_{Latitude}_{Longitude}"`: a stop has one document per
      route, pattern and position. */
  function StopIdentity(s: StopRecord): string
  {
    Render(s.routeKey) + IdentitySeparator + Render(s.patternKey) + IdentitySeparator
      + Render(s.latitude) + IdentitySeparator + Render(s.longitude)
  }

  /** A vehicle identity reads as the rendered name, one '_', and the rendered GPS date. */
  lemma VehicleIdentityParts(v: VehicleRecord)
    ensures var r := VehicleIdentity(v);
            var name := Render(v.vehicleName);
            && |r| == |name| + 1 + |Render(v.lastGpsDate)|
            && r[..|name|] == name
            && r[|name|] == '_'
            && r[|name| + 1..] == Render(v.lastGpsDate)
  {
  }

  /** A stop identity holds its four rendered parts and three separators; it starts with
      the route key and '_' and ends with '_' and the longitude. */
  lemma StopIdentityParts(s: StopRecord)
    ensures var r := StopIdentity(s);
            && |r| == |Render(s.routeKey)| + |Render(s.patternKey)| + |Render(s.latitude)| + |Render(s.longitude)| + 3
            && r[..|Render(s.routeKey)| + 1] == Render(s.routeKey) + IdentitySeparator
            && r[|r| - |Render(s.longitude)| - 1..] == IdentitySeparator + Render(s.longitude)
  {
  }

  /** The records with their ids attached, in input order: each record's id is the
      digest of its identity string, set before any write. */
  function VehicleDocuments(vs: seq<VehicleRecord>, hash: string -> string): (ds: seq<Document<VehicleRecord>>)
    ensures |ds| == |vs|
    ensures forall i :: 0 <= i < |ds| ==> ds[i].record == vs[i] && ds[i].id == hash(VehicleIdentity(vs[i]))
  {
    seq(|vs|, i requires 0 <= i < |vs| => Document(hash(VehicleIdentity(vs[i])), vs[i]))
  }

  function StopDocuments(ss: seq<StopRecord>, hash: string -> string): (ds: seq<Document<StopRecord>>)
    ensures |ds| == |ss|
    ensures forall i :: 0 <= i < |ds| ==> ds[i].record == ss[i] && ds[i].id == hash(StopIdentity(ss[i]))
  {
    seq(|ss|, i requires 0 <= i < |ss| => Document(hash(StopIdentity(ss[i])), ss[i]))
  }

  // ---------------------------------------------------------------- the upsert loop

  /** Indices, among the first `m` records, whose write succeeded. */
  function Written(oks: seq<bool>, m: int): set<int>
  {
    set i | 0 <= i < m && i < |oks| && oks[i]
  }

  /** The ids the successful writes among the first `m` records went to. */
  function WrittenIds<R>(docs: seq<Document<R>>, oks: seq<bool>, m: int): set<string>
  {
    set i | 0 <= i < |docs| && i in Written(oks, m) :: docs[i].id
  }

  /** Which container a write goes to. */
  datatype Kind = VehicleWrite | StopWrite

  /** One `upsert_item` call: which container, which id, and whether it succeeded. */
  datatype Attempt = Attempt(kind: Kind, id: string, written: bool)

  /** The state after some iterations of an upload loop: the container, the success
      counter, and one entry per write attempted so far. */
  datatype Upserted<R> = Upserted(container: Container<R>, count: nat, log: seq<Attempt>)

  /** The first `m` iterations of an upload loop: a successful write puts the document
      under its id, replacing whatever was there, and bumps the counter; a failed write
      changes nothing. */
  function UpsertAll<R>(kind: Kind, c: Container<R>, docs: seq<Document<R>>, oks: seq<bool>, m: int): (r: Upserted<R>)
    requires |oks| == |docs| && 0 <= m <= |docs|
    ensures r.count <= m
    ensures |r.log| == m
    ensures Keyed(c) ==> Keyed(r.container)
    decreases m
  {
    if m == 0 then Upserted(c, 0, [])
    else
      var prev := UpsertAll(kind, c, docs, oks, m - 1);
      var doc := docs[m - 1];
      if oks[m - 1] then
        Upserted(prev.container[doc.id := doc], prev.count + 1, prev.log + [Attempt(kind, doc.id, true)])
      else
        Upserted(prev.container, prev.count, prev.log + [Attempt(kind, doc.id, false)])
  }

  /** One more iteration of the loop, as a map update. */
  lemma UpsertStep<R>(kind: Kind, c: Container<R>, docs: seq<Document<R>>, oks: seq<bool>, m: int)
    requires |oks| == |docs| && 0 < m <= |docs|
    ensures var prev := UpsertAll(kind, c, docs, oks, m - 1).container;
            UpsertAll(kind, c, docs, oks, m).container == if oks[m - 1] then prev[docs[m - 1].id := docs[m - 1]] else prev
  {
  }

  /** The last successful write to an id decides the document stored under it. */
  lemma {:induction false} UpsertLastWins<R>(kind: Kind, c: Container<R>, docs: seq<Document<R>>, oks: seq<bool>, m: int, i: int)
    requires |oks| == |docs| && 0 <= i < m <= |docs| && oks[i]
    requires forall j :: i < j < m && oks[j] ==> docs[j].id != docs[i].id
    ensures docs[i].id in UpsertAll(kind, c, docs, oks, m).container
    ensures UpsertAll(kind, c, docs, oks, m).container[docs[i].id] == docs[i]
  {
    UpsertStep(kind, c, docs, oks, m);
    if i < m - 1 {
      UpsertLastWins(kind, c, docs, oks, m - 1, i);
    }
  }

  /** Every record gets exactly one attempt, in input order, whatever the earlier writes
      did; the entry records the id the write went to and its outcome. */
  lemma {:induction false} UpsertLog<R>(kind: Kind, c: Container<R>, docs: seq<Document<R>>, oks: seq<bool>, m: int, i: int)
    requires |oks| == |docs| && 0 <= i < m <= |docs|
    ensures UpsertAll(kind, c, docs, oks, m).log[i] == Attempt(kind, docs[i].id, oks[i])
  {
    if i < m - 1 {
      UpsertLog(kind, c, docs, oks, m - 1, i);
    }
  }

  lemma WrittenSnoc(oks: seq<bool>, m: int)
    requires 0 < m <= |oks|
    ensures Written(oks, m) == Written(oks, m - 1) + (if oks[m - 1] then {m - 1} else {})
  {
  }

  /** The counter is the number of successful writes: it reaches the number of records
      exactly when no write failed. */
  lemma {:induction false} UpsertCount<R>(kind: Kind, c: Container<R>, docs: seq<Document<R>>, oks: seq<bool>, m: int)
    requires |oks| == |docs| && 0 <= m <= |docs|
    ensures UpsertAll(kind, c, docs, oks, m).count == |Written(oks, m)|
    ensures UpsertAll(kind, c, docs, oks, m).count == m <==> forall i :: 0 <= i < m ==> oks[i]
  {
    if m > 0 {
      UpsertCount(kind, c, docs, oks, m - 1);
      WrittenSnoc(oks, m);
    }
  }

  lemma WrittenIdsSnoc<R>(docs: seq<Document<R>>, oks: seq<bool>, m: int)
    requires |oks| == |docs| && 0 < m <= |docs|
    ensures WrittenIds(docs, oks, m) == WrittenIds(docs, oks, m - 1) + (if oks[m - 1] then {docs[m - 1].id} else {})
  {
    WrittenSnoc(oks, m);
  }

  /** The store afterwards holds the documents it held before plus one under every id a
      successful write went to; an id no successful write went to keeps its document. */
  lemma {:induction false} UpsertFrame<R>(kind: Kind, c: Container<R>, docs: seq<Document<R>>, oks: seq<bool>, m: int)
    requires |oks| == |docs| && 0 <= m <= |docs|
    ensures UpsertAll(kind, c, docs, oks, m).container.Keys == c.Keys + WrittenIds(docs, oks, m)
    ensures forall k :: k in c && k !in WrittenIds(docs, oks, m) ==> UpsertAll(kind, c, docs, oks, m).container[k] == c[k]
  {
    if m > 0 {
      UpsertFrame(kind, c, docs, oks, m - 1);
      UpsertStep(kind, c, docs, oks, m);
      WrittenIdsSnoc(docs, oks, m);
    }
  }

  // ---------------------------------------------------------------- identities

  /** The separator of a joined string sits right after the left part, so equal joins
      whose left parts avoid it have left parts of equal length. */
  lemma SeparatorAt(a: string, b: string, c: string, d: string)
    requires '_' !in a && '_' !in c
    requires a + IdentitySeparator + b == c + IdentitySeparator + d
    ensures |a| == |c|
  {
    assert (a + IdentitySeparator + b)[|a|] == '_';
    assert (c + IdentitySeparator + d)[|c|] == '_';
  }

  /** A string joined at a separator that occurs in neither left part splits back
      uniquely. */
  lemma SplitAtSeparator(a: string, b: string, c: string, d: string)
    requires '_' !in a && '_' !in c
    ensures a + IdentitySeparator + b == c + IdentitySeparator + d <==> a == c && b == d
  {
    var x := a + IdentitySeparator + b;
    var y := c + IdentitySeparator + d;
    if x == y {
      SeparatorAt(a, b, c, d);
      assert a == x[..|a|] && c == y[..|c|];
      assert b == x[|a| + 1..] && d == y[|c| + 1..];
    }
  }

  /** While vehicle names carry no '_', two vehicle records share a document id source
      exactly when their names and GPS dates render alike. */
  lemma VehicleIdentityInjective(v: VehicleRecord, w: VehicleRecord)
    requires '_' !in Render(v.vehicleName) && '_' !in Render(w.vehicleName)
    ensures VehicleIdentity(v) == VehicleIdentity(w) <==>
              Render(v.vehicleName) == Render(w.vehicleName) && Render(v.lastGpsDate) == Render(w.lastGpsDate)
  {
    SplitAtSeparator(Render(v.vehicleName), Render(v.lastGpsDate), Render(w.vehicleName), Render(w.lastGpsDate));
  }

  /** The same vehicle at a new GPS fix has a new identity, so its earlier documents are
      kept as history. */
  lemma VehicleIdentityPerFix(v: VehicleRecord, w: VehicleRecord)
    requires v.vehicleName == w.vehicleName
    ensures VehicleIdentity(v) == VehicleIdentity(w) <==> Render(v.lastGpsDate) == Render(w.lastGpsDate)
  {
    var p := Render(v.vehicleName) + IdentitySeparator;
    if VehicleIdentity(v) == VehicleIdentity(w) {
      assert Render(v.lastGpsDate) == VehicleIdentity(v)[|p|..];
    }
  }

  /** The stop identity read as a first part and the rest. */
  lemma StopIdentityShape(s: StopRecord)
    ensures StopIdentity(s) == Render(s.routeKey) + IdentitySeparator +
              (Render(s.patternKey) + IdentitySeparator + (Render(s.latitude) + IdentitySeparator + Render(s.longitude)))
  {
  }

  /** While route keys, pattern keys and latitudes carry no '_', two stop records share
      an identity exactly when all four parts render alike. */
  lemma StopIdentityInjective(s: StopRecord, t: StopRecord)
    requires '_' !in Render(s.routeKey) && '_' !in Render(t.routeKey)
    requires '_' !in Render(s.patternKey) && '_' !in Render(t.patternKey)
    requires '_' !in Render(s.latitude) && '_' !in Render(t.latitude)
    ensures StopIdentity(s) == StopIdentity(t) <==>
              && Render(s.routeKey) == Render(t.routeKey)
              && Render(s.patternKey) == Render(t.patternKey)
              && Render(s.latitude) == Render(t.latitude)
              && Render(s.longitude) == Render(t.longitude)
  {
    StopIdentityShape(s);
    StopIdentityShape(t);
    SplitAtSeparator(Render(s.latitude), Render(s.longitude), Render(t.latitude), Render(t.longitude));
    SplitAtSeparator(Render(s.patternKey), Render(s.latitude) + IdentitySeparator + Render(s.longitude),
                     Render(t.patternKey), Render(t.latitude) + IdentitySeparator + Render(t.longitude));
    SplitAtSeparator(Render(s.routeKey),
                     Render(s.patternKey) + IdentitySeparator + (Render(s.latitude) + IdentitySeparator + Render(s.longitude)),
                     Render(t.routeKey),
                     Render(t.patternKey) + IdentitySeparator + (Render(t.latitude) + IdentitySeparator + Render(t.longitude)));
  }

  // ---------------------------------------------------------------- upload_to_cosmos

  datatype Uploaded = Uploaded(db: Database, vehicleCount: nat, stopCount: nat, attempts: seq<Attempt>)

  /** The whole log of one loop. */
  lemma LogOf<R>(kind: Kind, c: Container<R>, docs: seq<Document<R>>, oks: seq<bool>)
    requires |oks| == |docs|
    ensures forall i :: 0 <= i < |docs| ==> UpsertAll(kind, c, docs, oks, |docs|).log[i] == Attempt(kind, docs[i].id, oks[i])
  {
    forall i | 0 <= i < |docs|
      ensures UpsertAll(kind, c, docs, oks, |docs|).log[i] == Attempt(kind, docs[i].id, oks[i])
    {
      UpsertLog(kind, c, docs, oks, |docs|, i);
    }
  }

  /** The vehicle log followed by the stop log. */
  lemma LogsInOrder(vlog: seq<Attempt>, slog: seq<Attempt>, a: seq<Attempt>)
    requires a == vlog + slog
    requires forall i :: 0 <= i < |vlog| ==> vlog[i].kind == VehicleWrite
    requires forall i :: 0 <= i < |slog| ==> slog[i].kind == StopWrite
    ensures forall n :: 0 <= n < |a| ==> (a[n].kind == VehicleWrite <==> n < |vlog|)
    ensures forall i :: 0 <= i < |vlog| ==> a[i] == vlog[i]
    ensures forall i :: 0 <= i < |slog| ==> a[|vlog| + i] == slog[i]
  {
  }

  /** upload_to_cosmos: without a connection nothing is written; otherwise the vehicle
      loop runs, then the stop loop. */
  function UploadToCosmos(connected: bool, db: Database, stops: seq<StopRecord>, vehicles: seq<VehicleRecord>,
                          hash: string -> string, vehicleOks: seq<bool>, stopOks: seq<bool>): (r: Result<Uploaded>)
    requires |vehicleOks| == |vehicles| && |stopOks| == |stops|
    ensures r.Failure? <==> !connected
    ensures r.Failure? ==> r.error == ConnectionFailed
    ensures r.Success? ==> |r.value.attempts| == |vehicles| + |stops|
    ensures r.Success? && Keyed(db.vehicleData) && Keyed(db.stopData) ==>
              Keyed(r.value.db.vehicleData) && Keyed(r.value.db.stopData)
  {
    if !connected then Failure(ConnectionFailed)
    else
      var vs := UpsertAll(VehicleWrite, db.vehicleData, VehicleDocuments(vehicles, hash), vehicleOks, |vehicles|);
      var ss := UpsertAll(StopWrite, db.stopData, StopDocuments(stops, hash), stopOks, |stops|);
      Success(Uploaded(Database(vs.container, ss.container), vs.count, ss.count, vs.log + ss.log))
  }

  /** Every vehicle is attempted, then every stop, whatever the earlier writes did; each
      attempt goes to the digest of its record's identity string. */
  lemma UploadAttempts(db: Database, stops: seq<StopRecord>, vehicles: seq<VehicleRecord>,
                       hash: string -> string, vehicleOks: seq<bool>, stopOks: seq<bool>)
    requires |vehicleOks| == |vehicles| && |stopOks| == |stops|
    ensures var a := UploadToCosmos(true, db, stops, vehicles, hash, vehicleOks, stopOks).value.attempts;
            && |a| == |vehicles| + |stops|
            && (forall n :: 0 <= n < |a| ==> (a[n].kind == VehicleWrite <==> n < |vehicles|))
            && (forall i :: 0 <= i < |vehicles| ==>
                  a[i] == Attempt(VehicleWrite, hash(VehicleIdentity(vehicles[i])), vehicleOks[i]))
            && (forall i :: 0 <= i < |stops| ==>
                  a[|vehicles| + i] == Attempt(StopWrite, hash(StopIdentity(stops[i])), stopOks[i]))
  {
    var vdocs := VehicleDocuments(vehicles, hash);
    var sdocs := StopDocuments(stops, hash);
    var vlog := UpsertAll(VehicleWrite, db.vehicleData, vdocs, vehicleOks, |vehicles|).log;
    var slog := UpsertAll(StopWrite, db.stopData, sdocs, stopOks, |stops|).log;
    LogOf(VehicleWrite, db.vehicleData, vdocs, vehicleOks);
    LogOf(StopWrite, db.stopData, sdocs, stopOks);
    LogsInOrder(vlog, slog, UploadToCosmos(true, db, stops, vehicles, hash, vehicleOks, stopOks).value.attempts);
  }

  /** Each counter is the number of successful writes of its kind, and equals its
      input length exactly when none of that kind's writes failed. */
  lemma UploadCounts(db: Database, stops: seq<StopRecord>, vehicles: seq<VehicleRecord>,
                     hash: string -> string, vehicleOks: seq<bool>, stopOks: seq<bool>)
    requires |vehicleOks| == |vehicles| && |stopOks| == |stops|
    ensures var u := UploadToCosmos(true, db, stops, vehicles, hash, vehicleOks, stopOks).value;
            && u.vehicleCount == |Written(vehicleOks, |vehicles|)|
            && (u.vehicleCount == |vehicles| <==> forall i :: 0 <= i < |vehicles| ==> vehicleOks[i])
            && u.stopCount == |Written(stopOks, |stops|)|
            && (u.stopCount == |stops| <==> forall i :: 0 <= i < |stops| ==> stopOks[i])
  {
    UpsertCount(VehicleWrite, db.vehicleData, VehicleDocuments(vehicles, hash), vehicleOks, |vehicles|);
    UpsertCount(StopWrite, db.stopData, StopDocuments(stops, hash), stopOks, |stops|);
  }

  /** Each container gains a document under the id of every successful write of its kind
      and keeps every other document it held. */
  lemma UploadStores(db: Database, stops: seq<StopRecord>, vehicles: seq<VehicleRecord>,
                     hash: string -> string, vehicleOks: seq<bool>, stopOks: seq<bool>)
    requires |vehicleOks| == |vehicles| && |stopOks| == |stops|
    ensures var u := UploadToCosmos(true, db, stops, vehicles, hash, vehicleOks, stopOks).value;
            var vids := WrittenIds(VehicleDocuments(vehicles, hash), vehicleOks, |vehicles|);
            var sids := WrittenIds(StopDocuments(stops, hash), stopOks, |stops|);
            && u.db.vehicleData.Keys == db.vehicleData.Keys + vids
            && (forall k :: k in db.vehicleData && k !in vids ==> u.db.vehicleData[k] == db.vehicleData[k])
            && u.db.stopData.Keys == db.stopData.Keys + sids
            && (forall k :: k in db.stopData && k !in sids ==> u.db.stopData[k] == db.stopData[k])
  {
    UpsertFrame(VehicleWrite, db.vehicleData, VehicleDocuments(vehicles, hash), vehicleOks, |vehicles|);
    UpsertFrame(StopWrite, db.stopData, StopDocuments(stops, hash), stopOks, |stops|);
  }

  /** Two stops with the same identity land in one document, which holds the later one
      unless a still later write reuses its id. */
  lemma StopDedup(db: Database, stops: seq<StopRecord>, vehicles: seq<VehicleRecord>,
                  hash: string -> string, vehicleOks: seq<bool>, stopOks: seq<bool>, i: int, j: int)
    requires |vehicleOks| == |vehicles| && |stopOks| == |stops|
    requires 0 <= i < j < |stops| && StopIdentity(stops[i]) == StopIdentity(stops[j]) && stopOks[j]
    requires forall l :: j < l < |stops| && stopOks[l] ==> hash(StopIdentity(stops[l])) != hash(StopIdentity(stops[j]))
    ensures var id := hash(StopIdentity(stops[j]));
            var u := UploadToCosmos(true, db, stops, vehicles, hash, vehicleOks, stopOks).value;
            && hash(StopIdentity(stops[i])) == id
            && id in u.db.stopData
            && u.db.stopData[id] == Document(id, stops[j])
  {
    var docs := StopDocuments(stops, hash);
    forall l | j < l < |stops| && stopOks[l]
      ensures docs[l].id != docs[j].id
    {
    }
    UpsertLastWins(StopWrite, db.stopData, docs, stopOks, |stops|, j);
  }

  /** A successfully written vehicle record stays stored under its id unless a later
      successful write goes to the same id; with VehicleIdentityPerFix, a later fix of the
      same vehicle (under distinct digests) leaves the earlier document in place. */
  lemma VehicleHistory(db: Database, stops: seq<StopRecord>, vehicles: seq<VehicleRecord>,
                       hash: string -> string, vehicleOks: seq<bool>, stopOks: seq<bool>, i: int)
    requires |vehicleOks| == |vehicles| && |stopOks| == |stops|
    requires 0 <= i < |vehicles| && vehicleOks[i]
    requires forall l :: i < l < |vehicles| && vehicleOks[l] ==> hash(VehicleIdentity(vehicles[l])) != hash(VehicleIdentity(vehicles[i]))
    ensures var id := hash(VehicleIdentity(vehicles[i]));
            var u := UploadToCosmos(true, db, stops, vehicles, hash, vehicleOks, stopOks).value;
            id in u.db.vehicleData && u.db.vehicleData[id] == Document(id, vehicles[i])
  {
    var docs := VehicleDocuments(vehicles, hash);
    forall l | i < l < |vehicles| && vehicleOks[l]
      ensures docs[l].id != docs[i].id
    {
    }
    UpsertLastWins(VehicleWrite, db.vehicleData, docs, vehicleOks, |vehicles|, i);
  }
}
