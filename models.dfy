/** The record classes over the store (server/models/Vessel.js, Anomaly.js,
    Geofence.js). Each constructor copies the given fields and fills in
    defaults; `save` chooses between the store's update and insert. The
    static lookups are shared: the three classes differ only in the
    collection they name. */
module Models {
  import opened Values
  import opened MemoryStore

  // ---------------------------------------------------------------------
  // Constructor defaults

  /** The fields of `new Vessel(data)` built at time `now`. */
  function VesselDefaults(data: Doc, now: nat): (r: Doc)
    ensures Get(r, "lastSeen") == Or(Get(data, "lastSeen"), Date(now))
    ensures Get(r, "history") == Or(Get(data, "history"), Arr([]))
    ensures Get(r, "_id") == Or(Get(data, "_id"), Str(Decimal(now))) && Truthy(Get(r, "_id"))
    ensures forall k :: k != "lastSeen" && k != "history" && k != "_id" ==> Get(r, k) == Get(data, k)
  {
    var d := data["lastSeen" := Or(Get(data, "lastSeen"), Date(now))]["history" := Or(Get(data, "history"), Arr([]))];
    if Truthy(Get(d, "_id")) then d else d["_id" := Str(Decimal(now))]
  }

  /** A new vessel has the data's own properties plus `lastSeen`, `history`
      and `_id`. */
  lemma VesselDefaultsKeys(data: Doc, now: nat)
    ensures VesselDefaults(data, now).Keys == data.Keys + {"lastSeen", "history", "_id"}
  {
  }

  /** `v !== undefined ? v : fallback`. */
  function Defined(v: Value, fallback: Value): (r: Value)
    ensures v != Undefined ==> r == v
    ensures v == Undefined ==> r == fallback
  {
    if v != Undefined then v else fallback
  }

  /** The fields of `new Anomaly(data)` built at time `now`. */
  function AnomalyDefaults(data: Doc, now: nat): (r: Doc)
    ensures Get(r, "timestamp") == Or(Get(data, "timestamp"), Date(now))
    ensures Get(r, "confirmed") == Defined(Get(data, "confirmed"), Bool(false))
    ensures Get(r, "resolved") == Defined(Get(data, "resolved"), Bool(false))
    ensures Get(r, "_id") == Or(Get(data, "_id"), Str(Decimal(now))) && Truthy(Get(r, "_id"))
    ensures forall k :: k != "timestamp" && k != "confirmed" && k != "resolved" && k != "_id" ==>
      Get(r, k) == Get(data, k)
  {
    var d := data["timestamp" := Or(Get(data, "timestamp"), Date(now))]
                 ["confirmed" := Defined(Get(data, "confirmed"), Bool(false))]
                 ["resolved" := Defined(Get(data, "resolved"), Bool(false))];
    if Truthy(Get(d, "_id")) then d else d["_id" := Str(Decimal(now))]
  }

  /** A new anomaly has the data's own properties plus `timestamp`,
      `confirmed`, `resolved` and `_id`. */
  lemma AnomalyDefaultsKeys(data: Doc, now: nat)
    ensures AnomalyDefaults(data, now).Keys == data.Keys + {"timestamp", "confirmed", "resolved", "_id"}
  {
  }

  /** A record that sets none of the defaulted fields keeps its own fields and
      gets the current time, both flags false and an id from the time. */
  lemma {:induction false} AnomalyDefaultsFresh(data: Doc, now: nat)
    requires "timestamp" !in data && "confirmed" !in data && "resolved" !in data && "_id" !in data
    ensures var a := AnomalyDefaults(data, now);
      && a.Keys == data.Keys + {"timestamp", "confirmed", "resolved", "_id"}
      && (forall k :: k in data ==> a[k] == data[k])
      && a["timestamp"] == Date(now) && a["confirmed"] == Bool(false) && a["resolved"] == Bool(false)
      && a["_id"] == Str(Decimal(now))
  {
    AnomalyDefaultsKeys(data, now);
    var a := AnomalyDefaults(data, now);
    forall k | k in data
      ensures a[k] == data[k]
    {
      assert Get(a, k) == Get(data, k);
    }
  }

  /** The fields of `new Geofence(data)` built at time `now`. */
  function GeofenceDefaults(data: Doc, now: nat): (r: Doc)
    ensures Get(r, "active") == Defined(Get(data, "active"), Bool(true))
    ensures Get(data, "active") == Bool(false) ==> Get(r, "active") == Bool(false)
    ensures Get(r, "createdAt") == Or(Get(data, "createdAt"), Date(now))
    ensures Get(r, "_id") == Or(Get(data, "_id"), Str(Decimal(now))) && Truthy(Get(r, "_id"))
    ensures forall k :: k != "active" && k != "createdAt" && k != "_id" ==> Get(r, k) == Get(data, k)
  {
    var d := data["active" := Defined(Get(data, "active"), Bool(true))]
                 ["createdAt" := Or(Get(data, "createdAt"), Date(now))];
    if Truthy(Get(d, "_id")) then d else d["_id" := Str(Decimal(now))]
  }

  /** A new geofence has the data's own properties plus `active`,
      `createdAt` and `_id`. */
  lemma GeofenceDefaultsKeys(data: Doc, now: nat)
    ensures GeofenceDefaults(data, now).Keys == data.Keys + {"active", "createdAt", "_id"}
  {
  }

  // ---------------------------------------------------------------------
  // Shared static lookups

  /** `{ _id: id }` and `{ mmsi: m }`-style filters on one property. */
  function KeyFilter(key: string, v: Value): Filter
  {
    map[key := v]
  }

  /** A one-property filter on a non-object value is strict equality. */
  lemma KeyFilterMatches(x: Doc, key: string, v: Value)
    requires !IsObject(v)
    ensures Matches(x, KeyFilter(key, v)) <==> Get(x, key) == v
  {
    assert key in KeyFilter(key, v);
  }

  /** The first position whose property has that value is the first match of
      the one-property filter. */
  lemma {:induction false} KeyFilterFirst(items: seq<Doc>, id: Value)
    requires !IsObject(id)
    ensures FirstMatch(items, KeyFilter("_id", id)) == IdIndex(items, id)
  {
    if items != [] {
      KeyFilterMatches(items[0], "_id", id);
      KeyFilterFirst(items[1..], id);
    }
  }

  /** `Model.findById(id)`: the first record with that id, or null. */
  function FindById(store: Store, collection: string, id: Value): (r: Option<Doc>)
    reads store
    ensures !IsObject(id) ==> (r.None? <==> IdIndex(store.Items(collection), id).None?)
    ensures !IsObject(id) && r.Some? ==>
      r.value == store.Items(collection)[IdIndex(store.Items(collection), id).value]
  {
    var found := store.FindOne(collection, KeyFilter("_id", id));
    if IsObject(id) then found
    else KeyFilterFirst(store.Items(collection), id); found
  }

  /** `Model.deleteOne(filter)`: finds the first match and deletes by its id,
      which removes every record sharing that id. */
  method DeleteFirstMatch(store: Store, collection: string, filter: Filter) returns (deleted: bool)
    modifies store
    ensures store.idCounter == old(store.idCounter)
    ensures FirstMatch(old(store.Items(collection)), filter).None? ==>
      !deleted && store.collections == old(store.collections)
    ensures FirstMatch(old(store.Items(collection)), filter).Some? ==>
      var items := old(store.Items(collection));
      deleted &&
      store.collections ==
        old(store.collections)[collection := WithoutId(items, Get(items[FirstMatch(items, filter).value], "_id"))]
  {
    var found := store.FindOne(collection, filter);
    if found.None? {
      return false;
    }
    deleted := store.DeleteOne(collection, Get(found.value, "_id"));
  }

  /** `Geofence.find({ active: true })` keeps exactly the zones whose `active`
      is the boolean true, in stored order. */
  lemma ActiveGeofences(store: Store)
    ensures var r := store.Find(GEOFENCES, KeyFilter("active", Bool(true)), NoOptions);
      (forall x :: x in r <==> x in store.Items(GEOFENCES) && Get(x, "active") == Bool(true)) &&
      r == Filtered(store.Items(GEOFENCES), KeyFilter("active", Bool(true)))
  {
    forall x ensures Matches(x, KeyFilter("active", Bool(true))) <==> Get(x, "active") == Bool(true) {
      KeyFilterMatches(x, "active", Bool(true));
    }
  }

  // ---------------------------------------------------------------------
  // Vessel upsert

  /** No two records share a value of `key`. */
  predicate UniqueBy(items: seq<Doc>, key: string)
  {
    forall i, j :: 0 <= i < j < |items| ==> Get(items[i], key) != Get(items[j], key)
  }

  /** The vessels after `vessel.save()`: the stored vessel with the same mmsi
      is merged with the new fields, or the vessel is appended. The merge goes
      by the `_id` of the first record with that mmsi, so it lands on the
      first record carrying that id, which is the matched record itself only
      when ids are unique. */
  function SavedVessels(items: seq<Doc>, doc: Doc, freshId: Value, now: nat): (r: seq<Doc>)
    ensures FirstMatch(items, KeyFilter("mmsi", Get(doc, "mmsi"))).Some? ==> |r| == |items|
    ensures FirstMatch(items, KeyFilter("mmsi", Get(doc, "mmsi"))).Some? ==>
      var i := FirstMatch(items, KeyFilter("mmsi", Get(doc, "mmsi"))).value;
      && IdIndex(items, Get(items[i], "_id")).Some?
      && var k := IdIndex(items, Get(items[i], "_id")).value;
      && k <= i
      && r[k] == Merged(items[k], doc, now)
      && (forall j :: 0 <= j < |r| && j != k ==> r[j] == items[j])
      && (UniqueBy(items, "_id") ==> k == i)
    ensures FirstMatch(items, KeyFilter("mmsi", Get(doc, "mmsi"))).None? ==>
      r == items + [InsertedItem(doc, freshId, now)]
  {
    match FirstMatch(items, KeyFilter("mmsi", Get(doc, "mmsi")))
    case Some(i) => UpdateItems(items, Get(items[i], "_id"), doc, now)
    case None => items + [InsertedItem(doc, freshId, now)]
  }

  /** Saving keeps mmsi values unique when the mmsi is a plain value and the
      stored ids are unique. */
  lemma SaveKeepsMmsiUnique(items: seq<Doc>, doc: Doc, freshId: Value, now: nat)
    requires UniqueBy(items, "mmsi") && UniqueBy(items, "_id")
    requires !IsObject(Get(doc, "mmsi"))
    ensures UniqueBy(SavedVessels(items, doc, freshId, now), "mmsi")
  {
    var m := Get(doc, "mmsi");
    var r := SavedVessels(items, doc, freshId, now);
    match FirstMatch(items, KeyFilter("mmsi", m))
    case Some(i) =>
      KeyFilterMatches(items[i], "mmsi", m);
      var id := Get(items[i], "_id");
      assert IdIndex(items, id) == Some(i);
      assert Get(r[i], "mmsi") == Get(items[i], "mmsi");
      assert forall j :: 0 <= j < |r| ==> Get(r[j], "mmsi") == Get(items[j], "mmsi");
    case None =>
      forall j | 0 <= j < |items| ensures Get(items[j], "mmsi") != m {
        KeyFilterMatches(items[j], "mmsi", m);
      }
      assert Get(r[|items|], "mmsi") == m;
  }

  /** Two vessels built without an id in the same millisecond get the same
      `_id` (both `Date.now().toString()`). Once both are stored, saving the
      second one again merges the new fields into the FIRST record, since the
      update goes by id: the store then holds two records with one mmsi. */
  lemma {:induction false} SameMillisecondIdsBreakSave(a: Doc, b: Doc, doc: Doc, fa: Value, fb: Value, freshId: Value, now: nat)
    requires !Truthy(Get(a, "_id")) && !Truthy(Get(b, "_id"))
    requires Get(a, "mmsi") != Get(b, "mmsi") && !IsObject(Get(b, "mmsi"))
    requires "mmsi" in doc && doc["mmsi"] == Get(b, "mmsi")
    ensures var items := [InsertedItem(VesselDefaults(a, now), fa, now), InsertedItem(VesselDefaults(b, now), fb, now)];
      && UniqueBy(items, "mmsi")
      && !UniqueBy(items, "_id")
      && !UniqueBy(SavedVessels(items, doc, freshId, now), "mmsi")
  {
    var x, y := InsertedItem(VesselDefaults(a, now), fa, now), InsertedItem(VesselDefaults(b, now), fb, now);
    assert Get(x, "mmsi") == Get(a, "mmsi") && Get(y, "mmsi") == Get(b, "mmsi");
    assert Get(x, "_id") == Str(Decimal(now)) == Get(y, "_id");
    SharedIdSave(x, y, doc, freshId, now);
  }

  /** Two stored records with one `_id`: saving a vessel with the second
      record's mmsi merges it into the first, and both then carry it. */
  lemma SharedIdSave(x: Doc, y: Doc, doc: Doc, freshId: Value, now: nat)
    requires Get(x, "_id") == Get(y, "_id")
    requires Get(x, "mmsi") != Get(y, "mmsi") && !IsObject(Get(y, "mmsi"))
    requires "mmsi" in doc && doc["mmsi"] == Get(y, "mmsi")
    ensures !UniqueBy(SavedVessels([x, y], doc, freshId, now), "mmsi")
  {
    var items := [x, y];
    var m := Get(y, "mmsi");
    assert FirstMatch(items, KeyFilter("mmsi", m)) == Some(1) by {
      KeyFilterMatches(x, "mmsi", m);
      KeyFilterMatches(y, "mmsi", m);
    }
    assert IdIndex(items, Get(y, "_id")) == Some(0);
    var r := SavedVessels(items, doc, freshId, now);
    assert r[0] == Merged(x, doc, now) && r[1] == y;
    assert Get(r[0], "mmsi") == m;
  }

  class Vessel {
    var doc: Doc

    /** `new Vessel(data)` at time `now`. */
    constructor (data: Doc, now: nat)
      ensures doc == VesselDefaults(data, now)
    {
      var d := data;
      d := d["lastSeen" := Or(Get(d, "lastSeen"), Date(now))];
      d := d["history" := Or(Get(d, "history"), Arr([]))];
      if !Truthy(Get(d, "_id")) {
        d := d["_id" := Str(Decimal(now))];
      }
      doc := d;
    }

    /** `vessel.save()`: upsert keyed by mmsi. */
    method Save(store: Store, now: nat)
      modifies store
      ensures store.collections ==
        old(store.collections)[VESSELS := SavedVessels(old(store.Items(VESSELS)), doc, Str(Decimal(old(store.idCounter))), now)]
      ensures store.idCounter == old(store.idCounter) +
        (if FirstMatch(old(store.Items(VESSELS)), KeyFilter("mmsi", Get(doc, "mmsi"))).None? && !Truthy(Get(doc, "_id")) then 1 else 0)
    {
      var existing := store.FindOne(VESSELS, KeyFilter("mmsi", Get(doc, "mmsi")));
      if existing.Some? {
        var _ := store.UpdateOne(VESSELS, Get(existing.value, "_id"), doc, now);
      } else {
        var _ := store.InsertOne(VESSELS, doc, now);
      }
    }
  }

  // ---------------------------------------------------------------------
  // Anomaly and geofence: update-only saves

  /** `save()` of an anomaly or a geofence: update by `_id` when it is
      truthy (always, after the constructor), insert otherwise. */
  method SaveById(store: Store, collection: string, doc: Doc, now: nat)
    modifies store
    ensures Truthy(Get(doc, "_id")) ==>
      store.collections == UpdatedTable(old(store.collections), collection, doc["_id"], doc, now) &&
      store.idCounter == old(store.idCounter)
    ensures Truthy(Get(doc, "_id")) && IdIndex(old(store.Items(collection)), doc["_id"]).None? ==>
      store.collections == old(store.collections)
    ensures !Truthy(Get(doc, "_id")) ==>
      store.collections == old(store.collections)[collection := old(store.Items(collection)) +
        [InsertedItem(doc, Str(Decimal(old(store.idCounter))), now)]]
  {
    if Truthy(Get(doc, "_id")) {
      var _ := store.UpdateOne(collection, doc["_id"], doc, now);
    } else {
      var _ := store.InsertOne(collection, doc, now);
    }
  }

  class Anomaly {
    var doc: Doc

    /** `new Anomaly(data)` at time `now`. */
    constructor (data: Doc, now: nat)
      ensures doc == AnomalyDefaults(data, now)
    {
      var d := data;
      d := d["timestamp" := Or(Get(d, "timestamp"), Date(now))];
      d := d["confirmed" := Defined(Get(d, "confirmed"), Bool(false))];
      d := d["resolved" := Defined(Get(d, "resolved"), Bool(false))];
      if !Truthy(Get(d, "_id")) {
        d := d["_id" := Str(Decimal(now))];
      }
      doc := d;
    }

    /** `anomaly.save()`: a record whose id is not stored yet is not inserted. */
    method Save(store: Store, now: nat)
      modifies store
      ensures Truthy(Get(doc, "_id")) ==>
        store.collections == UpdatedTable(old(store.collections), ANOMALIES, doc["_id"], doc, now) &&
        store.idCounter == old(store.idCounter)
      ensures Truthy(Get(doc, "_id")) && IdIndex(old(store.Items(ANOMALIES)), doc["_id"]).None? ==>
        store.collections == old(store.collections)
      ensures !Truthy(Get(doc, "_id")) ==>
        store.collections == old(store.collections)[ANOMALIES := old(store.Items(ANOMALIES)) +
          [InsertedItem(doc, Str(Decimal(old(store.idCounter))), now)]]
    {
      SaveById(store, ANOMALIES, doc, now);
    }
  }

  class Geofence {
    var doc: Doc

    /** `new Geofence(data)` at time `now`. */
    constructor (data: Doc, now: nat)
      ensures doc == GeofenceDefaults(data, now)
    {
      var d := data;
      d := d["active" := Defined(Get(d, "active"), Bool(true))];
      d := d["createdAt" := Or(Get(d, "createdAt"), Date(now))];
      if !Truthy(Get(d, "_id")) {
        d := d["_id" := Str(Decimal(now))];
      }
      doc := d;
    }

    /** `geofence.save()`: a zone whose id is not stored yet is not inserted. */
    method Save(store: Store, now: nat)
      modifies store
      ensures Truthy(Get(doc, "_id")) ==>
        store.collections == UpdatedTable(old(store.collections), GEOFENCES, doc["_id"], doc, now) &&
        store.idCounter == old(store.idCounter)
      ensures Truthy(Get(doc, "_id")) && IdIndex(old(store.Items(GEOFENCES)), doc["_id"]).None? ==>
        store.collections == old(store.collections)
      ensures !Truthy(Get(doc, "_id")) ==>
        store.collections == old(store.collections)[GEOFENCES := old(store.Items(GEOFENCES)) +
          [InsertedItem(doc, Str(Decimal(old(store.idCounter))), now)]]
    {
      SaveById(store, GEOFENCES, doc, now);
    }
  }

  /** An empty anomalies collection stays empty whatever is saved into it
      with a truthy id, which every constructed anomaly has. */
  lemma {:induction false} EmptyStaysEmpty(table: map<string, seq<Doc>>, name: string, id: Value, data: Doc, now: nat)
    requires name in table && table[name] == []
    ensures var r := UpdatedTable(table, name, id, data, now); name in r && r[name] == []
  {
    assert IdIndex(table[name], id).None?;
  }
}
