/** The anomaly detectors (server/services/anomaly.js): AIS shutoff over the
    stored vessels, route deviation against a vessel's own history, geofence
    violation against the active zones, and the pass that runs them over a
    batch of reports. Every anomaly found is built with `new Anomaly` and
    saved; the geometry is the turf library's and enters as a parameter. */
module AnomalyDetection {
  import opened Values
  import opened MemoryStore
  import opened Models

  type Table = map<string, seq<Doc>>

  /** How long a vessel may stay silent before it counts as shut off. */
  const HALF_HOUR_MS: nat := 30 * 60 * 1000
  /** How far back a silent vessel still counts as recently seen. */
  const DAY_MS: nat := 24 * 60 * 60 * 1000
  /** Nautical miles off the route that make a deviation. */
  const DEVIATION_LIMIT: real := 5.0
  /** Fewer history points than this make no route. */
  const MIN_ROUTE_POINTS: nat := 3

  const AIS_SHUTOFF := "AIS_SHUTOFF"
  const ROUTE_DEVIATION := "ROUTE_DEVIATION"
  const GEOFENCE_VIOLATION := "GEOFENCE_VIOLATION"

  /** A `[lon, lat]` pair as handed to turf. */
  datatype Position = Position(lon: Value, lat: Value)

  /** The turf calls the detectors make: each builds or measures a value and
      may throw on malformed coordinates. Distances are in nautical miles. */
  datatype Geometry = Geometry(
    lineString: seq<Position> -> Result<Value>,
    point: Position -> Result<Value>,
    polygon: Value -> Result<Value>,
    pointToLineDistance: (Value, Value) -> Result<real>,
    booleanPointInPolygon: (Value, Value) -> Result<bool>)

  function ItemsOf(table: Table, name: string): seq<Doc>
  {
    if name in table then table[name] else []
  }

  // ---------------------------------------------------------------------
  // Anomaly records

  /** `{ lat: vessel.lat, lon: vessel.lon }` */
  function Location(vessel: Doc): Value
  {
    Obj(map["lat" := Get(vessel, "lat"), "lon" := Get(vessel, "lon")])
  }

  /** `[vessel.lon, vessel.lat]` */
  function PositionOf(vessel: Doc): Position
  {
    Position(Get(vessel, "lon"), Get(vessel, "lat"))
  }

  /** The fields every detector hands to `new Anomaly`. */
  function AnomalyData(vessel: Doc, kind: string, details: Value): Doc
  {
    map["mmsi" := Get(vessel, "mmsi"), "vesselName" := Get(vessel, "name"), "anomalyType" := Str(kind),
        "location" := Location(vessel), "details" := details]
  }

  /** The anomaly as its constructor completes it at time `now`. */
  function Detected(vessel: Doc, kind: string, details: Value, now: nat): Doc
  {
    AnomalyData(vessel, kind, details)
      ["timestamp" := Date(now)]["confirmed" := Bool(false)]["resolved" := Bool(false)]["_id" := Str(Decimal(now))]
  }

  /** `new Anomaly(data)` fills in exactly these fields: none of them is in
      the detector's data. */
  lemma DetectedIsConstructed(vessel: Doc, kind: string, details: Value, now: nat)
    ensures AnomalyDefaults(AnomalyData(vessel, kind, details), now) == Detected(vessel, kind, details, now)
  {
    var data := AnomalyData(vessel, kind, details);
    assert Get(data, "timestamp") == Undefined && Get(data, "confirmed") == Undefined;
    assert Get(data, "resolved") == Undefined && Get(data, "_id") == Undefined;
  }

  /** A detected anomaly names the vessel, its type and position, carries
      the details, starts unconfirmed and unresolved, and is stamped and
      identified by the detection time. */
  lemma {:induction false} DetectedFields(vessel: Doc, kind: string, details: Value, now: nat)
    ensures var a := Detected(vessel, kind, details, now);
      && Get(a, "anomalyType") == Str(kind)
      && Get(a, "mmsi") == Get(vessel, "mmsi")
      && Get(a, "vesselName") == Get(vessel, "name")
      && Get(a, "location") == Location(vessel)
      && Get(a, "details") == details
      && Get(a, "confirmed") == Bool(false)
      && Get(a, "resolved") == Bool(false)
      && Get(a, "timestamp") == Date(now)
      && Get(a, "_id") == Str(Decimal(now))
  {
  }

  /** The table after `anomaly.save()`: an update by the anomaly's id. */
  function Saved(table: Table, anomaly: Doc, now: nat): Table
  {
    UpdatedTable(table, ANOMALIES, Get(anomaly, "_id"), anomaly, now)
  }

  /** The table after saving each anomaly in turn. */
  function SavedAll(table: Table, anomalies: seq<Doc>, now: nat): Table
    decreases |anomalies|
  {
    if anomalies == [] then table
    else Saved(SavedAll(table, anomalies[..|anomalies| - 1], now), anomalies[|anomalies| - 1], now)
  }

  function SavedOpt(table: Table, anomaly: Option<Doc>, now: nat): Table
  {
    if anomaly.Some? then Saved(table, anomaly.value, now) else table
  }

  function OptSeq(anomaly: Option<Doc>): seq<Doc>
  {
    if anomaly.Some? then [anomaly.value] else []
  }

  /** Saving an anomaly touches only the anomalies collection. */
  lemma SavedKeepsOthers(table: Table, anomaly: Doc, now: nat, name: string)
    requires name != ANOMALIES
    ensures ItemsOf(Saved(table, anomaly, now), name) == ItemsOf(table, name)
    ensures Saved(table, anomaly, now).Keys == table.Keys
  {
  }

  /** Saving an anomaly whose id is not stored changes nothing at all. */
  lemma SavedUnstored(table: Table, anomaly: Doc, now: nat)
    requires IdIndex(ItemsOf(table, ANOMALIES), Get(anomaly, "_id")).None?
    ensures Saved(table, anomaly, now) == table
  {
    var r := Saved(table, anomaly, now);
    forall k | k in table ensures r[k] == table[k] {
    }
  }

  /** `const anomaly = new Anomaly({...}); await anomaly.save();` */
  method SaveDetected(store: Store, vessel: Doc, kind: string, details: Value, now: nat) returns (doc: Doc)
    modifies store
    ensures doc == Detected(vessel, kind, details, now)
    ensures store.collections == Saved(old(store.collections), doc, now)
    ensures store.idCounter == old(store.idCounter)
  {
    var anomaly := new Anomaly(AnomalyData(vessel, kind, details), now);
    DetectedIsConstructed(vessel, kind, details, now);
    anomaly.Save(store, now);
    doc := anomaly.doc;
  }

  // ---------------------------------------------------------------------
  // AIS shutoff

  /** `{ lastSeen: { $lt: cutoffTime, $gt: new Date(now - 24h) } }`: the
      upper bound is a plain number, the lower one a Date. */
  function ShutoffFilter(now: nat): Filter
  {
    map["lastSeen" := Obj(map["$lt" := Num(now as real - HALF_HOUR_MS as real), "$gt" := Date(now - DAY_MS)])]
  }

  /** Silent for more than half an hour, but seen within the last day. */
  predicate InShutoffWindow(vessel: Doc, now: nat)
  {
    && Compare(Get(vessel, "lastSeen"), Num(now as real - HALF_HOUR_MS as real)) == Less
    && Compare(Get(vessel, "lastSeen"), Date(now - DAY_MS)) == Greater
  }

  /** The loop's re-check `vessel.lastSeen < new Date(cutoffTime)`. */
  predicate SilentSince(vessel: Doc, now: nat)
  {
    Compare(Get(vessel, "lastSeen"), Date(now - HALF_HOUR_MS)) == Less
  }

  function ShutoffDetails(vessel: Doc): Value
  {
    Obj(map["lastSeen" := Get(vessel, "lastSeen"), "lastPosition" := Location(vessel)])
  }

  function ShutoffAnomaly(vessel: Doc, now: nat): Doc
  {
    Detected(vessel, AIS_SHUTOFF, ShutoffDetails(vessel), now)
  }

  /** The anomalies the loop builds from the vessels the query returned. */
  function Shutoffs(recent: seq<Doc>, now: nat): seq<Doc>
    decreases |recent|
  {
    if recent == [] then []
    else
      var vessel := recent[|recent| - 1];
      Shutoffs(recent[..|recent| - 1], now) + (if SilentSince(vessel, now) then [ShutoffAnomaly(vessel, now)] else [])
  }

  /** `detectAisShutoff()` on the stored vessels at time `now`. */
  function AisShutoffs(vessels: seq<Doc>, now: nat): seq<Doc>
  {
    Shutoffs(Filtered(vessels, ShutoffFilter(now)), now)
  }

  /** The query keeps exactly the vessels in the shutoff window. */
  lemma ShutoffFilterWindow(vessel: Doc, now: nat)
    ensures Matches(vessel, ShutoffFilter(now)) <==> InShutoffWindow(vessel, now)
  {
    var f := ShutoffFilter(now);
    assert f.Keys == {"lastSeen"};
    var bounds := map["$lt" := Num(now as real - HALF_HOUR_MS as real), "$gt" := Date(now - DAY_MS)];
    assert f["lastSeen"] == Obj(bounds);
    assert Get(bounds, "$gte") == Undefined && Get(bounds, "$lte") == Undefined;
    if InShutoffWindow(vessel, now) {
      assert FieldMatches(Get(vessel, "lastSeen"), f["lastSeen"]);
    }
  }

  /** For a `lastSeen` with a numeric value (a time, a number, numeric
      text) the window is the open interval (now - 24h, now - 30min); any
      other `lastSeen` (missing, an object, other text) is never in it. */
  lemma ShutoffWindowBounds(vessel: Doc, now: nat)
    ensures ToNumber(Get(vessel, "lastSeen")).Some? ==>
      var t := ToNumber(Get(vessel, "lastSeen")).value;
      (InShutoffWindow(vessel, now) <==> (now - DAY_MS) as real < t < now as real - HALF_HOUR_MS as real)
    ensures ToNumber(Get(vessel, "lastSeen")).None? ==> !InShutoffWindow(vessel, now)
  {
  }

  /** A vessel in the window always passes the loop's re-check, so the loop
      keeps every vessel the query returned. */
  lemma WindowIsSilent(vessel: Doc, now: nat)
    requires InShutoffWindow(vessel, now)
    ensures SilentSince(vessel, now)
  {
  }

  lemma {:induction false} ShutoffsAllSilent(recent: seq<Doc>, now: nat)
    requires forall v :: v in recent ==> SilentSince(v, now)
    ensures |Shutoffs(recent, now)| == |recent|
    ensures forall i :: 0 <= i < |recent| ==> Shutoffs(recent, now)[i] == ShutoffAnomaly(recent[i], now)
    decreases |recent|
  {
    if recent != [] {
      var init, last := recent[..|recent| - 1], recent[|recent| - 1];
      assert forall v :: v in init ==> v in recent;
      ShutoffsAllSilent(init, now);
      assert last in recent;
      var s := Shutoffs(recent, now);
      assert s == Shutoffs(init, now) + [ShutoffAnomaly(last, now)];
      forall i | 0 <= i < |recent| ensures s[i] == ShutoffAnomaly(recent[i], now) {
        if i < |init| {
          assert recent[i] == init[i];
        }
      }
    }
  }

  /** `detectAisShutoff` flags exactly the stored vessels in the window, one
      anomaly each, in stored order. */
  lemma {:induction false} AisShutoffsExactly(vessels: seq<Doc>, now: nat)
    ensures var recent, r := Filtered(vessels, ShutoffFilter(now)), AisShutoffs(vessels, now);
      && (forall v :: v in recent <==> v in vessels && InShutoffWindow(v, now))
      && |r| == |recent|
      && forall i :: 0 <= i < |r| ==> r[i] == ShutoffAnomaly(recent[i], now)
  {
    var recent := Filtered(vessels, ShutoffFilter(now));
    forall v ensures Matches(v, ShutoffFilter(now)) <==> InShutoffWindow(v, now) {
      ShutoffFilterWindow(v, now);
    }
    forall v | v in recent ensures SilentSince(v, now) {
      WindowIsSilent(v, now);
    }
    ShutoffsAllSilent(recent, now);
  }

  /** A shutoff anomaly records the vessel's last sighting and position. */
  lemma ShutoffAnomalyFields(vessel: Doc, now: nat)
    ensures var a := ShutoffAnomaly(vessel, now);
      && Get(a, "anomalyType") == Str(AIS_SHUTOFF)
      && Get(a, "mmsi") == Get(vessel, "mmsi")
      && Get(a, "vesselName") == Get(vessel, "name")
      && Get(a, "location") == Location(vessel)
      && Get(a, "details") == Obj(map["lastSeen" := Get(vessel, "lastSeen"), "lastPosition" := Location(vessel)])
      && Get(a, "confirmed") == Bool(false) && Get(a, "resolved") == Bool(false)
  {
    DetectedFields(vessel, AIS_SHUTOFF, ShutoffDetails(vessel), now);
  }

  /** `detectAisShutoff()`: query the window, re-check each vessel, build and
      save an anomaly for it. */
  method DetectAisShutoff(store: Store, now: nat) returns (anomalies: seq<Doc>)
    modifies store
    ensures anomalies == AisShutoffs(old(store.Items(VESSELS)), now)
    ensures store.collections == SavedAll(old(store.collections), anomalies, now)
    ensures store.idCounter == old(store.idCounter)
  {
    var recent := store.Find(VESSELS, ShutoffFilter(now), NoOptions);
    anomalies := [];
    var i := 0;
    while i < |recent|
      invariant 0 <= i <= |recent|
      invariant anomalies == Shutoffs(recent[..i], now)
      invariant store.collections == SavedAll(old(store.collections), anomalies, now)
      invariant store.idCounter == old(store.idCounter)
    {
      var vessel := recent[i];
      assert recent[..i + 1][..i] == recent[..i];
      if SilentSince(vessel, now) {
        var anomaly := SaveDetected(store, vessel, AIS_SHUTOFF, ShutoffDetails(vessel), now);
        anomalies := anomalies + [anomaly];
        assert anomalies[..|anomalies| - 1] == Shutoffs(recent[..i], now);
      }
      i := i + 1;
    }
    assert recent[..i] == recent;
  }

  // ---------------------------------------------------------------------
  // Route deviation

  /** `[point.lon, point.lat]` for one history entry. */
  function HistoryPosition(point: Value): Result<Position>
  {
    var lon :- Prop(point, "lon");
    var lat :- Prop(point, "lat");
    Ok(Position(lon, lat))
  }

  /** `vesselHistory.map(point => [point.lon, point.lat])`. */
  function RoutePositions(history: seq<Value>): Result<seq<Position>>
    decreases |history|
  {
    if history == [] then Ok([])
    else
      var init :- RoutePositions(history[..|history| - 1]);
      var last :- HistoryPosition(history[|history| - 1]);
      Ok(init + [last])
  }

  /** The route keeps the history's order: position `i` is entry `i`'s, and
      the mapping fails exactly when some entry is undefined or null. */
  lemma {:induction false} RoutePositionsPointwise(history: seq<Value>)
    ensures var r := RoutePositions(history);
      r.Ok? <==> forall i :: 0 <= i < |history| ==> !history[i].Undefined? && !history[i].Null?
    ensures var r := RoutePositions(history);
      r.Ok? ==> (|r.value| == |history| &&
        forall i :: 0 <= i < |history| ==> r.value[i] == HistoryPosition(history[i]).value)
    decreases |history|
  {
    if history != [] {
      var init := history[..|history| - 1];
      RoutePositionsPointwise(init);
      assert forall i :: 0 <= i < |init| ==> init[i] == history[i];
      var prev := RoutePositions(init);
      var last := HistoryPosition(history[|history| - 1]);
      if prev.Ok? && last.Ok? {
        assert RoutePositions(history).value == prev.value + [last.value];
      }
    }
  }

  /** An object entry gives its own `lon` and `lat`. */
  lemma HistoryPositionOfObject(point: Value)
    requires point.Obj?
    ensures HistoryPosition(point) == Ok(Position(Get(point.fields, "lon"), Get(point.fields, "lat")))
  {
  }

  function RouteDetails(vessel: Doc, route: Value, distance: real): Value
  {
    Obj(map["deviationDistance" := Num(distance), "expectedRoute" := route,
            "currentPoint" := Arr([Get(vessel, "lon"), Get(vessel, "lat")])])
  }

  /** The steps after the length check: the route from the history, the
      current point, and its distance from the route. */
  function RouteDistance(vessel: Doc, history: seq<Value>, geo: Geometry): Result<(Value, real)>
  {
    var positions :- RoutePositions(history);
    var route :- geo.lineString(positions);
    var current :- geo.point(PositionOf(vessel));
    var distance :- geo.pointToLineDistance(current, route);
    Ok((route, distance))
  }

  /** `vesselHistory.length < 3` for a history that is not undefined or null:
      an array or string compares its length, a plain object its `length`
      property (so `{ length: 0 }` passes), and anything else has no
      `length` (undefined is never below 3). */
  predicate ShortHistory(history: Value)
  {
    || (history.Arr? && |history.items| < MIN_ROUTE_POINTS)
    || (history.Str? && |history.s| < MIN_ROUTE_POINTS)
    || (history.Obj? && Compare(Get(history.fields, "length"), Num(MIN_ROUTE_POINTS as real)) == Less)
  }

  /** `detectRouteDeviation(vessel, vesselHistory)`: `length` of undefined or
      null throws; a short history has no route; any other value without a
      `map` method throws. */
  function RouteDeviation(vessel: Doc, history: Value, geo: Geometry, now: nat): Result<Option<Doc>>
  {
    if history.Undefined? || history.Null? then Err(TypeError("cannot read length of the history"))
    else if ShortHistory(history) then Ok(None)
    else if !history.Arr? then Err(TypeError("vesselHistory.map is not a function"))
    else
      var (route, distance) :- RouteDistance(vessel, history.items, geo);
      if distance > DEVIATION_LIMIT then Ok(Some(Detected(vessel, ROUTE_DEVIATION, RouteDetails(vessel, route, distance), now)))
      else Ok(None)
  }

  /** Fewer than three history points never make a deviation. */
  lemma ShortHistoryNoDeviation(vessel: Doc, history: seq<Value>, geo: Geometry, now: nat)
    requires |history| < MIN_ROUTE_POINTS
    ensures RouteDeviation(vessel, Arr(history), geo, now) == Ok(None)
  {
  }

  /** With a measurable route, a deviation is reported exactly when the
      current point lies more than five nautical miles off it, and the
      anomaly carries that distance, the route and the current point. */
  lemma DeviationIffFarOff(vessel: Doc, history: seq<Value>, geo: Geometry, now: nat)
    requires |history| >= MIN_ROUTE_POINTS
    requires RouteDistance(vessel, history, geo).Ok?
    ensures var (route, distance) := RouteDistance(vessel, history, geo).value;
      var r := RouteDeviation(vessel, Arr(history), geo, now);
      && r.Ok?
      && (r.value.Some? <==> distance > DEVIATION_LIMIT)
      && (r.value.Some? ==>
            && Get(r.value.value, "anomalyType") == Str(ROUTE_DEVIATION)
            && Get(r.value.value, "details") == RouteDetails(vessel, route, distance)
            && Get(r.value.value, "confirmed") == Bool(false)
            && Get(r.value.value, "resolved") == Bool(false))
  {
    var (route, distance) := RouteDistance(vessel, history, geo).value;
    DetectedFields(vessel, ROUTE_DEVIATION, RouteDetails(vessel, route, distance), now);
  }

  /** An object whose `length` is below 3 is a short history, whatever else
      it holds: `{ length: 0 }`, `{ length: null }` and `{ length: "2" }` all
      give null. */
  lemma ShortLengthObjectNoDeviation(vessel: Doc, fields: map<string, Value>, geo: Geometry, now: nat)
    requires Compare(Get(fields, "length"), Num(MIN_ROUTE_POINTS as real)) == Less
    ensures RouteDeviation(vessel, Obj(fields), geo, now) == Ok(None)
  {
  }

  /** The three objects above are short histories. */
  lemma ShortLengthExamples()
    ensures ShortHistory(Obj(map["length" := Num(0.0)]))
    ensures ShortHistory(Obj(map["length" := Null]))
    ensures ShortHistory(Obj(map["length" := Str("2")]))
  {
    assert StringToNumber("2") == Some(2.0) by {
      assert Scan("2", 1, Whole(false, 0)) == Some(WholeIn("2", 0, 1) as real);
    }
  }

  /** A history that is not an array, a string or an object with a `length`
      below 3: reading `length` of undefined or null throws, any other value
      has no `map`. */
  lemma NonArrayHistoryThrows(vessel: Doc, history: Value, geo: Geometry, now: nat)
    requires !history.Arr? && !history.Str?
    requires history.Obj? ==> Compare(Get(history.fields, "length"), Num(MIN_ROUTE_POINTS as real)) != Less
    ensures RouteDeviation(vessel, history, geo, now).Err?
    ensures RouteDeviation(vessel, history, geo, now).error.TypeError?
  {
  }

  /** Any failure of the route, point or distance step is the call's error. */
  lemma RouteFailurePropagates(vessel: Doc, history: seq<Value>, geo: Geometry, now: nat)
    requires |history| >= MIN_ROUTE_POINTS
    requires RouteDistance(vessel, history, geo).Err?
    ensures RouteDeviation(vessel, Arr(history), geo, now) == Err(RouteDistance(vessel, history, geo).error)
  {
  }

  method DetectRouteDeviation(store: Store, vessel: Doc, history: Value, geo: Geometry, now: nat)
    returns (r: Result<Option<Doc>>)
    modifies store
    ensures r == RouteDeviation(vessel, history, geo, now)
    ensures store.collections == (if r.Ok? then SavedOpt(old(store.collections), r.value, now) else old(store.collections))
    ensures store.idCounter == old(store.idCounter)
  {
    if history.Undefined? || history.Null? {
      return Err(TypeError("cannot read length of the history"));
    }
    if ShortHistory(history) {
      return Ok(None);
    }
    if !history.Arr? {
      return Err(TypeError("vesselHistory.map is not a function"));
    }
    var positions :- RoutePositions(history.items);
    var route :- geo.lineString(positions);
    var current :- geo.point(PositionOf(vessel));
    var distance :- geo.pointToLineDistance(current, route);
    if distance > DEVIATION_LIMIT {
      var anomaly := SaveDetected(store, vessel, ROUTE_DEVIATION, RouteDetails(vessel, route, distance), now);
      return Ok(Some(anomaly));
    }
    return Ok(None);
  }

  // ---------------------------------------------------------------------
  // Geofence violation

  /** `Geofence.find({ active: true })` on the table. */
  function ActiveZones(table: Table): seq<Doc>
  {
    Filtered(ItemsOf(table, GEOFENCES), KeyFilter("active", Bool(true)))
  }

  /** One iteration: the point, the zone's polygon from
      `geofence.geoJson.coordinates`, and whether the point is inside. */
  function ZoneCheck(zone: Doc, vessel: Doc, geo: Geometry): Result<bool>
  {
    var point :- geo.point(PositionOf(vessel));
    var coordinates :- Prop(Get(zone, "geoJson"), "coordinates");
    var polygon :- geo.polygon(coordinates);
    geo.booleanPointInPolygon(point, polygon)
  }

  /** The index of the first zone from `i` on that contains the point; the
      first zone whose check throws ends the search with its error. */
  function ViolationFrom(zones: seq<Doc>, vessel: Doc, geo: Geometry, i: nat): (r: Result<Option<nat>>)
    requires i <= |zones|
    ensures r.Ok? && r.value.Some? ==> i <= r.value.value < |zones|
    decreases |zones| - i
  {
    if i == |zones| then Ok(None)
    else
      var inside :- ZoneCheck(zones[i], vessel, geo);
      if inside then Ok(Some(i)) else ViolationFrom(zones, vessel, geo, i + 1)
  }

  function ZoneDetails(zone: Doc): Value
  {
    Obj(map["geofenceId" := Get(zone, "_id"), "geofenceName" := Get(zone, "name")])
  }

  /** `detectGeofenceViolation(vessel)` given the active zones. */
  function GeofenceViolation(zones: seq<Doc>, vessel: Doc, geo: Geometry, now: nat): Result<Option<Doc>>
  {
    var hit :- ViolationFrom(zones, vessel, geo, 0);
    if hit.Some? then Ok(Some(Detected(vessel, GEOFENCE_VIOLATION, ZoneDetails(zones[hit.value]), now)))
    else Ok(None)
  }

  /** The search stops at the first containing zone: every zone before it
      was checked and found not to contain the point. */
  lemma {:induction false} ViolationIsFirst(zones: seq<Doc>, vessel: Doc, geo: Geometry, i: nat)
    requires i <= |zones|
    requires ViolationFrom(zones, vessel, geo, i).Ok? && ViolationFrom(zones, vessel, geo, i).value.Some?
    ensures var j := ViolationFrom(zones, vessel, geo, i).value.value;
      ZoneCheck(zones[j], vessel, geo) == Ok(true) &&
      forall k :: i <= k < j ==> ZoneCheck(zones[k], vessel, geo) == Ok(false)
    decreases |zones| - i
  {
    if ZoneCheck(zones[i], vessel, geo) != Ok(true) {
      ViolationIsFirst(zones, vessel, geo, i + 1);
    }
  }

  /** No violation exactly when every zone was checked and none contains the
      point. */
  lemma {:induction false} NoViolationIffOutsideAll(zones: seq<Doc>, vessel: Doc, geo: Geometry, i: nat)
    requires i <= |zones|
    ensures ViolationFrom(zones, vessel, geo, i) == Ok(None) <==>
      forall k :: i <= k < |zones| ==> ZoneCheck(zones[k], vessel, geo) == Ok(false)
    decreases |zones| - i
  {
    if i < |zones| {
      NoViolationIffOutsideAll(zones, vessel, geo, i + 1);
    }
  }

  /** A violation names the first active zone containing the vessel. */
  lemma GeofenceViolationFields(table: Table, vessel: Doc, geo: Geometry, now: nat)
    requires GeofenceViolation(ActiveZones(table), vessel, geo, now).Ok?
    requires GeofenceViolation(ActiveZones(table), vessel, geo, now).value.Some?
    ensures var zones := ActiveZones(table);
      var a := GeofenceViolation(zones, vessel, geo, now).value.value;
      exists j ::
        && 0 <= j < |zones|
        && ZoneCheck(zones[j], vessel, geo) == Ok(true)
        && (forall k :: 0 <= k < j ==> ZoneCheck(zones[k], vessel, geo) == Ok(false))
        && Get(zones[j], "active") == Bool(true)
        && Get(a, "anomalyType") == Str(GEOFENCE_VIOLATION)
        && Get(a, "details") == ZoneDetails(zones[j])
        && Get(a, "confirmed") == Bool(false) && Get(a, "resolved") == Bool(false)
  {
    var zones := ActiveZones(table);
    var j := ViolationFrom(zones, vessel, geo, 0).value.value;
    ViolationIsFirst(zones, vessel, geo, 0);
    KeyFilterMatches(zones[j], "active", Bool(true));
    DetectedFields(vessel, GEOFENCE_VIOLATION, ZoneDetails(zones[j]), now);
  }

  /** The same zone among the stored geofences, in store order: it is the
      first stored geofence whose `active` is true and that contains the
      point; every active geofence stored before it was checked and does not. */
  lemma GeofenceViolationStored(table: Table, vessel: Doc, geo: Geometry, now: nat)
    requires GeofenceViolation(ActiveZones(table), vessel, geo, now).Ok?
    requires GeofenceViolation(ActiveZones(table), vessel, geo, now).value.Some?
    ensures var stored := ItemsOf(table, GEOFENCES);
      var a := GeofenceViolation(ActiveZones(table), vessel, geo, now).value.value;
      exists i ::
        && 0 <= i < |stored|
        && Get(stored[i], "active") == Bool(true)
        && ZoneCheck(stored[i], vessel, geo) == Ok(true)
        && (forall k :: 0 <= k < i && Get(stored[k], "active") == Bool(true) ==>
              ZoneCheck(stored[k], vessel, geo) == Ok(false))
        && Get(a, "details") == ZoneDetails(stored[i])
  {
    var zones := ActiveZones(table);
    var j := ViolationFrom(zones, vessel, geo, 0).value.value;
    ViolationIsFirst(zones, vessel, geo, 0);
    var a := GeofenceViolation(zones, vessel, geo, now).value.value;
    assert Get(a, "details") == ZoneDetails(zones[j]) by {
      DetectedFields(vessel, GEOFENCE_VIOLATION, ZoneDetails(zones[j]), now);
    }
    StoredFirstHit(ItemsOf(table, GEOFENCES), vessel, geo, j);
  }

  /** The first hit among the active zones, traced back to the stored list. */
  lemma StoredFirstHit(stored: seq<Doc>, vessel: Doc, geo: Geometry, j: nat)
    requires var zones := Filtered(stored, KeyFilter("active", Bool(true)));
      && j < |zones|
      && ZoneCheck(zones[j], vessel, geo) == Ok(true)
      && forall k :: 0 <= k < j ==> ZoneCheck(zones[k], vessel, geo) == Ok(false)
    ensures var zones := Filtered(stored, KeyFilter("active", Bool(true)));
      exists i ::
        && 0 <= i < |stored|
        && stored[i] == zones[j]
        && Get(stored[i], "active") == Bool(true)
        && ZoneCheck(stored[i], vessel, geo) == Ok(true)
        && (forall k :: 0 <= k < i && Get(stored[k], "active") == Bool(true) ==>
              ZoneCheck(stored[k], vessel, geo) == Ok(false))
  {
    var f := KeyFilter("active", Bool(true));
    var zones := Filtered(stored, f);
    var i := FilteredPosition(stored, f, j);
    KeyFilterMatches(stored[i], "active", Bool(true));
    forall k | 0 <= k < i && Get(stored[k], "active") == Bool(true)
      ensures ZoneCheck(stored[k], vessel, geo) == Ok(false)
    {
      KeyFilterMatches(stored[k], "active", Bool(true));
      assert stored[k] in stored[..i];
      assert stored[k] in zones[..j];
      var m :| 0 <= m < j && zones[m] == stored[k];
    }
  }

  method DetectGeofenceViolation(store: Store, vessel: Doc, geo: Geometry, now: nat)
    returns (r: Result<Option<Doc>>)
    modifies store
    ensures r == GeofenceViolation(ActiveZones(old(store.collections)), vessel, geo, now)
    ensures store.collections == (if r.Ok? then SavedOpt(old(store.collections), r.value, now) else old(store.collections))
    ensures store.idCounter == old(store.idCounter)
  {
    var zones := store.Find(GEOFENCES, KeyFilter("active", Bool(true)), NoOptions);
    var i := 0;
    while i < |zones|
      invariant 0 <= i <= |zones|
      invariant ViolationFrom(zones, vessel, geo, 0) == ViolationFrom(zones, vessel, geo, i)
      invariant store.collections == old(store.collections) && store.idCounter == old(store.idCounter)
    {
      ghost var check := ZoneCheck(zones[i], vessel, geo);
      assert ViolationFrom(zones, vessel, geo, i) ==
        if check.Err? then Err(check.error) else if check.value then Ok(Some(i)) else ViolationFrom(zones, vessel, geo, i + 1);
      var point :- geo.point(PositionOf(vessel));
      var coordinates :- Prop(Get(zones[i], "geoJson"), "coordinates");
      var polygon :- geo.polygon(coordinates);
      var inside :- geo.booleanPointInPolygon(point, polygon);
      if inside {
        var anomaly := SaveDetected(store, vessel, GEOFENCE_VIOLATION, ZoneDetails(zones[i]), now);
        return Ok(Some(anomaly));
      }
      i := i + 1;
    }
    return Ok(None);
  }

  // ---------------------------------------------------------------------
  // The detection pass

  /** The table after a run and what the run returned or threw. */
  datatype Pass = Pass(table: Table, result: Result<seq<Doc>>)

  /** `Vessel.findOne({ mmsi: vessel.mmsi })` */
  function StoredVessel(table: Table, vessel: Doc): Option<Doc>
  {
    var items := ItemsOf(table, VESSELS);
    match FirstMatch(items, KeyFilter("mmsi", Get(vessel, "mmsi")))
    case None => None
    case Some(i) => Some(items[i])
  }

  /** One iteration of the loop: a stored vessel is checked for a route
      deviation against its stored history, then for a geofence violation.
      The zones are read after the route anomaly is saved, which leaves them
      as they were (`SavedKeepsOthers`). */
  function CheckVessel(table: Table, vessel: Doc, geo: Geometry, now: nat): Pass
  {
    match StoredVessel(table, vessel)
    case None => Pass(table, Ok([]))
    case Some(stored) =>
      match RouteDeviation(vessel, Get(stored, "history"), geo, now)
      case Err(e) => Pass(table, Err(e))
      case Ok(route) =>
        var afterRoute := SavedOpt(table, route, now);
        match GeofenceViolation(ActiveZones(table), vessel, geo, now)
        case Err(e) => Pass(afterRoute, Err(e))
        case Ok(zone) => Pass(SavedOpt(afterRoute, zone, now), Ok(OptSeq(route) + OptSeq(zone)))
  }

  /** The loop over the reports; the first error ends the pass. */
  function CheckAll(table: Table, vessels: seq<Doc>, geo: Geometry, now: nat): Pass
    decreases |vessels|
  {
    if vessels == [] then Pass(table, Ok([]))
    else
      var before := CheckAll(table, vessels[..|vessels| - 1], geo, now);
      if before.result.Err? then before
      else
        var step := CheckVessel(before.table, vessels[|vessels| - 1], geo, now);
        if step.result.Err? then step
        else Pass(step.table, Ok(before.result.value + step.result.value))
  }

  /** `processVesselData(vessels)`: the per-vessel checks, then the shutoff
      detection over the stored vessels. */
  function ProcessAll(table: Table, vessels: seq<Doc>, geo: Geometry, now: nat): Pass
  {
    var checked := CheckAll(table, vessels, geo, now);
    if checked.result.Err? then checked
    else
      var shutoffs := AisShutoffs(ItemsOf(checked.table, VESSELS), now);
      Pass(SavedAll(checked.table, shutoffs, now), Ok(checked.result.value + shutoffs))
  }

  /** Once a prefix of the reports has thrown, the pass has thrown with it. */
  lemma {:induction false} CheckAllErrSticky(table: Table, vessels: seq<Doc>, k: nat, geo: Geometry, now: nat)
    requires k <= |vessels|
    requires CheckAll(table, vessels[..k], geo, now).result.Err?
    ensures CheckAll(table, vessels, geo, now) == CheckAll(table, vessels[..k], geo, now)
    decreases |vessels| - k
  {
    if k < |vessels| {
      var p := vessels[..k + 1];
      assert p[..|p| - 1] == vessels[..k];
      CheckAllErrSticky(table, vessels, k + 1, geo, now);
    } else {
      assert vessels[..k] == vessels;
    }
  }

  /** One more report: the pass so far, then that report's check. */
  lemma {:induction false} CheckAllAdvance(table: Table, vessels: seq<Doc>, k: nat, geo: Geometry, now: nat)
    requires k < |vessels|
    requires CheckAll(table, vessels[..k], geo, now).result.Ok?
    ensures var before := CheckAll(table, vessels[..k], geo, now);
      var step := CheckVessel(before.table, vessels[k], geo, now);
      && (step.result.Err? ==> CheckAll(table, vessels, geo, now) == step)
      && (step.result.Ok? ==>
            CheckAll(table, vessels[..k + 1], geo, now) == Pass(step.table, Ok(before.result.value + step.result.value)))
  {
    var p := vessels[..k + 1];
    assert p[..|p| - 1] == vessels[..k] && p[|p| - 1] == vessels[k];
    var before := CheckAll(table, vessels[..k], geo, now);
    if CheckVessel(before.table, vessels[k], geo, now).result.Err? {
      CheckAllErrSticky(table, vessels, k + 1, geo, now);
    }
  }

  /** A report whose mmsi is not stored is skipped. */
  lemma UnknownVesselSkipped(table: Table, vessel: Doc, geo: Geometry, now: nat)
    requires forall x :: x in ItemsOf(table, VESSELS) ==> !Matches(x, KeyFilter("mmsi", Get(vessel, "mmsi")))
    ensures CheckVessel(table, vessel, geo, now) == Pass(table, Ok([]))
  {
  }

  /** Every anomaly a check builds starts unconfirmed and unresolved and
      carries the detection time as its id. */
  predicate FreshAnomaly(a: Doc, now: nat)
  {
    Get(a, "confirmed") == Bool(false) && Get(a, "resolved") == Bool(false) && Get(a, "_id") == Str(Decimal(now))
  }

  predicate Fresh(anomalies: seq<Doc>, now: nat)
  {
    forall a :: a in anomalies ==> FreshAnomaly(a, now)
  }

  /** A route deviation is a fresh anomaly of that type. */
  lemma RouteAnomalyFresh(vessel: Doc, history: Value, geo: Geometry, now: nat)
    requires RouteDeviation(vessel, history, geo, now).Ok? && RouteDeviation(vessel, history, geo, now).value.Some?
    ensures var a := RouteDeviation(vessel, history, geo, now).value.value;
      Get(a, "anomalyType") == Str(ROUTE_DEVIATION) && FreshAnomaly(a, now)
  {
    var (r, d) := RouteDistance(vessel, history.items, geo).value;
    DetectedFields(vessel, ROUTE_DEVIATION, RouteDetails(vessel, r, d), now);
  }

  /** A geofence violation is a fresh anomaly of that type. */
  lemma ZoneAnomalyFresh(zones: seq<Doc>, vessel: Doc, geo: Geometry, now: nat)
    requires GeofenceViolation(zones, vessel, geo, now).Ok? && GeofenceViolation(zones, vessel, geo, now).value.Some?
    ensures var a := GeofenceViolation(zones, vessel, geo, now).value.value;
      Get(a, "anomalyType") == Str(GEOFENCE_VIOLATION) && FreshAnomaly(a, now)
  {
    var j := ViolationFrom(zones, vessel, geo, 0).value.value;
    var a := GeofenceViolation(zones, vessel, geo, now).value.value;
    assert a == Detected(vessel, GEOFENCE_VIOLATION, ZoneDetails(zones[j]), now);
    DetectedFields(vessel, GEOFENCE_VIOLATION, ZoneDetails(zones[j]), now);
  }

  /** What one check returns: the route result, then the zone result. */
  lemma CheckVesselResult(table: Table, vessel: Doc, geo: Geometry, now: nat)
    requires CheckVessel(table, vessel, geo, now).result.Ok?
    ensures var out := CheckVessel(table, vessel, geo, now).result.value;
      || out == []
      || exists stored :: StoredVessel(table, vessel) == Some(stored)
           && RouteDeviation(vessel, Get(stored, "history"), geo, now).Ok?
           && GeofenceViolation(ActiveZones(table), vessel, geo, now).Ok?
           && out == OptSeq(RouteDeviation(vessel, Get(stored, "history"), geo, now).value) +
                     OptSeq(GeofenceViolation(ActiveZones(table), vessel, geo, now).value)
  {
    var out := CheckVessel(table, vessel, geo, now).result.value;
    match StoredVessel(table, vessel)
    case None =>
    case Some(stored) =>
  }

  /** At most one route deviation, then at most one geofence violation. */
  predicate RouteThenZone(out: seq<Doc>)
  {
    && |out| <= 2
    && (forall i :: 0 <= i < |out| ==>
          Get(out[i], "anomalyType") == Str(ROUTE_DEVIATION) || Get(out[i], "anomalyType") == Str(GEOFENCE_VIOLATION))
    && (|out| == 2 ==>
          Get(out[0], "anomalyType") == Str(ROUTE_DEVIATION) && Get(out[1], "anomalyType") == Str(GEOFENCE_VIOLATION))
  }

  lemma RouteThenZoneOf(route: Option<Doc>, zone: Option<Doc>)
    requires route.Some? ==> Get(route.value, "anomalyType") == Str(ROUTE_DEVIATION)
    requires zone.Some? ==> Get(zone.value, "anomalyType") == Str(GEOFENCE_VIOLATION)
    ensures RouteThenZone(OptSeq(route) + OptSeq(zone))
  {
  }

  /** A stored vessel yields at most one route deviation and then at most
      one geofence violation, in that order. */
  lemma CheckVesselOrder(table: Table, vessel: Doc, geo: Geometry, now: nat)
    requires CheckVessel(table, vessel, geo, now).result.Ok?
    ensures RouteThenZone(CheckVessel(table, vessel, geo, now).result.value)
  {
    CheckVesselResult(table, vessel, geo, now);
    var out := CheckVessel(table, vessel, geo, now).result.value;
    if out != [] {
      var stored :| StoredVessel(table, vessel) == Some(stored)
        && RouteDeviation(vessel, Get(stored, "history"), geo, now).Ok?
        && GeofenceViolation(ActiveZones(table), vessel, geo, now).Ok?
        && out == OptSeq(RouteDeviation(vessel, Get(stored, "history"), geo, now).value) +
                  OptSeq(GeofenceViolation(ActiveZones(table), vessel, geo, now).value);
      var route := RouteDeviation(vessel, Get(stored, "history"), geo, now).value;
      var zone := GeofenceViolation(ActiveZones(table), vessel, geo, now).value;
      if route.Some? {
        RouteAnomalyFresh(vessel, Get(stored, "history"), geo, now);
      }
      if zone.Some? {
        ZoneAnomalyFresh(ActiveZones(table), vessel, geo, now);
      }
      RouteThenZoneOf(route, zone);
    }
  }

  lemma FreshOf(route: Option<Doc>, zone: Option<Doc>, now: nat)
    requires route.Some? ==> FreshAnomaly(route.value, now)
    requires zone.Some? ==> FreshAnomaly(zone.value, now)
    ensures Fresh(OptSeq(route) + OptSeq(zone), now)
  {
  }

  /** Every anomaly one check returns is fresh. */
  lemma CheckVesselFresh(table: Table, vessel: Doc, geo: Geometry, now: nat)
    requires CheckVessel(table, vessel, geo, now).result.Ok?
    ensures Fresh(CheckVessel(table, vessel, geo, now).result.value, now)
  {
    CheckVesselResult(table, vessel, geo, now);
    var out := CheckVessel(table, vessel, geo, now).result.value;
    if out != [] {
      var stored :| StoredVessel(table, vessel) == Some(stored)
        && RouteDeviation(vessel, Get(stored, "history"), geo, now).Ok?
        && GeofenceViolation(ActiveZones(table), vessel, geo, now).Ok?
        && out == OptSeq(RouteDeviation(vessel, Get(stored, "history"), geo, now).value) +
                  OptSeq(GeofenceViolation(ActiveZones(table), vessel, geo, now).value);
      var route := RouteDeviation(vessel, Get(stored, "history"), geo, now).value;
      var zone := GeofenceViolation(ActiveZones(table), vessel, geo, now).value;
      if route.Some? {
        RouteAnomalyFresh(vessel, Get(stored, "history"), geo, now);
      }
      if zone.Some? {
        ZoneAnomalyFresh(ActiveZones(table), vessel, geo, now);
      }
      FreshOf(route, zone, now);
    }
  }

  /** The checks save only anomalies, so the pass leaves every other
      collection as it was. */
  lemma CheckVesselKeepsOthers(table: Table, vessel: Doc, geo: Geometry, now: nat, name: string)
    requires name != ANOMALIES
    ensures ItemsOf(CheckVessel(table, vessel, geo, now).table, name) == ItemsOf(table, name)
    ensures CheckVessel(table, vessel, geo, now).table.Keys == table.Keys
  {
    match StoredVessel(table, vessel)
    case None =>
    case Some(stored) =>
      var route := RouteDeviation(vessel, Get(stored, "history"), geo, now);
      if route.Ok? {
        var afterRoute := SavedOpt(table, route.value, now);
        if route.value.Some? {
          SavedKeepsOthers(table, route.value.value, now, name);
        }
        var zone := GeofenceViolation(ActiveZones(table), vessel, geo, now);
        if zone.Ok? && zone.value.Some? {
          SavedKeepsOthers(afterRoute, zone.value.value, now, name);
        }
      }
  }

  lemma {:induction false} CheckAllKeepsOthers(table: Table, vessels: seq<Doc>, geo: Geometry, now: nat, name: string)
    requires name != ANOMALIES
    ensures ItemsOf(CheckAll(table, vessels, geo, now).table, name) == ItemsOf(table, name)
    ensures CheckAll(table, vessels, geo, now).table.Keys == table.Keys
    decreases |vessels|
  {
    if vessels != [] {
      var before := CheckAll(table, vessels[..|vessels| - 1], geo, now);
      CheckAllKeepsOthers(table, vessels[..|vessels| - 1], geo, now, name);
      if before.result.Ok? {
        CheckVesselKeepsOthers(before.table, vessels[|vessels| - 1], geo, now, name);
      }
    }
  }

  lemma {:induction false} SavedAllKeepsOthers(table: Table, anomalies: seq<Doc>, now: nat, name: string)
    requires name != ANOMALIES
    ensures ItemsOf(SavedAll(table, anomalies, now), name) == ItemsOf(table, name)
    ensures SavedAll(table, anomalies, now).Keys == table.Keys
    decreases |anomalies|
  {
    if anomalies != [] {
      var init := anomalies[..|anomalies| - 1];
      SavedAllKeepsOthers(table, init, now, name);
      SavedKeepsOthers(SavedAll(table, init, now), anomalies[|anomalies| - 1], now, name);
    }
  }

  /** A whole pass changes only the anomalies collection. */
  lemma ProcessAllKeepsOthers(table: Table, vessels: seq<Doc>, geo: Geometry, now: nat, name: string)
    requires name != ANOMALIES
    ensures ItemsOf(ProcessAll(table, vessels, geo, now).table, name) == ItemsOf(table, name)
    ensures ProcessAll(table, vessels, geo, now).table.Keys == table.Keys
  {
    CheckAllKeepsOthers(table, vessels, geo, now, name);
    var checked := CheckAll(table, vessels, geo, now);
    if checked.result.Ok? {
      SavedAllKeepsOthers(checked.table, AisShutoffs(ItemsOf(checked.table, VESSELS), now), now, name);
    }
  }

  /** The shutoff anomalies come last, and they are the ones the stored
      vessels as they were before the pass give. */
  lemma {:induction false} ShutoffsLast(table: Table, vessels: seq<Doc>, geo: Geometry, now: nat)
    requires ProcessAll(table, vessels, geo, now).result.Ok?
    ensures var out, shutoffs := ProcessAll(table, vessels, geo, now).result.value, AisShutoffs(ItemsOf(table, VESSELS), now);
      && |shutoffs| <= |out|
      && out[|out| - |shutoffs|..] == shutoffs
      && out[..|out| - |shutoffs|] == CheckAll(table, vessels, geo, now).result.value
  {
    CheckAllKeepsOthers(table, vessels, geo, now, VESSELS);
  }

  lemma {:induction false} CheckAllFresh(table: Table, vessels: seq<Doc>, geo: Geometry, now: nat)
    requires CheckAll(table, vessels, geo, now).result.Ok?
    ensures Fresh(CheckAll(table, vessels, geo, now).result.value, now)
    decreases |vessels|
  {
    if vessels != [] {
      var before := CheckAll(table, vessels[..|vessels| - 1], geo, now);
      CheckAllFresh(table, vessels[..|vessels| - 1], geo, now);
      CheckVesselFresh(before.table, vessels[|vessels| - 1], geo, now);
    }
  }

  lemma ShutoffsFresh(vessels: seq<Doc>, now: nat)
    ensures Fresh(AisShutoffs(vessels, now), now)
  {
    var recent := Filtered(vessels, ShutoffFilter(now));
    AisShutoffsExactly(vessels, now);
    forall v ensures var a := ShutoffAnomaly(v, now);
      Get(a, "confirmed") == Bool(false) && Get(a, "resolved") == Bool(false) && Get(a, "_id") == Str(Decimal(now))
    {
      DetectedFields(v, AIS_SHUTOFF, ShutoffDetails(v), now);
    }
  }

  /** Every anomaly a pass reports starts unconfirmed and unresolved. */
  lemma ProcessAllFresh(table: Table, vessels: seq<Doc>, geo: Geometry, now: nat)
    requires ProcessAll(table, vessels, geo, now).result.Ok?
    ensures Fresh(ProcessAll(table, vessels, geo, now).result.value, now)
  {
    CheckAllFresh(table, vessels, geo, now);
    var checked := CheckAll(table, vessels, geo, now);
    ShutoffsFresh(ItemsOf(checked.table, VESSELS), now);
  }

  /** Anomalies whose id is not stored leave the table as it was. */
  lemma {:induction false} SavedAllUnstored(table: Table, anomalies: seq<Doc>, now: nat)
    requires forall a :: a in anomalies ==> Get(a, "_id") == Str(Decimal(now))
    requires IdIndex(ItemsOf(table, ANOMALIES), Str(Decimal(now))).None?
    ensures SavedAll(table, anomalies, now) == table
    decreases |anomalies|
  {
    if anomalies != [] {
      var init := anomalies[..|anomalies| - 1];
      assert forall a :: a in init ==> a in anomalies;
      SavedAllUnstored(table, init, now);
      assert anomalies[|anomalies| - 1] in anomalies;
      SavedUnstored(table, anomalies[|anomalies| - 1], now);
    }
  }

  lemma {:induction false} CheckVesselUnstored(table: Table, vessel: Doc, geo: Geometry, now: nat)
    requires IdIndex(ItemsOf(table, ANOMALIES), Str(Decimal(now))).None?
    ensures CheckVessel(table, vessel, geo, now).table == table
  {
    match StoredVessel(table, vessel)
    case None =>
    case Some(stored) =>
      var route := RouteDeviation(vessel, Get(stored, "history"), geo, now);
      if route.Ok? {
        if route.value.Some? {
          RouteAnomalyFresh(vessel, Get(stored, "history"), geo, now);
          SavedUnstored(table, route.value.value, now);
        }
        var zone := GeofenceViolation(ActiveZones(table), vessel, geo, now);
        if zone.Ok? && zone.value.Some? {
          ZoneAnomalyFresh(ActiveZones(table), vessel, geo, now);
          SavedUnstored(table, zone.value.value, now);
        }
      }
  }

  lemma {:induction false} CheckAllUnstored(table: Table, vessels: seq<Doc>, geo: Geometry, now: nat)
    requires IdIndex(ItemsOf(table, ANOMALIES), Str(Decimal(now))).None?
    ensures CheckAll(table, vessels, geo, now).table == table
    decreases |vessels|
  {
    if vessels != [] {
      CheckAllUnstored(table, vessels[..|vessels| - 1], geo, now);
      CheckVesselUnstored(table, vessels[|vessels| - 1], geo, now);
    }
  }

  /** Because `anomaly.save()` only updates, a pass whose detection time is
      not already an anomaly id stores nothing: the anomalies it returns are
      never persisted. */
  lemma {:induction false} PassStoresNothing(table: Table, vessels: seq<Doc>, geo: Geometry, now: nat)
    requires IdIndex(ItemsOf(table, ANOMALIES), Str(Decimal(now))).None?
    ensures ProcessAll(table, vessels, geo, now).table == table
  {
    CheckAllUnstored(table, vessels, geo, now);
    var checked := CheckAll(table, vessels, geo, now);
    if checked.result.Ok? {
      ShutoffsFresh(ItemsOf(table, VESSELS), now);
      SavedAllUnstored(table, AisShutoffs(ItemsOf(table, VESSELS), now), now);
    }
  }

  /** One iteration of `processVesselData`'s loop. */
  method CheckOne(store: Store, vessel: Doc, geo: Geometry, now: nat) returns (r: Result<seq<Doc>>)
    modifies store
    ensures Pass(store.collections, r) == CheckVessel(old(store.collections), vessel, geo, now)
    ensures store.idCounter == old(store.idCounter)
  {
    var found := store.FindOne(VESSELS, KeyFilter("mmsi", Get(vessel, "mmsi")));
    assert found == StoredVessel(store.collections, vessel);
    if found.None? {
      return Ok([]);
    }
    ghost var table := store.collections;
    var route := DetectRouteDeviation(store, vessel, Get(found.value, "history"), geo, now);
    if route.Err? {
      return Err(route.error);
    }
    ghost var afterRoute := store.collections;
    assert afterRoute == SavedOpt(table, route.value, now);
    if route.value.Some? {
      SavedKeepsOthers(table, route.value.value, now, GEOFENCES);
    }
    assert ActiveZones(afterRoute) == ActiveZones(table);
    var zone := DetectGeofenceViolation(store, vessel, geo, now);
    if zone.Err? {
      return Err(zone.error);
    }
    assert store.collections == SavedOpt(afterRoute, zone.value, now);
    return Ok(OptSeq(route.value) + OptSeq(zone.value));
  }

  /** `processVesselData(vessels)` on the store. */
  method ProcessVesselData(store: Store, vessels: seq<Doc>, geo: Geometry, now: nat) returns (r: Result<seq<Doc>>)
    modifies store
    ensures Pass(store.collections, r) == ProcessAll(old(store.collections), vessels, geo, now)
    ensures store.idCounter == old(store.idCounter)
  {
    var anomalies: seq<Doc> := [];
    var i := 0;
    while i < |vessels|
      invariant 0 <= i <= |vessels|
      invariant CheckAll(old(store.collections), vessels[..i], geo, now) == Pass(store.collections, Ok(anomalies))
      invariant store.idCounter == old(store.idCounter)
    {
      CheckAllAdvance(old(store.collections), vessels, i, geo, now);
      var found := CheckOne(store, vessels[i], geo, now);
      if found.Err? {
        return Err(found.error);
      }
      anomalies := anomalies + found.value;
      i := i + 1;
    }
    assert vessels[..i] == vessels;
    var shutoffs := DetectAisShutoff(store, now);
    anomalies := anomalies + shutoffs;
    return Ok(anomalies);
  }
}
