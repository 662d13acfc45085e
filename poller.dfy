/** The polling service (server/services/dataPoller.js): a timer that runs
    `pollData` once on start and then every 30 seconds, and `pollData`
    itself, which fetches, stores and checks the vessels inside the padded
    bounding box of each active geofence, one zone at a time. */
module DataPoller {
  import opened Values
  import opened MemoryStore
  import opened VesselIngest
  import opened AnomalyDetection

  const POLL_INTERVAL_MS: nat := 30 * 1000
  /** Degrees added on every side of a zone's bounding box. */
  const PADDING: real := 0.1

  // ---------------------------------------------------------------------
  // Bounding box

  /** A polygon vertex `[lon, lat]`. */
  datatype Vertex = Vertex(lon: real, lat: real)

  /** The box in the order the fetcher receives it: `minLat,minLon,maxLat,maxLon`. */
  datatype Box = Box(minLat: real, minLon: real, maxLat: real, maxLon: real)

  /** `coord[0]` and `coord[1]` of one vertex. A vertex of undefined or
      null throws; one without two numbers would feed NaN into `Math.min`,
      which this model does not follow. */
  function VertexOf(coord: Value): Result<Vertex>
  {
    if coord.Undefined? || coord.Null? then Err(TypeError("cannot read properties of a missing vertex"))
    else if coord.Arr? && |coord.items| >= 2 && coord.items[0].Num? && coord.items[1].Num? then
      Ok(Vertex(coord.items[0].n, coord.items[1].n))
    else Err(Unmodelled("a vertex without two numbers"))
  }

  /** The vertices of a ring, in order; the first bad vertex ends the walk. */
  function Vertices(ring: seq<Value>): Result<seq<Vertex>>
    decreases |ring|
  {
    if ring == [] then Ok([])
    else
      var init :- Vertices(ring[..|ring| - 1]);
      var last :- VertexOf(ring[|ring| - 1]);
      Ok(init + [last])
  }

  /** `coordinates[0]`: the first element of an array, the first character
      of a string, the property "0" of an object, otherwise `undefined`. */
  function FirstRing(coordinates: Value): Value
  {
    match coordinates
    case Arr(items) => if items != [] then items[0] else Undefined
    case Str(s) => if s != "" then Str([s[0]]) else Undefined
    case Obj(fields) => Get(fields, "0")
    case _ => Undefined
  }

  /** `geoJson.coordinates[0]`, the first ring, walked with `for...of`: an
      array yields its vertices, the empty string yields nothing, and any
      other value is not iterable. A non-empty string would yield its
      characters, which `Math.min` turns into NaN; that is not modelled. */
  function RingOf(geoJson: Value): Result<seq<Vertex>>
  {
    var coordinates :- Prop(geoJson, "coordinates");
    if coordinates.Undefined? || coordinates.Null? then Err(TypeError("cannot read properties of missing coordinates"))
    else
      match FirstRing(coordinates)
      case Arr(items) => Vertices(items)
      case Str(s) => if s == "" then Ok([]) else Err(Unmodelled("the characters of a string as vertices"))
      case _ => Err(TypeError("the first ring is not iterable"))
  }

  function Coord(v: Vertex, lat: bool): real
  {
    if lat then v.lat else v.lon
  }

  function Min(a: real, b: real): real { if a <= b then a else b }

  function Max(a: real, b: real): real { if a >= b then a else b }

  /** `Math.min` folded over one coordinate of the ring, from `start`. */
  function Lowest(ring: seq<Vertex>, lat: bool, start: real): real
    decreases |ring|
  {
    if ring == [] then start else Min(Lowest(ring[..|ring| - 1], lat, start), Coord(ring[|ring| - 1], lat))
  }

  /** `Math.max` folded over one coordinate of the ring, from `start`. */
  function Highest(ring: seq<Vertex>, lat: bool, start: real): real
    decreases |ring|
  {
    if ring == [] then start else Max(Highest(ring[..|ring| - 1], lat, start), Coord(ring[|ring| - 1], lat))
  }

  /** The loop's result: extremes from the initial 90/-90/180/-180, then
      0.1 of padding on every side. */
  function PaddedBox(ring: seq<Vertex>): Box
  {
    Box(Lowest(ring, true, 90.0) - PADDING, Lowest(ring, false, 180.0) - PADDING,
        Highest(ring, true, -90.0) + PADDING, Highest(ring, false, -180.0) + PADDING)
  }

  /** `calculateBoundingBox(geoJson)`. */
  function BoundingBox(geoJson: Value): Result<Box>
  {
    var ring :- RingOf(geoJson);
    Ok(PaddedBox(ring))
  }

  /** The fold is a lower bound of the start and of every vertex, and it is
      one of them. */
  lemma {:induction false} LowestIsLeast(ring: seq<Vertex>, lat: bool, start: real)
    ensures Lowest(ring, lat, start) <= start
    ensures forall v :: v in ring ==> Lowest(ring, lat, start) <= Coord(v, lat)
    ensures Lowest(ring, lat, start) == start || exists v :: v in ring && Lowest(ring, lat, start) == Coord(v, lat)
    decreases |ring|
  {
    if ring != [] {
      var init, last := ring[..|ring| - 1], ring[|ring| - 1];
      LowestIsLeast(init, lat, start);
      assert forall v :: v in ring ==> v in init || v == last;
      assert forall v :: v in init ==> v in ring;
      assert last in ring;
    }
  }

  lemma {:induction false} HighestIsGreatest(ring: seq<Vertex>, lat: bool, start: real)
    ensures Highest(ring, lat, start) >= start
    ensures forall v :: v in ring ==> Highest(ring, lat, start) >= Coord(v, lat)
    ensures Highest(ring, lat, start) == start || exists v :: v in ring && Highest(ring, lat, start) == Coord(v, lat)
    decreases |ring|
  {
    if ring != [] {
      var init, last := ring[..|ring| - 1], ring[|ring| - 1];
      HighestIsGreatest(init, lat, start);
      assert forall v :: v in ring ==> v in init || v == last;
      assert forall v :: v in init ==> v in ring;
      assert last in ring;
    }
  }

  /** Every vertex of a ring lies strictly inside its padded box, so the box
      has positive extent in both directions. */
  lemma BoxContainsRing(ring: seq<Vertex>)
    requires ring != []
    ensures var box := PaddedBox(ring);
      && (forall v :: v in ring ==> box.minLat < v.lat < box.maxLat && box.minLon < v.lon < box.maxLon)
      && box.minLat < box.maxLat && box.minLon < box.maxLon
  {
    LowestIsLeast(ring, true, 90.0);
    LowestIsLeast(ring, false, 180.0);
    HighestIsGreatest(ring, true, -90.0);
    HighestIsGreatest(ring, false, -180.0);
    assert ring[0] in ring;
  }

  predicate OnGlobe(v: Vertex)
  {
    -90.0 <= v.lat <= 90.0 && -180.0 <= v.lon <= 180.0
  }

  /** For a ring of real coordinates the box is tight: each side is exactly
      0.1 beyond the extreme vertex on that side. */
  lemma BoxIsTight(ring: seq<Vertex>)
    requires ring != []
    requires forall v :: v in ring ==> OnGlobe(v)
    ensures var box := PaddedBox(ring);
      && (exists v :: v in ring && v.lat == box.minLat + PADDING)
      && (exists v :: v in ring && v.lat == box.maxLat - PADDING)
      && (exists v :: v in ring && v.lon == box.minLon + PADDING)
      && (exists v :: v in ring && v.lon == box.maxLon - PADDING)
  {
    LowestIsLeast(ring, true, 90.0);
    LowestIsLeast(ring, false, 180.0);
    HighestIsGreatest(ring, true, -90.0);
    HighestIsGreatest(ring, false, -180.0);
    assert ring[0] in ring && OnGlobe(ring[0]);
  }

  /** The unit square gives the box -0.1,-0.1,1.1,1.1. */
  lemma UnitSquareBox()
    ensures BoundingBox(Obj(map["type" := Str("Polygon"), "coordinates" := Arr([Arr([
      Arr([Num(0.0), Num(0.0)]), Arr([Num(1.0), Num(0.0)]), Arr([Num(1.0), Num(1.0)]),
      Arr([Num(0.0), Num(1.0)]), Arr([Num(0.0), Num(0.0)])])])]))
      == Ok(Box(-0.1, -0.1, 1.1, 1.1))
  {
    UnitSquareRing();
    UnitSquarePadded();
  }

  lemma UnitSquareRing()
    ensures Vertices([Arr([Num(0.0), Num(0.0)]), Arr([Num(1.0), Num(0.0)]), Arr([Num(1.0), Num(1.0)]),
      Arr([Num(0.0), Num(1.0)]), Arr([Num(0.0), Num(0.0)])])
      == Ok([Vertex(0.0, 0.0), Vertex(1.0, 0.0), Vertex(1.0, 1.0), Vertex(0.0, 1.0), Vertex(0.0, 0.0)])
  {
    var values := [Arr([Num(0.0), Num(0.0)]), Arr([Num(1.0), Num(0.0)]), Arr([Num(1.0), Num(1.0)]),
      Arr([Num(0.0), Num(1.0)]), Arr([Num(0.0), Num(0.0)])];
    var ring := [Vertex(0.0, 0.0), Vertex(1.0, 0.0), Vertex(1.0, 1.0), Vertex(0.0, 1.0), Vertex(0.0, 0.0)];
    assert forall i :: 0 <= i < 5 ==> VertexOf(values[i]) == Ok(ring[i]);
    VerticesPointwise(values);
    assert Vertices(values).value == ring;
  }

  /** The walk keeps length and order: it succeeds exactly when every vertex
      reads, and vertex `i` is then coordinate pair `i`. */
  lemma {:induction false} VerticesPointwise(ring: seq<Value>)
    ensures Vertices(ring).Ok? <==> forall i :: 0 <= i < |ring| ==> VertexOf(ring[i]).Ok?
    ensures Vertices(ring).Ok? ==> (|Vertices(ring).value| == |ring| &&
      forall i :: 0 <= i < |ring| ==> Vertices(ring).value[i] == VertexOf(ring[i]).value)
    decreases |ring|
  {
    if ring != [] {
      var init := ring[..|ring| - 1];
      VerticesPointwise(init);
      assert forall i :: 0 <= i < |init| ==> init[i] == ring[i];
    }
  }

  lemma UnitSquarePadded()
    ensures PaddedBox([Vertex(0.0, 0.0), Vertex(1.0, 0.0), Vertex(1.0, 1.0), Vertex(0.0, 1.0), Vertex(0.0, 0.0)])
      == Box(-0.1, -0.1, 1.1, 1.1)
  {
    var ring := [Vertex(0.0, 0.0), Vertex(1.0, 0.0), Vertex(1.0, 1.0), Vertex(0.0, 1.0), Vertex(0.0, 0.0)];
    assert forall v :: v in ring ==> 0.0 <= v.lat <= 1.0 && 0.0 <= v.lon <= 1.0;
    assert ring[0] in ring && ring[2] in ring;
    LowestIsLeast(ring, true, 90.0);
    LowestIsLeast(ring, false, 180.0);
    HighestIsGreatest(ring, true, -90.0);
    HighestIsGreatest(ring, false, -180.0);
  }

  lemma {:induction false} VerticesSnoc(init: seq<Value>, last: Value, vs: seq<Vertex>)
    requires Vertices(init) == Ok(vs) && VertexOf(last).Ok?
    ensures Vertices(init + [last]) == Ok(vs + [VertexOf(last).value])
  {
    assert (init + [last])[..|init|] == init;
  }

  /** An empty ring leaves the initial extremes in place: the padded box is
      inverted and contains no point. */
  lemma EmptyRingBox()
    ensures PaddedBox([]) == Box(89.9, 179.9, -89.9, -179.9)
    ensures PaddedBox([]).minLat > PaddedBox([]).maxLat
  {
  }

  /** A zone without a geometry, or whose geometry has no coordinates,
      throws a TypeError instead of giving a box. */
  lemma MissingGeometryThrows(geoJson: Value)
    requires geoJson.Undefined? || geoJson.Null? || (geoJson.Obj? && "coordinates" !in geoJson.fields)
    ensures BoundingBox(geoJson).Err? && BoundingBox(geoJson).error.TypeError?
  {
  }

  /** A failing vertex fails the whole walk. */
  lemma {:induction false} VerticesErrSticky(ring: seq<Value>, k: nat)
    requires k <= |ring|
    requires Vertices(ring[..k]).Err?
    ensures Vertices(ring) == Vertices(ring[..k])
    decreases |ring| - k
  {
    if k < |ring| {
      var p := ring[..k + 1];
      assert p[..|p| - 1] == ring[..k];
      VerticesErrSticky(ring, k + 1);
    } else {
      assert ring[..k] == ring;
    }
  }

  /** `calculateBoundingBox(geoJson)` with its min/max loop. */
  method CalculateBoundingBox(geoJson: Value) returns (r: Result<Box>)
    ensures r == BoundingBox(geoJson)
  {
    var coordinates :- Prop(geoJson, "coordinates");
    if coordinates.Undefined? || coordinates.Null? {
      return Err(TypeError("cannot read properties of missing coordinates"));
    }
    var first := FirstRing(coordinates);
    if first.Str? {
      return if first.s == "" then Ok(PaddedBox([])) else Err(Unmodelled("the characters of a string as vertices"));
    }
    if !first.Arr? {
      return Err(TypeError("the first ring is not iterable"));
    }
    var ring := first.items;
    var minLat, maxLat, minLon, maxLon := 90.0, -90.0, 180.0, -180.0;
    ghost var seen: seq<Vertex> := [];
    for i := 0 to |ring|
      invariant Vertices(ring[..i]) == Ok(seen)
      invariant minLat == Lowest(seen, true, 90.0) && maxLat == Highest(seen, true, -90.0)
      invariant minLon == Lowest(seen, false, 180.0) && maxLon == Highest(seen, false, -180.0)
    {
      assert ring[..i + 1][..i] == ring[..i];
      var coord := VertexOf(ring[i]);
      if coord.Err? {
        VerticesErrSticky(ring, i + 1);
        return Err(coord.error);
      }
      var lon, lat := coord.value.lon, coord.value.lat;
      minLat := Min(minLat, lat);
      maxLat := Max(maxLat, lat);
      minLon := Min(minLon, lon);
      maxLon := Max(maxLon, lon);
      assert (seen + [coord.value])[..|seen|] == seen;
      seen := seen + [coord.value];
    }
    assert ring[..|ring|] == ring;
    minLat := minLat - PADDING;
    maxLat := maxLat + PADDING;
    minLon := minLon - PADDING;
    maxLon := maxLon + PADDING;
    return Ok(Box(minLat, minLon, maxLat, maxLon));
  }

  // ---------------------------------------------------------------------
  // One poll

  /** `vfinderService.getVessels(bbox)`: the provider's reports for a box,
      or the error the request threw. */
  type Fetch = Box -> Result<seq<Doc>>

  /** What one zone's iteration did: the table after it, the box it fetched
      (none when the box could not be computed), and the anomalies it
      detected or the error its `catch` logged. */
  datatype ZoneRun = ZoneRun(table: Table, fetched: Option<Box>, result: Result<seq<Doc>>)

  /** One iteration of the loop in `pollData`: box, fetch, store, detect. */
  function PollZone(table: Table, zone: Doc, fetch: Fetch, geo: Geometry, now: nat): ZoneRun
  {
    match BoundingBox(Get(zone, "geoJson"))
    case Err(e) => ZoneRun(table, None, Err(e))
    case Ok(box) =>
      match fetch(box)
      case Err(e) => ZoneRun(table, Some(box), Err(e))
      case Ok(reports) =>
        var batch := IngestAll(ItemsOf(table, VESSELS), reports, now, false, Corrected);
        var stored := table[VESSELS := batch.vessels];
        if batch.result.Err? then ZoneRun(stored, Some(box), Err(batch.result.error))
        else
          var pass := ProcessAll(stored, batch.result.value, geo, now);
          ZoneRun(pass.table, Some(box), pass.result)
  }

  /** The table after a poll, the boxes fetched in order, and one outcome
      per zone. */
  datatype Poll = Poll(table: Table, fetched: seq<Box>, outcomes: seq<Result<seq<Doc>>>)

  /** The zones in order; each zone's failure is caught, so the next zone
      still runs, on the table the failing one left. */
  function PollZones(table: Table, zones: seq<Doc>, fetch: Fetch, geo: Geometry, now: nat): (p: Poll)
    ensures |p.outcomes| == |zones|
    decreases |zones|
  {
    if zones == [] then Poll(table, [], [])
    else
      var before := PollZones(table, zones[..|zones| - 1], fetch, geo, now);
      var run := PollZone(before.table, zones[|zones| - 1], fetch, geo, now);
      Poll(run.table, before.fetched + OptBox(run.fetched), before.outcomes + [run.result])
  }

  function OptBox(box: Option<Box>): seq<Box>
  {
    if box.Some? then [box.value] else []
  }

  /** `pollData()` on the table: the active zones, each polled in turn. */
  function PollAll(table: Table, fetch: Fetch, geo: Geometry, now: nat): Poll
  {
    PollZones(table, ActiveZones(table), fetch, geo, now)
  }

  /** With no active zone a poll fetches nothing and changes nothing. */
  lemma NoActiveZonesNoFetch(table: Table, fetch: Fetch, geo: Geometry, now: nat)
    requires forall z :: z in ItemsOf(table, GEOFENCES) ==> Get(z, "active") != Bool(true)
    ensures PollAll(table, fetch, geo, now) == Poll(table, [], [])
  {
    var zones := ActiveZones(table);
    if zones != [] {
      assert zones[0] in zones;
      Models.KeyFilterMatches(zones[0], "active", Bool(true));
    }
  }

  /** Polling a prefix of the zones gives the matching prefix of the outcomes. */
  lemma {:induction false} OutcomesPrefix(table: Table, zones: seq<Doc>, fetch: Fetch, geo: Geometry, now: nat, k: nat)
    requires k <= |zones|
    ensures PollZones(table, zones[..k], fetch, geo, now).outcomes == PollZones(table, zones, fetch, geo, now).outcomes[..k]
    decreases |zones|
  {
    if k < |zones| {
      var init := zones[..|zones| - 1];
      assert zones[..k] == init[..k];
      OutcomesPrefix(table, init, fetch, geo, now, k);
      var before := PollZones(table, init, fetch, geo, now).outcomes;
      var last := PollZone(PollZones(table, init, fetch, geo, now).table, zones[|zones| - 1], fetch, geo, now).result;
      assert PollZones(table, zones, fetch, geo, now).outcomes == before + [last];
      assert (before + [last])[..k] == before[..k];
    } else {
      assert zones[..k] == zones;
    }
  }

  /** Outcome `i` is zone `i` run on the table the earlier zones left. */
  lemma ZoneOutcome(table: Table, zones: seq<Doc>, fetch: Fetch, geo: Geometry, now: nat, i: nat)
    requires i < |zones|
    ensures PollZones(table, zones, fetch, geo, now).outcomes[i] ==
      PollZone(PollZones(table, zones[..i], fetch, geo, now).table, zones[i], fetch, geo, now).result
  {
    OutcomesPrefix(table, zones, fetch, geo, now, i + 1);
    var q := zones[..i + 1];
    assert q[..|q| - 1] == zones[..i] && q[|q| - 1] == zones[i];
    var before := PollZones(table, zones[..i], fetch, geo, now);
    assert PollZones(table, q, fetch, geo, now).outcomes == before.outcomes + [PollZone(before.table, zones[i], fetch, geo, now).result];
  }

  /** Every zone gets its outcome, whatever the zones before it did: outcome
      `i` is zone `i` run on the table the earlier zones left. */
  lemma EveryZoneRuns(table: Table, zones: seq<Doc>, fetch: Fetch, geo: Geometry, now: nat)
    ensures var p := PollZones(table, zones, fetch, geo, now);
      && |p.outcomes| == |zones|
      && forall i :: 0 <= i < |zones| ==>
           p.outcomes[i] == PollZone(PollZones(table, zones[..i], fetch, geo, now).table, zones[i], fetch, geo, now).result
  {
    forall i | 0 <= i < |zones|
      ensures PollZones(table, zones, fetch, geo, now).outcomes[i] ==
        PollZone(PollZones(table, zones[..i], fetch, geo, now).table, zones[i], fetch, geo, now).result
    {
      ZoneOutcome(table, zones, fetch, geo, now, i);
    }
  }

  /** The boxes of the zones whose box can be computed, in zone order. */
  function BoxesOf(zones: seq<Doc>): seq<Box>
    decreases |zones|
  {
    if zones == [] then []
    else
      var b := BoundingBox(Get(zones[|zones| - 1], "geoJson"));
      BoxesOf(zones[..|zones| - 1]) + (if b.Ok? then [b.value] else [])
  }

  /** A poll fetches once per zone with a computable box, in zone order, and
      for no other zone: a zone's failure does not skip a later fetch. */
  lemma {:induction false} FetchesEveryBox(table: Table, zones: seq<Doc>, fetch: Fetch, geo: Geometry, now: nat)
    ensures PollZones(table, zones, fetch, geo, now).fetched == BoxesOf(zones)
    decreases |zones|
  {
    if zones != [] {
      FetchesEveryBox(table, zones[..|zones| - 1], fetch, geo, now);
    }
  }

  /** A zone whose fetch fails leaves the table as it was. */
  lemma FailedFetchChangesNothing(table: Table, zone: Doc, fetch: Fetch, geo: Geometry, now: nat)
    requires BoundingBox(Get(zone, "geoJson")).Ok?
    requires fetch(BoundingBox(Get(zone, "geoJson")).value).Err?
    ensures PollZone(table, zone, fetch, geo, now).table == table
    ensures PollZone(table, zone, fetch, geo, now).result == Err(fetch(BoundingBox(Get(zone, "geoJson")).value).error)
  {
  }

  /** A zone's run changes only the vessels and the anomalies. */
  lemma PollZoneKeepsOthers(table: Table, zone: Doc, fetch: Fetch, geo: Geometry, now: nat, name: string)
    requires VESSELS in table
    requires name != VESSELS && name != ANOMALIES
    ensures ItemsOf(PollZone(table, zone, fetch, geo, now).table, name) == ItemsOf(table, name)
    ensures PollZone(table, zone, fetch, geo, now).table.Keys == table.Keys
  {
    var box := BoundingBox(Get(zone, "geoJson"));
    if box.Ok? && fetch(box.value).Ok? {
      var batch := IngestAll(ItemsOf(table, VESSELS), fetch(box.value).value, now, false, Corrected);
      var stored := table[VESSELS := batch.vessels];
      if batch.result.Ok? {
        ProcessAllKeepsOthers(stored, batch.result.value, geo, now, name);
      }
    }
  }

  /** A poll leaves the zones themselves alone. */
  lemma {:induction false} PollKeepsZones(table: Table, zones: seq<Doc>, fetch: Fetch, geo: Geometry, now: nat)
    requires VESSELS in table
    ensures ItemsOf(PollZones(table, zones, fetch, geo, now).table, GEOFENCES) == ItemsOf(table, GEOFENCES)
    ensures PollZones(table, zones, fetch, geo, now).table.Keys == table.Keys
    decreases |zones|
  {
    if zones != [] {
      PollKeepsZones(table, zones[..|zones| - 1], fetch, geo, now);
      var before := PollZones(table, zones[..|zones| - 1], fetch, geo, now);
      PollZoneKeepsOthers(before.table, zones[|zones| - 1], fetch, geo, now, GEOFENCES);
    }
  }

  /** One zone's iteration, its `try`/`catch` turning a throw into the
      logged outcome. */
  method PollOne(store: Store, zone: Doc, fetch: Fetch, geo: Geometry, now: nat)
    returns (fetched: Option<Box>, r: Result<seq<Doc>>)
    requires VESSELS in store.collections
    modifies store
    ensures ZoneRun(store.collections, fetched, r) == PollZone(old(store.collections), zone, fetch, geo, now)
    ensures store.idCounter == old(store.idCounter)
  {
    var box := CalculateBoundingBox(Get(zone, "geoJson"));
    if box.Err? {
      return None, Err(box.error);
    }
    var reports := fetch(box.value);
    if reports.Err? {
      return Some(box.value), Err(reports.error);
    }
    var vessels := StoreVesselData(store, reports.value, now, false);
    if vessels.Err? {
      return Some(box.value), Err(vessels.error);
    }
    var anomalies := ProcessVesselData(store, vessels.value, geo, now);
    return Some(box.value), anomalies;
  }

  /** `pollData()`: returns the boxes it fetched and each zone's outcome,
      which the service only logs. */
  method PollData(store: Store, fetch: Fetch, geo: Geometry, now: nat)
    returns (fetched: seq<Box>, outcomes: seq<Result<seq<Doc>>>)
    requires VESSELS in store.collections
    modifies store
    ensures Poll(store.collections, fetched, outcomes) == PollAll(old(store.collections), fetch, geo, now)
    ensures store.idCounter == old(store.idCounter)
  {
    var zones := store.Find(GEOFENCES, Models.KeyFilter("active", Bool(true)), NoOptions);
    fetched, outcomes := [], [];
    if |zones| == 0 {
      return;
    }
    for i := 0 to |zones|
      invariant PollZones(old(store.collections), zones[..i], fetch, geo, now) == Poll(store.collections, fetched, outcomes)
      invariant VESSELS in store.collections
      invariant store.idCounter == old(store.idCounter)
    {
      fetched, outcomes := PollNext(store, old(store.collections), zones, i, fetched, outcomes, fetch, geo, now);
    }
    assert zones[..|zones|] == zones;
  }

  /** One turn of the loop in `pollData`: zone `i` is polled and its box and
      outcome recorded, which extends the poll of the zones before it. */
  method PollNext(store: Store, ghost table: Table, zones: seq<Doc>, i: nat,
                  fetched: seq<Box>, outcomes: seq<Result<seq<Doc>>>, fetch: Fetch, geo: Geometry, now: nat)
    returns (fetched': seq<Box>, outcomes': seq<Result<seq<Doc>>>)
    requires i < |zones| && VESSELS in table
    requires PollZones(table, zones[..i], fetch, geo, now) == Poll(store.collections, fetched, outcomes)
    modifies store
    ensures PollZones(table, zones[..i + 1], fetch, geo, now) == Poll(store.collections, fetched', outcomes')
    ensures VESSELS in store.collections
    ensures store.idCounter == old(store.idCounter)
  {
    ghost var before := store.collections;
    ghost var run := PollZone(before, zones[i], fetch, geo, now);
    assert PollZones(table, zones[..i + 1], fetch, geo, now) ==
      Poll(run.table, fetched + OptBox(run.fetched), outcomes + [run.result]) by {
      assert zones[..i + 1][..i] == zones[..i];
    }
    assert VESSELS in before by {
      PollKeepsZones(table, zones[..i], fetch, geo, now);
    }
    var box, outcome := PollOne(store, zones[i], fetch, geo, now);
    assert VESSELS in store.collections by {
      PollZoneKeepsOthers(before, zones[i], fetch, geo, now, GEOFENCES);
    }
    fetched' := fetched + OptBox(box);
    outcomes' := outcomes + [outcome];
  }

  // ---------------------------------------------------------------------
  // The timer

  /** Interval ticks that fall in the `ms` milliseconds after `since`
      milliseconds of running. */
  function Ticks(since: nat, ms: nat): int
  {
    (since + ms) / POLL_INTERVAL_MS - since / POLL_INTERVAL_MS
  }

  /** Between `ms / 30000` and one more ticks fall in any `ms` window, and
      splitting a window splits its ticks. */
  lemma TicksInWindow(since: nat, ms: nat)
    ensures ms / POLL_INTERVAL_MS <= Ticks(since, ms) <= ms / POLL_INTERVAL_MS + 1
  {
    var q, s := since / POLL_INTERVAL_MS, since % POLL_INTERVAL_MS;
    var a, b := ms / POLL_INTERVAL_MS, ms % POLL_INTERVAL_MS;
    assert since + ms == (q + a) * POLL_INTERVAL_MS + (s + b);
    assert 0 <= s + b < 2 * POLL_INTERVAL_MS;
    if s + b < POLL_INTERVAL_MS {
      assert (since + ms) / POLL_INTERVAL_MS == q + a;
    } else {
      assert since + ms == (q + a + 1) * POLL_INTERVAL_MS + (s + b - POLL_INTERVAL_MS);
      assert (since + ms) / POLL_INTERVAL_MS == q + a + 1;
    }
  }

  lemma TicksSplit(since: nat, a: nat, b: nat)
    ensures Ticks(since, a) + Ticks(since + a, b) == Ticks(since, a + b)
  {
  }

  /** The module's `pollingInterval` and the polls it has caused. */
  class Poller {
    /** Whether `pollingInterval` holds a timer. */
    var running: bool
    /** Milliseconds since the timer was set. */
    var sinceStart: nat
    /** How many times `pollData` has been called. */
    var polls: nat

    constructor ()
      ensures !running && sinceStart == 0 && polls == 0
    {
      running, sinceStart, polls := false, 0, 0;
    }

    /** `startPolling()`: a no-op while running; otherwise one poll at once
        and a fresh 30-second interval. */
    method StartPolling()
      modifies this
      ensures old(running) ==> running && sinceStart == old(sinceStart) && polls == old(polls)
      ensures !old(running) ==> running && sinceStart == 0 && polls == old(polls) + 1
    {
      if running {
        return;
      }
      polls := polls + 1;
      running, sinceStart := true, 0;
    }

    /** `stopPolling()`: clears the interval; a no-op when none is set. */
    method StopPolling()
      modifies this
      ensures !running && polls == old(polls)
      ensures !old(running) ==> sinceStart == old(sinceStart)
    {
      if !running {
        return;
      }
      running := false;
    }

    /** `ms` milliseconds pass: a running interval fires once per tick. */
    method Elapse(ms: nat)
      modifies this
      ensures running == old(running)
      ensures old(running) ==> sinceStart == old(sinceStart) + ms && polls == old(polls) + Ticks(old(sinceStart), ms)
      ensures !old(running) ==> sinceStart == old(sinceStart) && polls == old(polls)
    {
      if running {
        TicksInWindow(sinceStart, ms);
        polls := polls + Ticks(sinceStart, ms);
        sinceStart := sinceStart + ms;
      }
    }
  }

  /** Starting polls once at once and again after one interval. */
  method StartThenOneInterval() returns (atStart: nat, afterInterval: nat)
    ensures atStart == 1 && afterInterval == 2
  {
    var poller := new Poller();
    poller.StartPolling();
    atStart := poller.polls;
    poller.Elapse(POLL_INTERVAL_MS);
    afterInterval := poller.polls;
  }

  /** A second start neither polls nor sets a second interval. */
  method StartTwice() returns (polls: nat, afterInterval: nat)
    ensures polls == 1 && afterInterval == 2
  {
    var poller := new Poller();
    poller.StartPolling();
    poller.StartPolling();
    polls := poller.polls;
    poller.Elapse(POLL_INTERVAL_MS);
    afterInterval := poller.polls;
  }

  /** After a stop, time passing causes no polls; stopping again is a no-op. */
  method StopHaltsPolling(ms: nat) returns (polls: nat, running: bool)
    ensures polls == 1 && !running
  {
    var poller := new Poller();
    poller.StartPolling();
    poller.StopPolling();
    poller.Elapse(ms);
    poller.StopPolling();
    polls, running := poller.polls, poller.running;
  }
}
