/** Storing a batch of position reports (`storeVesselData` in
    server/services/datalastic.js and server/services/vfinder.js). The two
    services run the same loop; the Datalastic one also copies the extended
    fields (`imo`, `callsign`, `shipType`, `draft`, `vesselType`,
    `navStatus`), which `extended` selects here. */
module VesselIngest {
  import opened Values
  import opened MemoryStore
  import opened Models

  const HISTORY_LIMIT := 100

  /** `!vessel.mmsi || !vessel.lat || !vessel.lon` rejects a report, so a
      latitude or longitude of exactly 0 is rejected too. */
  predicate Accepted(report: Doc)
  {
    Truthy(Get(report, "mmsi")) && Truthy(Get(report, "lat")) && Truthy(Get(report, "lon"))
  }

  /** `{ lat, lon, timestamp: new Date() }`. */
  function HistoryPoint(report: Doc, now: nat): Value
  {
    Obj(map["lat" := Get(report, "lat"), "lon" := Get(report, "lon"), "timestamp" := Date(now)])
  }

  /** `history.push(point)`, then `history.slice(-100)` past 100 entries: the
      last at most 100 entries of the history followed by the point. */
  function Appended(history: seq<Value>, point: Value): (r: seq<Value>)
    ensures 1 <= |r| <= HISTORY_LIMIT
    ensures r[|r| - 1] == point
    ensures |history| < HISTORY_LIMIT ==> r == history + [point]
    ensures |history| >= HISTORY_LIMIT ==> r == history[|history| + 1 - HISTORY_LIMIT..] + [point]
  {
    var pushed := history + [point];
    if |pushed| > HISTORY_LIMIT then SliceFrom(pushed, -HISTORY_LIMIT) else pushed
  }

  /** At the limit the oldest entry is evicted and the rest move up by one. */
  lemma AppendedEvictsOldest(history: seq<Value>, point: Value)
    requires |history| == HISTORY_LIMIT
    ensures Appended(history, point) == history[1..] + [point]
  {
  }

  /** `d.k = report.k` for each of the keys. The keys are distinct and every
      value comes from the report, so the order of the assignments does not
      matter. */
  function CopyKeys(d: Doc, report: Doc, keys: set<string>): Doc
  {
    map k | k in d.Keys + keys :: if k in keys then Get(report, k) else d[k]
  }

  /** After the copies a listed key holds the report's value and any other
      key keeps its own. */
  lemma CopyKeysGet(d: Doc, report: Doc, keys: set<string>, k: string)
    ensures Get(CopyKeys(d, report, keys), k) == if k in keys then Get(report, k) else Get(d, k)
  {
  }

  /** The keys whose value in the report is truthy. */
  function TruthyKeys(report: Doc, keys: set<string>): set<string>
  {
    set k | k in keys && Truthy(Get(report, k))
  }

  /** `if (vessel.k) d.k = vessel.k` for each of the keys. */
  function CopyTruthyKeys(d: Doc, report: Doc, keys: set<string>): Doc
  {
    CopyKeys(d, report, TruthyKeys(report, keys))
  }

  /** The report fields every known vessel receives, besides `lastSeen`. */
  const ASSIGNED_KEYS: set<string> := {"lat", "lon", "course", "speed", "destination", "eta"}

  /** The report fields every new vessel receives. */
  const BASIC_KEYS: set<string> := {"mmsi", "name", "lat", "lon", "course", "speed", "destination", "eta"}

  /** The extended fields, copied only by the Datalastic service. */
  const EXTENDED_KEYS: set<string> := {"imo", "callsign", "shipType", "draft", "vesselType", "navStatus"}

  /** A known vessel after the field assignments, before its history
      changes; the lemmas below state what it holds. */
  function Overwritten(rec: Doc, report: Doc, now: nat, extended: bool): Doc
  {
    var a := CopyKeys(rec, report, ASSIGNED_KEYS)["lastSeen" := Date(now)];
    if extended then CopyTruthyKeys(a, report, EXTENDED_KEYS) else a
  }

  /** No key is both assigned and extended, and neither kind is `lastSeen`. */
  lemma OverwritesDisjoint(k: string)
    ensures k in ASSIGNED_KEYS ==> k !in EXTENDED_KEYS && k != "lastSeen"
    ensures k in EXTENDED_KEYS ==> k != "lastSeen"
  {
  }

  /** A known vessel takes the report's position, course, speed,
      destination and eta, */
  lemma OverwrittenAssigned(rec: Doc, report: Doc, now: nat, extended: bool, k: string)
    requires k in ASSIGNED_KEYS
    ensures Get(Overwritten(rec, report, now, extended), k) == Get(report, k)
  {
    var a := CopyKeys(rec, report, ASSIGNED_KEYS)["lastSeen" := Date(now)];
    OverwritesDisjoint(k);
    CopyKeysGet(rec, report, ASSIGNED_KEYS, k);
    if extended {
      CopyKeysGet(a, report, TruthyKeys(report, EXTENDED_KEYS), k);
    }
  }

  /** `lastSeen` now, */
  lemma OverwrittenLastSeen(rec: Doc, report: Doc, now: nat, extended: bool)
    ensures Get(Overwritten(rec, report, now, extended), "lastSeen") == Date(now)
  {
    var a := CopyKeys(rec, report, ASSIGNED_KEYS)["lastSeen" := Date(now)];
    if extended {
      CopyKeysGet(a, report, TruthyKeys(report, EXTENDED_KEYS), "lastSeen");
    }
  }

  /** the report's truthy extended fields when `extended`, */
  lemma OverwrittenExtended(rec: Doc, report: Doc, now: nat, extended: bool, k: string)
    requires k in EXTENDED_KEYS
    ensures Get(Overwritten(rec, report, now, extended), k) ==
      if extended && Truthy(Get(report, k)) then Get(report, k) else Get(rec, k)
  {
    var a := CopyKeys(rec, report, ASSIGNED_KEYS)["lastSeen" := Date(now)];
    OverwritesDisjoint(k);
    CopyKeysGet(rec, report, ASSIGNED_KEYS, k);
    if extended {
      CopyKeysGet(a, report, TruthyKeys(report, EXTENDED_KEYS), k);
    }
  }

  /** and every other field as it was. */
  lemma OverwrittenKeeps(rec: Doc, report: Doc, now: nat, extended: bool, k: string)
    requires k !in ASSIGNED_KEYS && k != "lastSeen" && k !in EXTENDED_KEYS
    ensures Get(Overwritten(rec, report, now, extended), k) == Get(rec, k)
  {
    var a := CopyKeys(rec, report, ASSIGNED_KEYS)["lastSeen" := Date(now)];
    CopyKeysGet(rec, report, ASSIGNED_KEYS, k);
    if extended {
      CopyKeysGet(a, report, TruthyKeys(report, EXTENDED_KEYS), k);
    }
  }

  /** The fields of the `new Vessel({...})` built for an unknown mmsi;
      the lemmas below state what it holds. */
  function NewVesselData(report: Doc, now: nat, extended: bool): Doc
  {
    var fields := CopyKeys(map[], report, if extended then BASIC_KEYS + EXTENDED_KEYS else BASIC_KEYS);
    fields["history" := Arr([HistoryPoint(report, now)])]
  }

  /** A new vessel gets the basic report fields, */
  lemma NewVesselDataBasic(report: Doc, now: nat, extended: bool, k: string)
    requires k in BASIC_KEYS
    ensures Get(NewVesselData(report, now, extended), k) == Get(report, k)
  {
    assert k != "history";
    CopyKeysGet(map[], report, if extended then BASIC_KEYS + EXTENDED_KEYS else BASIC_KEYS, k);
  }

  /** the extended ones as they are (falsy ones too) exactly when `extended`, */
  lemma NewVesselDataExtended(report: Doc, now: nat, extended: bool, k: string)
    requires k in EXTENDED_KEYS
    ensures Get(NewVesselData(report, now, extended), k) == if extended then Get(report, k) else Undefined
  {
    assert k != "history" && k !in BASIC_KEYS;
    CopyKeysGet(map[], report, if extended then BASIC_KEYS + EXTENDED_KEYS else BASIC_KEYS, k);
  }

  /** a one-point history, */
  lemma NewVesselDataHistory(report: Doc, now: nat, extended: bool)
    ensures Get(NewVesselData(report, now, extended), "history") == Arr([HistoryPoint(report, now)])
  {
  }

  /** and nothing else. */
  lemma NewVesselDataNothingElse(report: Doc, now: nat, extended: bool, k: string)
    requires k !in BASIC_KEYS && k !in EXTENDED_KEYS && k != "history"
    ensures Get(NewVesselData(report, now, extended), k) == Undefined
  {
    CopyKeysGet(map[], report, if extended then BASIC_KEYS + EXTENDED_KEYS else BASIC_KEYS, k);
  }

  /** The stored vessel matching a report's mmsi, by position. */
  function Known(items: seq<Doc>, report: Doc): Option<nat>
  {
    FirstMatch(items, KeyFilter("mmsi", Get(report, "mmsi")))
  }

  /** A known vessel after the report: the field assignments, then one
      history point, or `None` when the history is not an array (the push
      throws; the assignments have been made by then). */
  function Refreshed(rec: Doc, report: Doc, now: nat, extended: bool): Option<Doc>
  {
    var history := Get(rec, "history");
    if !history.Arr? then None
    else Some(Overwritten(rec, report, now, extended)["history" := Arr(Appended(history.items, HistoryPoint(report, now)))])
  }

  /** The vessel built for an unknown mmsi, as `new Vessel({...})` leaves it;
      `NewVesselFields` states what it holds. */
  function NewVessel(report: Doc, now: nat, extended: bool): Doc
  {
    VesselDefaults(NewVesselData(report, now, extended), now)
  }

  /** A new vessel carries the report's mmsi and position, a one-point
      history, `lastSeen` now and the millisecond clock as its id. */
  lemma {:induction false} NewVesselFields(report: Doc, now: nat, extended: bool)
    ensures var v := NewVessel(report, now, extended);
      && Get(v, "mmsi") == Get(report, "mmsi")
      && Get(v, "lat") == Get(report, "lat") && Get(v, "lon") == Get(report, "lon")
      && Get(v, "history") == Arr([HistoryPoint(report, now)])
      && Get(v, "lastSeen") == Date(now)
      && Get(v, "_id") == Str(Decimal(now))
  {
    NewVesselDataBasic(report, now, extended, "mmsi");
    NewVesselDataBasic(report, now, extended, "lat");
    NewVesselDataBasic(report, now, extended, "lon");
    NewVesselDataHistory(report, now, extended);
    NewVesselDataNothingElse(report, now, extended, "lastSeen");
    NewVesselDataNothingElse(report, now, extended, "_id");
  }

  /** What one report did. */
  datatype Step = Skipped | Stored(vessel: Doc) | Failed(error: Error)

  datatype Outcome = Outcome(vessels: seq<Doc>, step: Step)

  /** The loop as the services write it, or with the known-vessel `save()`
      call corrected (that call throws on the plain object the store holds). */
  datatype Variant = AsWritten | Corrected

  /** One report applied to the vessels collection. For a known vessel the
      field assignments land in the stored record itself, so they persist
      whatever fails afterwards. */
  function Upsert(items: seq<Doc>, report: Doc, now: nat, extended: bool, variant: Variant): (r: Outcome)
    ensures !Accepted(report) ==> r == Outcome(items, Skipped)
    ensures Accepted(report) ==> !r.step.Skipped?
  {
    if !Accepted(report) then Outcome(items, Skipped)
    else match Known(items, report)
      case Some(i) =>
        (match Refreshed(items[i], report, now, extended)
         case None =>
           Outcome(items[i := Overwritten(items[i], report, now, extended)], Failed(TypeError("history.push is not a function")))
         case Some(rec) =>
           if variant == AsWritten then Outcome(items[i := rec], Failed(TypeError("existingVessel.save is not a function")))
           else Outcome(items[i := rec], Stored(rec)))
      case None =>
        var vessel := NewVessel(report, now, extended);
        Outcome(items + [InsertedItem(vessel, Undefined, now)], Stored(vessel))
  }

  datatype Batch = Batch(vessels: seq<Doc>, result: Result<seq<Doc>>)

  /** The whole loop over a batch: reports in order, the first failure
      ending the batch with the collection as that report left it. */
  function IngestAll(items: seq<Doc>, reports: seq<Doc>, now: nat, extended: bool, variant: Variant): Batch
    decreases |reports|
  {
    if reports == [] then Batch(items, Ok([]))
    else
      var prev := IngestAll(items, reports[..|reports| - 1], now, extended, variant);
      if prev.result.Err? then prev
      else
        var o := Upsert(prev.vessels, reports[|reports| - 1], now, extended, variant);
        match o.step
        case Skipped => Batch(o.vessels, prev.result)
        case Stored(v) => Batch(o.vessels, Ok(prev.result.value + [v]))
        case Failed(e) => Batch(o.vessels, Err(e))
  }

  // ---------------------------------------------------------------------
  // One report

  /** A known vessel with an array history is replaced in place by its
      refreshed record, which the corrected loop returns; nothing else in the
      collection changes. */
  lemma KnownVesselRefreshed(items: seq<Doc>, report: Doc, now: nat, extended: bool, variant: Variant)
    requires Accepted(report) && Known(items, report).Some?
    requires Get(items[Known(items, report).value], "history").Arr?
    ensures var i := Known(items, report).value;
      var rec := Refreshed(items[i], report, now, extended);
      var r := Upsert(items, report, now, extended, variant);
      && rec.Some?
      && r.vessels == items[i := rec.value]
      && (variant == Corrected ==> r.step == Stored(rec.value))
      && (variant == AsWritten ==> r.step.Failed? && r.step.error.TypeError?)
  {
  }

  /** Without the extended fields (the vfinder service) a known vessel's
      `imo`, `callsign`, `shipType`, `draft`, `vesselType` and `navStatus`
      are left as they were. */
  lemma BasicReportKeepsExtendedFields(items: seq<Doc>, report: Doc, now: nat, variant: Variant, k: string)
    requires Accepted(report) && Known(items, report).Some?
    requires k in EXTENDED_KEYS
    ensures var i := Known(items, report).value;
      Get(Upsert(items, report, now, false, variant).vessels[i], k) == Get(items[i], k)
  {
    var i := Known(items, report).value;
    OverwrittenExtended(items[i], report, now, false, k);
  }

  /** A known vessel whose history is not an array: the push throws, with the
      field assignments already made. */
  lemma KnownVesselBadHistory(items: seq<Doc>, report: Doc, now: nat, extended: bool, variant: Variant)
    requires Accepted(report) && Known(items, report).Some?
    requires !Get(items[Known(items, report).value], "history").Arr?
    ensures var i := Known(items, report).value;
      var r := Upsert(items, report, now, extended, variant);
      r.step.Failed? && r.step.error.TypeError? &&
      r.vessels == items[i := Overwritten(items[i], report, now, extended)]
  {
  }

  /** An unknown mmsi: exactly one vessel is appended, and it is the record the
      loop returns, stored with `createdAt` now. */
  lemma NewVesselCreated(items: seq<Doc>, report: Doc, now: nat, extended: bool, variant: Variant)
    requires Accepted(report) && Known(items, report).None?
    ensures var r := Upsert(items, report, now, extended, variant);
      var v := NewVessel(report, now, extended);
      && r.vessels == items + [InsertedItem(v, Undefined, now)]
      && r.step == Stored(v)
      && Get(r.vessels[|items|], "createdAt") == Date(now)
  {
    var v := NewVessel(report, now, extended);
    assert Upsert(items, report, now, extended, variant) == Outcome(items + [InsertedItem(v, Undefined, now)], Stored(v));
    assert Get(v, "createdAt") == Undefined by {
      NewVesselDataNothingElse(report, now, extended, "createdAt");
    }
  }

  /** A report changes the number of vessels by one exactly when its mmsi is new. */
  lemma UpsertCount(items: seq<Doc>, report: Doc, now: nat, extended: bool, variant: Variant)
    ensures var r := Upsert(items, report, now, extended, variant);
      |r.vessels| == |items| + (if Accepted(report) && Known(items, report).None? then 1 else 0)
  {
  }

  // ---------------------------------------------------------------------
  // Invariants kept by each report

  /** Every report's mmsi is a plain value (the transform makes it a string),
      so `findOne({ mmsi })` is an equality lookup. */
  predicate PlainMmsis(reports: seq<Doc>)
  {
    forall x :: x in reports ==> !IsObject(Get(x, "mmsi"))
  }

  /** A stored history is an array of 1 to 100 entries. */
  predicate BoundedHistory(v: Value)
  {
    v.Arr? && 1 <= |v.items| <= HISTORY_LIMIT
  }

  predicate HistoriesBounded(items: seq<Doc>)
  {
    forall i :: 0 <= i < |items| ==> BoundedHistory(Get(items[i], "history"))
  }

  /** The record a report stores carries the report's mmsi, and every vessel
      keeps its mmsi. */
  lemma {:induction false} UpsertMmsis(items: seq<Doc>, report: Doc, now: nat, extended: bool, variant: Variant)
    requires !IsObject(Get(report, "mmsi"))
    ensures var r := Upsert(items, report, now, extended, variant);
      && |r.vessels| >= |items|
      && (forall j :: 0 <= j < |items| ==> Get(r.vessels[j], "mmsi") == Get(items[j], "mmsi"))
      && (|r.vessels| > |items| ==> Get(r.vessels[|items|], "mmsi") == Get(report, "mmsi"))
      && (r.step.Stored? ==> Get(r.step.vessel, "mmsi") == Get(report, "mmsi"))
  {
    var r := Upsert(items, report, now, extended, variant);
    if Accepted(report) {
      match Known(items, report)
      case Some(i) =>
        assert Get(items[i], "mmsi") == Get(report, "mmsi") by {
          KeyFilterMatches(items[i], "mmsi", Get(report, "mmsi"));
        }
        var x := r.vessels[i];
        assert r.vessels == items[i := x] && Get(x, "mmsi") == Get(items[i], "mmsi") && (r.step.Stored? ==> r.step.vessel == x) by {
          var o := Overwritten(items[i], report, now, extended);
          OverwrittenKeeps(items[i], report, now, extended, "mmsi");
          var h := Get(items[i], "history");
          if h.Arr? {
            var rec := o["history" := Arr(Appended(h.items, HistoryPoint(report, now)))];
            assert Refreshed(items[i], report, now, extended) == Some(rec);
            KnownVesselRefreshed(items, report, now, extended, variant);
          } else {
            KnownVesselBadHistory(items, report, now, extended, variant);
          }
        }
      case None =>
        var v := NewVessel(report, now, extended);
        assert r == Outcome(items + [InsertedItem(v, Undefined, now)], Stored(v)) by {
          NewVesselCreated(items, report, now, extended, variant);
        }
        assert Get(v, "mmsi") == Get(report, "mmsi") by {
          NewVesselFields(report, now, extended);
        }
        assert Get(InsertedItem(v, Undefined, now), "mmsi") == Get(v, "mmsi");
    }
  }

  /** No stored vessel has the mmsi of a report the store does not know. */
  lemma UnknownMmsiAbsent(items: seq<Doc>, report: Doc)
    requires !IsObject(Get(report, "mmsi")) && Known(items, report).None?
    ensures forall j :: 0 <= j < |items| ==> Get(items[j], "mmsi") != Get(report, "mmsi")
  {
    forall j | 0 <= j < |items| ensures Get(items[j], "mmsi") != Get(report, "mmsi") {
      KeyFilterMatches(items[j], "mmsi", Get(report, "mmsi"));
      assert items[j] in items;
    }
  }

  /** A report keeps the vessels' mmsi values unique. */
  lemma UpsertKeepsUnique(items: seq<Doc>, report: Doc, now: nat, extended: bool, variant: Variant)
    requires !IsObject(Get(report, "mmsi")) && UniqueBy(items, "mmsi")
    ensures UniqueBy(Upsert(items, report, now, extended, variant).vessels, "mmsi")
  {
    UpsertMmsis(items, report, now, extended, variant);
    UpsertCount(items, report, now, extended, variant);
    if Accepted(report) && Known(items, report).None? {
      UnknownMmsiAbsent(items, report);
    }
  }

  /** A report keeps every history an array of 1 to 100 entries, and then the
      corrected loop cannot fail on it. */
  lemma {:induction false} UpsertKeepsBounded(items: seq<Doc>, report: Doc, now: nat, extended: bool, variant: Variant)
    requires HistoriesBounded(items)
    ensures var r := Upsert(items, report, now, extended, variant);
      HistoriesBounded(r.vessels) && (variant == Corrected ==> !r.step.Failed?)
  {
    if Accepted(report) {
      match Known(items, report)
      case Some(i) =>
        var h := Get(items[i], "history");
        assert BoundedHistory(h);
        var rec := Overwritten(items[i], report, now, extended)["history" := Arr(Appended(h.items, HistoryPoint(report, now)))];
        assert Refreshed(items[i], report, now, extended) == Some(rec);
        assert BoundedHistory(Get(rec, "history"));
        var r := Upsert(items, report, now, extended, variant);
        assert r.vessels == items[i := rec] && (variant == Corrected ==> r.step == Stored(rec)) by {
          KnownVesselRefreshed(items, report, now, extended, variant);
        }
      case None =>
        var v := NewVessel(report, now, extended);
        assert Upsert(items, report, now, extended, variant) == Outcome(items + [InsertedItem(v, Undefined, now)], Stored(v)) by {
          NewVesselCreated(items, report, now, extended, variant);
        }
        assert Get(v, "history") == Arr([HistoryPoint(report, now)]) by {
          NewVesselFields(report, now, extended);
        }
        assert Get(InsertedItem(v, Undefined, now), "history") == Get(v, "history");
    }
  }

  // ---------------------------------------------------------------------
  // Whole batches

  lemma {:induction false} IngestErrSticky(items: seq<Doc>, reports: seq<Doc>, k: nat, now: nat, extended: bool, variant: Variant)
    requires k <= |reports|
    requires IngestAll(items, reports[..k], now, extended, variant).result.Err?
    ensures IngestAll(items, reports, now, extended, variant) == IngestAll(items, reports[..k], now, extended, variant)
    decreases |reports| - k
  {
    if k < |reports| {
      assert reports[..k + 1][..k] == reports[..k];
      IngestErrSticky(items, reports, k + 1, now, extended, variant);
    } else {
      assert reports[..k] == reports;
    }
  }

  /** The reports that pass the falsy test, in input order. */
  function AcceptedOf(reports: seq<Doc>): (r: seq<Doc>)
    ensures |r| <= |reports|
    ensures forall x :: x in r <==> x in reports && Accepted(x)
  {
    if reports == [] then []
    else AcceptedOf(reports[..|reports| - 1]) + (if Accepted(reports[|reports| - 1]) then [reports[|reports| - 1]] else [])
  }

  /** The records returned match the reports one for one, by mmsi. */
  predicate AlignedByMmsi(out: seq<Doc>, reports: seq<Doc>)
  {
    |out| == |reports| && forall j :: 0 <= j < |out| ==> Get(out[j], "mmsi") == Get(reports[j], "mmsi")
  }

  lemma AlignedByMmsiExtend(out: seq<Doc>, reports: seq<Doc>, v: Doc, report: Doc)
    requires AlignedByMmsi(out, reports) && Get(v, "mmsi") == Get(report, "mmsi")
    ensures AlignedByMmsi(out + [v], reports + [report])
  {
  }

  /** Over a whole batch of plain-mmsi reports the collection keeps one record
      per mmsi, and the records returned match the accepted reports one for
      one, in input order, by mmsi. */
  lemma {:induction false} IngestAllAligned(items: seq<Doc>, reports: seq<Doc>, now: nat, extended: bool, variant: Variant)
    requires PlainMmsis(reports) && UniqueBy(items, "mmsi")
    ensures var b := IngestAll(items, reports, now, extended, variant);
      UniqueBy(b.vessels, "mmsi") && (b.result.Ok? ==> AlignedByMmsi(b.result.value, AcceptedOf(reports)))
    decreases |reports|
  {
    if reports != [] {
      var init := reports[..|reports| - 1];
      var last := reports[|reports| - 1];
      assert forall x :: x in init ==> x in reports;
      IngestAllAligned(items, init, now, extended, variant);
      var prev := IngestAll(items, init, now, extended, variant);
      if prev.result.Ok? {
        var o := Upsert(prev.vessels, last, now, extended, variant);
        assert last in reports;
        assert UniqueBy(o.vessels, "mmsi") by {
          UpsertKeepsUnique(prev.vessels, last, now, extended, variant);
        }
        match o.step
        case Stored(v) =>
          assert Accepted(last);
          assert AcceptedOf(reports) == AcceptedOf(init) + [last];
          assert Get(v, "mmsi") == Get(last, "mmsi") by {
            UpsertMmsis(prev.vessels, last, now, extended, variant);
          }
          AlignedByMmsiExtend(prev.result.value, AcceptedOf(init), v, last);
          assert IngestAll(items, reports, now, extended, variant) == Batch(o.vessels, Ok(prev.result.value + [v]));
        case Skipped =>
          assert !Accepted(last);
          assert AcceptedOf(reports) == AcceptedOf(init);
          assert IngestAll(items, reports, now, extended, variant) == Batch(o.vessels, prev.result);
        case Failed(e) =>
          assert IngestAll(items, reports, now, extended, variant) == Batch(o.vessels, Err(e));
      }
    }
  }

  /** Starting from bounded histories, every history stays an array of 1 to
      100 entries, and the corrected loop stores the whole batch. */
  lemma {:induction false} IngestAllBounded(items: seq<Doc>, reports: seq<Doc>, now: nat, extended: bool, variant: Variant)
    requires HistoriesBounded(items)
    ensures var b := IngestAll(items, reports, now, extended, variant);
      HistoriesBounded(b.vessels) && (variant == Corrected ==> b.result.Ok?)
    decreases |reports|
  {
    if reports != [] {
      var init := reports[..|reports| - 1];
      IngestAllBounded(items, init, now, extended, variant);
      var prev := IngestAll(items, init, now, extended, variant);
      if prev.result.Ok? {
        var o := Upsert(prev.vessels, reports[|reports| - 1], now, extended, variant);
        assert HistoriesBounded(o.vessels) && (variant == Corrected ==> !o.step.Failed?) by {
          UpsertKeepsBounded(prev.vessels, reports[|reports| - 1], now, extended, variant);
        }
        match o.step
        case Stored(v) =>
          assert IngestAll(items, reports, now, extended, variant) == Batch(o.vessels, Ok(prev.result.value + [v]));
        case Skipped =>
          assert IngestAll(items, reports, now, extended, variant) == Batch(o.vessels, prev.result);
        case Failed(e) =>
          assert IngestAll(items, reports, now, extended, variant) == Batch(o.vessels, Err(e));
      }
    }
  }

  // ---------------------------------------------------------------------
  // The save() failure in the code as written

  /** As written, any accepted report for a stored mmsi ends the batch with a
      TypeError; the fields it assigned stay in the store. */
  lemma {:induction false} AsWrittenFailsOnKnownVessel(items: seq<Doc>, reports: seq<Doc>, now: nat, extended: bool)
    requires reports != []
    requires var prev := IngestAll(items, reports[..|reports| - 1], now, extended, AsWritten);
      var last := reports[|reports| - 1];
      prev.result.Ok? && Accepted(last) && Known(prev.vessels, last).Some?
    ensures IngestAll(items, reports, now, extended, AsWritten).result.Err?
    ensures IngestAll(items, reports, now, extended, AsWritten).result.error.TypeError?
  {
  }

  /** A concrete case: one stored vessel with mmsi "1" and a one-entry
      history, then a report for that vessel. As written the batch throws; */
  lemma AsWrittenCounterexample()
    ensures var stored := map["_id" := Str("7"), "mmsi" := Str("1"), "history" := Arr([Null])];
      var report := map["mmsi" := Str("1"), "lat" := Num(1.0), "lon" := Num(2.0)];
      IngestAll([stored], [report], 10, false, AsWritten).result.Err?
  {
    var stored := map["_id" := Str("7"), "mmsi" := Str("1"), "history" := Arr([Null])];
    var report := map["mmsi" := Str("1"), "lat" := Num(1.0), "lon" := Num(2.0)];
    var reports := [report];
    assert reports[..0] == [];
    assert Matches(stored, KeyFilter("mmsi", Str("1")));
    assert Known([stored], report) == Some(0);
  }

  /** corrected, the same batch refreshes the record and returns it. */
  lemma CorrectedCounterexample()
    ensures var stored := map["_id" := Str("7"), "mmsi" := Str("1"), "history" := Arr([Null])];
      var report := map["mmsi" := Str("1"), "lat" := Num(1.0), "lon" := Num(2.0)];
      && IngestAll([stored], [report], 10, false, Corrected).result.Ok?
      && |IngestAll([stored], [report], 10, false, Corrected).result.value| == 1
  {
    var stored := map["_id" := Str("7"), "mmsi" := Str("1"), "history" := Arr([Null])];
    var report := map["mmsi" := Str("1"), "lat" := Num(1.0), "lon" := Num(2.0)];
    var reports := [report];
    assert reports[..0] == [];
    assert Matches(stored, KeyFilter("mmsi", Str("1")));
    assert Known([stored], report) == Some(0);
  }

  // ---------------------------------------------------------------------
  // The loop

  lemma InsertedItemIdIrrelevant(data: Doc, a: Value, b: Value, now: nat)
    requires Truthy(Get(data, "_id"))
    ensures InsertedItem(data, a, now) == InsertedItem(data, b, now)
  {
  }

  /** The batch after report `k`, given the batch before it: a failure is
      the batch's result, any other step extends the prefix. */
  lemma {:induction false} IngestAllAdvance(items: seq<Doc>, reports: seq<Doc>, k: nat, vessels: seq<Doc>, out: seq<Doc>, o: Outcome, now: nat, extended: bool)
    requires k < |reports|
    requires IngestAll(items, reports[..k], now, extended, Corrected) == Batch(vessels, Ok(out))
    requires o == Upsert(vessels, reports[k], now, extended, Corrected)
    ensures o.step.Failed? ==> IngestAll(items, reports, now, extended, Corrected) == Batch(o.vessels, Err(o.step.error))
    ensures o.step.Stored? ==> IngestAll(items, reports[..k + 1], now, extended, Corrected) == Batch(o.vessels, Ok(out + [o.step.vessel]))
    ensures o.step.Skipped? ==> IngestAll(items, reports[..k + 1], now, extended, Corrected) == Batch(o.vessels, Ok(out))
  {
    var p := reports[..k + 1];
    assert p[..|p| - 1] == reports[..k] && p[|p| - 1] == reports[k];
    if o.step.Failed? {
      IngestErrSticky(items, reports, k + 1, now, extended, Corrected);
    }
  }

  /** A report for the stored vessel at `i`: the fields are assigned on the
      stored record itself, then one point is pushed onto its history. */
  method RefreshKnown(store: Store, report: Doc, now: nat, extended: bool, i: nat) returns (step: Step)
    requires VESSELS in store.collections
    requires Accepted(report) && Known(store.collections[VESSELS], report) == Some(i)
    modifies store
    ensures var o := Upsert(old(store.collections[VESSELS]), report, now, extended, Corrected);
      store.collections == old(store.collections)[VESSELS := o.vessels] && step == o.step
    ensures store.idCounter == old(store.idCounter)
  {
    var items := store.collections[VESSELS];
    // the record is the stored object: the assignments land in the store
    var rec := Overwritten(items[i], report, now, extended);
    store.collections := store.collections[VESSELS := items[i := rec]];
    OverwrittenKeeps(items[i], report, now, extended, "history");
    step := PushHistory(store, report, now, i);
    if Get(rec, "history").Arr? {
      var refreshed := rec["history" := Arr(Appended(Get(rec, "history").items, HistoryPoint(report, now)))];
      assert items[i := rec][i := refreshed] == items[i := refreshed];
      KnownVesselRefreshed(items, report, now, extended, Corrected);
    } else {
      KnownVesselBadHistory(items, report, now, extended, Corrected);
    }
  }

  /** `existingVessel.history.push(point)` and the trim to the last 100
      entries on the stored record at `i`; a history that is not an array
      throws and leaves the store as it was. */
  method PushHistory(store: Store, report: Doc, now: nat, i: nat) returns (step: Step)
    requires VESSELS in store.collections && i < |store.collections[VESSELS]|
    modifies store
    ensures var items := old(store.collections[VESSELS]);
      var history := Get(items[i], "history");
      if !history.Arr? then
        store.collections == old(store.collections) && step == Failed(TypeError("history.push is not a function"))
      else
        var rec := items[i]["history" := Arr(Appended(history.items, HistoryPoint(report, now)))];
        store.collections == old(store.collections)[VESSELS := items[i := rec]] && step == Stored(rec)
    ensures store.idCounter == old(store.idCounter)
  {
    var items := store.collections[VESSELS];
    var history := Get(items[i], "history");
    if !history.Arr? {
      return Failed(TypeError("history.push is not a function"));
    }
    var h := history.items + [HistoryPoint(report, now)];
    if |h| > HISTORY_LIMIT {
      h := SliceFrom(h, -HISTORY_LIMIT);
    }
    var rec := items[i]["history" := Arr(h)];
    store.collections := store.collections[VESSELS := items[i := rec]];
    return Stored(rec);
  }

  /** A report for an unknown mmsi: `new Vessel({...}).save()`. */
  method AddNew(store: Store, report: Doc, now: nat, extended: bool) returns (step: Step)
    requires VESSELS in store.collections
    requires Accepted(report) && Known(store.collections[VESSELS], report).None?
    modifies store
    ensures var o := Upsert(old(store.collections[VESSELS]), report, now, extended, Corrected);
      store.collections == old(store.collections)[VESSELS := o.vessels] && step == o.step
    ensures store.idCounter == old(store.idCounter)
  {
    var vessel := new Vessel(NewVesselData(report, now, extended), now);
    NewVesselFields(report, now, extended);
    vessel.Save(store, now);
    InsertedItemIdIrrelevant(vessel.doc, Str(Decimal(old(store.idCounter))), Undefined, now);
    NewVesselCreated(old(store.collections[VESSELS]), report, now, extended, Corrected);
    return Stored(vessel.doc);
  }

  /** One report of `storeVesselData` with the known-vessel save corrected:
      the vessels collection changes as `Upsert` says and the step it
      reports is returned. */
  method StoreReport(store: Store, report: Doc, now: nat, extended: bool) returns (step: Step)
    requires VESSELS in store.collections
    modifies store
    ensures var o := Upsert(old(store.collections[VESSELS]), report, now, extended, Corrected);
      store.collections == old(store.collections)[VESSELS := o.vessels] && step == o.step
    ensures store.idCounter == old(store.idCounter)
  {
    if !(Truthy(Get(report, "mmsi")) && Truthy(Get(report, "lat")) && Truthy(Get(report, "lon"))) {
      return Skipped;
    }
    var known := FirstMatch(store.collections[VESSELS], KeyFilter("mmsi", Get(report, "mmsi")));
    if known.Some? {
      step := RefreshKnown(store, report, now, extended, known.value);
    } else {
      step := AddNew(store, report, now, extended);
    }
  }

  /** `storeVesselData(vessels)` with the known-vessel save corrected: walks
      the reports in order, changing the vessels collection exactly as
      `IngestAll` does and returning its result. */
  method StoreVesselData(store: Store, reports: seq<Doc>, now: nat, extended: bool) returns (r: Result<seq<Doc>>)
    requires VESSELS in store.collections
    modifies store
    ensures var b := IngestAll(old(store.collections[VESSELS]), reports, now, extended, Corrected);
      r == b.result && store.collections == old(store.collections)[VESSELS := b.vessels]
    ensures store.idCounter == old(store.idCounter)
  {
    ghost var items0 := store.collections[VESSELS];
    var updated: seq<Doc> := [];
    var k := 0;
    while k < |reports|
      invariant 0 <= k <= |reports|
      invariant VESSELS in store.collections
      invariant IngestAll(items0, reports[..k], now, extended, Corrected) == Batch(store.collections[VESSELS], Ok(updated))
      invariant store.collections == old(store.collections)[VESSELS := store.collections[VESSELS]]
      invariant store.idCounter == old(store.idCounter)
    {
      ghost var o := Upsert(store.collections[VESSELS], reports[k], now, extended, Corrected);
      IngestAllAdvance(items0, reports, k, store.collections[VESSELS], updated, o, now, extended);
      var step := StoreReport(store, reports[k], now, extended);
      if step.Failed? {
        return Err(step.error);
      }
      if step.Stored? {
        updated := updated + [step.vessel];
      }
      k := k + 1;
    }
    assert reports[..k] == reports;
    r := Ok(updated);
  }
}
