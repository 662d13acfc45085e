/** The mapping from the Datalastic provider's vessel records to the
    server's report format (`transformDatalasticData` in
    server/services/datalastic.js). */
module Datalastic {
  import opened Values
  import opened VesselIngest

  /** One provider record as `vessels.map(vessel => ({...}))` builds it.
      Reading a property of `undefined` or `null` throws; so does
      `vessel.mmsi.toString()` when the record has no mmsi. Any other value
      that is not a plain object has no such properties, so its mmsi is
      `undefined` as well. */
  function TransformOne(vessel: Value, nowIso: string): (r: Result<Doc>)
    ensures !vessel.Obj? ==> r.Err? && r.error.TypeError?
    ensures vessel.Obj? && (Get(vessel.fields, "mmsi").Undefined? || Get(vessel.fields, "mmsi").Null?) ==>
      r.Err? && r.error.TypeError?
    ensures vessel.Obj? && Get(vessel.fields, "mmsi").Str? ==> r.Ok?
  {
    if vessel.Undefined? || vessel.Null? then Err(TypeError("cannot read properties of " + (if vessel.Null? then "null" else "undefined")))
    else if !vessel.Obj? then Err(TypeError("cannot read toString of undefined"))
    else
      var v := vessel.fields;
      match ToJsString(Get(v, "mmsi"))
      case Err(e) => Err(e)
      case Ok(mmsi) =>
        Ok(map[
          "mmsi" := Str(mmsi),
          "name" := Or(Get(v, "shipname"), Str("Unknown")),
          "lat" := Get(v, "lat"),
          "lon" := Get(v, "lon"),
          "course" := Get(v, "course"),
          "speed" := Get(v, "speed"),
          "destination" := Or(Get(v, "destination"), Str("")),
          "eta" := Or(Get(v, "eta"), Null),
          "imo" := Or(Get(v, "imo"), Str("")),
          "callsign" := Or(Get(v, "callsign"), Str("")),
          "shipType" := Or(Get(v, "ship_type"), Str("")),
          "draft" := Or(Get(v, "draft"), Str("")),
          "vesselType" := Or(Get(v, "type_name"), Str("")),
          "timestampUtc" := Or(Get(v, "timestamp_utc"), Str(nowIso)),
          "atd" := Or(Get(v, "atd"), Null),
          "navStatus" := Or(Get(v, "navigational_status"), Str(""))
        ])
  }

  /** `transformDatalasticData(raw)`: `[]` for anything but an array, else
      every record mapped in order; the first record that throws ends the
      call with its error. `nowIso` is `new Date().toISOString()`. */
  function Transform(raw: Value, nowIso: string): (r: Result<seq<Doc>>)
    ensures !raw.Arr? ==> r == Ok([])
  {
    if !raw.Arr? then Ok([]) else TransformAll(raw.items, nowIso)
  }

  function TransformAll(vessels: seq<Value>, nowIso: string): (r: Result<seq<Doc>>)
    decreases |vessels|
  {
    if vessels == [] then Ok([])
    else
      match TransformAll(vessels[..|vessels| - 1], nowIso)
      case Err(e) => Err(e)
      case Ok(init) =>
        match TransformOne(vessels[|vessels| - 1], nowIso)
        case Err(e) => Err(e)
        case Ok(d) => Ok(init + [d])
  }

  /** The mapping succeeds exactly when every record maps, */
  lemma {:induction false} TransformAllOk(vessels: seq<Value>, nowIso: string)
    ensures TransformAll(vessels, nowIso).Ok? <==> forall i :: 0 <= i < |vessels| ==> TransformOne(vessels[i], nowIso).Ok?
    decreases |vessels|
  {
    if vessels != [] {
      var init := vessels[..|vessels| - 1];
      TransformAllOk(init, nowIso);
      assert forall i :: 0 <= i < |init| ==> init[i] == vessels[i];
    }
  }

  /** and then keeps length and order: output `i` is record `i` mapped. */
  lemma {:induction false} TransformAllPointwise(vessels: seq<Value>, nowIso: string)
    requires TransformAll(vessels, nowIso).Ok?
    ensures var out := TransformAll(vessels, nowIso).value;
      |out| == |vessels| && forall i :: 0 <= i < |vessels| ==> TransformOne(vessels[i], nowIso) == Ok(out[i])
    decreases |vessels|
  {
    if vessels != [] {
      var init := vessels[..|vessels| - 1];
      var prev := TransformAll(init, nowIso);
      var last := TransformOne(vessels[|vessels| - 1], nowIso);
      assert prev.Ok? && last.Ok?;
      TransformAllPointwise(init, nowIso);
      var out := TransformAll(vessels, nowIso).value;
      assert out == prev.value + [last.value];
      forall i | 0 <= i < |vessels|
        ensures TransformOne(vessels[i], nowIso) == Ok(out[i])
      {
        if i < |init| {
          assert init[i] == vessels[i];
        }
      }
    }
  }

  /** A failing call reports the error of the first record that throws. */
  lemma {:induction false} TransformAllFirstError(vessels: seq<Value>, nowIso: string, j: nat)
    requires j < |vessels| && TransformOne(vessels[j], nowIso).Err?
    requires forall i :: 0 <= i < j ==> TransformOne(vessels[i], nowIso).Ok?
    ensures TransformAll(vessels, nowIso) == Err(TransformOne(vessels[j], nowIso).error)
    decreases |vessels|
  {
    var init := vessels[..|vessels| - 1];
    if j < |vessels| - 1 {
      assert init[j] == vessels[j];
      TransformAllFirstError(init, nowIso, j);
    } else {
      TransformAllOk(init, nowIso);
    }
  }

  /** A record maps only when it is an object whose mmsi has a text, and its
      mmsi is then that text; */
  lemma TransformOneMmsi(vessel: Value, nowIso: string)
    ensures TransformOne(vessel, nowIso).Ok? <==> vessel.Obj? && ToJsString(Get(vessel.fields, "mmsi")).Ok?
    ensures TransformOne(vessel, nowIso).Ok? ==>
      Get(TransformOne(vessel, nowIso).value, "mmsi") == Str(ToJsString(Get(vessel.fields, "mmsi")).value)
  {
  }

  /** the name defaults to 'Unknown', */
  lemma TransformOneName(vessel: Value, nowIso: string)
    requires TransformOne(vessel, nowIso).Ok?
    ensures Get(TransformOne(vessel, nowIso).value, "name") == Or(Get(vessel.fields, "shipname"), Str("Unknown"))
  {
  }

  /** the position is copied as it is, */
  lemma TransformOnePosition(vessel: Value, nowIso: string)
    requires TransformOne(vessel, nowIso).Ok?
    ensures var d := TransformOne(vessel, nowIso).value;
      Get(d, "lat") == Get(vessel.fields, "lat") && Get(d, "lon") == Get(vessel.fields, "lon")
  {
  }

  /** and so are course and speed. */
  lemma TransformOneMotion(vessel: Value, nowIso: string)
    requires TransformOne(vessel, nowIso).Ok?
    ensures var d := TransformOne(vessel, nowIso).value;
      Get(d, "course") == Get(vessel.fields, "course") && Get(d, "speed") == Get(vessel.fields, "speed")
  {
  }

  /** Text fields default to '' when falsy, `eta` and `atd` to null, the
      timestamp to the current time. */
  lemma TransformOneDefaults(vessel: Value, nowIso: string)
    requires TransformOne(vessel, nowIso).Ok?
    ensures var v, d := vessel.fields, TransformOne(vessel, nowIso).value;
      && Get(d, "destination") == Or(Get(v, "destination"), Str(""))
      && Get(d, "eta") == Or(Get(v, "eta"), Null)
      && Get(d, "atd") == Or(Get(v, "atd"), Null)
      && Get(d, "timestampUtc") == Or(Get(v, "timestamp_utc"), Str(nowIso))
  {
  }

  /** The extended fields, renamed from the provider's names, default to ''. */
  lemma TransformOneExtended(vessel: Value, nowIso: string)
    requires TransformOne(vessel, nowIso).Ok?
    ensures var v, d := vessel.fields, TransformOne(vessel, nowIso).value;
      && Get(d, "imo") == Or(Get(v, "imo"), Str(""))
      && Get(d, "callsign") == Or(Get(v, "callsign"), Str(""))
      && Get(d, "shipType") == Or(Get(v, "ship_type"), Str(""))
      && Get(d, "draft") == Or(Get(v, "draft"), Str(""))
      && Get(d, "vesselType") == Or(Get(v, "type_name"), Str(""))
      && Get(d, "navStatus") == Or(Get(v, "navigational_status"), Str(""))
  {
  }

  /** Every transformed report carries its mmsi as a string, so storing a
      transformed batch looks vessels up by plain equality. */
  lemma TransformPlainMmsis(raw: Value, nowIso: string)
    requires Transform(raw, nowIso).Ok?
    ensures PlainMmsis(Transform(raw, nowIso).value)
  {
    if raw.Arr? {
      TransformAllPointwise(raw.items, nowIso);
      TransformAllOk(raw.items, nowIso);
      var out := Transform(raw, nowIso).value;
      forall x | x in out ensures !IsObject(Get(x, "mmsi")) {
        var i :| 0 <= i < |out| && out[i] == x;
        TransformOneMmsi(raw.items[i], nowIso);
      }
    }
  }
}
