/**
 * The dashboard's sensor configuration store, as pure rules: building the sensor list
 * from a configuration snapshot, seeding the pending edit buffer from a sensor, looking a
 * sensor up by id, and shaping the parameter-update requests sent to the bridge.
 */
module SensorStore {
  import opened Wrappers
  import opened Dict
  import opened Types
  import SensorSection
  import Strings

  /** One value of the parsed configuration snapshot, keyed by sensor name. */
  datatype SensorConfig = SensorConfig(
    sensorType: string,
    enabled: bool,
    packageName: string,
    nodeName: string,
    params: Entries<SensorParameter>)

  /** A parsed snapshot is an object whose values' `params` are objects too. */
  predicate WellFormedSnapshot(snapshot: Entries<SensorConfig>) {
    forall i :: 0 <= i < |snapshot| ==> DistinctKeys(snapshot[i].1.params)
  }

  /**
   * `sensors` is what ingesting `snapshot` yields: one sensor per snapshot entry, in
   * snapshot order, with id and name both set to the entry's key and every other field
   * copied from the entry.
   */
  predicate BuiltFrom(sensors: seq<Sensor>, snapshot: Entries<SensorConfig>) {
    && |sensors| == |snapshot|
    && forall i :: 0 <= i < |snapshot| ==>
      && sensors[i].id == snapshot[i].0
      && sensors[i].name == snapshot[i].0
      && sensors[i].sensorType == snapshot[i].1.sensorType
      && sensors[i].enabled == snapshot[i].1.enabled
      && sensors[i].packageName == snapshot[i].1.packageName
      && sensors[i].nodeName == snapshot[i].1.nodeName
      && sensors[i].params == snapshot[i].1.params
  }

  /** The ingestion loop that pushes one sensor per snapshot entry onto a fresh list. */
  method BuildSensorList(snapshot: Entries<SensorConfig>) returns (sensors: seq<Sensor>)
    ensures BuiltFrom(sensors, snapshot)
  {
    sensors := [];
    for i := 0 to |snapshot|
      invariant |sensors| == i
      invariant forall j :: 0 <= j < i ==>
        sensors[j] == Sensor(snapshot[j].0, snapshot[j].0, snapshot[j].1.sensorType, snapshot[j].1.packageName,
                             snapshot[j].1.nodeName, snapshot[j].1.enabled, snapshot[j].1.params)
    {
      var (key, config) := snapshot[i];
      sensors := sensors + [Sensor(key, key, config.sensorType, config.packageName, config.nodeName, config.enabled, config.params)];
    }
  }

  /** The pending buffer a sensor seeds: each parameter name mapped to its current value, in order. */
  function ParamValues(params: Entries<SensorParameter>): (pending: Entries<Value>)
    ensures Keys(pending) == Keys(params)
    ensures forall i :: 0 <= i < |params| ==> pending[i].1 == params[i].1.value
  {
    if params == [] then [] else [(params[0].0, params[0].1.value)] + ParamValues(params[1..])
  }

  /** `sensorsList.find(s => s.id === id)`: the first sensor with that id, if any. */
  function FindSensor(sensors: seq<Sensor>, id: string): (r: Option<Sensor>)
    ensures r.None? <==> forall s :: s in sensors ==> s.id != id
    ensures r.Some? ==> exists i :: 0 <= i < |sensors| && sensors[i] == r.value && r.value.id == id
                                   && forall j :: 0 <= j < i ==> sensors[j].id != id
  {
    if sensors == [] then None
    else if sensors[0].id == id then Some(sensors[0])
    else
      var r := FindSensor(sensors[1..], id);
      if r.Some? then
        ghost var i :| 0 <= i < |sensors[1..]| && sensors[1..][i] == r.value && r.value.id == id
                     && forall j :: 0 <= j < i ==> sensors[1..][j].id != id;
        assert sensors[i + 1] == r.value;
        r
      else r
  }

  /** `value.toString()` for a parameter value; the text reads back as `v` under any type `v` has. */
  function Stringify(v: Value): (r: string)
    ensures forall t :: ValueOfType(t, v) ==> ParseAs(t, r) == Some(v)
  {
    match v
    case Num(n) => Strings.IntToStringRoundTrip(n); Strings.IntToString(n)
    case Str(s) => s
    case Bool(b) => if b then "true" else "false"
  }

  predicate ValueOfType(t: ParamType, v: Value) {
    match t
    case IntType => v.Num?
    case StringType => v.Str?
    case BooleanType => v.Bool?
  }

  /** Reading a stringified value back according to the parameter's declared `type`. */
  function ParseAs(t: ParamType, s: string): Option<Value> {
    match t
    case IntType => (match Strings.ParseInt(s) case Some(n) => Some(Num(n)) case None => None)
    case StringType => Some(Str(s))
    case BooleanType => if s == "true" then Some(Bool(true)) else if s == "false" then Some(Bool(false)) else None
  }

  /** Stringifying loses nothing: a value of the declared kind is recovered from its text. */
  lemma StringifyRoundTrip(t: ParamType, v: Value)
    requires ValueOfType(t, v)
    ensures ParseAs(t, Stringify(v)) == Some(v)
  {
    if v.Num? {
      Strings.IntToStringRoundTrip(v.n);
    }
  }

  datatype UpdateRequest = UpdateRequest(sensorName: string, paramNames: seq<string>, newValues: seq<string>)

  /** Reading `requires_reboot` of a key the sensor does not have throws a TypeError. */
  datatype BuildFault = MissingParam(key: string)

  /**
   * `keys.filter(k => params[k].requires_reboot)` (or its negation when `boot` is false):
   * exactly the given keys whose parameter has the matching reboot flag.
   */
  function NamesWhere(params: Entries<SensorParameter>, keys: seq<string>, boot: bool): (r: seq<string>)
    requires forall k :: k in keys ==> k in Keys(params)
    ensures |r| <= |keys|
    ensures forall k :: k in r <==> k in keys && RequiresReboot(Get(params, k).value) == boot
  {
    if keys == [] then []
    else
      var p := Get(params, keys[0]).value;
      (if RequiresReboot(p) == boot then [keys[0]] else []) + NamesWhere(params, keys[1..], boot)
  }

  /**
   * `Object.entries(pending).filter(e => params[e[0]].requires_reboot).map(e => e[1].toString())`
   * (or the negated filter when `boot` is false); the filter throws at the first pending
   * key the sensor does not have.
   */
  function ValuesWhere(params: Entries<SensorParameter>, pending: Entries<Value>, boot: bool): (r: Result<seq<string>, BuildFault>)
    ensures r.Err? <==> exists i :: 0 <= i < |pending| && pending[i].0 !in Keys(params)
    ensures r.Err? ==> r.error.key in Keys(pending) && r.error.key !in Keys(params)
  {
    if pending == [] then Ok([])
    else match Get(params, pending[0].0)
      case None => Err(MissingParam(pending[0].0))
      case Some(p) =>
        match ValuesWhere(params, pending[1..], boot)
        case Err(e) => Err(e)
        case Ok(rest) => Ok(if RequiresReboot(p) == boot then [Stringify(pending[0].1)] + rest else rest)
  }

  /**
   * The `(sensor_name, param_names, new_values)` request for the live (`boot` false) or
   * reboot half. It throws only at a buffer key that is not a parameter of the sensor,
   * and a built request names the sensor it was built from.
   */
  function BuildUpdateRequest(sensor: Sensor, pending: Entries<Value>, boot: bool): (r: Result<UpdateRequest, BuildFault>)
    ensures r.Err? ==> r.error.key in Keys(pending) && r.error.key !in Keys(sensor.params)
    ensures r.Ok? ==> r.value.sensorName == sensor.name
  {
    match ValuesWhere(sensor.params, pending, boot)
    case Err(e) => Err(e)
    case Ok(values) => Ok(UpdateRequest(sensor.name, NamesWhere(sensor.params, Keys(sensor.params), boot), values))
  }

  lemma {:induction false} NamesAlign(params: Entries<SensorParameter>, boot: bool, j: nat)
    requires DistinctKeys(params) && j <= |params|
    ensures NamesWhere(params, Keys(params)[j..], boot) == Keys(SensorSection.FilterByReboot(params[j..], boot))
    decreases |params| - j
  {
    if j < |params| {
      NamesAlign(params, boot, j + 1);
      GetAt(params, j);
      var ks, kept := Keys(params)[j..], SensorSection.FilterByReboot(params[j + 1..], boot);
      assert ks[0] == params[j].0 && ks[1..] == Keys(params)[j + 1..];
      assert params[j..][0] == params[j] && params[j..][1..] == params[j + 1..];
      if RequiresReboot(params[j].1) == boot {
        assert NamesWhere(params, ks, boot) == [params[j].0] + NamesWhere(params, ks[1..], boot);
        assert Keys([params[j]] + kept) == [params[j].0] + Keys(kept);
      } else {
        assert NamesWhere(params, ks, boot) == NamesWhere(params, ks[1..], boot);
      }
    }
  }

  /** The request's names are exactly the keys of the matching panel block, in the same order. */
  lemma NamesMatchPanel(params: Entries<SensorParameter>, boot: bool)
    requires DistinctKeys(params)
    ensures NamesWhere(params, Keys(params), boot) == Keys(SensorSection.FilterByReboot(params, boot))
  {
    NamesAlign(params, boot, 0);
    assert Keys(params)[0..] == Keys(params);
    assert params[0..] == params;
  }

  /** The i-th value is the stringified pending value of the i-th name. */
  ghost predicate ValuesMatch(values: seq<string>, names: seq<string>, pending: Entries<Value>) {
    && |values| == |names|
    && forall i :: 0 <= i < |names| ==>
         Get(pending, names[i]).Some? && values[i] == Stringify(Get(pending, names[i]).value)
  }

  lemma {:induction false} ValuesAlign(params: Entries<SensorParameter>, pending: Entries<Value>, boot: bool, j: nat)
    requires DistinctKeys(params) && Keys(pending) == Keys(params) && j <= |params|
    ensures ValuesWhere(params, pending[j..], boot).Ok?
    ensures ValuesMatch(ValuesWhere(params, pending[j..], boot).value,
                        Keys(SensorSection.FilterByReboot(params[j..], boot)), pending)
    decreases |params| - j
  {
    if j < |params| {
      ValuesAlign(params, pending, boot, j + 1);
      ValuesAlignStep(params, pending, boot, j);
    } else {
      assert pending[j..] == [] && params[j..] == [];
      assert SensorSection.FilterByReboot(params[j..], boot) == [];
    }
  }

  /** One entry further back: the entry at `j` is looked up, kept or dropped, and its text prepended. */
  lemma ValuesAlignStep(params: Entries<SensorParameter>, pending: Entries<Value>, boot: bool, j: nat)
    requires DistinctKeys(params) && Keys(pending) == Keys(params) && j < |params|
    requires ValuesWhere(params, pending[j + 1..], boot).Ok?
    requires ValuesMatch(ValuesWhere(params, pending[j + 1..], boot).value,
                         Keys(SensorSection.FilterByReboot(params[j + 1..], boot)), pending)
    ensures ValuesWhere(params, pending[j..], boot).Ok?
    ensures ValuesMatch(ValuesWhere(params, pending[j..], boot).value,
                        Keys(SensorSection.FilterByReboot(params[j..], boot)), pending)
  {
    var rest := ValuesWhere(params, pending[j + 1..], boot).value;
    assert pending[j..][0] == pending[j] && pending[j..][1..] == pending[j + 1..];
    assert params[j..][0] == params[j] && params[j..][1..] == params[j + 1..];
    assert Keys(pending)[j] == Keys(params)[j];
    GetAt(params, j);
    GetAt(pending, j);
    if RequiresReboot(params[j].1) == boot {
      assert ValuesWhere(params, pending[j..], boot) == Ok([Stringify(pending[j].1)] + rest);
      assert SensorSection.FilterByReboot(params[j..], boot)
          == [params[j]] + SensorSection.FilterByReboot(params[j + 1..], boot);
      KeptEntryMatches(params, pending, boot, j, rest);
    } else {
      assert ValuesWhere(params, pending[j..], boot) == Ok(rest);
      assert SensorSection.FilterByReboot(params[j..], boot) == SensorSection.FilterByReboot(params[j + 1..], boot);
    }
  }

  lemma KeptEntryMatches(params: Entries<SensorParameter>, pending: Entries<Value>, boot: bool, j: nat, rest: seq<string>)
    requires j < |params| && j < |pending| && pending[j].0 == params[j].0
    requires Get(pending, pending[j].0) == Some(pending[j].1)
    requires ValuesMatch(rest, Keys(SensorSection.FilterByReboot(params[j + 1..], boot)), pending)
    ensures ValuesMatch([Stringify(pending[j].1)] + rest,
                        Keys([params[j]] + SensorSection.FilterByReboot(params[j + 1..], boot)), pending)
  {
    var kept := SensorSection.FilterByReboot(params[j + 1..], boot);
    assert Keys([params[j]] + kept) == [params[j].0] + Keys(kept);
    ValuesMatchCons(Stringify(pending[j].1), params[j].0, rest, Keys(kept), pending);
  }

  /** Prepending a name and the text of its pending value keeps the values matching. */
  lemma ValuesMatchCons(v: string, name: string, rest: seq<string>, restNames: seq<string>, pending: Entries<Value>)
    requires Get(pending, name).Some? && v == Stringify(Get(pending, name).value)
    requires ValuesMatch(rest, restNames, pending)
    ensures ValuesMatch([v] + rest, [name] + restNames, pending)
  {
    var vs, names := [v] + rest, [name] + restNames;
    forall i | 0 <= i < |names|
      ensures Get(pending, names[i]).Some? && vs[i] == Stringify(Get(pending, names[i]).value)
    {
      if i > 0 {
        assert names[i] == restNames[i - 1] && vs[i] == rest[i - 1];
      }
    }
  }

  /**
   * While the pending buffer has exactly the sensor's keys, in the sensor's order, the
   * request is built without fault; its names are the keys of the matching panel block
   * and its i-th value is the stringified pending value of its i-th name.
   */
  lemma RequestCorrespondence(sensor: Sensor, pending: Entries<Value>, boot: bool)
    requires DistinctKeys(sensor.params) && Keys(pending) == Keys(sensor.params)
    ensures BuildUpdateRequest(sensor, pending, boot).Ok?
    ensures var req := BuildUpdateRequest(sensor, pending, boot).value;
      && req.sensorName == sensor.name
      && req.paramNames == Keys(SensorSection.FilterByReboot(sensor.params, boot))
      && |req.newValues| == |req.paramNames|
      && forall i :: 0 <= i < |req.paramNames| ==>
           Get(pending, req.paramNames[i]).Some? && req.newValues[i] == Stringify(Get(pending, req.paramNames[i]).value)
  {
    ValuesAlign(sensor.params, pending, boot, 0);
    assert pending[0..] == pending;
    assert sensor.params[0..] == sensor.params;
    NamesMatchPanel(sensor.params, boot);
  }

  /** While the pending buffer matches the sensor, building a request never throws. */
  lemma MatchingBufferBuilds(sensor: Sensor, pending: Entries<Value>, boot: bool)
    requires DistinctKeys(sensor.params) && Keys(pending) == Keys(sensor.params)
    ensures BuildUpdateRequest(sensor, pending, boot).Ok?
  {
    RequestCorrespondence(sensor, pending, boot);
  }

  /** The live and reboot requests name disjoint parameters that together cover the sensor. */
  lemma RequestsSplitParams(sensor: Sensor, pending: Entries<Value>)
    requires DistinctKeys(sensor.params) && Keys(pending) == Keys(sensor.params)
    ensures var live := BuildUpdateRequest(sensor, pending, false).value.paramNames;
      var boot := BuildUpdateRequest(sensor, pending, true).value.paramNames;
      && (forall k :: k in live ==> k !in boot)
      && (forall k :: k in Keys(sensor.params) <==> k in live || k in boot)
  {
    RequestCorrespondence(sensor, pending, false);
    RequestCorrespondence(sensor, pending, true);
    SensorSection.Partition(Some(sensor));
    SensorSection.BlocksCoverKeys(sensor.params);
  }
}
