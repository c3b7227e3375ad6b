/**
 * custom_components/airthingswave/sensor.py: the fixed table of sensor kinds a
 * Wave can report, and one Home Assistant sensor per kind that a device's
 * state actually carries.
 */
module Sensor {

  import opened Wrappers
  import opened States
  import opened Strings
  import opened Device

  /** One row of `SENSORS`: the state key it shows and its display metadata. */
  datatype SensorInfo = SensorInfo(
    id: string,
    icon: Option<string>,
    unitOfMeasurement: Option<string>,
    deviceClass: Option<string>)
  {
    /**
     * `name()`: the id with `_` replaced by a space, title-cased. It is as long
     * as the id, has no `_`, and has a space exactly where the id has a `_` or
     * a space.
     */
    function Name(): (r: string)
      ensures |r| == |id|
      ensures '_' !in r
      ensures forall i | 0 <= i < |id| :: r[i] == ' ' <==> id[i] == '_' || id[i] == ' '
      ensures forall i | 0 <= i < |id| && (i == 0 || id[i - 1] == '_') && id[i] != '_' :: r[i] == Upper(id[i])
    {
      Title(Replace(id, '_', ' '))
    }
  }

  /** `SENSORS`, in declaration order. */
  const Sensors: seq<SensorInfo> := [
    SensorInfo("humidity", Some("mdi:water-percent"), Some("%"), Some("humidity")),
    SensorInfo("light_level", Some("mdi:lightbulb"), Some("lm"), Some("illuminance")),
    SensorInfo("short_term_radon", Some("mdi:radioactive"), Some("Bq/m3"), None),
    SensorInfo("long_term_radon", Some("mdi:radioactive"), Some("Bq/m3"), None),
    SensorInfo("temperature", Some("mdi:thermometer"), Some("\U{00C2}\U{00B0}C"), Some("temperature")),
    SensorInfo("pressure", Some("mdi:percent"), Some("mbar"), Some("pressure")),
    SensorInfo("co2", Some("mdi:molecule-co2"), Some("ppm"), None),
    SensorInfo("voc", Some("mdi:air-filter"), Some("ppb"), None)
  ]

  /** No two rows of `table` share an id. */
  ghost predicate DistinctIds(table: seq<SensorInfo>)
  {
    forall i, j | 0 <= i < j < |table| :: table[i].id != table[j].id
  }

  /** The ids of the rows of `SENSORS`, in order. */
  lemma SensorIds()
    ensures |Sensors| == 8
    ensures Sensors[0].id == "humidity" && Sensors[1].id == "light_level"
    ensures Sensors[2].id == "short_term_radon" && Sensors[3].id == "long_term_radon"
    ensures Sensors[4].id == "temperature" && Sensors[5].id == "pressure"
    ensures Sensors[6].id == "co2" && Sensors[7].id == "voc"
  {
  }

  /** The ids of `SENSORS` are pairwise distinct. */
  lemma SensorIdsDistinct()
    ensures DistinctIds(Sensors)
  {
    SensorIds();
    forall i, j | 0 <= i < j < |Sensors|
      ensures Sensors[i].id != Sensors[j].id
    {
      assert |Sensors[i].id| != |Sensors[j].id| || Sensors[i].id[0] != Sensors[j].id[0];
    }
  }

  /** No id of `SENSORS` contains `-`, so a unique id can be split back into serial and row id. */
  lemma SensorIdsUndashed()
    ensures forall i | 0 <= i < |Sensors| :: '-' !in Sensors[i].id
  {
    SensorIds();
  }

  /** `co2` is shown as `Co2`: the digit after a letter is left as it is. */
  lemma Co2Name()
    ensures Sensors[6].Name() == "Co2"
  {
    SensorIds();
    var t := Replace("co2", '_', ' ');
    assert t == "co2";
    var r := Title(t);
    assert r[0] == 'C' && r[1] == 'o' && r[2] == '2';
  }

  /** The rows of `table` whose id is a key of `state`, in table order. */
  function Selected(table: seq<SensorInfo>, state: State): (r: seq<SensorInfo>)
    ensures |r| <= |table|
  {
    if table == [] then []
    else
      var n := |table| - 1;
      Selected(table[..n], state) + (if table[n].id in state then [table[n]] else [])
  }

  /** The positions of the rows of `table` whose id is a key of `state`, ascending. */
  ghost function KeptIndices(table: seq<SensorInfo>, state: State): (idx: seq<int>)
    ensures forall k, l | 0 <= k < l < |idx| :: idx[k] < idx[l]
    ensures forall k | 0 <= k < |idx| :: 0 <= idx[k] < |table|
    ensures forall p | 0 <= p < |table| :: p in idx <==> table[p].id in state
  {
    if table == [] then []
    else
      var n := |table| - 1;
      KeptIndices(table[..n], state) + (if table[n].id in state then [n] else [])
  }

  /**
   * `Selected` keeps exactly the rows at `KeptIndices`, in that order: it is
   * the subsequence of the table whose ids are in the state.
   */
  lemma {:induction false} SelectedInOrder(table: seq<SensorInfo>, state: State)
    ensures |Selected(table, state)| == |KeptIndices(table, state)|
    ensures forall k | 0 <= k < |Selected(table, state)| ::
      Selected(table, state)[k] == table[KeptIndices(table, state)[k]]
  {
    if table != [] {
      var n := |table| - 1;
      var front := table[..n];
      SelectedInOrder(front, state);
      var r, idx := Selected(table, state), KeptIndices(table, state);
      var rf, idxf := Selected(front, state), KeptIndices(front, state);
      assert r == rf + (if table[n].id in state then [table[n]] else []);
      assert idx == idxf + (if table[n].id in state then [n] else []);
      forall k | 0 <= k < |r|
        ensures r[k] == table[idx[k]]
      {
        if k < |rf| {
          assert r[k] == rf[k] && idx[k] == idxf[k];
          assert front[idxf[k]] == table[idxf[k]];
        }
      }
    }
  }

  /** A row is selected exactly when it is in the table and its id is in the state. */
  lemma SelectedMembers(table: seq<SensorInfo>, state: State, s: SensorInfo)
    ensures s in Selected(table, state) <==> s in table && s.id in state
  {
    SelectedInOrder(table, state);
    var r, idx := Selected(table, state), KeptIndices(table, state);
    if s in r {
      var k :| 0 <= k < |r| && r[k] == s;
      assert idx[k] in idx;
    }
    if s in table && s.id in state {
      var p :| 0 <= p < |table| && table[p] == s;
      var k :| 0 <= k < |idx| && idx[k] == p;
      assert r[k] == s;
    }
  }

  /** Selecting from a table with distinct ids yields distinct ids. */
  lemma SelectedDistinct(table: seq<SensorInfo>, state: State)
    requires DistinctIds(table)
    ensures DistinctIds(Selected(table, state))
  {
    SelectedInOrder(table, state);
    var r, idx := Selected(table, state), KeptIndices(table, state);
    forall i, j | 0 <= i < j < |r|
      ensures r[i].id != r[j].id
    {
      assert r[i] == table[idx[i]] && r[j] == table[idx[j]] && idx[i] < idx[j];
    }
  }

  /** `create_sensors` makes at most eight sensors, no two for the same row or id. */
  lemma CreatedSensorsBounded(state: State)
    ensures |Selected(Sensors, state)| <= 8
    ensures DistinctIds(Selected(Sensors, state))
  {
    SensorIds();
    SensorIdsDistinct();
    SelectedDistinct(Sensors, state);
  }

  /** `"<wave_id>-<sensor id>"`. */
  function UniqueIdOf(waveId: string, sensorId: string): (r: string)
    ensures |r| == |waveId| + 1 + |sensorId|
    ensures r[..|waveId|] == waveId && r[|waveId|] == '-' && r[|waveId| + 1..] == sensorId
  {
    waveId + "-" + sensorId
  }

  /**
   * A unique id determines the device serial and the sensor id when the sensor
   * id has no `-`, which `SensorIdsUndashed` proves for every row of `SENSORS`; the serial may
   * contain `-`.
   */
  lemma UniqueIdInjective(w1: string, s1: string, w2: string, s2: string)
    requires '-' !in s1 && '-' !in s2
    requires UniqueIdOf(w1, s1) == UniqueIdOf(w2, s2)
    ensures w1 == w2 && s1 == s2
  {
    var r := UniqueIdOf(w1, s1);
    assert |s1| == |s2| by {
      assert r[|w1|] == '-' && r[|w2|] == '-';
    }
    assert s1 == r[|w1| + 1..] == s2;
  }

  /** `WaveAttrSensor`: a `WaveEntity` that shows one row of `SENSORS`. */
  class WaveAttrSensor {
    /** The `WaveEntity` part: the entity registered with the device. */
    const entity: WaveEntity
    /** `_sensor`. */
    const sensor: SensorInfo

    /** `WaveAttrSensor(device, sensor)`: the `WaveEntity` constructor, then store the row. */
    constructor (device: WaveDevice, sensor: SensorInfo, toTimestamp: Value -> Option<int>)
      modifies device
      ensures this.sensor == sensor && fresh(entity)
      ensures entity.device == device && entity.Valid() && entity.state == old(device.state)
      ensures device.state == old(device.state)
      ensures device.listeners == old(device.listeners) + [entity]
    {
      this.sensor := sensor;
      entity := new WaveEntity(device, toTimestamp);
    }

    /** `unique_id`: the device serial, `-`, the row id. */
    function UniqueId(): (r: string)
      ensures r == UniqueIdOf(entity.device.waveId, sensor.id)
    {
      UniqueIdOf(entity.device.waveId, sensor.id)
    }

    /** `name`: the entity name `Wave <serial>`, a space, the row's display name. */
    function Name(): (r: string)
      ensures r == "Wave " + entity.device.waveId + " " + sensor.Name()
      ensures |r| == 6 + |entity.device.waveId| + |sensor.id|
    {
      entity.Name() + " " + sensor.Name()
    }

    /** `state`: the entity's value for the row id, if it has one. */
    function State(): (r: Option<Value>)
      reads entity
      ensures r.Some? <==> sensor.id in entity.state
      ensures r.Some? ==> r.value == entity.state[sensor.id]
    {
      Get(entity.state, sensor.id)
    }
  }

  /** Two sensors of `SENSORS` rows share a unique id only if they share serial and row id. */
  lemma UniqueIdsDistinct(a: WaveAttrSensor, b: WaveAttrSensor)
    requires '-' !in a.sensor.id && '-' !in b.sensor.id
    requires a.entity.device.waveId != b.entity.device.waveId || a.sensor.id != b.sensor.id
    ensures a.UniqueId() != b.UniqueId()
  {
    if a.UniqueId() == b.UniqueId() {
      UniqueIdInjective(a.entity.device.waveId, a.sensor.id, b.entity.device.waveId, b.sensor.id);
    }
  }

  /** The entities of `sensors`, in order: what each registered with its device. */
  function Entities(sensors: seq<WaveAttrSensor>): (r: seq<WaveEntity>)
    ensures |r| == |sensors|
    ensures forall k | 0 <= k < |sensors| :: r[k] == sensors[k].entity
  {
    if sensors == [] then [] else Entities(sensors[..|sensors| - 1]) + [sensors[|sensors| - 1].entity]
  }

  /** No sensor object occurs twice in `sensors`. */
  ghost predicate Distinct(sensors: seq<WaveAttrSensor>)
  {
    forall i, j | 0 <= i < j < |sensors| :: sensors[i] != sensors[j]
  }

  lemma AppendDistinct(sensors: seq<WaveAttrSensor>, s: WaveAttrSensor)
    requires Distinct(sensors) && s !in sensors
    ensures Distinct(sensors + [s])
  {
  }

  /** `s` shows `row` on `device` and holds the entity state `st`, with `_expires_at` in step. */
  ghost predicate Shows(s: WaveAttrSensor, row: SensorInfo, device: WaveDevice, st: State)
    reads s.entity
  {
    s.sensor == row && s.entity.device == device && s.entity.state == st && s.entity.Valid()
  }

  /**
   * The loop of `create_sensors` over an arbitrary table: one new sensor,
   * registered with the device, for each row whose id is a key of the device
   * state, in table order.
   */
  method CreateSensorsFrom(device: WaveDevice, table: seq<SensorInfo>, toTimestamp: Value -> Option<int>)
    returns (sensors: seq<WaveAttrSensor>)
    modifies device
    ensures |sensors| == |Selected(table, old(device.state))|
    ensures forall k | 0 <= k < |sensors| ::
      && fresh(sensors[k]) && fresh(sensors[k].entity)
      && Shows(sensors[k], Selected(table, old(device.state))[k], device, device.state)
    ensures Distinct(sensors)
    ensures device.state == old(device.state)
    ensures device.listeners == old(device.listeners) + Entities(sensors)
  {
    ghost var st := device.state;
    sensors := [];
    for i := 0 to |table|
      invariant device.state == st
      invariant |sensors| == |Selected(table[..i], st)|
      invariant forall k | 0 <= k < |sensors| ::
        && fresh(sensors[k]) && fresh(sensors[k].entity)
        && Shows(sensors[k], Selected(table[..i], st)[k], device, st)
      invariant Distinct(sensors)
      invariant device.listeners == old(device.listeners) + Entities(sensors)
    {
      ghost var selected := Selected(table[..i], st);
      assert table[..i + 1][..i] == table[..i];
      assert Selected(table[..i + 1], st) == selected + (if table[i].id in st then [table[i]] else []);
      if table[i].id in device.state {
        var s := new WaveAttrSensor(device, table[i], toTimestamp);
        AppendDistinct(sensors, s);
        assert (sensors + [s])[..|sensors|] == sensors;
        assert Entities(sensors + [s]) == Entities(sensors) + [s.entity];
        sensors := sensors + [s];
      }
    }
    assert table[..|table|] == table;
  }

  /** `create_sensors(device)`: the loop above over `SENSORS`. */
  method CreateSensors(device: WaveDevice, toTimestamp: Value -> Option<int>)
    returns (sensors: seq<WaveAttrSensor>)
    modifies device
    ensures |sensors| == |Selected(Sensors, old(device.state))|
    ensures forall k | 0 <= k < |sensors| ::
      && fresh(sensors[k]) && fresh(sensors[k].entity)
      && Shows(sensors[k], Selected(Sensors, old(device.state))[k], device, device.state)
    ensures Distinct(sensors)
    ensures device.state == old(device.state)
    ensures device.listeners == old(device.listeners) + Entities(sensors)
  {
    sensors := CreateSensorsFrom(device, Sensors, toTimestamp);
  }
}
