/**
 * custom_components/airthingswave/air_quality.py: a Home Assistant air-quality
 * entity over a Wave's state, exposing a few of its keys.
 */
module AirQuality {

  import opened Wrappers
  import opened States
  import opened Device

  /**
   * `select_keys(d, *keys)`: a new dictionary holding the requested keys that
   * `d` has, with `d`'s values; a requested key `d` lacks is skipped.
   */
  method SelectKeys(d: State, keys: seq<string>) returns (r: State)
    ensures forall k :: k in r <==> k in keys && k in d
    ensures forall k | k in r :: r[k] == d[k]
  {
    r := map[];
    for i := 0 to |keys|
      invariant forall k :: k in r <==> k in keys[..i] && k in d
      invariant forall k | k in r :: r[k] == d[k]
    {
      assert keys[..i + 1] == keys[..i] + [keys[i]];
      var value := Get(d, keys[i]);
      if value.Some? {
        r := r[keys[i] := value.value];
      }
    }
    assert keys[..|keys|] == keys;
  }

  /** The keys `device_state_attributes` passes to `select_keys`. */
  const AttributeKeys: seq<string> := ["humidity", "pressure", "radon_long", "temperature"]

  /** `WaveAirQuality`: a `WaveEntity` presented as an air-quality entity. */
  class WaveAirQuality {
    /** The `WaveEntity` part: the entity registered with the device. */
    const entity: WaveEntity

    /** `WaveAirQuality(device)`: the `WaveEntity` constructor. */
    constructor (device: WaveDevice, toTimestamp: Value -> Option<int>)
      modifies device
      ensures fresh(entity)
      ensures entity.device == device && entity.Valid() && entity.state == old(device.state)
      ensures device.state == old(device.state)
      ensures device.listeners == old(device.listeners) + [entity]
    {
      entity := new WaveEntity(device, toTimestamp);
    }

    /**
     * `device_state_attributes`: the humidity, pressure, long-term radon and
     * temperature entries of the entity's state, those it has and nothing else;
     * in particular none of the readings the entity exposes elsewhere: the
     * short-term radon value (its state), `co2` and `voc`.
     */
    method DeviceStateAttributes() returns (r: State)
      ensures forall k :: k in r <==> k in AttributeKeys && k in entity.state
      ensures forall k | k in r :: r[k] == entity.state[k]
      ensures "radon_short" !in r && "co2" !in r && "voc" !in r
    {
      r := SelectKeys(entity.state, AttributeKeys);
    }

    /** `state`: the short-term radon value, if the state has one. */
    function State(): (r: Option<Value>)
      reads entity
      ensures r.Some? <==> "radon_short" in entity.state
      ensures r.Some? ==> r.value == entity.state["radon_short"]
    {
      Get(entity.state, "radon_short")
    }

    /** `carbon_dioxide`: the `co2` value, if the state has one. */
    function CarbonDioxide(): (r: Option<Value>)
      reads entity
      ensures r.Some? <==> "co2" in entity.state
      ensures r.Some? ==> r.value == entity.state["co2"]
    {
      Get(entity.state, "co2")
    }

    /** `volatile_organic_compounds`: the `voc` value, if the state has one. */
    function VolatileOrganicCompounds(): (r: Option<Value>)
      reads entity
      ensures r.Some? <==> "voc" in entity.state
      ensures r.Some? ==> r.value == entity.state["voc"]
    {
      Get(entity.state, "voc")
    }

    /** `particulate_matter_2_5`: a Wave does not report it. */
    function ParticulateMatter25(): (r: Option<Value>)
      ensures r.None?
    {
      None
    }

    /** `particulate_matter_10`: a Wave does not report it. */
    function ParticulateMatter10(): (r: Option<Value>)
      ensures r.None?
    {
      None
    }
  }
}
