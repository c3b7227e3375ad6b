/**
 * custom_components/airthingswave/device.py: a `WaveDevice` holds the state
 * dictionary of one sensor and the listeners to notify on every message, and a
 * `WaveEntity` mirrors that state for Home Assistant.
 */
module Device {

  import opened Wrappers
  import opened States

  /** The `device_info` dictionary discovery builds for a new device. */
  datatype DeviceInfo = DeviceInfo(
    configEntryId: string,
    identifiers: set<(string, string)>,
    manufacturer: string,
    model: Option<string>,
    name: string)

  /** One `hass.async_add_job(listener, state)` call made by `__on_state_update`. */
  datatype Job = Job(listener: WaveEntity, state: State)

  /** The jobs that notify each of `listeners`, in list order, with `state`. */
  function Jobs(listeners: seq<WaveEntity>, state: State): (r: seq<Job>)
  {
    seq(|listeners|, i requires 0 <= i < |listeners| => Job(listeners[i], state))
  }

  /**
   * The state after `receive_message(attr, msg)`: a `sample` whose payload decodes
   * is merged in with `dict.update`; an undecodable sample, `error` and every
   * other attribute leave it as it was.
   */
  function AfterMessage(s: State, attr: string, payload: Option<State>): (r: State)
    ensures s.Keys <= r.Keys
    ensures attr == "sample" && payload.Some? ==>
      && (forall k | k in payload.value :: k in r && r[k] == payload.value[k])
      && (forall k | k in s && k !in payload.value :: r[k] == s[k])
      && r.Keys == s.Keys + payload.value.Keys
    ensures attr != "sample" || payload.None? ==> r == s
  {
    if attr == "sample" && payload.Some? then Update(s, payload.value) else s
  }

  /**
   * `_expires_at` derived from a state: `None` when the state has no `expires_at`
   * key; otherwise `toTimestamp` of its value, which stands for
   * `datetime.fromisoformat(v).timestamp()` and is `None` where that raises
   * `ValueError`.
   */
  function ExpiresAt(s: State, toTimestamp: Value -> Option<int>): (r: Option<int>)
    ensures "expires_at" !in s ==> r.None?
    ensures "expires_at" in s ==> r == toTimestamp(s["expires_at"])
  {
    if "expires_at" in s then toTimestamp(s["expires_at"]) else None
  }

  class WaveDevice {
    const deviceInfo: DeviceInfo
    const waveId: string
    /** `__state`: attribute name to the last value received. */
    var state: State
    /** `__update_listeners`, in registration order. */
    var listeners: seq<WaveEntity>

    constructor (deviceInfo: DeviceInfo, waveId: string)
      ensures this.deviceInfo == deviceInfo && this.waveId == waveId
      ensures state == map[] && listeners == []
    {
      this.deviceInfo := deviceInfo;
      this.waveId := waveId;
      state := map[];
      listeners := [];
    }

    /** `add_update_listener`: append, without removing duplicates. */
    method AddUpdateListener(listener: WaveEntity)
      modifies this`listeners
      ensures listeners == old(listeners) + [listener]
    {
      listeners := listeners + [listener];
    }

    /** `__handle_sample`: merge a decoded sample; a decode error leaves the state alone. */
    method HandleSample(msg: Message)
      modifies this`state
      ensures state == AfterMessage(old(state), "sample", msg.payload)
    {
      if msg.payload.None? {
        // logger.exception("received invalid sample")
        return;
      }
      state := Update(state, msg.payload.value);
    }

    /**
     * `receive_message`: handle the attribute, then notify every listener with
     * the state, whatever the attribute was and whether the payload decoded.
     */
    method ReceiveMessage(attr: string, msg: Message) returns (notified: seq<Job>)
      modifies this, listeners
      ensures state == AfterMessage(old(state), attr, msg.payload)
      ensures listeners == old(listeners)
      ensures notified == Jobs(listeners, state)
      ensures forall l | l in listeners :: l.state == state && l.Valid()
    {
      if attr == "sample" {
        HandleSample(msg);
      } else if attr == "error" {
        // logger.error("received error for device")
      } else {
        // logger.warning("unknown attribute")
      }
      notified := OnStateUpdate();
    }

    /**
     * `__on_state_update`: one job per listener, in registration order, each
     * handing the listener the device's state; every job runs to completion.
     */
    method OnStateUpdate() returns (notified: seq<Job>)
      modifies listeners
      ensures notified == Jobs(listeners, state)
      ensures forall l | l in listeners :: l.state == state && l.Valid()
    {
      notified := [];
      for i := 0 to |listeners|
        invariant |notified| == i
        invariant forall k | 0 <= k < i :: notified[k] == Job(listeners[k], state)
        invariant forall k | 0 <= k < i :: listeners[k].state == state && listeners[k].Valid()
      {
        notified := notified + [Job(listeners[i], state)];
        listeners[i].OnStateUpdate(state);
      }
    }
  }

  class WaveEntity {
    const device: WaveDevice
    /** The library conversion `datetime.fromisoformat(v).timestamp()`. */
    const toTimestamp: Value -> Option<int>
    /** `_state`: the entity's view of its device's state. */
    var state: State
    /** `_expires_at`. */
    var expiresAt: Option<int>

    ghost predicate Valid()
      reads this
    {
      expiresAt == ExpiresAt(state, toTimestamp)
    }

    /** `WaveEntity(device)`: copy the device's state and register as its listener. */
    constructor (device: WaveDevice, toTimestamp: Value -> Option<int>)
      modifies device
      ensures this.device == device && Valid()
      ensures state == old(device.state)
      ensures device.state == old(device.state)
      ensures device.listeners == old(device.listeners) + [this]
    {
      this.device := device;
      this.toTimestamp := toTimestamp;
      state := device.state;
      expiresAt := ExpiresAt(device.state, toTimestamp);
      new;
      device.AddUpdateListener(this);
    }

    /** The entity name, `"Wave " + wave_id`. */
    function Name(): (r: string)
      ensures |r| == 5 + |device.waveId| && r[..5] == "Wave " && r[5..] == device.waveId
    {
      "Wave " + device.waveId
    }

    /** `available` at wall-clock time `now`. */
    function Available(now: int): (r: bool)
      reads this
      ensures expiresAt.None? ==> r
    {
      expiresAt.None? || now < expiresAt.value
    }

    /** `__update_state`: recompute `_expires_at` from the current state. */
    method UpdateState()
      modifies this`expiresAt
      ensures Valid()
    {
      expiresAt := ExpiresAt(state, toTimestamp);
    }

    /** `on_state_update`: adopt the device's state and recompute `_expires_at`. */
    method OnStateUpdate(s: State)
      modifies this
      ensures state == s && Valid()
    {
      state := s;
      UpdateState();
    }
  }

  /** An entity whose state has no `expires_at` key is available at every time. */
  lemma AvailableWithoutExpiry(e: WaveEntity, now: int)
    requires e.Valid() && "expires_at" !in e.state
    ensures e.expiresAt == None && e.Available(now)
  {
  }
}
