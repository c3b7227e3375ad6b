/**
 * custom_components/airthingswave/discovery.py: the handler of the `wave/#`
 * subscription. It splits each topic into serial number and attribute, finds or
 * creates the `WaveDevice` for the serial and forwards the message to it.
 */
module Discovery {

  import opened Wrappers
  import opened States
  import opened Strings
  import opened Device

  /** `_SN_MODEL_MAP`, entry by entry: the first four digits of a serial number name the model. */
  const SnModelMap: seq<(string, string)> := [
    ("2900", "Wave"),
    ("2920", "Wave Mini"),
    ("2930", "Wave Plus"),
    ("2950", "Wave 2nd gen")]

  /** The dictionary lookup `entries.get(key)`; keys occur once, so the first match is the entry. */
  function Lookup(entries: seq<(string, string)>, key: string): (r: Option<string>)
    ensures r.None? <==> forall i | 0 <= i < |entries| :: entries[i].0 != key
    ensures r.Some? ==> (key, r.value) in entries
  {
    if entries == [] then None
    else if entries[0].0 == key then Some(entries[0].1)
    else Lookup(entries[1..], key)
  }

  /** `model_from_serial_number`: look up `sn[:4]`, which is all of `sn` when it is shorter. */
  function ModelFromSerialNumber(sn: string): (r: Option<string>)
    ensures r.Some? ==> |sn| >= 4 && (sn[..4], r.value) in SnModelMap
  {
    var prefix := if |sn| <= 4 then sn else sn[..4];
    assert forall i | 0 <= i < |SnModelMap| :: |SnModelMap[i].0| == 4;
    assert |sn| == 4 ==> sn[..4] == sn;
    Lookup(SnModelMap, prefix)
  }

  /**
   * A serial names a model exactly when its first four characters are one of
   * the four known prefixes, and then the model listed for that prefix; a
   * serial shorter than four characters names none.
   */
  lemma ModelFromSerialNumberSpec(sn: string)
    ensures ModelFromSerialNumber(sn).Some? <==> |sn| >= 4 && sn[..4] in {"2900", "2920", "2930", "2950"}
    ensures |sn| >= 4 && sn[..4] == "2900" ==> ModelFromSerialNumber(sn) == Some("Wave")
    ensures |sn| >= 4 && sn[..4] == "2920" ==> ModelFromSerialNumber(sn) == Some("Wave Mini")
    ensures |sn| >= 4 && sn[..4] == "2930" ==> ModelFromSerialNumber(sn) == Some("Wave Plus")
    ensures |sn| >= 4 && sn[..4] == "2950" ==> ModelFromSerialNumber(sn) == Some("Wave 2nd gen")
  {
    var prefix := if |sn| <= 4 then sn else sn[..4];
    assert |sn| < 4 ==> |prefix| < 4;
    assert |sn| >= 4 ==> prefix == sn[..4];
  }

  /** The three parts of `topic.split("/", 2)`. */
  datatype Topic = Topic(namespace: string, serial: string, attr: string)

  /** The topic the three parts come from. */
  function JoinTopic(t: Topic): string
  {
    t.namespace + "/" + t.serial + "/" + t.attr
  }

  /**
   * `_, sn, attr = topic.split("/", 2)`: `None` where the unpacking raises
   * `ValueError`, that is, where the split yields fewer than three parts.
   */
  function SplitTopic(topic: string): (r: Option<Topic>)
    ensures r.Some? ==>
      && '/' !in r.value.namespace && '/' !in r.value.serial
      && topic == JoinTopic(r.value)
  {
    match IndexOf(topic, '/')
    case None => None
    case Some(i) =>
      var rest := topic[i + 1..];
      match IndexOf(rest, '/')
      case None => None
      case Some(j) =>
        JoinAt(rest, j);
        JoinAt(topic, i);
        JoinAssoc(topic[..i], rest[..j], rest[j + 1..]);
        Some(Topic(topic[..i], rest[..j], rest[j + 1..]))
  }

  lemma JoinAt(s: string, i: nat)
    requires i < |s| && s[i] == '/'
    ensures s == s[..i] + "/" + s[i + 1..]
  {
    assert s == s[..i] + [s[i]] + s[i + 1..];
  }

  lemma JoinAssoc(a: string, b: string, c: string)
    ensures a + "/" + (b + "/" + c) == JoinTopic(Topic(a, b, c))
  {
  }

  lemma CountAround(s: string, i: nat)
    requires i < |s|
    ensures Count(s, '/') == Count(s[..i], '/') + (if s[i] == '/' then 1 else 0) + Count(s[i + 1..], '/')
  {
    assert s == s[..i] + ([s[i]] + s[i + 1..]);
    CountConcat(s[..i], [s[i]] + s[i + 1..], '/');
    CountConcat([s[i]], s[i + 1..], '/');
  }

  /** The split succeeds exactly when the topic has at least two `/`. */
  lemma SplitTopicDefined(topic: string)
    ensures SplitTopic(topic).Some? <==> Count(topic, '/') >= 2
  {
    match IndexOf(topic, '/')
    case None =>
      CountAbsent(topic, '/');
    case Some(i) =>
      var rest := topic[i + 1..];
      CountAround(topic, i);
      CountAbsent(topic[..i], '/');
      match IndexOf(rest, '/') {
        case None =>
          CountAbsent(rest, '/');
        case Some(j) =>
          CountAround(rest, j);
      }
  }

  /** A `/` with none before it is the one `IndexOf` finds. */
  lemma FirstSeparator(s: string, i: nat)
    requires i < |s| && s[i] == '/' && '/' !in s[..i]
    ensures IndexOf(s, '/') == Some(i)
  {
    assert s[..i + 1][i] == '/';
  }

  /**
   * Splitting undoes joining: the serial is the text between the first and the
   * second `/`, the attribute everything after the second (empty, or holding
   * more `/`), and the first segment can be anything without a `/`.
   */
  lemma SplitTopicJoin(namespace: string, serial: string, attr: string)
    requires '/' !in namespace && '/' !in serial
    ensures SplitTopic(JoinTopic(Topic(namespace, serial, attr))) == Some(Topic(namespace, serial, attr))
  {
    var rest := serial + "/" + attr;
    var topic := JoinTopic(Topic(namespace, serial, attr));
    JoinAssoc(namespace, serial, attr);
    assert topic == namespace + "/" + rest;
    assert topic[|namespace|] == '/' && topic[..|namespace|] == namespace && topic[|namespace| + 1..] == rest;
    FirstSeparator(topic, |namespace|);
    assert rest[|serial|] == '/' && rest[..|serial|] == serial && rest[|serial| + 1..] == attr;
    FirstSeparator(rest, |serial|);
  }

  /** The `device_info` `__setup_new_device` builds for serial `sn`. */
  function DeviceInfoFor(entryId: string, domain: string, sn: string): (r: DeviceInfo)
    ensures r.configEntryId == entryId && r.manufacturer == "Airthings AS"
    ensures r.identifiers == {(domain, sn)} && r.name == "Wave " + sn
    ensures r.model == ModelFromSerialNumber(sn)
    ensures r.model.Some? ==> |sn| >= 4
  {
    DeviceInfo(
      configEntryId := entryId,
      identifiers := {(domain, sn)},
      manufacturer := "Airthings AS",
      model := ModelFromSerialNumber(sn),
      name := "Wave " + sn)
  }

  /** The device info of two serials share an identifier only if the serials are equal. */
  lemma DeviceInfoIdentifies(entryId: string, domain: string, sn1: string, sn2: string)
    requires DeviceInfoFor(entryId, domain, sn1).identifiers * DeviceInfoFor(entryId, domain, sn2).identifiers != {}
    ensures sn1 == sn2
  {
    var x :| x in DeviceInfoFor(entryId, domain, sn1).identifiers * DeviceInfoFor(entryId, domain, sn2).identifiers;
    assert x == (domain, sn1) && x == (domain, sn2);
  }

  /**
   * A registry keyed by serial, and the devices signalled as new in send
   * order. `inherited` are the serials the registry already held when the
   * handler was created. Every device is stored under its own serial, every
   * signalled device is the one registered under its serial, no serial is
   * signalled twice, and every registered device that was not inherited was
   * signalled.
   */
  ghost predicate Registry(m: map<string, WaveDevice>, signals: seq<WaveDevice>, inherited: set<string>)
  {
    && inherited <= m.Keys
    && (forall sn | sn in m :: m[sn].waveId == sn)
    && (forall i, j | 0 <= i < j < |signals| :: signals[i].waveId != signals[j].waveId)
    && (forall i | 0 <= i < |signals| ::
          signals[i].waveId in m && signals[i].waveId !in inherited && m[signals[i].waveId] == signals[i])
    && (forall sn | sn in m && sn !in inherited :: m[sn] in signals)
  }

  /** Registering and signalling a device under a serial not yet known keeps the registry consistent. */
  lemma RegisterNew(m: map<string, WaveDevice>, signals: seq<WaveDevice>, inherited: set<string>, sn: string, dev: WaveDevice)
    requires Registry(m, signals, inherited) && sn !in m && dev.waveId == sn
    ensures Registry(m[sn := dev], signals + [dev], inherited)
  {
    var m', signals' := m[sn := dev], signals + [dev];
    forall i | 0 <= i < |signals|
      ensures signals'[i].waveId != sn && m'[signals'[i].waveId] == signals'[i]
    {
      assert signals'[i] == signals[i];
    }
  }

  class DiscoveryHandler {
    /** `config_entry.entry_id`. */
    const entryId: string
    /** The integration's `DOMAIN`. */
    const domain: string
    /** The integration's `PLATFORMS`. */
    const platforms: seq<string>
    /**
     * `hass_data[KEY_DEVICES]`: absent until `_devices` is first read, unless a
     * handler set up earlier for the integration created it.
     */
    var devices: Option<map<string, WaveDevice>>
    /** The serials `hass_data[KEY_DEVICES]` already held when this handler was created. */
    ghost const inherited: set<string>
    /** `_platforms_setup`. */
    var platformsSetup: bool
    /** The platforms passed to `async_forward_entry_setup`, in call order. */
    var forwardedPlatforms: seq<string>
    /** The devices sent with the new-device signal, in send order. */
    var newDeviceSignals: seq<WaveDevice>

    /** The registry as `_devices` would return it. */
    function DeviceMap(): map<string, WaveDevice>
      reads this
    {
      if devices.Some? then devices.value else map[]
    }

    function KnownDevices(): set<WaveDevice>
      reads this
    {
      DeviceMap().Values
    }

    /** The listeners of the registered devices: what forwarding a message may update. */
    ghost function ListenerFrame(): (r: set<WaveEntity>)
      reads this, KnownDevices()
      ensures forall d, i | d in KnownDevices() && 0 <= i < |d.listeners| :: d.listeners[i] in r
    {
      set d, i | d in KnownDevices() && 0 <= i < |d.listeners| :: d.listeners[i]
    }

    /**
     * Every registered device is stored under its own serial, and the ones this
     * handler created carry the device info built for them; the platforms were
     * forwarded exactly once if they are marked set up and not at all
     * otherwise, and before any device was signalled; the new-device signals
     * name precisely the devices this handler registered, one per serial.
     */
    ghost predicate Valid()
      reads this
    {
      && Registry(DeviceMap(), newDeviceSignals, inherited)
      && (forall sn | sn in DeviceMap() && sn !in inherited ::
            DeviceMap()[sn].deviceInfo == DeviceInfoFor(entryId, domain, sn))
      && forwardedPlatforms == (if platformsSetup then platforms else [])
      && (newDeviceSignals != [] ==> platformsSetup)
    }

    /**
     * `DiscoveryHandler(hass, config_entry)`. `registry` is what
     * `hass.data[DOMAIN]` holds under `KEY_DEVICES` at that moment: nothing on
     * the first setup of the integration, the registry of the previous handler
     * after a reload, since `async_unload_entry` leaves it in place.
     */
    constructor (entryId: string, domain: string, platforms: seq<string>, registry: Option<map<string, WaveDevice>>)
      requires registry.Some? ==> forall sn | sn in registry.value :: registry.value[sn].waveId == sn
      ensures Valid()
      ensures this.entryId == entryId && this.domain == domain && this.platforms == platforms
      ensures devices == registry && inherited == DeviceMap().Keys
      ensures !platformsSetup && forwardedPlatforms == [] && newDeviceSignals == []
    {
      this.entryId := entryId;
      this.domain := domain;
      this.platforms := platforms;
      devices := registry;
      inherited := if registry.Some? then registry.value.Keys else {};
      platformsSetup := false;
      forwardedPlatforms := [];
      newDeviceSignals := [];
    }

    /** `_devices`: the registry, created empty on first use. */
    method Devices() returns (d: map<string, WaveDevice>)
      modifies this`devices
      ensures devices == Some(d) && d == old(DeviceMap())
    {
      if devices.None? {
        devices := Some(map[]);
      }
      d := devices.value;
    }

    /** `__ensure_platforms_setup`: forward every platform once; later calls do nothing. */
    method EnsurePlatformsSetup()
      requires Valid()
      modifies this`platformsSetup, this`forwardedPlatforms
      ensures Valid()
      ensures platformsSetup && forwardedPlatforms == platforms
      ensures old(platformsSetup) ==> unchanged(this)
    {
      if platformsSetup {
        return;
      }
      for i := 0 to |platforms|
        invariant forwardedPlatforms == platforms[..i]
      {
        // async_forward_entry_setup(config_entry, platform)
        forwardedPlatforms := forwardedPlatforms + [platforms[i]];
      }
      platformsSetup := true;
    }

    /** `__setup_new_device`: set the platforms up, register a fresh device and signal it. */
    method SetupNewDevice(sn: string) returns (dev: WaveDevice)
      requires Valid() && sn !in DeviceMap()
      modifies this
      ensures Valid()
      ensures fresh(dev) && dev.waveId == sn && dev.state == map[] && dev.listeners == []
      ensures dev.deviceInfo == DeviceInfoFor(entryId, domain, sn)
      ensures DeviceMap() == old(DeviceMap())[sn := dev]
      ensures newDeviceSignals == old(newDeviceSignals) + [dev]
      ensures platformsSetup && forwardedPlatforms == platforms
    {
      EnsurePlatformsSetup();
      var info := DeviceInfoFor(entryId, domain, sn);
      dev := new WaveDevice(info, sn);
      var d := Devices();
      RegisterNew(d, newDeviceSignals, inherited, sn, dev);
      devices := Some(d[sn := dev]);
      // dispatcher.async_dispatcher_send(hass, SIGNAL_NEW_DEVICE, device)
      newDeviceSignals := newDeviceSignals + [dev];
    }

    /**
     * The locked find-or-create step of `__handle_message`: reuse the device
     * registered under `sn`, or set a new one up when there is none.
     */
    method FindOrCreate(sn: string) returns (dev: WaveDevice)
      requires Valid()
      modifies this
      ensures Valid()
      ensures DeviceMap() == old(DeviceMap())[sn := dev] && dev.waveId == sn
      ensures sn in old(DeviceMap()) ==>
        dev == old(DeviceMap()[sn]) && newDeviceSignals == old(newDeviceSignals)
        && platformsSetup == old(platformsSetup) && forwardedPlatforms == old(forwardedPlatforms)
      ensures sn !in old(DeviceMap()) ==>
        && fresh(dev) && dev.state == map[] && dev.listeners == [] && newDeviceSignals == old(newDeviceSignals) + [dev]
        && platformsSetup
    {
      var d := Devices();
      if sn in d {
        dev := d[sn];
      } else {
        dev := SetupNewDevice(sn);
      }
    }

    /**
     * What forwarding `msg` under serial `sn` as attribute `attr` did: the serial
     * is registered, an existing entry is reused and a missing one created and
     * signalled; that device alone took the message and every one of its
     * listeners was notified once with its new state. The platforms are set up
     * unless the serial was inherited, and a reused entry leaves them as they were.
     */
    twostate predicate Forwarded(sn: string, attr: string, msg: Message, new notified: seq<Job>)
      reads this, KnownDevices(), ListenerFrame()
    {
      var seen := sn in old(DeviceMap());
      && sn in DeviceMap()
      && var dev := DeviceMap()[sn];
      && DeviceMap() == old(DeviceMap())[sn := dev]
      && (seen ==> dev == old(DeviceMap()[sn]) && newDeviceSignals == old(newDeviceSignals))
      && (seen ==> platformsSetup == old(platformsSetup) && forwardedPlatforms == old(forwardedPlatforms))
      && (!seen ==> fresh(dev) && newDeviceSignals == old(newDeviceSignals) + [dev])
      && (sn !in inherited ==> platformsSetup)
      && dev.state == AfterMessage(if seen then old(DeviceMap()[sn].state) else map[], attr, msg.payload)
      && dev.listeners == (if seen then old(DeviceMap()[sn].listeners) else [])
      && notified == Jobs(dev.listeners, dev.state)
      && (forall l | l in dev.listeners :: l.state == dev.state && l.Valid())
      && (forall k | k in old(DeviceMap()) && k != sn ::
            DeviceMap()[k].state == old(DeviceMap()[k].state)
            && DeviceMap()[k].listeners == old(DeviceMap()[k].listeners))
    }

    /** The part of `__handle_message` after the split: find or create, then forward. */
    method Route(sn: string, attr: string, msg: Message) returns (notified: seq<Job>)
      requires Valid()
      modifies this, KnownDevices(), ListenerFrame()
      ensures Valid()
      ensures Forwarded(sn, attr, msg, notified)
      ensures forall l | l in old(ListenerFrame()) && l !in DeviceMap()[sn].listeners :: unchanged(l)
    {
      if sn in DeviceMap() {
        notified := RouteKnown(sn, attr, msg);
      } else {
        notified := RouteNew(sn, attr, msg);
      }
    }

    /** `Route` for a serial already registered: its device takes the message. */
    method RouteKnown(sn: string, attr: string, msg: Message) returns (notified: seq<Job>)
      requires Valid() && sn in DeviceMap()
      modifies this, KnownDevices(), ListenerFrame()
      ensures Valid()
      ensures Forwarded(sn, attr, msg, notified)
      ensures forall l | l in old(ListenerFrame()) && l !in DeviceMap()[sn].listeners :: unchanged(l)
    {
      if sn !in inherited {
        assert DeviceMap()[sn] in newDeviceSignals;
      }
      var dev := FindOrCreate(sn);
      assert dev in old(KnownDevices());
      forall l | l in dev.listeners
        ensures l in old(ListenerFrame())
      {
        assert l in old(dev.listeners);
      }
      notified := dev.ReceiveMessage(attr, msg);
      forall k | k in old(DeviceMap()) && k != sn
        ensures DeviceMap()[k].state == old(DeviceMap()[k].state)
        ensures DeviceMap()[k].listeners == old(DeviceMap()[k].listeners)
      {
        var d := old(DeviceMap())[k];
        assert DeviceMap()[k] == d && d.waveId == k;
      }
    }

    /** `Route` for a serial not yet registered: a new device takes the message. */
    method RouteNew(sn: string, attr: string, msg: Message) returns (notified: seq<Job>)
      requires Valid() && sn !in DeviceMap()
      modifies this
      ensures Valid()
      ensures Forwarded(sn, attr, msg, notified)
      ensures forall l | l in old(ListenerFrame()) :: unchanged(l)
    {
      var dev := FindOrCreate(sn);
      notified := dev.ReceiveMessage(attr, msg);
      forall k | k in old(DeviceMap()) && k != sn
        ensures DeviceMap()[k].state == old(DeviceMap()[k].state)
        ensures DeviceMap()[k].listeners == old(DeviceMap()[k].listeners)
      {
        var d := old(DeviceMap())[k];
        assert DeviceMap()[k] == d && d != dev;
      }
    }

    /**
     * `__handle_message`: drop a topic with fewer than two `/`; otherwise find
     * or create the device for the serial and forward the message to it.
     */
    method HandleMessage(msg: Message) returns (notified: seq<Job>)
      requires Valid()
      modifies this, KnownDevices(), ListenerFrame()
      ensures Valid()
      ensures SplitTopic(msg.topic).None? ==>
        && unchanged(this) && notified == []
        && (forall d | d in old(KnownDevices()) :: unchanged(d))
        && (forall l | l in old(ListenerFrame()) :: unchanged(l))
      ensures SplitTopic(msg.topic).Some? ==>
        && Forwarded(SplitTopic(msg.topic).value.serial, SplitTopic(msg.topic).value.attr, msg, notified)
        && forall l | l in old(ListenerFrame()) && l !in DeviceMap()[SplitTopic(msg.topic).value.serial].listeners ::
             unchanged(l)
    {
      var topic := SplitTopic(msg.topic);
      if topic.None? {
        // logger.warning("received message with invalid wave topic")
        return [];
      }
      notified := Route(topic.value.serial, topic.value.attr, msg);
    }
  }
}
