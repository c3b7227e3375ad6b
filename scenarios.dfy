/**
 * Worked cases: how concrete topics and serials are read, and what the first
 * sample from a serial not seen before leads to.
 */
module Scenarios {

  import opened Wrappers
  import opened States
  import opened Strings
  import opened Device
  import opened Discovery
  import opened Sensor

  /** The serial prefixes of a Wave Plus and of a second-generation Wave. */
  lemma KnownSerials()
    ensures ModelFromSerialNumber("2930123") == Some("Wave Plus")
    ensures ModelFromSerialNumber("2950001") == Some("Wave 2nd gen")
  {
    ModelFromSerialNumberSpec("2930123");
    ModelFromSerialNumberSpec("2950001");
    assert "2930123"[..4] == "2930" && "2950001"[..4] == "2950";
  }

  /** Serials that are too short, or carry an unknown prefix, name no model. */
  lemma UnknownSerials()
    ensures ModelFromSerialNumber("293") == None
    ensures ModelFromSerialNumber("2940000") == None
  {
    ModelFromSerialNumberSpec("293");
    ModelFromSerialNumberSpec("2940000");
    assert "2940000"[..4] == "2940";
  }

  /**
   * The first sample from a Wave not seen before: the platforms are forwarded,
   * the serial is registered with a new device holding the sample, and nothing
   * is notified, since the device has no listeners yet.
   */
  method FirstMessage(h: DiscoveryHandler, serial: string, sample: State)
    returns (dev: WaveDevice, notified: seq<Job>)
    requires h.Valid() && '/' !in serial && serial !in h.DeviceMap()
    modifies h, h.KnownDevices(), h.ListenerFrame()
    ensures h.Valid()
    ensures h.DeviceMap() == old(h.DeviceMap())[serial := dev]
    ensures fresh(dev) && dev.waveId == serial && dev.deviceInfo == DeviceInfoFor(h.entryId, h.domain, serial)
    ensures h.newDeviceSignals == old(h.newDeviceSignals) + [dev]
    ensures h.platformsSetup && h.forwardedPlatforms == h.platforms
    ensures notified == [] && dev.listeners == []
    ensures dev.state == sample
  {
    // the topic "wave/<serial>/sample"
    var msg := Message(JoinTopic(Topic("wave", serial, "sample")), Some(sample));
    SplitTopicJoin("wave", serial, "sample");
    assert SplitTopic(msg.topic) == Some(Topic("wave", serial, "sample"));
    assert serial !in h.inherited;
    label before:
    notified := h.HandleMessage(msg);
    assert h.Forwarded@before(serial, "sample", msg, notified);
    dev := h.DeviceMap()[serial];
    assert map[] + sample == sample;
  }

  /**
   * `FirstMessage`, followed by the sensor platform's reaction to the
   * new-device signal: `create_sensors` makes one sensor per table row the
   * sample carries, each listening to the device.
   */
  method FirstSample(h: DiscoveryHandler, serial: string, sample: State, toTimestamp: Value -> Option<int>)
    returns (dev: WaveDevice, notified: seq<Job>, sensors: seq<WaveAttrSensor>)
    requires h.Valid() && '/' !in serial && serial !in h.DeviceMap()
    modifies h, h.KnownDevices(), h.ListenerFrame()
    ensures h.Valid()
    ensures h.DeviceMap() == old(h.DeviceMap())[serial := dev]
    ensures fresh(dev) && dev.waveId == serial
    ensures h.newDeviceSignals == old(h.newDeviceSignals) + [dev]
    ensures h.platformsSetup && h.forwardedPlatforms == h.platforms
    ensures notified == []
    ensures dev.state == sample
    ensures |sensors| == |Selected(Sensors, sample)|
    ensures forall k | 0 <= k < |sensors| ::
      sensors[k].sensor == Selected(Sensors, sample)[k] && sensors[k].entity.device == dev
    ensures dev.listeners == Entities(sensors)
  {
    dev, notified := FirstMessage(h, serial, sample);
    sensors := CreateSensors(dev, toTimestamp);
  }

  /**
   * A reload of the config entry as `__init__.py` performs it:
   * `async_unload_entry` unloads the platforms but leaves the registry in
   * `hass.data[DOMAIN]`, and `async_setup_entry` builds a new handler over it.
   * The next sample of a serial the old handler registered updates the old
   * device, but the new handler forwards no platform and signals no device,
   * so nothing sets the platforms or the device's entities up again.
   */
  method ReloadKeepingRegistry(h: DiscoveryHandler, serial: string, sample: State)
    returns (reloaded: DiscoveryHandler, notified: seq<Job>)
    requires h.Valid() && '/' !in serial && serial in h.DeviceMap()
    modifies h.KnownDevices(), h.ListenerFrame()
    ensures fresh(reloaded) && reloaded.Valid() && reloaded.DeviceMap() == old(h.DeviceMap())
    ensures reloaded.DeviceMap()[serial].state == AfterMessage(old(h.DeviceMap()[serial].state), "sample", Some(sample))
    ensures !reloaded.platformsSetup && reloaded.forwardedPlatforms == [] && reloaded.newDeviceSignals == []
  {
    reloaded := new DiscoveryHandler(h.entryId, h.domain, h.platforms, h.devices);
    assert reloaded.KnownDevices() == h.KnownDevices();
    assert reloaded.ListenerFrame() == h.ListenerFrame();
    notified := SampleOfKnownSerial(reloaded, serial, sample);
  }

  /**
   * A sample for a serial the registry already holds reaches its device and
   * leaves the registry, the platforms and the signals as they were.
   */
  method SampleOfKnownSerial(h: DiscoveryHandler, serial: string, sample: State) returns (notified: seq<Job>)
    requires h.Valid() && '/' !in serial && serial in h.DeviceMap()
    modifies h, h.KnownDevices(), h.ListenerFrame()
    ensures h.Valid() && h.DeviceMap() == old(h.DeviceMap())
    ensures h.DeviceMap()[serial].state == AfterMessage(old(h.DeviceMap()[serial].state), "sample", Some(sample))
    ensures h.platformsSetup == old(h.platformsSetup) && h.forwardedPlatforms == old(h.forwardedPlatforms)
    ensures h.newDeviceSignals == old(h.newDeviceSignals)
  {
    var msg := Message(JoinTopic(Topic("wave", serial, "sample")), Some(sample));
    SplitTopicJoin("wave", serial, "sample");
    assert SplitTopic(msg.topic) == Some(Topic("wave", serial, "sample"));
    label before:
    notified := h.HandleMessage(msg);
    assert h.Forwarded@before(serial, "sample", msg, notified);
  }

  /**
   * The same reload with an unload that also drops the registry from
   * `hass.data[DOMAIN]`: the new handler starts without one, so the next
   * sample of any serial, known before or not, forwards the platforms again
   * and signals a new device holding the sample.
   */
  method ReloadClearingRegistry(h: DiscoveryHandler, serial: string, sample: State)
    returns (reloaded: DiscoveryHandler, dev: WaveDevice, notified: seq<Job>)
    requires h.Valid() && '/' !in serial
    ensures fresh(reloaded) && reloaded.Valid() && reloaded.inherited == {}
    ensures reloaded.DeviceMap() == map[serial := dev] && fresh(dev) && dev.state == sample
    ensures reloaded.platformsSetup && reloaded.forwardedPlatforms == reloaded.platforms
    ensures reloaded.newDeviceSignals == [dev]
  {
    reloaded := new DiscoveryHandler(h.entryId, h.domain, h.platforms, None);
    dev, notified := FirstMessage(reloaded, serial, sample);
  }
}
