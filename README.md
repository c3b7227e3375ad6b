# Airthings Wave over MQTT: a Dafny model

This project models the core of the Home Assistant integration
`custom_components/airthingswave`. The integration listens on the MQTT topic
namespace `wave/#`. It splits each topic into a serial and an attribute. It
registers a `WaveDevice` the first time a serial shows up. It merges `sample`
payloads into that device's state and then notifies every entity that
listens to the device.

On top of the devices, the sensor platform creates one `WaveAttrSensor` for
each row of its `SENSORS` table that the device's state carries. The
air-quality platform exposes a fixed selection of state keys.

Modules, one per source file, plus three shared ones and one of worked cases:

- `Wrappers`: `Option`.
- `States`: the model of a decoded JSON value and of a state dictionary, with
  `dict.get` and `dict.update`.
- `Strings`: the `str` operations the core relies on: the separator search
  behind `str.split`, one-character `str.replace`, and `str.title`.
- `Device` (`device.py`):
  - `WaveDevice` is a class. Its state dictionary and listener list are fields
    that its methods reassign.
  - `WaveEntity` is a class holding the entity's copy of the state and its
    `_expires_at`.
- `Discovery` (`discovery.py`):
  - the serial-to-model lookup and the topic split, both as functions
    (`_SN_MODEL_MAP` is kept as its list of entries, looked up key by key);
  - `DiscoveryHandler`, a class with the device registry (created lazily, or
    found in `hass.data` when an earlier handler of the integration made it), the
    `_platforms_setup` latch, and a log of the two side effects it causes: the
    platforms forwarded to Home Assistant and the devices sent with the
    new-device signal.
- `Sensor` (`sensor.py`): `SensorInfo`, the `SENSORS` table, the loop of
  `create_sensors`, and `WaveAttrSensor`.
- `AirQuality` (`air_quality.py`): the loop of `select_keys` and
  `WaveAirQuality`.
- `Scenarios`: concrete serials; the first sample from a serial not seen
  before, followed by sensor creation; and a reload of the config entry.

Python subclassing is modelled with a field. `WaveAttrSensor` and
`WaveAirQuality` hold the `WaveEntity` they extend in a field called `entity`.
That entity object is what registers with the device as a listener.

Each `hass.async_add_job(listener, state)` call that `__on_state_update` makes
is returned as a `Job(listener, state)`. After that, every listener has run
its `on_state_update` with that state.

Inputs from outside the core are parameters:

- An MQTT message carries its payload already decoded: `None` stands for a
  `json.JSONDecodeError`.
- `datetime.fromisoformat(v).timestamp()` is the function `toTimestamp`. It is
  `None` where the library raises `ValueError`.
- `time.time()` is the argument `now` of `Available`.
- The constants of `const.py` (`DOMAIN`, `PLATFORMS`), the config entry id and
  what `hass.data[DOMAIN]` holds under `KEY_DEVICES` when the handler is built
  are constructor arguments of `DiscoveryHandler`. `const.py` is not part of
  this model.

How messages take effect:

- The integration's code has no debounce timer. `receive_message` notifies the listeners
  straight after every message, whatever its attribute, and
  `__timer_handle` is never used.
- Only the `sample` attribute changes the state. Its payload is a JSON object
  that is merged in. A per-attribute topic such as `wave/<sn>/humidity` is
  logged as an unknown attribute and leaves the state as it was.
- `asyncio.gather` runs the listener jobs together. No listener exception is
  caught.

## Model

| member | source | states |
|---|---|---|
| States.Get | custom_components/airthingswave/sensor.py:81-83 | `dict.get`: a value exactly when the key is present, and then the stored one |
| States.Update | custom_components/airthingswave/device.py:40 | `dict.update`: the keys of both dictionaries; the payload's values win and the other keys keep their values |
| Strings.IndexOf | custom_components/airthingswave/discovery.py:62 | the separator search behind `split`: none exactly when the character is absent, otherwise the position of its first occurrence |
| Strings.Replace | custom_components/airthingswave/sensor.py:50-51 | one-character `str.replace`: same length, every `from` becomes `to`, nothing else changes |
| Strings.Title | custom_components/airthingswave/sensor.py:50-51 | `str.title`: same length; a character is upper-cased after a non-letter or at the start and lower-cased after a letter; letters stay letters and other characters are untouched |
| Device.AfterMessage | custom_components/airthingswave/device.py:33-50 | a decoded `sample` is merged in: payload keys take the payload's values, other keys keep theirs, keys only grow; an undecodable sample, `error` and any other attribute leave the state equal |
| Device.ExpiresAt | custom_components/airthingswave/device.py:94-101 | no expiry without an `expires_at` key; otherwise the converted timestamp of its value, none where the conversion fails |
| Device.WaveDevice.constructor | custom_components/airthingswave/device.py:18-24 | a new device keeps its device info and serial, with an empty state and no listeners |
| Device.WaveDevice.AddUpdateListener | custom_components/airthingswave/device.py:58-59 | appends the listener at the end, without removing duplicates |
| Device.WaveDevice.HandleSample | custom_components/airthingswave/device.py:33-40 | the state after a sample is `AfterMessage` of the old state; a decode error changes nothing |
| Device.WaveDevice.ReceiveMessage | custom_components/airthingswave/device.py:42-50 | updates the state as `AfterMessage` says, keeps the listener list, and notifies every listener once with the new state, for every attribute and decode outcome |
| Device.WaveDevice.OnStateUpdate | custom_components/airthingswave/device.py:52-56 | one job per listener, in registration order, each carrying the device's state; afterwards every listener holds that state with its expiry recomputed |
| Device.WaveEntity.constructor | custom_components/airthingswave/device.py:65-70 | the entity copies the device's state, derives its expiry from that copy, and is appended to the device's listeners; the device's state is untouched |
| Device.WaveEntity.Name | custom_components/airthingswave/device.py:76-78 | the name is `Wave ` followed by the serial |
| Device.WaveEntity.Available | custom_components/airthingswave/device.py:80-85 | an entity without an expiry is available |
| Device.WaveEntity.UpdateState | custom_components/airthingswave/device.py:94-101 | `_expires_at` is recomputed from the current state |
| Device.WaveEntity.OnStateUpdate | custom_components/airthingswave/device.py:103-107 | the entity adopts the notified state and recomputes its expiry |
| Device.AvailableWithoutExpiry | custom_components/airthingswave/device.py:80-101 | a state without `expires_at` gives no expiry, so the entity is available at every time |
| Discovery.Lookup | custom_components/airthingswave/discovery.py:25-27 | the dictionary lookup: none exactly when no entry has the key, otherwise a value stored with that key |
| Discovery.ModelFromSerialNumber | custom_components/airthingswave/discovery.py:23-27 | a model is named only for a serial of at least four characters, and it is the entry of `_SN_MODEL_MAP` for the first four |
| Discovery.ModelFromSerialNumberSpec | custom_components/airthingswave/discovery.py:15-27 | a model exactly when the first four characters are 2900, 2920, 2930 or 2950, and then Wave, Wave Mini, Wave Plus or Wave 2nd gen; none for shorter serials |
| Discovery.SplitTopic | custom_components/airthingswave/discovery.py:61-65 | a successful split yields a first segment and a serial without `/` that join back, with the attribute, to the topic |
| Discovery.SplitTopicDefined | custom_components/airthingswave/discovery.py:61-65 | the split succeeds exactly when the topic holds at least two `/` |
| Discovery.SplitTopicJoin | custom_components/airthingswave/discovery.py:62 | splitting a joined topic gives back its parts, whatever the first segment and even when the attribute contains `/` |
| Discovery.DeviceInfoFor | custom_components/airthingswave/discovery.py:92-96 | the config entry id, Airthings AS, the single identifier (domain, serial), the name `Wave ` plus the serial, and the model `ModelFromSerialNumber(sn)`, which is none for serials shorter than four characters |
| Discovery.DeviceInfoIdentifies | custom_components/airthingswave/discovery.py:93 | the device infos of two serials share an identifier only when the serials are equal |
| Discovery.RegisterNew | custom_components/airthingswave/discovery.py:97-98 | registering and signalling a device under an unknown serial keeps the registry consistent: one device per key, stored under its own serial, each device this handler registered signalled once |
| Discovery.DiscoveryHandler.constructor | custom_components/airthingswave/discovery.py:31-40 | a new handler uses the registry `hass.data` already holds, if any, as inherited; no platforms are set up and it has caused no side effect |
| Discovery.DiscoveryHandler.Devices | custom_components/airthingswave/discovery.py:42-50 | `_devices` returns the registry, creating it empty on first use |
| Discovery.DiscoveryHandler.EnsurePlatformsSetup | custom_components/airthingswave/discovery.py:77-86 | after the call every platform has been forwarded exactly once, in order; a later call changes nothing |
| Discovery.DiscoveryHandler.SetupNewDevice | custom_components/airthingswave/discovery.py:88-99 | sets the platforms up, registers a fresh device under the serial with the built device info, and signals it once |
| Discovery.DiscoveryHandler.FindOrCreate | custom_components/airthingswave/discovery.py:69-73 | a registered serial's device is reused with no side effect; an unknown serial gets a fresh, signalled device after the platforms are set up |
| Discovery.DiscoveryHandler.Route | custom_components/airthingswave/discovery.py:69-75 | after find-or-create, the message goes to that device alone, whose listeners are all notified once; other devices and every entity that does not listen to that device are untouched; the platforms are set up unless the serial was inherited, and a reused entry leaves them as they were |
| Discovery.DiscoveryHandler.RouteKnown | custom_components/airthingswave/discovery.py:70-71 | the same, for a serial already registered |
| Discovery.DiscoveryHandler.RouteNew | custom_components/airthingswave/discovery.py:72-73 | the same, for a serial not yet registered: no existing entity changes |
| Discovery.DiscoveryHandler.HandleMessage | custom_components/airthingswave/discovery.py:60-75 | a topic with fewer than two `/` changes no handler field, device or entity; otherwise the message is forwarded as `Route` states; the registry stays consistent and every device the handler created keeps the device info built for its serial |
| Sensor.SensorInfo.Name | custom_components/airthingswave/sensor.py:50-51 | the display name is as long as the id, has no `_`, has spaces exactly at the id's `_` and spaces, and starts each word upper-cased |
| Sensor.SensorIds | custom_components/airthingswave/sensor.py:54-63 | the eight ids of `SENSORS`, in order |
| Sensor.SensorIdsDistinct | custom_components/airthingswave/sensor.py:54-63 | no two rows of `SENSORS` share an id |
| Sensor.SensorIdsUndashed | custom_components/airthingswave/sensor.py:54-63 | no id of `SENSORS` contains `-` |
| Sensor.Co2Name | custom_components/airthingswave/sensor.py:50-51 | the `co2` row is shown as `Co2` |
| Sensor.Selected | custom_components/airthingswave/sensor.py:98-104 | the rows a state selects are never more than the table's |
| Sensor.SelectedInOrder | custom_components/airthingswave/sensor.py:98-104 | the selected rows are exactly the table rows whose id is a state key, in table order |
| Sensor.SelectedMembers | custom_components/airthingswave/sensor.py:100-102 | a row is selected if and only if it is in the table and its id is a key of the state |
| Sensor.SelectedDistinct | custom_components/airthingswave/sensor.py:98-104 | selecting from a table with distinct ids gives distinct ids |
| Sensor.CreatedSensorsBounded | custom_components/airthingswave/sensor.py:54-104 | `create_sensors` yields at most eight sensors, no two for the same id |
| Sensor.UniqueIdOf | custom_components/airthingswave/sensor.py:75 | the unique id is the serial, then `-`, then the sensor id, each at its own position |
| Sensor.UniqueIdInjective | custom_components/airthingswave/sensor.py:73-75 | a unique id determines serial and sensor id when the sensor id has no `-` |
| Sensor.WaveAttrSensor.constructor | custom_components/airthingswave/sensor.py:69-71 | the sensor keeps its row and registers its fresh entity with the device |
| Sensor.WaveAttrSensor.UniqueId | custom_components/airthingswave/sensor.py:73-75 | the unique id is the serial, `-`, and the row id |
| Sensor.WaveAttrSensor.Name | custom_components/airthingswave/sensor.py:77-79 | the name is `Wave `, the serial, a space, and the row's display name |
| Sensor.WaveAttrSensor.State | custom_components/airthingswave/sensor.py:81-83 | the state is the entity's value for the row id when present, and none otherwise |
| Sensor.UniqueIdsDistinct | custom_components/airthingswave/sensor.py:73-75 | sensors differing in serial or in row id have different unique ids, when their row ids contain no `-` (as `SensorIdsUndashed` shows for every row of `SENSORS`) |
| Sensor.CreateSensorsFrom | custom_components/airthingswave/sensor.py:98-104 | one fresh sensor per selected row, in order, no sensor twice, each listening to the device with its state; the device's state is unchanged and its listeners grow by exactly those entities |
| Sensor.CreateSensors | custom_components/airthingswave/sensor.py:98-104 | the same, over `SENSORS` |
| AirQuality.SelectKeys | custom_components/airthingswave/air_quality.py:45-55 | the result holds exactly the requested keys that the dictionary has, each with the dictionary's value |
| AirQuality.WaveAirQuality.constructor | custom_components/airthingswave/air_quality.py:19 | the entity is built as a `WaveEntity` and registers with the device |
| AirQuality.WaveAirQuality.DeviceStateAttributes | custom_components/airthingswave/air_quality.py:20-22 | only humidity, pressure, radon_long and temperature, those the state has, with the state's values; never the radon_short, co2 or voc readings the entity exposes elsewhere |
| AirQuality.WaveAirQuality.State | custom_components/airthingswave/air_quality.py:24-26 | the `radon_short` value when present, none otherwise |
| AirQuality.WaveAirQuality.CarbonDioxide | custom_components/airthingswave/air_quality.py:36-38 | the `co2` value when present, none otherwise |
| AirQuality.WaveAirQuality.VolatileOrganicCompounds | custom_components/airthingswave/air_quality.py:40-42 | the `voc` value when present, none otherwise |
| AirQuality.WaveAirQuality.ParticulateMatter25 | custom_components/airthingswave/air_quality.py:28-30 | always none |
| AirQuality.WaveAirQuality.ParticulateMatter10 | custom_components/airthingswave/air_quality.py:32-34 | always none |
| Scenarios.KnownSerials | custom_components/airthingswave/discovery.py:15-27 | serial 2930123 is a Wave Plus and 2950001 a Wave 2nd gen |
| Scenarios.UnknownSerials | custom_components/airthingswave/discovery.py:23-27 | a three-character serial and an unknown prefix give no model |
| Scenarios.FirstMessage | custom_components/airthingswave/discovery.py:60-99 | the first sample of a serial not seen before sets the platforms up, registers and signals a fresh device with the built device info holding the sample, and notifies nobody |
| Scenarios.FirstSample | custom_components/airthingswave/sensor.py:98-104 | after `FirstMessage`, one sensor is created per selected row, all listening to the device |
| Scenarios.SampleOfKnownSerial | custom_components/airthingswave/discovery.py:69-75 | a sample for a registered serial updates its device and leaves the registry, platforms and signals as they were |
| Scenarios.ReloadKeepingRegistry | custom_components/airthingswave/__init__.py:34-54 | after a reload that keeps the registry, a sample for a known serial updates the old device while no platform is forwarded and no device signalled |
| Scenarios.ReloadClearingRegistry | custom_components/airthingswave/__init__.py:34-54 | after a reload that drops the registry, the next sample of the same serial forwards the platforms and signals a new device |

## Left out

- Concurrency: the `asyncio.Lock` sections of `discovery.py` are atomic steps, and `asyncio.gather` over the listener jobs runs them one after another in registration order. No claim is made about interleavings.
- Logging calls are comments.
- MQTT subscription and unsubscription (`start`, `stop`) are side effects of the library and are not modelled.
- The dispatcher is modelled only as the log `newDeviceSignals`. `async_forward_entry_setup` is modelled only as the log `forwardedPlatforms`. `async_schedule_update_ha_state` and `async_added_to_hass` are not modelled.
- JSON decoding is a library call: a payload arrives decoded as an object or as a decode error. A payload that decodes to a non-object would make `dict.update` raise (or accept a list of pairs); that case is not modelled.
- Device.WaveEntity.Available: `_expires_at` is a float and `time.time()` is the wall clock. The model uses integers and takes the time as an argument. Its contract states only the branch without an expiry.
- Device.WaveEntity.UpdateState: the conversion `fromisoformat(...).timestamp()` is the parameter `toTimestamp`. The `TypeError` it would raise on a non-string value is not modelled.
- The registry lives in `hass.data[DOMAIN]` and outlives a handler. The model hands the new handler the registry as it stands when the handler is built. An old handler stops listening on unload, so the model does not let two handlers update one registry at the same time. The constructor requires the registry it inherits to store every device under its own serial, which every handler's registry keeps.
- The dictionary is a value. In Python, `on_state_update` makes every listener share the device's own `__state` dict, so later updates are visible to an entity before its next notification. Every update here is followed at once by a notification, so the state each entity holds after a message is the same.
- Strings.Title: `str.title` is modelled on ASCII letters only. Unicode case mapping is not modelled; the table's ids are ASCII.
- The entity metadata properties (`device_info`, `should_poll`, and the sensors' `device_class`, `unit_of_measurement`, `icon`) return constants or fields unchanged. They are not modelled beyond the table data.
- `air_quality.py` imports `get_device` from `.device`, which does not define it. Its `async_setup_entry` therefore cannot run and is not modelled. `WaveAirQuality` is modelled as written.
- The platform setup and unload routines of `sensor.py` and `air_quality.py`, the services of `__init__.py` and `config_flow.py` are not part of this model. The reload in `Scenarios` models only what `__init__.py` does with the registry and the handler. An inherited device keeps whatever device info the earlier handler gave it; `Valid` states the built device info only for the devices the handler created itself.
- An exception raised by a listener would abort `gather`. Listeners never fail in the model.

## Findings

| source | as written | input that shows it | evidently intended | confidence | as-written member | corrected member |
|---|---|---|---|---|---|---|
| custom_components/airthingswave/__init__.py:43-54 | `async_unload_entry` unloads the platforms but leaves `KEY_DEVICES` in `hass.data[DOMAIN]`; the handler built on the next setup finds every old serial in it (discovery.py:71), so for a serial registered before the reload it never reaches `__ensure_platforms_setup` (discovery.py:90) and never signals the device | a reload of the config entry after serial 2930123 was registered, then a message on `wave/2930123/sample` | after a reload the platforms are forwarded again and each device is signalled again, so its sensors come back | medium, not executed | Scenarios.ReloadKeepingRegistry | Scenarios.ReloadClearingRegistry |
