# Home-automation firmware for ESP8266 nodes, modelled in Dafny

The firmware runs on ESP8266 boards that talk to an MQTT broker. Each node
publishes under one device name. It is built from *elements*:

- relay **switches** (`SwitchService`): active-low pins, commanded with `ON` / `OFF`;
- an **IR transmitter** (`IRTransmitterService`): sends Samsung or NEC codes
  described by a JSON command;
- a **DHT11** humidity/temperature sensor (`DhtService`);
- a **photoresistor** (`PhotoresistorService`).

The actuators (switches and IR transmitters) share the interface
`ElementService`: `getName`, `handleCommand` and `getStatus`. The library
actuators and both sensors also have `handleMqtt(client, deviceName)`, which
subscribes the element's topics; the `src` copy of the switch has no
`handleMqtt`. The sensors have no name and take no command: they offer
`init`, `getReadings`, `getStatus` and `handleMqtt`.

Two kinds of *registry* gather a node's elements:

- `Devices` holds the actuators: the tv node has five switches and the IR
  transmitter, the main node the LED switch and a stub transmitter;
- `Sensors` holds the DHT and the photoresistor.

Each registry can register every element with the client and report a status
snapshot. The actuator side also blinks the on-board LED and has an offline
fallback.

The model replaces the hardware and the libraries by abstract state:

- **MQTT client** (`Mqtt`): a map from topic to `Callback` plus a log of
  published `(topic, payload, retained)` messages. A `Callback` value names one
  of the lambdas the firmware registers:
  - `RestoreSwitch`: a switch's one-shot recovery on `<device>/<name>/status`;
  - `CommandSwitch`: its command callback on `<device>/<name>`;
  - `CommandIr`: the IR command callback;
  - `ReadDht`, `ReadPhotoresistor`: the sensor read triggers.

  Inbound messages are `(topic, payload)` events. `Deliver` / `Dispatch` run
  the callback registered for the topic.
- **Pins**: each switch keeps the log of levels written to its pin. The IR
  emitter keeps the trace of `sendSAMSUNG` / `sendNEC` calls.
- **Driver readings**: these are parameters. A DHT reading is `Option<real>`,
  where NaN becomes `None`. The heat-index formula is a function value fixed
  at construction.
- **IR command**: deserialised JSON is an `IrCommand(protocol, signal, repeat)`
  record. The `signal` string goes through a model of `strtoul(…, 16)`
  (module `Text`), then through the `int32_t` store and the widening to the
  `uint64_t` send argument (module `IrSend`).

Modules:

- pure logic: `Statuses`, `SwitchLogic`, `Router`, `Blink`, `Text`, `Seqs`;
- modules whose classes have methods proved against that logic: `Switch`,
  `IrTransmitter`, `IrTransmitterStub`, `Dht`, `Photoresistor`;
- `Element`: the common actuator interface as a datatype with one variant per
  actuator class;
- registries: `TvDevices` (`kochanowskiego/tv/devices.cpp`), `Devices`
  (`kochanowskiego/devices.cpp`), `Sensors` (both `sensors.cpp` files);
- `Node`: the switches and the sensors of one node on one shared client.

Things to note:

- **Recovery never restores.** The switch publishes `getStatus()` as its
  retained status, and `getStatus()` is always `"OK"`. It does not publish
  `ON` or `OFF`.
  - A retained value replayed into the recovery callback after a reboot is
    therefore refused by `handleCommand`, and boot recovery never changes a
    switch, as long as nothing else publishes a retained `ON` or `OFF` to a
    status topic. Another MQTT client that did so would switch the element
    when it recovers; the model does not cover that case.
  - The proofs need only that every retained message on a `…/status` topic
    is `OK` (`SwitchLogic.StatusOkOnly`). The sensors' retained readings on
    the same client go to `…/temperature`, `…/humidity`, `…/heat_index` and
    `…/value`, which are not status topics, so they keep that invariant.
  - `SwitchLogic.ReplayNeverRestores` (one switch),
    `Router.ReplayLeavesSwitches` (a registry) and `Node.ReplayNeverRestores`
    (switches and sensors on one client) prove this.
  - `SwitchLogic.RecoveryOfOn` shows that a replayed `ON` would work.
  - The comment `//get previous state` at
    `Elements/SwitchService/SwitchService.cpp:32` shows that restoring was
    intended. The model follows the code as written.
- **The IR transmitter never refuses a command.** The library `handleCommand`
  (`Elements/IRTransmitterService/IRTransmitterService.cpp:28-51`) checks
  nothing and returns true:
  `IrTransmitter.IrTransmitterService.HandleCommand` ensures `accepted`
  unconditionally.
- **One switch class serves both copies.** The two copies of `SwitchService`
  in the repository (`Elements/` and `kochanowskiego/src/`) have identical
  state machines. The `src` copy lacks `handleMqtt`. One class,
  `Switch.SwitchService`, models both.
- **`kochanowskiego/devices.cpp` calls `handleMqtt` on the `src` switch**,
  whose header declares none. The model gives that switch the library
  `handleMqtt`.
- **The two `sensors.cpp` files** differ in three ways:
  - the snapshot key of the DHT: `dht` on the tv node, `DHT` on the main node;
  - the tv copy's extra `Serial` logging;
  - the headers they include: the library sensors on the tv node, the
    `src/classes/sensors/` ones on the main node.

  The logging has no state, so they are one class with two named
  constructors, `Tv` and `Main`.
- **The main node's sensor headers** point at
  `kochanowskiego/src/classes/sensors/…`. The implementations of those headers
  are not part of this model, so the library sensor elements stand in for
  them.

## Model

| member | source | states |
|---|---|---|
| SwitchLogic.OnOffFlag | Elements/SwitchService/SwitchService.cpp:15-23 | `on` sets the flag and writes LOW, `off` clears it and writes HIGH (active-low); the `src` copy's lines 15-23 are the same |
| Switch.SwitchService.On | Elements/SwitchService/SwitchService.cpp:15-18 | the new state is `On` of the old: flag set, one LOW write appended |
| Switch.SwitchService.Off | Elements/SwitchService/SwitchService.cpp:20-23 | the new state is `Off` of the old: flag cleared, one HIGH write appended |
| Switch.SwitchService.constructor | Elements/SwitchService/SwitchService.cpp:5-9 | keeps pin and name and runs `init`; the global starts off with no pin write yet (also the `src` copy, lines 5-9) |
| Switch.SwitchService.Init | Elements/SwitchService/SwitchService.cpp:11-13 | `init` sets the pin to output and changes neither the flag nor the pin level |
| Switch.SwitchService.GetStatus | Elements/SwitchService/SwitchService.cpp:63-65 | the status is always `OK` (also the `src` copy, lines 45-47) |
| Switch.SwitchService.IsSwitched | Elements/SwitchService/SwitchService.cpp:25-27 | returns the flag last set by `on`/`off`, changing nothing (also the `src` copy, lines 25-27) |
| Switch.SwitchService.HandleCommand | Elements/SwitchService/SwitchService.cpp:47-57 | accepted exactly when `Accepts(command)`; new state is the state machine's; the pin keeps matching the flag (also the `src` copy, lines 29-39) |
| SwitchLogic.HandleCommandCases | Elements/SwitchService/SwitchService.cpp:47-57 | accepts exactly case-sensitive `ON`/`OFF`; `ON` is `On`, `OFF` is `Off`; `on`, `off`, `OK` and anything else change nothing |
| SwitchLogic.HandleCommandIdempotent | Elements/SwitchService/SwitchService.cpp:47-61 | handling a command twice gives the same flag as once, and keeps the pin consistent |
| SwitchLogic.HandleCommandKeepsPin | Elements/SwitchService/SwitchService.cpp:47-61 | after any command the last pin write agrees with the flag |
| Switch.SwitchService.SwitchElement | Elements/SwitchService/SwitchService.cpp:59-61 | `switchElement(b)` leaves `switched == b` and makes the matching pin write (also the `src` copy, lines 41-43) |
| SwitchLogic.TopicsDistinct | Elements/SwitchService/SwitchService.cpp:30-31 | for names without `/`, command topics and status topics determine the name, and no command topic equals a status topic |
| SwitchLogic.StatusTopicIsStatus | Elements/SwitchService/SwitchService.cpp:30-31 | every derived status topic ends in `/status` |
| SwitchLogic.NotStatusTopic | Elements/DhtService/DhtService.cpp:30-32 | a topic whose last character is not `s` (such as `…/temperature`, `…/humidity`, `…/heat_index`, `…/value`) is no status topic |
| Switch.SwitchService.HandleMqtt | Elements/SwitchService/SwitchService.cpp:29-45 | subscribes the recovery callback on `<device>/<name>/status`, then the command callback on `<device>/<name>` |
| Switch.SwitchService.Run | Elements/SwitchService/SwitchService.cpp:33-44 | running either callback updates switch and client exactly as `SwitchLogic.Run` says, keeping the pin consistent |
| SwitchLogic.RecoveryIsOneShot | Elements/SwitchService/SwitchService.cpp:33-37 | the first status message goes to `handleCommand`, publishes nothing, and unsubscribes; a later one is not processed |
| SwitchLogic.CommandPublishesOnAccept | Elements/SwitchService/SwitchService.cpp:39-44 | a command publishes one retained `OK` to the status topic if accepted and nothing otherwise; subscriptions stay |
| SwitchLogic.OnlyOkPublished | Elements/SwitchService/SwitchService.cpp:42 | for any message sequence, everything the switch has published is the retained text `OK` |
| SwitchLogic.DeliverAllKeepsStatusOk | Elements/SwitchService/SwitchService.cpp:39-44 | for any message sequence, every retained message on a status topic stays `OK`, whatever else the client carries |
| SwitchLogic.StatusOkRefused | Elements/SwitchService/SwitchService.cpp:49-56 | when every retained status in a log is `OK`, the retained value of a status topic is `OK` and `handleCommand` refuses it without change |
| SwitchLogic.ReplayNeverRestores | Elements/SwitchService/SwitchService.cpp:33-44 | after any history that leaves only `OK` on status topics (other retained topics allowed), replaying the retained status into a freshly booted switch's recovery leaves it exactly as booted |
| SwitchLogic.RecoveryOfOn | Elements/SwitchService/SwitchService.cpp:33-37 | a replayed `ON` would switch the element on, which shows the recovery path itself works |
| Element.Element.Name | kochanowskiego/src/classes/devices/ElementService/ElementService.h:14 | `getName` answers the name the wrapped switch or IR transmitter was constructed with |
| Element.Element.Status | kochanowskiego/src/classes/devices/ElementService/ElementService.h:18 | every actuator reports the status `OK` |
| Element.HandleCommand | kochanowskiego/src/classes/devices/ElementService/ElementService.h:16 | `handleCommand` through the interface per element kind: the switch rule, the library IR burst accepted, the stub's one stop frame refused |
| IrTransmitter.IrTransmitterService.HandleCommand | Elements/IRTransmitterService/IRTransmitterService.cpp:28-51 | returns true and appends exactly `Burst(cmd)` to the emission trace (the loop is proved against it) |
| IrTransmitter.NoRepeatNoEmission | Elements/IRTransmitterService/IRTransmitterService.cpp:33-37 | a zero or negative repeat count sends nothing |
| IrTransmitter.IsSamsungIff | Elements/IRTransmitterService/IRTransmitterService.cpp:38 | the protocol is SAMSUNG exactly when its lower-case form is `samsung` |
| Text.EqualsIgnoreCase | Elements/IRTransmitterService/IRTransmitterService.cpp:38 | `equalsIgnoreCase` holds exactly when both strings lower-case to the same string |
| IrTransmitter.SamsungBurst | Elements/IRTransmitterService/IRTransmitterService.cpp:38-41 | SAMSUNG sends exactly `max(repeat, 0)` frames, each `sendSAMSUNG(signal, 32)` |
| IrTransmitter.NecBurst | Elements/IRTransmitterService/IRTransmitterService.cpp:42-47 | any other protocol sends `2·max(repeat, 0)` frames alternating `sendNEC(signal, 32)` and `sendNEC(0xFFFFFFFF, 32)` |
| Text.Strtoul16 | Elements/IRTransmitterService/IRTransmitterService.cpp:35 | base-16 `strtoul` never exceeds the 32-bit `ULONG_MAX` |
| Text.StrtoulOfToHex | Elements/IRTransmitterService/IRTransmitterService.cpp:35 | parsing the hex spelling of any 32-bit value gives that value back |
| IrSend.ToInt32 | Elements/IRTransmitterService/IRTransmitterService.cpp:35 | storing an `unsigned long` into `int32_t` gives a value in the signed 32-bit range with the same low 32 bits |
| IrSend.ToUint64 | Elements/IRTransmitterService/IRTransmitterService.cpp:40-44 | passing the `int32_t` as the `uint64_t` data argument gives a 64-bit value congruent to it modulo 2^64 |
| IrSend.WidenedSignal | Elements/IRTransmitterService/IRTransmitterService.cpp:35 | through `int32_t` and back to `uint64_t` the low 32 bits are kept; codes with the top bit set arrive sign-extended |
| IrTransmitter.SignalOfHex | Elements/IRTransmitterService/IRTransmitterService.cpp:35 | a code written in hex reaches `send*` with that value in its low 32 bits |
| IrTransmitter.IrTransmitterService.HandleMqtt | Elements/IRTransmitterService/IRTransmitterService.cpp:20-25 | subscribes the command callback on `<device>/ir_transmitter` whatever the element's name |
| IrTransmitter.IrTransmitterService.Init | Elements/IRTransmitterService/IRTransmitterService.cpp:15-17 | `init` starts the emitter and sends nothing |
| IrTransmitter.IrTransmitterService.constructor | Elements/IRTransmitterService/IRTransmitterService.cpp:9-13 | the constructor keeps pin and name, calls `init` and has sent nothing |
| IrTransmitter.IrTransmitterService.GetStatus | Elements/IRTransmitterService/IRTransmitterService.cpp:53-55 | the status is always `OK` |
| IrTransmitterStub.IrTransmitterService.HandleCommand | kochanowskiego/src/classes/devices/IRTransmitterService/IRTransmitterService.cpp:26-30 | whatever the payload: returns false and sends exactly one `sendNEC(0xFFFFFFFF, 32)` |
| IrTransmitterStub.IrTransmitterService.HandleMqtt | kochanowskiego/src/classes/devices/IRTransmitterService/IRTransmitterService.cpp:18-23 | subscribes the command callback on `<device>/ir_transmitter` |
| IrTransmitterStub.IrTransmitterService.constructor | kochanowskiego/src/classes/devices/IRTransmitterService/IRTransmitterService.cpp:7-11 | the constructor keeps pin and name, calls `init` and has sent nothing |
| IrTransmitterStub.IrTransmitterService.Init | kochanowskiego/src/classes/devices/IRTransmitterService/IRTransmitterService.cpp:13-15 | `init` starts the emitter and sends nothing |
| IrTransmitterStub.IrTransmitterService.GetStatus | kochanowskiego/src/classes/devices/IRTransmitterService/IRTransmitterService.cpp:32-34 | the status is always `OK` |
| Dht.ReadCases | Elements/DhtService/DhtService.cpp:39-58 | a NaN reading fails, sets `READ_ERROR` and keeps all three values; a good one replaces all three and clears the error |
| Dht.DhtService.GetReadings | Elements/DhtService/DhtService.cpp:37-59 | result and new globals are exactly `Read` of the old ones |
| Dht.StatusCases | Elements/DhtService/DhtService.cpp:61-67 | the status is `OK` exactly when no error is recorded, and the error otherwise |
| Dht.DhtService.GetStatus | Elements/DhtService/DhtService.cpp:61-67 | the status is `Status` of the cached globals |
| Dht.RecoversAfterGoodRead | Elements/DhtService/DhtService.cpp:41-63 | a failed read gives `READ_ERROR`; a good read after it gives `OK` again |
| Dht.PollPublishes | Elements/DhtService/DhtService.cpp:24-34 | a trigger on `<device>/dht` publishes temperature, humidity and heat index, retained, in that order after a good read, and nothing after a failed one |
| Dht.DhtService.OnTrigger | Elements/DhtService/DhtService.cpp:27-34 | the callback changes globals and client exactly as `Poll` |
| Dht.DhtService.HandleMqtt | Elements/DhtService/DhtService.cpp:24-27 | subscribes the read trigger on `<device>/dht` |
| Dht.DhtService.Init | Elements/DhtService/DhtService.cpp:19-22 | `init` starts the driver and performs exactly one read |
| Dht.DhtService.constructor | Elements/DhtService/DhtService.cpp:12-17 | the globals start at zero with no error recorded, and the driver has not begun |
| Photoresistor.PhotoresistorService.GetReadings | Elements/PhotoresistorService/PhotoresistorService.cpp:38-44 | always succeeds and stores the new sample |
| Photoresistor.StatusCases | Elements/PhotoresistorService/PhotoresistorService.cpp:46-52 | `OK` exactly for non-negative values, `READ_ERROR` otherwise; the initial 0 reads `OK` |
| Photoresistor.PhotoresistorService.GetStatus | Elements/PhotoresistorService/PhotoresistorService.cpp:46-52 | the status is `Status` of the stored value |
| Photoresistor.PollPublishes | Elements/PhotoresistorService/PhotoresistorService.cpp:30-35 | each trigger publishes exactly one retained message, the new sample, on `<device>/photoresistor/value` |
| Photoresistor.PhotoresistorService.OnTrigger | Elements/PhotoresistorService/PhotoresistorService.cpp:30-35 | the callback changes value and client exactly as `Poll` |
| Photoresistor.PhotoresistorService.HandleMqtt | Elements/PhotoresistorService/PhotoresistorService.cpp:27-36 | subscribes the read trigger on `<device>/photoresistor` |
| Photoresistor.PhotoresistorService.Init | Elements/PhotoresistorService/PhotoresistorService.cpp:23-25 | `init` performs exactly one read |
| Photoresistor.PhotoresistorService.constructor | Elements/PhotoresistorService/PhotoresistorService.cpp:17-21 | keeps the pin; the global `value` starts at 0 |
| Router.AttachAllRegisters | kochanowskiego/tv/devices.cpp:60-67 | registering distinct switches gives each its recovery and command callbacks, adds no other topic, keeps the rest, publishes nothing |
| Router.DispatchTouchesOne | kochanowskiego/tv/devices.cpp:60-67 | a message changes at most the switch whose callback it reaches |
| Router.DispatchAt | kochanowskiego/tv/devices.cpp:60-67 | a switch callback of the `i`-th name runs on the `i`-th switch |
| Router.RecoveryUnsubscribes | Elements/SwitchService/SwitchService.cpp:33-37 | in a registry, a recovery drops exactly its status topic and publishes nothing |
| Router.DispatchAllOkOnly | Elements/SwitchService/SwitchService.cpp:42 | a registry fed any messages only ever publishes the retained `OK` |
| Router.DispatchKeepsStatusOk | Elements/SwitchService/SwitchService.cpp:39-44 | one registry callback keeps every retained status `OK` |
| Router.DispatchAllKeepsStatusOk | Elements/SwitchService/SwitchService.cpp:39-44 | any number of registry callbacks keep every retained status `OK` |
| Router.ReplayOfStatusOk | Elements/SwitchService/SwitchService.cpp:33-37 | in a log where every retained status is `OK`, the replay of a switch's retained status into the re-registered registry leaves every switch as booted |
| Router.ReplayLeavesSwitches | Elements/SwitchService/SwitchService.cpp:33-44 | whatever the registry did before a restart (from a log with only `OK` on status topics), replaying a retained status into the re-registered registry leaves every switch unchanged |
| Blink.PatternShape | kochanowskiego/tv/devices.cpp:34-42 | a blink writes `max(times, 0)` LOWs (one per `on()`) and one HIGH more, alternating and ending HIGH |
| TvDevices.NamesWellFormed | kochanowskiego/tv/devices.cpp:3-19 | the switch names are distinct and slash-free, and neither the IR name nor the IR topic clashes with them |
| TvDevices.Devices.constructor | kochanowskiego/tv/devices.cpp:3-23 | the five switches start off with no pin writes and their pins set up as outputs, the names are the registry names, and the IR trace is empty |
| TvDevices.Devices.ElementNames | kochanowskiego/tv/devices.cpp:3-19 | the six elements answer `getName` with `ledSwitch`, `tvSwitch`, `ampSwitch`, `subwooferSwitch`, `ps3Switch`, `irTransmitter` in that order, all different |
| TvDevices.Devices.DistinctSwitches | kochanowskiego/tv/devices.cpp:3-19 | the five switches are five different objects |
| TvDevices.Devices.Init | kochanowskiego/tv/devices.cpp:25-32 | every element is initialised; no switch state changes, nothing is sent |
| TvDevices.Devices.BlinkLed | kochanowskiego/tv/devices.cpp:34-42 | the LED gets exactly `Pattern(times)` and ends off; the other switches are untouched |
| TvDevices.Devices.ConnectionFailed | kochanowskiego/tv/devices.cpp:44-47 | two blinks of two; the LED ends off, the rest untouched |
| TvDevices.Devices.ActivateOfflineMode | kochanowskiego/tv/devices.cpp:49-58 | three blinks of three, then all five switches on, each with exactly one more LOW write |
| TvDevices.RegistersAll | kochanowskiego/tv/devices.cpp:60-67 | all six elements are registered under the one device name, with no topic collision and nothing published |
| TvDevices.Devices.HandleMqttCommunication | kochanowskiego/tv/devices.cpp:60-67 | the client ends as `Registered`: the five switches in order, then the IR transmitter |
| TvDevices.Devices.Deliver | kochanowskiego/tv/devices.cpp:60-67 | an inbound message changes switches and client exactly as `Router.Dispatch`, and the IR trace by the burst when it reaches the IR callback |
| TvDevices.Devices.GetStatus | kochanowskiego/tv/devices.cpp:69-88 | the snapshot has exactly the six element names as keys, each mapped to that element's status `OK` |
| Devices.RegistersAll | kochanowskiego/devices.cpp:35-38 | the LED's two callbacks and the IR callback sit on three different topics; nothing is published |
| Devices.Devices.constructor | kochanowskiego/devices.cpp:3-11 | the LED switch starts off with no pin writes and its pin set up as an output, and the stub's IR trace is empty |
| Devices.Devices.Init | kochanowskiego/devices.cpp:13-16 | initialises exactly the LED switch and the IR transmitter |
| Devices.Devices.BlinkLed | kochanowskiego/devices.cpp:18-26 | the LED gets exactly `Pattern(times)` and ends off |
| Devices.Devices.ActivateOfflineMode | kochanowskiego/devices.cpp:29-33 | three blinks of three; the LED ends off and nothing is switched on |
| Devices.Devices.HandleMqttCommunication | kochanowskiego/devices.cpp:35-38 | the client ends as `Registered`: the LED switch, then the IR transmitter |
| Devices.Devices.Deliver | kochanowskiego/devices.cpp:35-38 | an inbound message acts as `Router.Dispatch` on the LED and emits one stop frame when it reaches the IR callback |
| Devices.Devices.GetStatus | kochanowskiego/devices.cpp:40-46 | the snapshot has exactly the keys `ledSwitch` and `irTransmitter`, each `OK` |
| Sensors.Sensors.Init | kochanowskiego/tv/sensors.cpp:10-13 | one DHT read, then one photoresistor read (the main node's `sensors.cpp` is the same) |
| Sensors.Sensors.GetSensorsReadings | kochanowskiego/tv/sensors.cpp:15-19 | reads the DHT, then the photoresistor, whatever the results (both nodes) |
| Sensors.RegistersBoth | kochanowskiego/tv/sensors.cpp:21-24 | both trigger topics are added under the stored device name; nothing is published |
| Sensors.TopicsDiffer | kochanowskiego/tv/sensors.cpp:21-24 | the two sensor topics of one device differ |
| Sensors.Sensors.HandleMqttCommunication | kochanowskiego/tv/sensors.cpp:21-24 | the client ends as `Registered` under the stored device name (both nodes) |
| Sensors.TriggersAfterRegistration | kochanowskiego/tv/sensors.cpp:21-24 | once registered, any payload on either topic triggers that sensor's read and publications and leaves the other sensor alone |
| Sensors.OthersIgnored | kochanowskiego/tv/sensors.cpp:21-24 | messages on other topics or callbacks change nothing |
| Sensors.DispatchKeepsStatusOk | Elements/DhtService/DhtService.cpp:27-34 | a sensor trigger publishes only to non-status topics, so every retained status stays `OK` (photoresistor: `Elements/PhotoresistorService/PhotoresistorService.cpp:30-35`) |
| Sensors.Sensors.Deliver | kochanowskiego/tv/sensors.cpp:21-24 | an inbound message changes both sensors and the client exactly as `Sensors.Dispatch` |
| Sensors.Sensors.GetStatus | kochanowskiego/tv/sensors.cpp:26-35 | the snapshot has exactly the keys `photoresistor` and the node's DHT key (`dht` here, `DHT` in the main node's `sensors.cpp`), each mapped to that sensor's status |
| Sensors.Sensors.Tv | kochanowskiego/tv/sensors.cpp:3-8 | the tv registry: stores the device name, DHT key `dht`, both sensors fresh |
| Sensors.Sensors.Main | kochanowskiego/sensors.cpp:3-8 | the main registry: stores the device name, DHT key `DHT`, both sensors fresh |
| Node.StepKeepsStatusOk | kochanowskiego/tv/sensors.cpp:21-24 | with switches and sensors registered on one client, any inbound message keeps every retained status `OK` |
| Node.RunAllKeepsStatusOk | kochanowskiego/tv/devices.cpp:60-67 | the same for any sequence of messages |
| Node.ReplayNeverRestores | Elements/SwitchService/SwitchService.cpp:33-44 | with the sensors publishing on the same client, after any history the retained status replayed into a re-registered switch leaves every switch as booted |

## Left out

- MQTT transport: connecting, reconnecting, the broker and real delivery are
  out of scope. The client is a subscription map and a publish log.
- Duplicate subscriptions: re-subscribing a topic replaces its callback. What
  the library does with two callbacks on one topic is not modelled.
- Retained messages: the model does not include the broker rule that a
  zero-length retained payload clears the topic.
- Other publishers: the broker's retained store is derived from this node's
  own publish log (`Mqtt.Retained`). Other MQTT clients that publish to the
  same topics, in particular a retained `ON` or `OFF` on a status topic, are
  not modelled.
- JSON: `deserializeJson` is not modelled. The IR command arrives as an
  already-decoded `IrCommand`, and `decode` is a parameter. A missing field
  reads as what ArduinoJson gives for it, which is the decoder's business.
  Snapshots are `map<string, string>` rather than nested JSON objects.
- A missing `signal` field: ArduinoJson then passes `NULL` to `strtoul`,
  which is undefined behaviour in C. The model has no such case, because
  `IrCommand.signal` is always a string.
- IR waveform: only the `sendSAMSUNG` / `sendNEC` calls are recorded, not the
  modulated signal.
- Float formatting: `String(temperature)` and similar conversions are not
  modelled. Payloads carry the number itself (`Float`, `Int`).
- DHT driver: `readHumidity`, `readTemperature` and `isnan` are an
  `Option<real>` parameter. `computeHeatIndex` is an uninterpreted function
  value.
- Hardware: `analogRead` is an `int` parameter. `pinMode` is a boolean flag.
  `digitalWrite` is the write log.
- `delay` and all `Serial` output carry no state and are dropped.
- Text.EqualsIgnoreCase: Arduino compares the C strings, so an embedded NUL
  would end the comparison early. The model compares whole strings.
- The sensor classes under `kochanowskiego/src/classes/sensors/`: their
  implementations are not modelled. The main node's sensors use the library
  sensor elements instead.
- Header files carry declarations only and have no behaviour of their own.
- Concurrency: there is none; everything runs in one cooperative loop.
