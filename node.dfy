/** One node as its sketch runs it: the actuator registry's switches and the
    sensor registry's readings are registered on the same MQTT client, and each
    inbound message runs the one callback registered for its topic. */
module Node {
  import opened Mqtt
  import opened SwitchLogic
  import opened Router
  import Dht
  import Sensors

  /** The switches of the actuator registry, the sensor caches, and the shared client. */
  datatype World = World(switches: seq<SwitchState>, sensors: Sensors.Readings, link: Link)

  /** An inbound message, with what the sensor drivers read if it triggers them. */
  datatype Event = Event(message: Inbound, dht: Dht.Sample, light: int)

  predicate IsSensorCallback(cb: Callback)
  {
    cb.ReadDht? || cb.ReadPhotoresistor?
  }

  /** A sensor trigger runs on the sensors; anything else goes to the switches
      (the IR callback changes neither the switches nor the client). */
  function Step(w: World, names: seq<string>, e: Event, heatIndexOf: (real, real) -> real): (r: World)
    requires |w.switches| == |names|
    ensures |r.switches| == |names|
  {
    var m := e.message;
    if m.topic in w.link.subscriptions && IsSensorCallback(w.link.subscriptions[m.topic]) then
      var (readings, l) := Sensors.Dispatch(w.sensors, w.link, m, e.dht, e.light, heatIndexOf);
      World(w.switches, readings, l)
    else
      var (sws, l) := Router.Dispatch(w.switches, names, w.link, m);
      World(sws, w.sensors, l)
  }

  function RunAll(w: World, names: seq<string>, es: seq<Event>, heatIndexOf: (real, real) -> real): (r: World)
    requires |w.switches| == |names|
    ensures |r.switches| == |names|
  {
    if es == [] then w else Step(RunAll(w, names, es[..|es| - 1], heatIndexOf), names, es[|es| - 1], heatIndexOf)
  }

  /** Switch commands and sensor triggers alike keep every retained status "OK". */
  lemma StepKeepsStatusOk(w: World, names: seq<string>, e: Event, heatIndexOf: (real, real) -> real)
    requires |w.switches| == |names|
    requires StatusOkOnly(w.link.published)
    ensures StatusOkOnly(Step(w, names, e, heatIndexOf).link.published)
  {
    var m := e.message;
    if m.topic in w.link.subscriptions && IsSensorCallback(w.link.subscriptions[m.topic]) {
      Sensors.DispatchKeepsStatusOk(w.sensors, w.link, m, e.dht, e.light, heatIndexOf);
    } else {
      DispatchKeepsStatusOk(w.switches, names, w.link, m);
    }
  }

  lemma {:induction false} RunAllKeepsStatusOk(w: World, names: seq<string>, es: seq<Event>, heatIndexOf: (real, real) -> real)
    requires |w.switches| == |names|
    requires StatusOkOnly(w.link.published)
    ensures StatusOkOnly(RunAll(w, names, es, heatIndexOf).link.published)
  {
    if es != [] {
      RunAllKeepsStatusOk(w, names, es[..|es| - 1], heatIndexOf);
      StepKeepsStatusOk(RunAll(w, names, es[..|es| - 1], heatIndexOf), names, es[|es| - 1], heatIndexOf);
    }
  }

  /** Boot recovery never restores a switch, even with the sensors publishing
      their readings on the same client: whatever messages the node handled
      before the restart, the retained value of a switch's status topic is "OK"
      (or there is none), and replaying it into the re-registered recovery
      callback leaves every switch as it booted. */
  lemma ReplayNeverRestores(w0: World, es: seq<Event>, names: seq<string>, device: string, k: nat,
                            boot: seq<SwitchState>, readings: Sensors.Readings, l0: Link,
                            dhtSample: Dht.Sample, lightSample: int, heatIndexOf: (real, real) -> real)
    requires |w0.switches| == |names| && |boot| == |names| && WellNamed(names) && k < |names|
    requires StatusOkOnly(w0.link.published)
    ensures var log := RunAll(w0, names, es, heatIndexOf).link.published;
            var st := StatusTopic(device, names[k]);
            var rebooted := World(boot, readings, AttachAll(l0, device, names));
            Retained(log, st).Some? ==>
              Retained(log, st).value.Text? &&
              Step(rebooted, names, Event(Inbound(st, Retained(log, st).value.text), dhtSample, lightSample), heatIndexOf).switches == boot
  {
    var log := RunAll(w0, names, es, heatIndexOf).link.published;
    var st := StatusTopic(device, names[k]);
    RunAllKeepsStatusOk(w0, names, es, heatIndexOf);
    ReplayOfStatusOk(boot, names, l0, device, k, log);
    AttachAllRegisters(l0, device, names);
    assert st in Topics(device, names);
  }
}
