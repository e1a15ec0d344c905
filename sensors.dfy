/** The sensor registry of a node: the DHT11 element and the photoresistor on
    A0. The main node and the tv node differ only in the key under which the
    DHT status is reported. */
module Sensors {
  import opened Mqtt
  import opened SwitchLogic
  import Dht
  import Photoresistor

  const PHOTORESISTOR_KEY: string := "photoresistor"
  /** The DHT status key of the tv node and of the main node. */
  const TV_DHT_KEY: string := "dht"
  const MAIN_DHT_KEY: string := "DHT"

  /** A0 of an ESP8266 as a GPIO number. */
  const PIN_A0: nat := 17

  /** What both sensors hold: the DHT cache and the last light sample. */
  datatype Readings = Readings(dht: Dht.Cache, light: int)

  /** What `handleMqttCommunication` registers: the DHT trigger, then the photoresistor's. */
  function Registered(l: Link, device: string): Link
  {
    l.Subscribe(Dht.Topic(device), ReadDht(Dht.Topic(device)))
     .Subscribe(Photoresistor.Topic(device), ReadPhotoresistor(Photoresistor.Topic(device)))
  }

  /** The client running the callback registered for the message's topic;
      only the two read triggers act. The samples are what the drivers
      would return if called. */
  function Dispatch(r: Readings, l: Link, m: Inbound, dhtSample: Dht.Sample, lightSample: int,
                    heatIndexOf: (real, real) -> real): (Readings, Link)
  {
    if m.topic !in l.subscriptions then (r, l)
    else match l.subscriptions[m.topic]
      case ReadDht(topic) =>
        var (c, l') := Dht.Poll(r.dht, l, topic, dhtSample, heatIndexOf);
        (r.(dht := c), l')
      case ReadPhotoresistor(topic) =>
        var (v, l') := Photoresistor.Poll(l, topic, lightSample);
        (r.(light := v), l')
      case _ => (r, l)
  }

  lemma TopicsDiffer(device: string)
    ensures Dht.Topic(device) != Photoresistor.Topic(device)
  {
    assert |Dht.Topic(device)| != |Photoresistor.Topic(device)|;
  }

  /** Registering adds the two trigger topics and publishes nothing. */
  lemma RegistersBoth(l: Link, device: string)
    ensures var r := Registered(l, device);
            && r.published == l.published
            && r.subscriptions.Keys == l.subscriptions.Keys + {Dht.Topic(device), Photoresistor.Topic(device)}
            && r.subscriptions[Dht.Topic(device)] == ReadDht(Dht.Topic(device))
            && r.subscriptions[Photoresistor.Topic(device)] == ReadPhotoresistor(Photoresistor.Topic(device))
  {
    TopicsDiffer(device);
  }

  /** Once registered, any message on the DHT topic triggers a DHT read and
      its publications, and any message on the photoresistor topic a light
      read and its publication; the other sensor is left alone. */
  lemma TriggersAfterRegistration(r: Readings, l: Link, device: string, payload: string,
                                  dhtSample: Dht.Sample, lightSample: int, heatIndexOf: (real, real) -> real)
    ensures var l1 := Registered(l, device);
            var d := Dispatch(r, l1, Inbound(Dht.Topic(device), payload), dhtSample, lightSample, heatIndexOf);
            var p := Dht.Poll(r.dht, l1, Dht.Topic(device), dhtSample, heatIndexOf);
            d == (Readings(p.0, r.light), p.1)
    ensures var l1 := Registered(l, device);
            var d := Dispatch(r, l1, Inbound(Photoresistor.Topic(device), payload), dhtSample, lightSample, heatIndexOf);
            var p := Photoresistor.Poll(l1, Photoresistor.Topic(device), lightSample);
            d == (Readings(r.dht, lightSample), p.1)
  {
    RegistersBoth(l, device);
  }

  /** Messages on topics nobody subscribed to, and on foreign callbacks, change nothing. */
  lemma OthersIgnored(r: Readings, l: Link, m: Inbound, dhtSample: Dht.Sample, lightSample: int,
                      heatIndexOf: (real, real) -> real)
    requires m.topic !in l.subscriptions ||
             !(l.subscriptions[m.topic].ReadDht? || l.subscriptions[m.topic].ReadPhotoresistor?)
    ensures Dispatch(r, l, m, dhtSample, lightSample, heatIndexOf) == (r, l)
  {
  }

  /** The sensors publish only to `.../temperature`, `.../humidity`,
      `.../heat_index` and `.../value`, none of them a status topic, so a
      trigger keeps every retained status "OK". */
  lemma DispatchKeepsStatusOk(r: Readings, l: Link, m: Inbound, dhtSample: Dht.Sample, lightSample: int,
                              heatIndexOf: (real, real) -> real)
    requires StatusOkOnly(l.published)
    ensures StatusOkOnly(Dispatch(r, l, m, dhtSample, lightSample, heatIndexOf).1.published)
  {
    if m.topic in l.subscriptions {
      match l.subscriptions[m.topic]
      case ReadDht(topic) =>
        NotStatusTopic(topic, "/temperature");
        NotStatusTopic(topic, "/humidity");
        NotStatusTopic(topic, "/heat_index");
      case ReadPhotoresistor(topic) =>
        NotStatusTopic(topic, "/value");
      case _ =>
    }
  }

  class Sensors {
    const deviceName: string
    const dhtKey: string
    const dht: Dht.DhtService
    const photoresistor: Photoresistor.PhotoresistorService

    function State(): Readings
      reads dht, photoresistor
    {
      Readings(dht.Cached(), photoresistor.value)
    }

    /** The tv node's registry. */
    constructor Tv(deviceName: string, heatIndexOf: (real, real) -> real)
      ensures this.deviceName == deviceName && dhtKey == TV_DHT_KEY && dht.heatIndexOf == heatIndexOf
      ensures State() == Readings(Dht.Cache(0.0, 0.0, 0.0, ""), 0) && !dht.begun
    {
      this.deviceName, dhtKey := deviceName, TV_DHT_KEY;
      dht := new Dht.DhtService(heatIndexOf);
      photoresistor := new Photoresistor.PhotoresistorService(PIN_A0);
    }

    /** The main node's registry. */
    constructor Main(deviceName: string, heatIndexOf: (real, real) -> real)
      ensures this.deviceName == deviceName && dhtKey == MAIN_DHT_KEY && dht.heatIndexOf == heatIndexOf
      ensures State() == Readings(Dht.Cache(0.0, 0.0, 0.0, ""), 0) && !dht.begun
    {
      this.deviceName, dhtKey := deviceName, MAIN_DHT_KEY;
      dht := new Dht.DhtService(heatIndexOf);
      photoresistor := new Photoresistor.PhotoresistorService(PIN_A0);
    }

    /** The DHT first, then the photoresistor, one read each. */
    method Init(dhtSample: Dht.Sample, lightSample: int)
      modifies dht, photoresistor
      ensures State() == Readings(Dht.Read(old(dht.Cached()), dhtSample, dht.heatIndexOf).1, lightSample)
      ensures dht.begun
    {
      dht.Init(dhtSample);
      photoresistor.Init(lightSample);
    }

    method GetSensorsReadings(dhtSample: Dht.Sample, lightSample: int)
      modifies dht, photoresistor
      ensures State() == Readings(Dht.Read(old(dht.Cached()), dhtSample, dht.heatIndexOf).1, lightSample)
      ensures dht.begun == old(dht.begun)
    {
      var _ := dht.GetReadings(dhtSample);
      var _ := photoresistor.GetReadings(lightSample);
    }

    method HandleMqttCommunication(client: Client)
      modifies client
      ensures client.State() == Registered(old(client.State()), deviceName)
    {
      dht.HandleMqtt(client, deviceName);
      photoresistor.HandleMqtt(client, deviceName);
    }

    /** The client delivering one message to the callback registered for its topic. */
    method Deliver(client: Client, m: Inbound, dhtSample: Dht.Sample, lightSample: int)
      modifies client, dht, photoresistor
      ensures (State(), client.State()) == Dispatch(old(State()), old(client.State()), m, dhtSample, lightSample, dht.heatIndexOf)
      ensures dht.begun == old(dht.begun)
    {
      if m.topic in client.subscriptions {
        var cb := client.subscriptions[m.topic];
        if cb.ReadDht? {
          dht.OnTrigger(client, cb.topic, dhtSample);
        } else if cb.ReadPhotoresistor? {
          photoresistor.OnTrigger(client, cb.topic, lightSample);
        }
      }
    }

    /** The status snapshot: the photoresistor's and the DHT's status, keyed by sensor. */
    method GetStatus() returns (snapshot: map<string, string>)
      requires dhtKey == TV_DHT_KEY || dhtKey == MAIN_DHT_KEY
      ensures snapshot.Keys == {PHOTORESISTOR_KEY, dhtKey} && |snapshot| == 2
      ensures snapshot[PHOTORESISTOR_KEY] == Photoresistor.Status(photoresistor.value)
      ensures snapshot[dhtKey] == Dht.Status(dht.Cached())
    {
      snapshot := map[PHOTORESISTOR_KEY := photoresistor.GetStatus()];
      snapshot := snapshot[dhtKey := dht.GetStatus()];
    }
  }
}
