/** The DHT11 humidity/temperature element. Its cached readings and error live
    in file-level globals; the one `DhtService` object here stands for them. */
module Dht {
  import opened Wrappers
  import opened Mqtt
  import opened Statuses

  const DHT_TOPIC: string := "dht"

  /** One pair of driver readings; `None` stands for NaN, the driver's failure value. */
  datatype Sample = Sample(humidity: Option<real>, temperature: Option<real>)

  /** The globals `humidity`, `temperature`, `heatIndex` and `error`. */
  datatype Cache = Cache(humidity: real, temperature: real, heatIndex: real, error: string)

  /** `getReadings`: its result and the new cache. `heatIndexOf(t, h)` is the
      driver's `computeHeatIndex(t, h, false)`. */
  function Read(c: Cache, s: Sample, heatIndexOf: (real, real) -> real): (bool, Cache)
  {
    if s.humidity.None? || s.temperature.None? then (false, c.(error := READ_ERROR))
    else
      var h, t := s.humidity.value, s.temperature.value;
      (true, Cache(h, t, heatIndexOf(t, h), ""))
  }

  function Status(c: Cache): string
  {
    if c.error == "" then STATUS_OK else c.error
  }

  /** The error is either clear or READ_ERROR. */
  predicate Valid(c: Cache)
  {
    c.error == "" || c.error == READ_ERROR
  }

  function Topic(device: string): string
  {
    device + "/" + DHT_TOPIC
  }

  /** The read-trigger callback: read, and after a good read publish the three
      new values, retained, in this order. */
  function Poll(c: Cache, l: Link, topic: string, s: Sample, heatIndexOf: (real, real) -> real): (Cache, Link)
  {
    var (ok, c') := Read(c, s, heatIndexOf);
    if ok then
      (c', l.Publish(Message(topic + "/temperature", Float(c'.temperature), true))
            .Publish(Message(topic + "/humidity", Float(c'.humidity), true))
            .Publish(Message(topic + "/heat_index", Float(c'.heatIndex), true)))
    else (c', l)
  }

  /** A failed read keeps the last good values and records READ_ERROR; a good
      read replaces all three values together and clears the error. */
  lemma ReadCases(c: Cache, s: Sample, heatIndexOf: (real, real) -> real)
    ensures var (ok, c') := Read(c, s, heatIndexOf);
            && (ok <==> s.humidity.Some? && s.temperature.Some?)
            && (!ok ==> c'.humidity == c.humidity && c'.temperature == c.temperature &&
                        c'.heatIndex == c.heatIndex && c'.error == READ_ERROR)
            && (ok ==> c'.humidity == s.humidity.value && c'.temperature == s.temperature.value &&
                       c'.heatIndex == heatIndexOf(s.temperature.value, s.humidity.value) && c'.error == "")
            && Valid(c')
  {
  }

  /** The status is "OK" exactly when no error is recorded, and the error otherwise. */
  lemma StatusCases(c: Cache)
    requires Valid(c)
    ensures Status(c) == STATUS_OK <==> c.error == ""
    ensures c.error != "" ==> Status(c) == READ_ERROR
  {
  }

  /** A good read after a failed one brings the status back to "OK". */
  lemma RecoversAfterGoodRead(c: Cache, bad: Sample, good: Sample, heatIndexOf: (real, real) -> real)
    requires bad.humidity.None? || bad.temperature.None?
    requires good.humidity.Some? && good.temperature.Some?
    ensures Status(Read(c, bad, heatIndexOf).1) == READ_ERROR
    ensures Status(Read(Read(c, bad, heatIndexOf).1, good, heatIndexOf).1) == STATUS_OK
  {
  }

  /** A trigger publishes three retained values after a good read, none after a
      failed one; it never changes the subscriptions. */
  lemma PollPublishes(c: Cache, l: Link, device: string, s: Sample, heatIndexOf: (real, real) -> real)
    ensures var (c', l') := Poll(c, l, Topic(device), s, heatIndexOf);
            && c' == Read(c, s, heatIndexOf).1
            && l'.subscriptions == l.subscriptions
            && (Read(c, s, heatIndexOf).0 ==>
                  l'.published == l.published +
                    [Message(device + "/dht/temperature", Float(c'.temperature), true),
                     Message(device + "/dht/humidity", Float(c'.humidity), true),
                     Message(device + "/dht/heat_index", Float(c'.heatIndex), true)])
            && (!Read(c, s, heatIndexOf).0 ==> l'.published == l.published)
  {
    var t := Topic(device);
    assert t + "/temperature" == device + "/dht/temperature";
    assert t + "/humidity" == device + "/dht/humidity";
    assert t + "/heat_index" == device + "/dht/heat_index";
  }

  class DhtService {
    const heatIndexOf: (real, real) -> real
    var humidity: real
    var temperature: real
    var heatIndex: real
    var error: string
    var begun: bool   // dht.begin() has run

    function Cached(): Cache
      reads this
    {
      Cache(humidity, temperature, heatIndex, error)
    }

    /** Globals start zero-initialised, `error` empty. */
    constructor (heatIndexOf: (real, real) -> real)
      ensures this.heatIndexOf == heatIndexOf
      ensures Cached() == Cache(0.0, 0.0, 0.0, "") && !begun
    {
      this.heatIndexOf := heatIndexOf;
      humidity, temperature, heatIndex, error := 0.0, 0.0, 0.0, "";
      begun := false;
    }

    /** `dht.begin()` and one read. */
    method Init(s: Sample)
      modifies this
      ensures Cached() == Read(old(Cached()), s, heatIndexOf).1 && begun
    {
      begun := true;
      var _ := GetReadings(s);
    }

    method GetReadings(s: Sample) returns (ok: bool)
      modifies this
      ensures (ok, Cached()) == Read(old(Cached()), s, heatIndexOf) && begun == old(begun)
    {
      if s.humidity.None? || s.temperature.None? {
        error := READ_ERROR;
        return false;
      }
      var h, t := s.humidity.value, s.temperature.value;
      var hic := heatIndexOf(t, h);
      heatIndex := hic;
      temperature := t;
      humidity := h;
      error := "";
      return true;
    }

    function GetStatus(): (s: string)
      reads this
      ensures s == Status(Cached())
    {
      if error == "" then STATUS_OK else error
    }

    method HandleMqtt(client: Client, deviceName: string)
      modifies client
      ensures client.State() == old(client.State()).Subscribe(Topic(deviceName), ReadDht(Topic(deviceName)))
    {
      var topic := deviceName + "/" + DHT_TOPIC;
      client.Subscribe(topic, ReadDht(topic));
    }

    /** The read-trigger callback, whatever the payload. */
    method OnTrigger(client: Client, topic: string, s: Sample)
      modifies this, client
      ensures (Cached(), client.State()) == Poll(old(Cached()), old(client.State()), topic, s, heatIndexOf)
      ensures begun == old(begun)
    {
      var ok := GetReadings(s);
      if ok {
        client.Publish(topic + "/temperature", Float(temperature), true);
        client.Publish(topic + "/humidity", Float(humidity), true);
        client.Publish(topic + "/heat_index", Float(heatIndex), true);
      }
    }
  }
}
