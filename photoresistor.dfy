/** The light-sensor element. Its last sample is a file-level global `value`;
    the one `PhotoresistorService` object here stands for it. */
module Photoresistor {
  import opened Mqtt
  import opened Statuses

  const PHOTORESISTOR_TOPIC: string := "photoresistor"

  function Status(value: int): string
  {
    if value >= 0 then STATUS_OK else READ_ERROR
  }

  function Topic(device: string): string
  {
    device + "/" + PHOTORESISTOR_TOPIC
  }

  /** The read-trigger callback: sample, then publish the sample, retained. */
  function Poll(l: Link, topic: string, sample: int): (int, Link)
  {
    (sample, l.Publish(Message(topic + "/value", Int(sample), true)))
  }

  /** "OK" exactly for non-negative samples; the initial 0 reads as "OK". */
  lemma StatusCases(value: int)
    ensures Status(value) == STATUS_OK <==> value >= 0
    ensures Status(value) != STATUS_OK ==> Status(value) == READ_ERROR
    ensures Status(0) == STATUS_OK
  {
  }

  /** Each trigger publishes exactly one retained message: the new sample on `/value`. */
  lemma PollPublishes(l: Link, device: string, sample: int)
    ensures var (v, l') := Poll(l, Topic(device), sample);
            && v == sample
            && l'.subscriptions == l.subscriptions
            && l'.published == l.published + [Message(device + "/photoresistor/value", Int(sample), true)]
  {
    assert Topic(device) + "/value" == device + "/photoresistor/value";
  }

  class PhotoresistorService {
    const pin: nat
    var value: int

    constructor (pin: nat)
      ensures this.pin == pin && value == 0
    {
      this.pin := pin;
      value := 0;
    }

    /** One read. */
    method Init(sample: int)
      modifies this
      ensures value == sample
    {
      var _ := GetReadings(sample);
    }

    /** `analogRead(pin)` is `sample`; reading cannot fail. */
    method GetReadings(sample: int) returns (ok: bool)
      modifies this
      ensures ok && value == sample
    {
      value := sample;
      return true;
    }

    function GetStatus(): (s: string)
      reads this
      ensures s == Status(value)
    {
      if value >= 0 then STATUS_OK else READ_ERROR
    }

    method HandleMqtt(client: Client, deviceName: string)
      modifies client
      ensures client.State() == old(client.State()).Subscribe(Topic(deviceName), ReadPhotoresistor(Topic(deviceName)))
    {
      var topic := deviceName + "/" + PHOTORESISTOR_TOPIC;
      client.Subscribe(topic, ReadPhotoresistor(topic));
    }

    /** The read-trigger callback, whatever the payload. */
    method OnTrigger(client: Client, topic: string, sample: int)
      modifies this, client
      ensures (value, client.State()) == Poll(old(client.State()), topic, sample)
    {
      var ok := GetReadings(sample);
      if ok {
        client.Publish(topic + "/value", Int(value), true);
      }
    }
  }
}
