/** The publish/subscribe client (EspMQTTClient) as abstract state: which topics
    are subscribed and with which callback, and every message published so far.
    Delivery itself is driven from outside, one (topic, payload) at a time. */
module Mqtt {
  import opened Wrappers

  /** What a published message carries. Numbers are kept as numbers: the
      firmware publishes `String(value)` of an int or a float. */
  datatype Payload = Text(text: string) | Int(i: int) | Float(x: real)

  datatype Message = Message(topic: string, payload: Payload, retained: bool)

  /** A message the broker delivers to the client. */
  datatype Inbound = Inbound(topic: string, payload: string)

  /** The callbacks the elements register, one constructor per lambda in the
      firmware, holding what that lambda captures. */
  datatype Callback =
    | RestoreSwitch(element: string, statusTopic: string)  // one-shot boot recovery
    | CommandSwitch(element: string, statusTopic: string)  // steady-state switch commands
    | CommandIr                                           // IR transmitter commands
    | ReadDht(topic: string)                              // DHT read trigger
    | ReadPhotoresistor(topic: string)                    // light sensor read trigger

  /** The client's state as a value. */
  datatype Link = Link(subscriptions: map<string, Callback>, published: seq<Message>)
  {
    function Subscribe(topic: string, cb: Callback): Link
    {
      this.(subscriptions := subscriptions[topic := cb])
    }

    function Unsubscribe(topic: string): Link
    {
      this.(subscriptions := subscriptions - {topic})
    }

    function Publish(m: Message): Link
    {
      this.(published := published + [m])
    }
  }

  /** What the broker hands a new subscriber of `topic`: the payload of the last
      retained message published to it, if any. */
  function Retained(published: seq<Message>, topic: string): Option<Payload>
  {
    if published == [] then None
    else
      var m := published[|published| - 1];
      if m.topic == topic && m.retained then Some(m.payload)
      else Retained(published[..|published| - 1], topic)
  }

  /** A replayed retained value is one that was published, retained, to that topic. */
  lemma {:induction false} RetainedWasPublished(published: seq<Message>, topic: string)
    ensures Retained(published, topic).Some? ==>
      exists i :: 0 <= i < |published| && published[i] == Message(topic, Retained(published, topic).value, true)
  {
    if published != [] {
      var m := published[|published| - 1];
      if !(m.topic == topic && m.retained) {
        var front := published[..|published| - 1];
        RetainedWasPublished(front, topic);
        if Retained(front, topic).Some? {
          var i :| 0 <= i < |front| && front[i] == Message(topic, Retained(front, topic).value, true);
          assert published[i] == front[i];
        }
      }
    }
  }

  class Client {
    var subscriptions: map<string, Callback>
    var published: seq<Message>

    function State(): Link
      reads this
    {
      Link(subscriptions, published)
    }

    constructor ()
      ensures State() == Link(map[], [])
    {
      subscriptions, published := map[], [];
    }

    method Subscribe(topic: string, cb: Callback)
      modifies this
      ensures State() == old(State()).Subscribe(topic, cb)
    {
      subscriptions := subscriptions[topic := cb];
    }

    method Unsubscribe(topic: string)
      modifies this
      ensures State() == old(State()).Unsubscribe(topic)
    {
      subscriptions := subscriptions - {topic};
    }

    method Publish(topic: string, payload: Payload, retained: bool)
      modifies this
      ensures State() == old(State()).Publish(Message(topic, payload, retained))
    {
      published := published + [Message(topic, payload, retained)];
    }
  }
}
