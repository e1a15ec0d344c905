/** `SwitchService`: an on/off element driving one relay pin, and its two MQTT
    callbacks. The same state machine serves both copies of the class in the
    repository (the library one under Elements/ and the sketch-local one under
    kochanowskiego/src/, which lacks only `handleMqtt`). */
module Switch {
  import opened Mqtt
  import opened Statuses
  import opened SwitchLogic

  class SwitchService {
    const pin: nat
    const name: string
    var switched: bool
    var writes: seq<Level>   // every digitalWrite to the pin
    var isOutput: bool       // pinMode(pin, OUTPUT) has run

    function State(): SwitchState
      reads this
    {
      SwitchState(switched, writes)
    }

    predicate Valid()
      reads this
    {
      PinMatches(State())
    }

    /** The instances are globals, so `switched` starts zero-initialised (off);
        the constructor only configures the pin. */
    constructor (pin: nat, name: string)
      ensures this.pin == pin && this.name == name
      ensures State() == SwitchState(false, []) && isOutput && Valid()
    {
      this.pin, this.name := pin, name;
      switched, writes := false, [];
      isOutput := true;
    }

    method Init()
      modifies this
      ensures State() == old(State()) && isOutput
    {
      isOutput := true;
    }

    method On()
      modifies this
      ensures State() == SwitchLogic.On(old(State())) && isOutput == old(isOutput)
    {
      writes := writes + [Low];
      switched := true;
    }

    method Off()
      modifies this
      ensures State() == SwitchLogic.Off(old(State())) && isOutput == old(isOutput)
    {
      writes := writes + [High];
      switched := false;
    }

    method IsSwitched() returns (b: bool)
      ensures b == switched
    {
      b := switched;
    }

    method SwitchElement(high: bool)
      modifies this
      ensures State() == SwitchTo(old(State()), high) && isOutput == old(isOutput)
      ensures switched == high
    {
      if high { On(); } else { Off(); }
    }

    method HandleCommand(command: string) returns (accepted: bool)
      modifies this
      ensures accepted == Accepts(command)
      ensures State() == SwitchLogic.HandleCommand(old(State()), command) && isOutput == old(isOutput)
      ensures old(Valid()) ==> Valid()
    {
      if command == ON {
        SwitchElement(true);
        return true;
      } else if command == OFF {
        SwitchElement(false);
        return true;
      }
      return false;
    }

    /** Switches are assumed to actuate without fail. */
    function GetStatus(): (s: string)
      ensures s == STATUS_OK
    {
      STATUS_OK
    }

    method HandleMqtt(client: Client, deviceName: string)
      modifies client
      ensures client.State() == Attach(old(client.State()), deviceName, name)
    {
      var topic := deviceName + "/" + name;
      var statusTopic := topic + STATUS_SUFFIX;
      client.Subscribe(statusTopic, RestoreSwitch(name, statusTopic));
      client.Subscribe(topic, CommandSwitch(name, statusTopic));
    }

    /** The client invoking one of this switch's callbacks with `payload`. */
    method Run(client: Client, cb: Callback, payload: string)
      modifies this, client
      ensures Node(State(), client.State()) == SwitchLogic.Run(old(Node(State(), client.State())), cb, payload)
      ensures isOutput == old(isOutput)
      ensures old(Valid()) ==> Valid()
    {
      match cb {
        case RestoreSwitch(_, statusTopic) =>
          var _ := HandleCommand(payload);
          client.Unsubscribe(statusTopic);
        case CommandSwitch(_, statusTopic) =>
          var accepted := HandleCommand(payload);
          if accepted {
            client.Publish(statusTopic, Text(GetStatus()), true);
          }
        case _ =>
      }
    }
  }
}
