/** The actuator registry of the main node: the LED switch and the
    sketch-local IR transmitter. */
module Devices {
  import opened Seqs
  import opened Mqtt
  import opened Statuses
  import opened SwitchLogic
  import opened Switch
  import opened Router
  import opened Blink
  import IrSend
  import IrTransmitter
  import IrTransmitterStub

  const LED_SWITCH_NAME: string := "ledSwitch"
  const IR_TRANSMITTER_NAME: string := "irTransmitter"

  /** Board pins as GPIO numbers of an ESP8266 NodeMCU: LED_BUILTIN and D2. */
  const PIN_LED: nat := 2
  const PIN_IR: nat := 4

  /** What `handleMqttCommunication` registers: the LED switch, then the IR transmitter. */
  function Registered(l: Link, device: string): Link
  {
    Attach(l, device, LED_SWITCH_NAME).Subscribe(IrTransmitter.Topic(device), CommandIr)
  }

  /** The LED's recovery and command callbacks and the IR callback on three
      different topics; nothing is published. */
  lemma RegistersAll(l: Link, device: string)
    ensures var r := Registered(l, device);
            var st, ct := StatusTopic(device, LED_SWITCH_NAME), CommandTopic(device, LED_SWITCH_NAME);
            && r.published == l.published
            && r.subscriptions.Keys == l.subscriptions.Keys + {st, ct, IrTransmitter.Topic(device)}
            && r.subscriptions[st] == RestoreSwitch(LED_SWITCH_NAME, st)
            && r.subscriptions[ct] == CommandSwitch(LED_SWITCH_NAME, st)
            && r.subscriptions[IrTransmitter.Topic(device)] == CommandIr
  {
    AttachFacts(l, device, LED_SWITCH_NAME);
    assert IrTransmitter.Topic(device) == CommandTopic(device, IrTransmitter.IR_TOPIC);
    TopicsDistinct(device, IrTransmitter.IR_TOPIC, LED_SWITCH_NAME);
  }

  /** What a message does to the IR transmitter: one stop frame when it lands on the IR callback. */
  function IrEffect(l: Link, m: Inbound): seq<IrSend.Emission>
  {
    if m.topic in l.subscriptions && l.subscriptions[m.topic].CommandIr?
    then [IrSend.SendNec(IrSend.NEC_STOP, IrSend.NBITS)] else []
  }

  class Devices {
    const deviceName: string
    const ledSwitch: SwitchService
    const irTransmitter: IrTransmitterStub.IrTransmitterService

    predicate Valid()
      reads ledSwitch
    {
      ledSwitch.name == LED_SWITCH_NAME && irTransmitter.name == IR_TRANSMITTER_NAME && ledSwitch.Valid()
    }

    constructor (deviceName: string)
      ensures this.deviceName == deviceName && Valid()
      ensures ledSwitch.State() == SwitchState(false, []) && ledSwitch.isOutput && irTransmitter.emitted == []
    {
      this.deviceName := deviceName;
      ledSwitch := new SwitchService(PIN_LED, LED_SWITCH_NAME);
      irTransmitter := new IrTransmitterStub.IrTransmitterService(PIN_IR, IR_TRANSMITTER_NAME);
    }

    method Init()
      requires Valid()
      modifies ledSwitch, irTransmitter
      ensures Valid() && ledSwitch.State() == old(ledSwitch.State()) && ledSwitch.isOutput
      ensures irTransmitter.begun && irTransmitter.emitted == old(irTransmitter.emitted)
    {
      ledSwitch.Init();
      irTransmitter.Init();
    }

    /** `times` on/off cycles on the LED, then off; `interval` only sets delays. */
    method BlinkLed(times: int, interval: int)
      requires Valid()
      modifies ledSwitch
      ensures Valid()
      ensures ledSwitch.State() == SwitchState(false, old(ledSwitch.writes) + Pattern(times))
      ensures ledSwitch.isOutput == old(ledSwitch.isOutput)
    {
      var i := 0;
      while i < times
        invariant 0 <= i <= Max0(times)
        invariant ledSwitch.writes == old(ledSwitch.writes) + Repeat([Low, High], i)
        invariant Valid() && ledSwitch.isOutput == old(ledSwitch.isOutput)
      {
        ledSwitch.On();
        ledSwitch.Off();
        i := i + 1;
      }
      ledSwitch.Off();
      assert Repeat([Low, High], i) == Repeat([Low, High], times);
    }

    /** Three rounds of blinks, and the LED is left off. */
    method ActivateOfflineMode()
      requires Valid()
      modifies ledSwitch
      ensures Valid()
      ensures ledSwitch.State() == SwitchState(false, old(ledSwitch.writes) + Pattern(3) + Pattern(3) + Pattern(3))
      ensures ledSwitch.isOutput == old(ledSwitch.isOutput)
    {
      BlinkLed(3, 100);
      BlinkLed(3, 300);
      BlinkLed(3, 100);
    }

    method HandleMqttCommunication(client: Client)
      requires Valid()
      modifies client
      ensures client.State() == Registered(old(client.State()), deviceName)
    {
      ledSwitch.HandleMqtt(client, deviceName);
      irTransmitter.HandleMqtt(client, deviceName);
    }

    /** The client delivering one message to the callback registered for its topic. */
    method Deliver(client: Client, m: Inbound)
      requires Valid()
      modifies client, ledSwitch, irTransmitter
      ensures Valid()
      ensures ([ledSwitch.State()], client.State()) == Dispatch([old(ledSwitch.State())], [LED_SWITCH_NAME], old(client.State()), m)
      ensures ledSwitch.isOutput == old(ledSwitch.isOutput)
      ensures irTransmitter.emitted == old(irTransmitter.emitted) + IrEffect(old(client.State()), m)
    {
      if m.topic in client.subscriptions {
        var cb := client.subscriptions[m.topic];
        if IsSwitchCallback(cb) && cb.element == LED_SWITCH_NAME {
          ghost var before := [ledSwitch.State()];
          DispatchAt(before, [LED_SWITCH_NAME], client.State(), m, 0);
          ledSwitch.Run(client, cb, m.payload);
          assert [ledSwitch.State()] == before[0 := ledSwitch.State()];
        } else if cb.CommandIr? {
          var _ := irTransmitter.HandleCommand(m.payload);
        }
      }
    }

    /** The status snapshot: one entry per element, keyed by its name. */
    method GetStatus() returns (snapshot: map<string, string>)
      requires Valid()
      ensures snapshot.Keys == {LED_SWITCH_NAME, IR_TRANSMITTER_NAME} && |snapshot| == 2
      ensures snapshot[LED_SWITCH_NAME] == ledSwitch.GetStatus()
      ensures snapshot[IR_TRANSMITTER_NAME] == irTransmitter.GetStatus()
      ensures forall k :: k in snapshot ==> snapshot[k] == STATUS_OK
    {
      snapshot := map[];
      snapshot := snapshot[LED_SWITCH_NAME := ledSwitch.GetStatus()];
      snapshot := snapshot[IR_TRANSMITTER_NAME := irTransmitter.GetStatus()];
    }
  }
}
