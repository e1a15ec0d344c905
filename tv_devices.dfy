/** The actuator registry of the tv node: five relay switches and the library
    IR transmitter, with the blink signals and the offline fallback. */
module TvDevices {
  import opened Seqs
  import opened Mqtt
  import opened Statuses
  import opened SwitchLogic
  import opened Switch
  import opened Router
  import opened Blink
  import IrTransmitter
  import IrSend
  import opened Element

  const LED_SWITCH_NAME: string := "ledSwitch"
  const TV_SWITCH_NAME: string := "tvSwitch"
  const AMP_SWITCH_NAME: string := "ampSwitch"
  const SUBWOOFER_SWITCH_NAME: string := "subwooferSwitch"
  const PS3_SWITCH_NAME: string := "ps3Switch"
  const IR_TRANSMITTER_NAME: string := "irTransmitter"

  /** The switches in declaration order. */
  const SWITCH_NAMES: seq<string> :=
    [LED_SWITCH_NAME, TV_SWITCH_NAME, AMP_SWITCH_NAME, SUBWOOFER_SWITCH_NAME, PS3_SWITCH_NAME]

  /** Board pins as GPIO numbers of an ESP8266 NodeMCU: LED_BUILTIN, D5, D6, D7, D8, D2. */
  const PIN_LED: nat := 2
  const PIN_TV: nat := 14
  const PIN_AMP: nat := 12
  const PIN_SUBWOOFER: nat := 13
  const PIN_PS3: nat := 15
  const PIN_IR: nat := 4

  /** What `handleMqttCommunication` registers: the five switches, then the IR transmitter. */
  function Registered(l: Link, device: string): Link
  {
    AttachAll(l, device, SWITCH_NAMES).Subscribe(IrTransmitter.Topic(device), CommandIr)
  }

  /** What a message does to the IR transmitter: a burst when it lands on the IR callback. */
  function IrEffect(l: Link, m: Inbound, decode: string -> IrTransmitter.IrCommand): seq<IrSend.Emission>
  {
    if m.topic in l.subscriptions && l.subscriptions[m.topic].CommandIr?
    then IrTransmitter.Burst(decode(m.payload)) else []
  }

  /** The six element names are pairwise distinct and none holds a '/'. */
  lemma NamesWellFormed()
    ensures WellNamed(SWITCH_NAMES)
    ensures NoSlash(IrTransmitter.IR_TOPIC) && IrTransmitter.IR_TOPIC !in SWITCH_NAMES
    ensures IR_TRANSMITTER_NAME !in SWITCH_NAMES
  {
  }

  /** Every element is registered under the one device name: each switch with
      its recovery and command callbacks, the IR transmitter on its own topic;
      nothing else changes and nothing is published. */
  lemma RegistersAll(l: Link, device: string)
    ensures var r := Registered(l, device);
            && r.published == l.published
            && r.subscriptions.Keys == l.subscriptions.Keys + Topics(device, SWITCH_NAMES) + {IrTransmitter.Topic(device)}
            && r.subscriptions[IrTransmitter.Topic(device)] == CommandIr
            && (forall i :: 0 <= i < |SWITCH_NAMES| ==>
                  r.subscriptions[StatusTopic(device, SWITCH_NAMES[i])] == RestoreSwitch(SWITCH_NAMES[i], StatusTopic(device, SWITCH_NAMES[i])) &&
                  r.subscriptions[CommandTopic(device, SWITCH_NAMES[i])] == CommandSwitch(SWITCH_NAMES[i], StatusTopic(device, SWITCH_NAMES[i])))
  {
    NamesWellFormed();
    AttachAllRegisters(l, device, SWITCH_NAMES);
    var ir := IrTransmitter.Topic(device);
    assert ir == CommandTopic(device, IrTransmitter.IR_TOPIC);
    forall i | 0 <= i < |SWITCH_NAMES|
      ensures ir != StatusTopic(device, SWITCH_NAMES[i]) && ir != CommandTopic(device, SWITCH_NAMES[i])
    {
      TopicsDistinct(device, IrTransmitter.IR_TOPIC, SWITCH_NAMES[i]);
    }
  }


  class Devices {
    const deviceName: string
    const ledSwitch: SwitchService
    const tvSwitch: SwitchService
    const ampSwitch: SwitchService
    const subwooferSwitch: SwitchService
    const ps3Switch: SwitchService
    const irTransmitter: IrTransmitter.IrTransmitterService

    function States(): seq<SwitchState>
      reads ledSwitch, tvSwitch, ampSwitch, subwooferSwitch, ps3Switch
    {
      [ledSwitch.State(), tvSwitch.State(), ampSwitch.State(), subwooferSwitch.State(), ps3Switch.State()]
    }

    /** Which switch pins have been set up as outputs. */
    function Outputs(): seq<bool>
      reads ledSwitch, tvSwitch, ampSwitch, subwooferSwitch, ps3Switch
    {
      [ledSwitch.isOutput, tvSwitch.isOutput, ampSwitch.isOutput, subwooferSwitch.isOutput, ps3Switch.isOutput]
    }

    function Elements(): seq<Element>
    {
      [SwitchElement(ledSwitch), SwitchElement(tvSwitch), SwitchElement(ampSwitch),
       SwitchElement(subwooferSwitch), SwitchElement(ps3Switch), IrElement(irTransmitter)]
    }

    predicate Valid()
      reads ledSwitch, tvSwitch, ampSwitch, subwooferSwitch, ps3Switch
    {
      && ledSwitch.name == LED_SWITCH_NAME && tvSwitch.name == TV_SWITCH_NAME
      && ampSwitch.name == AMP_SWITCH_NAME && subwooferSwitch.name == SUBWOOFER_SWITCH_NAME
      && ps3Switch.name == PS3_SWITCH_NAME && irTransmitter.name == IR_TRANSMITTER_NAME
      && ledSwitch.Valid() && tvSwitch.Valid() && ampSwitch.Valid()
      && subwooferSwitch.Valid() && ps3Switch.Valid()
    }

    lemma DistinctSwitches()
      requires Valid()
      ensures ledSwitch != tvSwitch && ledSwitch != ampSwitch && ledSwitch != subwooferSwitch && ledSwitch != ps3Switch
      ensures tvSwitch != ampSwitch && tvSwitch != subwooferSwitch && tvSwitch != ps3Switch
      ensures ampSwitch != subwooferSwitch && ampSwitch != ps3Switch && subwooferSwitch != ps3Switch
    {
    }

    /** The elements answer `getName` with the six registry names, in order, all different. */
    lemma ElementNames()
      requires Valid()
      ensures |Elements()| == |SWITCH_NAMES| + 1
      ensures forall i :: 0 <= i < |Elements()| ==> Elements()[i].Name() == (SWITCH_NAMES + [IR_TRANSMITTER_NAME])[i]
      ensures forall i, j :: 0 <= i < j < |Elements()| ==> Elements()[i].Name() != Elements()[j].Name()
    {
    }

    constructor (deviceName: string)
      ensures this.deviceName == deviceName && Valid()
      ensures States() == [SwitchState(false, []), SwitchState(false, []), SwitchState(false, []),
                           SwitchState(false, []), SwitchState(false, [])]
      ensures Outputs() == [true, true, true, true, true]
      ensures irTransmitter.emitted == []
    {
      this.deviceName := deviceName;
      ledSwitch := new SwitchService(PIN_LED, LED_SWITCH_NAME);
      tvSwitch := new SwitchService(PIN_TV, TV_SWITCH_NAME);
      ampSwitch := new SwitchService(PIN_AMP, AMP_SWITCH_NAME);
      subwooferSwitch := new SwitchService(PIN_SUBWOOFER, SUBWOOFER_SWITCH_NAME);
      ps3Switch := new SwitchService(PIN_PS3, PS3_SWITCH_NAME);
      irTransmitter := new IrTransmitter.IrTransmitterService(PIN_IR, IR_TRANSMITTER_NAME);
    }

    method Init()
      requires Valid()
      modifies ledSwitch, tvSwitch, ampSwitch, subwooferSwitch, ps3Switch, irTransmitter
      ensures Valid() && States() == old(States())
      ensures ledSwitch.isOutput && tvSwitch.isOutput && ampSwitch.isOutput
      ensures subwooferSwitch.isOutput && ps3Switch.isOutput
      ensures irTransmitter.begun && irTransmitter.emitted == old(irTransmitter.emitted)
    {
      DistinctSwitches();
      ledSwitch.Init();
      tvSwitch.Init();
      ampSwitch.Init();
      subwooferSwitch.Init();
      ps3Switch.Init();
      irTransmitter.Init();
    }

    /** `times` on/off cycles on the LED, then off; `interval` only sets delays. */
    method BlinkLed(times: int, interval: int)
      requires Valid()
      modifies ledSwitch
      ensures Valid()
      ensures ledSwitch.State() == SwitchState(false, old(ledSwitch.writes) + Pattern(times))
      ensures States()[1..] == old(States()[1..]) && Outputs() == old(Outputs())
    {
      DistinctSwitches();
      var i := 0;
      while i < times
        invariant 0 <= i <= Max0(times)
        invariant ledSwitch.writes == old(ledSwitch.writes) + Repeat([Low, High], i)
        invariant Valid() && ledSwitch.isOutput == old(ledSwitch.isOutput)
      {
        ledSwitch.On();
        ledSwitch.Off();
        i := i + 1;
      }
      ledSwitch.Off();
      assert Repeat([Low, High], i) == Repeat([Low, High], times);
    }

    /** Two quick and two slow blinks; the LED ends off. */
    method ConnectionFailed()
      requires Valid()
      modifies ledSwitch
      ensures Valid()
      ensures ledSwitch.State() == SwitchState(false, old(ledSwitch.writes) + Pattern(2) + Pattern(2))
      ensures States()[1..] == old(States()[1..]) && Outputs() == old(Outputs())
    {
      BlinkLed(2, 100);
      BlinkLed(2, 300);
    }

    /** Three rounds of blinks, then every switch on. */
    method ActivateOfflineMode()
      requires Valid()
      modifies ledSwitch, tvSwitch, ampSwitch, subwooferSwitch, ps3Switch
      ensures Valid()
      ensures forall k :: 0 <= k < |States()| ==> States()[k].switched
      ensures Outputs() == old(Outputs())
      ensures ledSwitch.writes == old(ledSwitch.writes) + Pattern(3) + Pattern(3) + Pattern(3) + [Low]
      ensures tvSwitch.writes == old(tvSwitch.writes) + [Low]
      ensures ampSwitch.writes == old(ampSwitch.writes) + [Low]
      ensures subwooferSwitch.writes == old(subwooferSwitch.writes) + [Low]
      ensures ps3Switch.writes == old(ps3Switch.writes) + [Low]
    {
      DistinctSwitches();
      BlinkLed(3, 100);
      BlinkLed(3, 300);
      BlinkLed(3, 100);
      ledSwitch.On();
      tvSwitch.On();
      ampSwitch.On();
      subwooferSwitch.On();
      ps3Switch.On();
    }

    method HandleMqttCommunication(client: Client)
      requires Valid()
      modifies client
      ensures client.State() == Registered(old(client.State()), deviceName)
    {
      ghost var l0 := client.State();
      assert SWITCH_NAMES[..1] == [] + [LED_SWITCH_NAME];
      assert SWITCH_NAMES[..2] == SWITCH_NAMES[..1] + [TV_SWITCH_NAME];
      assert SWITCH_NAMES[..3] == SWITCH_NAMES[..2] + [AMP_SWITCH_NAME];
      assert SWITCH_NAMES[..4] == SWITCH_NAMES[..3] + [SUBWOOFER_SWITCH_NAME];
      assert SWITCH_NAMES == SWITCH_NAMES[..4] + [PS3_SWITCH_NAME];
      AttachAllSnoc(l0, deviceName, [], LED_SWITCH_NAME);
      AttachAllSnoc(l0, deviceName, SWITCH_NAMES[..1], TV_SWITCH_NAME);
      AttachAllSnoc(l0, deviceName, SWITCH_NAMES[..2], AMP_SWITCH_NAME);
      AttachAllSnoc(l0, deviceName, SWITCH_NAMES[..3], SUBWOOFER_SWITCH_NAME);
      AttachAllSnoc(l0, deviceName, SWITCH_NAMES[..4], PS3_SWITCH_NAME);
      ledSwitch.HandleMqtt(client, deviceName);
      assert client.State() == AttachAll(l0, deviceName, SWITCH_NAMES[..1]);
      tvSwitch.HandleMqtt(client, deviceName);
      assert client.State() == AttachAll(l0, deviceName, SWITCH_NAMES[..2]);
      ampSwitch.HandleMqtt(client, deviceName);
      assert client.State() == AttachAll(l0, deviceName, SWITCH_NAMES[..3]);
      subwooferSwitch.HandleMqtt(client, deviceName);
      assert client.State() == AttachAll(l0, deviceName, SWITCH_NAMES[..4]);
      ps3Switch.HandleMqtt(client, deviceName);
      assert client.State() == AttachAll(l0, deviceName, SWITCH_NAMES);
      irTransmitter.HandleMqtt(client, deviceName);
    }

    /** The `i`-th switch running a callback it registered. */
    method RunSwitch(i: nat, client: Client, cb: Callback, payload: string)
      requires Valid() && i < |SWITCH_NAMES|
      modifies client, ledSwitch, tvSwitch, ampSwitch, subwooferSwitch, ps3Switch
      ensures Valid()
      ensures var n := SwitchLogic.Run(Node(old(States())[i], old(client.State())), cb, payload);
              States() == old(States())[i := n.sw] && client.State() == n.link
      ensures Outputs() == old(Outputs())
    {
      DistinctSwitches();
      if i == 0 {
        ledSwitch.Run(client, cb, payload);
      } else if i == 1 {
        tvSwitch.Run(client, cb, payload);
      } else if i == 2 {
        ampSwitch.Run(client, cb, payload);
      } else if i == 3 {
        subwooferSwitch.Run(client, cb, payload);
      } else {
        ps3Switch.Run(client, cb, payload);
      }
    }

    /** The client delivering one message to the callback registered for its
      topic. `decode` stands for the JSON deserialisation of IR commands. */
    method Deliver(client: Client, m: Inbound, decode: string -> IrTransmitter.IrCommand)
      requires Valid()
      modifies client, ledSwitch, tvSwitch, ampSwitch, subwooferSwitch, ps3Switch, irTransmitter
      ensures Valid()
      ensures (States(), client.State()) == Dispatch(old(States()), SWITCH_NAMES, old(client.State()), m)
      ensures Outputs() == old(Outputs())
      ensures irTransmitter.emitted == old(irTransmitter.emitted) + IrEffect(old(client.State()), m, decode)
    {
      if m.topic in client.subscriptions {
        var cb := client.subscriptions[m.topic];
        if IsSwitchCallback(cb) && cb.element in SWITCH_NAMES {
          RunSwitch(IndexOf(SWITCH_NAMES, cb.element), client, cb, m.payload);
        } else if cb.CommandIr? {
          var _ := irTransmitter.HandleCommand(decode(m.payload));
        }
      }
    }

    /** The status snapshot: one entry per element, keyed by its name. */
    method GetStatus() returns (snapshot: map<string, string>)
      requires Valid()
      ensures snapshot.Keys == {LED_SWITCH_NAME, TV_SWITCH_NAME, AMP_SWITCH_NAME,
                                SUBWOOFER_SWITCH_NAME, PS3_SWITCH_NAME, IR_TRANSMITTER_NAME}
      ensures |snapshot| == 6
      ensures forall i :: 0 <= i < |Elements()| ==> snapshot[Elements()[i].Name()] == Elements()[i].Status()
      ensures forall k :: k in snapshot ==> snapshot[k] == STATUS_OK
    {
      snapshot := map[];
      snapshot := snapshot[LED_SWITCH_NAME := ledSwitch.GetStatus()];
      snapshot := snapshot[TV_SWITCH_NAME := tvSwitch.GetStatus()];
      snapshot := snapshot[AMP_SWITCH_NAME := ampSwitch.GetStatus()];
      snapshot := snapshot[SUBWOOFER_SWITCH_NAME := subwooferSwitch.GetStatus()];
      snapshot := snapshot[PS3_SWITCH_NAME := ps3Switch.GetStatus()];
      snapshot := snapshot[IR_TRANSMITTER_NAME := irTransmitter.GetStatus()];
    }
  }
}
