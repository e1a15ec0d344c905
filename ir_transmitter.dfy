/** The library IR transmitter element: a JSON command names a protocol, a hex
    code and a repeat count, and the element sends that code `repeat` times. */
module IrTransmitter {
  import opened Seqs
  import Text
  import opened IrSend
  import opened Mqtt
  import opened Statuses

  const PROTOCOL_SAMSUNG: string := "SAMSUNG"
  const IR_TOPIC: string := "ir_transmitter"

  /** The command document after deserialisation: `cmd["protocol"]`,
      `cmd["signal"]` (a hex string) and `cmd["repeat"]`. */
  datatype IrCommand = IrCommand(protocol: string, signal: string, repeat: int)

  /** The command topic does not depend on the element's name. */
  function Topic(device: string): string
  {
    device + "/" + IR_TOPIC
  }

  predicate IsSamsung(protocol: string)
  {
    Text.EqualsIgnoreCase(PROTOCOL_SAMSUNG, protocol)
  }

  /** `strtoul(signal, NULL, 16)` stored into an `int32_t`, then widened for the call. */
  function SignalData(signal: string): nat
  {
    ToUint64(ToInt32(Text.Strtoul16(signal)))
  }

  /** What one iteration of the repeat loop sends. */
  function Frame(protocol: string, data: nat): seq<Emission>
  {
    if IsSamsung(protocol) then [SendSamsung(data, NBITS)]
    else [SendNec(data, NBITS), SendNec(NEC_STOP, NBITS)]
  }

  /** Everything one command sends. */
  function Burst(cmd: IrCommand): seq<Emission>
  {
    Repeat(Frame(cmd.protocol, SignalData(cmd.signal)), cmd.repeat)
  }

  /** The protocol test is ASCII case-insensitive equality with "SAMSUNG". */
  lemma IsSamsungIff(protocol: string)
    ensures IsSamsung(protocol) <==> Text.LowerAll(protocol) == "samsung"
    ensures IsSamsung("SAMSUNG") && IsSamsung("samsung") && IsSamsung("Samsung")
    ensures !IsSamsung("NEC") && !IsSamsung("SAMSUNG ") && !IsSamsung("")
  {
    assert Text.LowerAll(PROTOCOL_SAMSUNG) == "samsung";
    assert Text.LowerAll("samsung") == "samsung";
    assert Text.LowerAll("Samsung") == "samsung";
  }

  /** A zero or negative repeat count sends nothing. */
  lemma NoRepeatNoEmission(cmd: IrCommand)
    requires cmd.repeat <= 0
    ensures Burst(cmd) == []
  {
  }

  /** SAMSUNG: exactly `repeat` Samsung frames of the code, and nothing else. */
  lemma SamsungBurst(cmd: IrCommand)
    requires IsSamsung(cmd.protocol)
    ensures |Burst(cmd)| == Max0(cmd.repeat)
    ensures forall k :: 0 <= k < |Burst(cmd)| ==> Burst(cmd)[k] == SendSamsung(SignalData(cmd.signal), 32)
  {
    var e := SendSamsung(SignalData(cmd.signal), 32);
    RepeatLength([e], cmd.repeat);
    forall k | 0 <= k < |Burst(cmd)|
      ensures Burst(cmd)[k] == e
    {
      RepeatOneAt(e, cmd.repeat, k);
    }
  }

  /** Any other protocol: `repeat` pairs, each the NEC code then the NEC stop frame. */
  lemma NecBurst(cmd: IrCommand)
    requires !IsSamsung(cmd.protocol)
    ensures |Burst(cmd)| == 2 * Max0(cmd.repeat)
    ensures forall j :: 0 <= j < Max0(cmd.repeat) ==>
              Burst(cmd)[2 * j] == SendNec(SignalData(cmd.signal), 32) &&
              Burst(cmd)[2 * j + 1] == SendNec(0xFFFF_FFFF, 32)
  {
    var a, b := SendNec(SignalData(cmd.signal), 32), SendNec(NEC_STOP, 32);
    RepeatLength([a, b], cmd.repeat);
    forall j | 0 <= j < Max0(cmd.repeat)
      ensures Burst(cmd)[2 * j] == a && Burst(cmd)[2 * j + 1] == b
    {
      RepeatPairAt(a, b, cmd.repeat, j);
    }
  }

  /** A code written in upper-case hex is sent as that code (low 32 bits). */
  lemma SignalOfHex(n: nat)
    requires n <= Text.ULONG_MAX
    ensures SignalData(Text.ToHex(n)) % 0x1_0000_0000 == n
  {
    Text.StrtoulOfToHex(n);
    WidenedSignal(n);
  }

  class IrTransmitterService {
    const pin: nat
    const name: string
    var emitted: seq<Emission>   // the calls made on the file's IRsend object
    var begun: bool              // irsend.begin() has run

    constructor (pin: nat, name: string)
      ensures this.pin == pin && this.name == name && emitted == [] && begun
    {
      this.pin, this.name := pin, name;
      emitted, begun := [], true;
    }

    method Init()
      modifies this
      ensures begun && emitted == old(emitted)
    {
      begun := true;
    }

    method HandleCommand(cmd: IrCommand) returns (accepted: bool)
      modifies this
      ensures accepted
      ensures emitted == old(emitted) + Burst(cmd) && begun == old(begun)
    {
      var data := SignalData(cmd.signal);
      var i := 0;
      while i < cmd.repeat
        invariant 0 <= i <= Max0(cmd.repeat)
        invariant emitted == old(emitted) + Repeat(Frame(cmd.protocol, data), i)
        invariant begun == old(begun)
      {
        if Text.EqualsIgnoreCase(PROTOCOL_SAMSUNG, cmd.protocol) {
          emitted := emitted + [SendSamsung(data, NBITS)];
        } else {
          emitted := emitted + [SendNec(data, NBITS)];
          emitted := emitted + [SendNec(NEC_STOP, NBITS)];
        }
        i := i + 1;
      }
      assert i == Max0(cmd.repeat);
      assert Repeat(Frame(cmd.protocol, data), i) == Repeat(Frame(cmd.protocol, data), cmd.repeat);
      return true;
    }

    function GetStatus(): (s: string)
      ensures s == STATUS_OK
    {
      STATUS_OK
    }

    method HandleMqtt(client: Client, deviceName: string)
      modifies client
      ensures client.State() == old(client.State()).Subscribe(Topic(deviceName), CommandIr)
    {
      client.Subscribe(deviceName + "/" + IR_TOPIC, CommandIr);
    }
  }
}
