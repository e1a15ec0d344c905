/** The sketch-local IR transmitter: commands are not interpreted yet; every
    command sends the NEC stop frame once and reports failure. */
module IrTransmitterStub {
  import opened IrSend
  import opened Mqtt
  import opened Statuses
  import IrTransmitter

  class IrTransmitterService {
    const pin: nat
    const name: string
    var emitted: seq<Emission>
    var begun: bool

    constructor (pin: nat, name: string)
      ensures this.pin == pin && this.name == name && emitted == [] && begun
    {
      this.pin, this.name := pin, name;
      emitted, begun := [], true;
    }

    method Init()
      modifies this
      ensures begun && emitted == old(emitted)
    {
      begun := true;
    }

    /** Whatever the payload: one `sendNEC(0xFFFFFFFF, 32)`, and false. */
    method HandleCommand(command: string) returns (accepted: bool)
      modifies this
      ensures !accepted
      ensures emitted == old(emitted) + [SendNec(0xFFFF_FFFF, 32)] && begun == old(begun)
    {
      emitted := emitted + [SendNec(NEC_STOP, NBITS)];
      return false;
    }

    function GetStatus(): (s: string)
      ensures s == STATUS_OK
    {
      STATUS_OK
    }

    /** Same topic as the library element; the callback's result is dropped. */
    method HandleMqtt(client: Client, deviceName: string)
      modifies client
      ensures client.State() == old(client.State()).Subscribe(IrTransmitter.Topic(deviceName), CommandIr)
    {
      client.Subscribe(deviceName + "/" + "ir_transmitter", CommandIr);
    }
  }
}
