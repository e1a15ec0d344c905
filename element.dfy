/** The common element interface `{getName, handleCommand, getStatus}` as a
    closed tagged variant over the concrete element classes. */
module Element {
  import opened Statuses
  import opened SwitchLogic
  import Switch
  import IrTransmitter
  import IrTransmitterStub
  import IrSend

  datatype Element =
    | SwitchElement(sw: Switch.SwitchService)
    | IrElement(ir: IrTransmitter.IrTransmitterService)
    | IrStubElement(stub: IrTransmitterStub.IrTransmitterService)
  {
    /** `getName`: the name the wrapped element object was constructed with. */
    function Name(): (n: string)
      ensures SwitchElement? ==> n == sw.name
      ensures IrElement? ==> n == ir.name
      ensures IrStubElement? ==> n == stub.name
    {
      match this
      case SwitchElement(s) => s.name
      case IrElement(t) => t.name
      case IrStubElement(t) => t.name
    }

    /** None of the actuators senses its outcome: every status is "OK". */
    function Status(): (s: string)
      ensures s == STATUS_OK
    {
      match this
      case SwitchElement(s) => s.GetStatus()
      case IrElement(t) => t.GetStatus()
      case IrStubElement(t) => t.GetStatus()
    }

    function Target(): object
    {
      match this
      case SwitchElement(s) => s
      case IrElement(t) => t
      case IrStubElement(t) => t
    }
  }

  /** `handleCommand(command)` through the interface; `decode` is the JSON
      deserialisation the library IR transmitter applies first. */
  method HandleCommand(e: Element, command: string, decode: string -> IrTransmitter.IrCommand) returns (accepted: bool)
    modifies e.Target()
    ensures e.SwitchElement? ==>
              accepted == Accepts(command) && e.sw.State() == SwitchLogic.HandleCommand(old(e.sw.State()), command)
    ensures e.IrElement? ==> accepted && e.ir.emitted == old(e.ir.emitted) + IrTransmitter.Burst(decode(command))
    ensures e.IrStubElement? ==> !accepted && e.stub.emitted == old(e.stub.emitted) + [IrSend.SendNec(0xFFFF_FFFF, 32)]
  {
    match e {
      case SwitchElement(s) => accepted := s.HandleCommand(command);
      case IrElement(t) => accepted := t.HandleCommand(decode(command));
      case IrStubElement(t) => accepted := t.HandleCommand(command);
    }
  }
}
