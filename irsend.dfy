/** The IR emitter (the IRremoteESP8266 `IRsend` object) seen only through the
    calls made on it, and the integer conversions on the way to those calls. */
module IrSend {
  import Text

  /** One `sendSAMSUNG(data, nbits)` or `sendNEC(data, nbits)` call; `data` is the
      `uint64_t` argument as received. */
  datatype Emission = SendSamsung(data: nat, nbits: nat) | SendNec(data: nat, nbits: nat)

  const NBITS: nat := 32
  /** The NEC "stop"/repeat frame the firmware sends after each NEC code. */
  const NEC_STOP: nat := 0xFFFF_FFFF

  /** `unsigned long` stored into an `int32_t`: reduced modulo 2^32 into the signed range. */
  function ToInt32(v: nat): (x: int)
    requires v <= Text.ULONG_MAX
    ensures -0x8000_0000 <= x < 0x8000_0000
    ensures x % 0x1_0000_0000 == v
  {
    if v < 0x8000_0000 then v else v - 0x1_0000_0000
  }

  /** An `int32_t` passed as the `uint64_t` data argument: sign-extended. */
  function ToUint64(x: int): (u: nat)
    requires -0x8000_0000 <= x < 0x8000_0000
    ensures u < 0x1_0000_0000_0000_0000
    ensures u % 0x1_0000_0000_0000_0000 == x % 0x1_0000_0000_0000_0000
  {
    if x < 0 then x + 0x1_0000_0000_0000_0000 else x
  }

  /** The parsed code reaches the sender with its low 32 bits intact; codes with
      the top bit set arrive sign-extended. */
  lemma WidenedSignal(v: nat)
    requires v <= Text.ULONG_MAX
    ensures ToUint64(ToInt32(v)) % 0x1_0000_0000 == v
    ensures v >= 0x8000_0000 ==> ToUint64(ToInt32(v)) == v + 0xFFFF_FFFF_0000_0000
    ensures v < 0x8000_0000 ==> ToUint64(ToInt32(v)) == v
  {
  }
}
