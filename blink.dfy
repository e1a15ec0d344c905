/** `blinkLed(times, interval)`: the pin writes it leaves behind; the delays
    between them carry no state. */
module Blink {
  import opened Seqs
  import opened SwitchLogic

  /** `times` on/off cycles, then a final off. */
  function Pattern(times: int): seq<Level>
  {
    Repeat([Low, High], times) + [High]
  }

  /** `max(times, 0)` cycles: that many LOW writes (each an `on()`), one HIGH more,
      strictly alternating, ending HIGH (off) even when `times <= 0`. */
  lemma PatternShape(times: int)
    ensures |Pattern(times)| == 2 * Max0(times) + 1
    ensures Count(Pattern(times), Low) == Max0(times)
    ensures Count(Pattern(times), High) == Max0(times) + 1
    ensures Pattern(times)[|Pattern(times)| - 1] == High
    ensures forall j :: 0 <= j < Max0(times) ==> Pattern(times)[2 * j] == Low && Pattern(times)[2 * j + 1] == High
  {
    RepeatLength([Low, High], times);
    CountAppend(Repeat([Low, High], times), [High], Low);
    CountAppend(Repeat([Low, High], times), [High], High);
    CountRepeat([Low, High], times, Low);
    CountRepeat([Low, High], times, High);
    assert [Low, High][..1] == [Low];
    assert [Low][..0] == [];
    assert Count([Low, High], Low) == 1 && Count([Low, High], High) == 1;
    assert Count([High], High) == 1 && Count([High], Low) == 0;
    forall j | 0 <= j < Max0(times)
      ensures Pattern(times)[2 * j] == Low && Pattern(times)[2 * j + 1] == High
    {
      RepeatPairAt(Low, High, times, j);
    }
  }
}
