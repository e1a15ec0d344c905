/** Sequence helpers shared by the emission traces and the pin-write logs. */
module Seqs {

  /** `f` concatenated `n` times; a non-positive `n` gives the empty sequence,
      like a C `for (int i = 0; i < n; i++)` loop that appends `f` each time. */
  function Repeat<T>(f: seq<T>, n: int): seq<T>
    decreases if n < 0 then 0 else n
  {
    if n <= 0 then [] else Repeat(f, n - 1) + f
  }

  function Max0(n: int): nat { if n < 0 then 0 else n }

  /** How many times `x` occurs in `s`. */
  function Count<T(==)>(s: seq<T>, x: T): nat
  {
    if s == [] then 0 else Count(s[..|s| - 1], x) + (if s[|s| - 1] == x then 1 else 0)
  }

  lemma {:induction false} CountAppend<T>(a: seq<T>, b: seq<T>, x: T)
    ensures Count(a + b, x) == Count(a, x) + Count(b, x)
    decreases |b|
  {
    if b == [] {
      assert a + b == a;
    } else {
      assert (a + b)[..|a + b| - 1] == a + b[..|b| - 1];
      CountAppend(a, b[..|b| - 1], x);
    }
  }

  lemma {:induction false} RepeatLength<T>(f: seq<T>, n: int)
    ensures |Repeat(f, n)| == |f| * Max0(n)
    decreases Max0(n)
  {
    if n > 0 {
      RepeatLength(f, n - 1);
      assert |f| * Max0(n) == |f| * Max0(n - 1) + |f|;
    }
  }

  lemma {:induction false} CountRepeat<T>(f: seq<T>, n: int, x: T)
    ensures Count(Repeat(f, n), x) == Count(f, x) * Max0(n)
    decreases Max0(n)
  {
    if n > 0 {
      CountRepeat(f, n - 1, x);
      CountAppend(Repeat(f, n - 1), f, x);
      assert Count(f, x) * Max0(n) == Count(f, x) * Max0(n - 1) + Count(f, x);
    }
  }

  /** Every element of `Repeat([x], n)` is `x`. */
  lemma {:induction false} RepeatOneAt<T>(x: T, n: int, k: int)
    requires 0 <= k < Max0(n)
    ensures |Repeat([x], n)| == Max0(n) && Repeat([x], n)[k] == x
    decreases Max0(n)
  {
    RepeatLength([x], n);
    if k < n - 1 {
      RepeatOneAt(x, n - 1, k);
    } else {
      RepeatLength([x], n - 1);
    }
  }

  /** `Repeat([a, b], n)` alternates: `a` at even positions, `b` at odd ones. */
  lemma {:induction false} RepeatPairAt<T>(a: T, b: T, n: int, j: int)
    requires 0 <= j < Max0(n)
    ensures |Repeat([a, b], n)| == 2 * Max0(n)
    ensures Repeat([a, b], n)[2 * j] == a && Repeat([a, b], n)[2 * j + 1] == b
    decreases Max0(n)
  {
    RepeatLength([a, b], n);
    RepeatLength([a, b], n - 1);
    if j < n - 1 {
      RepeatPairAt(a, b, n - 1, j);
    }
  }
}
