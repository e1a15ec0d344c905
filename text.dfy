/** The two string routines the IR element relies on: Arduino's
    `String::equalsIgnoreCase` and the C library's `strtoul(s, NULL, 16)` as
    newlib implements it for the ESP8266, where `unsigned long` is 32 bits wide. */
module Text {

  /** C `tolower` in the "C" locale: only 'A'..'Z' change. */
  function Lower(c: char): char
  {
    if 'A' <= c <= 'Z' then (c as int + 32) as char else c
  }

  function LowerAll(s: string): (r: string)
    ensures |r| == |s|
    ensures forall i :: 0 <= i < |s| ==> r[i] == Lower(s[i])
  {
    if s == [] then [] else [Lower(s[0])] + LowerAll(s[1..])
  }

  /** `String::equalsIgnoreCase`: lengths first, then character by character
      through `tolower`. It holds exactly when both strings lower-case to the
      same string. */
  function EqualsIgnoreCase(a: string, b: string): (r: bool)
    ensures r <==> LowerAll(a) == LowerAll(b)
  {
    if |a| != |b| then false
    else if a == [] then true
    else
      var tail := EqualsIgnoreCase(a[1..], b[1..]);
      assert LowerAll(a) == [Lower(a[0])] + LowerAll(a[1..]);
      assert LowerAll(b) == [Lower(b[0])] + LowerAll(b[1..]);
      assert LowerAll(a) == LowerAll(b) ==>
        LowerAll(a)[1..] == LowerAll(a[1..]) && LowerAll(b)[1..] == LowerAll(b[1..]);
      Lower(a[0]) == Lower(b[0]) && tail
  }

  const ULONG_MAX: nat := 0xFFFF_FFFF

  /** C `isspace` in the "C" locale. */
  predicate IsSpace(c: char)
  {
    c == ' ' || c == '\t' || c == '\n' || c == '\U{B}' || c == '\U{C}' || c == '\r'
  }

  predicate IsHexDigit(c: char)
  {
    '0' <= c <= '9' || 'a' <= c <= 'f' || 'A' <= c <= 'F'
  }

  function DigitValue(c: char): (d: nat)
    requires IsHexDigit(c)
    ensures d < 16
  {
    if '0' <= c <= '9' then c as int - '0' as int
    else if 'a' <= c <= 'f' then c as int - 'a' as int + 10
    else c as int - 'A' as int + 10
  }

  function SkipSpaces(s: string): string
  {
    if s != [] && IsSpace(s[0]) then SkipSpaces(s[1..]) else s
  }

  /** The longest prefix of `s` made of hex digits. */
  function HexRun(s: string): (r: string)
    ensures |r| <= |s| && r == s[..|r|]
    ensures forall i :: 0 <= i < |r| ==> IsHexDigit(r[i])
  {
    if s != [] && IsHexDigit(s[0]) then [s[0]] + HexRun(s[1..]) else []
  }

  /** The number the hex digits `d` spell, most significant first. */
  function HexNumber(d: string): nat
    requires forall i :: 0 <= i < |d| ==> IsHexDigit(d[i])
  {
    if d == [] then 0 else HexNumber(d[..|d| - 1]) * 16 + DigitValue(d[|d| - 1])
  }

  /** A leading '+' or '-' dropped. */
  function AfterSign(t: string): string
  {
    if t != [] && (t[0] == '-' || t[0] == '+') then t[1..] else t
  }

  /** A leading "0x" or "0X" dropped. */
  function AfterPrefix(u: string): string
  {
    if |u| >= 2 && u[0] == '0' && (u[1] == 'x' || u[1] == 'X') then u[2..] else u
  }

  /** `strtoul(s, NULL, 16)`: leading white space, an optional sign, an optional
      "0x"/"0X", then as many hex digits as follow; a value past ULONG_MAX gives
      ULONG_MAX, and a '-' negates the result modulo 2^32. No digits gives 0. */
  function Strtoul16(s: string): (r: nat)
    ensures r <= ULONG_MAX
  {
    var t := SkipSpaces(s);
    var acc := HexNumber(HexRun(AfterPrefix(AfterSign(t))));
    if acc > ULONG_MAX then ULONG_MAX
    else if t != [] && t[0] == '-' then (ULONG_MAX + 1 - acc) % (ULONG_MAX + 1)
    else acc
  }

  function HexChar(d: nat): (c: char)
    requires d < 16
    ensures IsHexDigit(c) && DigitValue(c) == d
  {
    if d < 10 then ('0' as int + d) as char else ('A' as int + d - 10) as char
  }

  /** Upper-case hex, no prefix, no leading zeros: the form IR codes are written in. */
  function ToHex(n: nat): (r: string)
    ensures r != [] && forall i :: 0 <= i < |r| ==> IsHexDigit(r[i])
  {
    if n < 16 then [HexChar(n)] else ToHex(n / 16) + [HexChar(n % 16)]
  }

  lemma {:induction false} HexNumberOfToHex(n: nat)
    ensures HexNumber(ToHex(n)) == n
  {
    if n >= 16 {
      var r := ToHex(n);
      assert r[..|r| - 1] == ToHex(n / 16);
      HexNumberOfToHex(n / 16);
    }
  }

  lemma {:induction false} HexRunOfDigits(s: string)
    requires forall i :: 0 <= i < |s| ==> IsHexDigit(s[i])
    ensures HexRun(s) == s
  {
    if s != [] {
      HexRunOfDigits(s[1..]);
    }
  }

  /** Parsing what `ToHex` writes gives back the number, for every 32-bit value. */
  lemma StrtoulOfToHex(n: nat)
    requires n <= ULONG_MAX
    ensures Strtoul16(ToHex(n)) == n
  {
    var r := ToHex(n);
    assert IsHexDigit(r[0]);
    assert SkipSpaces(r) == r;
    assert AfterSign(r) == r;
    assert |r| >= 2 ==> IsHexDigit(r[1]);
    assert AfterPrefix(r) == r;
    HexRunOfDigits(r);
    HexNumberOfToHex(n);
  }
}
