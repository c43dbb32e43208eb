/**
 * Text formatting helpers shared by the adapter driver and the transport
 * (util.cpp): numbers as upper-case hexadecimal or binary digit strings,
 * left-padded with '0' to a minimum width, and the lenient hexadecimal
 * parser used for adapter replies.
 */
module Util {

  datatype Option<+T> = None | Some(value: T)

  /** An unsigned 8-bit value (quint8, one element of a QByteArray read as unsigned). */
  type byte = x: int | 0 <= x < 256

  /** A C++ `int` and `unsigned int` of the platform the tool runs on. */
  type Int32 = x: int | -0x8000_0000 <= x < 0x8000_0000
  type UInt32 = x: int | 0 <= x < 0x1_0000_0000

  const INT_MAX: int := 0x7FFF_FFFF

  /** Qt renders a negative int in a non-decimal base as its 64-bit two's complement. */
  const TWO_POW_64: int := 0x1_0000_0000_0000_0000

  /** QByteArray::at(i); a read past the end is taken as 0. */
  function ByteAt(data: seq<byte>, i: nat): byte {
    if i < |data| then data[i] else 0
  }

  /** QStringList::join. */
  function Join(lines: seq<string>, sep: string): string {
    if lines == [] then "" else if |lines| == 1 then lines[0] else lines[0] + sep + Join(lines[1..], sep)
  }

  // ---------------------------------------------------------------- digits

  /** The upper-case digit character for the value d. */
  function DigitChar(d: nat): (c: char)
    requires d < 16
  {
    if d < 10 then (48 + d) as char else (55 + d) as char
  }

  predicate IsHexDigit(c: char) {
    ('0' <= c <= '9') || ('A' <= c <= 'F') || ('a' <= c <= 'f')
  }

  /** Value of a hexadecimal digit of either case. */
  function DigitValue(c: char): (v: nat)
    requires IsHexDigit(c)
    ensures v < 16
  {
    if '0' <= c <= '9' then c as int - 48
    else if 'A' <= c <= 'F' then c as int - 55
    else c as int - 87
  }

  predicate IsDigitIn(c: char, base: nat) {
    IsHexDigit(c) && DigitValue(c) < base
  }

  predicate AllDigitsIn(s: string, base: nat) {
    forall i :: 0 <= i < |s| ==> IsDigitIn(s[i], base)
  }

  /** Upper-case hexadecimal character: what toUpper() leaves behind. */
  predicate IsUpperHexDigit(c: char) {
    ('0' <= c <= '9') || ('A' <= c <= 'F')
  }

  /** The digits of n in the given base, most significant first, without leading zeros. */
  function Digits(n: nat, base: nat): (s: string)
    requires 2 <= base <= 16
    ensures |s| >= 1
    decreases n
  {
    if n < base then [DigitChar(n)] else Digits(n / base, base) + [DigitChar(n % base)]
  }

  /** The number a digit string denotes in the given base. */
  function ValueOf(s: string, base: nat): nat
    requires AllDigitsIn(s, base)
  {
    if s == [] then 0 else ValueOf(s[..|s| - 1], base) * base + DigitValue(s[|s| - 1])
  }

  function Pow(base: nat, k: nat): nat {
    if k == 0 then 1 else base * Pow(base, k - 1)
  }

  function Zeros(n: int): (s: string)
    ensures |s| == (if n > 0 then n else 0)
    ensures forall i :: 0 <= i < |s| ==> s[i] == '0'
    decreases n
  {
    if n <= 0 then [] else Zeros(n - 1) + ['0']
  }

  /**
   * QString("%1").arg(v, width, base, QChar('0')): a positive width pads on
   * the left up to that many characters, a negative one pads on the right;
   * the width never truncates.
   */
  function Field(digits: string, width: int): string {
    if width >= 0 then Zeros(width - |digits|) + digits
    else digits + Zeros(-width - |digits|)
  }

  // ---------------------------------------------------------------- util.cpp

  /** toHex(int, places) (util.cpp:3-6); places defaults to 2 (util.h:6). */
  function ToHex(n: Int32, places: int := 2): string {
    Field(Digits(if n < 0 then n + TWO_POW_64 else n, 16), places)
  }

  /** toHex(unsigned int, places) (util.cpp:8-11); places defaults to 2 (util.h:7). */
  function ToHexUnsigned(n: UInt32, places: int := 2): string {
    Field(Digits(n, 16), places)
  }

  /** intToBinary(int, places) (util.cpp:13-16). */
  function IntToBinary(n: Int32, places: int := 8): string {
    Field(Digits(if n < 0 then n + TWO_POW_64 else n, 2), places)
  }

  /** uintToBinary(unsigned int, places) (util.cpp:18-21). */
  function UintToBinary(n: UInt32, places: int := 8): string {
    Field(Digits(n, 2), places)
  }

  /** A non-empty string of hexadecimal digits of either case. */
  predicate IsHexNumber(s: string) {
    |s| > 0 && AllDigitsIn(s, 16)
  }

  /**
   * The number a field of hexadecimal digits denotes, read digit by digit;
   * None unless the field is non-empty and all hexadecimal digits. This is
   * QString::toUInt(&ok, 16) on plain digit fields only: Qt also takes
   * surrounding white space, a '+' sign and a "0x" prefix, which this
   * reading rejects.
   */
  function ParseHex(s: string): Option<nat>
    decreases |s|
  {
    if s == [] || !IsHexDigit(s[|s| - 1]) then None
    else if |s| == 1 then Some(DigitValue(s[0]))
    else
      match ParseHex(s[..|s| - 1])
      case None => None
      case Some(v) => Some(v * 16 + DigitValue(s[|s| - 1]))
  }

  /** fromHex (util.cpp:28-32): QString::toInt(&ok, 16) on plain digit fields, 0 when ok is false. */
  function FromHex(s: string): (r: int)
    ensures 0 <= r <= INT_MAX
    ensures !IsHexNumber(s) ==> r == 0
  {
    ParseHexSpec(s);
    match ParseHex(s)
    case Some(v) => if v <= INT_MAX then v else 0
    case None => 0
  }

  // ---------------------------------------------------------------- lemmas

  /** ParseHex accepts exactly the non-empty all-hexadecimal strings, and reads their value. */
  lemma {:induction false} ParseHexSpec(s: string)
    ensures ParseHex(s).Some? <==> IsHexNumber(s)
    ensures ParseHex(s).Some? ==> ParseHex(s).value == ValueOf(s, 16)
    decreases |s|
  {
    if s != [] {
      var init := s[..|s| - 1];
      assert AllDigitsIn(s, 16) <==> AllDigitsIn(init, 16) && IsHexDigit(s[|s| - 1]) by {
        if AllDigitsIn(init, 16) && IsHexDigit(s[|s| - 1]) {
          forall i | 0 <= i < |s| ensures IsDigitIn(s[i], 16) {
            if i < |init| { assert s[i] == init[i]; }
          }
        }
        if AllDigitsIn(s, 16) {
          forall i | 0 <= i < |init| ensures IsDigitIn(init[i], 16) { assert s[i] == init[i]; }
        }
      }
      if |s| == 1 {
        assert init == [];
      } else {
        ParseHexSpec(init);
      }
    }
  }

  lemma DigitCharSpec(d: nat)
    requires d < 16
    ensures IsHexDigit(DigitChar(d)) && IsUpperHexDigit(DigitChar(d)) && DigitValue(DigitChar(d)) == d
    ensures DigitChar(d) == '0' <==> d == 0
  {
  }

  /** Appending one digit multiplies the value by the base and adds the digit. */
  lemma AppendDigit(t: string, c: char, base: nat)
    requires AllDigitsIn(t, base) && IsDigitIn(c, base)
    ensures AllDigitsIn(t + [c], base)
    ensures ValueOf(t + [c], base) == ValueOf(t, base) * base + DigitValue(c)
  {
    var s := t + [c];
    assert s[..|s| - 1] == t;
  }

  /** A pair of hex digits denotes sixteen times the first plus the second. */
  lemma PairValue(s: string)
    requires |s| == 2 && IsHexDigit(s[0]) && IsHexDigit(s[1])
    ensures AllDigitsIn(s, 16) && ValueOf(s, 16) == DigitValue(s[0]) * 16 + DigitValue(s[1])
  {
    AppendDigit([], s[0], 16);
    assert [] + [s[0]] == s[..1];
    AppendDigit(s[..1], s[1], 16);
    assert s[..1] + [s[1]] == s;
  }

  /** Digits spells n: every character is a digit of the base and the string denotes n. */
  lemma {:induction false} DigitsAreDigits(n: nat, base: nat)
    requires 2 <= base <= 16
    ensures AllDigitsIn(Digits(n, base), base)
    ensures ValueOf(Digits(n, base), base) == n
    decreases n
  {
    if n < base {
      DigitCharSpec(n);
      AppendDigit([], DigitChar(n), base);
      assert [] + [DigitChar(n)] == Digits(n, base);
    } else {
      var m, d := DivMod(n, base);
      DigitsAreDigits(m, base);
      DigitCharSpec(d);
      AppendDigit(Digits(m, base), DigitChar(d), base);
    }
  }

  lemma DivMod(n: nat, base: nat) returns (m: nat, d: nat)
    requires 2 <= base <= 16
    ensures m == n / base && d == n % base && n == m * base + d && d < base
    ensures n >= base ==> m < n
  {
    m, d := n / base, n % base;
  }

  /** Digits is non-empty, upper-case, and has no leading zero. */
  lemma {:induction false} DigitsUpper(n: nat, base: nat)
    requires 2 <= base <= 16
    ensures |Digits(n, base)| >= 1
    ensures n > 0 ==> Digits(n, base)[0] != '0'
    ensures forall i :: 0 <= i < |Digits(n, base)| ==> IsUpperHexDigit(Digits(n, base)[i])
    decreases n
  {
    if n < base {
      DigitCharSpec(n);
    } else {
      var m, d := DivMod(n, base);
      DigitsUpper(m, base);
      DigitCharSpec(d);
      var t := Digits(m, base);
      assert Digits(n, base) == t + [DigitChar(d)];
      assert m > 0;
    }
  }

  /** A number below base^k needs at most k digits. */
  lemma {:induction false} DigitsLength(n: nat, base: nat, k: nat)
    requires 2 <= base <= 16 && k >= 1
    requires n < Pow(base, k)
    ensures |Digits(n, base)| <= k
    decreases n
  {
    if n >= base {
      var m, d := DivMod(n, base);
      var p := Pow(base, k - 1);
      PowStep(base, k);
      assert k != 1;
      QuotientBound(n, base, p);
      DigitsLength(m, base, k - 1);
    }
  }

  lemma PowStep(base: nat, k: nat)
    requires k >= 1
    ensures Pow(base, k) == base * Pow(base, k - 1)
    ensures Pow(base, 1) == base
  {
    assert Pow(base, 0) == 1;
  }

  lemma QuotientBound(n: nat, b: nat, p: nat)
    requires b >= 1 && n < b * p
    ensures n / b < p
  {
    var q := n / b;
    assert q * b <= n;
    assert (q - p) * b < 0;
  }

  /** Multiplying by a natural keeps the order. */
  lemma {:induction false} MulMono(a: nat, c: nat, b: nat)
    requires a <= c
    ensures a * b <= c * b
    decreases c - a
  {
    if a < c {
      MulMono(a, c - 1, b);
      assert c * b == (c - 1) * b + b;
    }
  }

  /** Division with remainder has one answer. */
  lemma DivModUnique(x: nat, b: nat, q: nat, r: nat)
    requires b > 0 && x == q * b + r && r < b
    ensures x % b == r
  {
    var q', r' := x / b, x % b;
    assert x == q' * b + r';
    assert (q + 1) * b == q * b + b && (q' + 1) * b == q' * b + b;
    if q' > q {
      MulMono(q + 1, q', b);
    } else if q' < q {
      MulMono(q' + 1, q, b);
    }
  }

  /** A string of k digits in a base denotes a number below base^k. */
  lemma {:induction false} ValueOfBound(s: string, base: nat)
    requires 2 <= base <= 16 && AllDigitsIn(s, base)
    ensures ValueOf(s, base) < Pow(base, |s|)
    decreases |s|
  {
    if s != [] {
      var init := s[..|s| - 1];
      assert AllDigitsIn(init, base) by {
        forall i | 0 <= i < |init| ensures IsDigitIn(init[i], base) { assert init[i] == s[i]; }
      }
      ValueOfBound(init, base);
      PowStep(base, |s|);
      NextDigitBound(ValueOf(init, base), DigitValue(s[|s| - 1]), base, Pow(base, |init|));
    }
  }

  lemma NextDigitBound(v: nat, d: nat, b: nat, p: nat)
    requires v < p && d < b
    ensures v * b + d < b * p
  {
    assert v * b + d < v * b + b;
    assert v * b + b == (v + 1) * b;
    assert (v + 1) * b <= p * b;
  }

  /** Leading zeros do not change the value of a digit string. */
  lemma {:induction false} LeadingZeros(z: string, s: string, base: nat)
    requires 2 <= base <= 16
    requires forall i :: 0 <= i < |z| ==> z[i] == '0'
    requires AllDigitsIn(s, base)
    ensures AllDigitsIn(z + s, base)
    ensures ValueOf(z + s, base) == ValueOf(s, base)
    decreases |s| + |z|
  {
    assert forall i :: 0 <= i < |z| ==> IsDigitIn(z[i], base) by {
      forall i | 0 <= i < |z| ensures IsDigitIn(z[i], base) { assert z[i] == '0'; }
    }
    if s == [] {
      if z != [] {
        assert (z + s)[..|z + s| - 1] == z[..|z| - 1] + [];
        LeadingZeros(z[..|z| - 1], [], base);
        assert z[..|z| - 1] + [] == z[..|z| - 1];
      }
    } else {
      assert (z + s)[..|z + s| - 1] == z + s[..|s| - 1];
      LeadingZeros(z, s[..|s| - 1], base);
    }
  }

  /**
   * For a non-negative argument and width, toHex is the number in
   * upper-case base 16 without leading zeros, left-padded with '0' to at
   * least `places` characters: the width is a minimum, never a truncation.
   */
  lemma ToHexShape(n: Int32, places: int)
    requires n >= 0 && places >= 0
    ensures var d := Digits(n, 16);
      && AllDigitsIn(d, 16) && ValueOf(d, 16) == n && (n > 0 ==> d[0] != '0')
      && ToHex(n, places) == Zeros(places - |d|) + d
      && |ToHex(n, places)| == (if |d| >= places then |d| else places)
      && forall i :: 0 <= i < |ToHex(n, places)| ==> IsUpperHexDigit(ToHex(n, places)[i])
  {
    var d := Digits(n, 16);
    DigitsAreDigits(n, 16);
    DigitsUpper(n, 16);
    var h := Zeros(places - |d|) + d;
    assert ToHex(n, places) == h;
    forall i | 0 <= i < |h| ensures IsUpperHexDigit(h[i]) {
      if i >= |h| - |d| { assert h[i] == d[i - (|h| - |d|)]; }
    }
  }

  lemma PowSixteen()
    ensures Pow(16, 1) == 16 && Pow(16, 2) == 256 && Pow(16, 3) == 4096
  {
    assert Pow(16, 0) == 1;
  }

  /** A number below 16^places prints as exactly `places` upper-case digits spelling it. */
  lemma ToHexFixed(n: Int32, places: nat)
    requires 1 <= places && 0 <= n < Pow(16, places)
    ensures |ToHex(n, places)| == places
    ensures forall i :: 0 <= i < places ==> IsUpperHexDigit(ToHex(n, places)[i])
    ensures AllDigitsIn(ToHex(n, places), 16) && ValueOf(ToHex(n, places), 16) == n
  {
    var d := Digits(n, 16);
    DigitsLength(n, 16, places);
    DigitsAreDigits(n, 16);
    DigitsUpper(n, 16);
    LeadingZeros(Zeros(places - |d|), d, 16);
    assert ToHex(n, places) == Zeros(places - |d|) + d;
  }

  /** fromHex inverts toHex for every non-negative int and every non-negative width. */
  lemma FromHexToHex(n: Int32, places: int)
    requires 0 <= n && places >= 0
    ensures FromHex(ToHex(n, places)) == n
  {
    var d := Digits(n, 16);
    DigitsAreDigits(n, 16);
    LeadingZeros(Zeros(places - |d|), d, 16);
    assert ToHex(n, places) == Zeros(places - |d|) + d;
    ParseHexSpec(ToHex(n, places));
  }

  /** The same round trip for the unsigned overload, up to INT_MAX (toInt's range). */
  lemma FromHexToHexUnsigned(n: UInt32, places: int)
    requires n <= INT_MAX && places >= 0
    ensures FromHex(ToHexUnsigned(n, places)) == n
  {
    var d := Digits(n, 16);
    DigitsAreDigits(n, 16);
    var h := Zeros(places - |d|) + d;
    LeadingZeros(Zeros(places - |d|), d, 16);
    assert ToHexUnsigned(n, places) == h;
    ParseHexSpec(h);
    assert ParseHex(h) == Some(n);
  }

  /** The CAN-id commands use width 3, the frame bytes and timeout the default 2. */
  lemma ToHexExamples()
    ensures ToHex(0x300, 2) == "300"
    ensures ToHex(0x300, 3) == "300"
    ensures ToHex(0x1F, 3) == "01F"
    ensures ToHex(10) == "0A"
    ensures ToHexUnsigned(255) == "FF"
  {
    assert Digits(0x300, 16) == Digits(0x30, 16) + ['0'];
    assert Digits(0x30, 16) == Digits(3, 16) + ['0'];
    assert Digits(0x1F, 16) == Digits(1, 16) + ['F'];
    assert Digits(255, 16) == Digits(15, 16) + ['F'];
  }

  /**
   * A byte printed with uintToBinary(raw & 0xFF, 8), as the value display
   * does, is exactly eight binary digits spelling that byte.
   */
  lemma UintToBinaryByte(n: UInt32)
    requires n < 256
    ensures |UintToBinary(n, 8)| == 8
    ensures AllDigitsIn(UintToBinary(n, 8), 2)
    ensures ValueOf(UintToBinary(n, 8), 2) == n
  {
    var d := Digits(n, 2);
    assert Pow(2, 8) == 256 by {
      assert Pow(2, 1) == 2; assert Pow(2, 2) == 4; assert Pow(2, 3) == 8; assert Pow(2, 4) == 16;
      assert Pow(2, 5) == 32; assert Pow(2, 6) == 64; assert Pow(2, 7) == 128;
    }
    DigitsLength(n, 2, 8);
    DigitsAreDigits(n, 2);
    LeadingZeros(Zeros(8 - |d|), d, 2);
  }

  /**
   * intToBinary spells its argument in base 2, left-padded to at least
   * `places`: a non-negative int exactly as uintToBinary does, a negative one
   * as its 64-bit two's-complement pattern n + 2^64.
   */
  lemma IntToBinarySpec(n: Int32, places: int)
    requires places >= 0
    ensures var v := if n < 0 then n + TWO_POW_64 else n;
      && AllDigitsIn(IntToBinary(n, places), 2) && ValueOf(IntToBinary(n, places), 2) == v
      && |IntToBinary(n, places)| >= places
    ensures n >= 0 ==> IntToBinary(n, places) == UintToBinary(n, places)
  {
    var v := if n < 0 then n + TWO_POW_64 else n;
    var d := Digits(v, 2);
    DigitsAreDigits(v, 2);
    LeadingZeros(Zeros(places - |d|), d, 2);
    assert IntToBinary(n, places) == Zeros(places - |d|) + d;
  }
}
