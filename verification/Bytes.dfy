/** Bytes and text: hexadecimal, upper case, and the rounding rule of Python's `round`. */
module Bytes {
  import opened Wrappers

  type Byte = bv8
  type Blob = seq<Byte>

  /** A byte as a number, where only arithmetic is done on it. */
  type Octet = n: int | 0 <= n < 0x100

  /** An AES-128 bind key: exactly sixteen bytes. */
  type Key = k: Blob | |k| == 16 witness seq(16, _ => 0)

  /** `round(n / d)` for a positive `d`: to nearest, ties to the even neighbour. */
  function RoundHalfEven(n: int, d: int): (q: int)
    requires d > 0
    ensures -d <= 2 * (q * d - n) <= d
    ensures 2 * (q * d - n) == d || 2 * (q * d - n) == -d ==> q % 2 == 0
  {
    var low := n / d;
    var rest := n % d;
    assert n == low * d + rest;
    assert (low + 1) * d == low * d + d;
    if 2 * rest < d || (2 * rest == d && low % 2 == 0) then low else low + 1
  }

  /** The multiples of `d` keep the order of the factors, a whole `d` apart. */
  lemma {:induction false} MultiplesApart(low: int, high: int, d: int)
    requires d > 0 && low < high
    ensures low * d + d <= high * d
    decreases high - low
  {
    assert high * d == (high - 1) * d + d;
    if low < high - 1 {
      MultiplesApart(low, high - 1, d);
    }
  }

  /** A larger quotient never rounds to a smaller number. */
  lemma RoundHalfEvenMonotone(m: int, n: int, d: int)
    requires d > 0 && m <= n
    ensures RoundHalfEven(m, d) <= RoundHalfEven(n, d)
  {
    var p, q := RoundHalfEven(m, d), RoundHalfEven(n, d);
    if m < n && p > q {
      MultiplesApart(q, p, d);
    }
  }

  /** Exact multiples are not rounded at all. */
  lemma RoundHalfEvenExact(q: int, d: int)
    requires d > 0
    ensures RoundHalfEven(q * d, d) == q
  {
    var r := RoundHalfEven(q * d, d);
    if r > q {
      MultiplesApart(q, r, d);
    } else if r < q {
      MultiplesApart(r, q, d);
    }
  }

  function UpperChar(c: char): char {
    if 'a' <= c <= 'z' then (c as int - 32) as char else c
  }

  /** `str.upper()` on the ASCII text of an address. */
  function Upper(s: string): (u: string)
    ensures |u| == |s|
  {
    if s == "" then "" else [UpperChar(s[0])] + Upper(s[1..])
  }

  lemma {:induction false} UpperTwice(s: string)
    ensures Upper(Upper(s)) == Upper(s)
  {
    if s != "" {
      UpperTwice(s[1..]);
      assert Upper(s)[1..] == Upper(s[1..]);
    }
  }

  const HEX_DIGITS := "0123456789abcdef"

  function HexDigit(nibble: Byte): char
    requires nibble < 16
  {
    HEX_DIGITS[nibble as int]
  }

  /** `bytes.hex()`: two lower-case digits a byte. */
  function Hex(b: Blob): (s: string)
    ensures |s| == 2 * |b|
  {
    if b == [] then "" else [HexDigit(b[0] >> 4), HexDigit(b[0] & 15)] + Hex(b[1..])
  }

  lemma HexDigitInjective(a: Byte, b: Byte)
    requires a < 16 && b < 16 && HexDigit(a) == HexDigit(b)
    ensures a == b
  {
    assert forall i, j | 0 <= i < j < 16 :: HEX_DIGITS[i] != HEX_DIGITS[j];
    assert a as int == b as int;
  }

  /** The text of a concatenation is the concatenation of the texts. */
  lemma {:induction false} HexConcat(a: Blob, b: Blob)
    ensures Hex(a + b) == Hex(a) + Hex(b)
  {
    if a == [] {
      assert a + b == b;
    } else {
      assert (a + b)[1..] == a[1..] + b;
      HexConcat(a[1..], b);
    }
  }

  /** Different bytes have different texts. */
  lemma {:induction false} HexInjective(a: Blob, b: Blob)
    requires Hex(a) == Hex(b)
    ensures a == b
  {
    if a != [] {
      assert |b| == |a|;
      assert Hex(a)[0] == HexDigit(a[0] >> 4) && Hex(a)[1] == HexDigit(a[0] & 15);
      assert Hex(b)[0] == HexDigit(b[0] >> 4) && Hex(b)[1] == HexDigit(b[0] & 15);
      HexDigitInjective(a[0] >> 4, b[0] >> 4);
      HexDigitInjective(a[0] & 15, b[0] & 15);
      assert a[0] == b[0];
      assert Hex(a[1..]) == Hex(a)[2..] == Hex(b)[2..] == Hex(b[1..]);
      HexInjective(a[1..], b[1..]);
      assert a == [a[0]] + a[1..] && b == [b[0]] + b[1..];
    } else {
      assert |b| == 0;
    }
  }

  function DigitValue(c: char): (d: Option<int>)
    ensures d.Some? ==> 0 <= d.value < 16
  {
    if '0' <= c <= '9' then Some(c as int - '0' as int)
    else if 'a' <= c <= 'f' then Some(c as int - 'a' as int + 10)
    else if 'A' <= c <= 'F' then Some(c as int - 'A' as int + 10)
    else None
  }

  function HexValue(c: char): Option<Byte> {
    match DigitValue(c) case Some(d) => Some(d as Byte) case None => None
  }

  predicate IsSpace(c: char) {
    c == ' ' || ('\t' <= c <= '\r')
  }

  /** `bytes.fromhex`: pairs of hex digits, with white space allowed between the pairs. */
  function FromHex(s: string): Option<Blob> {
    if s == "" then Some([])
    else if IsSpace(s[0]) then FromHex(s[1..])
    else if |s| < 2 then None
    else match (HexValue(s[0]), HexValue(s[1]), FromHex(s[2..]))
      case (Some(high), Some(low), Some(rest)) => Some([(high << 4) | low] + rest)
      case _ => None
  }

  lemma HexValueOfDigit(n: Byte)
    requires n < 16
    ensures HexValue(HexDigit(n)) == Some(n) && !IsSpace(HexDigit(n))
  {
    assert forall i | 0 <= i < 10 :: HEX_DIGITS[i] as int == '0' as int + i;
    assert forall i | 10 <= i < 16 :: HEX_DIGITS[i] as int == 'a' as int + i - 10;
    var i := n as int;
    assert HexDigit(n) as int == if i < 10 then '0' as int + i else 'a' as int + i - 10;
    assert (i as Byte) == n;
  }

  lemma NibblesJoin(b: Byte)
    ensures ((b >> 4) << 4) | (b & 15) == b && b >> 4 < 16 && b & 15 < 16
  {}

  /** Reading back the text of some bytes gives the bytes. */
  lemma {:induction false} FromHexOfHex(b: Blob)
    ensures FromHex(Hex(b)) == Some(b)
  {
    if b != [] {
      NibblesJoin(b[0]);
      HexValueOfDigit(b[0] >> 4);
      HexValueOfDigit(b[0] & 15);
      assert Hex(b)[0] == HexDigit(b[0] >> 4) && Hex(b)[1] == HexDigit(b[0] & 15);
      assert Hex(b)[2..] == Hex(b[1..]);
      FromHexOfHex(b[1..]);
      assert b == [b[0]] + b[1..];
    }
  }
}
