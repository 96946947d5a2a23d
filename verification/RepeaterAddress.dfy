/** The address of the thermometer a repeater repeats: six bytes, stored back to front, and its text. */
module RepeaterAddress {
  import opened Wrappers
  import opened Bytes

  type Mac = m: seq<Octet> | |m| == 6 witness seq(6, _ => 0)

  function Reversed(s: seq<Octet>): (r: seq<Octet>)
    ensures |r| == |s|
  {
    seq(|s|, i requires 0 <= i < |s| => s[|s| - 1 - i])
  }

  function UpperDigit(n: int): char
    requires 0 <= n < 16
  {
    if n < 10 then ('0' as int + n) as char else ('A' as int + n - 10) as char
  }

  /** Bytes in upper case, joined by colons. */
  function Join(values: seq<Octet>): string {
    if values == [] then ""
    else
      var pair := [UpperDigit(values[0] / 16), UpperDigit(values[0] % 16)];
      if |values| == 1 then pair else pair + ":" + Join(values[1..])
  }

  /** The address in a reply, in its usual text. */
  function MacFromLe(raw: seq<Octet>): Option<string> {
    if |raw| < 6 then None else Some(Join(Reversed(raw[..6])))
  }

  predicate IsSeparator(c: char) {
    c == ':' || c == '-'
  }

  function RunLength(s: string): (n: nat)
    ensures n <= |s|
  {
    if s == "" || IsSeparator(s[0]) then 0 else 1 + RunLength(s[1..])
  }

  /** The parts between separators, empty ones dropped. */
  function Split(s: string): seq<string>
    decreases |s|
  {
    if s == "" then []
    else if IsSeparator(s[0]) then Split(s[1..])
    else [s[..RunLength(s)]] + Split(s[RunLength(s)..])
  }

  function HexNumber(s: string): Option<nat> {
    if s == "" then Some(0)
    else match (HexNumber(s[..|s| - 1]), DigitValue(s[|s| - 1]))
      case (Some(n), Some(d)) => Some(16 * n + d)
      case _ => None
  }

  function Octets(parts: seq<string>): Option<seq<Octet>> {
    if parts == [] then Some([])
    else match (HexNumber(parts[0]), Octets(parts[1..]))
      case (Some(n), Some(rest)) => if n < 0x100 then Some([n] + rest) else None
      case _ => None
  }

  /** The six bytes to send for an address text, or none if it is not an address. */
  function MacToLe(text: string): Option<Mac> {
    var parts := Split(text);
    if |parts| != 6 then None
    else match Octets(parts)
      case Some(values) => if |values| == 6 then Some(Reversed(values)) else None
      case None => None
  }

  /** Two hex digits a byte, one colon between: the only form a reply is ever compared with. */
  predicate Canonical(text: string, n: nat)
    requires n > 0
  {
    && |text| >= 2 && DigitValue(text[0]).Some? && DigitValue(text[1]).Some?
    && if n == 1 then |text| == 2 else |text| >= 3 && text[2] == ':' && Canonical(text[3..], n - 1)
  }

  lemma DigitFacts(c: char)
    requires DigitValue(c).Some?
    ensures !IsSeparator(c) && UpperDigit(DigitValue(c).value) == UpperChar(c)
  {}

  lemma UpperDigitFacts(c: char, n: int)
    requires 0 <= n < 16
    ensures UpperChar(c) == UpperDigit(n) ==> DigitValue(c) == Some(n)
    ensures UpperChar(c) == ':' ==> c == ':'
  {}

  /** A canonical text splits into its bytes, and those bytes give the text back in upper case. */
  lemma {:induction false} CanonicalSplits(text: string, n: nat)
    requires n > 0 && Canonical(text, n)
    ensures Octets(Split(text)).Some?
    ensures var values := Octets(Split(text)).value; |values| == |Split(text)| == n && Join(values) == Upper(text)
  {
    hide Join, Octets, HexNumber, Split, Upper, DigitValue, UpperDigit;
    SplitPair(text);
    var value := 16 * DigitValue(text[0]).value + DigitValue(text[1]).value;
    var rest := text[2..];
    if n == 1 {
      assert rest == "";
      NothingLeft(value);
    } else {
      assert rest[0] == ':' && rest[1..] == text[3..];
      CanonicalSplits(text[3..], n - 1);
      SplitColon(rest);
      JoinPair(value, Octets(Split(text[3..])).value);
    }
    DigitFacts(text[0]);
    DigitFacts(text[1]);
    assert value / 16 == DigitValue(text[0]).value && value % 16 == DigitValue(text[1]).value;
    OctetsPair([text[0], text[1]], value, Split(rest));
    var pair := [UpperDigit(value / 16), UpperDigit(value % 16)];
    var values := [value] + Octets(Split(rest)).value;
    assert Octets(Split(text)) == Some(values);
    if n == 1 {
      assert values == [value] && pair + "" == pair;
    } else {
      assert pair + ":" + Upper(text[3..]) == pair + (":" + Upper(text[3..]));
    }
  }

  lemma NothingLeft(value: Octet)
    ensures Split("") == [] && Octets([]) == Some([]) && Upper("") == ""
    ensures Join([value]) == [UpperDigit(value / 16), UpperDigit(value % 16)]
  {}

  lemma SplitColon(text: string)
    requires |text| > 0 && text[0] == ':'
    ensures Split(text) == Split(text[1..]) && Upper(text) == ":" + Upper(text[1..])
  {}

  lemma JoinPair(value: Octet, rest: seq<Octet>)
    requires rest != []
    ensures Join([value] + rest) == [UpperDigit(value / 16), UpperDigit(value % 16)] + ":" + Join(rest)
  {
    assert ([value] + rest)[1..] == rest;
  }

  lemma OctetsPair(pair: string, value: Octet, rest: seq<string>)
    requires HexNumber(pair) == Some(value) && Octets(rest).Some?
    ensures Octets([pair] + rest) == Some([value] + Octets(rest).value)
  {
    assert ([pair] + rest)[1..] == rest;
  }

  lemma SplitPair(text: string)
    requires |text| >= 2 && DigitValue(text[0]).Some? && DigitValue(text[1]).Some?
    requires |text| > 2 ==> text[2] == ':'
    ensures Split(text) == [[text[0], text[1]]] + Split(text[2..])
    ensures Upper(text) == [UpperChar(text[0]), UpperChar(text[1])] + Upper(text[2..])
    ensures HexNumber([text[0], text[1]]) == Some(16 * DigitValue(text[0]).value + DigitValue(text[1]).value)
  {
    hide HexNumber, DigitValue, Split, Upper, RunLength, UpperDigit, UpperChar;
    assert |text| > 2 ==> IsSeparator(text[2]);
    hide IsSeparator;
    DigitFacts(text[0]);
    DigitFacts(text[1]);
    PairNumber(text[0], text[1]);
    RunOfTwo(text);
    SplitFirst(text);
    UpperPair(text);
  }

  lemma SplitFirst(text: string)
    requires RunLength(text) == 2 && !IsSeparator(text[0])
    ensures Split(text) == [[text[0], text[1]]] + Split(text[2..])
  {
    assert text[..2] == [text[0], text[1]];
  }

  lemma UpperPair(text: string)
    requires |text| >= 2
    ensures Upper(text) == [UpperChar(text[0]), UpperChar(text[1])] + Upper(text[2..])
  {
    assert text[1..][1..] == text[2..];
  }

  lemma RunOfTwo(text: string)
    requires |text| >= 2 && !IsSeparator(text[0]) && !IsSeparator(text[1]) && (|text| > 2 ==> IsSeparator(text[2]))
    ensures RunLength(text) == 2
  {
    assert text[1..][0] == text[1] && text[1..][1..] == text[2..];
    assert RunLength(text[2..]) == 0;
    assert RunLength(text[1..]) == 1 + RunLength(text[2..]);
  }

  lemma PairNumber(a: char, b: char)
    requires DigitValue(a).Some? && DigitValue(b).Some?
    ensures HexNumber([a, b]) == Some(16 * DigitValue(a).value + DigitValue(b).value)
  {
    assert [a, b][..1] == [a] && [a][..0] == "";
    assert HexNumber([a]) == Some(DigitValue(a).value);
  }

  /** A text whose upper case is the text of some bytes is canonical. */
  lemma {:induction false} UpperOfJoin(text: string, values: seq<Octet>)
    requires values != [] && Upper(text) == Join(values)
    ensures Canonical(text, |values|)
    decreases |values|
  {
    var v := values[0];
    UpperAt(text, 0);
    UpperAt(text, 1);
    UpperDigitFacts(text[0], v / 16);
    UpperDigitFacts(text[1], v % 16);
    if |values| > 1 {
      UpperAt(text, 2);
      UpperDigitFacts(text[2], 0);
      UpperDrop(text, 3);
      assert Join(values)[3..] == Join(values[1..]);
      UpperOfJoin(text[3..], values[1..]);
    }
  }

  lemma {:induction false} UpperAt(text: string, i: nat)
    requires i < |text|
    ensures Upper(text)[i] == UpperChar(text[i])
  {
    if i > 0 {
      UpperAt(text[1..], i - 1);
    }
  }

  lemma {:induction false} UpperDrop(text: string, i: nat)
    requires i <= |text|
    ensures Upper(text)[i..] == Upper(text[i..])
  {
    if i > 0 {
      UpperDrop(text[1..], i - 1);
      assert Upper(text)[1..] == Upper(text[1..]);
      assert Upper(text)[1..][i - 1..] == Upper(text)[i..] && text[1..][i - 1..] == text[i..];
    }
  }

  /**
   An address is reported as written, once the device holds it, exactly when it was given in canonical
   form. Any other accepted form (dashes, single digits) is written just the same but never confirmed.
   */
  lemma ConfirmedIffCanonical(text: string)
    ensures Canonical(text, 6) <==> MacToLe(text).Some? && MacFromLe(MacToLe(text).value) == Some(Upper(text))
  {
    if Canonical(text, 6) {
      CanonicalSplits(text, 6);
      ReversedTwice(Octets(Split(text)).value);
    }
    if MacToLe(text).Some? && MacFromLe(MacToLe(text).value) == Some(Upper(text)) {
      var m := MacToLe(text).value;
      assert m[..6] == m;
      UpperOfJoin(text, Reversed(m));
    }
  }

  /** A part of one digit. */
  lemma DigitPart(c: char, rest: string)
    requires DigitValue(c).Some?
    ensures Split([c]) == [[c]] && Split([c, ':'] + rest) == [[c]] + Split(rest)
    ensures HexNumber([c]) == Some(DigitValue(c).value)
  {
    DigitFacts(c);
    var text := [c, ':'] + rest;
    assert [c][1..] == "" && text[1..] == ":" + rest && (":" + rest)[1..] == rest;
    assert text[..1] == [c] && [c][..1] == [c] && [c][..0] == "";
    assert RunLength(text[1..]) == 0 && RunLength(text) == 1;
    assert RunLength("") == 0 && RunLength([c]) == 1 && Split("") == [];
  }

  /** An address given with one digit a byte. */
  function Singles(digits: string): string
    requires digits != ""
  {
    if |digits| == 1 then digits else [digits[0], ':'] + Singles(digits[1..])
  }

  lemma {:induction false} SinglesSplit(digits: string)
    requires digits != "" && forall k | 0 <= k < |digits| :: DigitValue(digits[k]).Some?
    ensures var parts := Split(Singles(digits));
            && |parts| == |digits| && Octets(parts).Some? && |Octets(parts).value| == |digits|
            && forall k | 0 <= k < |digits| :: Octets(parts).value[k] == DigitValue(digits[k]).value
    decreases |digits|
  {
    hide Split, Octets, HexNumber, DigitValue;
    OctetsEmpty();
    var c := digits[0];
    if |digits| == 1 {
      DigitPart(c, "");
      OctetsPair([c], DigitValue(c).value, []);
      assert digits == [c] && [[c]] + [] == [[c]];
    } else {
      var rest := digits[1..];
      SinglesSplit(rest);
      DigitPart(c, Singles(rest));
      OctetsPair([c], DigitValue(c).value, Split(Singles(rest)));
    }
  }

  /** Any address given so ("1:2:3:4:5:6") is accepted, written, and reads back as another text. */
  lemma SingleDigitsAreNotConfirmed(digits: string)
    requires |digits| == 6 && forall k | 0 <= k < 6 :: DigitValue(digits[k]).Some?
    ensures var sent, text := MacToLe(Singles(digits)), Singles(digits);
            && sent.Some? && (forall k | 0 <= k < 6 :: sent.value[k] == DigitValue(digits[5 - k]).value)
            && MacFromLe(sent.value) != Some(Upper(text))
  {
    hide Split, Octets, MacFromLe, Upper;
    SinglesSplit(digits);
    ConfirmedIffCanonical(Singles(digits));
    assert Singles(digits)[1] == ':' && DigitValue(':') == None;
  }

  lemma OctetsEmpty()
    ensures Octets([]) == Some([])
  {}

  lemma ReversedTwice(s: seq<Octet>)
    ensures Reversed(Reversed(s)) == s && Reversed(s)[..|s|] == Reversed(s)
  {}

  lemma UpperDigitTwice(n: int)
    requires 0 <= n < 16
    ensures UpperChar(UpperDigit(n)) == UpperDigit(n) && DigitValue(UpperDigit(n)) == Some(n)
  {}

  lemma {:induction false} JoinSplits(values: seq<Octet>)
    requires values != []
    ensures Octets(Split(Join(values))) == Some(values)
    decreases |values|
  {
    var text := Join(values);
    JoinIsUpper(values);
    UpperOfJoin(text, values);
    CanonicalSplits(text, |values|);
    JoinInjective(values, Octets(Split(text)).value);
  }

  lemma {:induction false} JoinIsUpper(values: seq<Octet>)
    ensures Upper(Join(values)) == Join(values)
    decreases |values|
  {
    if values != [] {
      var v := values[0];
      UpperDigitTwice(v / 16);
      UpperDigitTwice(v % 16);
      var text := Join(values);
      assert Upper(text) == [UpperChar(text[0])] + Upper(text[1..]);
      assert Upper(text[1..]) == [UpperChar(text[1])] + Upper(text[2..]) by { assert text[1..][1..] == text[2..]; }
      if |values| > 1 {
        JoinIsUpper(values[1..]);
        assert text[2..] == ":" + Join(values[1..]);
        assert text[2..][1..] == Join(values[1..]);
      } else {
        assert text[2..] == "";
      }
    }
  }

  lemma {:induction false} JoinInjective(a: seq<Octet>, b: seq<Octet>)
    requires |a| == |b| && Join(a) == Join(b)
    ensures a == b
    decreases |a|
  {
    if a != [] {
      UpperDigitTwice(a[0] / 16);
      UpperDigitTwice(b[0] / 16);
      UpperDigitTwice(a[0] % 16);
      UpperDigitTwice(b[0] % 16);
      assert Join(a)[0] == Join(b)[0] && Join(a)[1] == Join(b)[1];
      assert a[0] == b[0];
      if |a| > 1 {
        assert Join(a)[3..] == Join(a[1..]) && Join(b)[3..] == Join(b[1..]);
        JoinInjective(a[1..], b[1..]);
      }
      assert a == [a[0]] + a[1..] && b == [b[0]] + b[1..];
    }
  }

  /** Reading an address and writing it back sends the same six bytes. */
  lemma MacComesBack(m: Mac)
    ensures MacFromLe(m).Some? && MacToLe(MacFromLe(m).value) == Some(m)
  {
    assert m[..6] == m;
    JoinSplits(Reversed(m));
    ReversedTwice(m);
    var text := Join(Reversed(m));
    JoinIsUpper(Reversed(m));
    UpperOfJoin(text, Reversed(m));
    CanonicalSplits(text, 6);
  }
}
