/** Decimal numerals: what `isdigit`, `int` and decimal formatting do with ASCII text. */
module Decimals {
  predicate IsDigit(c: char) {
    '0' <= c <= '9'
  }

  /** `value.isascii() and value.isdigit()` */
  predicate IsNumeral(s: string) {
    s != [] && forall i :: 0 <= i < |s| ==> IsDigit(s[i])
  }

  function DigitValue(c: char): nat
    requires IsDigit(c)
  {
    (c - '0') as nat
  }

  /** `int(value)` of a numeral. */
  function ValueOf(s: string): nat
    requires forall i :: 0 <= i < |s| ==> IsDigit(s[i])
  {
    if s == [] then 0 else 10 * ValueOf(s[..|s| - 1]) + DigitValue(s[|s| - 1])
  }

  /** Decimal notation without leading zeros. */
  function Decimal(n: nat): (s: string)
    ensures IsNumeral(s)
  {
    if n < 10 then ['0' + n as char] else Decimal(n / 10) + ['0' + (n % 10) as char]
  }

  lemma {:induction false} DecimalRoundTrip(n: nat)
    ensures ValueOf(Decimal(n)) == n
  {
    if n < 10 {
      assert Decimal(n)[..0] == [];
    } else {
      DecimalRoundTrip(n / 10);
      assert Decimal(n)[..|Decimal(n)| - 1] == Decimal(n / 10);
    }
  }

  function Zeros(count: nat): (s: string)
    ensures |s| == count && forall i :: 0 <= i < |s| ==> s[i] == '0'
  {
    seq(count, _ => '0')
  }

  lemma {:induction false} LeadingZeros(count: nat, s: string)
    requires forall i :: 0 <= i < |s| ==> IsDigit(s[i])
    ensures forall i :: 0 <= i < |Zeros(count) + s| ==> IsDigit((Zeros(count) + s)[i])
    ensures ValueOf(Zeros(count) + s) == ValueOf(s)
    decreases count + |s|
  {
    var t := Zeros(count) + s;
    if s == [] {
      if count > 0 {
        LeadingZeros(count - 1, s);
        assert t[..|t| - 1] == Zeros(count - 1) + s;
      }
    } else {
      LeadingZeros(count, s[..|s| - 1]);
      assert t[..|t| - 1] == Zeros(count) + s[..|s| - 1];
    }
  }

  /** Padding goes on in front: a zero is absorbed by it. */
  lemma {:induction false} PadMore(front: string, c: char, v: nat, n: nat, before: nat) returns (count: nat)
    requires front == Zeros(before) + Decimal(v) && Decimal(n) == (if v == 0 then [] else Decimal(v)) + [c]
    ensures front + [c] == Zeros(count) + Decimal(n)
  {
    if v == 0 {
      count := before + 1;
      assert Decimal(0) == ['0'];
      assert front == Zeros(count);
    } else {
      count := before;
      assert (Zeros(count) + Decimal(v)) + [c] == Zeros(count) + (Decimal(v) + [c]);
    }
  }

  /** One digit more behind a numeral, in decimal notation. */
  lemma {:induction false} DecimalMore(front: string, c: char)
    requires IsNumeral(front) && IsDigit(c)
    ensures var v := ValueOf(front);
            Decimal(ValueOf(front + [c])) == (if v == 0 then [] else Decimal(v)) + [c]
  {
    assert (front + [c])[..|front|] == front;
    var v, d := ValueOf(front), DigitValue(c);
    assert ValueOf(front + [c]) == 10 * v + d && ['0' + d as char] == [c];
    assert (10 * v + d) / 10 == v && (10 * v + d) % 10 == d;
  }

  /** A numeral is decimal notation after some zeros. */
  lemma {:induction false} NumeralIsPadded(s: string) returns (count: nat)
    requires IsNumeral(s)
    ensures s == Zeros(count) + Decimal(ValueOf(s))
    decreases |s|
  {
    var front, c := s[..|s| - 1], s[|s| - 1];
    if front == [] {
      count := 0;
      assert ValueOf(front) == 0 && s == [c];
    } else {
      count := NumeralIsPadded(front);
      assert s == front + [c];
      DecimalMore(front, c);
      count := PadMore(front, c, ValueOf(front), ValueOf(s), count);
    }
  }
}
