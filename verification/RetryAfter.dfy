/**
 The Retry-After header as the ingress workload reads it (tools/ingress/workload.py,
 retry_after_seconds).
 */
module RetryAfter {
  import opened Wrappers
  import opened Decimals

  /** `int` refuses a longer numeral with a ValueError (the interpreter's default limit). */
  const MAX_DIGITS := 4300

  /** The seconds and whether they are the header's; None when the conversion raises. */
  function Seconds(value: Option<string>): Option<(int, bool)> {
    if value.Some? && IsNumeral(value.value) then
      if |value.value| > MAX_DIGITS then None
      else if 1 <= ValueOf(value.value) <= 30 then Some((ValueOf(value.value), true))
      else Some((1, false))
    else Some((1, false))
  }

  /**
   A decimal notation with any leading zeros raises when it has more than 4300 digits, and is
   otherwise honoured exactly when it is 1 to 30; it asks for one second when it is not.
   */
  lemma {:induction false} HonouredExactly(n: nat, count: nat)
    ensures Seconds(Some(Zeros(count) + Decimal(n))) ==
            if count + |Decimal(n)| > MAX_DIGITS then None
            else if 1 <= n <= 30 then Some((n, true)) else Some((1, false))
    ensures Seconds(None) == Some((1, false))
  {
    LeadingZeros(count, Decimal(n));
    DecimalRoundTrip(n);
  }

  /**
   ... and no other header does either: one that is honoured, or that raises, is such a notation, of
   at most and of more than 4300 digits.
   */
  lemma {:induction false} HonouredOnly(s: string)
    requires Seconds(Some(s)).None? || Seconds(Some(s)).value.1
    ensures Seconds(Some(s)).Some? ==> 1 <= Seconds(Some(s)).value.0 <= 30
    ensures |s| > MAX_DIGITS <==> Seconds(Some(s)).None?
    ensures exists count: nat, n: nat ::
              s == Zeros(count) + Decimal(n) && (Seconds(Some(s)).Some? ==> n == Seconds(Some(s)).value.0)
  {
    var count := NumeralIsPadded(s);
    assert s == Zeros(count) + Decimal(ValueOf(s));
  }
}
