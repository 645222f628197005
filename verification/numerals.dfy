/** Decimal numerals: `str(k)` / f-string formatting of an integer, and the
    `int(text)` conversion the scene-count and duration handlers apply to the
    user's message. */
module Numerals {
  import opened Wrappers

  predicate IsDigit(c: char) {
    '0' <= c <= '9'
  }

  function DigitChar(d: nat): (c: char)
    requires d < 10
    ensures IsDigit(c)
  {
    '0' + d as char
  }

  function DigitValue(c: char): (d: nat)
    requires IsDigit(c)
    ensures d < 10
  {
    (c - '0') as nat
  }

  /** `str(k)` for a non-negative integer: shortest decimal numeral. */
  function NatToString(k: nat): (r: string)
    ensures |r| >= 1
    ensures forall i :: 0 <= i < |r| ==> IsDigit(r[i])
  {
    if k < 10 then [DigitChar(k)] else NatToString(k / 10) + [DigitChar(k % 10)]
  }

  /** `str(k)` for any integer. */
  function IntToString(k: int): (r: string)
    ensures |r| >= 1
  {
    if k < 0 then "-" + NatToString(-k) else NatToString(k)
  }

  predicate AllDigits(s: string) {
    forall i :: 0 <= i < |s| ==> IsDigit(s[i])
  }

  /** The value of a non-empty run of decimal digits, most significant first. */
  function DigitsValue(s: string): nat
    requires |s| >= 1 && AllDigits(s)
  {
    if |s| == 1 then DigitValue(s[0])
    else DigitsValue(s[..|s| - 1]) * 10 + DigitValue(s[|s| - 1])
  }

  /** Python's `int(text)` on text that is already stripped: an optional sign
      followed by one or more decimal digits; anything else raises
      `ValueError`, which is `None` here. */
  function ParseInt(s: string): (r: Option<int>)
    ensures r.Some? <==>
              || (|s| >= 1 && AllDigits(s))
              || (|s| >= 2 && (s[0] == '+' || s[0] == '-') && AllDigits(s[1..]))
  {
    if |s| >= 2 && (s[0] == '+' || s[0] == '-') && AllDigits(s[1..]) then
      Some(if s[0] == '-' then -(DigitsValue(s[1..]) as int) else DigitsValue(s[1..]))
    else if |s| >= 1 && AllDigits(s) then Some(DigitsValue(s))
    else None
  }

  /** Reading back a printed natural number gives the number. */
  lemma {:induction false} DigitsValueOfNatToString(k: nat)
    ensures DigitsValue(NatToString(k)) == k
  {
    if k >= 10 {
      var s := NatToString(k);
      assert s[..|s| - 1] == NatToString(k / 10);
      DigitsValueOfNatToString(k / 10);
    }
  }

  /** `int(str(k)) == k` for every integer `k`. */
  lemma IntRoundTrip(k: int)
    ensures ParseInt(IntToString(k)) == Some(k)
  {
    var s := IntToString(k);
    if k < 0 {
      var d := NatToString(-k);
      assert s == "-" + d && s[1..] == d;
      assert AllDigits(s[1..]);
      DigitsValueOfNatToString(-k);
    } else {
      assert AllDigits(s);
      assert !(s[0] == '+' || s[0] == '-');
      DigitsValueOfNatToString(k);
    }
  }

  /** Different numbers print differently. */
  lemma NatToStringInjective(a: nat, b: nat)
    requires NatToString(a) == NatToString(b)
    ensures a == b
  {
    DigitsValueOfNatToString(a);
    DigitsValueOfNatToString(b);
  }
}
