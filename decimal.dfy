/** Python's `str(n)` for an integer, as an f-string inserts it into a URL or
    a message, and the parser that reads such text back. */
module Decimal {
  import opened Wrappers

  predicate IsDigit(c: char) {
    '0' <= c <= '9'
  }

  predicate AllDigits(s: string) {
    forall i :: 0 <= i < |s| ==> IsDigit(s[i])
  }

  function DigitChar(d: nat): (c: char)
    requires d < 10
    ensures IsDigit(c)
  {
    ('0' as int + d) as char
  }

  function DigitValue(c: char): (d: nat)
    requires IsDigit(c)
    ensures d < 10 && DigitChar(d) == c
  {
    c as int - '0' as int
  }

  /** The decimal digits of `n`, most significant first, without leading zeros. */
  function NatToString(n: nat): (s: string)
    ensures |s| > 0 && AllDigits(s)
    ensures s[0] == '0' <==> n == 0
    decreases n
  {
    if n < 10 then [DigitChar(n)] else NatToString(n / 10) + [DigitChar(n % 10)]
  }

  /** `str(i)`: a minus sign before the digits of a negative number. */
  function IntToString(i: int): (s: string)
    ensures |s| > 0
    ensures s[0] == '-' <==> i < 0
  {
    if i < 0 then "-" + NatToString(-i) else NatToString(i)
  }

  /** The value of a string of decimal digits. */
  function NatValue(s: string): nat
    requires AllDigits(s)
  {
    if s == [] then 0 else NatValue(s[..|s| - 1]) * 10 + DigitValue(s[|s| - 1])
  }

  /** Digits as `str` writes them: at least one, and no leading zero
      unless the number is zero itself. */
  predicate Canonical(s: string) {
    |s| > 0 && AllDigits(s) && (|s| == 1 || s[0] != '0')
  }

  /** Reads an optionally signed decimal integer written as `str` writes it;
      None for anything else, including leading zeros and "-0". */
  function ParseInt(s: string): (r: Option<int>)
    ensures r.Some? ==> |s| > 0
  {
    if |s| > 1 && s[0] == '-' && s[1] != '0' && Canonical(s[1..]) then var v: int := NatValue(s[1..]); Some(-v)
    else if Canonical(s) then Some(NatValue(s))
    else None
  }

  lemma {:induction false} NatRoundTrip(n: nat)
    ensures NatValue(NatToString(n)) == n
    decreases n
  {
    if n >= 10 {
      var s := NatToString(n);
      assert s[..|s| - 1] == NatToString(n / 10);
      NatRoundTrip(n / 10);
    }
  }

  /** Reading back what `str(i)` wrote gives `i`: the text identifies the number. */
  lemma IntRoundTrip(i: int)
    ensures ParseInt(IntToString(i)) == Some(i)
  {
    if i < 0 {
      NatRoundTrip(-i);
      assert IntToString(i)[1..] == NatToString(-i);
    } else {
      NatRoundTrip(i);
    }
  }

  /** Canonical digits are the digits of their value: no other spelling
      of a number is read. */
  lemma {:induction false} CanonicalRoundTrip(s: string)
    requires Canonical(s)
    ensures NatToString(NatValue(s)) == s
    decreases |s|
  {
    var d := DigitValue(s[|s| - 1]);
    if |s| > 1 {
      var t := s[..|s| - 1];
      assert t[0] == s[0];
      CanonicalRoundTrip(t);
      var v := NatValue(t);
      assert v != 0 by { assert NatToString(v)[0] != '0'; }
      var n := v * 10 + d;
      assert n / 10 == v && n % 10 == d;
      assert s == t + [s[|s| - 1]];
    }
  }

  /** A text ParseInt accepts is exactly `str` of the value read: `str(i)`
      is the only spelling of `i`. */
  lemma ParseIntCanonical(s: string)
    ensures ParseInt(s).Some? ==> IntToString(ParseInt(s).value) == s
  {
    if |s| > 1 && s[0] == '-' && s[1] != '0' && Canonical(s[1..]) {
      CanonicalRoundTrip(s[1..]);
      assert NatValue(s[1..]) != 0 by { assert NatToString(NatValue(s[1..]))[0] != '0'; }
      assert s == "-" + s[1..];
    } else if Canonical(s) {
      CanonicalRoundTrip(s);
    }
  }
}
