/**
 * Python's `'%d' % n` for natural numbers, the rendering the face column
 * labels use for their 1-based face number, and a parser that inverts it.
 */
module Decimal {
  import opened Wrappers

  /** The character of a decimal digit. */
  function DigitChar(d: nat): (c: char)
    requires d < 10
    ensures '0' <= c <= '9'
  {
    (d + '0' as int) as char
  }

  /** The value of a decimal digit character, or `None` for any other character. */
  function DigitValue(c: char): (r: Option<nat>)
    ensures r.Some? <==> '0' <= c <= '9'
    ensures r.Some? ==> r.value < 10 && DigitChar(r.value) == c
  {
    if '0' <= c <= '9' then Some(c as int - '0' as int) else None
  }

  /** `'%d' % n`: the decimal digits of `n`, most significant first, with no leading zero. */
  function NatToString(n: nat): (s: string)
    ensures |s| >= 1
    ensures forall i :: 0 <= i < |s| ==> '0' <= s[i] <= '9'
    ensures s[0] == '0' ==> n == 0
    decreases n
  {
    if n < 10 then [DigitChar(n)] else NatToString(n / 10) + [DigitChar(n % 10)]
  }

  /** Reads a non-empty string of decimal digits; `None` if it is empty or holds any other character. */
  function ParseDecimal(s: string): (r: Option<nat>)
    decreases |s|
  {
    if s == [] then None
    else
      var d := DigitValue(s[|s| - 1]);
      if d.None? then None
      else if |s| == 1 then d
      else
        match ParseDecimal(s[..|s| - 1])
        case None => None
        case Some(v) => Some(10 * v + d.value)
  }

  /** Reading back the rendering of `n` gives `n`. */
  lemma {:induction false} ParseNatToString(n: nat)
    ensures ParseDecimal(NatToString(n)) == Some(n)
    decreases n
  {
    if n >= 10 {
      var q, d := n / 10, n % 10;
      var init := NatToString(q);
      var s := init + [DigitChar(d)];
      assert NatToString(n) == s;
      ParseNatToString(q);
      assert s[..|s| - 1] == init;
      assert DigitValue(s[|s| - 1]) == Some(d);
      assert 10 * q + d == n;
    }
  }

  /** Different numbers render differently. */
  lemma NatToStringInjective(a: nat, b: nat)
    requires NatToString(a) == NatToString(b)
    ensures a == b
  {
    ParseNatToString(a);
    ParseNatToString(b);
  }
}
