/** Decimal rendering of a natural number, as Swift's string interpolation
    renders the file length placed in the Content-Length header, together
    with the parser that inverts it. */
module Decimal {
  import opened Results

  predicate IsDigit(c: char) {
    '0' <= c <= '9'
  }

  predicate AllDigits(s: string) {
    forall i :: 0 <= i < |s| ==> IsDigit(s[i])
  }

  /** A rendering without leading zeros: what interpolating a number yields. */
  predicate IsCanonical(s: string) {
    |s| > 0 && AllDigits(s) && (|s| > 1 ==> s[0] != '0')
  }

  function DigitValue(c: char): (d: nat)
    requires IsDigit(c)
    ensures d < 10
  {
    c as int - '0' as int
  }

  function DigitChar(d: nat): (c: char)
    requires d < 10
    ensures IsDigit(c) && DigitValue(c) == d
    ensures (c == '0') <==> (d == 0)
  {
    ('0' as int + d) as char
  }

  /** The decimal digits of `n`, most significant first. */
  function FormatNat(n: nat): (s: string)
    ensures |s| > 0 && AllDigits(s)
    ensures n < 10 <==> |s| == 1
    decreases n
  {
    if n < 10 then [DigitChar(n)] else FormatNat(n / 10) + [DigitChar(n % 10)]
  }

  /** The number a string of decimal digits denotes; `None` when the string
      is empty or holds a character that is not a digit. */
  function ParseNat(s: string): (r: Option<nat>)
    ensures r.Some? <==> |s| > 0 && AllDigits(s)
    decreases |s|
  {
    if |s| == 0 || !IsDigit(s[|s| - 1]) then None
    else if |s| == 1 then Some(DigitValue(s[0]))
    else
      match ParseNat(s[..|s| - 1])
      case None => None
      case Some(v) => Some(10 * v + DigitValue(s[|s| - 1]))
  }

  /** Rendering never produces a leading zero. */
  lemma {:induction false} FormatIsCanonical(n: nat)
    ensures IsCanonical(FormatNat(n))
    decreases n
  {
    if n >= 10 {
      FormatIsCanonical(n / 10);
      assert FormatNat(n)[0] == FormatNat(n / 10)[0];
      if n / 10 < 10 {
        assert FormatNat(n / 10) == [DigitChar(n / 10)];
      }
    }
  }

  /** Parsing a rendering gives back the number. */
  lemma {:induction false} ParseFormat(n: nat)
    ensures ParseNat(FormatNat(n)) == Some(n)
    decreases n
  {
    if n >= 10 {
      var s := FormatNat(n);
      ParseFormat(n / 10);
      assert s[..|s| - 1] == FormatNat(n / 10);
    }
  }

  /** A canonical string with a non-zero leading digit denotes a positive number. */
  lemma {:induction false} LeadingDigitPositive(s: string)
    requires |s| > 0 && AllDigits(s) && s[0] != '0'
    ensures ParseNat(s).value >= 1
    decreases |s|
  {
    if |s| > 1 {
      var pre := s[..|s| - 1];
      assert pre[0] == s[0];
      LeadingDigitPositive(pre);
    }
  }

  /** Rendering a parsed canonical string gives back the string. */
  lemma {:induction false} FormatParse(s: string)
    requires IsCanonical(s)
    ensures FormatNat(ParseNat(s).value) == s
    decreases |s|
  {
    if |s| == 1 {
      assert FormatNat(ParseNat(s).value) == [s[0]];
    } else {
      var pre := s[..|s| - 1];
      var last := s[|s| - 1];
      assert pre[0] == s[0];
      assert IsCanonical(pre);
      var v' := ParseNat(pre).value;
      var v := ParseNat(s).value;
      assert v == 10 * v' + DigitValue(last);
      LeadingDigitPositive(pre);
      assert v / 10 == v' && v % 10 == DigitValue(last);
      FormatParse(pre);
      assert FormatNat(v) == pre + [last];
      assert pre + [last] == s;
    }
  }
}
