/** String helpers the page relies on: decimal rendering of integers (as a
    template literal prints them), ASCII upper-casing, prefix tests and the
    date part of a "yyyy-MM-dd HH:mm:ss" stamp. */
module Text {

  /** The character of decimal digit `d`. */
  function DigitChar(d: nat): (c: char)
    requires d < 10
    ensures '0' <= c <= '9'
    ensures c as int - '0' as int == d
  {
    ('0' as int + d) as char
  }

  /** Decimal rendering of a non-negative integer: digits only, no leading zero. */
  function NatToString(n: nat): (s: string)
    ensures |s| >= 1
    ensures forall i :: 0 <= i < |s| ==> '0' <= s[i] <= '9'
    ensures s[0] == '0' ==> n == 0
    decreases n
  {
    if n < 10 then [DigitChar(n)] else NatToString(n / 10) + [DigitChar(n % 10)]
  }

  /** The number a string of decimal digits denotes (the reading side of `NatToString`). */
  function DecimalValue(s: string): nat
    decreases |s|
  {
    if |s| == 0 then 0
    else
      var c := s[|s| - 1];
      DecimalValue(s[..|s| - 1]) * 10 + (if '0' <= c <= '9' then c as int - '0' as int else 0)
  }

  /** Reading back a rendered number gives the number. */
  lemma {:induction false} DecimalRoundTrip(n: nat)
    ensures DecimalValue(NatToString(n)) == n
    decreases n
  {
    var s := NatToString(n);
    if n < 10 {
      assert s[..|s| - 1] == [];
    } else {
      DecimalRoundTrip(n / 10);
      assert s[..|s| - 1] == NatToString(n / 10);
    }
  }

  /** Distinct numbers render as distinct strings. */
  lemma NatToStringInjective(a: nat, b: nat)
    ensures NatToString(a) == NatToString(b) ==> a == b
  {
    DecimalRoundTrip(a);
    DecimalRoundTrip(b);
  }

  /** `toUpperCase` restricted to ASCII letters. */
  function UpperChar(c: char): char
  {
    if 'a' <= c <= 'z' then (c as int - 32) as char else c
  }

  function Upper(s: string): (r: string)
    ensures |r| == |s|
    ensures forall i :: 0 <= i < |s| ==> r[i] == UpperChar(s[i])
  {
    seq(|s|, i requires 0 <= i < |s| => UpperChar(s[i]))
  }

  /** Upper-casing twice is upper-casing once. */
  lemma UpperIdempotent(s: string)
    ensures Upper(Upper(s)) == Upper(s)
  {
    forall i | 0 <= i < |s|
      ensures Upper(Upper(s))[i] == Upper(s)[i]
    {
      assert Upper(s)[i] == UpperChar(s[i]);
    }
  }

  /** `s.startsWith(prefix)`. */
  predicate StartsWith(s: string, prefix: string)
  {
    prefix <= s
  }

  /** The text before the first space: `s.split(" ")[0]`. */
  function DatePart(s: string): (d: string)
    ensures d <= s
    ensures ' ' !in d
    ensures |d| < |s| ==> s[|d|] == ' '
    decreases |s|
  {
    if |s| == 0 || s[0] == ' ' then "" else [s[0]] + DatePart(s[1..])
  }

  /** The three properties of `DatePart` determine it: any space-free prefix
      that ends at the end of `s` or at a space is the date part. */
  lemma DatePartUnique(s: string, d: string)
    requires d <= s && ' ' !in d
    requires |d| < |s| ==> s[|d|] == ' '
    ensures d == DatePart(s)
  {
    var e := DatePart(s);
    assert d == s[..|d|] == e;
  }
}
