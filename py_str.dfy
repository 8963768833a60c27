/**
 * The pieces of Python's string behaviour that the formatter relies on:
 * `str.zfill`, `str()` of a non-negative int, and `"".join`.
 */
module PyStr {

  /** A run of n '0' characters. */
  function Zeros(n: nat): string
  {
    seq(n, _ => '0')
  }

  predicate IsSign(c: char)
  {
    c == '+' || c == '-'
  }

  /** 1 when `s` starts with a sign that zfill keeps in front, else 0. */
  function SignLength(s: string): nat
  {
    if |s| > 0 && IsSign(s[0]) then 1 else 0
  }

  /**
   * Python's `s.zfill(width)`: a string at least `width` long is returned as
   * it is; a shorter one gets `width - |s|` zeros inserted right after its
   * leading sign character if it has one, else at the front.  No numeric
   * parsing takes place.
   */
  function ZFill(s: string, width: nat): (r: string)
    ensures |r| == if |s| >= width then |s| else width
    ensures |s| >= width ==> r == s
    ensures |s| < width ==>
              var k, fill := SignLength(s), width - |s|;
              && r[..k] == s[..k]
              && r[k..k + fill] == Zeros(fill)
              && r[k + fill..] == s[k..]
  {
    if |s| >= width then s
    else if |s| > 0 && IsSign(s[0]) then [s[0]] + Zeros(width - |s|) + s[1..]
    else Zeros(width - |s|) + s
  }

  predicate IsDigit(c: char)
  {
    '0' <= c <= '9'
  }

  predicate AllDigits(s: string)
  {
    forall i :: 0 <= i < |s| ==> IsDigit(s[i])
  }

  function DigitChar(d: nat): (c: char)
    requires d < 10
    ensures IsDigit(c) && c as int - '0' as int == d
  {
    ('0' as int + d) as char
  }

  /** Python's `str(n)` for a non-negative int: decimal, no leading zero. */
  function NatToString(n: nat): (r: string)
    ensures |r| >= 1 && AllDigits(r)
    ensures r[0] == '0' ==> n == 0
  {
    if n < 10 then [DigitChar(n)] else NatToString(n / 10) + [DigitChar(n % 10)]
  }

  /** The value of a string of decimal digits (leading zeros allowed). */
  function DigitsValue(s: string): nat
    requires AllDigits(s)
  {
    if s == [] then 0
    else 10 * DigitsValue(s[..|s| - 1]) + (s[|s| - 1] as int - '0' as int)
  }

  type Positive = n: nat | n >= 1 witness 1

  function Pow10(m: nat): Positive
  {
    if m == 0 then 1 else 10 * Pow10(m - 1)
  }

  /** Reading back what `str` wrote gives the number again. */
  lemma {:induction false} NatToStringRoundTrip(n: nat)
    ensures DigitsValue(NatToString(n)) == n
  {
    if n >= 10 {
      NatToStringRoundTrip(n / 10);
      var s := NatToString(n);
      assert s[..|s| - 1] == NatToString(n / 10);
    }
  }

  /** `str(n)` has at most m digits exactly when n < 10^m (m >= 1). */
  lemma {:induction false} NatToStringLength(n: nat, m: nat)
    requires m >= 1
    ensures |NatToString(n)| <= m <==> n < Pow10(m)
  {
    if m >= 2 {
      if n >= 10 {
        NatToStringLength(n / 10, m - 1);
        assert n / 10 < Pow10(m - 1) <==> n < Pow10(m);
      }
    }
  }

  /** Leading zeros do not change the value of a digit string. */
  lemma {:induction false} DigitsValueLeadingZeros(k: nat, s: string)
    requires AllDigits(s)
    ensures AllDigits(Zeros(k) + s)
    ensures DigitsValue(Zeros(k) + s) == DigitsValue(s)
  {
    var z := Zeros(k) + s;
    if s == [] {
      assert z == Zeros(k);
      DigitsValueOfZeros(k);
    } else {
      assert z[..|z| - 1] == Zeros(k) + s[..|s| - 1];
      DigitsValueLeadingZeros(k, s[..|s| - 1]);
    }
  }

  lemma {:induction false} DigitsValueOfZeros(k: nat)
    ensures AllDigits(Zeros(k)) && DigitsValue(Zeros(k)) == 0
  {
    if k > 0 {
      assert Zeros(k)[..k - 1] == Zeros(k - 1);
      DigitsValueOfZeros(k - 1);
    }
  }

  /** zfill of a digit string is a digit string with the same value. */
  lemma ZFillKeepsValue(s: string, width: nat)
    requires AllDigits(s)
    ensures AllDigits(ZFill(s, width))
    ensures DigitsValue(ZFill(s, width)) == DigitsValue(s)
  {
    if |s| < width {
      assert SignLength(s) == 0;
      DigitsValueLeadingZeros(width - |s|, s);
    }
  }

  /**
   * Python's `"".join(parts)`: the parts one after another, with nothing
   * between them.  It is empty exactly when every part is.
   */
  function Join(parts: seq<string>): (r: string)
    ensures |parts| == 1 ==> r == parts[0]
    ensures r == "" <==> forall i :: 0 <= i < |parts| ==> parts[i] == ""
  {
    if parts == [] then "" else parts[0] + Join(parts[1..])
  }

  /** Joining two lists is joining each and concatenating the results. */
  lemma {:induction false} JoinAppend(a: seq<string>, b: seq<string>)
    ensures Join(a + b) == Join(a) + Join(b)
  {
    if a != [] {
      assert (a + b)[1..] == a[1..] + b;
      JoinAppend(a[1..], b);
    } else {
      assert a + b == b;
    }
  }
}
