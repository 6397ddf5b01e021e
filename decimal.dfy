/** Decimal text: PHP's int-to-string conversion, the `padLeft` helper of
    src/Paynow.php and the two-digit length field built from them. */
module Decimal {
  import opened Wrappers

  predicate IsDigit(c: char) {
    '0' <= c <= '9'
  }

  predicate AllDigits(s: string) {
    forall i :: 0 <= i < |s| ==> IsDigit(s[i])
  }

  function DigitValue(c: char): (d: nat)
    requires IsDigit(c)
    ensures d < 10
  {
    c as int - '0' as int
  }

  function DigitChar(d: nat): (c: char)
    requires d < 10
    ensures IsDigit(c) && DigitValue(c) == d
  {
    (d + '0' as int) as char
  }

  /** The number a string of decimal digits denotes (most significant first). */
  function DigitsValue(s: string): nat
    requires AllDigits(s)
  {
    if s == [] then 0 else DigitsValue(s[..|s| - 1]) * 10 + DigitValue(s[|s| - 1])
  }

  /** PHP's conversion of a non-negative int to a string. */
  function NatToString(n: nat): string {
    if n < 10 then [DigitChar(n)] else NatToString(n / 10) + [DigitChar(n % 10)]
  }

  /** The conversion is canonical decimal: digits only, no sign, no leading
      zero, and a single digit exactly for the numbers below ten. */
  lemma {:induction false} NatToStringDigits(n: nat)
    ensures |NatToString(n)| >= 1 && AllDigits(NatToString(n))
    ensures NatToString(n)[0] == '0' ==> n == 0
    ensures n < 10 <==> |NatToString(n)| == 1
  {
    if n >= 10 {
      NatToStringDigits(n / 10);
    }
  }

  /** The conversion reads back as the number. */
  lemma {:induction false} NatToStringValue(n: nat)
    ensures AllDigits(NatToString(n)) && DigitsValue(NatToString(n)) == n
  {
    NatToStringDigits(n);
    if n >= 10 {
      NatToStringValue(n / 10);
      var r := NatToString(n);
      assert r[..|r| - 1] == NatToString(n / 10);
    }
  }

  /** Canonical decimal text has exactly two digits for the numbers 10..99 and
      at least three from 100 on. */
  lemma {:induction false} NatToStringWidth(n: nat)
    ensures 10 <= n < 100 ==> |NatToString(n)| == 2
    ensures n >= 100 ==> |NatToString(n)| >= 3
  {
    if n >= 10 {
      NatToStringWidth(n / 10);
      NatToStringDigits(n / 10);
    }
  }

  function Pow10(w: nat): (p: nat)
    ensures p >= 1
  {
    if w == 0 then 1 else 10 * Pow10(w - 1)
  }

  /** A number below 10^w takes at most w digits. */
  lemma {:induction false} NatToStringAtMost(n: nat, w: nat)
    requires 1 <= w && n < Pow10(w)
    ensures |NatToString(n)| <= w
  {
    if n >= 10 {
      assert Pow10(1) == 10;
      assert n / 10 < Pow10(w - 1);
      NatToStringAtMost(n / 10, w - 1);
    }
  }

  /** `padLeft($s, $n)`. */
  function PadLeft(s: string, n: int): string {
    if n <= |s| then s else "0" + s
  }

  /** `padLeft` leaves a string of n characters or more as it is, and
      otherwise puts exactly one '0' in front, whatever n asks for. */
  lemma PadLeftBehaviour(s: string, n: int)
    ensures n <= |s| ==> PadLeft(s, n) == s
    ensures n > |s| ==> |PadLeft(s, n)| == |s| + 1 && PadLeft(s, n)[0] == '0' && PadLeft(s, n)[1..] == s
    ensures n > |s| + 1 ==> |PadLeft(s, n)| < n
  {
  }

  /** The length field `padLeft(strlen(value), 2)` for a value of n bytes. */
  function LengthField(n: nat): string {
    PadLeft(NatToString(n), 2)
  }

  /** Reads a two-digit length field back. */
  function ParseLength(s: string): (r: Option<nat>)
    ensures r.Some? ==> r.value < 100
  {
    if |s| == 2 && AllDigits(s) then Some(DigitValue(s[0]) * 10 + DigitValue(s[1])) else None
  }

  /** For every length 0..99 the length field is exactly two decimal digits
      denoting that length; from 100 on it is wider than the two characters the
      format reserves for it. */
  lemma LengthFieldTwoDigits(n: nat)
    ensures n < 100 ==> |LengthField(n)| == 2 && ParseLength(LengthField(n)) == Some(n)
    ensures n >= 100 ==> |LengthField(n)| >= 3
  {
    NatToStringWidth(n);
    NatToStringValue(n);
    var d := NatToString(n);
    if n < 10 {
      assert d == [DigitChar(n)];
      assert LengthField(n) == ['0', DigitChar(n)];
    } else if n < 100 {
      assert d[..1] == [d[0]];
      assert DigitsValue(d[..1]) == DigitValue(d[0]);
    }
  }

  /** k zero digits. */
  function Zeros(k: nat): (z: string)
    ensures |z| == k && forall i :: 0 <= i < k ==> z[i] == '0'
  {
    seq(k, i => '0')
  }

  /** `str_pad` with '0' on the left up to width w (PHP's date format 'Y'
      prints at least four digits). */
  function ZeroPadded(s: string, w: nat): (r: string)
    ensures |r| == if |s| < w then w else |s|
  {
    if |s| < w then Zeros(w - |s|) + s else s
  }

  /** Leading zeros do not change the value of a digit string. */
  lemma {:induction false} LeadingZerosValue(z: string, s: string)
    requires forall i :: 0 <= i < |z| ==> z[i] == '0'
    requires AllDigits(s)
    ensures AllDigits(z + s)
    ensures DigitsValue(z + s) == DigitsValue(s)
  {
    if s != [] {
      var t := z + s;
      assert t[..|t| - 1] == z + s[..|s| - 1];
      LeadingZerosValue(z, s[..|s| - 1]);
    } else {
      assert z + s == z;
      AllZerosValue(z);
    }
  }

  lemma {:induction false} AllZerosValue(z: string)
    requires forall i :: 0 <= i < |z| ==> z[i] == '0'
    ensures AllDigits(z) && DigitsValue(z) == 0
  {
    if z != [] {
      AllZerosValue(z[..|z| - 1]);
    }
  }

  /** n written with at least w digits reads back as n. */
  lemma ZeroPaddedValue(n: nat, w: nat)
    ensures AllDigits(ZeroPadded(NatToString(n), w))
    ensures DigitsValue(ZeroPadded(NatToString(n), w)) == n
  {
    var s := NatToString(n);
    NatToStringValue(n);
    if |s| < w {
      LeadingZerosValue(Zeros(w - |s|), s);
    }
  }

  lemma DigitsValueTwo(a: char, b: char)
    requires IsDigit(a) && IsDigit(b)
    ensures DigitsValue([a, b]) == DigitValue(a) * 10 + DigitValue(b)
  {
    assert [a, b][..1] == [a];
    assert [a][..0] == [];
    assert DigitsValue([a]) == DigitValue(a);
  }

  /** The three parts of a concatenation of digit strings. */
  lemma DigitsConcat3(a: string, b: string, c: string)
    requires AllDigits(a) && AllDigits(b) && AllDigits(c)
    ensures AllDigits(a + b + c)
    ensures (a + b + c)[..|a|] == a && (a + b + c)[|a|..|a| + |b|] == b && (a + b + c)[|a| + |b|..] == c
  {
  }
}
