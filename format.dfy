/** Number-to-text conversion used by every record field and log message: avr-libc's
    dtostrf (fixed-point, right-aligned in a minimum width) and ltoa (any radix), plus
    the bounded concatenation Mstrcat. Values are exact reals, not binary doubles. */
module Format {

  /** A run of n blanks: the placeholder of a field that has no value. */
  function Spaces(n: nat): (s: string)
    ensures |s| == n
    ensures forall i :: 0 <= i < n ==> s[i] == ' '
  {
    if n == 0 then "" else " " + Spaces(n - 1)
  }

  /** Right-aligns s in a field of at least `width` characters; never truncates. */
  function PadLeft(s: string, width: nat): (r: string)
    ensures |r| == if |s| < width then width else |s|
    ensures r[|r| - |s|..] == s
    ensures forall i :: 0 <= i < |r| - |s| ==> r[i] == ' '
  {
    if |s| < width then Spaces(width - |s|) + s else s
  }

  function Pow10(k: nat): (p: nat)
    ensures p >= 1
  {
    if k == 0 then 1 else 10 * Pow10(k - 1)
  }

  lemma {:induction false} Pow10Add(j: nat, k: nat)
    ensures Pow10(j + k) == Pow10(j) * Pow10(k)
  {
    if j > 0 {
      Pow10Add(j - 1, k);
    }
  }

  /** No character of s is a field separator. */
  predicate NoComma(s: string)
  {
    forall i :: 0 <= i < |s| ==> s[i] != ','
  }

  /** s holds digits only: no separator, blank, sign or point. */
  predicate DigitsOnly(s: string)
  {
    forall i :: 0 <= i < |s| ==> s[i] != ',' && s[i] != ' ' && s[i] != '-' && s[i] != '.'
  }

  /** A digit in radix up to 36, lower-case letters above 9 as avr-libc prints them. */
  function DigitChar(d: nat): (c: char)
    requires d < 36
    ensures c != ',' && c != ' ' && c != '-' && c != '.'
  {
    if d < 10 then ('0' as int + d) as char else ('a' as int + d - 10) as char
  }

  /** The digits of n in the given radix, most significant first, without leading zeros. */
  function NatToString(n: nat, radix: nat): (s: string)
    requires 2 <= radix <= 36
    ensures |s| >= 1
    ensures DigitsOnly(s)
    decreases n
  {
    if n < radix then [DigitChar(n)]
    else
      DivideDown(n, radix);
      var s := NatToString(n / radix, radix) + [DigitChar(n % radix)];
      assert forall i :: 0 <= i < |s| - 1 ==> s[i] == NatToString(n / radix, radix)[i];
      s
  }

  /** Dividing by the radix takes a smaller number, and the remainder is a digit. */
  lemma DivideDown(n: nat, radix: nat)
    requires 2 <= radix <= n
    ensures n / radix < n && n % radix < radix
  {
    var q := n / radix;
    assert n == q * radix + n % radix;
    TimesAtLeastTwo(q, radix);
  }

  lemma {:induction false} TimesAtLeastTwo(q: nat, r: nat)
    requires r >= 2
    ensures q * r >= 2 * q
    decreases r
  {
    if r > 2 {
      TimesAtLeastTwo(q, r - 1);
      assert q * r == q * (r - 1) + q;
    }
  }

  /** A decimal number has at most k digits exactly when it is below 10^k. */
  lemma {:induction false} DecimalLength(n: nat, k: nat)
    requires k >= 1
    ensures |NatToString(n, 10)| <= k <==> n < Pow10(k)
    decreases k
  {
    if n >= 10 && k > 1 {
      DecimalLength(n / 10, k - 1);
    } else if n >= 10 {
      assert |NatToString(n, 10)| >= 2 by {
        assert |NatToString(n / 10, 10)| >= 1;
      }
    }
  }

  /** The k lowest decimal digits of n, with leading zeros: the fraction part of a fixed-point text. */
  function ZeroPadded(n: nat, k: nat): (s: string)
    ensures |s| == k
    ensures DigitsOnly(s)
  {
    if k == 0 then "" else ZeroPadded(n / 10, k - 1) + [DigitChar(n % 10)]
  }

  function Abs(v: real): real { if v < 0.0 then -v else v }

  /** 1 for a negative value, whose text carries a leading '-'. */
  function Sign(v: real): nat { if v < 0.0 then 1 else 0 }

  /** |v| in units of 10^-prec, rounded to the nearest unit (halves away from zero). */
  function Scaled(v: real, prec: nat): nat
  {
    var x := Abs(v) * Pow10(prec) as real + 0.5;
    assert x >= 0.0;
    x.Floor
  }

  /** The n units of 10^-prec written as integer digits, a point and prec fraction digits. */
  function FixedPoint(n: nat, prec: nat): (s: string)
    ensures forall i :: 0 <= i < |s| ==> s[i] != ',' && s[i] != ' ' && s[i] != '-'
  {
    if prec == 0 then NatToString(n, 10)
    else
      var whole := NatToString(Whole(n, prec), 10);
      var fraction := ZeroPadded(n, prec);
      PointedDigits(whole, fraction);
      whole + "." + fraction
  }

  /** The integer part of n units of 10^-prec. */
  function Whole(n: nat, prec: nat): nat
  {
    var p := Pow10(prec);
    DivNonNegative(n, p);
    n / p
  }

  lemma DivNonNegative(n: nat, p: nat)
    requires p >= 1
    ensures n / p >= 0
  {
    var q := n / p;
    assert n == q * p + n % p;
    if q < 0 {
      NegativeTimes(q, p);
    }
  }

  lemma {:induction false} NegativeTimes(q: int, p: int)
    requires q <= -1 && p >= 1
    ensures q * p <= -p
    decreases p
  {
    if p > 1 {
      NegativeTimes(q, p - 1);
      assert q * p == q * (p - 1) + q;
    }
  }

  /** Digits, a point and digits hold no separator, blank or sign. */
  lemma PointedDigits(whole: string, fraction: string)
    requires DigitsOnly(whole) && DigitsOnly(fraction)
    ensures forall i :: 0 <= i < |whole + "." + fraction| ==>
              (whole + "." + fraction)[i] != ',' && (whole + "." + fraction)[i] != ' '
              && (whole + "." + fraction)[i] != '-'
  {
    var s := whole + "." + fraction;
    forall i | 0 <= i < |s|
      ensures s[i] != ',' && s[i] != ' ' && s[i] != '-'
    {
      if i < |whole| {
        assert s[i] == whole[i];
      } else if i > |whole| {
        assert s[i] == fraction[i - |whole| - 1];
      }
    }
  }

  /** A fixed-point text with its sign: `negative` puts a '-' in front. */
  function SignedFixedPoint(negative: bool, n: nat, prec: nat): (s: string)
    ensures forall i :: 0 <= i < |s| ==> s[i] != ',' && s[i] != ' '
  {
    (if negative then "-" else "") + FixedPoint(n, prec)
  }

  /** The text dtostrf produces before padding: sign, integer digits, point, fraction. */
  function Unpadded(v: real, prec: nat): (s: string)
    ensures forall i :: 0 <= i < |s| ==> s[i] != ',' && s[i] != ' '
  {
    SignedFixedPoint(v < 0.0, Scaled(v, prec), prec)
  }

  /** The value's text fills no more than `width` characters, so padding makes it exact. */
  predicate Fits(v: real, width: nat, prec: nat)
  {
    |Unpadded(v, prec)| <= width
  }

  /** The field shows v to prec decimals: its digits right-aligned behind blanks. */
  predicate Shows(field: string, v: real, prec: nat)
  {
    var digits := Unpadded(v, prec);
    && |digits| <= |field|
    && field[|field| - |digits|..] == digits
    && forall i :: 0 <= i < |field| - |digits| ==> field[i] == ' '
  }

  /** dtostrf(v, width, prec, buf): `width` is a minimum, not a maximum; a value too
      large for it comes out longer. */
  function Dtostrf(v: real, width: nat, prec: nat): string
  {
    PadLeft(Unpadded(v, prec), width)
  }

  /** The text shows the value, holds no comma, is at least `width` long and exactly
      that long when the value fits. */
  lemma DtostrfSpec(v: real, width: nat, prec: nat)
    ensures Shows(Dtostrf(v, width, prec), v, prec) && NoComma(Dtostrf(v, width, prec))
    ensures |Dtostrf(v, width, prec)| >= width
    ensures |Dtostrf(v, width, prec)| == width <==> Fits(v, width, prec)
  {
  }

  /** A fixed-point value fits its width exactly when its rounded magnitude has no more
      integer digits than the width leaves after the sign, the point and the fraction. */
  lemma FitsIff(v: real, width: nat, prec: nat)
    requires prec >= 1
    requires width >= prec + 2 + Sign(v)
    ensures Fits(v, width, prec) <==> Scaled(v, prec) < Pow10(width - 1 - Sign(v))
  {
    SignedFixedPointFits(v < 0.0, Scaled(v, prec), width, prec);
  }

  /** The same fact stated on the rounded magnitude, with no real arithmetic in it. */
  lemma SignedFixedPointFits(negative: bool, n: nat, width: nat, prec: nat)
    requires prec >= 1
    requires width >= prec + 2 + (if negative then 1 else 0)
    ensures |SignedFixedPoint(negative, n, prec)| <= width
        <==> n < Pow10(width - 1 - (if negative then 1 else 0))
  {
    var k := width - 1 - prec - (if negative then 1 else 0);
    var q := Whole(n, prec);
    FixedPointLength(n, prec);
    DecimalLength(q, k);
    Pow10Add(k, prec);
    DivBelow(n, Pow10(prec), Pow10(k));
  }

  lemma FixedPointLength(n: nat, prec: nat)
    requires prec >= 1
    ensures |FixedPoint(n, prec)| == |NatToString(Whole(n, prec), 10)| + 1 + prec
  {
  }

  lemma DivBelow(n: nat, d: nat, b: nat)
    requires d >= 1
    ensures n / d < b <==> n < b * d
  {
    if n / d < b {
      assert n == (n / d) * d + n % d;
      assert (n / d) * d <= (b - 1) * d;
    } else {
      assert n >= (n / d) * d;
      assert (n / d) * d >= b * d;
    }
  }

  /** ltoa(v, buf, radix): a minus sign only in radix 10; in any other radix a negative
      32-bit long is written as its unsigned bit pattern. */
  function Ltoa(v: int, radix: nat): (s: string)
    requires 2 <= radix <= 36
    ensures radix == 10 && v >= 0 ==> s == NatToString(v, 10)
  {
    if radix == 10 && v < 0 then "-" + NatToString(-v, 10)
    else if radix == 10 then NatToString(v, 10)
    else NatToString(v % 0x1_0000_0000, radix)
  }

  /** Mstrcat(target, src, tarLim): appends as much of src as keeps the text below tarLim
      characters (one byte of the buffer is the terminator); target itself is never cut.
      Its body is not part of this model: this bound is the assumed behaviour. */
  function Mstrcat(target: string, src: string, tarLim: int): (r: string)
    ensures |target| <= |r| <= |target| + |src| && r[..|target|] == target
    ensures r[|target|..] == src[..|r| - |target|]
    ensures |target| < tarLim ==> |r| < tarLim
    ensures |target| + |src| < tarLim ==> r == target + src
    ensures |target| + |src| >= tarLim && |target| < tarLim ==> |r| == tarLim - 1
  {
    var room := tarLim - 1 - |target|;
    if room <= 0 then target
    else if room < |src| then target + src[..room]
    else target + src
  }
}
