/** The text handling the configuration loader relies on: strtok with "=" as the only
    delimiter, String::trim and String::toUpperCase in the C locale, and the number parsing
    behind String::toInt (atol) and String::toFloat (atof). Numbers are exact. */
module Parse {
  import opened Format

  /** isspace in the C locale: blank, tab, newline, vertical tab, form feed, return. */
  predicate IsSpace(c: char)
  {
    c == ' ' || c == '\t' || c == '\n' || c == '\r' || c as int == 11 || c as int == 12
  }

  predicate IsDigit(c: char)
  {
    '0' <= c <= '9'
  }

  predicate AllDigits(s: string)
  {
    forall i :: 0 <= i < |s| ==> IsDigit(s[i])
  }

  predicate AllSpace(s: string)
  {
    forall i :: 0 <= i < |s| ==> IsSpace(s[i])
  }

  predicate NoEquals(s: string)
  {
    forall i :: 0 <= i < |s| ==> s[i] != '='
  }

  // ---------------------------------------------------------------- strtok

  /** What strtok(..., "=") gives: NULL, or a token together with where the next call
      goes on from. */
  datatype Token = NoToken | Token(text: string, rest: string)

  /** The length of the run of non-delimiters at the front of s. */
  function TokenLength(s: string): (n: nat)
    ensures n <= |s|
  {
    if |s| == 0 || s[0] == '=' then 0 else 1 + TokenLength(s[1..])
  }

  /** The run holds no delimiter and ends at one or at the end of s. */
  lemma {:induction false} TokenLengthStops(s: string)
    ensures NoEquals(s[..TokenLength(s)])
    ensures TokenLength(s) < |s| ==> s[TokenLength(s)] == '='
    decreases |s|
  {
    if |s| > 0 && s[0] != '=' {
      TokenLengthStops(s[1..]);
      assert s[..TokenLength(s)] == [s[0]] + s[1..][..TokenLength(s[1..])];
    }
  }

  /** The token after the leading delimiters in s[k..]. */
  function StrTokFrom(s: string, k: nat): Token
    requires k <= |s|
    decreases |s| - k
  {
    if k == |s| then NoToken
    else if s[k] == '=' then StrTokFrom(s, k + 1)
    else
      var n := TokenLength(s[k..]);
      Token(s[k..k + n], if k + n < |s| then s[k + n + 1..] else [])
  }

  /** s is j delimiters, then the token `text`, then either its end or one delimiter
      followed by `rest`. */
  predicate Delimits(s: string, j: int, text: string, rest: string)
  {
    && 0 <= j && j + |text| <= |s|
    && (forall i :: 0 <= i < j ==> s[i] == '=')
    && s[j..j + |text|] == text
    && (j + |text| == |s| ==> rest == [])
    && (j + |text| < |s| ==> s[j + |text|] == '=' && rest == s[j + |text| + 1..])
  }

  /** With s[..k] known to be delimiters: NULL exactly when s is nothing but delimiters;
      otherwise a non-empty token without delimiters, placed in s as Delimits says. */
  lemma {:induction false} StrTokFromSpec(s: string, k: nat)
    requires k <= |s| && forall i :: 0 <= i < k ==> s[i] == '='
    ensures StrTokFrom(s, k).NoToken? <==> forall i :: 0 <= i < |s| ==> s[i] == '='
    ensures StrTokFrom(s, k).Token? ==>
              && StrTokFrom(s, k).text != [] && NoEquals(StrTokFrom(s, k).text)
              && exists j :: Delimits(s, j, StrTokFrom(s, k).text, StrTokFrom(s, k).rest)
    decreases |s| - k
  {
    if k < |s| && s[k] == '=' {
      StrTokFromSpec(s, k + 1);
    } else if k < |s| {
      TokenAt(s, k);
    }
  }

  /** The first non-delimiter at k starts the token. */
  lemma TokenAt(s: string, k: nat)
    requires k < |s| && s[k] != '=' && forall i :: 0 <= i < k ==> s[i] == '='
    ensures StrTokFrom(s, k).Token?
    ensures StrTokFrom(s, k).text != [] && NoEquals(StrTokFrom(s, k).text)
    ensures Delimits(s, k, StrTokFrom(s, k).text, StrTokFrom(s, k).rest)
  {
    var n := TokenLength(s[k..]);
    TokenUnfold(s, k, n);
    TokenRun(s, k, n);
    RunDelimits(s, k, n);
  }

  lemma TokenUnfold(s: string, k: nat, n: nat)
    requires k < |s| && s[k] != '=' && n == TokenLength(s[k..])
    ensures k + n <= |s|
    ensures StrTokFrom(s, k) == Token(s[k..k + n], if k + n < |s| then s[k + n + 1..] else [])
  {
  }

  /** The run at k is not empty, holds no delimiter and stops at one or at the end. */
  lemma TokenRun(s: string, k: nat, n: nat)
    requires k < |s| && s[k] != '=' && n == TokenLength(s[k..])
    ensures 0 < n && k + n <= |s| && NoEquals(s[k..k + n])
    ensures k + n < |s| ==> s[k + n] == '='
  {
    var t := s[k..];
    assert t[0] == s[k];
    TokenLengthStops(t);
    assert t[..n] == s[k..k + n];
    if k + n < |s| {
      assert t[n] == s[k + n];
    }
  }

  lemma RunDelimits(s: string, k: nat, n: nat)
    requires k + n <= |s| && forall i :: 0 <= i < k ==> s[i] == '='
    requires k + n < |s| ==> s[k + n] == '='
    ensures Delimits(s, k, s[k..k + n], if k + n < |s| then s[k + n + 1..] else [])
  {
  }

  /** strtok(s, "="): skips leading delimiters; NULL when nothing else is left; otherwise
      the token up to the next delimiter, which it overwrites so that the next call starts
      just past it. */
  function StrTok(s: string): Token
  {
    StrTokFrom(s, 0)
  }

  /** strtok gives NULL exactly for a text of delimiters only, and otherwise a non-empty
      token free of delimiters, after the leading delimiters and up to the next one. */
  lemma StrTokSpec(s: string)
    ensures StrTok(s).NoToken? <==> forall i :: 0 <= i < |s| ==> s[i] == '='
    ensures StrTok(s).Token? ==>
              && StrTok(s).text != [] && NoEquals(StrTok(s).text)
              && exists j :: Delimits(s, j, StrTok(s).text, StrTok(s).rest)
  {
    StrTokFromSpec(s, 0);
  }

  /** Where strtok(NULL, "=") continues: nothing is left after a NULL. */
  function Rest(t: Token): string
  {
    if t.Token? then t.rest else []
  }

  /** The Arduino String made from strtok's result: a String built from NULL is empty. */
  function Text(t: Token): string
  {
    if t.Token? then t.text else []
  }

  /** A token followed by a delimiter is exactly what strtok finds, and the text after
      the delimiter is where it goes on. */
  lemma {:induction false} StrTokSplits(token: string, rest: string)
    requires token != [] && NoEquals(token)
    ensures StrTok(token + "=" + rest) == Token(token, rest)
  {
    var s := token + "=" + rest;
    assert s[0] == token[0];
    assert s == token + ("=" + rest);
    TokenPrefix(token, "=" + rest);
    assert s[0..] == s;
    assert s[0..|token|] == token;
    assert s[|token| + 1..] == rest;
  }

  /** A token with nothing after it is the whole text, and nothing remains. */
  lemma {:induction false} StrTokWhole(token: string)
    requires token != [] && NoEquals(token)
    ensures StrTok(token) == Token(token, [])
  {
    TokenPrefix(token, []);
    assert token + [] == token;
    assert token[0..] == token;
    assert token[0..|token|] == token;
  }

  lemma {:induction false} TokenPrefix(token: string, tail: string)
    requires NoEquals(token) && (tail == [] || tail[0] == '=')
    ensures TokenLength(token + tail) == |token|
    decreases |token|
  {
    if token != [] {
      assert (token + tail)[1..] == token[1..] + tail;
      TokenPrefix(token[1..], tail);
    }
  }

  // ---------------------------------------------------------------- trim, upper case

  /** s without its leading white space. */
  function TrimLeft(s: string): (r: string)
    ensures |r| <= |s|
    ensures r == [] || !IsSpace(r[0])
  {
    if |s| > 0 && IsSpace(s[0]) then TrimLeft(s[1..]) else s
  }

  /** What TrimLeft removes is white space, and what it keeps is the rest of s. */
  lemma {:induction false} TrimLeftSplit(s: string)
    ensures TrimLeft(s) == s[|s| - |TrimLeft(s)|..]
    ensures AllSpace(s[..|s| - |TrimLeft(s)|])
    decreases |s|
  {
    if |s| > 0 && IsSpace(s[0]) {
      TrimLeftSplit(s[1..]);
      var k := |s| - |TrimLeft(s)|;
      assert s[1..][k - 1..] == s[k..];
      assert s[..k] == [s[0]] + s[1..][..k - 1];
    }
  }

  /** s without its trailing white space. */
  function TrimRight(s: string): (r: string)
    ensures |r| <= |s|
    ensures r == [] || !IsSpace(r[|r| - 1])
  {
    if |s| > 0 && IsSpace(s[|s| - 1]) then TrimRight(s[..|s| - 1]) else s
  }

  /** What TrimRight removes is white space, and what it keeps is the start of s. */
  lemma {:induction false} TrimRightSplit(s: string)
    ensures TrimRight(s) == s[..|TrimRight(s)|]
    ensures AllSpace(s[|TrimRight(s)|..])
    decreases |s|
  {
    if |s| > 0 && IsSpace(s[|s| - 1]) {
      var p := s[..|s| - 1];
      TrimRightSplit(p);
      var k := |TrimRight(s)|;
      assert p[..k] == s[..k];
      assert s[k..] == p[k..] + [s[|s| - 1]];
    }
  }

  /** String::trim: white space removed at both ends. */
  function Trim(s: string): (r: string)
    ensures r == [] || (!IsSpace(r[0]) && !IsSpace(r[|r| - 1]))
    ensures |r| <= |s|
  {
    var t := TrimLeft(s);
    TrimRightSplit(t);
    TrimRight(t)
  }

  /** Blanks around a word that does not start or end with one are exactly what trim
      takes away. */
  lemma {:induction false} TrimPadded(pre: string, word: string, post: string)
    requires AllSpace(pre) && AllSpace(post)
    requires word == [] || (!IsSpace(word[0]) && !IsSpace(word[|word| - 1]))
    ensures Trim(pre + word + post) == word
  {
    if word == [] {
      assert pre + word + post == pre + post;
      TrimLeftSpaces(pre + post, []);
      assert pre + post + [] == pre + post;
    } else {
      assert pre + word + post == pre + (word + post);
      TrimLeftSpaces(pre, word + post);
      TrimRightSpaces(word, post);
    }
  }

  lemma {:induction false} TrimLeftSpaces(pre: string, s: string)
    requires AllSpace(pre) && (s == [] || !IsSpace(s[0]))
    ensures TrimLeft(pre + s) == s
    decreases |pre|
  {
    if pre != [] {
      assert (pre + s)[1..] == pre[1..] + s;
      TrimLeftSpaces(pre[1..], s);
    }
  }

  lemma {:induction false} TrimRightSpaces(s: string, post: string)
    requires AllSpace(post) && s != [] && !IsSpace(s[|s| - 1])
    ensures TrimRight(s + post) == s
    decreases |post|
  {
    if post == [] {
      assert s + post == s;
    } else {
      var p := post[..|post| - 1];
      assert (s + post)[..|s + post| - 1] == s + p;
      TrimRightSpaces(s, p);
    }
  }

  /** toupper in the C locale: only a..z change. */
  function Upper(c: char): char
  {
    if 'a' <= c <= 'z' then (c as int - 32) as char else c
  }

  /** String::toUpperCase: every character through toupper. */
  function ToUpper(s: string): (r: string)
    ensures |r| == |s|
  {
    if s == [] then [] else [Upper(s[0])] + ToUpper(s[1..])
  }

  /** toUpperCase keeps the length and changes each character on its own. */
  lemma {:induction false} ToUpperChars(s: string)
    ensures forall i :: 0 <= i < |s| ==> ToUpper(s)[i] == Upper(s[i])
    decreases |s|
  {
    if s != [] {
      ToUpperChars(s[1..]);
    }
  }

  // ---------------------------------------------------------------- atol, atof

  /** The value of a decimal digit; only ever applied to digits. */
  function DigitValue(c: char): nat
  {
    if IsDigit(c) then c as int - '0' as int else 0
  }

  /** The number of digits at the front of s. */
  function DigitRun(s: string): (n: nat)
    ensures n <= |s|
    ensures n < |s| ==> !IsDigit(s[n])
  {
    if |s| == 0 || !IsDigit(s[0]) then 0 else 1 + DigitRun(s[1..])
  }

  /** The value of a run of decimal digits, most significant first. */
  function DecimalValue(d: string): nat
  {
    if d == [] then 0 else 10 * DecimalValue(d[..|d| - 1]) + DigitValue(d[|d| - 1])
  }

  /** The digits after an optional sign: whether it was '-', and what follows. */
  function Unsigned(s: string): (p: (bool, string))
    ensures p.1 == s || (s != [] && p.1 == s[1..])
  {
    if |s| > 0 && (s[0] == '-' || s[0] == '+') then (s[0] == '-', s[1..]) else (false, s)
  }

  /** atol: white space, an optional sign, then as many digits as there are; no digits
      give 0. */
  function ToInt(s: string): (v: int)
    ensures DigitRun(Unsigned(TrimLeft(s)).1) == 0 ==> v == 0
    ensures Unsigned(TrimLeft(s)).0 ==> v <= 0
    ensures !Unsigned(TrimLeft(s)).0 ==> v >= 0
  {
    var (negative, u) := Unsigned(TrimLeft(s));
    var n: int := DecimalValue(u[..DigitRun(u)]);
    if negative then -n else n
  }

  /** atof without exponents, infinities or hex: white space, an optional sign, integer
      digits, and an optional point followed by fraction digits. */
  function ToFloat(s: string): (v: real)
    ensures Unsigned(TrimLeft(s)).0 ==> v <= 0.0
    ensures !Unsigned(TrimLeft(s)).0 ==> v >= 0.0
  {
    var (negative, u) := Unsigned(TrimLeft(s));
    var m := UnsignedDecimal(u);
    if negative then -m else m
  }

  /** The magnitude atof reads after the sign. */
  function UnsignedDecimal(u: string): (m: real)
    ensures m >= 0.0
  {
    var k := DigitRun(u);
    var after := u[k..];
    var fraction := if |after| > 0 && after[0] == '.' then after[1..][..DigitRun(after[1..])] else [];
    DecimalValue(u[..k]) as real + DecimalValue(fraction) as real / Pow10(|fraction|) as real
  }

  // ---------------------------------------------------------------- round trips

  lemma {:induction false} DigitRunAppend(s: string, t: string)
    requires AllDigits(s)
    ensures DigitRun(s + t) == |s| + DigitRun(t)
    decreases |s|
  {
    if s != [] {
      assert (s + t)[1..] == s[1..] + t;
      DigitRunAppend(s[1..], t);
    } else {
      assert s + t == t;
    }
  }

  lemma {:induction false} DecimalAppend(s: string, c: char)
    requires AllDigits(s) && IsDigit(c)
    ensures AllDigits(s + [c])
    ensures DecimalValue(s + [c]) == 10 * DecimalValue(s) + DigitValue(c)
  {
    assert (s + [c])[..|s|] == s;
  }

  /** ltoa's decimal digits read back as the number they were made from. */
  lemma {:induction false} DecimalOfNatToString(n: nat)
    ensures AllDigits(NatToString(n, 10))
    ensures DecimalValue(NatToString(n, 10)) == n
    decreases n
  {
    if n >= 10 {
      DecimalOfNatToString(n / 10);
      DecimalAppend(NatToString(n / 10, 10), DigitChar(n % 10));
    }
  }

  /** atol reads ltoa's decimal text back as the same number, for either sign. */
  lemma LtoaDecimalRoundTrip(v: int)
    ensures ToInt(Ltoa(v, 10)) == v
  {
    var n: nat := if v < 0 then -v else v;
    DecimalOfNatToString(n);
    SignedDigits(v < 0, NatToString(n, 10));
    assert Ltoa(v, 10) == (if v < 0 then "-" else "") + NatToString(n, 10);
  }

  /** An optional minus sign and a run of digits read back as their signed value. */
  lemma SignedDigits(negative: bool, digits: string)
    requires digits != [] && AllDigits(digits)
    ensures ToInt((if negative then "-" else "") + digits)
            == if negative then -(DecimalValue(digits) as int) else DecimalValue(digits) as int
  {
    var s := (if negative then "-" else "") + digits;
    assert !IsSpace(s[0]);
    assert TrimLeft(s) == s;
    if negative {
      assert s[1..] == digits;
    }
    if negative {
      assert s[0] == '-';
    } else {
      assert s == digits && IsDigit(s[0]);
    }
    assert Unsigned(s) == (negative, digits);
    DigitRunAppend(digits, []);
    assert digits + [] == digits;
    assert digits[..|digits|] == digits;
  }

  /** atof reads integer digits, a point and fraction digits as whole plus fraction over
      ten to the number of fraction digits. */
  lemma {:induction false} PointedDecimal(whole: string, fraction: string)
    requires AllDigits(whole) && AllDigits(fraction)
    ensures UnsignedDecimal(whole + "." + fraction)
            == DecimalValue(whole) as real + DecimalValue(fraction) as real / Pow10(|fraction|) as real
  {
    var fixed := whole + "." + fraction;
    DigitRunAppend(whole, "." + fraction);
    assert fixed == whole + ("." + fraction);
    assert DigitRun("." + fraction) == 0;
    assert fixed[..|whole|] == whole;
    assert fixed[|whole|..] == "." + fraction;
    assert ("." + fraction)[1..] == fraction;
    DigitRunAppend(fraction, []);
    assert fraction + [] == fraction;
    assert fraction[..|fraction|] == fraction;
  }

}
