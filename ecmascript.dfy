/** The two ECMAScript built-ins the chat component relies on:
    String.prototype.trim (the input guard and the send button) and the
    conversion of a non-negative integer Number to its decimal string
    (the message-count label). Characters are Unicode scalar values; every
    character trim strips lies in the Basic Multilingual Plane. */
module EcmaScript {

  /** The characters TrimString strips: the WhiteSpace code points (ECMA-262,
      "White Space": TAB, VT, FF, ZWNBSP and every space separator of Unicode
      category Zs) and the LineTerminator code points (ECMA-262, "Line
      Terminators": LF, CR, LS, PS). */
  predicate IsTrimmable(c: char)
  {
    // WhiteSpace: <TAB> <VT> <FF> <ZWNBSP>
    c == '\t' || c == '\U{000B}' || c == '\U{000C}' || c == '\U{FEFF}'
    // WhiteSpace: <USP>, the Zs category
    || c == ' ' || c == '\U{00A0}' || c == '\U{1680}'
    || ('\U{2000}' <= c <= '\U{200A}')
    || c == '\U{202F}' || c == '\U{205F}' || c == '\U{3000}'
    // LineTerminator: <LF> <CR> <LS> <PS>
    || c == '\n' || c == '\r' || c == '\U{2028}' || c == '\U{2029}'
  }

  predicate AllTrimmable(s: string)
  {
    forall i :: 0 <= i < |s| ==> IsTrimmable(s[i])
  }

  /** Strips the longest trimmable prefix: what is removed is all trimmable,
      and what is kept is a suffix of s that does not start with a trimmable
      character. */
  function TrimStart(s: string): (r: string)
    ensures |r| <= |s| && r == s[|s| - |r|..]
    ensures AllTrimmable(s[..|s| - |r|])
    ensures r == [] || !IsTrimmable(r[0])
  {
    if s != [] && IsTrimmable(s[0]) then
      var r := TrimStart(s[1..]);
      assert s[..|s| - |r|] == [s[0]] + s[1..][..|s| - 1 - |r|];
      AllTrimmableConcat([s[0]], s[1..][..|s| - 1 - |r|]);
      r
    else
      s
  }

  /** Strips the longest trimmable suffix: what is removed is all trimmable,
      and what is kept is a prefix of s that does not end with a trimmable
      character. */
  function TrimEnd(s: string): (r: string)
    ensures |r| <= |s| && r == s[..|r|]
    ensures AllTrimmable(s[|r|..])
    ensures r == [] || !IsTrimmable(r[|r| - 1])
  {
    if s != [] && IsTrimmable(s[|s| - 1]) then
      var r := TrimEnd(s[..|s| - 1]);
      assert s[|r|..] == s[..|s| - 1][|r|..] + [s[|s| - 1]];
      AllTrimmableConcat(s[..|s| - 1][|r|..], [s[|s| - 1]]);
      r
    else
      s
  }

  /** String.prototype.trim: strips trimmable characters from both ends. The
      result is empty exactly when every character of s is trimmable, and a
      non-empty result neither starts nor ends with a trimmable character. */
  function Trim(s: string): (r: string)
    ensures |r| <= |s|
    ensures r == [] <==> AllTrimmable(s)
    ensures r != [] ==> !IsTrimmable(r[0]) && !IsTrimmable(r[|r| - 1])
  {
    TrimBothEnds(s);
    TrimEnd(TrimStart(s))
  }

  lemma TrimBothEnds(s: string)
    ensures var r := TrimEnd(TrimStart(s));
      (r == [] <==> AllTrimmable(s)) &&
      (r != [] ==> !IsTrimmable(r[0]) && !IsTrimmable(r[|r| - 1]))
  {
    var t := TrimStart(s);
    var r := TrimEnd(t);
    if r == [] {
      BlankWhenNothingKept(s, t);
    } else {
      assert r[0] == t[0];
    }
    if AllTrimmable(s) {
      NothingKeptWhenBlank(s, t);
    }
  }

  lemma BlankWhenNothingKept(s: string, t: string)
    requires t == TrimStart(s) && TrimEnd(t) == []
    ensures AllTrimmable(s)
  {
    assert t[0..] == t;
    assert s == s[..|s| - |t|] + t;
    AllTrimmableConcat(s[..|s| - |t|], t);
  }

  lemma NothingKeptWhenBlank(s: string, t: string)
    requires t == TrimStart(s) && AllTrimmable(s)
    ensures t == []
  {
    assert t == s[|s| - |t|..];
    assert |t| > 0 ==> t[0] == s[|s| - |t|];
  }

  /** Trim leaves the characters between the first and the last kept one
      alone: it is the infix of s that TrimStart and TrimEnd agree on. */
  lemma {:induction false} TrimIsInfix(s: string)
    ensures exists i, j :: 0 <= i <= j <= |s| && Trim(s) == s[i..j]
  {
    var t := TrimStart(s);
    var r := TrimEnd(t);
    var i := |s| - |t|;
    assert Trim(s) == s[i..i + |r|];
  }

  lemma {:induction false} AllTrimmableConcat(a: string, b: string)
    requires AllTrimmable(a) && AllTrimmable(b)
    ensures AllTrimmable(a + b)
  {
    forall i | 0 <= i < |a + b|
      ensures IsTrimmable((a + b)[i])
    {
      if i < |a| {
        assert (a + b)[i] == a[i];
      } else {
        assert (a + b)[i] == b[i - |a|];
      }
    }
  }

  /* ---------------- Number to decimal string ---------------- */

  predicate IsDigit(c: char)
  {
    '0' <= c <= '9'
  }

  predicate AllDigits(s: string)
  {
    forall i :: 0 <= i < |s| ==> IsDigit(s[i])
  }

  function DigitChar(d: nat): (c: char)
    requires d < 10
    ensures IsDigit(c) && c as int - '0' as int == d
  {
    (('0' as int) + d) as char
  }

  /** The number a string of decimal digits denotes. */
  function DigitsValue(s: string): nat
    requires AllDigits(s)
  {
    if s == [] then 0
    else DigitsValue(s[..|s| - 1]) * 10 + (s[|s| - 1] as int - '0' as int)
  }

  /** Number::toString for a non-negative integer (every length this code
      formats is far below 10^21, where exponent notation would start):
      decimal digits with no leading zero. */
  function NumberToString(n: nat): (r: string)
    ensures r != [] && AllDigits(r)
    ensures r[0] == '0' ==> r == "0"
  {
    if n < 10 then [DigitChar(n)]
    else
      var p := NumberToString(n / 10);
      var r := p + [DigitChar(n % 10)];
      assert r[0] == p[0];
      r
  }

  /** Reading back the digits NumberToString writes gives the number. */
  lemma {:induction false} NumberToStringRoundTrip(n: nat)
    ensures DigitsValue(NumberToString(n)) == n
  {
    if n >= 10 {
      var r := NumberToString(n);
      assert r[..|r| - 1] == NumberToString(n / 10);
      NumberToStringRoundTrip(n / 10);
    }
  }

  /** NumberToString is one-to-one: distinct counts give distinct labels. */
  lemma NumberToStringInjective(m: nat, n: nat)
    requires NumberToString(m) == NumberToString(n)
    ensures m == n
  {
    NumberToStringRoundTrip(m);
    NumberToStringRoundTrip(n);
  }

  /** The longest prefix of s made of decimal digits. */
  function LeadingDigits(s: string): (r: string)
    ensures r <= s && AllDigits(r)
    ensures |r| < |s| ==> !IsDigit(s[|r|])
  {
    if s != [] && IsDigit(s[0]) then [s[0]] + LeadingDigits(s[1..]) else []
  }

  /** A digit string followed by a text that does not start with a digit is
      split back at the right place by LeadingDigits. */
  lemma {:induction false} LeadingDigitsOfConcat(d: string, w: string)
    requires AllDigits(d)
    requires w == [] || !IsDigit(w[0])
    ensures LeadingDigits(d + w) == d
  {
    if d != [] {
      assert (d + w)[1..] == d[1..] + w;
      LeadingDigitsOfConcat(d[1..], w);
    } else {
      assert d + w == w;
    }
  }
}
