/**
 * The pieces of JSON text that encoding/json writes for the wire types:
 * quoted strings, decimal integers and booleans, together with a reader
 * for each of them. Strings are restricted to characters that encoding/json
 * copies verbatim, so no escaping is modelled.
 */
module JsonText {
  import opened Wrappers

  predicate IsDigit(c: char) { '0' <= c <= '9' }

  predicate AllDigits(s: string) { forall i :: 0 <= i < |s| ==> IsDigit(s[i]) }

  /** A character encoding/json writes as itself inside a string literal:
      not a quote, a backslash or a control character, and not one of the
      HTML-sensitive characters <, > and & (escaped by default), nor the
      line and paragraph separators U+2028 and U+2029. */
  predicate SafeChar(c: char)
  {
    && c != '"' && c != '\\' && ' ' <= c
    && c != '<' && c != '>' && c != '&'
    && c != '\U{2028}' && c != '\U{2029}'
  }

  predicate Safe(s: string) { forall i :: 0 <= i < |s| ==> SafeChar(s[i]) }

  function DigitChar(d: nat): (c: char)
    requires d < 10
    ensures IsDigit(c)
  {
    ('0' as int + d) as char
  }

  function DigitValue(c: char): (d: nat)
    requires IsDigit(c)
    ensures d < 10
  {
    c as int - '0' as int
  }

  /** Decimal digits of n, most significant first, as strconv.Itoa writes a
      non-negative number. */
  function NatText(n: nat): (r: string)
    ensures 1 <= |r|
    ensures AllDigits(r)
  {
    if n < 10 then [DigitChar(n)] else NatText(n / 10) + [DigitChar(n % 10)]
  }

  /** A Go int as strconv.Itoa and encoding/json write it. */
  function IntText(n: int): (r: string)
    ensures 1 <= |r|
    ensures IsDigit(r[0]) || (r[0] == '-' && 2 <= |r| && AllDigits(r[1..]))
    ensures n >= 0 ==> AllDigits(r)
  {
    if n < 0 then "-" + NatText(-n) else NatText(n)
  }

  /** Value of a run of decimal digits, read left to right. */
  function DigitsValue(s: string): nat
    requires AllDigits(s)
  {
    if s == [] then 0 else DigitsValue(s[..|s| - 1]) * 10 + DigitValue(s[|s| - 1])
  }

  /** Length of the run of digits at the start of s. */
  function DigitSpan(s: string): (k: nat)
    ensures k <= |s|
    ensures forall i :: 0 <= i < k ==> IsDigit(s[i])
    ensures k < |s| ==> !IsDigit(s[k])
  {
    if s == [] || !IsDigit(s[0]) then 0 else 1 + DigitSpan(s[1..])
  }

  /** Reads a non-negative decimal number; the rest of the text follows. */
  function ParseNat(s: string): Option<(nat, string)>
  {
    var k := DigitSpan(s);
    if k == 0 then None else Some((DigitsValue(s[..k]), s[k..]))
  }

  /** Reads an optionally negative decimal number. */
  function ParseInt(s: string): Option<(int, string)>
  {
    if |s| > 0 && s[0] == '-' then
      match ParseNat(s[1..])
      case None => None
      case Some((n, rest)) => Some((0 - n, rest))
    else
      match ParseNat(s)
      case None => None
      case Some((n, rest)) => Some((n as int, rest))
  }

  function Quote(s: string): string { "\"" + s + "\"" }

  /** Index of the first double quote in s, or |s| when there is none. */
  function QuoteIndex(s: string): (k: nat)
    ensures k <= |s|
    ensures forall i :: 0 <= i < k ==> s[i] != '"'
    ensures k < |s| ==> s[k] == '"'
  {
    if s == [] || s[0] == '"' then 0 else 1 + QuoteIndex(s[1..])
  }

  /** Reads a string literal without escapes. */
  function ParseString(s: string): Option<(string, string)>
  {
    if |s| == 0 || s[0] != '"' then None
    else
      var body := s[1..];
      var k := QuoteIndex(body);
      if k == |body| then None else Some((body[..k], body[k + 1..]))
  }

  function BoolText(b: bool): string { if b then "true" else "false" }

  function ParseBool(s: string): Option<(bool, string)>
  {
    if "true" <= s then Some((true, s[4..]))
    else if "false" <= s then Some((false, s[5..]))
    else None
  }

  /** Consumes the literal text lit at the start of s. */
  function Expect(lit: string, s: string): (r: Option<string>)
    ensures r.Some? <==> lit <= s
    ensures r.Some? ==> s == lit + r.value
  {
    if lit <= s then Some(s[|lit|..]) else None
  }

  /** Text that cannot extend a number written before it. */
  predicate NotDigitStart(rest: string) { rest == [] || !IsDigit(rest[0]) }

  lemma {:induction false} DigitsValueOfNatText(n: nat)
    ensures DigitsValue(NatText(n)) == n
  {
    if n >= 10 {
      var t := NatText(n);
      assert t[..|t| - 1] == NatText(n / 10);
      DigitsValueOfNatText(n / 10);
    }
  }

  lemma {:induction false} DigitSpanOfDigits(ds: string, rest: string)
    requires AllDigits(ds)
    requires NotDigitStart(rest)
    ensures DigitSpan(ds + rest) == |ds|
  {
    if ds != [] {
      assert (ds + rest)[1..] == ds[1..] + rest;
      DigitSpanOfDigits(ds[1..], rest);
    }
  }

  /** Reading back a written natural number gives the number and the text after it. */
  lemma NatRoundTrip(n: nat, rest: string)
    requires NotDigitStart(rest)
    ensures ParseNat(NatText(n) + rest) == Some((n, rest))
  {
    var t := NatText(n);
    DigitSpanOfDigits(t, rest);
    assert (t + rest)[..|t|] == t;
    assert (t + rest)[|t|..] == rest;
    DigitsValueOfNatText(n);
  }

  /** Reading back a written integer gives the integer and the text after it. */
  lemma IntRoundTrip(n: int, rest: string)
    requires NotDigitStart(rest)
    ensures ParseInt(IntText(n) + rest) == Some((n, rest))
  {
    if n < 0 {
      NatRoundTrip(-n, rest);
      assert (IntText(n) + rest)[1..] == NatText(-n) + rest;
    } else {
      NatRoundTrip(n, rest);
    }
  }

  lemma {:induction false} QuoteIndexOfSafe(s: string, rest: string)
    requires Safe(s)
    ensures QuoteIndex(s + "\"" + rest) == |s|
  {
    if s != [] {
      assert (s + "\"" + rest)[1..] == s[1..] + "\"" + rest;
      QuoteIndexOfSafe(s[1..], rest);
    }
  }

  /** Reading back a quoted safe string gives the string and the text after it. */
  lemma StringRoundTrip(s: string, rest: string)
    requires Safe(s)
    ensures ParseString(Quote(s) + rest) == Some((s, rest))
  {
    var t := Quote(s) + rest;
    assert t[1..] == s + "\"" + rest;
    QuoteIndexOfSafe(s, rest);
    assert (s + "\"" + rest)[..|s|] == s;
    assert (s + "\"" + rest)[|s| + 1..] == rest;
  }

  lemma BoolRoundTrip(b: bool, rest: string)
    ensures ParseBool(BoolText(b) + rest) == Some((b, rest))
  {
    var t := BoolText(b) + rest;
    if b {
      assert "true" <= t;
    } else {
      assert !("true" <= t) by { assert t[0] == 'f'; }
      assert "false" <= t;
    }
  }

  lemma SafeAppend(a: string, b: string)
    requires Safe(a) && Safe(b)
    ensures Safe(a + b)
  {
    assert forall i :: 0 <= i < |a + b| ==> (a + b)[i] == if i < |a| then a[i] else b[i - |a|];
  }

  lemma DigitsAreSafe(s: string)
    requires AllDigits(s)
    ensures Safe(s)
  {
  }

  lemma ExpectRoundTrip(lit: string, rest: string)
    ensures Expect(lit, lit + rest) == Some(rest)
  {
    assert lit <= lit + rest;
    assert (lit + rest)[|lit|..] == rest;
  }
}
