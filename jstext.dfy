/**
 * The few JavaScript value rules the page and the route depend on:
 * truthiness of optional strings and numbers, `String.prototype.trim`,
 * `Number.prototype.toString()` on integers, and the rendering of a possibly
 * `undefined` string inside a template literal.
 */
module JsText {
  import opened Wrappers

  /** An optional string is truthy when it is present and not `""`. */
  predicate TruthyText(s: Option<string>) {
    s.Some? && s.value != ""
  }

  /** An optional integer is truthy when it is present and not `0`. */
  predicate TruthyInt(n: Option<int>) {
    n.Some? && n.value != 0
  }

  /**
   * A JavaScript number that the model does no arithmetic on, represented by
   * what `toString()` renders for it. The falsy numbers are `0`, `-0` and
   * `NaN`, and those render as exactly "0" and "NaN".
   */
  datatype JsNumber = JsNumber(text: string) {
    predicate Truthy() {
      text != "0" && text != "NaN"
    }
  }

  /** A possibly absent number is truthy when present and truthy itself. */
  predicate TruthyNumber(n: Option<JsNumber>) {
    n.Some? && n.value.Truthy()
  }

  /** What `${s}` inserts into a template literal: the string, or "undefined". */
  function TemplateText(s: Option<string>): (r: string)
    ensures s.Some? ==> r == s.value
    ensures s.None? ==> r == "undefined"
  {
    s.GetOr("undefined")
  }

  // ---------------------------------------------------------------------------
  // String.prototype.trim

  /** The WhiteSpace and LineTerminator code points that `trim` removes. */
  predicate IsJsWhitespace(c: char) {
    c in {'\t', '\n', '\U{000B}', '\U{000C}', '\r', ' ', '\U{00A0}', '\U{1680}',
          '\U{2028}', '\U{2029}', '\U{202F}', '\U{205F}', '\U{3000}', '\U{FEFF}'}
    || ('\U{2000}' <= c <= '\U{200A}')
  }

  /** Number of whitespace characters at the start of `s`. */
  function LeadingWhitespace(s: string): (n: nat)
    ensures n <= |s|
    ensures forall k :: 0 <= k < n ==> IsJsWhitespace(s[k])
    ensures n < |s| ==> !IsJsWhitespace(s[n])
  {
    if |s| > 0 && IsJsWhitespace(s[0]) then 1 + LeadingWhitespace(s[1..]) else 0
  }

  /** Number of whitespace characters at the end of `s`. */
  function TrailingWhitespace(s: string): (n: nat)
    ensures n <= |s|
    ensures forall k :: |s| - n <= k < |s| ==> IsJsWhitespace(s[k])
    ensures n < |s| ==> !IsJsWhitespace(s[|s| - 1 - n])
  {
    if |s| > 0 && IsJsWhitespace(s[|s| - 1]) then 1 + TrailingWhitespace(s[..|s| - 1]) else 0
  }

  /**
   * `s.trim()`: the slice of `s` left after dropping whitespace at both ends.
   * Everything dropped is whitespace, and what is kept neither starts nor ends
   * with whitespace.
   */
  function Trim(s: string): (r: string)
    ensures |r| <= |s|
    ensures exists i :: SitsInWhitespace(s, i, r)
    ensures r != "" ==> !IsJsWhitespace(r[0]) && !IsJsWhitespace(r[|r| - 1])
  {
    var i := LeadingWhitespace(s);
    var t := s[i..];
    var r := t[..|t| - TrailingWhitespace(t)];
    assert SitsInWhitespace(s, i, r);
    r
  }

  /** `r` occurs in `s` at offset `i`, with nothing but whitespace around it. */
  predicate SitsInWhitespace(s: string, i: int, r: string) {
    0 <= i <= |s| - |r| && r == s[i..i + |r|]
    && (forall k :: 0 <= k < i ==> IsJsWhitespace(s[k]))
    && (forall k :: i + |r| <= k < |s| ==> IsJsWhitespace(s[k]))
  }

  /** `trim` yields "" exactly when every character is whitespace. */
  lemma TrimEmptyIffBlank(s: string)
    ensures Trim(s) == "" <==> forall k :: 0 <= k < |s| ==> IsJsWhitespace(s[k])
  {
    var r := Trim(s);
    if r == "" {
      var i :| SitsInWhitespace(s, i, r);
    } else {
      var i :| SitsInWhitespace(s, i, r);
      assert s[i] == r[0];
    }
  }

  /** Trimming twice is trimming once: a stored trimmed key trims to itself. */
  lemma TrimIdempotent(s: string)
    ensures Trim(Trim(s)) == Trim(s)
  {
    var r := Trim(s);
    if r != "" {
      assert LeadingWhitespace(r) == 0;
      assert TrailingWhitespace(r) == 0;
    }
  }

  // ---------------------------------------------------------------------------
  // Number.prototype.toString() on integers, and its inverse

  predicate IsDigit(c: char) {
    '0' <= c <= '9'
  }

  function DigitChar(d: nat): (c: char)
    requires d < 10
    ensures IsDigit(c) && c as int - '0' as int == d
  {
    ('0' as int + d) as char
  }

  /** The base-10 digits of `n`, without leading zeros. */
  function NatToDecimal(n: nat): (s: string)
    ensures |s| > 0
    ensures forall k :: 0 <= k < |s| ==> IsDigit(s[k])
    ensures |s| > 1 ==> s[0] != '0'
  {
    if n < 10 then [DigitChar(n)] else NatToDecimal(n / 10) + [DigitChar(n % 10)]
  }

  /** `n.toString()` for an integer `n`: an optional minus sign, then the digits. */
  function IntToDecimal(n: int): (s: string)
    ensures |s| > 0 && s != "0" <==> n != 0
  {
    if n < 0 then "-" + NatToDecimal(-n) else NatToDecimal(n)
  }

  /** The number a run of digits denotes (0 for the empty run). */
  function DigitsValue(s: string): nat
    requires forall k :: 0 <= k < |s| ==> IsDigit(s[k])
  {
    if |s| == 0 then 0
    else DigitsValue(s[..|s| - 1]) * 10 + DigitValue(s[|s| - 1])
  }

  function DigitValue(c: char): nat
    requires IsDigit(c)
  {
    c as int - '0' as int
  }

  predicate IsDigits(s: string) {
    |s| > 0 && forall k :: 0 <= k < |s| ==> IsDigit(s[k])
  }

  /** Reads an optionally negative base-10 integer; `None` for anything else. */
  function ParseDecimal(s: string): (r: Option<int>)
    ensures r.Some? ==> |s| > 0
  {
    if |s| > 0 && s[0] == '-' then
      if IsDigits(s[1..]) then Some(0 - DigitsValue(s[1..]) as int) else None
    else if IsDigits(s) then Some(DigitsValue(s))
    else None
  }

  lemma {:induction false} DigitsValueOfNat(n: nat)
    ensures DigitsValue(NatToDecimal(n)) == n
  {
    if n >= 10 {
      var s := NatToDecimal(n);
      assert s[..|s| - 1] == NatToDecimal(n / 10);
      DigitsValueOfNat(n / 10);
    }
  }

  /** `toString()` loses nothing: the integer reads back from its digits. */
  lemma DecimalRoundTrip(n: int)
    ensures ParseDecimal(IntToDecimal(n)) == Some(n)
  {
    var s := IntToDecimal(n);
    if n < 0 {
      assert s[1..] == NatToDecimal(-n);
      DigitsValueOfNat(-n);
    } else {
      DigitsValueOfNat(n);
    }
  }

  /** Distinct integers render as distinct strings. */
  lemma IntToDecimalInjective(m: int, n: int)
    ensures IntToDecimal(m) == IntToDecimal(n) ==> m == n
  {
    DecimalRoundTrip(m);
    DecimalRoundTrip(n);
  }
}
