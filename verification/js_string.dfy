/** Models of the JavaScript built-ins the core leans on: `parseInt`,
    `Number.prototype.toString`, `String.prototype.toUpperCase`, and the
    prefix/suffix tests a reader of the generated ticket needs. */
module JsString {
  import opened Wrappers

  predicate IsDigit(c: char) {
    '0' <= c <= '9'
  }

  predicate AllDigits(s: string) {
    forall i :: 0 <= i < |s| ==> IsDigit(s[i])
  }

  /** The value of a decimal digit (0 for any other character). */
  function DigitValue(c: char): nat {
    if IsDigit(c) then c as int - '0' as int else 0
  }

  function DigitChar(d: nat): char
    requires d < 10
  {
    ('0' as int + d) as char
  }

  lemma DigitCharValue(d: nat)
    requires d < 10
    ensures IsDigit(DigitChar(d)) && DigitValue(DigitChar(d)) == d
  {
  }

  /** The value of a run of decimal digits, most significant digit first. */
  function DigitsValue(s: string): nat
    decreases |s|
  {
    if |s| == 0 then 0 else DigitsValue(s[..|s| - 1]) * 10 + DigitValue(s[|s| - 1])
  }

  /** Length of the longest prefix of `s` that consists of decimal digits. */
  function DigitRun(s: string): (k: nat)
    ensures k <= |s|
    decreases |s|
  {
    if |s| == 0 || !IsDigit(s[0]) then 0 else 1 + DigitRun(s[1..])
  }

  /** `parseInt(s)` (radix 10): an optional sign followed by the longest run
      of digits; `None` stands for NaN, which is what JavaScript returns when
      no digit follows the sign. */
  function ParseInt(s: string): Option<int> {
    var start := if |s| > 0 && (s[0] == '-' || s[0] == '+') then 1 else 0;
    var body := s[start..];
    var k := DigitRun(body);
    if k == 0 then None
    else if start == 1 && s[0] == '-' then Some(-(DigitsValue(body[..k]) as int))
    else Some(DigitsValue(body[..k]))
  }

  /** Decimal text of a natural number, without leading zeros. */
  function NatToString(n: nat): (r: string)
    ensures |r| > 0
    decreases n
  {
    if n < 10 then [DigitChar(n)] else NatToString(n / 10) + [DigitChar(n % 10)]
  }

  /** `NatToString` writes digits only, no leading zero, and their value is
      the number. */
  lemma {:induction false} NatToStringDigits(n: nat)
    ensures AllDigits(NatToString(n))
    ensures DigitsValue(NatToString(n)) == n
    ensures |NatToString(n)| > 1 ==> NatToString(n)[0] != '0'
    decreases n
  {
    var r := NatToString(n);
    if n < 10 {
      DigitCharValue(n);
      assert r[..0] == [];
    } else {
      var h := NatToString(n / 10);
      NatToStringDigits(n / 10);
      DigitCharValue(n % 10);
      assert r[..|r| - 1] == h;
      assert r[0] == h[0];
      if |h| == 1 {
        assert h[..0] == [];
        assert DigitValue(h[0]) == n / 10;
      }
    }
  }

  /** `Number.prototype.toString()` on an integral number. */
  function IntToString(i: int): string {
    if i < 0 then "-" + NatToString(-i) else NatToString(i)
  }

  /** `String(x)` for the result of an arithmetic expression: NaN prints as
      "NaN". */
  function NumberToString(x: Option<int>): string {
    match x
    case Some(i) => IntToString(i)
    case None => "NaN"
  }

  lemma {:induction false} ParseAllDigits(s: string)
    requires |s| > 0 && AllDigits(s)
    ensures ParseInt(s) == Some(DigitsValue(s))
  {
    DigitRunAllDigits(s);
    assert s[0..] == s;
    assert s[..|s|] == s;
  }

  lemma {:induction false} DigitRunAllDigits(s: string)
    requires AllDigits(s)
    ensures DigitRun(s) == |s|
    decreases |s|
  {
    if |s| > 0 {
      DigitRunAllDigits(s[1..]);
    }
  }

  /** Reading back what `toString` printed gives the number again. */
  lemma ParseIntToString(i: int)
    ensures ParseInt(IntToString(i)) == Some(i)
  {
    if i < 0 {
      var t := NatToString(-i);
      NatToStringDigits(-i);
      var s := "-" + t;
      assert s[1..] == t;
      DigitRunAllDigits(t);
      assert t[..|t|] == t;
    } else {
      NatToStringDigits(i);
      ParseAllDigits(NatToString(i));
    }
  }

  /** `parseInt` stops at the first character that is not a digit. */
  lemma {:induction false} ParseIgnoresTrailing(s: string, t: string)
    requires |s| > 0 && AllDigits(s)
    requires |t| > 0 ==> !IsDigit(t[0])
    ensures ParseInt(s + t) == Some(DigitsValue(s))
  {
    DigitRunConcat(s, t);
    var u := s + t;
    assert u[0..] == u;
    assert u[..|s|] == s;
  }

  lemma {:induction false} DigitRunConcat(s: string, t: string)
    requires AllDigits(s)
    requires |t| > 0 ==> !IsDigit(t[0])
    ensures DigitRun(s + t) == |s|
    decreases |s|
  {
    if |s| == 0 {
      assert s + t == t;
    } else {
      assert (s + t)[1..] == s[1..] + t;
      DigitRunConcat(s[1..], t);
    }
  }

  // ---------------------------------------------------------------------
  // toUpperCase

  /** Upper-case mapping of one character: ASCII a-z and the Latin-1
      lower-case letters U+00E0..U+00FE (except the division sign U+00F7)
      move down by 0x20, so that "å", "ä" and "ö" become "Å", "Ä" and "Ö";
      "ÿ" becomes U+0178 and the micro sign U+00B5 becomes the Greek
      capital mu U+039C; every other character is left as it is. */
  function UpperChar(c: char): char {
    if 'a' <= c <= 'z' then (c as int - 0x20) as char
    else if 'à' <= c <= 'þ' && c != '÷' then (c as int - 0x20) as char
    else if c == 'ÿ' then '\U{0178}'
    else if c == '\U{00B5}' then '\U{039C}'
    else c
  }

  predicate IsLowerLetter(c: char) {
    'a' <= c <= 'z' || ('à' <= c <= 'þ' && c != '÷') || c == 'ÿ' || c == '\U{00B5}'
  }

  /** `String.prototype.toUpperCase` over the characters `UpperChar` covers. */
  function ToUpperCase(s: string): (r: string)
    ensures |r| == |s|
    ensures forall i :: 0 <= i < |s| ==> r[i] == UpperChar(s[i])
    ensures forall i :: 0 <= i < |r| ==> !IsLowerLetter(r[i])
    ensures forall i :: 0 <= i < |s| && !IsLowerLetter(s[i]) ==> r[i] == s[i]
  {
    seq(|s|, i requires 0 <= i < |s| => UpperChar(s[i]))
  }

  /** Upper-casing twice is upper-casing once. */
  lemma ToUpperCaseIdempotent(s: string)
    ensures ToUpperCase(ToUpperCase(s)) == ToUpperCase(s)
  {
  }

  // ---------------------------------------------------------------------
  // startsWith / endsWith

  predicate StartsWith(s: string, p: string) {
    |p| <= |s| && s[..|p|] == p
  }

  predicate EndsWith(s: string, p: string) {
    |p| <= |s| && s[|s| - |p|..] == p
  }
}
