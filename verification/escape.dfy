/** The ticket builders' `esc` helper: the minimal XML escaping of `&`, `<`
    and `>` (and nothing else: quotes and every other character pass through),
    together with its inverse and a characterisation of its image. */
module Escape {
  import opened JsString

  /** The character references the document uses for the three escaped
      characters, and the line-feed reference the builders append to lines. */
  const Amp: string := "&amp;"
  const Lt: string := "&lt;"
  const Gt: string := "&gt;"
  const Nl: string := "&#10;"

  function EscapeChar(c: char): string {
    if c == '&' then Amp
    else if c == '<' then Lt
    else if c == '>' then Gt
    else [c]
  }

  /** True when position `i` of `s` begins `&amp;`, `&lt;` or `&gt;`, or,
      when `lineFeed` is set, `&#10;`. */
  predicate ReferenceAt(s: string, i: nat, lineFeed: bool)
    requires i <= |s|
  {
    || StartsWith(s[i..], Amp)
    || StartsWith(s[i..], Lt)
    || StartsWith(s[i..], Gt)
    || (lineFeed && StartsWith(s[i..], Nl))
  }

  /** What `esc` output looks like: no raw `<` or `>`, and every `&` starts
      `&amp;`, `&lt;` or `&gt;`. */
  predicate WellEscaped(s: string) {
    && '<' !in s && '>' !in s
    && forall i :: 0 <= i < |s| && s[i] == '&' ==> ReferenceAt(s, i, false)
  }

  /** Character data of the generated document: like `WellEscaped`, but the
      line-feed reference `&#10;` is allowed as well. */
  predicate CharData(s: string) {
    && '<' !in s && '>' !in s
    && forall i :: 0 <= i < |s| && s[i] == '&' ==> ReferenceAt(s, i, true)
  }

  /** `esc`, one character at a time. */
  function Esc(s: string): (r: string)
    ensures WellEscaped(r)
    ensures |r| >= |s|
    decreases |s|
  {
    if |s| == 0 then ""
    else
      var head := EscapeChar(s[0]);
      EscapeCharWellEscaped(s[0]);
      WellEscapedConcat(head, Esc(s[1..]));
      head + Esc(s[1..])
  }

  lemma EscapeCharWellEscaped(c: char)
    ensures WellEscaped(EscapeChar(c))
  {
    var e := EscapeChar(c);
    if c == '&' || c == '<' || c == '>' {
      assert e[0..] == e;
    }
  }

  /** A prefix that `s` starts with is still a prefix once text is appended. */
  lemma StartsWithConcat(s: string, t: string, p: string)
    ensures StartsWith(s, p) ==> StartsWith(s + t, p)
  {
    if StartsWith(s, p) {
      assert (s + t)[..|p|] == s[..|p|];
    }
  }

  /** A reference that starts inside `a` is still there once `b` is appended. */
  lemma ReferenceAtConcat(a: string, b: string, i: nat, lineFeed: bool)
    requires i < |a| && ReferenceAt(a, i, lineFeed)
    ensures ReferenceAt(a + b, i, lineFeed)
  {
    assert (a + b)[i..] == a[i..] + b;
    StartsWithConcat(a[i..], b, Amp);
    StartsWithConcat(a[i..], b, Lt);
    StartsWithConcat(a[i..], b, Gt);
    StartsWithConcat(a[i..], b, Nl);
  }

  /** A reference at position `i` of `b` is a reference at `|a| + i` of `a + b`. */
  lemma ReferenceAtShift(a: string, b: string, i: nat, lineFeed: bool)
    requires i < |b| && ReferenceAt(b, i, lineFeed)
    ensures ReferenceAt(a + b, |a| + i, lineFeed)
  {
    assert (a + b)[|a| + i..] == b[i..];
  }

  lemma WellEscapedConcat(a: string, b: string)
    requires WellEscaped(a) && WellEscaped(b)
    ensures WellEscaped(a + b)
  {
    forall i | 0 <= i < |a + b| && (a + b)[i] == '&'
      ensures ReferenceAt(a + b, i, false)
    {
      if i < |a| {
        ReferenceAtConcat(a, b, i, false);
      } else {
        ReferenceAtShift(a, b, i - |a|, false);
      }
    }
  }

  lemma CharDataConcat(a: string, b: string)
    requires CharData(a) && CharData(b)
    ensures CharData(a + b)
  {
    forall i | 0 <= i < |a + b| && (a + b)[i] == '&'
      ensures ReferenceAt(a + b, i, true)
    {
      if i < |a| {
        ReferenceAtConcat(a, b, i, true);
      } else {
        ReferenceAtShift(a, b, i - |a|, true);
      }
    }
  }

  /** Escaped text is valid character data of the document. */
  lemma WellEscapedIsCharData(s: string)
    requires WellEscaped(s)
    ensures CharData(s)
  {
  }

  lemma NlIsCharData()
    ensures CharData(Nl)
  {
    assert Nl[0..] == Nl;
  }

  /** Text with no `&`, `<` or `>` is character data as it stands. */
  lemma PlainIsCharData(s: string)
    requires '&' !in s && '<' !in s && '>' !in s
    ensures CharData(s)
  {
  }

  // ---------------------------------------------------------------------
  // The source's formulation: three global replacements in a row.

  /** `s.replace(/c/g, t)` for a single character `c`. */
  function ReplaceAll(s: string, c: char, t: string): string
    decreases |s|
  {
    if |s| == 0 then "" else (if s[0] == c then t else [s[0]]) + ReplaceAll(s[1..], c, t)
  }

  /** `esc` exactly as the source writes it: replace `&` first, then `<`,
      then `>`. (`String(s || '')` is the identity on strings.) */
  function EscBySteps(s: string): string {
    ReplaceAll(ReplaceAll(ReplaceAll(s, '&', Amp), '<', Lt), '>', Gt)
  }

  lemma {:induction false} ReplaceAllConcat(a: string, b: string, c: char, t: string)
    ensures ReplaceAll(a + b, c, t) == ReplaceAll(a, c, t) + ReplaceAll(b, c, t)
    decreases |a|
  {
    if |a| == 0 {
      assert a + b == b;
    } else {
      assert (a + b)[1..] == a[1..] + b;
      ReplaceAllConcat(a[1..], b, c, t);
    }
  }

  /** Replacing a character that does not occur changes nothing. */
  lemma {:induction false} ReplaceAllAbsent(s: string, c: char, t: string)
    requires c !in s
    ensures ReplaceAll(s, c, t) == s
    decreases |s|
  {
    if |s| > 0 {
      assert s == [s[0]] + s[1..];
      ReplaceAllAbsent(s[1..], c, t);
    }
  }

  lemma ReplaceAllOne(x: char, c: char, t: string)
    ensures ReplaceAll([x], c, t) == if x == c then t else [x]
  {
    assert [x][1..] == [];
  }

  lemma AmpNoBrackets()
    ensures '<' !in Amp && '>' !in Amp
  {
    assert Amp == ['&', 'a', 'm', 'p', ';'];
  }

  lemma EscByStepsAmp()
    ensures EscBySteps(['&']) == EscapeChar('&')
  {
    ReplaceAllOne('&', '&', Amp);
    assert ReplaceAll(['&'], '&', Amp) == Amp;
    AmpNoBrackets();
    ReplaceAllAbsent(Amp, '<', Lt);
    ReplaceAllAbsent(Amp, '>', Gt);
  }

  lemma EscByStepsLt()
    ensures EscBySteps(['<']) == EscapeChar('<')
  {
    ReplaceAllOne('<', '&', Amp);
    ReplaceAllOne('<', '<', Lt);
    ReplaceAllAbsent(Lt, '>', Gt);
  }

  lemma EscByStepsOther(x: char)
    requires x != '&' && x != '<'
    ensures EscBySteps([x]) == EscapeChar(x)
  {
    ReplaceAllOne(x, '&', Amp);
    ReplaceAllOne(x, '<', Lt);
    ReplaceAllOne(x, '>', Gt);
  }

  lemma EscByStepsChar(x: char)
    ensures EscBySteps([x]) == EscapeChar(x)
  {
    if x == '&' {
      EscByStepsAmp();
    } else if x == '<' {
      EscByStepsLt();
    } else {
      EscByStepsOther(x);
    }
  }

  /** Replacing `&` first is what makes the three passes agree with the
      character-wise escape: no pass re-escapes another pass's output. */
  lemma {:induction false} EscByStepsIsEsc(s: string)
    ensures EscBySteps(s) == Esc(s)
    decreases |s|
  {
    if |s| > 0 {
      var h, t := [s[0]], s[1..];
      assert s == h + t;
      ReplaceAllConcat(h, t, '&', Amp);
      ReplaceAllConcat(ReplaceAll(h, '&', Amp), ReplaceAll(t, '&', Amp), '<', Lt);
      ReplaceAllConcat(ReplaceAll(ReplaceAll(h, '&', Amp), '<', Lt),
                       ReplaceAll(ReplaceAll(t, '&', Amp), '<', Lt), '>', Gt);
      EscByStepsChar(s[0]);
      EscByStepsIsEsc(t);
    }
  }

  // ---------------------------------------------------------------------
  // Inverse

  /** Decodes `&amp;`, `&lt;` and `&gt;`; every other character is copied. */
  function Unescape(s: string): string
    decreases |s|
  {
    if |s| == 0 then ""
    else if StartsWith(s, Amp) then "&" + Unescape(s[|Amp|..])
    else if StartsWith(s, Lt) then "<" + Unescape(s[|Lt|..])
    else if StartsWith(s, Gt) then ">" + Unescape(s[|Gt|..])
    else [s[0]] + Unescape(s[1..])
  }

  /** Decoding the escape of one character followed by more text yields the
      character followed by the decoding of that text. */
  lemma UnescapeHead(c: char, rest: string)
    ensures Unescape(EscapeChar(c) + rest) == [c] + Unescape(rest)
  {
    var e := EscapeChar(c);
    var u := e + rest;
    assert u[|e|..] == rest;
    assert u[..|e|] == e;
    if c != '&' && c != '<' && c != '>' {
      assert u[0] == c;
      assert !StartsWith(u, Amp) by { assert Amp[0] == '&'; }
      assert !StartsWith(u, Lt) by { assert Lt[0] == '&'; }
      assert !StartsWith(u, Gt) by { assert Gt[0] == '&'; }
    } else if c == '<' {
      assert !StartsWith(u, Amp) by { assert Amp[1] == 'a' && u[1] == 'l'; }
    } else if c == '>' {
      assert !StartsWith(u, Amp) by { assert Amp[1] == 'a' && u[1] == 'g'; }
      assert !StartsWith(u, Lt) by { assert Lt[1] == 'l' && u[1] == 'g'; }
    }
  }

  /** Escaping loses nothing: the field can always be read back. */
  lemma {:induction false} UnescapeEsc(s: string)
    ensures Unescape(Esc(s)) == s
    decreases |s|
  {
    if |s| > 0 {
      UnescapeHead(s[0], Esc(s[1..]));
      UnescapeEsc(s[1..]);
      assert s == [s[0]] + s[1..];
    }
  }

  /** Every suffix of well-escaped text is well escaped. */
  lemma WellEscapedSuffix(s: string, n: nat)
    requires WellEscaped(s) && n <= |s|
    ensures WellEscaped(s[n..])
  {
    var t := s[n..];
    forall i | 0 <= i < |t| && t[i] == '&'
      ensures ReferenceAt(t, i, false)
    {
      assert s[n + i] == '&';
      assert t[i..] == s[n + i..];
    }
  }

  /** Well-escaped text is exactly the image of `Esc`: decoding it and
      escaping again gives it back. */
  lemma {:induction false} EscUnescape(t: string)
    requires WellEscaped(t)
    ensures Esc(Unescape(t)) == t
    decreases |t|
  {
    if |t| > 0 {
      var n: nat;
      var c: char;
      if StartsWith(t, Amp) {
        n, c := |Amp|, '&';
      } else if StartsWith(t, Lt) {
        n, c := |Lt|, '<';
      } else if StartsWith(t, Gt) {
        n, c := |Gt|, '>';
      } else {
        if t[0] == '&' {
          assert false;
        }
        assert t[0] != '<' && t[0] != '>' by {
          assert t[0] in t;
        }
        n, c := 1, t[0];
      }
      WellEscapedSuffix(t, n);
      var rest := t[n..];
      EscUnescape(rest);
      assert Unescape(t) == [c] + Unescape(rest);
      assert Esc([c] + Unescape(rest)) == EscapeChar(c) + Esc(Unescape(rest)) by {
        assert ([c] + Unescape(rest))[1..] == Unescape(rest);
      }
      assert EscapeChar(c) == t[..n];
      assert t == t[..n] + rest;
    }
  }

  /** Text without the three special characters is embedded verbatim. */
  lemma {:induction false} EscPlain(s: string)
    requires '&' !in s && '<' !in s && '>' !in s
    ensures Esc(s) == s
    decreases |s|
  {
    if |s| > 0 {
      var t := s[1..];
      assert s[0] in s;
      assert EscapeChar(s[0]) == [s[0]];
      forall c | c in t
        ensures c in s
      {
        var i :| 0 <= i < |t| && t[i] == c;
        assert s[i + 1] == c;
      }
      EscPlain(t);
    }
  }

  lemma {:induction false} EscConcat(a: string, b: string)
    ensures Esc(a + b) == Esc(a) + Esc(b)
    decreases |a|
  {
    if |a| == 0 {
      assert a + b == b;
    } else {
      assert (a + b)[1..] == a[1..] + b;
      EscConcat(a[1..], b);
    }
  }
}
