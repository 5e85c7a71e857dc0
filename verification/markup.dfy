/** The lexical layer of the ePOS-Print XML the ticket builders emit: a
    document is a sequence of tags and runs of character data. `Render`
    writes tokens out as text; `Lex` is an independent reader that splits
    text back into tokens, so that claims about the text the builders produce
    can be stated in terms of what a reader of that text sees. */
module Markup {
  import opened Wrappers

  datatype Token = Tag(body: string) | Chars(data: string)

  function TokenText(t: Token): string {
    match t
    case Tag(b) => "<" + b + ">"
    case Chars(d) => d
  }

  function Render(ts: seq<Token>): string
    decreases |ts|
  {
    if |ts| == 0 then "" else TokenText(ts[0]) + Render(ts[1..])
  }

  lemma {:induction false} RenderConcat(a: seq<Token>, b: seq<Token>)
    ensures Render(a + b) == Render(a) + Render(b)
    decreases |a|
  {
    if |a| == 0 {
      assert a + b == b;
    } else {
      assert (a + b)[1..] == a[1..] + b;
      RenderConcat(a[1..], b);
    }
  }

  /** Index of the first `c` in `s`, or `|s|` when `c` does not occur. */
  function Find(s: string, c: char): (k: nat)
    ensures k <= |s|
    ensures c !in s[..k]
    ensures k < |s| ==> s[k] == c
    decreases |s|
  {
    if |s| == 0 then 0
    else if s[0] == c then 0
    else
      var k := 1 + Find(s[1..], c);
      assert s[..k] == [s[0]] + s[1..][..k - 1];
      k
  }

  /** Splits text into tags and maximal runs of character data. `None` when
      a `<` is never closed, a tag contains another `<`, or a `>` stands
      outside a tag. */
  function Lex(s: string): Option<seq<Token>>
    decreases |s|
  {
    if |s| == 0 then Some([])
    else if s[0] == '<' then
      var k := Find(s[1..], '>');
      if k == |s| - 1 then None
      else
        var body := s[1..][..k];
        if '<' in body then None
        else
          var rest :- Lex(s[k + 2..]);
          Some([Tag(body)] + rest)
    else
      var k := Find(s, '<');
      assert k > 0;
      var data := s[..k];
      if '>' in data then None
      else
        var rest :- Lex(s[k..]);
        Some([Chars(data)] + rest)
  }

  /** A token the lexer can reproduce: tag bodies free of angle brackets,
      character runs non-empty and free of angle brackets. */
  predicate TokenOk(t: Token) {
    match t
    case Tag(b) => '<' !in b && '>' !in b
    case Chars(d) => |d| > 0 && '<' !in d && '>' !in d
  }

  /** Tokens as the lexer returns them: each one well formed, and no two
      character runs next to each other (the lexer always merges them). */
  predicate WellFormed(ts: seq<Token>) {
    && (forall i :: 0 <= i < |ts| ==> TokenOk(ts[i]))
    && (forall i :: 0 < i < |ts| && ts[i].Chars? ==> ts[i - 1].Tag?)
  }

  /** The first occurrence of `c` in `a + b` is right after `a` when `a`
      lacks `c` and `b` starts with it (or is empty). */
  lemma FindAfter(a: string, b: string, c: char)
    requires c !in a
    requires |b| > 0 ==> b[0] == c
    ensures Find(a + b, c) == |a|
  {
    var s := a + b;
    var k := Find(s, c);
    forall j | 0 <= j < |a|
      ensures s[j] != c
    {
      assert s[j] == a[j] && a[j] in a;
    }
    forall j | 0 <= j < k
      ensures s[j] != c
    {
      assert s[..k][j] == s[j];
    }
    if |b| > 0 {
      assert s[|a|] == c;
    }
    if k < |a| {
      assert false;
    }
  }

  lemma RenderStartsWithTag(ts: seq<Token>)
    requires |ts| > 0 && ts[0].Tag?
    ensures |Render(ts)| > 0 && Render(ts)[0] == '<'
  {
  }

  lemma WellFormedTail(ts: seq<Token>)
    requires |ts| > 0 && WellFormed(ts)
    ensures WellFormed(ts[1..])
  {
    var t := ts[1..];
    forall i | 0 < i < |t| && t[i].Chars?
      ensures t[i - 1].Tag?
    {
      assert t[i] == ts[i + 1];
    }
  }

  /** A tag in front of text the lexer accepts is read as that tag. */
  lemma LexTag(b: string, r: string, rest: seq<Token>)
    requires '<' !in b && '>' !in b
    requires Lex(r) == Some(rest)
    ensures Lex("<" + b + ">" + r) == Some([Tag(b)] + rest)
  {
    var s := "<" + b + ">" + r;
    assert s[1..] == b + (">" + r);
    FindAfter(b, ">" + r, '>');
    assert s[1..][..|b|] == b;
    assert s[|b| + 2..] == r;
  }

  /** Character data in front of a tag (or of nothing) is read as one run. */
  lemma LexChars(d: string, r: string, rest: seq<Token>)
    requires |d| > 0 && '<' !in d && '>' !in d
    requires |r| > 0 ==> r[0] == '<'
    requires Lex(r) == Some(rest)
    ensures Lex(d + r) == Some([Chars(d)] + rest)
  {
    var s := d + r;
    assert s[0] == d[0] && d[0] in d;
    FindAfter(d, r, '<');
    assert s[..|d|] == d;
    assert s[|d|..] == r;
  }

  /** Lexing what `Render` wrote gives back the tokens it was given. */
  lemma {:induction false} LexRender(ts: seq<Token>)
    requires WellFormed(ts)
    ensures Lex(Render(ts)) == Some(ts)
    decreases |ts|
  {
    if |ts| > 0 {
      var rest := ts[1..];
      WellFormedTail(ts);
      LexRender(rest);
      assert TokenOk(ts[0]);
      assert ts == [ts[0]] + rest;
      match ts[0]
      case Tag(b) =>
        LexTag(b, Render(rest), rest);
      case Chars(d) =>
        if |rest| > 0 {
          assert rest[0] == ts[1];
          RenderStartsWithTag(rest);
        }
        LexChars(d, Render(rest), rest);
    }
  }

  lemma WellFormedConcat(a: seq<Token>, b: seq<Token>)
    requires WellFormed(a) && WellFormed(b)
    requires |a| > 0 && |b| > 0 ==> a[|a| - 1].Tag? || b[0].Tag?
    ensures WellFormed(a + b)
  {
    var s := a + b;
    forall i | 0 < i < |s| && s[i].Chars?
      ensures s[i - 1].Tag?
    {
      if i < |a| {
        assert s[i] == a[i] && s[i - 1] == a[i - 1];
      } else if i == |a| {
        assert s[i] == b[0] && s[i - 1] == a[|a| - 1];
      } else {
        assert s[i] == b[i - |a|] && s[i - 1] == b[i - |a| - 1];
      }
    }
  }
}
