/** The receipt ("ticket") both components send to the printer: an Epson
    ePOS-Print XML document made of directive lines. This module holds what
    the create path and the reprint path have in common: the record fields,
    the directive lines and how they are written out, the 42 lines both
    builders emit before their QR section, and a reader that recovers the
    lines and the printed fields from the document text. */
module Ticket {
  import opened Wrappers
  import opened JsString
  import opened Escape
  import opened Markup

  /** The fields of a control-fee notice, as the form holds them and as they
      are stored: company, reference (OCR) number, issuer, registration
      number, vehicle make, period start and end, place, amount, violation,
      and the three "checked" flags (road marking, road signs, photo). */
  datatype FormData = FormData(
    bolag: string,
    ocr: string,
    utfardat: string,
    regnr: string,
    fabrikat: string,
    from: string,
    to: string,
    plats: string,
    belopp: string,
    overtr: string,
    vagmark: string,
    vagmarken: string,
    foto: string)

  /** One `xml += ...` statement of the builders. */
  datatype Line =
    | AlignCenter                 // <text align="center"/> then a line feed
    | AlignLeft                   // <text align="left"/> then a line feed
    | Text(content: string)       // <text>content</text>
    | TextFeed(content: string)   // <text>content</text> then a line feed
    | Qr(payload: string)         // <qr>payload</qr> then a line feed
    | Cut                         // <cut type="full"/> then a line feed

  /** The root element's opening tag body, written in pieces only so that
      each piece is short. */
  const RootOpen: string := "epos-print xmlns=\"" + "http://www.epson-pos.com/" + "schemas/2011/03/epos-print\""
  const RootClose: string := "/epos-print"
  const CenterTag: string := "text align=\"center\"/"
  const LeftTag: string := "text align=\"left\"/"
  const CutTag: string := "cut type=\"full\"/"
  const TextOpen: string := "text"
  const TextClose: string := "/text"
  const QrOpen: string := "qr"
  const QrClose: string := "/qr"

  /** A run of character data, or nothing for empty text. */
  function Run(d: string): seq<Token> {
    if |d| == 0 then [] else [Chars(d)]
  }

  function LineTokens(l: Line): seq<Token> {
    match l
    case AlignCenter => [Tag(CenterTag), Chars(Nl)]
    case AlignLeft => [Tag(LeftTag), Chars(Nl)]
    case Text(c) => [Tag(TextOpen)] + Run(c) + [Tag(TextClose)]
    case TextFeed(c) => [Tag(TextOpen)] + Run(c) + [Tag(TextClose), Chars(Nl)]
    case Qr(p) => [Tag(QrOpen)] + Run(p) + [Tag(QrClose), Chars(Nl)]
    case Cut => [Tag(CutTag), Chars(Nl)]
  }

  function Tokens(lines: seq<Line>): seq<Token>
    decreases |lines|
  {
    if |lines| == 0 then [] else LineTokens(lines[0]) + Tokens(lines[1..])
  }

  function DocumentTokens(lines: seq<Line>): seq<Token> {
    [Tag(RootOpen), Chars(Nl)] + Tokens(lines) + [Tag(RootClose)]
  }

  /** The document text: the root element around the lines. */
  function Document(lines: seq<Line>): (r: string)
    ensures StartsWith(r, "<" + RootOpen + ">" + Nl)
    ensures EndsWith(r, "<" + RootClose + ">")
  {
    var head := [Tag(RootOpen), Chars(Nl)];
    RenderConcat(head + Tokens(lines), [Tag(RootClose)]);
    RenderConcat(head, Tokens(lines));
    assert Render(head) == "<" + RootOpen + ">" + Nl;
    Render(DocumentTokens(lines))
  }

  lemma {:induction false} TokensConcat(a: seq<Line>, b: seq<Line>)
    ensures Tokens(a + b) == Tokens(a) + Tokens(b)
    decreases |a|
  {
    if |a| == 0 {
      assert a + b == b;
    } else {
      assert (a + b)[1..] == a[1..] + b;
      TokensConcat(a[1..], b);
    }
  }

  // ---------------------------------------------------------------------
  // Well-formedness

  /** Text with none of the three characters that need escaping. */
  predicate Plain(s: string) {
    forall i :: 0 <= i < |s| ==> s[i] != '&' && s[i] != '<' && s[i] != '>'
  }

  lemma PlainConcat(a: string, b: string)
    requires Plain(a) && Plain(b)
    ensures Plain(a + b)
  {
    forall i | 0 <= i < |a + b|
      ensures (a + b)[i] != '&' && (a + b)[i] != '<' && (a + b)[i] != '>'
    {
      if i < |a| {
        assert (a + b)[i] == a[i];
      } else {
        assert (a + b)[i] == b[i - |a|];
      }
    }
  }

  lemma PlainNotIn(s: string)
    requires Plain(s)
    ensures '&' !in s && '<' !in s && '>' !in s
  {
    forall c | c in s
      ensures c != '&' && c != '<' && c != '>'
    {
      var i :| 0 <= i < |s| && s[i] == c;
    }
  }

  lemma PlainCharData(s: string)
    requires Plain(s)
    ensures CharData(s)
  {
    PlainNotIn(s);
    PlainIsCharData(s);
  }

  /** A plain tag body makes a token the lexer reproduces. */
  lemma PlainTag(b: string)
    requires Plain(b)
    ensures TokenOk(Tag(b))
  {
    PlainCharData(b);
  }

  lemma TagNamesPlain()
    ensures Plain(CenterTag) && Plain(LeftTag) && Plain(CutTag)
    ensures Plain(TextOpen) && Plain(TextClose) && Plain(QrOpen) && Plain(QrClose)
  {
  }

  lemma RootPlain()
    ensures Plain(RootOpen) && Plain(RootClose)
  {
    var a, b, c := "epos-print xmlns=\"", "http://www.epson-pos.com/", "schemas/2011/03/epos-print\"";
    assert Plain(a);
    assert Plain(b);
    assert Plain(c);
    PlainConcat(a, b);
    PlainConcat(a + b, c);
  }

  /** Text carried by a line is valid character data. */
  predicate GoodLine(l: Line) {
    match l
    case Text(c) => CharData(c)
    case TextFeed(c) => CharData(c)
    case Qr(p) => CharData(p)
    case _ => true
  }

  predicate GoodLines(lines: seq<Line>) {
    forall i :: 0 <= i < |lines| ==> GoodLine(lines[i])
  }

  /** A self-closing tag followed by a line feed. */
  lemma DirectiveWellFormed(tag: string)
    requires Plain(tag)
    ensures WellFormed([Tag(tag), Chars(Nl)])
  {
    PlainTag(tag);
    NlIsCharData();
  }

  /** An opening tag, optional character data, and what follows the data. */
  lemma WrappedWellFormed(open: string, c: string, after: seq<Token>)
    requires Plain(open) && CharData(c)
    requires WellFormed(after) && |after| > 0 && after[0].Tag?
    ensures WellFormed([Tag(open)] + Run(c) + after)
  {
    PlainTag(open);
    var head := [Tag(open)] + Run(c);
    assert WellFormed(head);
    WellFormedConcat(head, after);
  }

  lemma LineTokensWellFormed(l: Line)
    requires GoodLine(l)
    ensures WellFormed(LineTokens(l))
    ensures LineTokens(l)[0].Tag?
  {
    TagNamesPlain();
    match l
    case AlignCenter => DirectiveWellFormed(CenterTag);
    case AlignLeft => DirectiveWellFormed(LeftTag);
    case Cut => DirectiveWellFormed(CutTag);
    case Text(c) =>
      PlainTag(TextClose);
      WrappedWellFormed(TextOpen, c, [Tag(TextClose)]);
    case TextFeed(c) =>
      DirectiveWellFormed(TextClose);
      WrappedWellFormed(TextOpen, c, [Tag(TextClose), Chars(Nl)]);
    case Qr(p) =>
      DirectiveWellFormed(QrClose);
      WrappedWellFormed(QrOpen, p, [Tag(QrClose), Chars(Nl)]);
  }

  lemma {:induction false} TokensWellFormed(lines: seq<Line>)
    requires GoodLines(lines)
    ensures WellFormed(Tokens(lines))
    ensures |Tokens(lines)| > 0 ==> Tokens(lines)[0].Tag?
    decreases |lines|
  {
    if |lines| > 0 {
      assert GoodLine(lines[0]);
      LineTokensWellFormed(lines[0]);
      assert GoodLines(lines[1..]) by {
        forall i | 0 <= i < |lines[1..]|
          ensures GoodLine(lines[1..][i])
        {
          assert lines[1..][i] == lines[i + 1];
        }
      }
      TokensWellFormed(lines[1..]);
      WellFormedConcat(LineTokens(lines[0]), Tokens(lines[1..]));
    }
  }

  lemma DocumentTokensWellFormed(lines: seq<Line>)
    requires GoodLines(lines)
    ensures WellFormed(DocumentTokens(lines))
  {
    RootPlain();
    DirectiveWellFormed(RootOpen);
    PlainTag(RootClose);
    TokensWellFormed(lines);
    WellFormedConcat([Tag(RootOpen), Chars(Nl)], Tokens(lines));
    WellFormedConcat([Tag(RootOpen), Chars(Nl)] + Tokens(lines), [Tag(RootClose)]);
  }

  lemma GoodLinesConcat(a: seq<Line>, b: seq<Line>)
    requires GoodLines(a) && GoodLines(b)
    ensures GoodLines(a + b)
  {
    forall i | 0 <= i < |a + b|
      ensures GoodLine((a + b)[i])
    {
      if i < |a| {
        assert (a + b)[i] == a[i];
      } else {
        assert (a + b)[i] == b[i - |a|];
      }
    }
  }

  /** The text of a document up to the end of its first lines. */
  function DocumentHead(lines: seq<Line>): string {
    "<" + RootOpen + ">" + Nl + Render(Tokens(lines))
  }

  /** Documents that begin with the same lines begin with the same text. */
  lemma DocumentStartsWith(a: seq<Line>, b: seq<Line>)
    ensures StartsWith(Document(a + b), DocumentHead(a))
  {
    var head := [Tag(RootOpen), Chars(Nl)];
    var ts := DocumentTokens(a + b);
    TokensConcat(a, b);
    assert ts == (head + Tokens(a)) + (Tokens(b) + [Tag(RootClose)]);
    RenderConcat(head + Tokens(a), Tokens(b) + [Tag(RootClose)]);
    RenderConcat(head, Tokens(a));
    assert Render(head) == "<" + RootOpen + ">" + Nl;
    var d := Document(a + b);
    var p := DocumentHead(a);
    assert d == p + Render(Tokens(b) + [Tag(RootClose)]);
    assert d[..|p|] == p;
  }

  // ---------------------------------------------------------------------
  // Reader

  /** The character data at position `i`, or "" when there is none. */
  function RunAt(ts: seq<Token>, i: nat): string {
    if i < |ts| && ts[i].Chars? then ts[i].data else ""
  }

  /** A self-closing directive followed by its line feed. */
  function Directive(l: Line, ts: seq<Token>): Option<(Line, nat)> {
    if |ts| >= 2 && ts[1] == Chars(Nl) then Some((l, 2)) else None
  }

  /** Reads one line off the front of a token sequence, with the number of
      tokens it took. */
  function ParseLine(ts: seq<Token>): (r: Option<(Line, nat)>)
    ensures r.Some? ==> 0 < r.value.1 <= |ts|
  {
    if |ts| == 0 then None
    else if ts[0] == Tag(CenterTag) then Directive(AlignCenter, ts)
    else if ts[0] == Tag(LeftTag) then Directive(AlignLeft, ts)
    else if ts[0] == Tag(CutTag) then Directive(Cut, ts)
    else if ts[0] == Tag(TextOpen) then
      var c := RunAt(ts, 1);
      var n := 1 + |Run(c)|;
      if n < |ts| && ts[n] == Tag(TextClose) then
        if n + 1 < |ts| && ts[n + 1] == Chars(Nl) then Some((TextFeed(c), n + 2))
        else Some((Text(c), n + 1))
      else None
    else if ts[0] == Tag(QrOpen) then
      var p := RunAt(ts, 1);
      var n := 1 + |Run(p)|;
      if n + 1 < |ts| && ts[n] == Tag(QrClose) && ts[n + 1] == Chars(Nl) then Some((Qr(p), n + 2))
      else None
    else None
  }

  function ParseLines(ts: seq<Token>): Option<seq<Line>>
    decreases |ts|
  {
    if |ts| == 0 then Some([])
    else
      var p :- ParseLine(ts);
      var rest :- ParseLines(ts[p.1..]);
      Some([p.0] + rest)
  }

  /** Reads a document back into its lines. */
  function ParseDoc(s: string): Option<seq<Line>> {
    var ts :- Lex(s);
    if |ts| >= 3 && ts[0] == Tag(RootOpen) && ts[1] == Chars(Nl) && ts[|ts| - 1] == Tag(RootClose)
    then ParseLines(ts[2..|ts| - 1])
    else None
  }

  /** The opening tags the reader dispatches on are pairwise different. */
  lemma OpenTagsDistinct()
    ensures CenterTag != LeftTag && CenterTag != CutTag && LeftTag != CutTag
    ensures TextOpen != CenterTag && TextOpen != LeftTag && TextOpen != CutTag
    ensures QrOpen != CenterTag && QrOpen != LeftTag && QrOpen != CutTag && QrOpen != TextOpen
  {
    assert |CenterTag| == 20 && |LeftTag| == 18 && |CutTag| == 16;
    assert |TextOpen| == 4 && |QrOpen| == 2;
  }

  lemma ParseTextTokens(c: string, rest: seq<Token>)
    requires |rest| > 0 ==> rest[0].Tag?
    ensures ParseLine(LineTokens(Text(c)) + rest) == Some((Text(c), |LineTokens(Text(c))|))
  {
    OpenTagsDistinct();
    var ts := LineTokens(Text(c)) + rest;
    assert ts[1 + |Run(c)|] == Tag(TextClose);
    if 2 + |Run(c)| < |ts| {
      assert ts[2 + |Run(c)|] == rest[0];
    }
  }

  lemma ParseTextFeedTokens(c: string, rest: seq<Token>)
    ensures ParseLine(LineTokens(TextFeed(c)) + rest) == Some((TextFeed(c), |LineTokens(TextFeed(c))|))
  {
    OpenTagsDistinct();
    var ts := LineTokens(TextFeed(c)) + rest;
    assert ts[1 + |Run(c)|] == Tag(TextClose);
    assert ts[2 + |Run(c)|] == Chars(Nl);
  }

  lemma ParseQrTokens(p: string, rest: seq<Token>)
    ensures ParseLine(LineTokens(Qr(p)) + rest) == Some((Qr(p), |LineTokens(Qr(p))|))
  {
    OpenTagsDistinct();
    var ts := LineTokens(Qr(p)) + rest;
    assert ts[1 + |Run(p)|] == Tag(QrClose);
    assert ts[2 + |Run(p)|] == Chars(Nl);
  }

  lemma ParseDirectiveTokens(l: Line, rest: seq<Token>)
    requires l.AlignCenter? || l.AlignLeft? || l.Cut?
    ensures ParseLine(LineTokens(l) + rest) == Some((l, |LineTokens(l)|))
  {
    OpenTagsDistinct();
    var ts := LineTokens(l) + rest;
    assert ts[1] == Chars(Nl);
  }

  lemma ParseLineTokens(l: Line, rest: seq<Token>)
    requires |rest| > 0 ==> rest[0].Tag?
    ensures ParseLine(LineTokens(l) + rest) == Some((l, |LineTokens(l)|))
  {
    match l
    case Text(c) => ParseTextTokens(c, rest);
    case TextFeed(c) => ParseTextFeedTokens(c, rest);
    case Qr(p) => ParseQrTokens(p, rest);
    case _ => ParseDirectiveTokens(l, rest);
  }

  lemma {:induction false} ParseLinesTokens(lines: seq<Line>)
    ensures ParseLines(Tokens(lines)) == Some(lines)
    decreases |lines|
  {
    if |lines| > 0 {
      var head, rest := LineTokens(lines[0]), Tokens(lines[1..]);
      assert Tokens(lines) == head + rest;
      if |lines[1..]| > 0 {
        assert rest == LineTokens(lines[1..][0]) + Tokens(lines[1..][1..]);
      }
      ParseLineTokens(lines[0], rest);
      assert (head + rest)[|head|..] == rest;
      ParseLinesTokens(lines[1..]);
      assert lines == [lines[0]] + lines[1..];
    }
  }

  /** Reading a document back gives exactly the lines it was written from:
      the builders' markup cannot be disturbed by the text they embed. */
  lemma ParseDocument(lines: seq<Line>)
    requires GoodLines(lines)
    ensures ParseDoc(Document(lines)) == Some(lines)
  {
    var ts := DocumentTokens(lines);
    DocumentTokensWellFormed(lines);
    LexRender(ts);
    assert ts[2..|ts| - 1] == Tokens(lines);
    ParseLinesTokens(lines);
  }

  /** Every run of character data in the document is valid character data:
      the only references in it are `&amp;`, `&lt;`, `&gt;` and `&#10;`. */
  lemma DocumentCharData(lines: seq<Line>)
    requires GoodLines(lines)
    ensures Lex(Document(lines)).Some?
    ensures forall t :: t in Lex(Document(lines)).value && t.Chars? ==> CharData(t.data)
  {
    DocumentTokensWellFormed(lines);
    LexRender(DocumentTokens(lines));
    NlIsCharData();
    TokensCharData(lines);
  }

  lemma {:induction false} TokensCharData(lines: seq<Line>)
    requires GoodLines(lines)
    ensures forall t :: t in Tokens(lines) && t.Chars? ==> CharData(t.data)
    decreases |lines|
  {
    if |lines| > 0 {
      NlIsCharData();
      assert GoodLine(lines[0]);
      assert GoodLines(lines[1..]) by {
        forall i | 0 <= i < |lines[1..]|
          ensures GoodLine(lines[1..][i])
        {
          assert lines[1..][i] == lines[i + 1];
        }
      }
      TokensCharData(lines[1..]);
    }
  }

  lemma TagInitials()
    ensures RootOpen[0] == 'e' && RootClose[0] == '/' && RootClose[1] == 'e'
    ensures CenterTag[0] == 't' && LeftTag[0] == 't' && CutTag[0] == 'c'
    ensures TextOpen[0] == 't' && TextClose[1] == 't' && QrOpen[0] == 'q' && QrClose[1] == 'q'
  {
    assert RootOpen == "epos-print xmlns=\"" + ("http://www.epson-pos.com/" + "schemas/2011/03/epos-print\"");
  }

  /** No line produces a root tag. */
  lemma LineTokensNotRoot(l: Line)
    ensures forall t :: t in LineTokens(l) ==> t != Tag(RootOpen) && t != Tag(RootClose)
  {
    TagInitials();
  }

  lemma {:induction false} TokensNotRoot(lines: seq<Line>)
    ensures forall t :: t in Tokens(lines) ==> t != Tag(RootOpen) && t != Tag(RootClose)
    decreases |lines|
  {
    if |lines| > 0 {
      LineTokensNotRoot(lines[0]);
      TokensNotRoot(lines[1..]);
    }
  }

  lemma DocumentTokensRoot(lines: seq<Line>)
    ensures var ts := DocumentTokens(lines);
      && |ts| >= 3
      && ts[0] == Tag(RootOpen) && ts[|ts| - 1] == Tag(RootClose)
      && (forall i :: 0 < i < |ts| ==> ts[i] != Tag(RootOpen))
      && (forall i :: 0 <= i < |ts| - 1 ==> ts[i] != Tag(RootClose))
  {
    var ts := DocumentTokens(lines);
    TokensNotRoot(lines);
    TagInitials();
    forall i | 2 <= i < |ts| - 1
      ensures ts[i] != Tag(RootOpen) && ts[i] != Tag(RootClose)
    {
      assert ts[i] == Tokens(lines)[i - 2];
      assert ts[i] in Tokens(lines);
    }
  }

  /** The document has exactly one root element: the reader's first token
      opens it, its last token closes it, and neither occurs anywhere else. */
  lemma SingleRoot(lines: seq<Line>)
    requires GoodLines(lines)
    ensures Lex(Document(lines)).Some?
    ensures var ts := Lex(Document(lines)).value;
      && |ts| >= 3
      && ts[0] == Tag(RootOpen) && ts[|ts| - 1] == Tag(RootClose)
      && (forall i :: 0 < i < |ts| ==> ts[i] != Tag(RootOpen))
      && (forall i :: 0 <= i < |ts| - 1 ==> ts[i] != Tag(RootClose))
  {
    DocumentTokensWellFormed(lines);
    LexRender(DocumentTokens(lines));
    DocumentTokensRoot(lines);
  }

  /** The payload of the first QR line, if there is one. */
  function FirstQr(lines: seq<Line>): Option<string>
    decreases |lines|
  {
    if |lines| == 0 then None
    else if lines[0].Qr? then Some(lines[0].payload)
    else FirstQr(lines[1..])
  }

  // ---------------------------------------------------------------------
  // The lines both builders emit before the QR section

  /** The company line has no caption. */
  const NoCaption: string := ""
  const OcrLabel: string := "Ärendenr/OCR: "
  const IssuerLabel: string := "Utfärdat av: "
  const PlateLabel: string := "Reg.nr: "
  const MakeLabel: string := "Fabrikat: "
  const FromLabel: string := "Från:  "
  const ToLabel: string := "Till:  "
  const PlaceLabel: string := "Plats: "
  const AmountLabel: string := "Belopp: "
  const ViolationLabel: string := "Överträdelse: "
  const MarkingLabel: string := "Vägmarkering kontrollerad: "
  const SignsLabel: string := "Vägmärken kontrollerade: "
  const PhotoLabel: string := "Foto taget: "
  const Separator: string := "-------------------------------- "
  const AmountTail: string := " kr "

  /** A field line: fixed caption, escaped value, fixed tail, line feed. */
  function Labeled(caption: string, value: string, tail: string): Line {
    Text(caption + Esc(value) + tail + Nl)
  }

  /** A line of fixed text. */
  function Fixed(text: string): Line {
    Text(text + Nl)
  }

  const Blank: Line := Fixed(" ")

  /** The record as the ticket shows it: company and registration number
      upper-cased, every other field exactly as entered. */
  function Printed(v: FormData): FormData {
    v.(bolag := ToUpperCase(v.bolag), regnr := ToUpperCase(v.regnr))
  }

  /** Header and record fields of a record as printed, each value in its
      place. */
  function Layout(v: FormData): seq<Line> {
    Heading(v) + Details(v)
  }

  /** The first twelve lines: company, title, case number, issuer, vehicle. */
  function Heading(v: FormData): seq<Line> {
    [ AlignCenter,
      Labeled(NoCaption, v.bolag, " "),
      AlignLeft,
      Blank,
      Fixed(Title),
      Fixed(Separator),
      Labeled(OcrLabel, v.ocr, " "),
      Labeled(IssuerLabel, v.utfardat, " "),
      Blank,
      Labeled(PlateLabel, v.regnr, " "),
      Labeled(MakeLabel, v.fabrikat, " "),
      Blank ]
  }

  /** The next thirteen lines: period, place, amount and the checks made. */
  function Details(v: FormData): seq<Line> {
    [ Labeled(FromLabel, v.from, " "),
      Labeled(ToLabel, v.to, " "),
      Blank,
      Labeled(PlaceLabel, v.plats, " "),
      Blank,
      Labeled(AmountLabel, v.belopp, AmountTail),
      Blank,
      Labeled(ViolationLabel, v.overtr, " "),
      Blank,
      Labeled(MarkingLabel, v.vagmark, " "),
      Labeled(SignsLabel, v.vagmarken, " "),
      Labeled(PhotoLabel, v.foto, " "),
      Blank ]
  }

  /** Header and record fields: the first 25 lines of every ticket. */
  function FieldLines(v: FormData): seq<Line> {
    Layout(Printed(v))
  }

  const Title: string := "KONTROLLAVGIFT "
  const AccountText: string := "Autogiro: 5815-6332 "
  const BreachText: string := "Angivna bestämmelser har överträtts."
  const ChargeText: string := "Derför uttages en kontrollavgift " + "med belopp     enligt ovan"
  const DebitText: string := "Vid betalning via autogiro " + "ska OCR enges."
  const DueText: string := "Aviften emotses inom 8 dagar"
  const ObjectionText: string := "Eventuella invändningar ska " + "göras till          " + "forvaltning@resona.se"
  const ScanText: string := "Scanna för att betala:"

  /** The payment account and the fixed notice text, ending with the line
      that introduces the QR code. */
  const Notice: seq<Line> :=
    [ Fixed(Separator),
      Blank,
      Fixed(AccountText),
      Blank,
      Fixed(Separator),
      Blank,
      Fixed(BreachText),
      Blank,
      Fixed(ChargeText),
      Blank,
      Fixed(DebitText),
      Blank,
      Fixed(DueText),
      Blank,
      Fixed(ObjectionText),
      Blank,
      ScanLine ]

  const ScanLine: Line := Fixed(ScanText)

  /** Everything up to and including the "Scanna för att betala:" line. */
  function PrefixLines(v: FormData): seq<Line> {
    FieldLines(v) + Notice
  }

  /** A line that is neither a QR code nor a cut. */
  predicate PlainLine(l: Line) {
    l.AlignCenter? || l.AlignLeft? || l.Text?
  }

  lemma LabeledGood(caption: string, value: string, tail: string)
    requires Plain(caption) && Plain(tail)
    ensures GoodLine(Labeled(caption, value, tail))
  {
    WellEscapedIsCharData(Esc(value));
    NlIsCharData();
    CharDataConcat(caption, Esc(value));
    CharDataConcat(caption + Esc(value), tail);
    CharDataConcat(caption + Esc(value) + tail, Nl);
  }

  lemma FixedGood(text: string)
    requires Plain(text)
    ensures GoodLine(Fixed(text))
  {
    NlIsCharData();
    CharDataConcat(text, Nl);
  }

  lemma CaptionsPlain()
    ensures Plain(OcrLabel) && Plain(IssuerLabel) && Plain(PlateLabel)
    ensures Plain(MakeLabel) && Plain(FromLabel) && Plain(ToLabel)
  {
  }

  lemma MoreCaptionsPlain()
    ensures Plain(PlaceLabel) && Plain(AmountLabel) && Plain(ViolationLabel)
    ensures Plain(MarkingLabel) && Plain(SignsLabel) && Plain(PhotoLabel)
  {
  }

  lemma FixedTextsPlain()
    ensures Plain(NoCaption) && Plain(" ") && Plain(AmountTail)
    ensures Plain(Title) && Plain(Separator)
  {
  }

  lemma NoticeTextsPlain()
    ensures Plain(AccountText) && Plain(BreachText) && Plain(DueText) && Plain(ScanText)
  {
    AccountTextsPlain();
    DueTextsPlain();
  }

  lemma AccountTextsPlain()
    ensures Plain(AccountText) && Plain(BreachText)
  {
  }

  lemma DueTextsPlain()
    ensures Plain(DueText) && Plain(ScanText)
  {
  }

  lemma ChargeTextPlain()
    ensures Plain(ChargeText) && Plain(DebitText)
  {
    var a, b := "Derför uttages en kontrollavgift ", "med belopp     enligt ovan";
    assert Plain(a) && Plain(b);
    PlainConcat(a, b);
    var c, d := "Vid betalning via autogiro ", "ska OCR enges.";
    assert Plain(c) && Plain(d);
    PlainConcat(c, d);
  }

  lemma ObjectionTextPlain()
    ensures Plain(ObjectionText)
  {
    var a, b, c := "Eventuella invändningar ska ", "göras till          ", "forvaltning@resona.se";
    assert Plain(a) && Plain(b) && Plain(c);
    PlainConcat(a, b);
    PlainConcat(a + b, c);
  }

  lemma HeadingShape(v: FormData)
    ensures |Heading(v)| == 12
    ensures forall i :: 0 <= i < 12 ==> GoodLine(Heading(v)[i]) && PlainLine(Heading(v)[i])
  {
    CaptionsPlain();
    FixedTextsPlain();
    FixedGood(" ");
    FixedGood(Title);
    FixedGood(Separator);
    LabeledGood(NoCaption, v.bolag, " ");
    LabeledGood(OcrLabel, v.ocr, " ");
    LabeledGood(IssuerLabel, v.utfardat, " ");
    LabeledGood(PlateLabel, v.regnr, " ");
    LabeledGood(MakeLabel, v.fabrikat, " ");
  }

  lemma DetailsShape(v: FormData)
    ensures |Details(v)| == 13
    ensures forall i :: 0 <= i < 13 ==> GoodLine(Details(v)[i]) && PlainLine(Details(v)[i])
  {
    PeriodShape(v);
    ChecksShape(v);
  }

  lemma PeriodShape(v: FormData)
    ensures |Details(v)| == 13
    ensures forall i :: 0 <= i < 7 ==> GoodLine(Details(v)[i]) && PlainLine(Details(v)[i])
  {
    CaptionsPlain();
    MoreCaptionsPlain();
    FixedGood(" ");
    LabeledGood(FromLabel, v.from, " ");
    LabeledGood(ToLabel, v.to, " ");
    LabeledGood(PlaceLabel, v.plats, " ");
    LabeledGood(AmountLabel, v.belopp, AmountTail);
  }

  lemma ChecksShape(v: FormData)
    ensures forall i :: 7 <= i < 13 ==> GoodLine(Details(v)[i]) && PlainLine(Details(v)[i])
  {
    CaptionsPlain();
    MoreCaptionsPlain();
    FixedGood(" ");
    LabeledGood(ViolationLabel, v.overtr, " ");
    LabeledGood(MarkingLabel, v.vagmark, " ");
    LabeledGood(SignsLabel, v.vagmarken, " ");
    LabeledGood(PhotoLabel, v.foto, " ");
  }

  lemma LayoutShape(v: FormData)
    ensures |Layout(v)| == 25
    ensures GoodLines(Layout(v))
    ensures forall i :: 0 <= i < 25 ==> PlainLine(Layout(v)[i])
  {
    HeadingShape(v);
    DetailsShape(v);
    var h, d := Heading(v), Details(v);
    forall i | 0 <= i < 25
      ensures GoodLine(Layout(v)[i]) && PlainLine(Layout(v)[i])
    {
      if i < 12 {
        assert Layout(v)[i] == h[i];
      } else {
        assert Layout(v)[i] == d[i - 12];
      }
    }
  }

  lemma NoticeShape()
    ensures |Notice| == 17
    ensures GoodLines(Notice)
    ensures forall i :: 0 <= i < 17 ==> PlainLine(Notice[i])
    ensures Notice[16] == ScanLine
  {
    FixedTextsPlain();
    NoticeTextsPlain();
    ChargeTextPlain();
    ObjectionTextPlain();
    FixedGood(" ");
    FixedGood(Separator);
    FixedGood(AccountText);
    FixedGood(BreachText);
    FixedGood(ChargeText);
    FixedGood(DebitText);
    FixedGood(DueText);
    FixedGood(ObjectionText);
    FixedGood(ScanText);
  }

  /** The shared prefix is 42 lines of well-formed text and alignment
      directives (no QR code, no cut), ending with the scan prompt. */
  lemma PrefixShape(v: FormData)
    ensures |PrefixLines(v)| == 42
    ensures GoodLines(PrefixLines(v))
    ensures forall i :: 0 <= i < 42 ==> PlainLine(PrefixLines(v)[i])
    ensures PrefixLines(v)[41] == ScanLine
  {
    LayoutShape(Printed(v));
    NoticeShape();
    GoodLinesConcat(FieldLines(v), Notice);
    var p := PrefixLines(v);
    forall i | 0 <= i < 42
      ensures PlainLine(p[i])
    {
      if i < 25 {
        assert p[i] == FieldLines(v)[i];
      } else {
        assert p[i] == Notice[i - 25];
      }
    }
  }

  // ---------------------------------------------------------------------
  // Reading the printed fields back

  /** The value of a field line with the given caption and tail, unescaped. */
  function ReadField(l: Line, caption: string, tail: string): Option<string> {
    var suffix := tail + Nl;
    if l.Text? && |caption| + |suffix| <= |l.content|
       && StartsWith(l.content, caption) && EndsWith(l.content, suffix)
    then Some(Unescape(l.content[|caption|..|l.content| - |suffix|]))
    else None
  }

  /** The record fields as a reader of the ticket finds them. */
  function ReadFields(lines: seq<Line>): Option<FormData> {
    if |lines| < 25 then None
    else
      var bolag :- ReadField(lines[1], NoCaption, " ");
      var ocr :- ReadField(lines[6], OcrLabel, " ");
      var utfardat :- ReadField(lines[7], IssuerLabel, " ");
      var regnr :- ReadField(lines[9], PlateLabel, " ");
      var fabrikat :- ReadField(lines[10], MakeLabel, " ");
      var from :- ReadField(lines[12], FromLabel, " ");
      var to :- ReadField(lines[13], ToLabel, " ");
      var plats :- ReadField(lines[15], PlaceLabel, " ");
      var belopp :- ReadField(lines[17], AmountLabel, AmountTail);
      var overtr :- ReadField(lines[19], ViolationLabel, " ");
      var vagmark :- ReadField(lines[21], MarkingLabel, " ");
      var vagmarken :- ReadField(lines[22], SignsLabel, " ");
      var foto :- ReadField(lines[23], PhotoLabel, " ");
      Some(FormData(bolag, ocr, utfardat, regnr, fabrikat, from, to, plats,
                    belopp, overtr, vagmark, vagmarken, foto))
  }

  /** Reads the record fields off a ticket document. */
  function ReadTicket(s: string): Option<FormData> {
    var lines :- ParseDoc(s);
    ReadFields(lines)
  }

  /** A field line reads back as the value it was built from. */
  lemma ReadLabeled(caption: string, value: string, tail: string)
    ensures ReadField(Labeled(caption, value, tail), caption, tail) == Some(value)
  {
    var c := caption + Esc(value) + tail + Nl;
    var suffix := tail + Nl;
    assert c == caption + Esc(value) + suffix;
    assert c[..|caption|] == caption;
    assert c[|c| - |suffix|..] == suffix;
    assert c[|caption|..|c| - |suffix|] == Esc(value);
    UnescapeEsc(value);
  }

  /** `ReadFields` assembles the record from the thirteen field lines. */
  lemma ReadFieldsOf(lines: seq<Line>, v: FormData)
    requires |lines| >= 25
    requires ReadField(lines[1], NoCaption, " ") == Some(v.bolag)
    requires ReadField(lines[6], OcrLabel, " ") == Some(v.ocr)
    requires ReadField(lines[7], IssuerLabel, " ") == Some(v.utfardat)
    requires ReadField(lines[9], PlateLabel, " ") == Some(v.regnr)
    requires ReadField(lines[10], MakeLabel, " ") == Some(v.fabrikat)
    requires ReadField(lines[12], FromLabel, " ") == Some(v.from)
    requires ReadField(lines[13], ToLabel, " ") == Some(v.to)
    requires ReadField(lines[15], PlaceLabel, " ") == Some(v.plats)
    requires ReadField(lines[17], AmountLabel, AmountTail) == Some(v.belopp)
    requires ReadField(lines[19], ViolationLabel, " ") == Some(v.overtr)
    requires ReadField(lines[21], MarkingLabel, " ") == Some(v.vagmark)
    requires ReadField(lines[22], SignsLabel, " ") == Some(v.vagmarken)
    requires ReadField(lines[23], PhotoLabel, " ") == Some(v.foto)
    ensures ReadFields(lines) == Some(v)
  {
  }

  lemma ReadAt(lines: seq<Line>, k: nat, caption: string, value: string, tail: string)
    requires k < |lines| && lines[k] == Labeled(caption, value, tail)
    ensures ReadField(lines[k], caption, tail) == Some(value)
  {
    ReadLabeled(caption, value, tail);
  }

  /** Where `Heading` puts the company name. */
  lemma HeadingCompany(v: FormData)
    ensures |Heading(v)| == 12
    ensures Heading(v)[1] == Labeled(NoCaption, v.bolag, " ")
  {
  }

  /** Where `Heading` puts the other header fields. */
  lemma HeadingFields(v: FormData)
    ensures |Heading(v)| == 12
    ensures Heading(v)[6] == Labeled(OcrLabel, v.ocr, " ")
    ensures Heading(v)[7] == Labeled(IssuerLabel, v.utfardat, " ")
    ensures Heading(v)[9] == Labeled(PlateLabel, v.regnr, " ")
    ensures Heading(v)[10] == Labeled(MakeLabel, v.fabrikat, " ")
  {
  }

  /** Where `Details` puts the period. */
  lemma DetailsPeriod(v: FormData)
    ensures |Details(v)| == 13
    ensures Details(v)[0] == Labeled(FromLabel, v.from, " ")
    ensures Details(v)[1] == Labeled(ToLabel, v.to, " ")
  {
  }

  /** Where `Details` puts the place and the amount. */
  lemma DetailsAmount(v: FormData)
    ensures |Details(v)| == 13
    ensures Details(v)[3] == Labeled(PlaceLabel, v.plats, " ")
    ensures Details(v)[5] == Labeled(AmountLabel, v.belopp, AmountTail)
  {
  }

  /** Where `Details` puts the violation and the checks made. */
  lemma DetailsChecks(v: FormData)
    ensures |Details(v)| == 13
    ensures Details(v)[7] == Labeled(ViolationLabel, v.overtr, " ")
    ensures Details(v)[9] == Labeled(MarkingLabel, v.vagmark, " ")
    ensures Details(v)[10] == Labeled(SignsLabel, v.vagmarken, " ")
    ensures Details(v)[11] == Labeled(PhotoLabel, v.foto, " ")
  {
  }

  /** The header fields read back from their places in front of any lines. */
  lemma ReadHeading(v: FormData, lines: seq<Line>)
    requires |lines| >= 25 && lines == Heading(v) + Details(v) + lines[25..]
    ensures ReadField(lines[1], NoCaption, " ") == Some(v.bolag)
    ensures ReadField(lines[6], OcrLabel, " ") == Some(v.ocr)
    ensures ReadField(lines[7], IssuerLabel, " ") == Some(v.utfardat)
    ensures ReadField(lines[9], PlateLabel, " ") == Some(v.regnr)
    ensures ReadField(lines[10], MakeLabel, " ") == Some(v.fabrikat)
  {
    var h := Heading(v);
    HeadingCompany(v);
    HeadingFields(v);
    assert lines[1] == h[1] && lines[6] == h[6] && lines[7] == h[7];
    assert lines[9] == h[9] && lines[10] == h[10];
    ReadAt(lines, 1, NoCaption, v.bolag, " ");
    ReadAt(lines, 6, OcrLabel, v.ocr, " ");
    ReadAt(lines, 7, IssuerLabel, v.utfardat, " ");
    ReadAt(lines, 9, PlateLabel, v.regnr, " ");
    ReadAt(lines, 10, MakeLabel, v.fabrikat, " ");
  }

  /** The period, place and amount read back from their places. */
  lemma ReadPeriod(v: FormData, lines: seq<Line>)
    requires |lines| >= 25 && lines == Heading(v) + Details(v) + lines[25..]
    ensures ReadField(lines[12], FromLabel, " ") == Some(v.from)
    ensures ReadField(lines[13], ToLabel, " ") == Some(v.to)
    ensures ReadField(lines[15], PlaceLabel, " ") == Some(v.plats)
    ensures ReadField(lines[17], AmountLabel, AmountTail) == Some(v.belopp)
  {
    var d := Details(v);
    HeadingCompany(v);
    DetailsPeriod(v);
    DetailsAmount(v);
    assert lines[12] == d[0] && lines[13] == d[1] && lines[15] == d[3] && lines[17] == d[5];
    ReadAt(lines, 12, FromLabel, v.from, " ");
    ReadAt(lines, 13, ToLabel, v.to, " ");
    ReadAt(lines, 15, PlaceLabel, v.plats, " ");
    ReadAt(lines, 17, AmountLabel, v.belopp, AmountTail);
  }

  /** The violation and the checks made read back from their places. */
  lemma ReadChecks(v: FormData, lines: seq<Line>)
    requires |lines| >= 25 && lines == Heading(v) + Details(v) + lines[25..]
    ensures ReadField(lines[19], ViolationLabel, " ") == Some(v.overtr)
    ensures ReadField(lines[21], MarkingLabel, " ") == Some(v.vagmark)
    ensures ReadField(lines[22], SignsLabel, " ") == Some(v.vagmarken)
    ensures ReadField(lines[23], PhotoLabel, " ") == Some(v.foto)
  {
    var d := Details(v);
    HeadingCompany(v);
    DetailsChecks(v);
    assert lines[19] == d[7] && lines[21] == d[9] && lines[22] == d[10] && lines[23] == d[11];
    ReadAt(lines, 19, ViolationLabel, v.overtr, " ");
    ReadAt(lines, 21, MarkingLabel, v.vagmark, " ");
    ReadAt(lines, 22, SignsLabel, v.vagmarken, " ");
    ReadAt(lines, 23, PhotoLabel, v.foto, " ");
  }

  /** Whatever follows the field lines, the fields read back. */
  lemma ReadLayout(v: FormData, rest: seq<Line>)
    ensures ReadFields(Layout(v) + rest) == Some(v)
  {
    var lines := Layout(v) + rest;
    HeadingCompany(v);
    DetailsChecks(v);
    assert lines[25..] == rest;
    ReadHeading(v, lines);
    ReadPeriod(v, lines);
    ReadChecks(v, lines);
    ReadFieldsOf(lines, v);
  }

  /** The fields of the shared prefix read back as printed, whatever follows. */
  lemma ReadPrefixFields(v: FormData, tail: seq<Line>)
    ensures ReadFields(PrefixLines(v) + tail) == Some(Printed(v))
  {
    assert PrefixLines(v) + tail == Layout(Printed(v)) + (Notice + tail);
    ReadLayout(Printed(v), Notice + tail);
  }

  /** A document made of the shared prefix followed by well-formed lines
      reads back as those lines, and its fields read back as printed. */
  lemma ReadPrefixedDocument(v: FormData, tail: seq<Line>)
    requires GoodLines(tail)
    ensures ParseDoc(Document(PrefixLines(v) + tail)) == Some(PrefixLines(v) + tail)
    ensures ReadTicket(Document(PrefixLines(v) + tail)) == Some(Printed(v))
  {
    var lines := PrefixLines(v) + tail;
    PrefixShape(v);
    GoodLinesConcat(PrefixLines(v), tail);
    ParseDocument(lines);
    ReadPrefixFields(v, tail);
  }

  /** The first QR code of a document that starts with the shared prefix
      is the first QR line after it. */
  lemma FirstQrAfterPrefix(v: FormData, tail: seq<Line>)
    ensures FirstQr(PrefixLines(v) + tail) == FirstQr(tail)
  {
    PrefixShape(v);
    FirstQrSkips(PrefixLines(v), tail);
  }

  lemma {:induction false} FirstQrSkips(a: seq<Line>, b: seq<Line>)
    requires forall i :: 0 <= i < |a| ==> !a[i].Qr?
    ensures FirstQr(a + b) == FirstQr(b)
    decreases |a|
  {
    if |a| == 0 {
      assert a + b == b;
    } else {
      assert (a + b)[0] == a[0];
      assert (a + b)[1..] == a[1..] + b;
      FirstQrSkips(a[1..], b);
    }
  }
}
