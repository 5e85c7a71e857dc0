/** The fee form (`KontrollavgiftForm`): its initial record, how a field
    edit changes the record, how the reference (OCR) number is derived from
    the most recently stored fee, what a successful or failed save does, and
    the ticket the create path prints. Store reads and writes and the clock
    are parameters: the model is told whether a read found a record and
    whether a save succeeded, and it is given the date-and-time stamp. */
module KontrollavgiftForm {
  import opened Wrappers
  import opened JsString
  import opened Escape
  import opened Markup
  import opened Ticket

  const DefaultCompany: string := "Säby Kulle Backe ekonomisk förening"
  const FirstOcr: string := "10000"

  /** The record the form starts with. */
  const Initial: FormData :=
    FormData(DefaultCompany, FirstOcr, "", "", "", "", "", "", "700", "", "JA", "JA", "JA")

  /** The ids of the form's inputs, one per record field. */
  datatype FieldId =
    | Bolag | Ocr | Utfardat | Regnr | Fabrikat | From | To | Plats | Belopp
    | Overtr | Vagmark | Vagmarken | Foto

  function Get(f: FormData, id: FieldId): string {
    match id
    case Bolag => f.bolag
    case Ocr => f.ocr
    case Utfardat => f.utfardat
    case Regnr => f.regnr
    case Fabrikat => f.fabrikat
    case From => f.from
    case To => f.to
    case Plats => f.plats
    case Belopp => f.belopp
    case Overtr => f.overtr
    case Vagmark => f.vagmark
    case Vagmarken => f.vagmarken
    case Foto => f.foto
  }

  /** `{ ...prev, [id]: value }` */
  function Set(f: FormData, id: FieldId, value: string): (r: FormData)
    ensures Get(r, id) == value
  {
    match id
    case Bolag => f.(bolag := value)
    case Ocr => f.(ocr := value)
    case Utfardat => f.(utfardat := value)
    case Regnr => f.(regnr := value)
    case Fabrikat => f.(fabrikat := value)
    case From => f.(from := value)
    case To => f.(to := value)
    case Plats => f.(plats := value)
    case Belopp => f.(belopp := value)
    case Overtr => f.(overtr := value)
    case Vagmark => f.(vagmark := value)
    case Vagmarken => f.(vagmarken := value)
    case Foto => f.(foto := value)
  }

  /** Setting one field leaves every other field as it was. */
  lemma SetFrame(f: FormData, id: FieldId, value: string)
    ensures forall j :: j != id ==> Get(Set(f, id, value), j) == Get(f, j)
  {
  }

  /** Two records that agree on every field are the same record. */
  lemma SameFields(f: FormData, g: FormData)
    requires forall j :: Get(f, j) == Get(g, j)
    ensures f == g
  {
    assert Get(f, Bolag) == Get(g, Bolag) && Get(f, Ocr) == Get(g, Ocr);
    assert Get(f, Utfardat) == Get(g, Utfardat) && Get(f, Regnr) == Get(g, Regnr);
    assert Get(f, Fabrikat) == Get(g, Fabrikat) && Get(f, From) == Get(g, From);
    assert Get(f, To) == Get(g, To) && Get(f, Plats) == Get(g, Plats);
    assert Get(f, Belopp) == Get(g, Belopp) && Get(f, Overtr) == Get(g, Overtr);
    assert Get(f, Vagmark) == Get(g, Vagmark) && Get(f, Vagmarken) == Get(g, Vagmarken);
    assert Get(f, Foto) == Get(g, Foto);
  }

  // ---------------------------------------------------------------------
  // Editing

  /** `handleInputChange`: the edited field takes the new value, except the
      reference number, which the form refuses to change. */
  function HandleInput(f: FormData, id: FieldId, value: string): (r: FormData)
    ensures r.ocr == f.ocr
    ensures id != Ocr ==> Get(r, id) == value
  {
    if id == Ocr then f else Set(f, id, value)
  }

  /** An edit changes no field but the one it addresses. */
  lemma HandleInputFrame(f: FormData, id: FieldId, value: string)
    ensures forall j :: j != id ==> Get(HandleInput(f, id, value), j) == Get(f, j)
  {
    SetFrame(f, id, value);
  }

  /** An edit of the reference number changes nothing at all. */
  lemma OcrEditIgnored(f: FormData, value: string)
    ensures HandleInput(f, Ocr, value) == f
  {
    SameFields(HandleInput(f, Ocr, value), f);
  }

  /** Edits of two different fields do not interfere. */
  lemma EditsCommute(f: FormData, i: FieldId, x: string, j: FieldId, y: string)
    requires i != j
    ensures HandleInput(HandleInput(f, i, x), j, y) == HandleInput(HandleInput(f, j, y), i, x)
  {
    var a := HandleInput(HandleInput(f, i, x), j, y);
    var b := HandleInput(HandleInput(f, j, y), i, x);
    HandleInputFrame(f, i, x);
    HandleInputFrame(f, j, y);
    HandleInputFrame(HandleInput(f, i, x), j, y);
    HandleInputFrame(HandleInput(f, j, y), i, x);
    forall k
      ensures Get(a, k) == Get(b, k)
    {
    }
    SameFields(a, b);
  }

  /** Repeating an edit changes nothing more. */
  lemma EditIdempotent(f: FormData, i: FieldId, x: string)
    ensures HandleInput(HandleInput(f, i, x), i, x) == HandleInput(f, i, x)
  {
    var a := HandleInput(HandleInput(f, i, x), i, x);
    var b := HandleInput(f, i, x);
    HandleInputFrame(f, i, x);
    HandleInputFrame(b, i, x);
    forall k
      ensures Get(a, k) == Get(b, k)
    {
    }
    SameFields(a, b);
  }

  // ---------------------------------------------------------------------
  // The reference number from the store

  /** What the query for the most recent stored fee came back with. */
  datatype LatestRead =
    | ReadFailed                  // the query threw
    | NoRecords                   // the collection is empty
    | Latest(ocr: Option<string>) // the newest fee, with its reference number if it has one

  /** `latestBot.ocr || '10000'`: a missing or empty number counts as 10000. */
  function StoredOcr(o: Option<string>): (r: string)
    ensures |r| > 0
    ensures o.Some? && |o.value| > 0 ==> r == o.value
  {
    match o
    case Some(s) => if |s| > 0 then s else FirstOcr
    case None => FirstOcr
  }

  /** `x + 1` on the result of `parseInt`: NaN stays NaN. */
  function Increment(x: Option<int>): (r: Option<int>)
    ensures r.Some? <==> x.Some?
    ensures x.Some? ==> r.value > x.value
  {
    match x
    case Some(n) => Some(n + 1)
    case None => None
  }

  /** The reference number the form starts from. */
  function NextOcr(read: LatestRead): string {
    match read
    case Latest(o) => NumberToString(Increment(ParseInt(StoredOcr(o))))
    case _ => FirstOcr
  }

  /** The effect of `fetchLatestOcr` on the form: the reference number and
      both period fields change, nothing else. */
  function ApplyLatestOcr(prev: FormData, read: LatestRead, stamp: string): (r: FormData)
    ensures read.Latest? ==> ParseInt(r.ocr) == Increment(ParseInt(StoredOcr(read.ocr)))
    ensures !read.Latest? ==> r.ocr == "10000"
    ensures r.from == stamp && r.to == stamp
    ensures forall j :: j != Ocr && j != From && j != To ==> Get(r, j) == Get(prev, j)
  {
    if read.Latest? then
      ParseNumberToString(Increment(ParseInt(StoredOcr(read.ocr))));
      prev.(ocr := NextOcr(read), from := stamp, to := stamp)
    else
      prev.(ocr := NextOcr(read), from := stamp, to := stamp)
  }

  /** The form once the page has mounted and the lookup has answered: the
      default company, amount and checks are still there, both period fields
      carry the stamp, and the number is 10000 unless a stored fee gave
      another. */
  lemma MountedForm(read: LatestRead, stamp: string)
    ensures var r := ApplyLatestOcr(Initial, read, stamp);
      && r.bolag == DefaultCompany && r.belopp == "700"
      && r.vagmark == "JA" && r.vagmarken == "JA" && r.foto == "JA"
      && r.utfardat == "" && r.regnr == "" && r.fabrikat == ""
      && r.plats == "" && r.overtr == ""
      && r.from == stamp && r.to == stamp
      && (read == NoRecords || read == ReadFailed ==> r.ocr == "10000")
      && (read == Latest(None) ==> ParseInt(r.ocr) == Some(10001))
  {
    if read == Latest(None) {
      FirstOcrValue();
    }
  }

  /** Printing a number and reading it back gives the number (or NaN). */
  lemma ParseNumberToString(x: Option<int>)
    ensures ParseInt(NumberToString(x)) == x
  {
    match x
    case Some(n) => ParseIntToString(n);
    case None =>
      assert "NaN"[0] == 'N';
  }

  /** After a stored fee numbered `n` comes `n + 1`; a stored number that
      does not parse gives "NaN". */
  lemma NextOcrFollowsStored(o: Option<string>)
    ensures ParseInt(NextOcr(Latest(o))) == Increment(ParseInt(StoredOcr(o)))
    ensures forall n :: ParseInt(StoredOcr(o)) == Some(n) ==> ParseInt(NextOcr(Latest(o))) == Some(n + 1)
    ensures ParseInt(StoredOcr(o)) == None ==> NextOcr(Latest(o)) == "NaN"
  {
    ParseNumberToString(Increment(ParseInt(StoredOcr(o))));
  }

  lemma FirstOcrValue()
    ensures ParseInt(FirstOcr) == Some(10000)
    ensures IntToString(10001) == "10001"
  {
    assert NatToString(1) == "1";
    assert NatToString(10) == "10";
    assert NatToString(100) == "100";
    assert NatToString(1000) == "100" + "0";
    assert NatToString(10000) == "1000" + "0";
    assert NatToString(10001) == "1000" + "1";
    ParseIntToString(10000);
    assert IntToString(10000) == FirstOcr;
  }

  /** The fallbacks: "10000" when the read fails or finds nothing, "10001"
      when the newest fee has no (or an empty) reference number. */
  lemma NextOcrFallbacks(s: string)
    ensures NextOcr(ReadFailed) == "10000" && NextOcr(NoRecords) == "10000"
    ensures NextOcr(Latest(None)) == "10001"
    ensures |s| == 0 ==> NextOcr(Latest(Some(s))) == "10001"
  {
    FirstOcrValue();
  }

  // ---------------------------------------------------------------------
  // The create path's ticket

  /** The QR payload is JSON in the shape of a Swedish payment QR code. The
      payee name is fixed: it does not come from the record's company. */
  const QrHead: string := "{\"uqr\":1,\"tp\":1,\"nme\":\"" + DefaultCompany + " " + "\",\"iref\":\""
  const QrDue: string := "\",\"due\":"
  const QrTail: string := ",\"pt\":\"BG\",\"acc\":\"5815-6332\"}"

  /** The JSON a scanner of the QR code reads: the reference number as the
      payment reference, the amount as the amount due. */
  function QrJson(v: FormData): string {
    QrHead + v.ocr + QrDue + v.belopp + QrTail
  }

  lemma QrPiecesPlain()
    ensures Plain(QrHead) && Plain(QrDue) && Plain(QrTail)
  {
    QrHeadPlain();
    QrRestPlain();
  }

  lemma QrHeadPlain()
    ensures Plain(QrHead)
  {
    var a, b, c := "{\"uqr\":1,\"tp\":1,\"nme\":\"", DefaultCompany + " ", "\",\"iref\":\"";
    assert Plain(a);
    assert Plain(DefaultCompany);
    assert Plain(" ");
    PlainConcat(DefaultCompany, " ");
    assert Plain(c);
    PlainConcat(a, b);
    PlainConcat(a + b, c);
  }

  lemma QrRestPlain()
    ensures Plain(QrDue) && Plain(QrTail)
  {
  }

  /** What the create path writes between `<qr>` and `</qr>`: exactly the
      escaped JSON. */
  function QrPayload(v: FormData): (r: string)
    ensures r == Esc(QrJson(v))
  {
    QrPiecesPlain();
    PlainNotIn(QrHead);
    PlainNotIn(QrDue);
    PlainNotIn(QrTail);
    EscPlain(QrHead);
    EscPlain(QrDue);
    EscPlain(QrTail);
    EscConcat(QrHead, v.ocr);
    EscConcat(QrHead + v.ocr, QrDue);
    EscConcat(QrHead + v.ocr + QrDue, v.belopp);
    EscConcat(QrHead + v.ocr + QrDue + v.belopp, QrTail);
    QrHead + Esc(v.ocr) + QrDue + Esc(v.belopp) + QrTail
  }

  /** The create path's lines: the shared prefix, the QR code, the cut. */
  function CreateLines(v: FormData): seq<Line> {
    PrefixLines(v) + [Qr(QrPayload(v)), Cut]
  }

  /** `buildXMLTicket` of the form. */
  function BuildTicket(v: FormData): string {
    Document(CreateLines(v))
  }

  lemma QrLineGood(v: FormData)
    ensures GoodLine(Qr(QrPayload(v)))
  {
    EscIsWellEscaped(QrJson(v));
  }

  lemma EscIsWellEscaped(s: string)
    ensures CharData(Esc(s))
  {
    WellEscapedIsCharData(Esc(s));
  }

  lemma CreateLinesGood(v: FormData)
    ensures |CreateLines(v)| == 44
    ensures GoodLines(CreateLines(v))
  {
    PrefixShape(v);
    QrLineGood(v);
    GoodLinesConcat(PrefixLines(v), [Qr(QrPayload(v)), Cut]);
  }

  /** The ticket has 44 lines; the QR code is line 42 and the cut line 43,
      and no other line is a QR code or a cut. */
  lemma CreateLinesShape(v: FormData)
    ensures |CreateLines(v)| == 44
    ensures GoodLines(CreateLines(v))
    ensures CreateLines(v)[..42] == PrefixLines(v)
    ensures forall i :: 0 <= i < 44 ==> (CreateLines(v)[i].Qr? <==> i == 42)
    ensures forall i :: 0 <= i < 44 ==> (CreateLines(v)[i].Cut? <==> i == 43)
  {
    CreateLinesGood(v);
    PrefixShape(v);
    var c := CreateLines(v);
    assert c[..42] == PrefixLines(v);
    forall i | 0 <= i < 42
      ensures !c[i].Qr? && !c[i].Cut?
    {
      assert c[i] == PrefixLines(v)[i];
    }
  }

  /** Reading the ticket back gives its lines, and the record as printed:
      company and registration number upper-cased, everything else as on
      the form. */
  lemma BuildTicketReads(v: FormData)
    ensures ParseDoc(BuildTicket(v)) == Some(CreateLines(v))
    ensures ReadTicket(BuildTicket(v)) == Some(Printed(v))
  {
    QrLineGood(v);
    ReadPrefixedDocument(v, [Qr(QrPayload(v)), Cut]);
  }

  /** The ticket has exactly one root element, and all its character data
      is well escaped. */
  lemma BuildTicketWellFormed(v: FormData)
    ensures Lex(BuildTicket(v)).Some?
    ensures var ts := Lex(BuildTicket(v)).value;
      && ts[0] == Tag(RootOpen) && ts[|ts| - 1] == Tag(RootClose)
      && (forall i :: 0 < i < |ts| ==> ts[i] != Tag(RootOpen))
      && (forall i :: 0 <= i < |ts| - 1 ==> ts[i] != Tag(RootClose))
    ensures forall t :: t in Lex(BuildTicket(v)).value && t.Chars? ==> CharData(t.data)
  {
    CreateLinesShape(v);
    SingleRoot(CreateLines(v));
    DocumentCharData(CreateLines(v));
  }

  /** A reader of JSON shaped like `head`, reference, `due`, amount, `tail`:
      the reference is the text up to the next double quote, the amount the
      text up to the next comma. */
  function ReadQrAs(json: string, head: string, due: string, tail: string): Option<(string, string)> {
    if !StartsWith(json, head) then None
    else
      var rest := json[|head|..];
      var k := Find(rest, '"');
      var after := rest[k..];
      if !StartsWith(after, due) then None
      else
        var end := after[|due|..];
        var m := Find(end, ',');
        if end[m..] == tail then Some((rest[..k], end[..m])) else None
  }

  function ReadQr(json: string): Option<(string, string)> {
    ReadQrAs(json, QrHead, QrDue, QrTail)
  }

  /** The scanner's view of the ticket: the first QR code, decoded from XML
      and read as JSON. */
  function TicketQr(doc: string): Option<(string, string)> {
    var lines :- ParseDoc(doc);
    var payload :- FirstQr(lines);
    ReadQr(Unescape(payload))
  }

  lemma ReadQrAsJson(head: string, ref: string, due: string, amount: string, tail: string)
    requires '"' !in ref && ',' !in amount
    requires |due| > 0 && due[0] == '"' && |tail| > 0 && tail[0] == ','
    ensures ReadQrAs(head + ref + due + amount + tail, head, due, tail) == Some((ref, amount))
  {
    var json := head + ref + due + amount + tail;
    assert json == head + (ref + (due + (amount + tail)));
    assert json[..|head|] == head;
    var rest := json[|head|..];
    assert rest == ref + (due + (amount + tail));
    FindAfter(ref, due + (amount + tail), '"');
    assert rest[..|ref|] == ref;
    var after := rest[|ref|..];
    assert after == due + (amount + tail);
    assert after[..|due|] == due;
    var end := after[|due|..];
    assert end == amount + tail;
    FindAfter(amount, tail, ',');
    assert end[..|amount|] == amount;
    assert end[|amount|..] == tail;
  }

  lemma ReadQrJson(v: FormData)
    requires '"' !in v.ocr && ',' !in v.belopp
    ensures ReadQr(QrJson(v)) == Some((v.ocr, v.belopp))
  {
    assert QrDue[0] == '"' && QrTail[0] == ',';
    ReadQrAsJson(QrHead, v.ocr, QrDue, v.belopp, QrTail);
  }

  /** A scanner of the printed QR code finds the reference number as the
      payment reference and the amount as the amount due, as long as the
      reference has no double quote and the amount no comma (the builder
      does not escape JSON). */
  lemma TicketQrReadsBack(v: FormData)
    requires '"' !in v.ocr && ',' !in v.belopp
    ensures TicketQr(BuildTicket(v)) == Some((v.ocr, v.belopp))
  {
    BuildTicketReads(v);
    FirstQrAfterPrefix(v, [Qr(QrPayload(v)), Cut]);
    UnescapeEsc(QrJson(v));
    ReadQrJson(v);
  }

  /** The payee in the QR code is fixed: the company field plays no part. */
  lemma QrIgnoresCompany(v: FormData, company: string)
    ensures QrPayload(v.(bolag := company)) == QrPayload(v)
  {
  }

  // ---------------------------------------------------------------------
  // Saving and printing

  datatype User = User(uid: string, email: string)

  const PrintedStatus: string := "skriven ut"
  const SentMessage: string := "Kontrollavgift sparad och skickad till skrivare!"
  const FailedMessage: string := "Fel vid sparande"

  /** The document `printViaTM` adds to the store (the server timestamp is
      not modelled). */
  datatype SavedFee = SavedFee(data: FormData, userId: string, userEmail: string, status: string)

  datatype Outcome =
    | Sent(record: SavedFee, form: FormData, ticket: string, message: string)
    | Failed(form: FormData, message: string)

  /** `(parseInt(ocr) + 1).toString()` */
  function Bump(ocr: string): string {
    NumberToString(Increment(ParseInt(ocr)))
  }

  /** The reference number after `k` successful saves. */
  function Bumped(ocr: string, k: nat): string
    decreases k
  {
    if k == 0 then ocr else Bumped(Bump(ocr), k - 1)
  }

  /** Each save moves the number up by one; a number that does not parse
      stays NaN. */
  lemma {:induction false} BumpedValue(ocr: string, k: nat)
    ensures ParseInt(Bumped(ocr, k)) == (if ParseInt(ocr).Some? then Some(ParseInt(ocr).value + k) else None)
    decreases k
  {
    if k > 0 {
      ParseNumberToString(Increment(ParseInt(ocr)));
      BumpedValue(Bump(ocr), k - 1);
    }
  }

  /** The form after a successful save: the reference number advanced by
      one (`(currentOcr + 1).toString()`), every other field kept. */
  function Advance(form: FormData): (r: FormData)
    ensures ParseInt(r.ocr) == Increment(ParseInt(form.ocr))
    ensures r == form.(ocr := r.ocr)
  {
    ParseNumberToString(Increment(ParseInt(form.ocr)));
    form.(ocr := Bump(form.ocr))
  }

  /** `printViaTM`: save the record; on success advance the reference number
      and send the ticket built from the record as it was saved; on failure
      leave the form as it is and send nothing. */
  function PrintViaTM(form: FormData, user: User, saveOk: bool): (r: Outcome)
    ensures r.Sent? <==> saveOk
    ensures r.Failed? ==> r.form == form && r.message == FailedMessage
    ensures r.Sent? ==> r.record.data == form && r.record.status == PrintedStatus
    ensures r.Sent? ==> ParseInt(r.form.ocr) == Increment(ParseInt(form.ocr))
    ensures r.Sent? ==> r.form == form.(ocr := r.form.ocr)
  {
    if saveOk then
      Sent(SavedFee(form, user.uid, user.email, PrintedStatus), Advance(form), BuildTicket(form), SentMessage)
    else
      Failed(form, FailedMessage)
  }

  /** The ticket sent reads back as the record that was saved, not as the
      form after the reference number advanced. */
  lemma PrintedTicketReads(form: FormData, user: User)
    ensures var r := PrintViaTM(form, user, true);
      ReadTicket(r.ticket) == Some(Printed(r.record.data))
  {
    BuildTicketReads(form);
  }

  /** What the user does at the form. */
  datatype Event = Edit(id: FieldId, value: string) | Print(saveOk: bool)

  /** The form after a run of events, and the records of the tickets sent. */
  datatype Trace = Trace(form: FormData, sent: seq<FormData>)

  /** One event: the next form and the record sent, if any. An edit goes
      through the input guard; a print saves and sends the form and advances
      the number when the save succeeds, and changes nothing otherwise. */
  function Step(form: FormData, e: Event): (FormData, seq<FormData>) {
    match e
    case Edit(id, value) => (HandleInput(form, id, value), [])
    case Print(ok) => if ok then (form.(ocr := Bump(form.ocr)), [form]) else (form, [])
  }

  /** A print step is what `printViaTM` does to the form and the store. */
  lemma StepIsPrintViaTM(form: FormData, user: User, ok: bool)
    ensures var r := PrintViaTM(form, user, ok);
      && Step(form, Print(ok)).0 == r.form
      && Step(form, Print(ok)).1 == (if r.Sent? then [r.record.data] else [])
  {
  }

  function Session(form: FormData, events: seq<Event>): Trace
    decreases |events|
  {
    if |events| == 0 then Trace(form, [])
    else
      var (next, out) := Step(form, events[0]);
      var rest := Session(next, events[1..]);
      Trace(rest.form, out + rest.sent)
  }

  /** The records of `sent` carry `ocr`, then the number after it, and so
      on. */
  predicate Counted(sent: seq<FormData>, ocr: string)
    decreases |sent|
  {
    |sent| == 0 || (sent[0].ocr == ocr && Counted(sent[1..], Bump(ocr)))
  }

  lemma {:induction false} CountedConcat(a: seq<FormData>, b: seq<FormData>, ocr: string)
    requires Counted(a, ocr) && Counted(b, Bumped(ocr, |a|))
    ensures Counted(a + b, ocr)
    decreases |a|
  {
    if |a| == 0 {
      assert a + b == b;
    } else {
      assert (a + b)[0] == a[0];
      assert (a + b)[1..] == a[1..] + b;
      CountedConcat(a[1..], b, Bump(ocr));
    }
  }

  /** The k-th record of a counted run carries the number after `k` saves. */
  lemma {:induction false} CountedAt(sent: seq<FormData>, ocr: string, k: nat)
    requires Counted(sent, ocr) && k < |sent|
    ensures sent[k].ocr == Bumped(ocr, k)
    decreases k
  {
    if k > 0 {
      assert sent[k] == sent[1..][k - 1];
      CountedAt(sent[1..], Bump(ocr), k - 1);
    }
  }

  lemma StepCounts(form: FormData, e: Event)
    ensures Step(form, e).0.ocr == Bumped(form.ocr, |Step(form, e).1|)
    ensures Counted(Step(form, e).1, form.ocr)
  {
  }

  /** Over any run of events the form's number is advanced once per ticket
      sent, and the tickets carry the successive numbers. */
  lemma {:induction false} SessionCounts(form: FormData, events: seq<Event>)
    ensures Session(form, events).form.ocr == Bumped(form.ocr, |Session(form, events).sent|)
    ensures Counted(Session(form, events).sent, form.ocr)
    decreases |events|
  {
    if |events| > 0 {
      var (next, out) := Step(form, events[0]);
      var rest := Session(next, events[1..]);
      assert Session(form, events) == Trace(rest.form, out + rest.sent);
      StepCounts(form, events[0]);
      SessionCounts(next, events[1..]);
      CountedConcat(out, rest.sent, form.ocr);
      BumpedConcat(form.ocr, |out|, |rest.sent|);
    }
  }

  lemma {:induction false} BumpedConcat(ocr: string, a: nat, b: nat)
    ensures Bumped(Bumped(ocr, a), b) == Bumped(ocr, a + b)
    decreases a
  {
    if a > 0 {
      BumpedConcat(Bump(ocr), a - 1, b);
    }
  }

  /** Numbers `n`, `n + 1`, ... on a run counted from a number `n`. */
  lemma CountedValue(sent: seq<FormData>, ocr: string, n: int, k: nat)
    requires ParseInt(ocr) == Some(n) && Counted(sent, ocr) && k < |sent|
    ensures ParseInt(sent[k].ocr) == Some(n + k)
  {
    CountedAt(sent, ocr, k);
    BumpedValue(ocr, k);
  }

  /** Distinct counts from a number give distinct numbers. */
  lemma BumpedDistinct(ocr: string, i: nat, j: nat)
    requires ParseInt(ocr).Some? && i != j
    ensures Bumped(ocr, i) != Bumped(ocr, j)
  {
    BumpedValue(ocr, i);
    BumpedValue(ocr, j);
  }

  /** Starting from reference number `n`, the k-th ticket sent carries
      reference number `n + k`, and the form ends at `n` plus the number of
      tickets sent: edits never touch the number and failed saves do not
      advance it. */
  lemma SessionNumbers(form: FormData, events: seq<Event>, n: int, k: nat)
    requires ParseInt(form.ocr) == Some(n)
    ensures ParseInt(Session(form, events).form.ocr) == Some(n + |Session(form, events).sent|)
    ensures k < |Session(form, events).sent| ==> ParseInt(Session(form, events).sent[k].ocr) == Some(n + k)
  {
    var t := Session(form, events);
    SessionCounts(form, events);
    BumpedValue(form.ocr, |t.sent|);
    if k < |t.sent| {
      CountedValue(t.sent, form.ocr, n, k);
    }
  }

  /** Every ticket of a session carries its own reference number, and the
      number a scanner reads back from the printout is that number. */
  lemma SessionTicketsDistinct(form: FormData, events: seq<Event>, n: int, i: nat, j: nat)
    requires ParseInt(form.ocr) == Some(n)
    requires i < j < |Session(form, events).sent|
    ensures var sent := Session(form, events).sent;
      && ReadTicket(BuildTicket(sent[i])).Some?
      && ReadTicket(BuildTicket(sent[j])).Some?
      && ReadTicket(BuildTicket(sent[i])).value.ocr != ReadTicket(BuildTicket(sent[j])).value.ocr
  {
    var sent := Session(form, events).sent;
    SessionCounts(form, events);
    CountedAt(sent, form.ocr, i);
    CountedAt(sent, form.ocr, j);
    BumpedDistinct(form.ocr, i, j);
    BuildTicketReads(sent[i]);
    BuildTicketReads(sent[j]);
  }
}
