/** The list of stored fees (`BotList`): the payment status and the days
    left until the due date, the total amount, the status colours, the local
    effect of a status change or a deletion, and the reprint ticket. Times
    are milliseconds since the epoch and the current time is a parameter;
    store writes are parameters that say whether the write succeeded. */
module BotList {
  import opened Wrappers
  import opened JsString
  import opened Escape
  import opened Markup
  import opened Ticket
  import opened KontrollavgiftForm

  /** A stored fee as the list reads it back. A missing payment status is
      `None`. */
  datatype Bot = Bot(
    id: string,
    data: FormData,
    userEmail: string,
    createdAt: int,
    status: string,
    paymentStatus: Option<string>)

  const Paid: string := "betald"
  const Collection: string := "inkasso"
  const Overdue: string := "förfallen"
  const Unpaid: string := "ej betald"

  /** `1000 * 60 * 60 * 24` */
  const DayMs: int := 1000 * 60 * 60 * 24

  /** A fee falls due eight days after it was created. */
  const DueDays: int := 8

  function DueDate(b: Bot): int {
    b.createdAt + DueDays * DayMs
  }

  /** `if (bot.paymentStatus)`: a status that is present and not empty. */
  predicate HasOverride(b: Bot) {
    b.paymentStatus.Some? && |b.paymentStatus.value| > 0
  }

  /** `getPaymentStatus`: a status set by hand wins; otherwise the fee is
      overdue once the current time is strictly past the due date. */
  function PaymentStatus(b: Bot, now: int): (r: string)
    ensures HasOverride(b) ==> r == b.paymentStatus.value
    ensures !HasOverride(b) ==> (r == Overdue <==> now > DueDate(b))
    ensures !HasOverride(b) ==> (r == Unpaid <==> now <= DueDate(b))
  {
    if HasOverride(b) then b.paymentStatus.value
    else if now > DueDate(b) then Overdue
    else Unpaid
  }

  /** `Math.ceil(x / d)` for a positive divisor, by way of Euclidean
      division: the least `r` with `x <= r * d`. */
  function CeilDiv(x: int, d: int): (r: int)
    requires d > 0
    ensures (r - 1) * d < x <= r * d
  {
    -((-x) / d)
  }

  /** `getDaysUntilDue`: whole days from now to the due date, rounded up. */
  function DaysUntilDue(b: Bot, now: int): (r: int)
    ensures (r - 1) * DayMs < DueDate(b) - now <= r * DayMs
  {
    CeilDiv(DueDate(b) - now, DayMs)
  }

  /** With a positive factor, a product has the sign of the other factor. */
  lemma ProductSign(a: int, d: int)
    requires d > 0
    ensures a * d < 0 <==> a < 0
  {
  }

  /** The rounded-up quotient is the only integer in its window. */
  lemma CeilUnique(x: int, d: int, r: int)
    requires d > 0 && (r - 1) * d < x <= r * d
    ensures r == CeilDiv(x, d)
  {
    var c := CeilDiv(x, d);
    assert (r - 1 - c) * d == (r - 1) * d - c * d;
    ProductSign(r - 1 - c, d);
    assert (c - 1 - r) * d == (c - 1) * d - r * d;
    ProductSign(c - 1 - r, d);
  }

  /** As time passes the number of days left never grows. */
  lemma DaysUntilDueMonotone(b: Bot, now1: int, now2: int)
    requires now1 <= now2
    ensures DaysUntilDue(b, now2) <= DaysUntilDue(b, now1)
  {
    var r1, r2 := DaysUntilDue(b, now1), DaysUntilDue(b, now2);
    assert (r2 - 1 - r1) * DayMs == (r2 - 1) * DayMs - r1 * DayMs;
    ProductSign(r2 - 1 - r1, DayMs);
  }

  /** Days are left exactly while the due date lies ahead. */
  lemma DaysUntilDueSign(b: Bot, now: int)
    ensures DaysUntilDue(b, now) > 0 <==> now < DueDate(b)
    ensures DaysUntilDue(b, now) <= 0 <==> now >= DueDate(b)
  {
    var r := DaysUntilDue(b, now);
    ProductSign(r, DayMs);
    ProductSign(r - 1, DayMs);
  }

  /** On the day of creation eight days are left; a whole day later seven. */
  lemma DaysUntilDueFromCreation(b: Bot, k: int)
    ensures DaysUntilDue(b, b.createdAt + k * DayMs) == DueDays - k
  {
    var x := DueDate(b) - (b.createdAt + k * DayMs);
    assert x == (DueDays - k) * DayMs;
    CeilUnique(x, DayMs, DueDays - k);
  }

  /** Without a status set by hand, the status agrees with the days left:
      an unpaid fee has no negative count, an overdue one no positive count. */
  lemma StatusAgreesWithDays(b: Bot, now: int)
    requires !HasOverride(b)
    ensures PaymentStatus(b, now) == Unpaid ==> DaysUntilDue(b, now) >= 0
    ensures PaymentStatus(b, now) == Overdue ==> DaysUntilDue(b, now) <= 0
    ensures DaysUntilDue(b, now) > 0 ==> PaymentStatus(b, now) == Unpaid
  {
    DaysUntilDueSign(b, now);
    ProductSign(DaysUntilDue(b, now), DayMs);
  }

  /** During the first day past the due date the fee is already overdue but
      the count of days is still 0 (JavaScript's `Math.ceil` gives -0 there). */
  lemma OverdueWithinFirstDay(b: Bot, now: int)
    requires !HasOverride(b)
    requires DueDate(b) < now < DueDate(b) + DayMs
    ensures PaymentStatus(b, now) == Overdue
    ensures DaysUntilDue(b, now) == 0
  {
    CeilUnique(DueDate(b) - now, DayMs, 0);
  }

  /** Once overdue, a fee without a status set by hand stays overdue. */
  lemma OverdueStays(b: Bot, now1: int, now2: int)
    requires !HasOverride(b) && now1 <= now2
    requires PaymentStatus(b, now1) == Overdue
    ensures PaymentStatus(b, now2) == Overdue
  {
  }

  // ---------------------------------------------------------------------
  // Colours

  const Green: string := "#27ae60"
  const Red: string := "#e74c3c"
  const Orange: string := "#e67e22"
  const Amber: string := "#f39c12"
  const Grey: string := "#95a5a6"

  /** `getStatusColor` */
  function StatusColor(s: string): string {
    if s == Paid then Green
    else if s == Collection then Red
    else if s == Overdue then Orange
    else if s == Unpaid then Amber
    else Grey
  }

  predicate KnownStatus(s: string) {
    s == Paid || s == Collection || s == Overdue || s == Unpaid
  }

  lemma ColoursDistinct()
    ensures Green != Red && Green != Orange && Green != Amber && Green != Grey
    ensures Red != Orange && Red != Amber && Red != Grey
    ensures Orange != Amber && Orange != Grey && Amber != Grey
  {
    assert Green == "#27ae60" && Red == "#e74c3c" && Orange == "#e67e22";
    assert Amber == "#f39c12" && Grey == "#95a5a6";
    assert Green[1] != Red[1] && Green[1] != Orange[1] && Green[1] != Amber[1] && Green[1] != Grey[1];
    assert Red[1] != Amber[1] && Red[1] != Grey[1] && Orange[1] != Amber[1] && Orange[1] != Grey[1];
    assert Amber[1] != Grey[1] && Red[2] != Orange[2];
  }

  /** The four known statuses get four different colours, and every other
      text the grey one. */
  lemma StatusColorDistinguishes(s: string, t: string)
    ensures StatusColor(s) != Grey <==> KnownStatus(s)
    ensures KnownStatus(s) && StatusColor(s) == StatusColor(t) ==> s == t
  {
    ColoursDistinct();
  }

  // ---------------------------------------------------------------------
  // Total amount

  /** `parseInt(bot.belopp || '0')` */
  function Amount(b: Bot): Option<int> {
    ParseInt(if |b.data.belopp| > 0 then b.data.belopp else "0")
  }

  /** `+` on numbers that may be NaN. */
  function Add(x: Option<int>, y: Option<int>): (r: Option<int>)
    ensures r.Some? <==> x.Some? && y.Some?
    ensures r.Some? ==> r.value == x.value + y.value
  {
    if x.Some? && y.Some? then Some(x.value + y.value) else None
  }

  /** `getTotalAmount`: `reduce` from the left, starting at 0. */
  function TotalAmount(bots: seq<Bot>): Option<int>
    decreases |bots|
  {
    if |bots| == 0 then Some(0)
    else Add(TotalAmount(bots[..|bots| - 1]), Amount(bots[|bots| - 1]))
  }

  lemma AddAssociative(x: Option<int>, y: Option<int>, z: Option<int>)
    ensures Add(Add(x, y), z) == Add(x, Add(y, z))
  {
  }

  lemma TotalAmountSnoc(init: seq<Bot>, last: Bot)
    ensures TotalAmount(init + [last]) == Add(TotalAmount(init), Amount(last))
  {
    var c := init + [last];
    assert c[..|c| - 1] == init;
  }

  /** The total of two lists together is the sum of their totals. */
  lemma {:induction false} TotalAmountConcat(a: seq<Bot>, b: seq<Bot>)
    ensures TotalAmount(a + b) == Add(TotalAmount(a), TotalAmount(b))
    decreases |b|
  {
    if |b| == 0 {
      assert a + b == a;
    } else {
      var init, last := b[..|b| - 1], b[|b| - 1];
      assert b == init + [last];
      assert a + b == (a + init) + [last];
      TotalAmountSnoc(a + init, last);
      TotalAmountConcat(a, init);
      TotalAmountSnoc(init, last);
      AddAssociative(TotalAmount(a), TotalAmount(init), Amount(last));
    }
  }

  lemma AmountEmpty(b: Bot)
    requires |b.data.belopp| == 0
    ensures Amount(b) == Some(0)
  {
    assert "0"[0] == '0';
    ParseAllDigits("0");
  }

  /** A list of fees with well-formed amounts totals to a number; one amount
      that does not parse makes the total NaN. */
  lemma {:induction false} TotalAmountNaN(bots: seq<Bot>)
    ensures TotalAmount(bots).None? <==> exists i :: 0 <= i < |bots| && Amount(bots[i]).None?
    decreases |bots|
  {
    if |bots| > 0 {
      var init := bots[..|bots| - 1];
      TotalAmountNaN(init);
      if exists i :: 0 <= i < |init| && Amount(init[i]).None? {
        var i :| 0 <= i < |init| && Amount(init[i]).None?;
        assert bots[i] == init[i];
      }
      if exists i :: 0 <= i < |bots| && Amount(bots[i]).None? {
        var i :| 0 <= i < |bots| && Amount(bots[i]).None?;
        if i < |bots| - 1 {
          assert init[i] == bots[i];
        }
      }
    }
  }

  // ---------------------------------------------------------------------
  // Local updates

  function SetStatus(b: Bot, id: string, status: string): Bot {
    if b.id == id then b.(paymentStatus := Some(status)) else b
  }

  /** The local effect of `updatePaymentStatus`: every fee with the id gets
      the new status, the list keeps its order and everything else. */
  function UpdateLocal(bots: seq<Bot>, id: string, status: string): (r: seq<Bot>)
    ensures |r| == |bots|
    ensures forall i :: 0 <= i < |bots| && bots[i].id == id ==> r[i] == bots[i].(paymentStatus := Some(status))
    ensures forall i :: 0 <= i < |bots| && bots[i].id != id ==> r[i] == bots[i]
    decreases |bots|
  {
    if |bots| == 0 then []
    else [SetStatus(bots[0], id, status)] + UpdateLocal(bots[1..], id, status)
  }

  /** `updatePaymentStatus`: the list changes only when the store write
      succeeded. */
  function UpdatePaymentStatus(bots: seq<Bot>, id: string, status: string, writeOk: bool): (r: seq<Bot>)
    ensures !writeOk ==> r == bots
    ensures writeOk ==> r == UpdateLocal(bots, id, status)
  {
    if writeOk then UpdateLocal(bots, id, status) else bots
  }

  /** After a change to a non-empty status, that status is what the list
      shows for the fee, whatever the time. */
  lemma UpdatedStatusShown(bots: seq<Bot>, id: string, status: string, i: nat, now: int)
    requires |status| > 0 && i < |bots| && bots[i].id == id
    ensures PaymentStatus(UpdateLocal(bots, id, status)[i], now) == status
  {
  }

  /** The last change wins. */
  lemma UpdateLastWins(bots: seq<Bot>, id: string, s1: string, s2: string)
    ensures UpdateLocal(UpdateLocal(bots, id, s1), id, s2) == UpdateLocal(bots, id, s2)
  {
    var a := UpdateLocal(UpdateLocal(bots, id, s1), id, s2);
    var b := UpdateLocal(bots, id, s2);
    assert |a| == |b|;
    forall i | 0 <= i < |a|
      ensures a[i] == b[i]
    {
    }
  }

  /** The local effect of `deleteBot`: `filter(bot => bot.id !== botId)`. */
  function DeleteLocal(bots: seq<Bot>, id: string): (r: seq<Bot>)
    ensures |r| <= |bots|
    ensures forall i :: 0 <= i < |r| ==> r[i].id != id
    decreases |bots|
  {
    if |bots| == 0 then []
    else if bots[0].id == id then DeleteLocal(bots[1..], id)
    else [bots[0]] + DeleteLocal(bots[1..], id)
  }

  /** `deleteBot`: nothing happens unless the user confirms and the store
      delete succeeds. */
  function DeleteBot(bots: seq<Bot>, id: string, confirmed: bool, deleteOk: bool): (r: seq<Bot>)
    ensures !(confirmed && deleteOk) ==> r == bots
    ensures confirmed && deleteOk ==> r == DeleteLocal(bots, id)
  {
    if confirmed && deleteOk then DeleteLocal(bots, id) else bots
  }

  /** Deleting from a list is deleting from each part, in order. */
  lemma {:induction false} DeleteConcat(a: seq<Bot>, b: seq<Bot>, id: string)
    ensures DeleteLocal(a + b, id) == DeleteLocal(a, id) + DeleteLocal(b, id)
    decreases |a|
  {
    if |a| == 0 {
      assert a + b == b;
    } else {
      assert (a + b)[0] == a[0];
      assert (a + b)[1..] == a[1..] + b;
      DeleteConcat(a[1..], b, id);
    }
  }

  /** Every other fee stays, in its order: deletion keeps exactly the fees
      with another id. */
  lemma {:induction false} DeleteKeepsOthers(bots: seq<Bot>, id: string)
    ensures forall b :: b in DeleteLocal(bots, id) <==> b in bots && b.id != id
    decreases |bots|
  {
    if |bots| > 0 {
      DeleteKeepsOthers(bots[1..], id);
      assert bots == [bots[0]] + bots[1..];
    }
  }

  /** A list without the id is left as it is. */
  lemma {:induction false} DeleteAbsent(bots: seq<Bot>, id: string)
    requires forall i :: 0 <= i < |bots| ==> bots[i].id != id
    ensures DeleteLocal(bots, id) == bots
    decreases |bots|
  {
    if |bots| > 0 {
      DeleteAbsent(bots[1..], id);
      assert bots == [bots[0]] + bots[1..];
    }
  }

  /** Deleting twice is deleting once. */
  lemma DeleteIdempotent(bots: seq<Bot>, id: string)
    ensures DeleteLocal(DeleteLocal(bots, id), id) == DeleteLocal(bots, id)
  {
    DeleteAbsent(DeleteLocal(bots, id), id);
  }

  // ---------------------------------------------------------------------
  // Reprint

  const Account: string := "5815-6332"
  const QrCaption: string := "QR: "

  /** The reprint's QR payload: reference, amount and account joined by
      underscores, each escaped. */
  function ReprintPayload(b: Bot): string {
    Esc(b.data.ocr) + "_" + Esc(b.data.belopp) + "_" + Account
  }

  /** The reprint's lines: the shared prefix, the QR code, a text copy of
      the payload, the cut. */
  function ReprintLines(b: Bot): seq<Line> {
    PrefixLines(b.data) + ReprintTail(b)
  }

  function ReprintTail(b: Bot): seq<Line> {
    var p := ReprintPayload(b);
    [Qr(p), TextFeed(QrCaption + p), Cut]
  }

  /** `buildXMLTicket` of the list. */
  function ReprintTicket(b: Bot): string {
    Document(ReprintLines(b))
  }

  lemma ReprintPiecesPlain()
    ensures Plain("_") && Plain(Account) && Plain(QrCaption)
  {
  }

  /** The payload is the escaped form of the plain text the code encodes. */
  lemma ReprintPayloadEscaped(b: Bot)
    ensures ReprintPayload(b) == Esc(b.data.ocr + "_" + b.data.belopp + "_" + Account)
    ensures CharData(ReprintPayload(b)) && CharData(QrCaption + ReprintPayload(b))
  {
    var o, m := b.data.ocr, b.data.belopp;
    ReprintPiecesPlain();
    PlainNotIn("_");
    PlainNotIn(Account);
    EscPlain("_");
    EscPlain(Account);
    EscConcat(o, "_");
    EscConcat(o + "_", m);
    EscConcat(o + "_" + m, "_");
    EscConcat(o + "_" + m + "_", Account);
    var p := ReprintPayload(b);
    WellEscapedIsCharData(p);
    PlainCharData(QrCaption);
    CharDataConcat(QrCaption, p);
  }

  lemma ReprintTailGood(b: Bot)
    ensures GoodLines(ReprintTail(b))
  {
    ReprintPayloadEscaped(b);
  }

  lemma ReprintLinesGood(b: Bot)
    ensures GoodLines(ReprintLines(b))
  {
    PrefixShape(b.data);
    ReprintTailGood(b);
    GoodLinesConcat(PrefixLines(b.data), ReprintTail(b));
  }

  /** The reprint has 45 lines: the shared prefix, the QR code at 42, the
      readable copy of its payload at 43, the cut at 44; no other line is a
      QR code or a cut. */
  lemma ReprintLinesShape(b: Bot)
    ensures |ReprintLines(b)| == 45
    ensures GoodLines(ReprintLines(b))
    ensures ReprintLines(b)[..42] == PrefixLines(b.data)
    ensures ReprintLines(b)[43] == TextFeed(QrCaption + ReprintPayload(b))
    ensures forall i :: 0 <= i < 45 ==> (ReprintLines(b)[i].Qr? <==> i == 42)
    ensures forall i :: 0 <= i < 45 ==> (ReprintLines(b)[i].Cut? <==> i == 44)
  {
    PrefixShape(b.data);
    ReprintLinesGood(b);
    var c := ReprintLines(b);
    assert c[..42] == PrefixLines(b.data);
    forall i | 0 <= i < 42
      ensures !c[i].Qr? && !c[i].Cut?
    {
      assert c[i] == PrefixLines(b.data)[i];
    }
  }

  /** The reprint reads back as its lines, and its fields as the fee's
      record as printed. */
  lemma ReprintReads(b: Bot)
    ensures ParseDoc(ReprintTicket(b)) == Some(ReprintLines(b))
    ensures ReadTicket(ReprintTicket(b)) == Some(Printed(b.data))
  {
    ReprintTailGood(b);
    ReadPrefixedDocument(b.data, ReprintTail(b));
  }

  /** A reader of the reprint's QR text: reference up to the first
      underscore, amount up to the next, then the account. */
  function SplitQr(s: string): Option<(string, string)> {
    var k := Find(s, '_');
    if k == |s| then None
    else
      var rest := s[k + 1..];
      var m := Find(rest, '_');
      if m < |rest| && rest[m + 1..] == Account then Some((s[..k], rest[..m])) else None
  }

  lemma SplitQrJoined(o: string, m: string)
    requires '_' !in o && '_' !in m
    ensures SplitQr(o + "_" + m + "_" + Account) == Some((o, m))
  {
    var s := o + "_" + m + "_" + Account;
    assert s == o + ("_" + (m + "_" + Account));
    FindAfter(o, "_" + (m + "_" + Account), '_');
    assert s[..|o|] == o;
    var rest := s[|o| + 1..];
    assert rest == m + ("_" + Account);
    FindAfter(m, "_" + Account, '_');
    assert rest[..|m|] == m;
    assert rest[|m| + 1..] == Account;
  }

  /** What a scanner of a reprint sees: the first QR code of the document,
      unescaped and split into reference and amount. */
  function ReprintQr(doc: string): Option<(string, string)> {
    var lines :- ParseDoc(doc);
    var q :- FirstQr(lines);
    SplitQr(Unescape(q))
  }

  /** A scanner of the reprinted QR code reads the reference number and the
      amount back, as long as neither contains an underscore. */
  lemma ReprintQrReadsBack(b: Bot)
    requires '_' !in b.data.ocr && '_' !in b.data.belopp
    ensures ReprintQr(ReprintTicket(b)) == Some((b.data.ocr, b.data.belopp))
  {
    ReprintReads(b);
    ReprintPayloadEscaped(b);
    FirstQrAfterPrefix(b.data, ReprintTail(b));
    UnescapeEsc(b.data.ocr + "_" + b.data.belopp + "_" + Account);
    SplitQrJoined(b.data.ocr, b.data.belopp);
  }

  /** The create path and the reprint path write the same text up to and
      including the "Scanna för att betala:" line, and read back the same
      fields; they differ only in their QR section. */
  lemma ReprintSharesPrefix(b: Bot)
    ensures StartsWith(BuildTicket(b.data), DocumentHead(PrefixLines(b.data)))
    ensures StartsWith(ReprintTicket(b), DocumentHead(PrefixLines(b.data)))
    ensures ReadTicket(ReprintTicket(b)) == ReadTicket(BuildTicket(b.data))
    ensures ReprintTicket(b) != BuildTicket(b.data)
  {
    var v := b.data;
    DocumentStartsWith(PrefixLines(v), [Qr(QrPayload(v)), Cut]);
    DocumentStartsWith(PrefixLines(v), ReprintTail(b));
    ReprintReads(b);
    BuildTicketReads(v);
    ReprintLinesShape(b);
    CreateLinesShape(v);
  }
}
