# Kontrollavgift tickets and fee list, in Dafny

This project models the core of a small web app for parking attendants. It covers two screens:

- **The form.** An attendant fills in a *kontrollavgift* (a parking control fee): company, reference number (OCR), issuer, plate, make, times, place, amount, violation and three checks. The form saves the record and sends an ePOS-Print XML ticket to a receipt printer.
- **The list.** It shows the stored fees with a payment status, the days until the fee falls due and a colour per status. It sums the amounts, changes or deletes entries, and prints a ticket again.

The model consists of:

- **`Escape`.** The `esc` helper and its three-pass replace form. Also an independent `Unescape`.
- **`Markup`.** An XML token layer. `Render` writes tokens out as text. `Lex` is an independent reader, and the two are proved to round-trip.
- **`Ticket`.** The layout shared by both builders: 42 lines from the root element down to the "Scanna för att betala:" line. It also holds a reader (`ParseDoc`) that turns a document back into its lines, and a field reader (`ReadTicket`) that recovers the record printed on it.
- **`KontrollavgiftForm`.** The initial form, the input guard and the OCR taken from the newest stored fee. Also the create ticket with its JSON QR payload, and the save-then-print step with its OCR increment.
- **`BotList`.** The payment status, days until due, status colours, total amount, the local effect of a status change or a deletion, and the reprint ticket with its underscore-separated QR payload.
- **`JsString`.** The few JavaScript string and number behaviours these files rely on: `parseInt`, `toString` and `toUpperCase`.

The properties of the ticket text are stated through the reader. What a consumer of the document sees is proved to be exactly the intended lines, fields, QR code and cut. The few contracts that state a text's shape directly (`Ticket.Document`, `KontrollavgiftForm.QrPayload`, `BotList.ReprintPayloadEscaped`) are backed by a reader-side lemma that recovers the content from that text.

Times are integer milliseconds since the epoch. The current time is a parameter. Store reads and writes are parameters that say what the store answered.

## Model

| member | source | states |
|---|---|---|
| Escape.Esc | src/components/KontrollavgiftForm.tsx:147 | the escaped text is well escaped: every `&` starts one of the three entity references, and no `<` or `>` is left |
| Escape.EscByStepsIsEsc | src/components/KontrollavgiftForm.tsx:147 | the three chained `replace` passes (`&` first, then `<`, then `>`) equal the character-wise escape, so no pass re-escapes another's output |
| Escape.UnescapeEsc | src/components/KontrollavgiftForm.tsx:147 | escaping loses nothing: decoding the escaped text gives the original back |
| Escape.EscUnescape | src/components/KontrollavgiftForm.tsx:147 | every well-escaped text is the escape of exactly its decoding, so escaping is a bijection onto well-escaped text |
| Escape.EscConcat | src/components/KontrollavgiftForm.tsx:147 | escaping distributes over concatenation, which is what lets a payload built from escaped pieces be read as the escape of the whole |
| Escape.EscPlain | src/components/KontrollavgiftForm.tsx:147 | text free of `&`, `<` and `>` is embedded verbatim |
| Markup.LexRender | src/components/KontrollavgiftForm.tsx:150-198 | a reader that splits text into tags and character runs gets back exactly the tokens the builder wrote |
| Ticket.ParseDocument | src/components/KontrollavgiftForm.tsx:150-198 | reading a built document back line by line gives exactly the lines it was built from |
| Ticket.SingleRoot | src/components/KontrollavgiftForm.tsx:151-198 | the document has one root element: the first token opens it, the last closes it, and neither tag occurs anywhere else |
| Ticket.DocumentCharData | src/components/KontrollavgiftForm.tsx:152-197 | every run of character data in the document is well escaped (line feeds written as `&#10;`) |
| Ticket.PrefixShape | src/components/KontrollavgiftForm.tsx:151-195 | the shared part is 42 well-formed lines with no QR code and no cut, and it ends with the scan prompt |
| Ticket.ReadPrefixedDocument | src/components/KontrollavgiftForm.tsx:151-195 | whatever follows the shared part, a reader finds every field under its own caption, with company and plate upper-cased and all other fields as entered |
| Ticket.DocumentStartsWith | src/components/BotList.tsx:183-228 | a document whose lines extend another's begins with that document's text up to where the first one's lines end |
| JsString.ParseIntToString | src/components/KontrollavgiftForm.tsx:60-63 | `parseInt` of the decimal text `toString` writes gives the number back |
| JsString.ParseIgnoresTrailing | src/components/KontrollavgiftForm.tsx:60 | `parseInt` reads a run of digits and stops at the first character that is not a digit |
| JsString.ToUpperCaseIdempotent | src/components/KontrollavgiftForm.tsx:153 | upper-casing an upper-cased field changes nothing further |
| KontrollavgiftForm.HandleInput | src/components/KontrollavgiftForm.tsx:91-100 | an edit never changes the OCR, and an edit to any other field leaves that field holding the typed value |
| KontrollavgiftForm.HandleInputFrame | src/components/KontrollavgiftForm.tsx:96-99 | an edit keeps every field other than the one it names |
| KontrollavgiftForm.OcrEditIgnored | src/components/KontrollavgiftForm.tsx:94 | an edit addressed to the OCR field leaves the whole form as it was |
| KontrollavgiftForm.EditsCommute | src/components/KontrollavgiftForm.tsx:96-99 | edits to two different fields can be applied in either order |
| KontrollavgiftForm.EditIdempotent | src/components/KontrollavgiftForm.tsx:96-99 | repeating the same edit changes nothing further |
| KontrollavgiftForm.ApplyLatestOcr | src/components/KontrollavgiftForm.tsx:58-84 | when a newest fee is found, the new OCR parses to its stored OCR ("10000" if missing or empty) plus one, NaN staying NaN; when none is found or the read fails, the OCR is "10000"; on every path both times become the current stamp and every other field is kept |
| KontrollavgiftForm.MountedForm | src/components/KontrollavgiftForm.tsx:28-84 | after the page mounts and the lookup answers, the form still holds the default company, amount 700 and the three "JA" checks, both times carry the stamp, and the OCR is "10000" with no record or a failed read and 10001 when the newest fee has no OCR |
| KontrollavgiftForm.NextOcrFollowsStored | src/components/KontrollavgiftForm.tsx:58-65 | the new OCR parses to one more than the stored OCR, or to one more than 10000 when the stored one is empty; a stored value with no leading digits gives "NaN" |
| KontrollavgiftForm.NextOcrFallbacks | src/components/KontrollavgiftForm.tsx:58-84 | no record and a read error both give "10000"; a record with a missing or empty OCR gives "10001" |
| KontrollavgiftForm.CreateLinesShape | src/components/KontrollavgiftForm.tsx:151-198 | the create ticket is the shared 42 lines, then the QR code, then the cut: exactly one QR line and one cut, the QR before the cut |
| KontrollavgiftForm.BuildTicketReads | src/components/KontrollavgiftForm.tsx:146-200 | the ticket text reads back as its lines, and its fields as the form as printed |
| KontrollavgiftForm.BuildTicketWellFormed | src/components/KontrollavgiftForm.tsx:146-200 | the ticket lexes, has a single root element, and all its character data is well escaped |
| KontrollavgiftForm.TicketQrReadsBack | src/components/KontrollavgiftForm.tsx:196 | a scanner that unescapes the first QR code and reads its JSON finds the OCR as `iref` and the amount as `due` |
| KontrollavgiftForm.QrIgnoresCompany | src/components/KontrollavgiftForm.tsx:196 | the QR payload names the default company whatever company the form shows |
| KontrollavgiftForm.Advance | src/components/KontrollavgiftForm.tsx:119-123 | after a save the OCR parses to one more than before (NaN stays NaN) and no other field changes |
| KontrollavgiftForm.PrintViaTM | src/components/KontrollavgiftForm.tsx:106-131 | a ticket is sent iff the save succeeds; a failed save leaves the form unchanged with the error message; a successful one stores the form as it was, with status "skriven ut", and advances the OCR |
| KontrollavgiftForm.PrintedTicketReads | src/components/KontrollavgiftForm.tsx:140 | the ticket sent reads back as the record that was saved, not as the form after the OCR advanced |
| KontrollavgiftForm.BumpedValue | src/components/KontrollavgiftForm.tsx:119-123 | k successive increments of a numeric OCR n give text that parses to n + k; a non-numeric OCR stays NaN |
| KontrollavgiftForm.StepIsPrintViaTM | src/components/KontrollavgiftForm.tsx:106-131 | a print step of a session does to the form, and to the records sent, exactly what the save-then-print handler does |
| KontrollavgiftForm.SessionCounts | src/components/KontrollavgiftForm.tsx:91-131 | over any run of edits and saves the OCR is incremented once per ticket sent, and the tickets carry the starting OCR, then its successor, and so on |
| KontrollavgiftForm.SessionNumbers | src/components/KontrollavgiftForm.tsx:106-131 | over any run of edits and saves from a numeric OCR n, the k-th sent ticket carries n + k and the form ends at n plus the number sent |
| KontrollavgiftForm.SessionTicketsDistinct | src/components/KontrollavgiftForm.tsx:106-140 | when the session starts from an OCR that parses to a number, any two tickets sent in it read back with different OCRs (from a NaN OCR every ticket carries "NaN") |
| BotList.PaymentStatus | src/components/BotList.tsx:98-114 | a non-empty status set by hand wins; otherwise the fee is "förfallen" iff now is strictly after creation plus eight days, else "ej betald" |
| BotList.OverdueStays | src/components/BotList.tsx:98-114 | a fee without a status set by hand that is overdue stays overdue as time passes |
| BotList.DaysUntilDue | src/components/BotList.tsx:116-126 | the result is the rounded-up number of days to the due date: the least r with due minus now at most r days |
| BotList.DaysUntilDueMonotone | src/components/BotList.tsx:116-126 | as time passes the number of days left never grows |
| BotList.DaysUntilDueSign | src/components/BotList.tsx:116-126 | days are left (positive) exactly while the due date lies ahead |
| BotList.DaysUntilDueFromCreation | src/components/BotList.tsx:116-126 | k whole days after creation, 8 − k days are left |
| BotList.StatusAgreesWithDays | src/components/BotList.tsx:298-307 | without a status set by hand, "ej betald" never shows a negative count and "förfallen" never a positive one, and a positive count implies "ej betald" |
| BotList.OverdueWithinFirstDay | src/components/BotList.tsx:110-124 | within the first day past the due date the fee already shows "förfallen" while the count is still 0 |
| BotList.StatusColorDistinguishes | src/components/BotList.tsx:128-141 | the colour is the grey default iff the status is none of the four known ones, and the four known statuses get four different colours |
| BotList.TotalAmountConcat | src/components/BotList.tsx:94-96 | the total of two lists joined is the sum of their totals |
| BotList.TotalAmountNaN | src/components/BotList.tsx:94-96 | the total is NaN iff some fee's amount does not parse |
| BotList.AmountEmpty | src/components/BotList.tsx:95 | an empty amount counts as 0 |
| BotList.UpdateLocal | src/components/BotList.tsx:149-151 | every fee with the id gets the new status, every other fee is unchanged, and the list keeps its length and order |
| BotList.UpdatedStatusShown | src/components/BotList.tsx:98-151 | after a change to a non-empty status, that status is what the list shows for the fee at any time |
| BotList.UpdateLastWins | src/components/BotList.tsx:149-151 | of two successive changes to one fee, only the last counts |
| BotList.UpdatePaymentStatus | src/components/BotList.tsx:143-155 | a failed store write leaves the list unchanged |
| BotList.DeleteLocal | src/components/BotList.tsx:161 | no fee with the id remains and the list does not grow |
| BotList.DeleteKeepsOthers | src/components/BotList.tsx:161 | exactly the fees with another id remain |
| BotList.DeleteConcat | src/components/BotList.tsx:161 | deleting from a list deletes from each part and keeps their order |
| BotList.DeleteAbsent | src/components/BotList.tsx:161 | a list without the id is left as it is |
| BotList.DeleteIdempotent | src/components/BotList.tsx:161 | deleting twice is deleting once |
| BotList.DeleteBot | src/components/BotList.tsx:157-166 | nothing changes unless the user confirms and the store delete succeeds |
| BotList.ReprintPayloadEscaped | src/components/BotList.tsx:229-230 | the reprint payload is the escape of "ocr_belopp_5815-6332", and it and its text copy are well-escaped character data |
| BotList.ReprintLinesShape | src/components/BotList.tsx:183-232 | the reprint is the shared 42 lines, then the QR code, a readable copy of the payload and the cut: one QR line, one cut, the QR first |
| BotList.ReprintReads | src/components/BotList.tsx:179-234 | the reprint reads back as its lines, and its fields as the stored record as printed |
| BotList.ReprintQrReadsBack | src/components/BotList.tsx:229 | a scanner splitting the unescaped first QR code at underscores recovers the OCR and the amount |
| BotList.ReprintSharesPrefix | src/components/BotList.tsx:183-228 | the create ticket and the reprint share their text through the scan prompt and read back the same fields, yet they are different documents |

## Left out

- Firestore: the queries, `addDoc`, `updateDoc` and `deleteDoc` are not modelled. Each becomes a parameter for what the store answered (`LatestRead`, `saveOk`, `writeOk`, `deleteOk`). A rejected write in the list is only logged, so it shows up as the list left unchanged.
- `window.confirm` is the `confirmed` parameter of `BotList.DeleteBot`.
- The URL hand-off to the print assistant (`printViaTM` after the save, and `printBotAgain`) is not modelled. Percent-encoding and navigation are not about the ticket; the model stops at the XML text.
- React state, `setTimeout`, the loading flag and the message timeout are not modelled. Neither is the login screen, the app shell or the image upload helper.
- Time is not modelled beyond a number. The form's date and time stamp is one opaque string parameter. "Eight days later" is a fixed 8 × 86 400 000 ms, so calendar days, daylight saving and locales are not modelled. `createdAt` is always a number: a missing or server-pending timestamp is not represented.
- `parseInt` is modelled as an optional sign followed by the longest run of decimal digits, with NaN when there are none. Leading whitespace, the `0x` prefix and the loss of precision above 2^53 are not modelled. `toString` writes numbers of 10^21 and above in exponent form (`"1e+21"`); `JsString.IntToString` always writes plain digits.
- `toUpperCase` is modelled for ASCII `a`–`z` and every Latin-1 lower-case letter with a one-character upper-case form, including `ÿ` (to U+0178) and the micro sign `µ` (to U+039C). Characters whose upper-case form is longer (such as `ß`), and letters outside Latin-1, are left unchanged.
- `esc` applies `String(s || '')`, which turns `null` or `undefined` into the empty string. Fields are always strings here, so that case is not represented.
- Input ids other than the thirteen form fields cannot be expressed (`FieldId` has thirteen values). The page never sends another id.
- The server timestamp stored with a saved record is not modelled. The record keeps the form, the user's id and e-mail, and the status.
- KontrollavgiftForm.TicketQrReadsBack: requires an OCR without `"` and an amount without `,`. The payload is JSON built without JSON escaping, so other values cannot be read back unambiguously. The page's amount input is numeric, and a generated OCR is digits.
- BotList.ReprintQrReadsBack: requires that neither the OCR nor the amount contains `_`. The reprint joins them with underscores and nothing else, so such values cannot be split back.
- BotList.DaysUntilDue: JavaScript's `Math.ceil` yields −0 for a due date a fraction of a day ago. The model's integers have no signed zero, so that value is 0, which is how the page prints and compares it.

## Notes on the code

- The count of days left is 0, not negative, during the whole first day after the due date. The due-date tag `daysUntilDue > 0` is false there, so no "Förfaller om" tag shows. The overdue tag reads "Förfallen för 0 dagar sedan" at that time (`BotList.OverdueWithinFirstDay`). The count first becomes negative a whole day after the due time.
- The create QR payload always names "Säby Kulle Backe ekonomisk förening", whatever company the form shows (`KontrollavgiftForm.QrIgnoresCompany`).
- The ticket sent after a save is built from the form as it was before the OCR advanced. Its OCR is therefore the saved record's (`KontrollavgiftForm.PrintedTicketReads`).
