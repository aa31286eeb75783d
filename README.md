# ZATCA edge functions in Dafny

A model of the two Supabase edge functions that connect the invoicing app to ZATCA, the Saudi
tax authority's e-invoicing service. The model is written in Dafny and its properties are proved.

* **zatca-invoice-processor** takes an invoice in the body of a request and handles it in order:
  * validates it;
  * computes a fingerprint of it;
  * builds a UBL invoice document;
  * "signs" it;
  * submits it to the compliance, reporting and clearance endpoints.

  It answers 200 with the clearance details, or 400 with the first error.
* **zatca-webhook** receives status callbacks. It does the following:
  * checks an HMAC signature, permissively;
  * maps the remote status to a local sync status;
  * updates the `invoices` and `sync_tracking` rows carrying the callback's UUID;
  * appends an audit row to `sync_logs`.

Modules, one concept each:

| file | module | what it holds |
|---|---|---|
| wrappers.dfy | Wrappers | `Option`, `Result` |
| js_values.dfy | JsValues | JavaScript truthiness, `${x}` of undefined, `\|\|` fallbacks, `trim`, `split`, `join` |
| invoices.dfy | Invoices | the `InvoiceData` record: every field may be absent, item quantity and price may be any JSON value |
| validator.dfy | InvoiceValidator | `validateInvoiceData`, a method that appends errors, and its specification |
| hex_text.dfy | HexText | `toString(16)`, `padStart`, the byte-array hex encoding and its decoder |
| fingerprint.dfy | InvoiceFingerprint | `generateInvoiceHash`: ToInt32 arithmetic, the checksum loop, UTF-16 code units |
| uuid.dfy | InvoiceUuid | `generateUUID` as a template fill over drawn nibbles |
| document.dfy | InvoiceXml | `generateZatcaXml` as a structured document, `formatDate`, `formatTime` |
| pipeline.dfy | SubmissionPipeline | the three `submitToZatca*` result shapes and the processor's `serve` handler |
| webhook_status.dfy | WebhookStatus | the status mapping and the `zatca_response` record |
| webhook_signature.dfy | WebhookSignature | `verifyWebhookSignature` and the un-awaited gate |
| webhook_store.dfy | WebhookStore | the three tables as a `Store` class, the updates, the audit log, the dispatcher and the webhook handler |

Behaviour worth knowing:

* An invoice date the runtime cannot parse is not replaced by the current time. `toISOString`
  throws `RangeError: Invalid time value`, so the request is answered 400 with that message.
* The clearance reply's `success` is never checked. Once reporting passes, the answer is 200
  with `approved`/`submitted`/`cleared`.
* The signature check never rejects. The async check is called without `await`, and a
  Promise is always truthy.
* Webhook database errors are not all best-effort:
  * an error a call returns is only logged;
  * an error a call throws is rethrown, which gives a 400 answer and no audit row;
  * the audit row is not written unconditionally.
* The fingerprint covers the VAT number as well as number, date, customer, total and VAT
  amount. The fingerprint is passed to `generateZatcaXml`, which never writes it.
* A VAT amount of exactly 0 is rejected, because the check is a falsy test.
* The tax rate is a fixed 15%.
* The item list is untyped and the validator never looks inside an item. An item whose price is
  absent, null or not a number makes `item.price.toFixed(2)` throw a TypeError, so the request is
  answered 400 with that message. An absent quantity gives NaN amounts.
* A webhook property sent as JSON `null` is written as NULL, while an absent one leaves its column
  as it was. A `uuid` of null never passes the payload check.
* `handleWebhookEvent` is never called by the webhook handler.

## Model

| member | source | states |
|---|---|---|
| JsValues.OrElse | supabase/functions/zatca-invoice-processor/index.ts:209 | `s \|\| fallback`: the string when it is truthy (present and non-empty), the fallback otherwise |
| JsValues.ShowNumber | supabase/functions/zatca-invoice-processor/index.ts:197 | `${n}` gives the text "undefined" for an absent number and the runtime's rendering otherwise |
| JsValues.TrimEmptyIffAllWhitespace | supabase/functions/zatca-invoice-processor/index.ts:140-146 | `s.trim() === ''` holds exactly when every character is ECMAScript white space or a line terminator |
| JsValues.SplitAtFirst | supabase/functions/zatca-invoice-processor/index.ts:321 | `split` on a text with the separator yields the part before its first occurrence, then the split of the rest |
| JsValues.SplitWithoutSeparator | supabase/functions/zatca-invoice-processor/index.ts:327 | `split` on a text without the separator yields just that text |
| InvoiceValidator.ValidateInvoiceData | supabase/functions/zatca-invoice-processor/index.ts:129-168 | the pushed error list is the specification's list for the invoice, and `isValid` holds exactly when the invoice is valid |
| InvoiceValidator.ErrorListedIffCheckFails | supabase/functions/zatca-invoice-processor/index.ts:132-162 | an error is listed exactly when its check fails, so each check adds its message at most once |
| InvoiceValidator.ErrorsInCheckOrder | supabase/functions/zatca-invoice-processor/index.ts:132-162 | errors appear in the order number, date, customer, VAT number, total, VAT amount, items, company |
| InvoiceValidator.AtMostEightErrors | supabase/functions/zatca-invoice-processor/index.ts:132-162 | at most eight errors are reported |
| InvoiceValidator.ValidIffAllChecksPass | supabase/functions/zatca-invoice-processor/index.ts:164-167 | `isValid` (an empty error list) holds exactly when no check fails |
| InvoiceValidator.MessageInjective | supabase/functions/zatca-invoice-processor/index.ts:132-162 | the eight messages are distinct texts |
| InvoiceValidator.NonPositiveNumberRejected | supabase/functions/zatca-invoice-processor/index.ts:132-134 | an absent, NaN, zero or negative invoice number is reported |
| InvoiceValidator.NonPositiveTotalRejected | supabase/functions/zatca-invoice-processor/index.ts:148-150 | an absent, NaN, zero or negative total is reported |
| InvoiceValidator.VatAmountRejectedIffNotPositive | supabase/functions/zatca-invoice-processor/index.ts:152-154 | a finite VAT amount is reported exactly when it is zero or negative, so 0 is rejected |
| InvoiceValidator.BlankCustomerRejected | supabase/functions/zatca-invoice-processor/index.ts:140-142 | a whitespace-only customer name is reported |
| InvoiceValidator.BlankVatNumberRejected | supabase/functions/zatca-invoice-processor/index.ts:144-146 | a whitespace-only VAT number is reported |
| InvoiceValidator.ValidInvoiceShape | supabase/functions/zatca-invoice-processor/index.ts:132-162 | a valid invoice has a positive number, total and VAT amount, truthy date, customer and VAT number, at least one item and a company |
| HexText.DigitValue | supabase/functions/zatca-webhook/index.ts:113 | reading a digit back gives a value below 16 that renders as that digit |
| HexText.ParseHexOfToHexString | supabase/functions/zatca-invoice-processor/index.ts:183 | `n.toString(16)` reads back as n |
| HexText.ToHexStringLength | supabase/functions/zatca-invoice-processor/index.ts:183 | `n.toString(16)` has at most k digits when n < 16^k |
| HexText.ByteHex | supabase/functions/zatca-webhook/index.ts:113 | one byte gives two lower-case hex digits whose value is the byte |
| HexText.ByteHexIsPaddedRendering | supabase/functions/zatca-webhook/index.ts:113 | `b.toString(16).padStart(2, '0')` is exactly that two-digit text |
| HexText.HexEncode | supabase/functions/zatca-webhook/index.ts:112-114 | the joined rendering of n bytes has 2n characters |
| HexText.HexEncodeIsLowerHex | supabase/functions/zatca-webhook/index.ts:112-114 | the joined rendering holds only lower-case hex digits |
| HexText.HexDecodeOfHexEncode | supabase/functions/zatca-webhook/index.ts:112-114 | the rendering decodes back to the bytes |
| HexText.HexEncodeInjective | supabase/functions/zatca-webhook/index.ts:112-116 | distinct MACs have distinct renderings, so the string comparison compares MACs |
| InvoiceFingerprint.ToInt32Congruent | supabase/functions/zatca-invoice-processor/index.ts:179-180 | the 32-bit conversion ignores multiples of 2^32 |
| InvoiceFingerprint.ToInt32OfInt32 | supabase/functions/zatca-invoice-processor/index.ts:180 | `hash & hash` leaves a 32-bit value unchanged |
| InvoiceFingerprint.Step | supabase/functions/zatca-invoice-processor/index.ts:179-180 | one round of the loop body leaves a 32-bit integer |
| InvoiceFingerprint.Checksum | supabase/functions/zatca-invoice-processor/index.ts:176-181 | the loop's value after any input is a 32-bit integer |
| InvoiceFingerprint.StepIsTimes31 | supabase/functions/zatca-invoice-processor/index.ts:179-180 | `((h << 5) - h) + c` then `& h` is ToInt32(31·h + c) |
| InvoiceFingerprint.ChecksumIsPolynomial | supabase/functions/zatca-invoice-processor/index.ts:176-181 | the loop's value is ToInt32 of the polynomial sum of code units times powers of 31 |
| InvoiceFingerprint.Utf16OfBasicPlane | supabase/functions/zatca-invoice-processor/index.ts:178 | `charCodeAt` over a text of characters below U+10000 gives one code unit per character, equal to its code point |
| InvoiceFingerprint.MagnitudeDigits | supabase/functions/zatca-invoice-processor/index.ts:183 | `Math.abs(hash).toString(16)` of a 32-bit value has at most 8 digits |
| InvoiceFingerprint.GenerateInvoiceHash | supabase/functions/zatca-invoice-processor/index.ts:171-184 | the digest is determined by the six fields, has 1 to 8 lower-case hex digits and reads back as the magnitude of the folded polynomial |
| InvoiceUuid.VariantNibble | supabase/functions/zatca-invoice-processor/index.ts:313 | `r & 0x3 \| 0x8` is 8 + r mod 4 |
| InvoiceUuid.Fill | supabase/functions/zatca-invoice-processor/index.ts:311-315 | the replacement keeps the length; every `x` becomes a hex digit, every `y` one of 8, 9, a, b, and other characters stay |
| InvoiceUuid.ReadBackOfFill | supabase/functions/zatca-invoice-processor/index.ts:311-315 | the filled text carries each drawn nibble, with only the low two bits kept for `y` |
| InvoiceUuid.TemplatePlaceholders | supabase/functions/zatca-invoice-processor/index.ts:311 | the template is 36 characters long with 31 placeholders, so 31 draws are made |
| InvoiceUuid.GenerateUuid | supabase/functions/zatca-invoice-processor/index.ts:310-316 | the result is a version-4 UUID text |
| InvoiceUuid.UuidLayout | supabase/functions/zatca-invoice-processor/index.ts:311-314 | length 36, hyphens at 8, 13, 18 and 23, `4` at 14, and 8, 9, a or b at 19 |
| InvoiceUuid.SameUuidIffSameKept | supabase/functions/zatca-invoice-processor/index.ts:310-316 | two draws give the same UUID exactly when they agree on every kept nibble |
| InvoiceUuid.FillDeterminedByKept | supabase/functions/zatca-invoice-processor/index.ts:311-315 | draws that keep the same nibbles fill the template identically |
| InvoiceXml.Timestamp | supabase/functions/zatca-invoice-processor/index.ts:320-321 | `new Date(s).toISOString()` succeeds exactly when the date is present and parses; otherwise it fails with "Invalid time value" |
| InvoiceXml.FormatDate | supabase/functions/zatca-invoice-processor/index.ts:319-322 | the part before `T` of the ISO text is the date part |
| InvoiceXml.FormatTime | supabase/functions/zatca-invoice-processor/index.ts:325-328 | the part between `T` and `.` of the ISO text is the time of day without milliseconds |
| InvoiceXml.ToFixedError | supabase/functions/zatca-invoice-processor/index.ts:302 | `price.toFixed(2)` throws exactly when the price is not a number: the undefined, null and "is not a function" TypeErrors |
| InvoiceXml.PriceError | supabase/functions/zatca-invoice-processor/index.ts:277-305 | the item lines throw exactly when some price is not a number, and then the error of the first such item |
| InvoiceXml.BuildLine | supabase/functions/zatca-invoice-processor/index.ts:281-286 | a line's taxable amount is its extension amount, and its tax is 15% of it, NaN when the extension is NaN |
| InvoiceXml.GenerateZatcaXml | supabase/functions/zatca-invoice-processor/index.ts:187-307 | the build fails exactly when the invoice date cannot be read or some item's price is not a number, with "Invalid time value" first and the first item's TypeError otherwise; on success LineCountNumeric equals the number of lines and of items, and the UUID is a version-4 UUID |
| InvoiceXml.LinesFollowItems | supabase/functions/zatca-invoice-processor/index.ts:277-305 | on success every price is a number and line i+1 carries item i's quantity, price, extension amount, name and description (or ""); an absent quantity makes the line's amounts NaN |
| InvoiceXml.LineTaxSumIsRate | supabase/functions/zatca-invoice-processor/index.ts:283 | lines taxed at 15% each have taxes summing to 15% of their extension amounts, NaN included |
| InvoiceXml.LineTaxesAreFifteenPercent | supabase/functions/zatca-invoice-processor/index.ts:277-305 | the document's line taxes sum to 15% of its line extension amounts |
| InvoiceXml.PartyFallbacks | supabase/functions/zatca-invoice-processor/index.ts:206-247 | a falsy VAT number becomes fifteen zeros, a falsy seller name "Company Name", and the buyer name is the customer |
| InvoiceXml.TotalsBalance | supabase/functions/zatca-invoice-processor/index.ts:254-275 | taxable = total − VAT; tax = VAT; taxable + tax = payable = tax-inclusive = total |
| InvoiceXml.IssueStampFromInvoiceDate | supabase/functions/zatca-invoice-processor/index.ts:200-201 | issue date and time are the date and time parts of the invoice date's ISO text |
| InvoiceXml.RebuildDiffersOnlyInUuid | supabase/functions/zatca-invoice-processor/index.ts:187-199 | two builds of one invoice differ only in the UUID, whatever hash is passed, and the UUIDs agree only when the draws keep the same nibbles |
| SubmissionPipeline.SubmitStage | supabase/functions/zatca-invoice-processor/index.ts:346-393 | success exactly when the reply is ok; otherwise the error is the response text or the thrown message |
| SubmissionPipeline.SubmitClearance | supabase/functions/zatca-invoice-processor/index.ts:396-423 | on success the uuid falls back to a fresh UUID and the QR code to `QR_CODE_PLACEHOLDER`; on failure only the error is set |
| SubmissionPipeline.ErrorList | supabase/functions/zatca-invoice-processor/index.ts:65 | `errors.join(', ')`: empty for no errors, the single message, or the first message, ", " and the join of the rest |
| SubmissionPipeline.DigitallySign | supabase/functions/zatca-invoice-processor/index.ts:331-343 | signing returns the document unchanged |
| SubmissionPipeline.Reject | supabase/functions/zatca-invoice-processor/index.ts:111-124 | a caught error becomes a 400 answer carrying its message |
| SubmissionPipeline.Process | supabase/functions/zatca-invoice-processor/index.ts:58-124 | the stages run are a prefix of the pipeline; the answer is 200 exactly when it is a submission and every stage ran, otherwise 400 |
| SubmissionPipeline.Serve | supabase/functions/zatca-invoice-processor/index.ts:48-126 | OPTIONS is answered "ok" with no stage run; any other method is answered 200 exactly when it is submitted |
| SubmissionPipeline.MissingInvoiceRejected | supabase/functions/zatca-invoice-processor/index.ts:58-60 | no invoice: 400 "Invoice data is required", nothing run |
| SubmissionPipeline.ValidationFailureStopsEarly | supabase/functions/zatca-invoice-processor/index.ts:63-66 | an invalid invoice: only validation runs, and the error is "Invoice validation failed: " and the messages joined by ", " in check order |
| SubmissionPipeline.InvalidDateStopsBeforeSubmission | supabase/functions/zatca-invoice-processor/index.ts:69-72 | an unreadable date: 400 "Invalid time value" after building, before signing or any submission |
| SubmissionPipeline.BadPriceStopsBeforeSubmission | supabase/functions/zatca-invoice-processor/index.ts:69-72 | a valid invoice with a readable date and a non-numeric price: 400 with the first such item's TypeError after building, before signing or any submission |
| SubmissionPipeline.ComplianceFailureSkipsLaterStages | supabase/functions/zatca-invoice-processor/index.ts:78-81 | a failed compliance check: the answer is the same whatever reporting and clearance would reply; the error is "Compliance check failed: " and the reply's error |
| SubmissionPipeline.ReportingFailureSkipsClearance | supabase/functions/zatca-invoice-processor/index.ts:82-106 | a failed reporting submission: the answer is the same whatever clearance would reply; the error is "Reporting failed: " and the reply's error |
| SubmissionPipeline.SubmittedWhateverClearanceReplies | supabase/functions/zatca-invoice-processor/index.ts:84-103 | after compliance and reporting pass, the answer is 200 with approved/submitted/cleared and the request id, whatever clearance replied |
| SubmissionPipeline.SucceedsIffAllGatesPass | supabase/functions/zatca-invoice-processor/index.ts:58-109 | 200 exactly when the invoice is valid, its date readable, every item's price a number, and compliance and reporting accept it |
| WebhookStatus.MapSyncStatus | supabase/functions/zatca-webhook/index.ts:129-151 | approved/cleared → completed, rejected/failed → failed, processing → in_progress, anything else → pending, each an if-and-only-if |
| WebhookStatus.StatusTextInjective | supabase/functions/zatca-webhook/index.ts:129-151 | distinct sync statuses are written as distinct column texts |
| WebhookStatus.ResponseRecord | supabase/functions/zatca-webhook/index.ts:130-148 | the record always carries uuid, status, timestamp and the stage statuses; `qr_code` only when completed and truthy; `error_message` only when failed and truthy |
| WebhookStatus.DetermineStatus | supabase/functions/zatca-webhook/index.ts:129-151 | the reassigned status and the mutated record are the mapping's status and the specified record |
| WebhookStatus.EventTypesMapToPending | supabase/functions/zatca-webhook/index.ts:219-244 | each of the six event names maps to pending |
| WebhookSignature.VerifyWebhookSignature | supabase/functions/zatca-webhook/index.ts:84-121 | a missing or empty signature or secret is accepted |
| WebhookSignature.AcceptedSignatureIsMacText | supabase/functions/zatca-webhook/index.ts:92-120 | with both present, accepted exactly when the MAC is computed and the signature equals its rendering; an accepted signature has 2n lower-case hex digits and decodes to the MAC |
| WebhookSignature.MalformedSignatureRejected | supabase/functions/zatca-webhook/index.ts:112-116 | a signature with upper-case or non-hex characters, or an odd length, is rejected |
| WebhookSignature.MacFailureRejects | supabase/functions/zatca-webhook/index.ts:117-120 | a MAC computation that throws rejects a present signature |
| WebhookSignature.VerifyWebhookSignatureAsync | supabase/functions/zatca-webhook/index.ts:84 | the async call hands back a Promise settling to the check's result |
| WebhookSignature.SignatureGateNeverRejects | supabase/functions/zatca-webhook/index.ts:32-34 | the un-awaited gate never throws "Invalid webhook signature" |
| WebhookStore.Overwrite | supabase/functions/zatca-webhook/index.ts:156-162 | an update property holding undefined leaves its column as it was, a null one writes NULL, a string writes that string |
| WebhookStore.UpdateInvoices | supabase/functions/zatca-webhook/index.ts:154-163 | same row count; rows whose `zatca_uuid` is not the key are unchanged; matched rows keep their id, get the status, record and time, and have `zatca_uuid` and `zatca_qr_code` overwritten by the payload's |
| WebhookStore.UpdateTracking | supabase/functions/zatca-webhook/index.ts:170-181 | the same for `sync_tracking`, with `sync_timestamp` and `updated_at` set and `error_message` overwritten too |
| WebhookStore.WebhookLogEntry | supabase/functions/zatca-webhook/index.ts:200-207 | the audit row has action "zatca_webhook", the payload's status and uuid, the payload as details and "webhook_" plus the clock's milliseconds as request id |
| WebhookStore.LogsAfter | supabase/functions/zatca-webhook/index.ts:196-216 | the log only grows, by exactly one entry when the insert succeeds and none otherwise |
| WebhookStore.Store.UpdateInvoiceStatus | supabase/functions/zatca-webhook/index.ts:124-193 | a returned error does not stop the second update; a thrown one skips it and is rethrown; the log is untouched |
| WebhookStore.Store.LogWebhookEvent | supabase/functions/zatca-webhook/index.ts:196-216 | appends the audit row when the insert applies, swallows every failure and touches no other table |
| WebhookStore.Store.HandleWebhookEvent | supabase/functions/zatca-webhook/index.ts:219-310 | the six event names run the update with the payload; any other status changes nothing; the handler never calls it |
| WebhookStore.Acceptable | supabase/functions/zatca-webhook/index.ts:39-41 | a payload passes only with string uuid and status, so the update key is the uuid itself |
| WebhookStore.Store.Serve | supabase/functions/zatca-webhook/index.ts:21-81 | preflight, unparsable body and a payload without truthy uuid and status change nothing (the last answered "Invalid webhook payload"); otherwise both updates run, and the answer is 400 on a thrown update error with no audit row, else 200 "Webhook processed successfully" with the audit row; signature and secret play no part |
| WebhookStore.InvoiceRedeliveryKeepsLatest | supabase/functions/zatca-webhook/index.ts:154-163 | for a uuid that is not null, updating twice with one payload equals updating once at the later time |
| WebhookStore.TrackingRedeliveryKeepsLatest | supabase/functions/zatca-webhook/index.ts:170-181 | the same for `sync_tracking` |
| WebhookStore.RepeatedDelivery | supabase/functions/zatca-webhook/index.ts:39-52 | a redelivered payload that passes the payload check leaves the same sync status and adds one more log entry |
| WebhookStore.MatchedRowsStayMatched | supabase/functions/zatca-webhook/index.ts:158-163 | a row the uuid selects still carries that uuid after the update exactly when the uuid is not null |
| WebhookStore.TablesAgreeAfterUpdate | supabase/functions/zatca-webhook/index.ts:154-185 | matched rows of both tables get the same sync status and response record |
| WebhookStore.DispatchedEventsWritePending | supabase/functions/zatca-webhook/index.ts:219-310 | a dispatched event writes "pending" into every matched invoice |

## Left out

- HTTP serving, CORS headers and `req.json()` are left out. A request is a datatype with the
  parsed body or the parse error message.
- The `fetch` calls to the ZATCA endpoints are left out. Each stage's reply is a function of
  the document, in the environment: ok, an HTTP error text, or a thrown message.
- The Supabase client is replaced by the `Store` class. Whether each call applied, returned an
  error or threw is an input.
- `crypto.subtle` HMAC-SHA-256 and `TextEncoder` are one uninterpreted function of secret and
  body. It is None when the Web Crypto calls throw.
- `Math.random` is replaced by a sequence of 31 nibbles per UUID.
- `new Date()` is one clock text per request. `Date.now()` in the audit row's request id is a
  separate reading, an independent input (`WebhookEnv.millisText`). The separate calls for
  `updated_at` and `sync_timestamp` are assumed to give the same text.
- Date parsing is a parameter giving the ISO instant's date, time and millisecond parts, or
  None for an invalid date.
- Number-to-string conversion (`${invoice.no}`, `${item.quantity}` and the numbers in the
  fingerprint's input) is a parameter. The fingerprint's input is taken as its text.
- Money is kept as exact reals. `toFixed(2)` rendering and floating-point rounding of
  `price * quantity * 0.15` are left out.
- Invoices.InvoiceData: a present invoice field always has the type the TypeScript interface
  declares, so these inputs of the untyped request body are not represented:
  - a number as `customer` or `vatNo`, where `trim()` throws a TypeError during validation and
    that message becomes the 400 error;
  - a string as `total` or `vatAmount`, which passes validation (`"100" <= 0` is false) and then
    makes `toFixed(2)` throw while the document is built;
  - a non-numeric string as `no`, such as "INV-7", which passes the invoice-number check;
  - a truthy non-array `items`, such as `{}`, which passes the items check and makes
    `items.map` throw;
  - an item `name` of null, which is rendered as "null" rather than "undefined".
- Invoices.LineItem: an item that is null or not an object is not represented, so the TypeError
  of reading its `quantity` is not modelled.
- WebhookStatus.WebhookPayload: webhook properties that are numbers, booleans or objects
  rather than strings or null are not represented.
- `Infinity` amounts are left out. The document is built only for finite total and VAT amount.
- The XML is a structured `Document`, not its text. Namespaces, fixed header elements such as
  UBLVersionID, and the JSON encoding of the request body are left out.
- The `now` computed at the top of `generateZatcaXml` is never used.
- `digitallySignInvoice` returns its input, so it is the identity. The `CERT_CONFIG` values are unused.
- The logging in every `console.*` call is left out.
- A webhook payload whose JSON is not an object is folded into the parse-error case.
- `JSON.stringify(payload)` in the audit row is kept as the payload itself.
- The Android and Gradle files are not part of this model. They are build configuration and
  platform glue.
- The signature gate's `throw new Error('Invalid webhook signature')` is unreachable.
  `WebhookStore.Store.Serve` marks it as dead code instead of modelling the throw.
