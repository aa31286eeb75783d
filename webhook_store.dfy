/**
 * The database side of zatca-webhook/index.ts: updateInvoiceStatus writing the mapped
 * status into the `invoices` and `sync_tracking` tables, logWebhookEvent appending to
 * `sync_logs`, the event dispatcher handleWebhookEvent, and the request handler.
 *
 * The three tables are fields of a Store object. What each database call does (applied,
 * refused with an `error` in its reply, or thrown) is an input, as is the clock.
 */
module WebhookStore {
  import opened Wrappers
  import opened JsValues
  import opened WebhookStatus
  import opened WebhookSignature
  import HexText

  /** What a database call turned out to do. */
  datatype DbOutcome = Applied | ReturnedError | Threw(message: string)

  /** The `invoices` columns the webhook writes, plus the row's identity. */
  datatype InvoiceRow = InvoiceRow(
    id: string,
    syncStatus: string,
    zatcaUuid: Option<string>,
    zatcaQrCode: Option<string>,
    zatcaResponse: Option<ZatcaRecord>,
    updatedAt: Option<string>)

  /** The `sync_tracking` columns the webhook writes, plus the row's identity. */
  datatype TrackingRow = TrackingRow(
    id: string,
    syncStatus: string,
    zatcaUuid: Option<string>,
    zatcaQrCode: Option<string>,
    zatcaResponse: Option<ZatcaRecord>,
    syncTimestamp: Option<string>,
    errorMessage: Option<string>,
    updatedAt: Option<string>)

  /** A `sync_logs` row; `details` is the payload it serialises. */
  datatype LogEntry = LogEntry(
    action: string,
    status: JsonText,
    details: WebhookPayload,
    timestamp: string,
    invoiceId: JsonText,
    requestId: string)

  /** The values one updateInvoiceStatus call writes to every row it matches. */
  datatype Changes = Changes(
    syncStatus: SyncStatus,
    uuid: JsonText,
    qrCode: JsonText,
    record: ZatcaRecord,
    errorMessage: JsonText,
    now: string)

  function ChangesFor(payload: WebhookPayload, now: string): Changes {
    Changes(MapSyncStatus(payload.status), payload.uuid, payload.qrCode,
            ResponseRecord(payload), payload.errorMessage, now)
  }

  /** `.eq('zatca_uuid', uuid)`: a NULL column never equals the key. */
  predicate KeyMatches(column: Option<string>, key: string) {
    column == Some(key)
  }

  /**
   * One column of an update: a property holding undefined is dropped and leaves the column
   * as it was, a null one writes NULL (`None`), a string writes that string.
   */
  function Overwrite(column: Option<string>, value: JsonText): (r: Option<string>)
    ensures value.Text? ==> r == Some(value.text)
    ensures value.Null? ==> r.None?
    ensures value.Absent? ==> r == column
  {
    match value
    case Absent => column
    case Null => None
    case Text(t) => Some(t)
  }

  function UpdatedInvoice(row: InvoiceRow, c: Changes): InvoiceRow {
    row.(syncStatus := StatusText(c.syncStatus),
         zatcaUuid := Overwrite(row.zatcaUuid, c.uuid),
         zatcaQrCode := Overwrite(row.zatcaQrCode, c.qrCode),
         zatcaResponse := Some(c.record),
         updatedAt := Some(c.now))
  }

  function UpdatedTracking(row: TrackingRow, c: Changes): TrackingRow {
    row.(syncStatus := StatusText(c.syncStatus),
         zatcaUuid := Overwrite(row.zatcaUuid, c.uuid),
         zatcaQrCode := Overwrite(row.zatcaQrCode, c.qrCode),
         zatcaResponse := Some(c.record),
         syncTimestamp := Some(c.now),
         errorMessage := Overwrite(row.errorMessage, c.errorMessage),
         updatedAt := Some(c.now))
  }

  /**
   * The `invoices` update: rows whose `zatca_uuid` is the key get the new status, record
   * and time, their uuid and QR code columns overwritten, and keep their identity; every
   * other row is left as it was.
   */
  function UpdateInvoices(rows: seq<InvoiceRow>, key: string, c: Changes): (r: seq<InvoiceRow>)
    ensures |r| == |rows|
    ensures forall i :: 0 <= i < |rows| && !KeyMatches(rows[i].zatcaUuid, key) ==> r[i] == rows[i]
    ensures forall i :: 0 <= i < |rows| && KeyMatches(rows[i].zatcaUuid, key) ==>
      r[i].id == rows[i].id && r[i].syncStatus == StatusText(c.syncStatus) &&
      r[i].zatcaUuid == Overwrite(rows[i].zatcaUuid, c.uuid) &&
      r[i].zatcaQrCode == Overwrite(rows[i].zatcaQrCode, c.qrCode) &&
      r[i].zatcaResponse == Some(c.record) && r[i].updatedAt == Some(c.now)
  {
    seq(|rows|, i requires 0 <= i < |rows| =>
      if KeyMatches(rows[i].zatcaUuid, key) then UpdatedInvoice(rows[i], c) else rows[i])
  }

  /**
   * The `sync_tracking` update, with the same status, record and overwrites as `invoices`,
   * plus the sync time and the error message.
   */
  function UpdateTracking(rows: seq<TrackingRow>, key: string, c: Changes): (r: seq<TrackingRow>)
    ensures |r| == |rows|
    ensures forall i :: 0 <= i < |rows| && !KeyMatches(rows[i].zatcaUuid, key) ==> r[i] == rows[i]
    ensures forall i :: 0 <= i < |rows| && KeyMatches(rows[i].zatcaUuid, key) ==>
      r[i].id == rows[i].id && r[i].syncStatus == StatusText(c.syncStatus) &&
      r[i].zatcaUuid == Overwrite(rows[i].zatcaUuid, c.uuid) &&
      r[i].zatcaQrCode == Overwrite(rows[i].zatcaQrCode, c.qrCode) &&
      r[i].zatcaResponse == Some(c.record) && r[i].syncTimestamp == Some(c.now) &&
      r[i].errorMessage == Overwrite(rows[i].errorMessage, c.errorMessage) &&
      r[i].updatedAt == Some(c.now)
  {
    seq(|rows|, i requires 0 <= i < |rows| =>
      if KeyMatches(rows[i].zatcaUuid, key) then UpdatedTracking(rows[i], c) else rows[i])
  }

  /** The `invoices` table after updateInvoiceStatus, given what its update call did. */
  function InvoicesAfter(rows: seq<InvoiceRow>, payload: WebhookPayload, now: string,
                         invoicesOutcome: DbOutcome): seq<InvoiceRow> {
    if invoicesOutcome.Applied? then UpdateInvoices(rows, ShowText(payload.uuid), ChangesFor(payload, now))
    else rows
  }

  /** The `sync_tracking` table after updateInvoiceStatus: untouched when the first call threw. */
  function TrackingAfter(rows: seq<TrackingRow>, payload: WebhookPayload, now: string,
                         invoicesOutcome: DbOutcome, trackingOutcome: DbOutcome): seq<TrackingRow> {
    if !invoicesOutcome.Threw? && trackingOutcome.Applied? then
      UpdateTracking(rows, ShowText(payload.uuid), ChangesFor(payload, now))
    else rows
  }

  /** What updateInvoiceStatus rethrows: only thrown errors, the first one met. */
  function UpdateThrows(invoicesOutcome: DbOutcome, trackingOutcome: DbOutcome): Option<string> {
    if invoicesOutcome.Threw? then Some(invoicesOutcome.message)
    else if trackingOutcome.Threw? then Some(trackingOutcome.message)
    else None
  }

  /** The audit row logWebhookEvent inserts. */
  function WebhookLogEntry(payload: WebhookPayload, now: string, millisText: string): (e: LogEntry)
    ensures e.action == "zatca_webhook" && e.requestId == "webhook_" + millisText
    ensures e.status == payload.status && e.invoiceId == payload.uuid && e.details == payload
  {
    LogEntry("zatca_webhook", payload.status, payload, now, payload.uuid, "webhook_" + millisText)
  }

  /** `sync_logs` after logWebhookEvent: append-only, one row at most. */
  function LogsAfter(logs: seq<LogEntry>, payload: WebhookPayload, now: string, millisText: string,
                     logOutcome: DbOutcome): (r: seq<LogEntry>)
    ensures logs <= r && |r| <= |logs| + 1
    ensures |r| == |logs| + 1 <==> logOutcome.Applied?
    ensures logOutcome.Applied? ==> r[|logs|] == WebhookLogEntry(payload, now, millisText)
  {
    if logOutcome.Applied? then logs + [WebhookLogEntry(payload, now, millisText)] else logs
  }

  /** The three tables the webhook touches. */
  class Store {
    var invoices: seq<InvoiceRow>
    var syncTracking: seq<TrackingRow>
    var syncLogs: seq<LogEntry>

    constructor(invoices: seq<InvoiceRow>, syncTracking: seq<TrackingRow>, syncLogs: seq<LogEntry>)
      ensures this.invoices == invoices && this.syncTracking == syncTracking
      ensures this.syncLogs == syncLogs
    {
      this.invoices := invoices;
      this.syncTracking := syncTracking;
      this.syncLogs := syncLogs;
    }

    /**
     * updateInvoiceStatus: the `invoices` update, then the `sync_tracking` update, each
     * keyed on the payload's uuid. A returned error is only logged; a thrown one is
     * rethrown, so a throw from the first call skips the second.
     */
    method UpdateInvoiceStatus(payload: WebhookPayload, now: string,
                               invoicesOutcome: DbOutcome, trackingOutcome: DbOutcome)
      returns (thrown: Option<string>)
      modifies this
      ensures invoices == InvoicesAfter(old(invoices), payload, now, invoicesOutcome)
      ensures syncTracking == TrackingAfter(old(syncTracking), payload, now, invoicesOutcome, trackingOutcome)
      ensures syncLogs == old(syncLogs)
      ensures thrown == UpdateThrows(invoicesOutcome, trackingOutcome)
    {
      var syncStatus, record := DetermineStatus(payload);
      var changes := Changes(syncStatus, payload.uuid, payload.qrCode, record, payload.errorMessage, now);
      var key := ShowText(payload.uuid);
      match invoicesOutcome {
        case Threw(message) =>
          thrown := Some(message);
          return;
        case Applied =>
          invoices := UpdateInvoices(invoices, key, changes);
        case ReturnedError =>
      }
      match trackingOutcome {
        case Threw(message) =>
          thrown := Some(message);
          return;
        case Applied =>
          syncTracking := UpdateTracking(syncTracking, key, changes);
        case ReturnedError =>
      }
      thrown := None;
    }

    /** logWebhookEvent: one audit row when the insert succeeds; every failure is swallowed. */
    method LogWebhookEvent(payload: WebhookPayload, now: string, millisText: string, logOutcome: DbOutcome)
      modifies this
      ensures syncLogs == LogsAfter(old(syncLogs), payload, now, millisText, logOutcome)
      ensures invoices == old(invoices) && syncTracking == old(syncTracking)
    {
      if logOutcome.Applied? {
        syncLogs := syncLogs + [WebhookLogEntry(payload, now, millisText)];
      }
    }

    /**
     * handleWebhookEvent: each of the six event names re-sends the payload to
     * updateInvoiceStatus with that name as its status; any other status is only logged
     * to the console.
     */
    method HandleWebhookEvent(payload: WebhookPayload, now: string,
                              invoicesOutcome: DbOutcome, trackingOutcome: DbOutcome)
      returns (thrown: Option<string>)
      modifies this
      ensures payload.status.Text? && payload.status.text in EventTypes ==>
        invoices == InvoicesAfter(old(invoices), payload, now, invoicesOutcome) &&
        syncTracking == TrackingAfter(old(syncTracking), payload, now, invoicesOutcome, trackingOutcome) &&
        thrown == UpdateThrows(invoicesOutcome, trackingOutcome)
      ensures !(payload.status.Text? && payload.status.text in EventTypes) ==>
        invoices == old(invoices) && syncTracking == old(syncTracking) && thrown.None?
      ensures syncLogs == old(syncLogs)
    {
      var eventType := payload.status;
      if eventType == Text("compliance_approved") {
        thrown := UpdateInvoiceStatus(payload.(status := Text("compliance_approved")), now, invoicesOutcome, trackingOutcome);
      } else if eventType == Text("compliance_rejected") {
        thrown := UpdateInvoiceStatus(payload.(status := Text("compliance_rejected")), now, invoicesOutcome, trackingOutcome);
      } else if eventType == Text("reporting_submitted") {
        thrown := UpdateInvoiceStatus(payload.(status := Text("reporting_submitted")), now, invoicesOutcome, trackingOutcome);
      } else if eventType == Text("reporting_failed") {
        thrown := UpdateInvoiceStatus(payload.(status := Text("reporting_failed")), now, invoicesOutcome, trackingOutcome);
      } else if eventType == Text("clearance_approved") {
        thrown := UpdateInvoiceStatus(payload.(status := Text("clearance_approved")), now, invoicesOutcome, trackingOutcome);
      } else if eventType == Text("clearance_rejected") {
        thrown := UpdateInvoiceStatus(payload.(status := Text("clearance_rejected")), now, invoicesOutcome, trackingOutcome);
      } else {
        thrown := None;
      }
    }

    /**
     * The request handler. The signature gate tests an un-awaited Promise and so never
     * throws; a payload without a truthy uuid and status is refused before any write; an
     * error rethrown by updateInvoiceStatus becomes a 400 reply and skips the audit row.
     */
    method Serve(req: WebhookRequest, env: WebhookEnv) returns (response: WebhookResponse)
      modifies this
      ensures req.Preflight? ==>
        response == WebhookResponse(200, PreflightOk) && Unchanged(old(invoices), old(syncTracking), old(syncLogs))
      ensures req.Delivery? && req.payload.Failure? ==>
        response == WebhookResponse(400, Refused(req.payload.error, env.now)) &&
        Unchanged(old(invoices), old(syncTracking), old(syncLogs))
      ensures req.Delivery? && req.payload.Success? && !Acceptable(req.payload.value) ==>
        response == WebhookResponse(400, Refused(InvalidPayload, env.now)) &&
        Unchanged(old(invoices), old(syncTracking), old(syncLogs))
      ensures req.Delivery? && req.payload.Success? && Acceptable(req.payload.value) ==>
        var payload := req.payload.value;
        var thrown := UpdateThrows(env.invoicesOutcome, env.trackingOutcome);
        invoices == InvoicesAfter(old(invoices), payload, env.now, env.invoicesOutcome) &&
        syncTracking == TrackingAfter(old(syncTracking), payload, env.now, env.invoicesOutcome, env.trackingOutcome) &&
        (thrown.Some? ==>
          response == WebhookResponse(400, Refused(thrown.value, env.now)) && syncLogs == old(syncLogs)) &&
        (thrown.None? ==>
          response == WebhookResponse(200, Processed(ProcessedMessage, env.now)) &&
          syncLogs == LogsAfter(old(syncLogs), payload, env.now, env.millisText, env.logOutcome))
    {
      if req.Preflight? {
        return WebhookResponse(200, PreflightOk);
      }
      var pending := VerifyWebhookSignatureAsync(req.signature, env.secret, req.rawBody, env.mac);
      if SignatureGateRejects(pending) {
        assert false;
      }
      if req.payload.Failure? {
        return WebhookResponse(400, Refused(req.payload.error, env.now));
      }
      var payload := req.payload.value;
      if !Acceptable(payload) {
        return WebhookResponse(400, Refused(InvalidPayload, env.now));
      }
      var thrown := UpdateInvoiceStatus(payload, env.now, env.invoicesOutcome, env.trackingOutcome);
      if thrown.Some? {
        return WebhookResponse(400, Refused(thrown.value, env.now));
      }
      LogWebhookEvent(payload, env.now, env.millisText, env.logOutcome);
      response := WebhookResponse(200, Processed(ProcessedMessage, env.now));
    }

    predicate Unchanged(invoices0: seq<InvoiceRow>, tracking0: seq<TrackingRow>, logs0: seq<LogEntry>)
      reads this
    {
      invoices == invoices0 && syncTracking == tracking0 && syncLogs == logs0
    }
  }

  /** A request: a CORS preflight, or a delivery with its header, raw body and parsed JSON. */
  datatype WebhookRequest =
    | Preflight
    | Delivery(signature: Option<string>, rawBody: string, payload: Result<WebhookPayload, string>)

  /**
   * Everything else the handler consults: the secret, HMAC-SHA-256, the clock (`now` as
   * ISO text, `millisText` as `Date.now()` in decimal) and what each database call does.
   */
  datatype WebhookEnv = WebhookEnv(
    secret: Option<string>,
    mac: (string, string) -> Option<seq<HexText.byte>>,
    now: string,
    millisText: string,
    invoicesOutcome: DbOutcome,
    trackingOutcome: DbOutcome,
    logOutcome: DbOutcome)

  datatype WebhookBody =
    | PreflightOk
    | Processed(message: string, timestamp: string)
    | Refused(error: string, timestamp: string)

  datatype WebhookResponse = WebhookResponse(status: nat, body: WebhookBody)

  const InvalidPayload: string := "Invalid webhook payload"
  const ProcessedMessage: string := "Webhook processed successfully"

  /**
   * `!payload.uuid || !payload.status` fails: both are non-empty strings, so the update
   * key is the uuid itself.
   */
  predicate Acceptable(payload: WebhookPayload)
    ensures Acceptable(payload) ==>
      payload.uuid.Text? && payload.status.Text? && ShowText(payload.uuid) == payload.uuid.text
  {
    TextTruthy(payload.uuid) && TextTruthy(payload.status)
  }

  /**
   * Redelivering a payload whose uuid is not null rewrites the same rows with the same
   * values; only the times move to the later delivery's.
   */
  lemma InvoiceRedeliveryKeepsLatest(rows: seq<InvoiceRow>, payload: WebhookPayload, first: string, second: string)
    requires !payload.uuid.Null?
    ensures var key := ShowText(payload.uuid);
      UpdateInvoices(UpdateInvoices(rows, key, ChangesFor(payload, first)), key, ChangesFor(payload, second)) ==
      UpdateInvoices(rows, key, ChangesFor(payload, second))
  {
    var key := ShowText(payload.uuid);
    var once := UpdateInvoices(rows, key, ChangesFor(payload, first));
    var twice := UpdateInvoices(once, key, ChangesFor(payload, second));
    var direct := UpdateInvoices(rows, key, ChangesFor(payload, second));
    forall i | 0 <= i < |rows|
      ensures twice[i] == direct[i]
    {
      if KeyMatches(rows[i].zatcaUuid, key) {
        assert KeyMatches(once[i].zatcaUuid, key);
      }
    }
  }

  lemma TrackingRedeliveryKeepsLatest(rows: seq<TrackingRow>, payload: WebhookPayload, first: string, second: string)
    requires !payload.uuid.Null?
    ensures var key := ShowText(payload.uuid);
      UpdateTracking(UpdateTracking(rows, key, ChangesFor(payload, first)), key, ChangesFor(payload, second)) ==
      UpdateTracking(rows, key, ChangesFor(payload, second))
  {
    var key := ShowText(payload.uuid);
    var once := UpdateTracking(rows, key, ChangesFor(payload, first));
    var twice := UpdateTracking(once, key, ChangesFor(payload, second));
    var direct := UpdateTracking(rows, key, ChangesFor(payload, second));
    forall i | 0 <= i < |rows|
      ensures twice[i] == direct[i]
    {
      if KeyMatches(rows[i].zatcaUuid, key) {
        assert KeyMatches(once[i].zatcaUuid, key);
      }
    }
  }

  /**
   * A payload the handler accepts, delivered twice, every call applied: the tables hold
   * what the second delivery alone would have written, the selected rows keep the sync
   * status of the first, and the audit log has gained one entry per delivery.
   */
  lemma RepeatedDelivery(invoices: seq<InvoiceRow>, tracking: seq<TrackingRow>, logs: seq<LogEntry>,
                         payload: WebhookPayload, first: string, second: string,
                         firstMillis: string, secondMillis: string)
    requires Acceptable(payload)
    ensures var inv1 := InvoicesAfter(invoices, payload, first, Applied);
      var inv2 := InvoicesAfter(inv1, payload, second, Applied);
      inv2 == InvoicesAfter(invoices, payload, second, Applied) &&
      forall i :: 0 <= i < |invoices| && KeyMatches(invoices[i].zatcaUuid, ShowText(payload.uuid)) ==>
        inv2[i].syncStatus == inv1[i].syncStatus
    ensures var trk1 := TrackingAfter(tracking, payload, first, Applied, Applied);
      TrackingAfter(trk1, payload, second, Applied, Applied) ==
      TrackingAfter(tracking, payload, second, Applied, Applied)
    ensures var logs1 := LogsAfter(logs, payload, first, firstMillis, Applied);
      LogsAfter(logs1, payload, second, secondMillis, Applied) ==
      logs + [WebhookLogEntry(payload, first, firstMillis), WebhookLogEntry(payload, second, secondMillis)]
  {
    InvoiceRedeliveryKeepsLatest(invoices, payload, first, second);
    TrackingRedeliveryKeepsLatest(tracking, payload, first, second);
  }

  /**
   * Rows the payload's uuid selects stay selected, so a later update with it finds them
   * again, exactly when the uuid is not null: a null uuid selects the rows holding the
   * text "null" and writes NULL over it.
   */
  lemma MatchedRowsStayMatched(rows: seq<InvoiceRow>, payload: WebhookPayload, now: string, i: nat)
    requires i < |rows| && KeyMatches(rows[i].zatcaUuid, ShowText(payload.uuid))
    ensures var key := ShowText(payload.uuid);
      KeyMatches(UpdateInvoices(rows, key, ChangesFor(payload, now))[i].zatcaUuid, key) <==>
      !payload.uuid.Null?
  {
  }

  /**
   * When both updates are applied, every invoice and every tracking row the uuid selects
   * carries the same sync status and the same response record.
   */
  lemma TablesAgreeAfterUpdate(invoices: seq<InvoiceRow>, tracking: seq<TrackingRow>,
                               payload: WebhookPayload, now: string, i: nat, j: nat)
    requires i < |invoices| && KeyMatches(invoices[i].zatcaUuid, ShowText(payload.uuid))
    requires j < |tracking| && KeyMatches(tracking[j].zatcaUuid, ShowText(payload.uuid))
    ensures var inv := InvoicesAfter(invoices, payload, now, Applied);
      var trk := TrackingAfter(tracking, payload, now, Applied, Applied);
      inv[i].syncStatus == trk[j].syncStatus == StatusText(MapSyncStatus(payload.status)) &&
      inv[i].zatcaResponse == trk[j].zatcaResponse == Some(ResponseRecord(payload))
  {
  }

  /**
   * The event names are not statuses the mapping knows, so a dispatched event always
   * writes `pending`.
   */
  lemma DispatchedEventsWritePending(rows: seq<InvoiceRow>, payload: WebhookPayload, now: string, i: nat)
    requires payload.status.Text? && payload.status.text in EventTypes
    requires i < |rows| && KeyMatches(rows[i].zatcaUuid, ShowText(payload.uuid))
    ensures InvoicesAfter(rows, payload, now, Applied)[i].syncStatus == "pending"
  {
    EventTypesMapToPending(payload.status.text);
  }
}
