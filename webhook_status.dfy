/**
 * The first half of updateInvoiceStatus in zatca-webhook/index.ts: the local sync
 * status chosen for the remote status, and the `zatca_response` record stored with it.
 */
module WebhookStatus {
  import opened Wrappers
  import opened JsValues

  /**
   * A string property of the parsed webhook body: absent, JSON `null`, or a string. The
   * two empty cases differ downstream: an undefined property is dropped from an update
   * object, a null one is written as NULL.
   */
  datatype JsonText = Absent | Null | Text(text: string)

  /** `!!f`: undefined, null and "" are falsy. */
  predicate TextTruthy(f: JsonText) {
    f.Text? && f.text != ""
  }

  /** `${f}`: the texts "undefined" and "null" for the two empty cases. */
  function ShowText(f: JsonText): (r: string)
    ensures f.Text? ==> r == f.text
    ensures f.Absent? ==> r == "undefined"
    ensures f.Null? ==> r == "null"
  {
    match f
    case Absent => "undefined"
    case Null => "null"
    case Text(t) => t
  }

  /** The webhook body. Every property may be absent or null. */
  datatype WebhookPayload = WebhookPayload(
    uuid: JsonText,
    status: JsonText,
    timestamp: JsonText,
    invoiceHash: JsonText,
    qrCode: JsonText,
    errorMessage: JsonText,
    complianceStatus: JsonText,
    reportingStatus: JsonText,
    clearanceStatus: JsonText)

  /** The values written to the `sync_status` columns. */
  datatype SyncStatus = Pending | Completed | Failed | InProgress

  /** The column text of each status. */
  function StatusText(s: SyncStatus): string {
    match s
    case Pending => "pending"
    case Completed => "completed"
    case Failed => "failed"
    case InProgress => "in_progress"
  }

  lemma StatusTextInjective(a: SyncStatus, b: SyncStatus)
    requires StatusText(a) == StatusText(b)
    ensures a == b
  {
  }

  predicate IsApproved(status: JsonText) {
    status == Text("approved") || status == Text("cleared")
  }

  predicate IsRejected(status: JsonText) {
    status == Text("rejected") || status == Text("failed")
  }

  predicate IsProcessing(status: JsonText) {
    status == Text("processing")
  }

  /** The status mapping: total, with everything unrecognised left pending. */
  function MapSyncStatus(status: JsonText): (r: SyncStatus)
    ensures r == Completed <==> IsApproved(status)
    ensures r == Failed <==> IsRejected(status)
    ensures r == InProgress <==> IsProcessing(status)
    ensures r == Pending <==> !IsApproved(status) && !IsRejected(status) && !IsProcessing(status)
  {
    if IsApproved(status) then Completed
    else if IsRejected(status) then Failed
    else if IsProcessing(status) then InProgress
    else Pending
  }

  /**
   * The `zatca_response` object. Properties holding undefined are dropped when it is
   * serialised, which `Absent` stands for here; null ones are kept as null.
   */
  datatype ZatcaRecord = ZatcaRecord(
    uuid: JsonText,
    status: JsonText,
    timestamp: JsonText,
    complianceStatus: JsonText,
    reportingStatus: JsonText,
    clearanceStatus: JsonText,
    qrCode: JsonText,
    errorMessage: JsonText)

  /**
   * The record stored for a payload: always its identity, status, time and stage
   * statuses; the QR code only when completed and the error only when failed, each only
   * when truthy.
   */
  function ResponseRecord(payload: WebhookPayload): (r: ZatcaRecord)
    ensures r.uuid == payload.uuid && r.status == payload.status && r.timestamp == payload.timestamp
    ensures r.complianceStatus == payload.complianceStatus
    ensures r.reportingStatus == payload.reportingStatus
    ensures r.clearanceStatus == payload.clearanceStatus
    ensures !r.qrCode.Absent? <==> MapSyncStatus(payload.status) == Completed && TextTruthy(payload.qrCode)
    ensures !r.qrCode.Absent? ==> r.qrCode == payload.qrCode
    ensures !r.errorMessage.Absent? <==> MapSyncStatus(payload.status) == Failed && TextTruthy(payload.errorMessage)
    ensures !r.errorMessage.Absent? ==> r.errorMessage == payload.errorMessage
  {
    var base := ZatcaRecord(payload.uuid, payload.status, payload.timestamp,
                            payload.complianceStatus, payload.reportingStatus,
                            payload.clearanceStatus, Absent, Absent);
    if IsApproved(payload.status) then
      if TextTruthy(payload.qrCode) then base.(qrCode := payload.qrCode) else base
    else if IsRejected(payload.status) then
      if TextTruthy(payload.errorMessage) then base.(errorMessage := payload.errorMessage) else base
    else base
  }

  /**
   * The statements that pick the sync status and fill in the response object: a status
   * variable starting at pending and an object that gains a property on two branches.
   */
  method DetermineStatus(payload: WebhookPayload) returns (syncStatus: SyncStatus, record: ZatcaRecord)
    ensures syncStatus == MapSyncStatus(payload.status)
    ensures record == ResponseRecord(payload)
  {
    syncStatus := Pending;
    record := ZatcaRecord(payload.uuid, payload.status, payload.timestamp,
                          payload.complianceStatus, payload.reportingStatus,
                          payload.clearanceStatus, Absent, Absent);
    var status := payload.status;
    if status == Text("approved") || status == Text("cleared") {
      syncStatus := Completed;
      if TextTruthy(payload.qrCode) {
        record := record.(qrCode := payload.qrCode);
      }
    } else if status == Text("rejected") || status == Text("failed") {
      syncStatus := Failed;
      if TextTruthy(payload.errorMessage) {
        record := record.(errorMessage := payload.errorMessage);
      }
    } else if status == Text("processing") {
      syncStatus := InProgress;
    }
  }

  /** The six event names handleWebhookEvent dispatches on. */
  const EventTypes: seq<string> := [
    "compliance_approved", "compliance_rejected", "reporting_submitted",
    "reporting_failed", "clearance_approved", "clearance_rejected"
  ]

  /** None of the event names is a status the mapping recognises: they all stay pending. */
  lemma EventTypesMapToPending(event: string)
    requires event in EventTypes
    ensures MapSyncStatus(Text(event)) == Pending
  {
    assert event == EventTypes[0] || event == EventTypes[1] || event == EventTypes[2] ||
           event == EventTypes[3] || event == EventTypes[4] || event == EventTypes[5];
  }
}
