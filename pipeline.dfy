/**
 * The request handler of zatca-invoice-processor/index.ts: validate, fingerprint, build
 * the document, sign it, then submit it for compliance, reporting and clearance, in
 * that order, answering 400 with the message of the first thing that throws.
 *
 * The remote endpoints, the clock and the random draws are inputs (`Environment`);
 * the outcome records which stages ran, so that "never called" can be stated.
 */
module SubmissionPipeline {
  import opened Wrappers
  import opened JsValues
  import opened Invoices
  import opened InvoiceValidator
  import opened InvoiceFingerprint
  import opened InvoiceUuid
  import opened InvoiceXml

  /** What a `fetch` to an endpoint ends in: a 2xx reply, another reply, or an exception. */
  datatype Reply<T> = Ok(body: T) | HttpError(text: string) | Threw(message: string)

  /** The body fields the clearance endpoint may answer with. */
  datatype ClearanceBody = ClearanceBody(uuid: Option<string>, qrCode: Option<string>)

  /** The result of submitToZatcaCompliance and submitToZatcaReporting. */
  datatype StageResult = StageResult(success: bool, error: Option<string>)

  /** The result of submitToZatcaClearance. */
  datatype ClearanceResult = ClearanceResult(
    success: bool,
    uuid: Option<string>,
    qrCode: Option<string>,
    error: Option<string>)

  const QrPlaceholder: string := "QR_CODE_PLACEHOLDER"

  /** The text a failed submission reports: the reply text, or the exception's message. */
  function FailureText<T>(reply: Reply<T>): string
    requires !reply.Ok?
  {
    if reply.HttpError? then reply.text else reply.message
  }

  /** submitToZatcaCompliance / submitToZatcaReporting: success exactly on a 2xx reply. */
  function SubmitStage(reply: Reply<()>): (r: StageResult)
    ensures r.success <==> reply.Ok?
    ensures r.success ==> r.error.None?
    ensures !r.success ==> r.error == Some(FailureText(reply))
  {
    if reply.Ok? then StageResult(true, None) else StageResult(false, Some(FailureText(reply)))
  }

  /**
   * submitToZatcaClearance: on a 2xx reply the UUID falls back to a fresh one and the QR
   * code to a placeholder when the body does not carry a truthy one.
   */
  function SubmitClearance(reply: Reply<ClearanceBody>, freshUuid: string): (r: ClearanceResult)
    ensures r.success <==> reply.Ok?
    ensures reply.Ok? ==> r.uuid == Some(OrElse(reply.body.uuid, freshUuid))
    ensures reply.Ok? ==> r.qrCode == Some(OrElse(reply.body.qrCode, QrPlaceholder))
    ensures !reply.Ok? ==> r.uuid.None? && r.qrCode.None? && r.error == Some(FailureText(reply))
  {
    if reply.Ok? then
      ClearanceResult(true, Some(OrElse(reply.body.uuid, freshUuid)),
                      Some(OrElse(reply.body.qrCode, QrPlaceholder)), None)
    else ClearanceResult(false, None, None, Some(FailureText(reply)))
  }

  /** The parsed request body: `{ invoice, request_id }`, or the exception `req.json()` threw. */
  datatype RequestBody =
    | Unparsable(message: string)
    | Json(invoice: Option<InvoiceData>, requestId: Option<string>)

  /** A CORS preflight, or a request of any other method, which goes on to `req.json()`. */
  datatype Request = Options | Submit(body: RequestBody)

  /** The JSON bodies the handler answers with. */
  datatype Body =
    | PreflightOk
    | Submitted(
        uuid: Option<string>,
        qrCode: Option<string>,
        timestamp: string,
        requestId: Option<string>,
        complianceStatus: string,
        reportingStatus: string,
        clearanceStatus: string)
    | Rejected(error: string, timestamp: string)

  datatype Response = Response(status: nat, body: Body)

  /** The steps of the handler, in the order they run. */
  datatype Stage = Validate | Hash | BuildXml | Sign | Compliance | Reporting | Clearance

  const Pipeline: seq<Stage> := [Validate, Hash, BuildXml, Sign, Compliance, Reporting, Clearance]

  /** The answer and the stages that ran to produce it. */
  datatype Outcome = Outcome(response: Response, trace: seq<Stage>)

  /** Everything the handler reads besides the request. */
  datatype Environment = Environment(
    xmlDraw: seq<Nibble>,
    clearanceDraw: seq<Nibble>,
    parse: string -> Option<Iso>,
    numberText: JsNumber -> string,
    now: string,
    compliance: Document -> Reply<()>,
    reporting: Document -> Reply<()>,
    clearance: Document -> Reply<ClearanceBody>)

  predicate WellFormedEnvironment(env: Environment) {
    |env.xmlDraw| == UuidNibbles && |env.clearanceDraw| == UuidNibbles
  }

  const InvoiceRequired: string := "Invoice data is required"
  const ValidationFailedPrefix: string := "Invoice validation failed: "
  const ComplianceFailedPrefix: string := "Compliance check failed: "
  const ReportingFailedPrefix: string := "Reporting failed: "

  /**
   * `errors.join(', ')` of the validator's messages: empty for no errors, the one message
   * alone, otherwise the first message, ", ", and the join of the rest.
   */
  function ErrorList(errors: seq<ValidationError>): (r: string)
    ensures errors == [] ==> r == ""
    ensures |errors| == 1 ==> r == Message(errors[0])
    ensures |errors| >= 2 ==> r == Message(errors[0]) + ", " + ErrorList(errors[1..])
  {
    var messages := seq(|errors|, i requires 0 <= i < |errors| => Message(errors[i]));
    assert |errors| >= 2 ==>
      messages[1..] == seq(|errors[1..]|, i requires 0 <= i < |errors[1..]| => Message(errors[1..][i]));
    Join(messages, ", ")
  }

  /** The catch block: status 400 with the thrown message. */
  function Reject(message: string, env: Environment, trace: seq<Stage>): (r: Outcome)
    ensures r.response.status == 400 && r.response.body == Rejected(message, env.now)
    ensures r.trace == trace
  {
    Outcome(Response(400, Rejected(message, env.now)), trace)
  }

  /** digitallySignInvoice only logs and hands its input back. */
  function DigitallySign(document: Document): (signed: Document)
    ensures signed == document
  {
    document
  }

  /** The document the handler builds for a valid invoice. */
  function BuiltDocument(invoice: InvoiceData, env: Environment): Result<Document, string>
    requires Valid(invoice) && WellFormedEnvironment(env)
  {
    ValidInvoiceShape(invoice);
    GenerateZatcaXml(invoice, InvoiceHash(invoice, env.numberText), env.xmlDraw, env.parse, env.numberText)
  }

  /** The handler once an invoice is present: the staged flow with its early exits. */
  function Process(invoice: InvoiceData, requestId: Option<string>, env: Environment): (r: Outcome)
    requires WellFormedEnvironment(env)
    ensures r.trace <= Pipeline && |r.trace| >= 1
    ensures r.response.body.Submitted? <==> r.trace == Pipeline
    ensures r.response.status == 200 <==> r.response.body.Submitted?
    ensures r.response.status == 400 <==> r.response.body.Rejected?
  {
    if !Valid(invoice) then
      Reject(ValidationFailedPrefix + ErrorList(Errors(invoice)), env, Pipeline[..1])
    else
      var built := BuiltDocument(invoice, env);
      if built.Failure? then Reject(built.error, env, Pipeline[..3])
      else
        var signed := DigitallySign(built.value);
        var compliance := SubmitStage(env.compliance(signed));
        if !compliance.success then
          Reject(ComplianceFailedPrefix + Show(compliance.error), env, Pipeline[..5])
        else
          var reporting := SubmitStage(env.reporting(signed));
          if !reporting.success then
            Reject(ReportingFailedPrefix + Show(reporting.error), env, Pipeline[..6])
          else
            var clearance := SubmitClearance(env.clearance(signed), GenerateUuid(env.clearanceDraw));
            Outcome(
              Response(200, Submitted(clearance.uuid, clearance.qrCode, env.now, requestId,
                                      "approved", "submitted", "cleared")),
              Pipeline)
  }

  /** The handler: preflight, body parsing, the invoice presence check, then Process. */
  function Serve(req: Request, env: Environment): (r: Outcome)
    requires WellFormedEnvironment(env)
    ensures r.trace <= Pipeline
    ensures r.response.body.Submitted? <==> r.trace == Pipeline
    ensures req.Options? ==> r.response == Response(200, PreflightOk) && r.trace == []
    ensures req.Submit? ==> (r.response.status == 200 <==> r.response.body.Submitted?)
  {
    match req
    case Options => Outcome(Response(200, PreflightOk), [])
    case Submit(body) =>
      if body.Unparsable? then Reject(body.message, env, [])
      else if body.invoice.None? then Reject(InvoiceRequired, env, [])
      else Process(body.invoice.value, body.requestId, env)
  }

  /** A request without an invoice is answered 400 before anything runs. */
  lemma MissingInvoiceRejected(requestId: Option<string>, env: Environment)
    requires WellFormedEnvironment(env)
    ensures Serve(Submit(Json(None, requestId)), env) ==
      Outcome(Response(400, Rejected(InvoiceRequired, env.now)), [])
  {
  }

  /**
   * An invalid invoice is answered 400 with every failed check's message, in check
   * order, joined by ", "; no fingerprint, document or submission is made.
   */
  lemma ValidationFailureStopsEarly(invoice: InvoiceData, requestId: Option<string>, env: Environment)
    requires WellFormedEnvironment(env) && !Valid(invoice)
    ensures var r := Serve(Submit(Json(Some(invoice), requestId)), env);
      r.trace == [Validate] &&
      r.response == Response(400, Rejected(ValidationFailedPrefix + ErrorList(Errors(invoice)), env.now))
    ensures Errors(invoice) != [] && InCheckOrder(Errors(invoice))
  {
    ErrorsInCheckOrder(invoice);
  }

  /** An invoice date the runtime cannot read ends the request before any submission. */
  lemma InvalidDateStopsBeforeSubmission(invoice: InvoiceData, requestId: Option<string>, env: Environment)
    requires WellFormedEnvironment(env) && Valid(invoice)
    requires invoice.date.Some? && env.parse(invoice.date.value).None?
    ensures var r := Serve(Submit(Json(Some(invoice), requestId)), env);
      r.trace == [Validate, Hash, BuildXml] &&
      r.response == Response(400, Rejected(InvalidTimeValue, env.now))
  {
    ValidInvoiceShape(invoice);
  }

  /**
   * A valid invoice with a readable date but an item whose price is not a number ends the
   * request in the document build, with the TypeError of the first such item.
   */
  lemma BadPriceStopsBeforeSubmission(invoice: InvoiceData, requestId: Option<string>, env: Environment)
    requires WellFormedEnvironment(env) && Valid(invoice)
    requires invoice.date.Some? && env.parse(invoice.date.value).Some?
    requires invoice.items.Some? && PriceError(invoice.items.value).Some?
    ensures var r := Serve(Submit(Json(Some(invoice), requestId)), env);
      r.trace == [Validate, Hash, BuildXml] &&
      r.response == Response(400, Rejected(PriceError(invoice.items.value).value, env.now)) &&
      PriceError(invoice.items.value).value in {PriceUndefined, PriceNull, PriceNotNumber}
  {
    ValidInvoiceShape(invoice);
  }

  /**
   * A failed compliance check skips reporting and clearance and names the failure: the
   * answer is the same whatever the reporting and clearance endpoints would reply.
   */
  lemma ComplianceFailureSkipsLaterStages(
    invoice: InvoiceData, requestId: Option<string>, env: Environment,
    otherReporting: Document -> Reply<()>, otherClearance: Document -> Reply<ClearanceBody>)
    requires WellFormedEnvironment(env) && Valid(invoice)
    requires BuiltDocument(invoice, env).Success?
    requires !env.compliance(BuiltDocument(invoice, env).value).Ok?
    ensures var r := Serve(Submit(Json(Some(invoice), requestId)), env);
      Reporting !in r.trace && Clearance !in r.trace && r.trace == Pipeline[..5] &&
      r.response == Response(400, Rejected(
        ComplianceFailedPrefix + FailureText(env.compliance(BuiltDocument(invoice, env).value)), env.now))
    ensures Serve(Submit(Json(Some(invoice), requestId)), env.(reporting := otherReporting, clearance := otherClearance)) ==
      Serve(Submit(Json(Some(invoice), requestId)), env)
  {
    var signed := BuiltDocument(invoice, env).value;
    assert Process(invoice, requestId, env) ==
      Reject(ComplianceFailedPrefix + FailureText(env.compliance(signed)), env, Pipeline[..5]);
    assert Pipeline[..5] == [Validate, Hash, BuildXml, Sign, Compliance];
  }

  /**
   * A failed reporting submission skips clearance and names the failure: the answer is
   * the same whatever the clearance endpoint would reply.
   */
  lemma ReportingFailureSkipsClearance(
    invoice: InvoiceData, requestId: Option<string>, env: Environment,
    otherClearance: Document -> Reply<ClearanceBody>)
    requires WellFormedEnvironment(env) && Valid(invoice)
    requires BuiltDocument(invoice, env).Success?
    requires env.compliance(BuiltDocument(invoice, env).value).Ok?
    requires !env.reporting(BuiltDocument(invoice, env).value).Ok?
    ensures var r := Serve(Submit(Json(Some(invoice), requestId)), env);
      Clearance !in r.trace && r.trace == Pipeline[..6] &&
      r.response == Response(400, Rejected(
        ReportingFailedPrefix + FailureText(env.reporting(BuiltDocument(invoice, env).value)), env.now))
    ensures Serve(Submit(Json(Some(invoice), requestId)), env.(clearance := otherClearance)) ==
      Serve(Submit(Json(Some(invoice), requestId)), env)
  {
    var signed := BuiltDocument(invoice, env).value;
    assert Process(invoice, requestId, env) ==
      Reject(ReportingFailedPrefix + FailureText(env.reporting(signed)), env, Pipeline[..6]);
    assert Pipeline[..6] == [Validate, Hash, BuildXml, Sign, Compliance, Reporting];
  }

  /**
   * Once compliance and reporting pass, the answer is 200 with the three fixed statuses,
   * whatever clearance replied; a failed clearance only leaves out the UUID and QR code.
   */
  lemma SubmittedWhateverClearanceReplies(invoice: InvoiceData, requestId: Option<string>, env: Environment)
    requires WellFormedEnvironment(env) && Valid(invoice)
    requires BuiltDocument(invoice, env).Success?
    requires env.compliance(BuiltDocument(invoice, env).value).Ok?
    requires env.reporting(BuiltDocument(invoice, env).value).Ok?
    ensures var r := Serve(Submit(Json(Some(invoice), requestId)), env);
      var reply := env.clearance(BuiltDocument(invoice, env).value);
      r.trace == Pipeline && r.response.status == 200 &&
      r.response.body.complianceStatus == "approved" &&
      r.response.body.reportingStatus == "submitted" &&
      r.response.body.clearanceStatus == "cleared" &&
      r.response.body.requestId == requestId &&
      (!reply.Ok? ==> r.response.body.uuid.None? && r.response.body.qrCode.None?) &&
      (reply.Ok? && !StringTruthy(reply.body.uuid) ==>
         r.response.body.uuid == Some(GenerateUuid(env.clearanceDraw))) &&
      (reply.Ok? && !StringTruthy(reply.body.qrCode) ==>
         r.response.body.qrCode == Some(QrPlaceholder))
  {
  }

  /**
   * The handler answers 200 for an invoice exactly when it is valid, its date can be
   * read, every item's price is a number, and both compliance and reporting accept the
   * document.
   */
  lemma SucceedsIffAllGatesPass(invoice: InvoiceData, requestId: Option<string>, env: Environment)
    requires WellFormedEnvironment(env)
    ensures Serve(Submit(Json(Some(invoice), requestId)), env).response.status == 200 <==>
      Valid(invoice) &&
      invoice.date.Some? && env.parse(invoice.date.value).Some? &&
      invoice.items.Some? && (forall i :: 0 <= i < |invoice.items.value| ==> invoice.items.value[i].price.Number?) &&
      env.compliance(BuiltDocument(invoice, env).value).Ok? &&
      env.reporting(BuiltDocument(invoice, env).value).Ok?
  {
    if Valid(invoice) {
      ValidInvoiceShape(invoice);
    }
  }
}
