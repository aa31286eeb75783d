/**
 * `validateInvoiceData`: eight independent checks, each pushing its own message onto
 * an error list in a fixed order; the invoice is valid when no message was pushed.
 *
 * The list is kept as a list of `ValidationError` values, one per message text
 * validateInvoiceData can push; `Message` gives each one's exact text.
 */
module InvoiceValidator {
  import opened Wrappers
  import opened JsValues
  import opened Invoices

  /** The eight messages the validator can push, named after the check that pushes them. */
  datatype ValidationError =
    | InvalidInvoiceNumber
    | MissingDate
    | MissingCustomer
    | MissingVatNumber
    | InvalidTotal
    | InvalidVatAmount
    | NoItems
    | MissingCompany

  /** The text pushed onto `errors`. */
  function Message(e: ValidationError): string {
    match e
    case InvalidInvoiceNumber => "Invalid invoice number"
    case MissingDate => "Invoice date is required"
    case MissingCustomer => "Customer name is required"
    case MissingVatNumber => "VAT number is required"
    case InvalidTotal => "Invalid total amount"
    case InvalidVatAmount => "Invalid VAT amount"
    case NoItems => "Invoice must have at least one item"
    case MissingCompany => "Company details are required"
  }

  /** No two checks share a message, so the texts identify the checks. */
  lemma MessageInjective(a: ValidationError, b: ValidationError)
    requires Message(a) == Message(b)
    ensures a == b
  {
  }

  const CheckCount: nat := 8

  /** The order the checks run in. */
  const CheckOrder: seq<ValidationError> := [
    InvalidInvoiceNumber, MissingDate, MissingCustomer, MissingVatNumber,
    InvalidTotal, InvalidVatAmount, NoItems, MissingCompany
  ]

  /** Position of a check in CheckOrder. */
  function Rank(e: ValidationError): (r: nat)
    ensures r < CheckCount && CheckOrder[r] == e
  {
    match e
    case InvalidInvoiceNumber => 0
    case MissingDate => 1
    case MissingCustomer => 2
    case MissingVatNumber => 3
    case InvalidTotal => 4
    case InvalidVatAmount => 5
    case NoItems => 6
    case MissingCompany => 7
  }

  /** `!n || n <= 0` */
  predicate NotPositive(n: Option<JsNumber>) {
    !NumberTruthy(n) || n.value.value <= 0.0
  }

  /** `!n || n < 0`: because of the falsy test, an amount of exactly 0 fails too. */
  predicate NotNonZeroAmount(n: Option<JsNumber>) {
    !NumberTruthy(n) || n.value.value < 0.0
  }

  /** `!s || s.trim() === ''` */
  predicate Blank(s: Option<string>) {
    !StringTruthy(s) || Trim(s.value) == ""
  }

  /** The condition under which the validator pushes e. */
  predicate Fails(invoice: InvoiceData, e: ValidationError) {
    match e
    case InvalidInvoiceNumber => NotPositive(invoice.no)
    case MissingDate => !StringTruthy(invoice.date)
    case MissingCustomer => Blank(invoice.customer)
    case MissingVatNumber => Blank(invoice.vatNo)
    case InvalidTotal => NotPositive(invoice.total)
    case InvalidVatAmount => NotNonZeroAmount(invoice.vatAmount)
    case NoItems => invoice.items.None? || |invoice.items.value| == 0
    case MissingCompany => invoice.company.None?
  }

  /** `if (fails) errors.push(e)` */
  function PushIf(errors: seq<ValidationError>, fails: bool, e: ValidationError): seq<ValidationError> {
    if fails then errors + [e] else errors
  }

  /** The error list once the first k checks of CheckOrder have run. */
  function ErrorsAfter(invoice: InvoiceData, k: nat): seq<ValidationError>
    requires k <= CheckCount
  {
    if k == 0 then [] else PushIf(ErrorsAfter(invoice, k - 1), Fails(invoice, CheckOrder[k - 1]), CheckOrder[k - 1])
  }

  /** The error list `validateInvoiceData` returns: every check run, in order. */
  function Errors(invoice: InvoiceData): seq<ValidationError> {
    ErrorsAfter(invoice, CheckCount)
  }

  /** Valid exactly when no message was pushed. */
  predicate Valid(invoice: InvoiceData) {
    Errors(invoice) == []
  }

  /**
   * The checks as validateInvoiceData runs them, each pushing its message onto a mutable list.
   */
  method ValidateInvoiceData(invoice: InvoiceData) returns (isValid: bool, errors: seq<ValidationError>)
    ensures errors == Errors(invoice)
    ensures isValid <==> Valid(invoice)
  {
    errors := [];

    if Fails(invoice, InvalidInvoiceNumber) {
      errors := errors + [InvalidInvoiceNumber];
    }
    assert errors == ErrorsAfter(invoice, 1);

    if Fails(invoice, MissingDate) {
      errors := errors + [MissingDate];
    }
    assert errors == ErrorsAfter(invoice, 2);

    if Fails(invoice, MissingCustomer) {
      errors := errors + [MissingCustomer];
    }
    assert errors == ErrorsAfter(invoice, 3);

    if Fails(invoice, MissingVatNumber) {
      errors := errors + [MissingVatNumber];
    }
    assert errors == ErrorsAfter(invoice, 4);

    if Fails(invoice, InvalidTotal) {
      errors := errors + [InvalidTotal];
    }
    assert errors == ErrorsAfter(invoice, 5);

    if Fails(invoice, InvalidVatAmount) {
      errors := errors + [InvalidVatAmount];
    }
    assert errors == ErrorsAfter(invoice, 6);

    if Fails(invoice, NoItems) {
      errors := errors + [NoItems];
    }
    assert errors == ErrorsAfter(invoice, 7);

    if Fails(invoice, MissingCompany) {
      errors := errors + [MissingCompany];
    }
    assert errors == ErrorsAfter(invoice, 8);

    isValid := |errors| == 0;
  }

  /** CheckOrder lists each check once, at its rank. */
  lemma RankOfCheckOrder(i: nat)
    requires i < CheckCount
    ensures Rank(CheckOrder[i]) == i
  {
  }

  /**
   * The list the first k checks push when the checks fail as `fails` says: ErrorsAfter
   * with the invoice's checks abstracted away, so that the lemmas below reason about
   * the pushing alone.
   */
  function Pushed(fails: ValidationError -> bool, k: nat): seq<ValidationError>
    requires k <= CheckCount
  {
    if k == 0 then [] else PushIf(Pushed(fails, k - 1), fails(CheckOrder[k - 1]), CheckOrder[k - 1])
  }

  /** Which checks an invoice fails. */
  function Failing(invoice: InvoiceData): ValidationError -> bool {
    e => Fails(invoice, e)
  }

  lemma {:induction false} ErrorsAfterIsPushed(invoice: InvoiceData, k: nat)
    requires k <= CheckCount
    ensures ErrorsAfter(invoice, k) == Pushed(Failing(invoice), k)
  {
    if k > 0 {
      ErrorsAfterIsPushed(invoice, k - 1);
    }
  }

  /** After k checks, a check is listed exactly when it is among them and fails. */
  lemma {:induction false} PushedMembership(fails: ValidationError -> bool, k: nat, e: ValidationError)
    requires k <= CheckCount
    ensures e in Pushed(fails, k) <==> Rank(e) < k && fails(e)
  {
    if k > 0 {
      PushedMembership(fails, k - 1, e);
      RankOfCheckOrder(k - 1);
    }
  }

  /** After k checks, at most k messages. */
  lemma {:induction false} PushedLength(fails: ValidationError -> bool, k: nat)
    requires k <= CheckCount
    ensures |Pushed(fails, k)| <= k
  {
    if k > 0 {
      PushedLength(fails, k - 1);
    }
  }

  /** Strictly increasing in check order, hence without repetition. */
  predicate InCheckOrder(errors: seq<ValidationError>) {
    forall i, j :: 0 <= i < j < |errors| ==> Rank(errors[i]) < Rank(errors[j])
  }

  /** After k checks, the messages are listed in the order the checks ran. */
  lemma {:induction false} PushedInCheckOrder(fails: ValidationError -> bool, k: nat)
    requires k <= CheckCount
    ensures InCheckOrder(Pushed(fails, k))
  {
    if k > 0 {
      var before, last := Pushed(fails, k - 1), CheckOrder[k - 1];
      PushedInCheckOrder(fails, k - 1);
      RankOfCheckOrder(k - 1);
      if fails(last) {
        var after := before + [last];
        assert Pushed(fails, k) == after;
        forall i, j | 0 <= i < j < |after|
          ensures Rank(after[i]) < Rank(after[j])
        {
          if j == |before| {
            PushedMembership(fails, k - 1, before[i]);
          }
        }
      }
    }
  }

  /** A check's message is in the list exactly when that check fails. */
  lemma ErrorListedIffCheckFails(invoice: InvoiceData, e: ValidationError)
    ensures e in Errors(invoice) <==> Fails(invoice, e)
  {
    ErrorsAfterIsPushed(invoice, CheckCount);
    PushedMembership(Failing(invoice), CheckCount, e);
  }

  /** Messages appear in the order the checks run, so none appears twice. */
  lemma ErrorsInCheckOrder(invoice: InvoiceData)
    ensures InCheckOrder(Errors(invoice))
  {
    ErrorsAfterIsPushed(invoice, CheckCount);
    PushedInCheckOrder(Failing(invoice), CheckCount);
  }

  /** At most one message per check, so never more than eight. */
  lemma AtMostEightErrors(invoice: InvoiceData)
    ensures |Errors(invoice)| <= 8
  {
    ErrorsAfterIsPushed(invoice, CheckCount);
    PushedLength(Failing(invoice), CheckCount);
  }

  /** `isValid` is true exactly when every check passes. */
  lemma ValidIffAllChecksPass(invoice: InvoiceData)
    ensures Valid(invoice) <==> forall e: ValidationError :: !Fails(invoice, e)
  {
    if !Valid(invoice) {
      ErrorListedIffCheckFails(invoice, Errors(invoice)[0]);
    } else {
      forall e: ValidationError
        ensures !Fails(invoice, e)
      {
        ErrorListedIffCheckFails(invoice, e);
      }
    }
  }

  /** A missing, zero, NaN or negative invoice number is rejected. */
  lemma NonPositiveNumberRejected(invoice: InvoiceData)
    requires invoice.no.None? || invoice.no.value.NaN? || invoice.no.value.value <= 0.0
    ensures InvalidInvoiceNumber in Errors(invoice)
  {
    ErrorListedIffCheckFails(invoice, InvalidInvoiceNumber);
  }

  /** A missing, zero, NaN or negative total is rejected. */
  lemma NonPositiveTotalRejected(invoice: InvoiceData)
    requires invoice.total.None? || invoice.total.value.NaN? || invoice.total.value.value <= 0.0
    ensures InvalidTotal in Errors(invoice)
  {
    ErrorListedIffCheckFails(invoice, InvalidTotal);
  }

  /**
   * A VAT amount of exactly zero is rejected along with negative ones, because the
   * falsy test fires before the `< 0` comparison; a positive amount passes this check.
   */
  lemma VatAmountRejectedIffNotPositive(invoice: InvoiceData, v: real)
    requires invoice.vatAmount == Some(Finite(v))
    ensures InvalidVatAmount in Errors(invoice) <==> v <= 0.0
  {
    ErrorListedIffCheckFails(invoice, InvalidVatAmount);
  }

  /** A customer name made only of white space is rejected. */
  lemma BlankCustomerRejected(invoice: InvoiceData)
    requires invoice.customer.Some? && AllWhitespace(invoice.customer.value)
    ensures MissingCustomer in Errors(invoice)
  {
    TrimEmptyIffAllWhitespace(invoice.customer.value);
    ErrorListedIffCheckFails(invoice, MissingCustomer);
  }

  /** A VAT number made only of white space is rejected. */
  lemma BlankVatNumberRejected(invoice: InvoiceData)
    requires invoice.vatNo.Some? && AllWhitespace(invoice.vatNo.value)
    ensures MissingVatNumber in Errors(invoice)
  {
    TrimEmptyIffAllWhitespace(invoice.vatNo.value);
    ErrorListedIffCheckFails(invoice, MissingVatNumber);
  }

  /** What a valid invoice guarantees the document builder. */
  lemma ValidInvoiceShape(invoice: InvoiceData)
    requires Valid(invoice)
    ensures NumberTruthy(invoice.no) && invoice.no.value.value > 0.0
    ensures NumberTruthy(invoice.total) && invoice.total.value.value > 0.0
    ensures NumberTruthy(invoice.vatAmount) && invoice.vatAmount.value.value > 0.0
    ensures StringTruthy(invoice.date) && StringTruthy(invoice.customer) && StringTruthy(invoice.vatNo)
    ensures invoice.items.Some? && |invoice.items.value| > 0
    ensures invoice.company.Some?
  {
    ValidIffAllChecksPass(invoice);
    assert !Fails(invoice, InvalidInvoiceNumber) && !Fails(invoice, MissingDate);
    assert !Fails(invoice, MissingCustomer) && !Fails(invoice, MissingVatNumber);
    assert !Fails(invoice, InvalidTotal) && !Fails(invoice, InvalidVatAmount);
    assert !Fails(invoice, NoItems) && !Fails(invoice, MissingCompany);
  }
}
