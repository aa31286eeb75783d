/**
 * generateZatcaXml of zatca-invoice-processor/index.ts as a structured UBL 2.1 invoice
 * document: the elements the template fills in, with money amounts kept as exact
 * numbers instead of `toFixed(2)` text.
 */
module InvoiceXml {
  import opened Wrappers
  import opened JsValues
  import opened Invoices
  import opened InvoiceUuid

  /** The VAT number written when the company or the customer has none. */
  const NoVatNumber: string := "000000000000000"
  /** The seller name written when the company has no `ownerName1`. */
  const DefaultCompanyName: string := "Company Name"
  /** The standard VAT rate, in percent and as a factor. */
  const VatPercent: nat := 15
  const VatRate: real := 0.15
  /** The message of the RangeError `toISOString` throws for an invalid date. */
  const InvalidTimeValue: string := "Invalid time value"
  /** The messages of the TypeError `item.price.toFixed(2)` throws for a price that is not a number. */
  const PriceUndefined: string := "Cannot read properties of undefined (reading 'toFixed')"
  const PriceNull: string := "Cannot read properties of null (reading 'toFixed')"
  const PriceNotNumber: string := "item.price.toFixed is not a function"

  /**
   * The pieces of `Date.prototype.toISOString()`: `<date>T<time>.<millis>Z`, where the
   * date is YYYY-MM-DD, the time HH:mm:ss and millis three digits, so only the one
   * separator is a `T` and the time holds no `.`.
   */
  datatype IsoInstant = IsoInstant(date: string, time: string, millis: string)

  predicate WellFormedIso(i: IsoInstant) {
    'T' !in i.date && 'T' !in i.time && '.' !in i.time && 'T' !in i.millis
  }

  type Iso = i: IsoInstant | WellFormedIso(i) witness IsoInstant("", "", "")

  function IsoText(i: Iso): string {
    i.date + "T" + i.time + "." + i.millis + "Z"
  }

  /** `new Date(s).toISOString()`, given how the runtime parses s: None is an Invalid Date. */
  function Timestamp(date: Option<string>, parse: string -> Option<Iso>): (r: Result<Iso, string>)
    ensures r.Failure? ==> r.error == InvalidTimeValue
    ensures r.Success? <==> date.Some? && parse(date.value).Some?
  {
    if date.None? then Failure(InvalidTimeValue)
    else if parse(date.value).None? then Failure(InvalidTimeValue)
    else Success(parse(date.value).value)
  }

  /** formatDate: `toISOString().split('T')[0]`, which is the date part. */
  function FormatDate(i: Iso): (r: string)
    ensures r == i.date
  {
    SplitAtFirst(i.date, 'T', i.time + "." + i.millis + "Z");
    assert IsoText(i) == i.date + ['T'] + (i.time + "." + i.millis + "Z");
    Split(IsoText(i), 'T')[0]
  }

  /** formatTime: `toISOString().split('T')[1].split('.')[0]`, which is the time part. */
  function FormatTime(i: Iso): (r: string)
    ensures r == i.time
  {
    var tail := i.time + "." + i.millis + "Z";
    SplitAtFirst(i.date, 'T', tail);
    assert IsoText(i) == i.date + ['T'] + tail;
    SplitWithoutSeparator(tail, 'T');
    SplitAtFirst(i.time, '.', i.millis + "Z");
    assert tail == i.time + ['.'] + (i.millis + "Z");
    Split(Split(IsoText(i), 'T')[1], '.')[0]
  }

  datatype Party = Party(
    vatId: string,
    name: string,
    streetName: string,
    cityName: string,
    postalZone: string,
    countryCode: string)

  datatype TaxTotal = TaxTotal(
    taxAmount: JsNumber,
    taxableAmount: JsNumber,
    subtotalTaxAmount: JsNumber,
    percent: nat,
    categoryId: string)

  datatype MonetaryTotal = MonetaryTotal(
    lineExtensionAmount: real,
    taxExclusiveAmount: real,
    taxInclusiveAmount: real,
    payableAmount: real)

  datatype InvoiceLine = InvoiceLine(
    id: nat,
    quantity: ItemValue,
    lineExtensionAmount: JsNumber,
    taxTotal: TaxTotal,
    itemName: string,
    itemDescription: string,
    priceAmount: JsNumber)

  datatype Document = Document(
    id: string,
    copyIndicator: bool,
    uuid: string,
    issueDate: string,
    issueTime: string,
    invoiceTypeCode: nat,
    currencyCode: string,
    lineCountNumeric: nat,
    supplier: Party,
    customer: Party,
    paymentMeansCode: nat,
    taxTotal: TaxTotal,
    legalMonetaryTotal: MonetaryTotal,
    lines: seq<InvoiceLine>)

  /** What the template dereferences: the item list, the company and two amounts. */
  predicate Renderable(invoice: InvoiceData) {
    invoice.items.Some? && invoice.company.Some? &&
    invoice.total.Some? && invoice.total.value.Finite? &&
    invoice.vatAmount.Some? && invoice.vatAmount.value.Finite?
  }

  /** What `price.toFixed(2)` throws: nothing for a number, a TypeError for anything else. */
  function ToFixedError(price: ItemValue): (r: Option<string>)
    ensures r.None? <==> price.Number?
  {
    match price
    case Missing => Some(PriceUndefined)
    case Null => Some(PriceNull)
    case Number(_) => None
    case Other(_) => Some(PriceNotNumber)
  }

  /** The position of the first item whose price is not a number; the length when there is none. */
  function FirstBadPrice(items: seq<LineItem>): (k: nat)
    ensures k <= |items|
    ensures forall j :: 0 <= j < k ==> items[j].price.Number?
    ensures k < |items| ==> !items[k].price.Number?
  {
    if items == [] || !items[0].price.Number? then 0
    else
      var k := FirstBadPrice(items[1..]);
      assert forall j :: 1 <= j < k + 1 ==> items[j] == items[1..][j - 1];
      k + 1
  }

  /**
   * The TypeError the item lines throw: the lines are rendered in order, so it is the one
   * of the first item whose price is not a number.
   */
  function PriceError(items: seq<LineItem>): (r: Option<string>)
    ensures r.None? <==> forall i :: 0 <= i < |items| ==> items[i].price.Number?
    ensures r.Some? ==>
      exists i :: 0 <= i < |items| && r == ToFixedError(items[i].price) &&
                  forall j :: 0 <= j < i ==> items[j].price.Number?
  {
    var k := FirstBadPrice(items);
    if k < |items| then ToFixedError(items[k].price) else None
  }

  /**
   * One `cac:InvoiceLine`, for the item at position index: the extension is
   * `price * quantity` and the tax `price * quantity * 0.15`, NaN when either is not a number.
   */
  function BuildLine(item: LineItem, index: nat): (line: InvoiceLine)
    ensures line.taxTotal.taxableAmount == line.lineExtensionAmount
    ensures line.taxTotal.taxAmount == line.taxTotal.subtotalTaxAmount ==
      Times(line.lineExtensionAmount, Finite(VatRate))
  {
    var extension := Times(ToNumber(item.price), ToNumber(item.quantity));
    var tax := Times(extension, Finite(VatRate));
    InvoiceLine(
      index + 1,
      item.quantity,
      extension,
      TaxTotal(tax, extension, tax, VatPercent, "S"),
      Show(item.name),
      OrElse(item.description, ""),
      ToNumber(item.price))
  }

  /**
   * generateZatcaXml. The hash argument is accepted but not written anywhere; the UUID
   * comes from a fresh generateUUID draw; the issue date and time from the invoice date.
   * An unreadable date throws first; then the first item whose price is not a number.
   */
  function GenerateZatcaXml(
    invoice: InvoiceData,
    hash: string,
    draw: seq<Nibble>,
    parse: string -> Option<Iso>,
    numberText: JsNumber -> string): (r: Result<Document, string>)
    requires Renderable(invoice) && |draw| == UuidNibbles
    ensures r.Failure? <==>
      Timestamp(invoice.date, parse).Failure? || PriceError(invoice.items.value).Some?
    ensures Timestamp(invoice.date, parse).Failure? ==> r == Failure(InvalidTimeValue)
    ensures Timestamp(invoice.date, parse).Success? && PriceError(invoice.items.value).Some? ==>
      r == Failure(PriceError(invoice.items.value).value)
    ensures r.Success? ==>
      r.value.lineCountNumeric == |r.value.lines| == |invoice.items.value| &&
      IsUuidV4(r.value.uuid)
  {
    var stamp := Timestamp(invoice.date, parse);
    if stamp.Failure? then Failure(stamp.error)
    else if PriceError(invoice.items.value).Some? then Failure(PriceError(invoice.items.value).value)
    else
      var items, company := invoice.items.value, invoice.company.value;
      var total, vat := invoice.total.value.value, invoice.vatAmount.value.value;
      var taxable := total - vat;
      Success(Document(
        ShowNumber(invoice.no, numberText),
        false,
        GenerateUuid(draw),
        FormatDate(stamp.value),
        FormatTime(stamp.value),
        110,
        "SAR",
        |items|,
        Party(OrElse(company.vatNo, NoVatNumber), OrElse(company.ownerName1, DefaultCompanyName),
              "Street Address", "City", "00000", "SA"),
        Party(OrElse(invoice.vatNo, NoVatNumber), Show(invoice.customer),
              "Customer Address", "City", "00000", "SA"),
        1,
        TaxTotal(Finite(vat), Finite(taxable), Finite(vat), VatPercent, "S"),
        MonetaryTotal(taxable, taxable, total, total),
        seq(|items|, i requires 0 <= i < |items| => BuildLine(items[i], i))))
  }

  /** The sum of the line extension amounts. */
  function ExtensionSum(lines: seq<InvoiceLine>): JsNumber {
    if lines == [] then Finite(0.0)
    else Plus(ExtensionSum(lines[..|lines| - 1]), lines[|lines| - 1].lineExtensionAmount)
  }

  /** The sum of the line tax amounts. */
  function LineTaxSum(lines: seq<InvoiceLine>): JsNumber {
    if lines == [] then Finite(0.0)
    else Plus(LineTaxSum(lines[..|lines| - 1]), lines[|lines| - 1].taxTotal.taxAmount)
  }

  lemma {:induction false} LineTaxSumIsRate(lines: seq<InvoiceLine>)
    requires forall i :: 0 <= i < |lines| ==>
      lines[i].taxTotal.taxAmount == Times(lines[i].lineExtensionAmount, Finite(VatRate))
    ensures LineTaxSum(lines) == Times(ExtensionSum(lines), Finite(VatRate))
  {
    if lines != [] {
      LineTaxSumIsRate(lines[..|lines| - 1]);
    }
  }

  /**
   * Line i+1 of the document is item i: same quantity and price, numbered from one; every
   * price is a number, and a quantity that is absent makes the line's amounts NaN.
   */
  lemma LinesFollowItems(
    invoice: InvoiceData, hash: string, draw: seq<Nibble>,
    parse: string -> Option<Iso>, numberText: JsNumber -> string)
    requires Renderable(invoice) && |draw| == UuidNibbles
    requires GenerateZatcaXml(invoice, hash, draw, parse, numberText).Success?
    ensures var d, items := GenerateZatcaXml(invoice, hash, draw, parse, numberText).value, invoice.items.value;
      forall i :: 0 <= i < |d.lines| ==>
        d.lines[i].id == i + 1 &&
        items[i].price.Number? &&
        d.lines[i].quantity == items[i].quantity &&
        d.lines[i].priceAmount == items[i].price.n &&
        d.lines[i].lineExtensionAmount == Times(items[i].price.n, ToNumber(items[i].quantity)) &&
        (items[i].quantity.Missing? ==>
           d.lines[i].lineExtensionAmount == NaN && d.lines[i].taxTotal.taxAmount == NaN) &&
        d.lines[i].itemName == Show(items[i].name) &&
        d.lines[i].itemDescription == OrElse(items[i].description, "")
  {
  }

  /** The line taxes add up to 15% of the line extension amounts. */
  lemma LineTaxesAreFifteenPercent(
    invoice: InvoiceData, hash: string, draw: seq<Nibble>,
    parse: string -> Option<Iso>, numberText: JsNumber -> string)
    requires Renderable(invoice) && |draw| == UuidNibbles
    requires GenerateZatcaXml(invoice, hash, draw, parse, numberText).Success?
    ensures var d := GenerateZatcaXml(invoice, hash, draw, parse, numberText).value;
      LineTaxSum(d.lines) == Times(ExtensionSum(d.lines), Finite(VatRate))
  {
    var d := GenerateZatcaXml(invoice, hash, draw, parse, numberText).value;
    LineTaxSumIsRate(d.lines);
  }

  /**
   * Seller and buyer identification: a falsy VAT number becomes fifteen zeros, a falsy
   * seller name becomes "Company Name"; the buyer name is written as given.
   */
  lemma PartyFallbacks(
    invoice: InvoiceData, hash: string, draw: seq<Nibble>,
    parse: string -> Option<Iso>, numberText: JsNumber -> string)
    requires Renderable(invoice) && |draw| == UuidNibbles
    requires GenerateZatcaXml(invoice, hash, draw, parse, numberText).Success?
    ensures var d, company := GenerateZatcaXml(invoice, hash, draw, parse, numberText).value, invoice.company.value;
      (!StringTruthy(company.vatNo) ==> d.supplier.vatId == NoVatNumber) &&
      (StringTruthy(company.vatNo) ==> d.supplier.vatId == company.vatNo.value) &&
      (!StringTruthy(company.ownerName1) ==> d.supplier.name == DefaultCompanyName) &&
      (StringTruthy(company.ownerName1) ==> d.supplier.name == company.ownerName1.value) &&
      (!StringTruthy(invoice.vatNo) ==> d.customer.vatId == NoVatNumber) &&
      (StringTruthy(invoice.vatNo) ==> d.customer.vatId == invoice.vatNo.value) &&
      (invoice.customer.Some? ==> d.customer.name == invoice.customer.value)
  {
  }

  /**
   * The document totals: the taxable amount is total minus VAT, the tax is the VAT
   * amount, and taxable plus tax is the payable (tax-inclusive) amount, the invoice total.
   */
  lemma TotalsBalance(
    invoice: InvoiceData, hash: string, draw: seq<Nibble>,
    parse: string -> Option<Iso>, numberText: JsNumber -> string)
    requires Renderable(invoice) && |draw| == UuidNibbles
    requires GenerateZatcaXml(invoice, hash, draw, parse, numberText).Success?
    ensures var d := GenerateZatcaXml(invoice, hash, draw, parse, numberText).value;
      var total, vat := invoice.total.value.value, invoice.vatAmount.value.value;
      var m := d.legalMonetaryTotal;
      d.taxTotal.taxableAmount == Finite(total - vat) &&
      d.taxTotal.taxAmount == d.taxTotal.subtotalTaxAmount == Finite(vat) &&
      m.lineExtensionAmount == m.taxExclusiveAmount == total - vat &&
      Plus(d.taxTotal.taxableAmount, d.taxTotal.taxAmount) == Finite(m.payableAmount) &&
      m.payableAmount == m.taxInclusiveAmount == total
  {
  }

  /** Issue date and time are the date and time parts of the invoice date's ISO text. */
  lemma IssueStampFromInvoiceDate(
    invoice: InvoiceData, hash: string, draw: seq<Nibble>,
    parse: string -> Option<Iso>, numberText: JsNumber -> string)
    requires Renderable(invoice) && |draw| == UuidNibbles
    requires GenerateZatcaXml(invoice, hash, draw, parse, numberText).Success?
    ensures invoice.date.Some? && parse(invoice.date.value).Some?
    ensures var d, i := GenerateZatcaXml(invoice, hash, draw, parse, numberText).value, parse(invoice.date.value).value;
      d.issueDate == i.date && d.issueTime == i.time
  {
  }

  /**
   * Building twice from the same invoice gives documents that differ in the UUID alone,
   * whatever hash is passed; the UUIDs differ unless the draws keep the same nibbles.
   */
  lemma RebuildDiffersOnlyInUuid(
    invoice: InvoiceData, hash1: string, hash2: string, draw1: seq<Nibble>, draw2: seq<Nibble>,
    parse: string -> Option<Iso>, numberText: JsNumber -> string)
    requires Renderable(invoice) && |draw1| == UuidNibbles && |draw2| == UuidNibbles
    requires GenerateZatcaXml(invoice, hash1, draw1, parse, numberText).Success?
    ensures var d1 := GenerateZatcaXml(invoice, hash1, draw1, parse, numberText).value;
      var d2 := GenerateZatcaXml(invoice, hash2, draw2, parse, numberText).value;
      GenerateZatcaXml(invoice, hash2, draw2, parse, numberText).Success? &&
      d2 == d1.(uuid := d2.uuid) &&
      (d1.uuid == d2.uuid <==> KeptNibbles(draw1) == KeptNibbles(draw2))
  {
    SameUuidIffSameKept(draw1, draw2);
  }
}
