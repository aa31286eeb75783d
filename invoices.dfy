/**
 * The invoice record the submission endpoint receives (`InvoiceData` in
 * zatca-invoice-processor/index.ts). Every property may be absent; a present one has the
 * declared type, except an item's quantity and price, which may be any JSON value.
 */
module Invoices {
  import opened Wrappers
  import opened JsValues

  /** The seller block; only the two properties the document reads are kept. */
  datatype Company = Company(vatNo: Option<string>, ownerName1: Option<string>)

  /**
   * A property of an item as the request body can carry it: absent, `null`, a number, or
   * another JSON value (a string, a boolean, an object), given with the number that
   * arithmetic coerces it to.
   */
  datatype ItemValue = Missing | Null | Number(n: JsNumber) | Other(coerced: JsNumber)

  /** The number `*` sees: undefined is NaN and null is 0. */
  function ToNumber(v: ItemValue): (r: JsNumber)
    ensures v.Missing? ==> r == NaN
    ensures v.Null? ==> r == Finite(0.0)
    ensures v.Number? ==> r == v.n
  {
    match v
    case Missing => NaN
    case Null => Finite(0.0)
    case Number(n) => n
    case Other(c) => c
  }

  /** One invoice line; the item list is untyped, so quantity and price may be anything. */
  datatype LineItem = LineItem(
    quantity: ItemValue,
    price: ItemValue,
    name: Option<string>,
    description: Option<string>)

  datatype InvoiceData = InvoiceData(
    no: Option<JsNumber>,
    date: Option<string>,
    customer: Option<string>,
    salesman: Option<string>,
    vatNo: Option<string>,
    total: Option<JsNumber>,
    vatAmount: Option<JsNumber>,
    items: Option<seq<LineItem>>,
    company: Option<Company>)
}
