/**
 * The in-memory sale document: a transaction head plus one list per kind
 * of transaction line, all still in the temporary tier.  Records are values;
 * the document that the services extend line by line is an object.
 */
module Documents {
  import opened Wrappers
  import Text

  /** Database ids.  A generated id (uuid4) is always truthy; a foreign key
      that may be NULL is an `Option<Id>`. */
  type Id = int

  /** A calendar day, as `date.today()` reports it. */
  datatype Date = Date(year: nat, month: nat, day: nat)

  /** strftime('%Y%m%d'), each field zero-padded. */
  function DateStamp(d: Date): string
  {
    Text.PadInt(d.year, 4) + Text.PadInt(d.month, 2) + Text.PadInt(d.day, 2)
  }

  /** A day-stamped number: "YYYYMMDD-" followed by `n` zero-padded to `width`. */
  function StampedNumber(d: Date, n: int, width: nat): string
  {
    DateStamp(d) + "-" + Text.PadInt(n, width)
  }

  /** A stamped number splits on '-' into the day stamp and a field that
      parses back to the number. */
  lemma StampedNumberDecodes(d: Date, n: nat, width: nat)
    ensures Text.Split(StampedNumber(d, n, width), '-') == [DateStamp(d), Text.PadInt(n, width)]
    ensures Text.ParseInt(Text.PadInt(n, width)) == Some(n)
  {
    Text.PadIntDigits(d.year, 4);
    Text.PadIntDigits(d.month, 2);
    Text.PadIntDigits(d.day, 2);
    Text.PadIntDigits(n, width);
    var parts := [DateStamp(d), Text.PadInt(n, width)];
    assert '-' !in DateStamp(d);
    assert Text.Join(parts, '-') == StampedNumber(d, n, width);
    Text.SplitJoin(parts, '-');
    Text.PadIntRoundTrip(n, width);
  }

  /** The stream of ids `uuid4()` hands out: the k-th call returns `values(k)`. */
  class UuidSource {
    var count: nat
    const values: nat -> Id

    constructor (vs: nat -> Id)
      ensures values == vs && count == 0
    {
      values := vs;
      count := 0;
    }

    method Next() returns (id: Id)
      modifies this
      ensures id == values(old(count)) && count == old(count) + 1
    {
      id := values(count);
      count := count + 1;
    }
  }

  /** The `transaction_status` values. */
  datatype TxStatus =
    | Draft | Active | Pending | Hold | Kitchen | Ready | Delivered
    | Completed | Cancelled | Refunded

  /** The `transaction_type` values the core assigns. */
  datatype TxType = Sale | Return

  /** The kinds of document the cashier may be working on. */
  datatype DocumentType =
    | NoDocument | FiscalReceipt | ElectronicReceipt | NoneFiscalReceipt
    | Invoice | ElectronicInvoice | ElectronicCorporateInvoice
    | ElectronicIndividualInvoice | DiplomaticInvoice | Waybill
    | PosPaidOut | PosPaidIn | ReturnSlip | ExpenseSlip

  /** The enum member name that is stored in `document_type`. */
  function DocumentTypeName(t: DocumentType): (r: string)
    ensures |r| > 0
  {
    match t
    case NoDocument => "NONE"
    case FiscalReceipt => "FISCAL_RECEIPT"
    case ElectronicReceipt => "ELECTRONIC_RECEIPT"
    case NoneFiscalReceipt => "NONE_FISCAL_RECEIPT"
    case Invoice => "INVOICE"
    case ElectronicInvoice => "ELECTRONIC_INVOICE"
    case ElectronicCorporateInvoice => "ELECTRONIC_CORPORATE_INVOICE"
    case ElectronicIndividualInvoice => "ELECTRONIC_INDIVIDUAL_INVOICE"
    case DiplomaticInvoice => "DIPLOMATIC_INVOICE"
    case Waybill => "WAYBILL"
    case PosPaidOut => "POS_PAID_OUT"
    case PosPaidIn => "POS_PAID_IN"
    case ReturnSlip => "RETURN_SLIP"
    case ExpenseSlip => "EXPENSE_SLIP"
  }

  /** `TransactionHeadTemp` (and, with a new id, `TransactionHead`).
      Amounts are exact decimals; `dateTime` is a timestamp or NULL. */
  datatype Head = Head(
    id: Id,
    uniqueId: string,
    posId: Option<int>,
    dateTime: Option<int>,
    documentType: string,
    transactionType: TxType,
    status: TxStatus,
    storeId: Option<Id>,
    customerId: Option<Id>,
    closureNumber: int,
    receiptNumber: int,
    batchNumber: int,
    baseCurrency: string,
    totalAmount: real,
    totalVatAmount: real,
    totalDiscountAmount: real,
    totalPaymentAmount: real,
    totalChangeAmount: real,
    tipAmount: real,
    orderSource: Option<string>,
    orderChannel: Option<string>,
    isClosed: bool,
    isPending: bool,
    isCancel: bool,
    cancelReason: Option<string>,
    isDeleted: bool)

  /** A product sale line (`TransactionProductTemp`). */
  datatype ProductLine = ProductLine(
    id: Id,
    headId: Id,
    lineNo: int,
    mainGroupId: Option<Id>,
    subGroupId: Option<Id>,
    productId: Id,
    productCode: string,
    productName: string,
    productDescription: string,
    vatRate: real,
    unitPrice: real,
    quantity: real,
    totalPrice: real,
    totalVat: real,
    barcodeId: Option<Id>,
    isDeleted: bool)

  /** A department sale line (`TransactionDepartmentTemp`). */
  datatype DepartmentLine = DepartmentLine(
    id: Id,
    headId: Id,
    lineNo: int,
    mainGroupId: Id,
    subGroupId: Option<Id>,
    vatRate: real,
    totalDepartment: real,
    totalDepartmentVat: real,
    isDeleted: bool)

  /** A payment line (`TransactionPaymentTemp`). */
  datatype PaymentLine = PaymentLine(
    id: Id,
    headId: Id,
    lineNo: int,
    paymentType: string,
    paymentTotal: real,
    currencyCode: string,
    currencyTotal: real,
    exchangeRate: real,
    paymentStatus: string,
    isDeleted: bool)

  /** A change line (`TransactionChangeTemp`). */
  datatype ChangeLine = ChangeLine(
    id: Id,
    headId: Id,
    lineNo: int,
    changeAmount: real,
    currency: string,
    isDeleted: bool)

  /** A discount line.  The temporary table points at a product, a payment
      or a "total" line; the permanent table has a department reference in
      place of the total reference. */
  datatype DiscountLine = DiscountLine(
    id: Id,
    headId: Id,
    productRef: Option<Id>,
    paymentRef: Option<Id>,
    totalRef: Option<Id>,
    departmentRef: Option<Id>,
    amount: real,
    isDeleted: bool)

  /** Every other line kind (delivery, kitchen order, loyalty, note, fiscal,
      refund, surcharge, tax, tip): only its keys matter to the core; the
      remaining columns are carried along unchanged in `payload`. */
  datatype OtherLine = OtherLine(
    id: Id,
    headId: Id,
    productRef: Option<Id>,
    paymentRef: Option<Id>,
    payload: int,
    isDeleted: bool)

  /** The "currency or GBP" rule used for new payment and change lines. */
  function CurrencyOrGbp(baseCurrency: string): (r: string)
    ensures baseCurrency != "" ==> r == baseCurrency
    ensures baseCurrency == "" ==> r == "GBP"
  {
    if baseCurrency != "" then baseCurrency else "GBP"
  }

  /** The `document_data` dictionary of the open document. */
  class DocumentData {
    var head: Head
    var products: seq<ProductLine>
    var payments: seq<PaymentLine>
    var discounts: seq<DiscountLine>
    var departments: seq<DepartmentLine>
    var deliveries: seq<OtherLine>
    var kitchenOrders: seq<OtherLine>
    var loyalty: seq<OtherLine>
    var notes: seq<OtherLine>
    var fiscal: Option<OtherLine>
    var refunds: seq<OtherLine>
    var surcharges: seq<OtherLine>
    var taxes: seq<OtherLine>
    var tips: seq<OtherLine>
    var changes: seq<ChangeLine>

    /** A new document: the head, fourteen empty lists and no fiscal line. */
    constructor Empty(h: Head)
      ensures head == h
      ensures products == [] && payments == [] && discounts == []
      ensures departments == [] && deliveries == [] && kitchenOrders == []
      ensures loyalty == [] && notes == [] && fiscal == None
      ensures refunds == [] && surcharges == [] && taxes == [] && tips == []
      ensures changes == []
    {
      head := h;
      products, payments, discounts, departments := [], [], [], [];
      deliveries, kitchenOrders, loyalty, notes := [], [], [], [];
      fiscal := None;
      refunds, surcharges, taxes, tips := [], [], [], [];
      changes := [];
    }

    /** A document rebuilt from stored lines.  The change lines are given
        separately so that a caller can build the dictionary without them. */
    constructor Loaded(h: Head, ps: seq<ProductLine>, pays: seq<PaymentLine>,
                       ds: seq<DiscountLine>, deps: seq<DepartmentLine>,
                       dels: seq<OtherLine>, kos: seq<OtherLine>, loys: seq<OtherLine>,
                       ns: seq<OtherLine>, f: Option<OtherLine>, refs: seq<OtherLine>,
                       surs: seq<OtherLine>, txs: seq<OtherLine>, tps: seq<OtherLine>,
                       chs: seq<ChangeLine>)
      ensures head == h && products == ps && payments == pays && discounts == ds
      ensures departments == deps && deliveries == dels && kitchenOrders == kos
      ensures loyalty == loys && notes == ns && fiscal == f && refunds == refs
      ensures surcharges == surs && taxes == txs && tips == tps && changes == chs
    {
      head := h;
      products, payments, discounts, departments := ps, pays, ds, deps;
      deliveries, kitchenOrders, loyalty, notes := dels, kos, loys, ns;
      fiscal := f;
      refunds, surcharges, taxes, tips := refs, surs, txs, tps;
      changes := chs;
    }
  }

  /** The permanent tier's tables. */
  datatype PermanentTables = PermanentTables(
    heads: seq<Head>,
    products: seq<ProductLine>,
    payments: seq<PaymentLine>,
    discounts: seq<DiscountLine>,
    departments: seq<DepartmentLine>,
    deliveries: seq<OtherLine>,
    kitchenOrders: seq<OtherLine>,
    loyalty: seq<OtherLine>,
    notes: seq<OtherLine>,
    fiscal: seq<OtherLine>,
    refunds: seq<OtherLine>,
    surcharges: seq<OtherLine>,
    taxes: seq<OtherLine>,
    tips: seq<OtherLine>,
    changes: seq<ChangeLine>)

  const NoTables := PermanentTables([], [], [], [], [], [], [], [], [], [], [], [], [], [], [])

  /** The permanent tier: the rows a finished document is copied into. */
  class Archive {
    var tables: PermanentTables

    constructor ()
      ensures tables == NoTables
    {
      tables := NoTables;
    }
  }
}
