/**
 * The document manager: opens a new draft with sequence-derived numbers,
 * resumes the newest incomplete draft from the temporary tier, toggles
 * pending, and completes a document by copying every line collection to
 * the permanent tier with foreign keys remapped through temp→permanent
 * id maps.
 */
module DocumentManager {
  import opened Wrappers
  import Text
  import opened Documents
  import opened Catalog
  import opened Tables
  import SaleService

  // ------------------------------------------------------------ stored tables

  /** The temporary tier as stored in the database. */
  datatype TempTables = TempTables(
    heads: seq<Head>,
    products: seq<ProductLine>,
    payments: seq<PaymentLine>,
    discounts: seq<DiscountLine>,
    departments: seq<DepartmentLine>,
    deliveries: seq<OtherLine>,
    kitchenOrders: seq<OtherLine>,
    loyalty: seq<OtherLine>,
    notes: seq<OtherLine>,
    fiscal: seq<OtherLine>,
    refunds: seq<OtherLine>,
    surcharges: seq<OtherLine>,
    taxes: seq<OtherLine>,
    tips: seq<OtherLine>,
    changes: seq<ChangeLine>)

  function HeadId(h: Head): Id { h.id }
  function ProductId(p: ProductLine): Id { p.id }
  function PaymentId(p: PaymentLine): Id { p.id }
  function DepartmentId(d: DepartmentLine): Id { d.id }
  function DiscountId(d: DiscountLine): Id { d.id }
  function OtherId(o: OtherLine): Id { o.id }

  // ------------------------------------------------------------ customers

  /** A live customer whose name contains "walk-in" or "anonymous", in any case. */
  predicate IsWalkIn(c: Customer)
  {
    !c.isDeleted && (Text.Contains(Text.Lower(c.name), "walk-in") || Text.Contains(Text.Lower(c.name), "anonymous"))
  }

  predicate IsLive(c: Customer)
  {
    !c.isDeleted
  }

  /** The customer a new document is charged to: the first walk-in
      customer, else the first live one; None when a default must be created. */
  function DefaultCustomer(cs: seq<Customer>): (r: Option<Id>)
    ensures FindFirst(cs, IsWalkIn).Some? ==> r == Some(cs[FindFirst(cs, IsWalkIn).value].id)
    ensures FindFirst(cs, IsWalkIn).None? && FindFirst(cs, IsLive).Some? ==>
      r == Some(cs[FindFirst(cs, IsLive).value].id)
    ensures r.None? <==> forall k :: 0 <= k < |cs| ==> cs[k].isDeleted
  {
    match FindFirst(cs, IsWalkIn)
    case Some(k) => Some(cs[k].id)
    case None =>
      match FindFirst(cs, IsLive)
      case Some(k) => Some(cs[k].id)
      case None => None
  }

  /** The customer row created when there is no live customer at all. */
  function DefaultCustomerRow(id: Id): Customer
  {
    Customer(id, "Walk-in", "Customer", false)
  }

  // ------------------------------------------------------------ new document

  /** RETURN for a return slip, SALE for every other document type. */
  function TransactionTypeFor(t: DocumentType): (r: TxType)
    ensures r == Return <==> t == ReturnSlip
  {
    if t == ReturnSlip then Return else Sale
  }

  /** The head of a new draft.  Unset amounts and the unset currency are
      read as 0 and "" by every consumer. */
  function NewHead(id: Id, settings: PosSettings, t: DocumentType, seqs: seq<TransactionSequence>,
                   storeId: Id, customerId: Id, today: Date, now: int): (h: Head)
    ensures h.id == id && h.posId == settings.posNoInStore && h.dateTime == Some(now)
    ensures h.status == Draft && !h.isClosed && !h.isPending && !h.isCancel && !h.isDeleted
    ensures h.closureNumber == SequenceValue(seqs, "ClosureNumber")
    ensures h.receiptNumber == SequenceValue(seqs, "ReceiptNumber")
    ensures h.batchNumber == h.closureNumber
    ensures h.uniqueId == StampedNumber(today, h.receiptNumber, 6)
    ensures h.documentType == DocumentTypeName(t) && h.transactionType == TransactionTypeFor(t)
    ensures h.storeId == Some(storeId) && h.customerId == Some(customerId)
    ensures h.totalAmount == 0.0 && h.totalPaymentAmount == 0.0 && h.totalChangeAmount == 0.0
  {
    var closureNumber := SequenceValue(seqs, "ClosureNumber");
    var receiptNumber := SequenceValue(seqs, "ReceiptNumber");
    Head(id, StampedNumber(today, receiptNumber, 6), settings.posNoInStore, Some(now), DocumentTypeName(t),
         TransactionTypeFor(t), Draft, Some(storeId), Some(customerId), closureNumber, receiptNumber,
         closureNumber, "", 0.0, 0.0, 0.0, 0.0, 0.0, 0.0, None, None, false, false, false, None, false)
  }

  /** The unique id of a new draft reads back as its day and its receipt
      number. */
  lemma NewHeadUniqueIdDecodes(id: Id, settings: PosSettings, t: DocumentType, seqs: seq<TransactionSequence>,
                               storeId: Id, customerId: Id, today: Date, now: int)
    requires SequenceValue(seqs, "ReceiptNumber") >= 0
    ensures var h := NewHead(id, settings, t, seqs, storeId, customerId, today, now);
      var parts := Text.Split(h.uniqueId, '-');
      |parts| == 2 && parts[0] == DateStamp(today) && Text.ParseInt(parts[1]) == Some(h.receiptNumber)
  {
    var h := NewHead(id, settings, t, seqs, storeId, customerId, today, now);
    StampedNumberDecodes(today, h.receiptNumber, 6);
  }

  /** No document in hand, or one whose lists are all empty. */
  predicate IsEmptyDocument(d: DocumentData)
    reads d
  {
    d.products == [] && d.payments == [] && d.discounts == [] && d.departments == [] &&
    d.deliveries == [] && d.kitchenOrders == [] && d.loyalty == [] && d.notes == [] &&
    d.fiscal == None && d.refunds == [] && d.surcharges == [] && d.taxes == [] &&
    d.tips == [] && d.changes == []
  }

  // ------------------------------------------------------------ resuming

  /** A head that is not closed, pending, cancelled or deleted. */
  predicate IsIncomplete(h: Head)
  {
    !h.isClosed && !h.isPending && !h.isCancel && !h.isDeleted
  }

  /** Descending order on timestamps, NULL last. */
  predicate NotAfter(a: Option<int>, b: Option<int>)
  {
    a.None? || (b.Some? && a.value <= b.value)
  }

  /** The incomplete head with the latest timestamp (the earliest such row
      on a tie), or None when every head is finished. */
  function LatestIncomplete(heads: seq<Head>): (r: Option<nat>)
    ensures r.Some? ==> r.value < |heads| && IsIncomplete(heads[r.value])
    ensures r.Some? ==> forall k :: 0 <= k < |heads| && IsIncomplete(heads[k]) ==>
      NotAfter(heads[k].dateTime, heads[r.value].dateTime)
    ensures r.None? <==> forall k :: 0 <= k < |heads| ==> !IsIncomplete(heads[k])
  {
    if |heads| == 0 then None
    else
      var n := |heads| - 1;
      var rest := LatestIncomplete(heads[..n]);
      assert forall k :: 0 <= k < n ==> heads[..n][k] == heads[k];
      if !IsIncomplete(heads[n]) then rest
      else if rest.None? || !NotAfter(heads[n].dateTime, heads[rest.value].dateTime) then Some(n)
      else rest
  }

  /** `d` holds the head with id `headId` (the first such row) and that
      head's live lines of every kind, the change lines only when
      `withChanges` (otherwise none). */
  predicate LoadedFrom(d: DocumentData, t: TempTables, headId: Id, withChanges: bool)
    reads d
  {
    var k := FindFirst(t.heads, HasId(headId));
    k.Some? && d.head == t.heads[k.value] &&
    d.products == Select(t.products, ProductsOf(headId)) &&
    d.payments == Select(t.payments, PaymentsOf(headId)) &&
    d.discounts == Select(t.discounts, DiscountsOf(headId)) &&
    d.departments == Select(t.departments, DepartmentsOf(headId)) &&
    d.deliveries == Select(t.deliveries, OwnedBy(headId)) &&
    d.kitchenOrders == Select(t.kitchenOrders, OwnedBy(headId)) &&
    d.loyalty == Select(t.loyalty, OwnedBy(headId)) &&
    d.notes == Select(t.notes, OwnedBy(headId)) &&
    d.fiscal == (match FindFirst(t.fiscal, OwnedBy(headId)) case None => None case Some(j) => Some(t.fiscal[j])) &&
    d.refunds == Select(t.refunds, OwnedBy(headId)) &&
    d.surcharges == Select(t.surcharges, OwnedBy(headId)) &&
    d.taxes == Select(t.taxes, OwnedBy(headId)) &&
    d.tips == Select(t.tips, OwnedBy(headId)) &&
    d.changes == (if withChanges then Select(t.changes, ChangesOf(headId)) else [])
  }

  /** The live lines of one head, per line kind (`filter_by(fk_transaction_head_id=…, is_deleted=False)`). */
  function OwnedBy(headId: Id): OtherLine -> bool
  {
    (l: OtherLine) => l.headId == headId && !l.isDeleted
  }

  function ProductsOf(headId: Id): ProductLine -> bool
  {
    (l: ProductLine) => l.headId == headId && !l.isDeleted
  }

  function PaymentsOf(headId: Id): PaymentLine -> bool
  {
    (l: PaymentLine) => l.headId == headId && !l.isDeleted
  }

  function DiscountsOf(headId: Id): DiscountLine -> bool
  {
    (l: DiscountLine) => l.headId == headId && !l.isDeleted
  }

  function DepartmentsOf(headId: Id): DepartmentLine -> bool
  {
    (l: DepartmentLine) => l.headId == headId && !l.isDeleted
  }

  function ChangesOf(headId: Id): ChangeLine -> bool
  {
    (l: ChangeLine) => l.headId == headId && !l.isDeleted
  }

  /** `get_by_id`. */
  function HasId(headId: Id): Head -> bool
  {
    (h: Head) => h.id == headId
  }

  // ------------------------------------------------------------ completing

  /** The head after `complete_document`'s status step. */
  function Closing(h: Head, isCancel: bool, cancelReason: Option<string>): (r: Head)
    ensures r.isClosed
    ensures isCancel ==> r.status == Cancelled && r.isCancel
    ensures !isCancel ==> r.status == Completed && r.isCancel == h.isCancel
    ensures isCancel && cancelReason.Some? && cancelReason.value != "" ==> r.cancelReason == cancelReason
    ensures !(isCancel && cancelReason.Some? && cancelReason.value != "") ==> r.cancelReason == h.cancelReason
    ensures r.(status := h.status, isClosed := h.isClosed, isCancel := h.isCancel, cancelReason := h.cancelReason) == h
  {
    if isCancel then
      var c := h.(status := Cancelled, isCancel := true);
      var c := if cancelReason.Some? && cancelReason.value != "" then c.(cancelReason := cancelReason) else c;
      c.(isClosed := true)
    else h.(status := Completed, isClosed := true)
  }

  function MoveProduct(headId: Id): (ProductLine, Id) -> ProductLine
  {
    (l: ProductLine, id: Id) => l.(id := id, headId := headId)
  }

  function MovePayment(headId: Id): (PaymentLine, Id) -> PaymentLine
  {
    (l: PaymentLine, id: Id) => l.(id := id, headId := headId)
  }

  function MoveDepartment(headId: Id): (DepartmentLine, Id) -> DepartmentLine
  {
    (l: DepartmentLine, id: Id) => l.(id := id, headId := headId)
  }

  /** A discount copy: its product, payment and total references are
      translated through the id maps; the total reference becomes the
      permanent table's department reference. */
  function MoveDiscount(headId: Id, productMap: map<Id, Id>, paymentMap: map<Id, Id>, totalMap: map<Id, Id>)
    : (DiscountLine, Id) -> DiscountLine
  {
    (l: DiscountLine, id: Id) => l.(id := id, headId := headId,
                                    productRef := MapRef(l.productRef, productMap),
                                    paymentRef := MapRef(l.paymentRef, paymentMap),
                                    totalRef := None,
                                    departmentRef := MapRef(l.totalRef, totalMap))
  }

  /** Any other line's copy; a product or payment reference is translated
      when that line kind has one. */
  function MoveOther(headId: Id, productMap: Option<map<Id, Id>>, paymentMap: Option<map<Id, Id>>)
    : (OtherLine, Id) -> OtherLine
  {
    (l: OtherLine, id: Id) => l.(id := id, headId := headId,
                                 productRef := if productMap.Some? then MapRef(l.productRef, productMap.value) else l.productRef,
                                 paymentRef := if paymentMap.Some? then MapRef(l.paymentRef, paymentMap.value) else l.paymentRef)
  }

  /** Everything `complete_document` writes to the permanent tier. */
  datatype PermanentCopy = PermanentCopy(
    heads: seq<Head>,
    products: seq<ProductLine>,
    payments: seq<PaymentLine>,
    departments: seq<DepartmentLine>,
    discounts: seq<DiscountLine>,
    deliveries: seq<OtherLine>,
    kitchenOrders: seq<OtherLine>,
    loyalty: seq<OtherLine>,
    notes: seq<OtherLine>,
    fiscal: seq<OtherLine>,
    refunds: seq<OtherLine>,
    surcharges: seq<OtherLine>,
    taxes: seq<OtherLine>,
    tips: seq<OtherLine>)

  /** A copy with no rows, from which the parts of a copy are built. */
  const NoCopy := PermanentCopy([], [], [], [], [], [], [], [], [], [], [], [], [], [])

  /** The fiscal line as a table of at most one row. */
  function FiscalRows(f: Option<OtherLine>): (r: seq<OtherLine>)
    ensures f.None? ==> r == []
    ensures f.Some? ==> r == [f.value]
  {
    if f.Some? then [f.value] else []
  }

  /** The temp→permanent maps for product, payment and department lines,
      when the copy of a document starts drawing ids at `start` (the head
      takes the first). */
  function ProductMap(products: seq<ProductLine>, ids: nat -> Id, start: nat): map<Id, Id>
  {
    IdMap(products, ProductId, ids, start + 1)
  }

  function PaymentMap(products: seq<ProductLine>, payments: seq<PaymentLine>, ids: nat -> Id, start: nat): map<Id, Id>
  {
    IdMap(payments, PaymentId, ids, start + 1 + |products|)
  }

  function DepartmentMap(products: seq<ProductLine>, payments: seq<PaymentLine>, departments: seq<DepartmentLine>,
                         ids: nat -> Id, start: nat): map<Id, Id>
  {
    IdMap(departments, DepartmentId, ids, start + 1 + |products| + |payments|)
  }

  /** The head and the three line tables other lines refer to: the head
      takes `ids(start)`, the lines the ids after it, in table order. */
  ghost predicate KeyedCopy(heads: seq<Head>, products: seq<ProductLine>, payments: seq<PaymentLine>,
                            departments: seq<DepartmentLine>, head: Head, ps: seq<ProductLine>,
                            pays: seq<PaymentLine>, deps: seq<DepartmentLine>, ids: nat -> Id, start: nat)
  {
    var h := ids(start);
    var s2 := start + 1 + |ps|;
    heads == [head.(id := h)] &&
    Relocated(products, ps, MoveProduct(h), ids, start + 1) &&
    Relocated(payments, pays, MovePayment(h), ids, s2) &&
    Relocated(departments, deps, MoveDepartment(h), ids, s2 + |pays|)
  }

  /** Discounts, deliveries and kitchen orders, drawing ids from `s`. */
  ghost predicate CopyA(discounts: seq<DiscountLine>, deliveries: seq<OtherLine>, kitchenOrders: seq<OtherLine>,
                        ds: seq<DiscountLine>, dels: seq<OtherLine>, kos: seq<OtherLine>,
                        h: Id, pm: map<Id, Id>, paym: map<Id, Id>, tm: map<Id, Id>, ids: nat -> Id, s: nat)
  {
    var s5 := s + |ds|;
    Relocated(discounts, ds, MoveDiscount(h, pm, paym, tm), ids, s) &&
    Relocated(deliveries, dels, MoveOther(h, None, None), ids, s5) &&
    Relocated(kitchenOrders, kos, MoveOther(h, Some(pm), None), ids, s5 + |dels|)
  }

  /** Loyalty lines, notes and the fiscal line, drawing ids from `s`. */
  ghost predicate CopyB(loyalty: seq<OtherLine>, notes: seq<OtherLine>, fiscal: seq<OtherLine>,
                        loys: seq<OtherLine>, ns: seq<OtherLine>, f: Option<OtherLine>, h: Id, ids: nat -> Id, s: nat)
  {
    var s8 := s + |loys|;
    Relocated(loyalty, loys, MoveOther(h, None, None), ids, s) &&
    Relocated(notes, ns, MoveOther(h, None, None), ids, s8) &&
    Relocated(fiscal, FiscalRows(f), MoveOther(h, None, None), ids, s8 + |ns|)
  }

  /** Refunds, surcharges, taxes and tips, drawing ids from `s`. */
  ghost predicate CopyC(refunds: seq<OtherLine>, surcharges: seq<OtherLine>, taxes: seq<OtherLine>,
                        tips: seq<OtherLine>, rs: seq<OtherLine>, ss: seq<OtherLine>, txs: seq<OtherLine>,
                        tps: seq<OtherLine>, h: Id, pm: map<Id, Id>, paym: map<Id, Id>, ids: nat -> Id, s: nat)
  {
    var s11 := s + |rs|;
    var s12 := s11 + |ss|;
    Relocated(refunds, rs, MoveOther(h, Some(pm), None), ids, s) &&
    Relocated(surcharges, ss, MoveOther(h, None, None), ids, s11) &&
    Relocated(taxes, txs, MoveOther(h, Some(pm), None), ids, s12) &&
    Relocated(tips, tps, MoveOther(h, None, Some(paym)), ids, s12 + |txs|)
  }

  /** Where the ids of each group of tables start when the copy of `d`
      starts at `start`. */
  function StartA(d: DocumentData, start: nat): nat
    reads d
  {
    start + 1 + |d.products| + |d.payments| + |d.departments|
  }

  function StartB(d: DocumentData, start: nat): nat
    reads d
  {
    StartA(d, start) + |d.discounts| + |d.deliveries| + |d.kitchenOrders|
  }

  function StartC(d: DocumentData, start: nat): nat
    reads d
  {
    StartB(d, start) + |d.loyalty| + |d.notes| + |FiscalRows(d.fiscal)|
  }

  /** The head and the product, payment and department lines of `c` are
      those of `d` copied from `ids(start)` on. */
  ghost predicate CopiesKeyed(c: PermanentCopy, d: DocumentData, ids: nat -> Id, start: nat)
    reads d
  {
    KeyedCopy(c.heads, c.products, c.payments, c.departments, d.head, d.products, d.payments, d.departments,
              ids, start)
  }

  /** The discounts, deliveries and kitchen orders of `c` are those of `d`
      copied, with their references translated. */
  ghost predicate CopiesA(c: PermanentCopy, d: DocumentData, ids: nat -> Id, start: nat)
    reads d
  {
    CopyA(c.discounts, c.deliveries, c.kitchenOrders, d.discounts, d.deliveries, d.kitchenOrders, ids(start),
          ProductMap(d.products, ids, start), PaymentMap(d.products, d.payments, ids, start),
          DepartmentMap(d.products, d.payments, d.departments, ids, start), ids, StartA(d, start))
  }

  /** The loyalty lines, notes and fiscal line of `c` are those of `d` copied. */
  ghost predicate CopiesB(c: PermanentCopy, d: DocumentData, ids: nat -> Id, start: nat)
    reads d
  {
    CopyB(c.loyalty, c.notes, c.fiscal, d.loyalty, d.notes, d.fiscal, ids(start), ids, StartB(d, start))
  }

  /** The refunds, surcharges, taxes and tips of `c` are those of `d`
      copied, with their references translated. */
  ghost predicate CopiesC(c: PermanentCopy, d: DocumentData, ids: nat -> Id, start: nat)
    reads d
  {
    CopyC(c.refunds, c.surcharges, c.taxes, c.tips, d.refunds, d.surcharges, d.taxes, d.tips, ids(start),
          ProductMap(d.products, ids, start), PaymentMap(d.products, d.payments, ids, start), ids, StartC(d, start))
  }

  /** `c` is the copy of `d` when the ids `ids(start)`, `ids(start + 1)`, …
      are drawn in order: the head first, then each line table in the
      order `complete_document` copies them, every line pointing at the
      new head and its product, payment and total references translated
      through the id maps. */
  ghost predicate IsCopyOf(c: PermanentCopy, d: DocumentData, ids: nat -> Id, start: nat)
    reads d
  {
    CopiesKeyed(c, d, ids, start) && CopiesA(c, d, ids, start) && CopiesB(c, d, ids, start) &&
    CopiesC(c, d, ids, start)
  }

  /** The number of ids the copy of `d` draws: one per row, plus the head. */
  function CopyCount(d: DocumentData): (n: nat)
    reads d
    ensures n >= 1
  {
    1 + |d.products| + |d.payments| + |d.departments| + |d.discounts| + |d.deliveries| + |d.kitchenOrders| +
    |d.loyalty| + |d.notes| + |FiscalRows(d.fiscal)| + |d.refunds| + |d.surcharges| + |d.taxes| + |d.tips|
  }

  /** The permanent tier once `c` is appended to it, table by table; the
      change lines are not copied. */
  function WithCopy(t: PermanentTables, c: PermanentCopy): PermanentTables
  {
    PermanentTables(t.heads + c.heads, t.products + c.products, t.payments + c.payments,
                    t.discounts + c.discounts, t.departments + c.departments, t.deliveries + c.deliveries,
                    t.kitchenOrders + c.kitchenOrders, t.loyalty + c.loyalty, t.notes + c.notes,
                    t.fiscal + c.fiscal, t.refunds + c.refunds, t.surcharges + c.surcharges, t.taxes + c.taxes,
                    t.tips + c.tips, t.changes)
  }

  /** Every copied line points at the copied head. */
  lemma CopyPointsAtHead(c: PermanentCopy, d: DocumentData, ids: nat -> Id, start: nat)
    requires CopiesKeyed(c, d, ids, start) && CopiesA(c, d, ids, start) && CopiesC(c, d, ids, start)
    ensures |c.heads| == 1 && c.heads[0] == d.head.(id := ids(start))
    ensures forall k :: 0 <= k < |c.products| ==> c.products[k].headId == c.heads[0].id
    ensures forall k :: 0 <= k < |c.payments| ==> c.payments[k].headId == c.heads[0].id
    ensures forall k :: 0 <= k < |c.departments| ==> c.departments[k].headId == c.heads[0].id
    ensures forall k :: 0 <= k < |c.discounts| ==> c.discounts[k].headId == c.heads[0].id
    ensures forall k :: 0 <= k < |c.tips| ==> c.tips[k].headId == c.heads[0].id
  {
  }

  /** Copied product lines carry the same amounts as the originals. */
  lemma {:induction false} RelocatedProductTotals(cs: seq<ProductLine>, ps: seq<ProductLine>, h: Id, ids: nat -> Id, s: nat)
    requires Relocated(cs, ps, MoveProduct(h), ids, s)
    ensures SaleService.ProductTotal(cs) == SaleService.ProductTotal(ps)
    ensures SaleService.ProductVat(cs) == SaleService.ProductVat(ps)
    decreases |ps|
  {
    if |ps| > 0 {
      RelocatedInit(cs, ps, MoveProduct(h), ids, s);
      RelocatedProductTotals(cs[..|ps| - 1], ps[..|ps| - 1], h, ids, s);
    }
  }

  /** Copied department lines carry the same amounts as the originals. */
  lemma {:induction false} RelocatedDepartmentTotals(cs: seq<DepartmentLine>, ds: seq<DepartmentLine>, h: Id,
                                                    ids: nat -> Id, s: nat)
    requires Relocated(cs, ds, MoveDepartment(h), ids, s)
    ensures SaleService.DepartmentTotal(cs) == SaleService.DepartmentTotal(ds)
    ensures SaleService.DepartmentVat(cs) == SaleService.DepartmentVat(ds)
    decreases |ds|
  {
    if |ds| > 0 {
      RelocatedInit(cs, ds, MoveDepartment(h), ids, s);
      RelocatedDepartmentTotals(cs[..|ds| - 1], ds[..|ds| - 1], h, ids, s);
    }
  }

  /** The permanent sale lines add up to the same totals as the document's,
      so the copied head's totals still agree with its lines. */
  lemma CopyKeepsTotals(c: PermanentCopy, d: DocumentData, ids: nat -> Id, start: nat)
    requires CopiesKeyed(c, d, ids, start)
    ensures SaleService.ProductTotal(c.products) == SaleService.ProductTotal(d.products)
    ensures SaleService.ProductVat(c.products) == SaleService.ProductVat(d.products)
    ensures SaleService.DepartmentTotal(c.departments) == SaleService.DepartmentTotal(d.departments)
    ensures SaleService.DepartmentVat(c.departments) == SaleService.DepartmentVat(d.departments)
  {
    var h := ids(start);
    RelocatedProductTotals(c.products, d.products, h, ids, start + 1);
    RelocatedDepartmentTotals(c.departments, d.departments, h, ids, start + 1 + |d.products| + |d.payments|);
  }

  /** A discount that referred to the k-th product line refers, once
      copied, to the copy of that line (temporary ids being distinct). */
  lemma DiscountFollowsProduct(c: PermanentCopy, d: DocumentData, ids: nat -> Id, start: nat, i: nat, k: nat)
    requires CopiesKeyed(c, d, ids, start) && CopiesA(c, d, ids, start)
    requires i < |d.discounts| && k < |d.products|
    requires forall a, b :: 0 <= a < b < |d.products| ==> d.products[a].id != d.products[b].id
    requires d.discounts[i].productRef == Some(d.products[k].id)
    ensures c.discounts[i].productRef == Some(c.products[k].id)
  {
    IdMapPoints(d.products, ProductId, ids, start + 1, k);
  }

  /** Likewise a discount on the k-th department line follows its copy. */
  lemma DiscountFollowsDepartment(c: PermanentCopy, d: DocumentData, ids: nat -> Id, start: nat, i: nat, k: nat)
    requires CopiesKeyed(c, d, ids, start) && CopiesA(c, d, ids, start)
    requires i < |d.discounts| && k < |d.departments|
    requires forall a, b :: 0 <= a < b < |d.departments| ==> d.departments[a].id != d.departments[b].id
    requires d.discounts[i].totalRef == Some(d.departments[k].id)
    ensures c.discounts[i].departmentRef == Some(c.departments[k].id)
  {
    var s3 := start + 1 + |d.products| + |d.payments|;
    IdMapPoints(d.departments, DepartmentId, ids, s3, k);
  }

  /** And a tip on the k-th payment line follows its copy. */
  lemma TipFollowsPayment(c: PermanentCopy, d: DocumentData, ids: nat -> Id, start: nat, i: nat, k: nat)
    requires CopiesKeyed(c, d, ids, start) && CopiesC(c, d, ids, start)
    requires i < |d.tips| && k < |d.payments|
    requires forall a, b :: 0 <= a < b < |d.payments| ==> d.payments[a].id != d.payments[b].id
    requires d.tips[i].paymentRef == Some(d.payments[k].id)
    ensures c.tips[i].paymentRef == Some(c.payments[k].id)
  {
    IdMapPoints(d.payments, PaymentId, ids, start + 1 + |d.products|, k);
  }

  /** Copies rows in order, one fresh id each; `start` names the first
      id drawn. */
  method CopyRows<T>(rows: seq<T>, move: (T, Id) -> T, uuid: UuidSource, ghost start: nat) returns (copies: seq<T>)
    requires uuid.count == start
    modifies uuid
    ensures uuid.count == start + |rows|
    ensures Relocated(copies, rows, move, uuid.values, start)
  {
    copies := [];
    var i := 0;
    while i < |rows|
      invariant 0 <= i <= |rows| && uuid.count == start + i
      invariant Relocated(copies, rows[..i], move, uuid.values, start)
    {
      RelocatedSnoc(copies, rows, move, uuid.values, start, i);
      var id := uuid.Next();
      copies := copies + [move(rows[i], id)];
      i := i + 1;
    }
    assert rows[..i] == rows;
  }

  /** Copies rows like `CopyRows`, also recording temp id → new id. */
  method CopyKeyedRows<T>(rows: seq<T>, move: (T, Id) -> T, idOf: T -> Id, uuid: UuidSource, ghost start: nat)
    returns (copies: seq<T>, idMap: map<Id, Id>)
    requires uuid.count == start
    modifies uuid
    ensures uuid.count == start + |rows|
    ensures Relocated(copies, rows, move, uuid.values, start)
    ensures idMap == IdMap(rows, idOf, uuid.values, start)
  {
    copies, idMap := [], map[];
    var i := 0;
    while i < |rows|
      invariant 0 <= i <= |rows| && uuid.count == start + i
      invariant Relocated(copies, rows[..i], move, uuid.values, start)
      invariant idMap == IdMap(rows[..i], idOf, uuid.values, start)
    {
      assert rows[..i + 1][..i] == rows[..i];
      RelocatedSnoc(copies, rows, move, uuid.values, start, i);
      var id := uuid.Next();
      idMap := idMap[idOf(rows[i]) := id];
      copies := copies + [move(rows[i], id)];
      i := i + 1;
    }
    assert rows[..i] == rows;
  }

  // ------------------------------------------------------------ the manager

  /** The document-related state of the application: the open document,
      the cached POS data it is numbered from, the customer table and both
      tiers of the transaction tables. */
  class Manager {
    var document: DocumentData?
    var posSettings: Option<PosSettings>
    var sequences: seq<TransactionSequence>
    var storeIds: seq<Id>
    var customers: seq<Customer>
    var temp: TempTables
    const archive: Archive

    constructor (a: Archive, settings: Option<PosSettings>, seqs: seq<TransactionSequence>, stores: seq<Id>,
                 cs: seq<Customer>, t: TempTables)
      ensures archive == a && document == null && posSettings == settings && sequences == seqs
      ensures storeIds == stores && customers == cs && temp == t
    {
      archive := a;
      document := null;
      posSettings, sequences, storeIds, customers, temp := settings, seqs, stores, cs, t;
    }

    /** The walk-in lookup shared by document creation and the sale
        update: an existing customer, or a newly created default one. */
    method FindOrCreateCustomer(uuid: UuidSource) returns (id: Id)
      modifies this`customers, uuid
      ensures DefaultCustomer(old(customers)).Some? ==>
        id == DefaultCustomer(old(customers)).value && customers == old(customers) && uuid.count == old(uuid.count)
      ensures DefaultCustomer(old(customers)).None? ==>
        id == uuid.values(old(uuid.count)) && customers == old(customers) + [DefaultCustomerRow(id)] &&
        uuid.count == old(uuid.count) + 1
    {
      var found := DefaultCustomer(customers);
      if found.Some? {
        id := found.value;
      } else {
        id := uuid.Next();
        customers := customers + [DefaultCustomerRow(id)];
      }
    }

    /** `create_empty_document`: nothing is created without POS settings
        or a store; otherwise the document holds a new draft head and
        fourteen empty collections. */
    method CreateEmptyDocument(t: DocumentType, today: Date, now: int, uuid: UuidSource) returns (ok: bool)
      modifies this`document, this`customers, uuid
      ensures ok <==> posSettings.Some? && |storeIds| > 0
      ensures !ok ==> document == old(document) && customers == old(customers) && uuid.count == old(uuid.count)
      ensures ok ==>
        var drawn := if DefaultCustomer(old(customers)).Some? then 0 else 1;
        var customerId := if drawn == 0 then DefaultCustomer(old(customers)).value else uuid.values(old(uuid.count));
        fresh(document) && IsEmptyDocument(document) && uuid.count == old(uuid.count) + drawn + 1 &&
        document.head == NewHead(uuid.values(old(uuid.count) + drawn), posSettings.value, t, sequences,
                                 storeIds[0], customerId, today, now)
    {
      if posSettings.None? {
        return false;
      }
      if |storeIds| == 0 {
        return false;
      }
      var customerId := FindOrCreateCustomer(uuid);
      var id := uuid.Next();
      var head := NewHead(id, posSettings.value, t, sequences, storeIds[0], customerId, today, now);
      OpenDocument(head);
      return true;
    }

    /** Makes a new empty document with head `h` the open one. */
    method OpenDocument(h: Head)
      modifies this`document
      ensures fresh(document) && IsEmptyDocument(document) && document.head == h
    {
      document := new DocumentData.Empty(h);
    }

    /** `_load_document_data`: replaces the document with the stored head
        and its live lines (no change lines); nothing happens when no
        head has that id. */
    method LoadDocumentData(headId: Id)
      modifies this`document
      ensures FindFirst(temp.heads, HasId(headId)).None? ==> document == old(document)
      ensures FindFirst(temp.heads, HasId(headId)).Some? ==>
        fresh(document) && LoadedFrom(document, temp, headId, false)
    {
      var k := FindFirst(temp.heads, HasId(headId));
      if k.None? {
        return;
      }
      var fiscal := match FindFirst(temp.fiscal, OwnedBy(headId)) case None => None case Some(j) => Some(temp.fiscal[j]);
      document := new DocumentData.Loaded(
        temp.heads[k.value],
        Select(temp.products, ProductsOf(headId)),
        Select(temp.payments, PaymentsOf(headId)),
        Select(temp.discounts, DiscountsOf(headId)),
        Select(temp.departments, DepartmentsOf(headId)),
        Select(temp.deliveries, OwnedBy(headId)),
        Select(temp.kitchenOrders, OwnedBy(headId)),
        Select(temp.loyalty, OwnedBy(headId)),
        Select(temp.notes, OwnedBy(headId)),
        fiscal,
        Select(temp.refunds, OwnedBy(headId)),
        Select(temp.surcharges, OwnedBy(headId)),
        Select(temp.taxes, OwnedBy(headId)),
        Select(temp.tips, OwnedBy(headId)),
        []);
    }

    /** `_load_document_data_dict`: the same lines, change lines included,
        as a new document that is not installed; null when no head has
        that id. */
    method LoadDocumentDataDict(headId: Id) returns (d: DocumentData?)
      ensures d == null <==> FindFirst(temp.heads, HasId(headId)).None?
      ensures d != null ==> fresh(d) && LoadedFrom(d, temp, headId, true)
    {
      var k := FindFirst(temp.heads, HasId(headId));
      if k.None? {
        return null;
      }
      var fiscal := match FindFirst(temp.fiscal, OwnedBy(headId)) case None => None case Some(j) => Some(temp.fiscal[j]);
      d := new DocumentData.Loaded(
        temp.heads[k.value],
        Select(temp.products, ProductsOf(headId)),
        Select(temp.payments, PaymentsOf(headId)),
        Select(temp.discounts, DiscountsOf(headId)),
        Select(temp.departments, DepartmentsOf(headId)),
        Select(temp.deliveries, OwnedBy(headId)),
        Select(temp.kitchenOrders, OwnedBy(headId)),
        Select(temp.loyalty, OwnedBy(headId)),
        Select(temp.notes, OwnedBy(headId)),
        fiscal,
        Select(temp.refunds, OwnedBy(headId)),
        Select(temp.surcharges, OwnedBy(headId)),
        Select(temp.taxes, OwnedBy(headId)),
        Select(temp.tips, OwnedBy(headId)),
        Select(temp.changes, ChangesOf(headId)));
    }

    /** `load_incomplete_document`: resumes the newest incomplete head;
        with none, reports false and keeps the current document. */
    method LoadIncompleteDocument() returns (ok: bool)
      modifies this`document
      ensures ok <==> LatestIncomplete(temp.heads).Some?
      ensures !ok ==> document == old(document)
      ensures ok ==> fresh(document) && LoadedFrom(document, temp, temp.heads[LatestIncomplete(temp.heads).value].id, false)
    {
      var k := LatestIncomplete(temp.heads);
      if k.None? {
        return false;
      }
      var headId := temp.heads[k.value].id;
      ghost var first := FindFirst(temp.heads, HasId(headId));
      assert first.Some? && first.value <= k.value;
      LoadDocumentData(headId);
      return true;
    }

    /** The copy pass of `complete_document`: the head under a fresh id,
        then every line table with fresh ids, the new head's id and
        translated references; `c` is what was written. */
    method CopyToPermanent(d: DocumentData, uuid: UuidSource) returns (c: PermanentCopy)
      modifies archive, uuid
      ensures archive.tables == WithCopy(old(archive.tables), c) && IsCopyOf(c, d, uuid.values, old(uuid.count))
      ensures uuid.count == old(uuid.count) + old(CopyCount(d))
    {
      ghost var start := uuid.count;
      ghost var sa, sb, sc := StartA(d, start), StartB(d, start), StartC(d, start);
      var head, products, payments, departments := d.head, d.products, d.payments, d.departments;
      var discounts, deliveries, kitchenOrders := d.discounts, d.deliveries, d.kitchenOrders;
      var loyalty, notes, fiscal := d.loyalty, d.notes, d.fiscal;
      var refunds, surcharges, taxes, tips := d.refunds, d.surcharges, d.taxes, d.tips;
      var h, pm, paym, tm, hs, ps, pays, deps := CopyKeyedLines(head, products, payments, departments, uuid, start);
      var ds, dels, kos := CopyLinesA(discounts, deliveries, kitchenOrders, h, pm, paym, tm, uuid, sa);
      var loys, ns, fs := CopyLinesB(loyalty, notes, fiscal, h, uuid, sb);
      var rs, ss, txs, tps := CopyLinesC(refunds, surcharges, taxes, tips, h, pm, paym, uuid, sc);
      c := PermanentCopy(hs, ps, pays, deps, ds, dels, kos, loys, ns, fs, rs, ss, txs, tps);
      archive.tables := WithCopy(archive.tables, c);
    }

    /** The head, product, payment and department lines, and the id maps
        the other lines are translated through. */
    method CopyKeyedLines(head: Head, products: seq<ProductLine>, payments: seq<PaymentLine>,
                          departments: seq<DepartmentLine>, uuid: UuidSource, ghost start: nat)
      returns (h: Id, pm: map<Id, Id>, paym: map<Id, Id>, tm: map<Id, Id>, hs: seq<Head>,
               ps: seq<ProductLine>, pays: seq<PaymentLine>, deps: seq<DepartmentLine>)
      requires uuid.count == start
      modifies uuid
      ensures h == uuid.values(start)
      ensures pm == ProductMap(products, uuid.values, start)
      ensures paym == PaymentMap(products, payments, uuid.values, start)
      ensures tm == DepartmentMap(products, payments, departments, uuid.values, start)
      ensures KeyedCopy(hs, ps, pays, deps, head, products, payments, departments, uuid.values, start)
      ensures uuid.count == start + 1 + |products| + |payments| + |departments|
    {
      h := uuid.Next();
      ps, pm := CopyProducts(products, h, uuid, start);
      pays, paym := CopyPayments(products, payments, h, uuid, start);
      deps, tm := CopyDepartments(products, payments, departments, h, uuid, start);
      hs := [head.(id := h)];
    }

    /** The product lines, filling `product_id_map`. */
    method CopyProducts(products: seq<ProductLine>, h: Id, uuid: UuidSource, ghost start: nat)
      returns (ps: seq<ProductLine>, pm: map<Id, Id>)
      requires uuid.count == start + 1
      modifies uuid
      ensures Relocated(ps, products, MoveProduct(h), uuid.values, start + 1)
      ensures pm == ProductMap(products, uuid.values, start)
      ensures uuid.count == start + 1 + |products|
    {
      ps, pm := CopyKeyedRows(products, MoveProduct(h), ProductId, uuid, start + 1);
    }

    /** The payment lines, filling `payment_id_map`. */
    method CopyPayments(products: seq<ProductLine>, payments: seq<PaymentLine>, h: Id, uuid: UuidSource,
                        ghost start: nat)
      returns (pays: seq<PaymentLine>, paym: map<Id, Id>)
      requires uuid.count == start + 1 + |products|
      modifies uuid
      ensures Relocated(pays, payments, MovePayment(h), uuid.values, start + 1 + |products|)
      ensures paym == PaymentMap(products, payments, uuid.values, start)
      ensures uuid.count == start + 1 + |products| + |payments|
    {
      pays, paym := CopyKeyedRows(payments, MovePayment(h), PaymentId, uuid, start + 1 + |products|);
    }

    /** The department lines, filling `total_id_map`. */
    method CopyDepartments(products: seq<ProductLine>, payments: seq<PaymentLine>, departments: seq<DepartmentLine>,
                           h: Id, uuid: UuidSource, ghost start: nat)
      returns (deps: seq<DepartmentLine>, tm: map<Id, Id>)
      requires uuid.count == start + 1 + |products| + |payments|
      modifies uuid
      ensures Relocated(deps, departments, MoveDepartment(h), uuid.values, start + 1 + |products| + |payments|)
      ensures tm == DepartmentMap(products, payments, departments, uuid.values, start)
      ensures uuid.count == start + 1 + |products| + |payments| + |departments|
    {
      deps, tm := CopyKeyedRows(departments, MoveDepartment(h), DepartmentId, uuid,
                                start + 1 + |products| + |payments|);
    }

    /** Discounts, deliveries and kitchen orders. */
    method CopyLinesA(discounts: seq<DiscountLine>, deliveries: seq<OtherLine>, kitchenOrders: seq<OtherLine>,
                      h: Id, pm: map<Id, Id>, paym: map<Id, Id>, tm: map<Id, Id>, uuid: UuidSource, ghost start: nat)
      returns (ds: seq<DiscountLine>, dels: seq<OtherLine>, kos: seq<OtherLine>)
      requires uuid.count == start
      modifies uuid
      ensures CopyA(ds, dels, kos, discounts, deliveries, kitchenOrders, h, pm, paym, tm, uuid.values, start)
      ensures uuid.count == start + |discounts| + |deliveries| + |kitchenOrders|
    {
      ds := CopyRows(discounts, MoveDiscount(h, pm, paym, tm), uuid, start);
      dels := CopyRows(deliveries, MoveOther(h, None, None), uuid, start + |discounts|);
      kos := CopyRows(kitchenOrders, MoveOther(h, Some(pm), None), uuid, start + |discounts| + |deliveries|);
    }

    /** Loyalty lines, notes and the fiscal line. */
    method CopyLinesB(loyalty: seq<OtherLine>, notes: seq<OtherLine>, fiscal: Option<OtherLine>, h: Id,
                      uuid: UuidSource, ghost start: nat)
      returns (loys: seq<OtherLine>, ns: seq<OtherLine>, fs: seq<OtherLine>)
      requires uuid.count == start
      modifies uuid
      ensures CopyB(loys, ns, fs, loyalty, notes, fiscal, h, uuid.values, start)
      ensures uuid.count == start + |loyalty| + |notes| + |FiscalRows(fiscal)|
    {
      loys := CopyRows(loyalty, MoveOther(h, None, None), uuid, start);
      ns := CopyRows(notes, MoveOther(h, None, None), uuid, start + |loyalty|);
      fs := CopyRows(FiscalRows(fiscal), MoveOther(h, None, None), uuid, start + |loyalty| + |notes|);
    }

    /** Refunds, surcharges, taxes and tips. */
    method CopyLinesC(refunds: seq<OtherLine>, surcharges: seq<OtherLine>, taxes: seq<OtherLine>, tips: seq<OtherLine>,
                      h: Id, pm: map<Id, Id>, paym: map<Id, Id>, uuid: UuidSource, ghost start: nat)
      returns (rs: seq<OtherLine>, ss: seq<OtherLine>, txs: seq<OtherLine>, tps: seq<OtherLine>)
      requires uuid.count == start
      modifies uuid
      ensures CopyC(rs, ss, txs, tps, refunds, surcharges, taxes, tips, h, pm, paym, uuid.values, start)
      ensures uuid.count == start + |refunds| + |surcharges| + |taxes| + |tips|
    {
      rs := CopyRows(refunds, MoveOther(h, Some(pm), None), uuid, start);
      ss := CopyRows(surcharges, MoveOther(h, None, None), uuid, start + |refunds|);
      txs := CopyRows(taxes, MoveOther(h, Some(pm), None), uuid, start + |refunds| + |surcharges|);
      tps := CopyRows(tips, MoveOther(h, None, Some(paym)), uuid, start + |refunds| + |surcharges| + |taxes|);
    }

    /** `complete_document`: without a document nothing happens; otherwise
        the head is closed (completed or cancelled) and saved to the
        temporary tier, the whole document is copied to the permanent
        tier, and the document is dropped.  Database failures inside
        `create()` are swallowed there, so every copy is attempted. */
    method CompleteDocument(isCancel: bool, cancelReason: Option<string>, uuid: UuidSource)
      returns (ok: bool, c: PermanentCopy)
      modifies this`temp, this`document, document, archive, uuid
      ensures ok <==> old(document) != null
      ensures !ok ==> (document == null && temp == old(temp) && uuid.count == old(uuid.count) &&
        unchanged(archive))
      ensures ok ==>
        var d := old(document);
        d.head == Closing(old(document.head), isCancel, cancelReason) &&
        temp == old(temp).(heads := Upsert(old(temp.heads), d.head, HeadId)) &&
        archive.tables == WithCopy(old(archive.tables), c) && IsCopyOf(c, d, uuid.values, old(uuid.count)) &&
        uuid.count == old(uuid.count) + CopyCount(d) &&
        document == null
    {
      if document == null {
        return false, NoCopy;
      }
      var d := document;
      d.head := Closing(d.head, isCancel, cancelReason);
      temp := temp.(heads := Upsert(temp.heads, d.head, HeadId));
      document := null;
      c := CopyToPermanent(d, uuid);
      ok := true;
    }

    /** `set_document_pending`: suspends (PENDING) or resumes (ACTIVE)
        the open document and saves its head. */
    method SetDocumentPending(isPending: bool) returns (ok: bool)
      modifies this`temp, document
      ensures ok <==> document != null
      ensures !ok ==> temp == old(temp)
      ensures ok ==>
        document.head == old(document.head).(isPending := isPending, status := if isPending then Pending else Active) &&
        temp == old(temp).(heads := Upsert(old(temp.heads), document.head, HeadId))
    {
      if document == null {
        return false;
      }
      document.head := document.head.(isPending := isPending, status := if isPending then Pending else Active);
      temp := temp.(heads := Upsert(temp.heads, document.head, HeadId));
      return true;
    }
  }

  /** A suspended document is no longer a candidate for resumption, and a
      resumed one is again (unless it was closed, cancelled or deleted). */
  lemma PendingLeavesResumption(h: Head, isPending: bool)
    ensures isPending ==> !IsIncomplete(h.(isPending := isPending, status := Pending))
    ensures !isPending ==> (IsIncomplete(h.(isPending := isPending, status := Active)) <==>
      !h.isClosed && !h.isCancel && !h.isDeleted)
  {
  }

  /** A completed or cancelled head is never resumed. */
  lemma ClosedIsNotResumed(h: Head, isCancel: bool, cancelReason: Option<string>)
    ensures !IsIncomplete(Closing(h, isCancel, cancelReason))
  {
  }
}
