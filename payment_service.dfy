/**
 * The payment service: turning a payment button into an amount, adding a
 * payment line, recording change, deciding when a document is settled,
 * closing it, folding it into the open closure and copying it to the
 * permanent tier.
 */
module PaymentService {
  import opened Wrappers
  import opened Text
  import opened Documents
  import opened Closures

  // ------------------------------------------------------------ safe decimal

  /** A loosely typed column value as `_safe_decimal` may receive it. */
  datatype Value =
    | VNone
    | VDecimal(d: real)
    | VInt(i: int)
    | VFloat(f: real)
    | VStr(s: string)
    | VOther(text: string)

  /** `_safe_decimal`: NULL, blank and "none"/"null" strings and anything
      that does not parse become 0; numbers keep their value. */
  function SafeDecimal(v: Value): (r: real)
    ensures v.VNone? ==> r == 0.0
    ensures v.VDecimal? ==> r == v.d
    ensures v.VInt? ==> r == v.i as real
    ensures v.VStr? && ParseDecimal(v.s).Some? && Lower(Strip(v.s)) != "none" && Lower(Strip(v.s)) != "null" ==>
      r == ParseDecimal(v.s).value
    ensures v.VStr? && ParseDecimal(v.s).None? ==> r == 0.0
  {
    match v
    case VNone => 0.0
    case VDecimal(d) => d
    case VInt(i) => i as real
    case VFloat(f) => f
    case VStr(s) =>
      var t := Strip(s);
      StripIdempotent(s);
      if t == "" || Lower(t) == "none" || Lower(t) == "null" then 0.0
      else ParseDecimal(t).GetOr(0.0)
    case VOther(text) => ParseDecimal(text).GetOr(0.0)
  }

  /** Text that is already stripped, starts with a sign or a digit and
      parses as a decimal is read as that decimal. */
  lemma SafeDecimalOfNumberText(s: string, x: real)
    requires |s| > 0 && (s[0] == '-' || IsDigit(s[0]))
    requires Strip(s) == s && ParseDecimal(s) == Some(x)
    ensures SafeDecimal(VStr(s)) == x
  {
    assert Lower(s)[0] == s[0];
  }

  /** An integer written out as text is read back as that integer. */
  lemma SafeDecimalOfIntText(n: int)
    ensures SafeDecimal(VStr(IntToString(n))) == n as real
  {
    var s := IntToString(n);
    ParseDecimalOfInt(n);
    var m: nat := if n < 0 then -n else n;
    var d := NatToString(m);
    if n < 0 {
      assert s == "-" + d;
      StripNegativeDigits(d);
    } else {
      assert s == d;
      assert IsDigit(d[0]) && IsDigit(d[|d| - 1]);
      StripUnchanged(d);
    }
    SafeDecimalOfNumberText(s, n as real);
  }

  // ------------------------------------------------------------ amounts

  /** The event names of the payment buttons. */
  const CashPayment := "CASH_PAYMENT"
  const CreditPayment := "CREDIT_PAYMENT"
  const CheckPayment := "CHECK_PAYMENT"
  const ExchangePayment := "EXCHANGE_PAYMENT"
  const PrepaidPayment := "PREPAID_PAYMENT"
  const ChargeSalePayment := "CHARGE_SALE_PAYMENT"
  const OtherPayment := "OTHER_PAYMENT"

  /** Payment types that may never pay more than the remaining balance. */
  predicate IsClamped(paymentType: string)
  {
    paymentType == CreditPayment || paymentType == PrepaidPayment ||
    paymentType == ChargeSalePayment || paymentType == OtherPayment
  }

  /** Why a payment, a change record or a completion step is refused. */
  datatype PaymentError =
    | NoActiveDocument
    | AlreadyFullyPaid
    | InvalidCashButton
    | NonPositiveAmount
    | NoChangeDue
    /** A `create()` of the new row raised; the source reports the
        exception's text. */
    | StorageFailed

  /** What a payment button's name asks for: the remaining balance, or
      the amount written after "CASH". */
  datatype ButtonKind = PayBalance | PayCash(amountText: string)

  /** The name test of `calculate_payment_amount`: an upper-cased name
      starting with "PAYMENT" pays the balance; one starting with "CASH"
      pays the text after its first four characters; any other name pays
      the balance. */
  function ClassifyButton(buttonName: string): (k: ButtonKind)
    ensures k.PayCash? <==> !("PAYMENT" <= Upper(buttonName)) && "CASH" <= Upper(buttonName)
    ensures k.PayCash? ==> buttonName == buttonName[..4] + k.amountText
  {
    var upper := Upper(buttonName);
    if "PAYMENT" <= upper then PayBalance
    else if "CASH" <= upper then PayCash(DropFirst(buttonName, 4))
    else PayBalance
  }

  /** `calculate_payment_amount`: a balance button pays the remaining
      balance, "CASH<n>" pays n/100 (an n that int() rejects is an error),
      and clamped payment types are capped at the balance. */
  function PaymentAmount(buttonName: string, remaining: real, paymentType: string): (r: Result<real, PaymentError>)
    ensures r.Failure? <==> ClassifyButton(buttonName).PayCash? && ParseInt(ClassifyButton(buttonName).amountText).None?
    ensures r.Failure? ==> r.error == InvalidCashButton
    ensures r.Success? && IsClamped(paymentType) ==> r.value <= remaining
    ensures r.Success? && ClassifyButton(buttonName).PayBalance? ==> r.value == remaining
    ensures r.Success? && ClassifyButton(buttonName).PayCash? && !IsClamped(paymentType) ==>
      r.value == ParseInt(ClassifyButton(buttonName).amountText).value as real / 100.0
    ensures r.Success? && ClassifyButton(buttonName).PayCash? && IsClamped(paymentType) ==>
      var raw := ParseInt(ClassifyButton(buttonName).amountText).value as real / 100.0;
      r.value == if raw > remaining then remaining else raw
  {
    var raw :=
      match ClassifyButton(buttonName)
      case PayBalance => Success(remaining)
      case PayCash(text) =>
        match ParseInt(text)
        case None => Failure(InvalidCashButton)
        case Some(n) => Success(n as real / 100.0);
    if raw.Success? && IsClamped(paymentType) && raw.value > remaining then Success(remaining) else raw
  }

  /** A button named "CASH" followed by text is a cash button for that text. */
  lemma CashButtonName(t: string)
    ensures ClassifyButton("CASH" + t) == PayCash(t)
  {
    var upper := Upper("CASH" + t);
    assert upper[0] == 'C' && upper[1] == 'A' && upper[2] == 'S' && upper[3] == 'H';
    assert upper[..4] == "CASH";
    assert upper[0] != "PAYMENT"[0];
    assert DropFirst("CASH" + t, 4) == t;
  }

  /** Cash payments are not capped at the balance. */
  lemma CashIsNotClamped()
    ensures !IsClamped(CashPayment)
  {
    assert CashPayment[1] != CreditPayment[1] && CashPayment[0] != PrepaidPayment[0];
    assert CashPayment[1] != ChargeSalePayment[1] && CashPayment[0] != OtherPayment[0];
  }

  /** A "CASH<n>" button pays exactly n/100 in cash, whatever the balance:
      cash may overpay, which is how change arises. */
  lemma CashButtonPays(n: nat, remaining: real)
    ensures PaymentAmount("CASH" + IntToString(n), remaining, CashPayment) == Success(n as real / 100.0)
  {
    CashButtonName(IntToString(n));
    CashIsNotClamped();
    IntToStringRoundTrip(n);
  }

  /** A "CASH" button whose amount int() rejects is refused. */
  lemma UnreadableCashButtonFails(t: string, remaining: real, paymentType: string)
    requires ParseInt(t).None?
    ensures PaymentAmount("CASH" + t, remaining, paymentType) == Failure(InvalidCashButton)
  {
    CashButtonName(t);
  }

  /** A card-type button never pays more than the balance, even one
      labelled with a larger cash amount. */
  lemma ClampedNeverOverpays(buttonName: string, remaining: real, paymentType: string)
    requires IsClamped(paymentType)
    requires PaymentAmount(buttonName, remaining, paymentType).Success?
    ensures PaymentAmount(buttonName, remaining, paymentType).value <= remaining
  {
  }

  // ------------------------------------------------------------ payments

  /** The balance still to pay. */
  function Remaining(h: Head): real
  {
    h.totalAmount - h.totalPaymentAmount
  }

  /** The payment line `process_payment` adds to a document with head `h`
      and `lineCount` payments, given the button's `amount` and the new
      row id `id`; or why it refuses. */
  function PaymentStep(h: Head, lineCount: nat, paymentType: string, amount: Result<real, PaymentError>, id: Id): (r: Result<PaymentLine, PaymentError>)
    ensures Remaining(h) <= 0.0 ==> r == Failure(AlreadyFullyPaid)
    ensures r.Success? ==>
      var p := r.value;
      p.id == id && p.headId == h.id && p.lineNo == lineCount + 1 && p.paymentType == paymentType &&
      p.paymentTotal > 0.0 && p.currencyTotal == p.paymentTotal && p.exchangeRate == 1.0 &&
      p.currencyCode == CurrencyOrGbp(h.baseCurrency) && p.paymentStatus == "approved" && !p.isDeleted &&
      Success(p.paymentTotal) == amount
    ensures r.Failure? && Remaining(h) > 0.0 ==>
      match amount
      case Failure(e) => r.error == e
      case Success(a) => a <= 0.0 && r.error == NonPositiveAmount
  {
    if Remaining(h) <= 0.0 then Failure(AlreadyFullyPaid)
    else match amount
      case Failure(e) => Failure(e)
      case Success(a) =>
        if a <= 0.0 then Failure(NonPositiveAmount)
        else Success(PaymentLine(id, h.id, lineCount + 1, paymentType, a, CurrencyOrGbp(h.baseCurrency),
                                 a, 1.0, "approved", false))
  }

  /** `process_payment`: the amount comes from the button and the balance;
      on success the line is appended, the payment total grows by its
      amount and one id is drawn; otherwise nothing changes.  `created`
      says whether the row's `create()` succeeds: when it raises the
      payment fails with nothing changed.  A failed save of the head is
      swallowed and leaves no trace.  Only the head and the payments of
      the document can change. */
  method ProcessPayment(doc: DocumentData?, paymentType: string, buttonName: string, created: bool, uuid: UuidSource)
    returns (ok: bool, line: Option<PaymentLine>, err: Option<PaymentError>)
    modifies {doc}`head, {doc}`payments, uuid
    ensures doc == null ==> !ok && line.None? && err == Some(NoActiveDocument) && uuid.count == old(uuid.count)
    ensures doc != null ==>
      var amount := PaymentAmount(buttonName, Remaining(old(doc.head)), paymentType);
      var step := PaymentStep(old(doc.head), |old(doc.payments)|, paymentType, amount, uuid.values(old(uuid.count)));
      (ok <==> step.Success? && created) &&
      (ok ==> line == Some(step.value) && err.None? && doc.payments == old(doc.payments) + [step.value] &&
              doc.head == old(doc.head).(totalPaymentAmount := old(doc.head.totalPaymentAmount) + step.value.paymentTotal) &&
              uuid.count == old(uuid.count) + 1) &&
      (!ok ==> line.None? && err == Some(if step.Failure? then step.error else StorageFailed) &&
               doc.payments == old(doc.payments) && doc.head == old(doc.head) && uuid.count == old(uuid.count))
  {
    if doc == null {
      return false, None, Some(NoActiveDocument);
    }
    var amount := PaymentAmount(buttonName, Remaining(doc.head), paymentType);
    ok, line, err := AddPayment(doc, paymentType, amount, created, uuid);
  }

  /** The payment step on an open document, once the amount is known. */
  method AddPayment(doc: DocumentData, paymentType: string, amount: Result<real, PaymentError>, created: bool,
                    uuid: UuidSource)
    returns (ok: bool, line: Option<PaymentLine>, err: Option<PaymentError>)
    modifies doc`head, doc`payments, uuid
    ensures var step := PaymentStep(old(doc.head), |old(doc.payments)|, paymentType, amount, uuid.values(old(uuid.count)));
      (ok <==> step.Success? && created) &&
      (ok ==> line == Some(step.value) && err.None? && doc.payments == old(doc.payments) + [step.value] &&
              doc.head == old(doc.head).(totalPaymentAmount := old(doc.head.totalPaymentAmount) + step.value.paymentTotal) &&
              uuid.count == old(uuid.count) + 1) &&
      (!ok ==> line.None? && err == Some(if step.Failure? then step.error else StorageFailed) &&
               doc.payments == old(doc.payments) && doc.head == old(doc.head) && uuid.count == old(uuid.count))
  {
    var step := PaymentStep(doc.head, |doc.payments|, paymentType, amount, uuid.values(uuid.count));
    if step.Failure? {
      return false, None, Some(step.error);
    }
    if !created {
      return false, None, Some(StorageFailed);
    }
    var id := uuid.Next();
    var p := step.value;
    doc.payments := doc.payments + [p];
    doc.head := doc.head.(totalPaymentAmount := doc.head.totalPaymentAmount + p.paymentTotal);
    return true, Some(p), None;
  }

  /** Paying with a clamped type keeps the payment total within the
      document total, payment after payment. */
  lemma ClampedPaymentsStayWithinTotal(h: Head, lineCount: nat, paymentType: string, buttonName: string, id: Id)
    requires IsClamped(paymentType) && h.totalPaymentAmount <= h.totalAmount
    requires PaymentStep(h, lineCount, paymentType, PaymentAmount(buttonName, Remaining(h), paymentType), id).Success?
    ensures var p := PaymentStep(h, lineCount, paymentType, PaymentAmount(buttonName, Remaining(h), paymentType), id).value;
      h.totalPaymentAmount < h.totalPaymentAmount + p.paymentTotal <= h.totalAmount
  {
  }

  // ------------------------------------------------------------ change

  /** `calculate_change`: what was paid beyond the total (negative while
      the document is underpaid); 0 without a document. */
  function CalculateChange(doc: DocumentData?): (r: real)
    reads doc
    ensures doc == null ==> r == 0.0
    ensures doc != null ==> doc.head.totalAmount + r == doc.head.totalPaymentAmount
  {
    if doc == null then 0.0 else doc.head.totalPaymentAmount - doc.head.totalAmount
  }

  /** The change line `record_change` adds, or `NoChangeDue`. */
  function ChangeStep(h: Head, lineCount: nat, id: Id): (r: Result<ChangeLine, PaymentError>)
    ensures r.Success? <==> h.totalPaymentAmount > h.totalAmount
    ensures r.Failure? ==> r.error == NoChangeDue
    ensures r.Success? ==>
      r.value == ChangeLine(id, h.id, lineCount + 1, h.totalPaymentAmount - h.totalAmount,
                            CurrencyOrGbp(h.baseCurrency), false) &&
      r.value.changeAmount > 0.0
  {
    var change := h.totalPaymentAmount - h.totalAmount;
    if change > 0.0 then Success(ChangeLine(id, h.id, lineCount + 1, change, CurrencyOrGbp(h.baseCurrency), false))
    else Failure(NoChangeDue)
  }

  /** `record_change`: with change due, a change line is appended and the
      head's change total is SET to the change (not added to it).
      `created` says whether the row's `create()` succeeds: when it raises
      nothing changes.  Only the head and the change lines can change. */
  method RecordChange(doc: DocumentData?, created: bool, uuid: UuidSource)
    returns (ok: bool, line: Option<ChangeLine>, err: Option<PaymentError>)
    modifies {doc}`head, {doc}`changes, uuid
    ensures doc == null ==> !ok && line.None? && err == Some(NoActiveDocument) && uuid.count == old(uuid.count)
    ensures doc != null ==>
      var step := ChangeStep(old(doc.head), |old(doc.changes)|, uuid.values(old(uuid.count)));
      (ok <==> step.Success? && created) &&
      (ok ==> line == Some(step.value) && err.None? && doc.changes == old(doc.changes) + [step.value] &&
              doc.head == old(doc.head).(totalChangeAmount := step.value.changeAmount) &&
              uuid.count == old(uuid.count) + 1) &&
      (!ok ==> line.None? && err == Some(if step.Failure? then NoChangeDue else StorageFailed) &&
               doc.changes == old(doc.changes) && doc.head == old(doc.head) && uuid.count == old(uuid.count))
  {
    if doc == null {
      return false, None, Some(NoActiveDocument);
    }
    var change := CalculateChange(doc);
    if change > 0.0 {
      if !created {
        return false, None, Some(StorageFailed);
      }
      var id := uuid.Next();
      var c := ChangeLine(id, doc.head.id, |doc.changes| + 1, change, CurrencyOrGbp(doc.head.baseCurrency), false);
      doc.changes := doc.changes + [c];
      doc.head := doc.head.(totalChangeAmount := change);
      return true, Some(c), None;
    }
    return false, None, Some(NoChangeDue);
  }

  /** `is_document_complete`: the total equals payments less change, to
      within a hundredth. */
  function IsDocumentComplete(h: Head): (r: bool)
    ensures r <==> h.totalAmount - 0.01 < h.totalPaymentAmount - h.totalChangeAmount < h.totalAmount + 0.01
  {
    var difference := h.totalAmount - (h.totalPaymentAmount - h.totalChangeAmount);
    -0.01 < difference < 0.01
  }

  /** Recording the change settles an overpaid document. */
  lemma RecordedChangeCompletes(h: Head, lineCount: nat, id: Id)
    requires ChangeStep(h, lineCount, id).Success?
    ensures IsDocumentComplete(h.(totalChangeAmount := ChangeStep(h, lineCount, id).value.changeAmount))
  {
  }

  /** Recording change twice adds a second line for the same change, since
      the change due is recomputed from the unchanged totals. */
  lemma RecordChangeRepeats(h: Head, lineCount: nat, id1: Id, id2: Id)
    requires ChangeStep(h, lineCount, id1).Success?
    ensures var h1 := h.(totalChangeAmount := ChangeStep(h, lineCount, id1).value.changeAmount);
      ChangeStep(h1, lineCount + 1, id2).Success? &&
      ChangeStep(h1, lineCount + 1, id2).value.changeAmount == ChangeStep(h, lineCount, id1).value.changeAmount
  {
  }

  /** An exact payment with no change settles the document; an overpayment
      of a hundredth or more does not until the change is recorded; an
      underpayment of a hundredth or more never does. */
  lemma CompletionCases(h: Head)
    ensures h.totalPaymentAmount == h.totalAmount && h.totalChangeAmount == 0.0 ==> IsDocumentComplete(h)
    ensures h.totalChangeAmount == 0.0 && h.totalPaymentAmount >= h.totalAmount + 0.01 ==> !IsDocumentComplete(h)
    ensures h.totalPaymentAmount - h.totalChangeAmount <= h.totalAmount - 0.01 ==> !IsDocumentComplete(h)
  {
  }

  /** `mark_document_complete`: the head is marked completed and closed in
      memory before it is saved; the result is whether the save succeeded. */
  method MarkDocumentComplete(doc: DocumentData?, saveOk: bool) returns (ok: bool)
    modifies {doc}`head
    ensures doc == null ==> !ok
    ensures doc != null ==> (ok == saveOk &&
      doc.head == old(doc.head).(status := Completed, isClosed := true))
  {
    if doc == null {
      return false;
    }
    doc.head := doc.head.(status := Completed, isClosed := true);
    return saveOk;
  }

  // ------------------------------------------------------------ closure totals

  /** The cash taken by a list of payments. */
  function CashTotal(ps: seq<PaymentLine>): real
  {
    if |ps| == 0 then 0.0
    else
      var last := ps[|ps| - 1];
      CashTotal(ps[..|ps| - 1]) + (if last.paymentType == CashPayment then last.paymentTotal else 0.0)
  }

  /** The total of a list of payments. */
  function PaymentSum(ps: seq<PaymentLine>): real
  {
    if |ps| == 0 then 0.0 else PaymentSum(ps[..|ps| - 1]) + ps[|ps| - 1].paymentTotal
  }

  /** With no negative payments, cash is part of all payments and never negative. */
  lemma {:induction false} CashTotalBounds(ps: seq<PaymentLine>)
    requires forall j :: 0 <= j < |ps| ==> ps[j].paymentTotal >= 0.0
    ensures 0.0 <= CashTotal(ps) <= PaymentSum(ps)
  {
    if |ps| > 0 {
      CashTotalBounds(ps[..|ps| - 1]);
    }
  }

  /** The closure record after one more completed document. */
  function AfterCompletion(c: ClosureRecord, h: Head, ps: seq<PaymentLine>): (r: ClosureRecord)
    ensures r.id == c.id && r.number == c.number && r.endTime == c.endTime
    ensures r.totalDocumentCount == c.totalDocumentCount + 1
    ensures r.validTransactionCount == c.validTransactionCount + 1
    ensures r.paidInCount == c.paidInCount + |ps|
  {
    c.(totalDocumentCount := c.totalDocumentCount + 1,
       grossSales := c.grossSales + h.totalAmount,
       netSales := c.netSales + (h.totalAmount - h.totalVatAmount),
       totalTax := c.totalTax + h.totalVatAmount,
       totalDiscount := c.totalDiscount + h.totalDiscountAmount,
       totalTip := c.totalTip + h.tipAmount,
       validTransactionCount := c.validTransactionCount + 1,
       closingCash := c.closingCash + CashTotal(ps),
       paidInCount := c.paidInCount + |ps|,
       paidInTotal := c.paidInTotal + h.totalPaymentAmount)
  }

  /** Gross sales stay the sum of net sales and tax, and the closure's
      cash and paid-in totals grow by what the document took. */
  lemma {:induction false} CompletionKeepsClosureBalanced(c: ClosureRecord, h: Head, ps: seq<PaymentLine>)
    requires c.grossSales == c.netSales + c.totalTax
    requires forall j :: 0 <= j < |ps| ==> ps[j].paymentTotal >= 0.0
    ensures var r := AfterCompletion(c, h, ps);
      r.grossSales == r.netSales + r.totalTax &&
      r.grossSales - c.grossSales == h.totalAmount &&
      c.closingCash <= r.closingCash <= c.closingCash + PaymentSum(ps) &&
      r.paidInTotal - c.paidInTotal == h.totalPaymentAmount
  {
    CashTotalBounds(ps);
  }

  /** `update_closure_for_completion`: counts and sums the document into
      the open closure record and saves it.  Without an open closure or a
      document nothing happens.  `saveOk` says whether the record's
      `save()` succeeds: when it raises, the record in memory already
      holds the new totals but the stored table does not, and the result
      is false. */
  method UpdateClosureForCompletion(mgr: ClosureManager, doc: DocumentData?, saveOk: bool) returns (ok: bool)
    requires mgr.Valid()
    modifies mgr`table, {mgr.closure}`closure
    ensures mgr.Valid()
    ensures ok <==> mgr.closure != null && doc != null && saveOk
    ensures mgr.closure == null || doc == null ==> mgr.table == old(mgr.table)
    ensures mgr.closure != null && doc != null ==>
      var rec := AfterCompletion(old(mgr.closure.closure), doc.head, doc.payments);
      mgr.closure.closure == rec && mgr.table == (if saveOk then MergeClosure(old(mgr.table), rec) else old(mgr.table))
  {
    if mgr.closure == null || doc == null {
      return false;
    }
    var data := mgr.closure;
    var c := data.closure;
    var h := doc.head;
    var cashTotal := 0.0;
    var count := 0;
    var i := 0;
    while i < |doc.payments|
      invariant 0 <= i <= |doc.payments|
      invariant cashTotal == CashTotal(doc.payments[..i]) && count == i
    {
      var p := doc.payments[i];
      count := count + 1;
      if p.paymentType == CashPayment {
        cashTotal := cashTotal + p.paymentTotal;
      }
      assert doc.payments[..i + 1][..i] == doc.payments[..i];
      i := i + 1;
    }
    assert doc.payments[..i] == doc.payments;
    var rec := c.(totalDocumentCount := c.totalDocumentCount + 1,
                  grossSales := c.grossSales + h.totalAmount,
                  netSales := c.netSales + (h.totalAmount - h.totalVatAmount),
                  totalTax := c.totalTax + h.totalVatAmount,
                  totalDiscount := c.totalDiscount + h.totalDiscountAmount,
                  totalTip := c.totalTip + h.tipAmount,
                  validTransactionCount := c.validTransactionCount + 1,
                  closingCash := c.closingCash + cashTotal,
                  paidInCount := c.paidInCount + count,
                  paidInTotal := c.paidInTotal + h.totalPaymentAmount);
    data.closure := rec;
    if !saveOk {
      return false;
    }
    WritesKeepKeysUnique(mgr.table, rec);
    mgr.table := MergeClosure(mgr.table, rec);
    return true;
  }

  // ------------------------------------------------------------ permanent copy

  /** Copies of lines moved under a new head: the k-th gets the id
      `ids(start + k)` and points at `headId`; every other column is kept. */
  function RehomePayments(ps: seq<PaymentLine>, headId: Id, ids: nat -> Id, start: nat): (r: seq<PaymentLine>)
    ensures |r| == |ps|
    ensures forall k :: 0 <= k < |ps| ==> r[k] == ps[k].(id := ids(start + k), headId := headId)
  {
    seq(|ps|, k requires 0 <= k < |ps| => ps[k].(id := ids(start + k), headId := headId))
  }

  function RehomeChanges(cs: seq<ChangeLine>, headId: Id, ids: nat -> Id, start: nat): (r: seq<ChangeLine>)
    ensures |r| == |cs|
    ensures forall k :: 0 <= k < |cs| ==> r[k] == cs[k].(id := ids(start + k), headId := headId)
  {
    seq(|cs|, k requires 0 <= k < |cs| => cs[k].(id := ids(start + k), headId := headId))
  }

  /** Moving payments under a new head keeps their total and their cash part. */
  lemma {:induction false} RehomeKeepsTotals(ps: seq<PaymentLine>, headId: Id, ids: nat -> Id, start: nat)
    ensures PaymentSum(RehomePayments(ps, headId, ids, start)) == PaymentSum(ps)
    ensures CashTotal(RehomePayments(ps, headId, ids, start)) == CashTotal(ps)
  {
    if |ps| > 0 {
      var n := |ps| - 1;
      RehomeKeepsTotals(ps[..n], headId, ids, start);
      assert RehomePayments(ps, headId, ids, start)[..n] == RehomePayments(ps[..n], headId, ids, start);
    }
  }

  /** The permanent tables after a copy that draws ids from `ids(n)` on:
      the head under `ids(n)`, then its payments and its change lines, each
      under the next id and pointing at the new head; every other table is
      kept. */
  function CopiedTables(t: PermanentTables, h: Head, ps: seq<PaymentLine>, cs: seq<ChangeLine>,
                        ids: nat -> Id, n: nat): PermanentTables
  {
    t.(heads := t.heads + [h.(id := ids(n))],
       payments := t.payments + RehomePayments(ps, ids(n), ids, n + 1),
       changes := t.changes + RehomeChanges(cs, ids(n), ids, n + 1 + |ps|))
  }

  /** The smaller of two counts. */
  function Min(a: nat, b: nat): nat
  {
    if a <= b then a else b
  }

  /** The permanent tables when only the first `created` rows of the copy
      (the head, then the payments, then the change lines) are created
      before a `create()` raises; each created row took the next id. */
  function CopiedTablesUpTo(t: PermanentTables, h: Head, ps: seq<PaymentLine>, cs: seq<ChangeLine>,
                            ids: nat -> Id, n: nat, created: nat): (r: PermanentTables)
    ensures created >= 1 + |ps| + |cs| ==> r == CopiedTables(t, h, ps, cs, ids, n)
    ensures created == 0 ==> r == t
    ensures created > 0 ==>
      && r.heads == t.heads + [h.(id := ids(n))]
      && |r.payments| == |t.payments| + Min(created - 1, |ps|)
      && |r.changes| == |t.changes| + Min(created - 1 - Min(created - 1, |ps|), |cs|)
  {
    if created == 0 then t
    else
      var np := Min(created - 1, |ps|);
      var nc := Min(created - 1 - np, |cs|);
      assert created >= 1 + |ps| + |cs| ==> ps[..np] == ps && cs[..nc] == cs;
      t.(heads := t.heads + [h.(id := ids(n))],
         payments := t.payments + RehomePayments(ps[..np], ids(n), ids, n + 1),
         changes := t.changes + RehomeChanges(cs[..nc], ids(n), ids, n + 1 + |ps|))
  }

  /** `copy_temp_to_permanent`: the head (under a new id), its payments and
      its change lines are copied to the permanent tier, each copy with a
      new id and pointing at the new head.  Nothing else is copied.
      `created` is how many of those rows are created before a `create()`
      raises: the rows written until then stay, and the result is false.
      An id is drawn for each row created. */
  method CopyTempToPermanent(doc: DocumentData?, archive: Archive, created: nat, uuid: UuidSource) returns (ok: bool)
    modifies archive, uuid
    ensures doc == null ==> !ok && archive.tables == old(archive.tables) && uuid.count == old(uuid.count)
    ensures doc != null ==>
      var total := 1 + |doc.payments| + |doc.changes|;
      && (ok <==> created >= total)
      && archive.tables == CopiedTablesUpTo(old(archive.tables), doc.head, doc.payments, doc.changes, uuid.values,
                                            old(uuid.count), created)
      && uuid.count == old(uuid.count) + Min(created, total)
  {
    if doc == null || created == 0 {
      return false;
    }
    var headId := uuid.Next();
    var np := Min(created - 1, |doc.payments|);
    var nc := Min(created - 1 - np, |doc.changes|);
    var payments := CopyPayments(doc.payments[..np], headId, uuid);
    if np == |doc.payments| {
      var changes := CopyChanges(doc.changes[..nc], headId, uuid);
      var t := archive.tables;
      archive.tables := t.(heads := t.heads + [doc.head.(id := headId)], payments := t.payments + payments,
                           changes := t.changes + changes);
    } else {
      var t := archive.tables;
      archive.tables := t.(heads := t.heads + [doc.head.(id := headId)], payments := t.payments + payments);
      assert doc.changes[..nc] == [];
    }
    ok := created >= 1 + |doc.payments| + |doc.changes|;
  }

  /** Draws one id per payment, in order, for the copies. */
  method CopyPayments(ps: seq<PaymentLine>, headId: Id, uuid: UuidSource) returns (r: seq<PaymentLine>)
    modifies uuid
    ensures uuid.count == old(uuid.count) + |ps|
    ensures r == RehomePayments(ps, headId, uuid.values, old(uuid.count))
  {
    r := [];
    var i := 0;
    while i < |ps|
      invariant 0 <= i <= |ps| && uuid.count == old(uuid.count) + i
      invariant r == RehomePayments(ps[..i], headId, uuid.values, old(uuid.count))
    {
      var id := uuid.Next();
      r := r + [ps[i].(id := id, headId := headId)];
      i := i + 1;
    }
    assert ps[..i] == ps;
  }

  /** Draws one id per change line, in order, for the copies. */
  method CopyChanges(cs: seq<ChangeLine>, headId: Id, uuid: UuidSource) returns (r: seq<ChangeLine>)
    modifies uuid
    ensures uuid.count == old(uuid.count) + |cs|
    ensures r == RehomeChanges(cs, headId, uuid.values, old(uuid.count))
  {
    r := [];
    var i := 0;
    while i < |cs|
      invariant 0 <= i <= |cs| && uuid.count == old(uuid.count) + i
      invariant r == RehomeChanges(cs[..i], headId, uuid.values, old(uuid.count))
    {
      var id := uuid.Next();
      r := r + [cs[i].(id := id, headId := headId)];
      i := i + 1;
    }
    assert cs[..i] == cs;
  }
}
