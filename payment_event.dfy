/**
 * The payment events of the sale screen: a payment by any tender, the
 * change button, and the completion that follows a fully paid document.
 * Completion runs in a fixed order (mark the head complete, feed the open
 * closure, copy the document to the permanent tier, raise the receipt
 * number, drop the document, open the next one); a ghost trace of those
 * steps lets the contracts state that order.
 */
module PaymentEvent {
  import opened Wrappers
  import opened Documents
  import opened Catalog
  import PaymentService
  import DocumentManager
  import Closures
  import CurrentStatus

  /** The steps of completion, in the order the trace records them. */
  datatype Step = MarkComplete | UpdateClosure | CopyToPermanent | IncrementReceipt | ClearDocument | CreateNextDocument

  /** The steps `_check_and_complete_document` takes: none for a document
      not yet paid, only the mark when saving the mark fails, else all of
      them, feeding the closure only when one is open. */
  function CompletionSteps(complete: bool, marked: bool, closureOpen: bool): seq<Step>
  {
    if !complete then []
    else if !marked then [MarkComplete]
    else [MarkComplete] + (if closureOpen then [UpdateClosure] else []) +
         [CopyToPermanent, IncrementReceipt, ClearDocument, CreateNextDocument]
  }

  /** Completion starts with the mark; the receipt number is raised only
      after a saved mark and after the copy, and the next document is
      opened last, after the old one is dropped. */
  lemma CompletionOrder(complete: bool, marked: bool, closureOpen: bool)
    ensures var r := CompletionSteps(complete, marked, closureOpen);
      && (r != [] ==> r[0] == MarkComplete)
      && (IncrementReceipt in r <==> complete && marked)
      && (complete && marked ==>
            var k := if closureOpen then 1 else 0;
            && |r| == 5 + k
            && r[1 + k] == CopyToPermanent && r[2 + k] == IncrementReceipt
            && r[3 + k] == ClearDocument && r[4 + k] == CreateNextDocument)
  {
  }

  /** Which database writes of a payment event succeed: a `create()` or
      `save()` that raises is `false` here.  `copiesCreated` counts the
      rows of the permanent copy created before one raises. */
  datatype Writes = Writes(paymentCreated: bool, changeCreated: bool, headSaved: bool, closureSaved: bool,
                           copiesCreated: nat)

  /** The steps that follow a recorded payment leaving head `h`: the
      completion check when no change is due; with change due, nothing
      while a change button waits on the form, the cashier has not
      confirmed the change or its line cannot be created, else completion
      of the document, which the recorded change settles. */
  function SettleSteps(h: Head, hasChangeButton: bool, confirmed: bool, io: Writes, closureOpen: bool): seq<Step>
  {
    if h.totalPaymentAmount <= h.totalAmount then
      CompletionSteps(PaymentService.IsDocumentComplete(h), io.headSaved, closureOpen)
    else if !hasChangeButton && confirmed && io.changeCreated then CompletionSteps(true, io.headSaved, closureOpen)
    else []
  }

  /** A payment of exactly the total with no change recorded completes the
      document, raising the receipt number when the mark is saved. */
  lemma ExactPaymentCompletes(h: Head, hasChangeButton: bool, confirmed: bool, io: Writes, closureOpen: bool)
    requires h.totalPaymentAmount == h.totalAmount && h.totalChangeAmount == 0.0
    ensures var r := SettleSteps(h, hasChangeButton, confirmed, io, closureOpen);
      r != [] && r[0] == MarkComplete && (IncrementReceipt in r <==> io.headSaved)
  {
    PaymentService.CompletionCases(h);
    CompletionOrder(true, io.headSaved, closureOpen);
  }

  /** A payment that leaves a hundredth or more to pay completes nothing. */
  lemma PartialPaymentWaits(h: Head, hasChangeButton: bool, confirmed: bool, io: Writes, closureOpen: bool)
    requires h.totalPaymentAmount <= h.totalAmount - 0.01 && h.totalChangeAmount == 0.0
    ensures SettleSteps(h, hasChangeButton, confirmed, io, closureOpen) == []
  {
    PaymentService.CompletionCases(h);
  }

  /** An overpayment completes only once the change is confirmed without a
      change button on the form and its line is created. */
  lemma OverpaymentNeedsChange(h: Head, hasChangeButton: bool, confirmed: bool, io: Writes, closureOpen: bool)
    requires h.totalPaymentAmount > h.totalAmount
    ensures SettleSteps(h, hasChangeButton, confirmed, io, closureOpen) != [] <==>
      !hasChangeButton && confirmed && io.changeCreated
  {
  }

  const ReceiptNumber := "ReceiptNumber"

  /** The sequences after `_increment_receipt_number`: the first one named
      ReceiptNumber counts one more; without one nothing changes. */
  function Incremented(seqs: seq<TransactionSequence>): (r: seq<TransactionSequence>)
    ensures |r| == |seqs|
    ensures forall j :: 0 <= j < |seqs| ==> r[j].id == seqs[j].id && r[j].name == seqs[j].name
  {
    match FindSequence(seqs, ReceiptNumber)
    case None => seqs
    case Some(k) => seqs[k := seqs[k].(value := seqs[k].value + 1)]
  }

  /** Raising one entry of the first sequence with a name raises what that
      name reads by the same amount. */
  lemma {:induction false} SequenceValueAtFirst(seqs: seq<TransactionSequence>, k: nat, name: string, v: int)
    requires k < |seqs| && seqs[k].name == name
    requires forall j :: 0 <= j < k ==> seqs[j].name != name
    ensures SequenceValue(seqs[k := seqs[k].(value := v)], name) == v
    ensures SequenceValue(seqs, name) == seqs[k].value
  {
    if k > 0 {
      var s := seqs[k := seqs[k].(value := v)];
      assert s[1..] == seqs[1..][k - 1 := seqs[k].(value := v)];
      SequenceValueAtFirst(seqs[1..], k - 1, name, v);
    }
  }

  /** A sequence other than the first one with a name does not change what
      the name reads. */
  lemma {:induction false} SequenceValueElsewhere(seqs: seq<TransactionSequence>, k: nat, name: string, v: int)
    requires k < |seqs| && seqs[k].name != name
    ensures SequenceValue(seqs[k := seqs[k].(value := v)], name) == SequenceValue(seqs, name)
  {
    if |seqs| > 0 && seqs[0].name != name {
      var s := seqs[k := seqs[k].(value := v)];
      if k == 0 {
        assert s[1..] == seqs[1..];
      } else {
        assert s[1..] == seqs[1..][k - 1 := seqs[k].(value := v)];
        SequenceValueElsewhere(seqs[1..], k - 1, name, v);
      }
    }
  }

  /** The receipt number reads one more after the increment when there is
      a sequence for it, and the same otherwise. */
  lemma IncrementedRaisesReceipt(seqs: seq<TransactionSequence>)
    ensures SequenceValue(Incremented(seqs), ReceiptNumber) ==
      SequenceValue(seqs, ReceiptNumber) + (if FindSequence(seqs, ReceiptNumber).Some? then 1 else 0)
  {
    var found := FindSequence(seqs, ReceiptNumber);
    if found.Some? {
      var k := found.value;
      assert Incremented(seqs) == seqs[k := seqs[k].(value := seqs[k].value + 1)];
      SequenceValueAtFirst(seqs, k, ReceiptNumber, seqs[k].value + 1);
    } else {
      assert Incremented(seqs) == seqs;
    }
  }

  /** Every other sequence reads as before the increment. */
  lemma IncrementedKeepsOthers(seqs: seq<TransactionSequence>, name: string)
    requires name != ReceiptNumber
    ensures SequenceValue(Incremented(seqs), name) == SequenceValue(seqs, name)
  {
    var found := FindSequence(seqs, ReceiptNumber);
    if found.Some? {
      var k := found.value;
      assert Incremented(seqs) == seqs[k := seqs[k].(value := seqs[k].value + 1)];
      assert seqs[k].name != name;
      SequenceValueElsewhere(seqs, k, name, seqs[k].value + 1);
    }
  }

  /** Head `h` once payment line `line` is recorded on it. */
  function PaidHead(h: Head, line: PaymentLine): (r: Head)
    ensures r.totalPaymentAmount == h.totalPaymentAmount + line.paymentTotal
    ensures r.(totalPaymentAmount := h.totalPaymentAmount) == h
  {
    h.(totalPaymentAmount := h.totalPaymentAmount + line.paymentTotal)
  }

  /** The event side of the sale screen that takes payments. */
  class Checkout {
    const status: CurrentStatus.Status
    const docs: DocumentManager.Manager
    const closures: Closures.ClosureManager
    /** The completion steps taken so far. */
    ghost var trace: seq<Step>

    constructor (s: CurrentStatus.Status, m: DocumentManager.Manager, c: Closures.ClosureManager)
      ensures status == s && docs == m && closures == c && trace == []
    {
      status, docs, closures := s, m, c;
      trace := [];
    }

    /** The open document, as a set for framing. */
    function Open(): set<DocumentData>
      reads docs
    {
      if docs.document == null then {} else {docs.document}
    }

    /** The record of the open closure, if one is open. */
    function OpenRecord(): Option<Closures.ClosureRecord>
      reads closures, closures.closure
    {
      if closures.closure == null then None else Some(closures.closure.closure)
    }

    /** The state completion of document `doc0` leaves behind.  `record0`,
        `table0`, `tables0` and `seqs0` are the open closure's record, the
        closure table, the permanent tables and the sequences before
        completion, and `ids(n)` the first id it drew.  The closure record
        takes the document's totals (stored only when its save succeeds),
        the permanent tier takes the copies created, the receipt number is
        raised, and the next document is open exactly when POS settings
        and a store exist. */
    ghost predicate CompletedFrom(doc0: DocumentData, record0: Option<Closures.ClosureRecord>,
                                  table0: seq<Closures.ClosureRecord>, tables0: PermanentTables,
                                  seqs0: seq<TransactionSequence>, ids: nat -> Id, n: nat, io: Writes)
      reads docs, docs.archive, closures, closures.closure, docs.document, doc0
    {
      && (record0.Some? ==>
            && closures.closure != null
            && closures.closure.closure == PaymentService.AfterCompletion(record0.value, doc0.head, doc0.payments)
            && closures.table == (if io.closureSaved then Closures.MergeClosure(table0, closures.closure.closure)
                                  else table0))
      && (record0.None? ==> closures.table == table0)
      && docs.archive.tables ==
           PaymentService.CopiedTablesUpTo(tables0, doc0.head, doc0.payments, doc0.changes, ids, n, io.copiesCreated)
      && docs.sequences == Incremented(seqs0)
      && (docs.document != null <==> docs.posSettings.Some? && |docs.storeIds| > 0)
      && (docs.document != null ==>
            DocumentManager.IsEmptyDocument(docs.document) &&
            docs.document.head.receiptNumber == SequenceValue(docs.sequences, ReceiptNumber))
    }

    /** The document `doc0` is still open, holding head `h`, payments `ps`
        and change lines `cs`, and nothing was stored. */
    ghost predicate KeptOpen(doc0: DocumentData, h: Head, ps: seq<PaymentLine>, cs: seq<ChangeLine>,
                             table0: seq<Closures.ClosureRecord>, tables0: PermanentTables,
                             seqs0: seq<TransactionSequence>)
      reads docs, docs.archive, closures, doc0
    {
      && docs.document == doc0 && doc0.head == h && doc0.payments == ps && doc0.changes == cs
      && closures.table == table0 && docs.archive.tables == tables0 && docs.sequences == seqs0
    }

    /** What `_check_and_complete_document` leaves when it finds open
        document `doc0` with head `h`, payments `ps` and change lines `cs`:
        an unpaid document is kept as it is; a paid one is marked, and
        then kept when saving the mark fails, else completed. */
    ghost predicate CheckedFrom(doc0: DocumentData, h: Head, ps: seq<PaymentLine>, cs: seq<ChangeLine>,
                                record0: Option<Closures.ClosureRecord>, table0: seq<Closures.ClosureRecord>,
                                tables0: PermanentTables, seqs0: seq<TransactionSequence>, ids: nat -> Id, n: nat,
                                io: Writes)
      reads docs, docs.archive, closures, closures.closure, docs.document, doc0
    {
      var complete := PaymentService.IsDocumentComplete(h);
      var marked := h.(status := Completed, isClosed := true);
      if !complete || !io.headSaved then KeptOpen(doc0, if complete then marked else h, ps, cs, table0, tables0, seqs0)
      else
        && doc0.head == marked && doc0.payments == ps && doc0.changes == cs
        && CompletedFrom(doc0, record0, table0, tables0, seqs0, ids, n, io)
    }

    /** What follows recording payment line `line` on open document
        `doc0`, which held head `h`, payments `ps` and change lines `cs`:
        the line is appended and the head's payment total raised by it;
        then, without change due, the completion check; with change due,
        nothing more while a change button waits, the cashier has not
        confirmed or the change line cannot be created; otherwise the
        change line (`ids(n)`) is added, the change total set, and the
        completion check runs on that. */
    ghost predicate SettledFrom(doc0: DocumentData, h: Head, ps: seq<PaymentLine>, line: PaymentLine,
                                cs: seq<ChangeLine>, hasChangeButton: bool, confirmed: bool,
                                record0: Option<Closures.ClosureRecord>, table0: seq<Closures.ClosureRecord>,
                                tables0: PermanentTables, seqs0: seq<TransactionSequence>, ids: nat -> Id, n: nat,
                                io: Writes)
      reads docs, docs.archive, closures, closures.closure, docs.document, doc0
    {
      var paid := PaidHead(h, line);
      var due := paid.totalPaymentAmount > paid.totalAmount;
      if due && (hasChangeButton || !confirmed || !io.changeCreated) then
        KeptOpen(doc0, paid, ps + [line], cs, table0, tables0, seqs0)
      else
        var c := PaymentService.ChangeStep(paid, |cs|, ids(n));
        var h' := if due then paid.(totalChangeAmount := c.value.changeAmount) else paid;
        var cs' := if due then cs + [c.value] else cs;
        CheckedFrom(doc0, h', ps + [line], cs', record0, table0, tables0, seqs0, ids, if due then n + 1 else n, io)
    }

    /** `_increment_receipt_number`: the first sequence named ReceiptNumber
        counts one more. */
    method IncrementReceiptNumber()
      modifies docs`sequences
      ensures docs.sequences == Incremented(old(docs.sequences))
    {
      var i := 0;
      while i < |docs.sequences| && docs.sequences[i].name != ReceiptNumber
        invariant 0 <= i <= |docs.sequences|
        invariant forall k :: 0 <= k < i ==> docs.sequences[k].name != ReceiptNumber
      {
        i := i + 1;
      }
      if i < |docs.sequences| {
        docs.sequences := docs.sequences[i := docs.sequences[i].(value := docs.sequences[i].value + 1)];
      }
    }

    /** The rest of completion once the mark is saved: the open closure is
        fed, the document copied to the permanent tier, the receipt
        number raised, the document dropped and the next one opened.  The
        outcomes of the closure save and of the copy are ignored.  The
        ghost parameters name the state it starts from. */
    method FinishCompletion(io: Writes, today: Date, now: int, uuid: UuidSource, ghost doc0: DocumentData,
                            ghost record0: Option<Closures.ClosureRecord>, ghost table0: seq<Closures.ClosureRecord>,
                            ghost tables0: PermanentTables, ghost seqs0: seq<TransactionSequence>, ghost n: nat)
      requires docs.document == doc0 && closures.Valid()
      requires OpenRecord() == record0 && closures.table == table0 && docs.archive.tables == tables0
      requires docs.sequences == seqs0 && uuid.count == n
      modifies this`trace, closures`table, {closures.closure}`closure, docs.archive, docs`sequences,
               docs`document, docs`customers, uuid
      ensures closures.Valid()
      ensures trace == old(trace) + (if old(closures.closure) != null then [UpdateClosure] else []) +
                       [CopyToPermanent, IncrementReceipt, ClearDocument, CreateNextDocument]
      ensures CompletedFrom(doc0, record0, table0, tables0, seqs0, uuid.values, n, io)
      ensures docs.document != null ==> fresh(docs.document)
    {
      FeedAndCopy(io, uuid);
      OpenNext(today, now, uuid);
    }

    /** The open closure is fed and the document copied to the permanent
        tier under a new head id. */
    method FeedAndCopy(io: Writes, uuid: UuidSource)
      requires docs.document != null && closures.Valid()
      modifies this`trace, closures`table, {closures.closure}`closure, docs.archive, uuid
      ensures closures.Valid()
      ensures trace == old(trace) + (if old(closures.closure) != null then [UpdateClosure] else []) + [CopyToPermanent]
      ensures old(closures.closure) != null ==>
        && closures.closure.closure ==
             PaymentService.AfterCompletion(old(closures.closure.closure), docs.document.head, docs.document.payments)
        && closures.table ==
             (if io.closureSaved then Closures.MergeClosure(old(closures.table), closures.closure.closure)
              else old(closures.table))
      ensures old(closures.closure) == null ==> closures.table == old(closures.table)
      ensures docs.archive.tables ==
        PaymentService.CopiedTablesUpTo(old(docs.archive.tables), docs.document.head, docs.document.payments,
                                        docs.document.changes, uuid.values, old(uuid.count), io.copiesCreated)
    {
      var doc := docs.document;
      if closures.closure != null {
        var _ := PaymentService.UpdateClosureForCompletion(closures, doc, io.closureSaved);
        trace := trace + [UpdateClosure];
      }
      var _ := PaymentService.CopyTempToPermanent(doc, docs.archive, io.copiesCreated, uuid);
      trace := trace + [CopyToPermanent];
    }

    /** The receipt number is raised, the document dropped and the next
        empty one opened, which takes the raised receipt number. */
    method OpenNext(today: Date, now: int, uuid: UuidSource)
      modifies this`trace, docs`sequences, docs`document, docs`customers, uuid
      ensures trace == old(trace) + [IncrementReceipt, ClearDocument, CreateNextDocument]
      ensures docs.sequences == Incremented(old(docs.sequences))
      ensures docs.document != null <==> docs.posSettings.Some? && |docs.storeIds| > 0
      ensures docs.document != null ==>
        fresh(docs.document) && DocumentManager.IsEmptyDocument(docs.document) &&
        docs.document.head.receiptNumber == SequenceValue(docs.sequences, ReceiptNumber)
    {
      IncrementReceiptNumber();
      trace := trace + [IncrementReceipt];
      ReplaceDocument(today, now, uuid);
    }

    /** The document is dropped and the next empty one opened; it can only
        be opened with POS settings and a store. */
    method ReplaceDocument(today: Date, now: int, uuid: UuidSource)
      modifies this`trace, docs`document, docs`customers, uuid
      ensures trace == old(trace) + [ClearDocument, CreateNextDocument]
      ensures docs.document != null <==> docs.posSettings.Some? && |docs.storeIds| > 0
      ensures docs.document != null ==>
        fresh(docs.document) && DocumentManager.IsEmptyDocument(docs.document) &&
        docs.document.head.receiptNumber == SequenceValue(docs.sequences, ReceiptNumber)
    {
      docs.document := null;
      trace := trace + [ClearDocument];
      var _ := docs.CreateEmptyDocument(status.documentType, today, now, uuid);
      trace := trace + [CreateNextDocument];
    }

    /** `_check_and_complete_document`: nothing happens unless there is a
        document and it is paid to within a hundredth; the head is then
        marked complete and closed, and when saving that fails completion
        stops there; otherwise the rest of completion follows. */
    method CheckAndCompleteDocument(io: Writes, today: Date, now: int, uuid: UuidSource) returns (ok: bool)
      requires closures.Valid()
      modifies this`trace, Open()`head, closures`table, {closures.closure}`closure, docs.archive, docs`sequences,
               docs`document, docs`customers, uuid
      ensures closures.Valid()
      ensures var complete := old(docs.document) != null && PaymentService.IsDocumentComplete(old(docs.document.head));
        && ok == (complete && io.headSaved)
        && trace == old(trace) + CompletionSteps(complete, io.headSaved, old(closures.closure) != null)
      ensures old(docs.document) == null ==>
        docs.document == null && docs.sequences == old(docs.sequences) &&
        docs.archive.tables == old(docs.archive.tables) && closures.table == old(closures.table)
      ensures old(docs.document) != null ==>
        CheckedFrom(old(docs.document), old(docs.document.head), old(docs.document.payments),
                    old(docs.document.changes), old(OpenRecord()), old(closures.table), old(docs.archive.tables),
                    old(docs.sequences), uuid.values, old(uuid.count), io)
      ensures !ok ==> uuid.count == old(uuid.count)
      ensures ok && docs.document != null ==> fresh(docs.document)
    {
      var doc := docs.document;
      if doc == null {
        return false;
      }
      if !PaymentService.IsDocumentComplete(doc.head) {
        return false;
      }
      var marked := PaymentService.MarkDocumentComplete(doc, io.headSaved);
      trace := trace + [MarkComplete];
      if !marked {
        return false;
      }
      FinishCompletion(io, today, now, uuid, old(docs.document), old(OpenRecord()), old(closures.table),
                       old(docs.archive.tables), old(docs.sequences), old(uuid.count));
      ok := true;
    }

    /** The change is recorded and the completion check follows; with no
        change due, or when the change line cannot be created, nothing
        changes. */
    method RecordChangeAndComplete(io: Writes, today: Date, now: int, uuid: UuidSource) returns (recorded: bool)
      requires docs.document != null && closures.Valid()
      modifies this`trace, Open()`head, Open()`changes, closures`table, {closures.closure}`closure, docs.archive,
               docs`sequences, docs`document, docs`customers, uuid
      ensures closures.Valid()
      ensures var h := old(docs.document.head);
        && (recorded <==> h.totalPaymentAmount > h.totalAmount && io.changeCreated)
        && (recorded ==> trace == old(trace) + CompletionSteps(true, io.headSaved, old(closures.closure) != null))
        && (!recorded ==>
              trace == old(trace) && uuid.count == old(uuid.count) &&
              KeptOpen(old(docs.document), h, old(docs.document.payments), old(docs.document.changes),
                       old(closures.table), old(docs.archive.tables), old(docs.sequences)))
      ensures recorded ==>
        var h := old(docs.document.head);
        var c := PaymentService.ChangeStep(h, |old(docs.document.changes)|, uuid.values(old(uuid.count))).value;
        CheckedFrom(old(docs.document), h.(totalChangeAmount := c.changeAmount), old(docs.document.payments),
                    old(docs.document.changes) + [c], old(OpenRecord()), old(closures.table),
                    old(docs.archive.tables), old(docs.sequences), uuid.values, old(uuid.count) + 1, io)
    {
      var doc := docs.document;
      ghost var h0, n0, c0 := doc.head, |doc.changes|, uuid.count;
      var ok, line, err := PaymentService.RecordChange(doc, io.changeCreated, uuid);
      if ok {
        PaymentService.RecordedChangeCompletes(h0, n0, uuid.values(c0));
        var _ := CheckAndCompleteDocument(io, today, now, uuid);
      }
      recorded := ok;
    }

    /** `_change_payment_event`: refused when logged out or without a
        document; otherwise it succeeds exactly when change is due and its
        line is created, and then the document, now settled, is
        completed. */
    method ChangePaymentEvent(io: Writes, today: Date, now: int, uuid: UuidSource) returns (ok: bool)
      requires closures.Valid()
      modifies this`trace, Open()`head, Open()`changes, closures`table, {closures.closure}`closure, docs.archive,
               docs`sequences, docs`document, docs`customers, uuid
      ensures closures.Valid()
      ensures ok <==> status.loginSucceed && old(docs.document) != null &&
                      old(docs.document.head).totalPaymentAmount > old(docs.document.head).totalAmount &&
                      io.changeCreated
      ensures ok ==> trace == old(trace) + CompletionSteps(true, io.headSaved, old(closures.closure) != null)
      ensures ok ==>
        var h := old(docs.document.head);
        var c := PaymentService.ChangeStep(h, |old(docs.document.changes)|, uuid.values(old(uuid.count))).value;
        CheckedFrom(old(docs.document), h.(totalChangeAmount := c.changeAmount), old(docs.document.payments),
                    old(docs.document.changes) + [c], old(OpenRecord()), old(closures.table),
                    old(docs.archive.tables), old(docs.sequences), uuid.values, old(uuid.count) + 1, io)
      ensures !ok ==>
        trace == old(trace) && docs.document == old(docs.document) && uuid.count == old(uuid.count) &&
        docs.sequences == old(docs.sequences) && docs.archive.tables == old(docs.archive.tables) &&
        closures.table == old(closures.table)
      ensures !ok && docs.document != null ==>
        docs.document.head == old(docs.document.head) && docs.document.changes == old(docs.document.changes)
    {
      if !status.loginSucceed {
        return false;
      }
      if docs.document == null {
        return false;
      }
      ok := RecordChangeAndComplete(io, today, now, uuid);
    }

    /** `_show_change_info_and_record`: only when the cashier confirms the
        message (which needs a window) is the change recorded and the
        document completed. */
    method ShowChangeInfoAndRecord(confirmed: bool, io: Writes, today: Date, now: int, uuid: UuidSource)
      requires docs.document != null && closures.Valid()
      modifies this`trace, Open()`head, Open()`changes, closures`table, {closures.closure}`closure, docs.archive,
               docs`sequences, docs`document, docs`customers, uuid
      ensures closures.Valid()
      ensures var h := old(docs.document.head);
        var due := confirmed && h.totalPaymentAmount > h.totalAmount && io.changeCreated;
        && (due ==> trace == old(trace) + CompletionSteps(true, io.headSaved, old(closures.closure) != null))
        && (due ==>
              var c := PaymentService.ChangeStep(h, |old(docs.document.changes)|, uuid.values(old(uuid.count))).value;
              CheckedFrom(old(docs.document), h.(totalChangeAmount := c.changeAmount), old(docs.document.payments),
                          old(docs.document.changes) + [c], old(OpenRecord()), old(closures.table),
                          old(docs.archive.tables), old(docs.sequences), uuid.values, old(uuid.count) + 1, io))
        && (!due ==>
              trace == old(trace) &&
              KeptOpen(old(docs.document), h, old(docs.document.payments), old(docs.document.changes),
                       old(closures.table), old(docs.archive.tables), old(docs.sequences)))
    {
      if confirmed {
        var _ := RecordChangeAndComplete(io, today, now, uuid);
      }
    }

    /** What follows a recorded payment in `_process_payment`: without
        change due the completion check runs; with change due and a change
        button on the form the document is left open for that button;
        without one the cashier is shown the change and, on confirming,
        it is recorded and the document completed. */
    method SettlePayment(hasChangeButton: bool, confirmed: bool, io: Writes, today: Date, now: int,
                         uuid: UuidSource, ghost doc0: DocumentData, ghost h: Head, ghost ps: seq<PaymentLine>,
                         ghost line: PaymentLine, ghost cs: seq<ChangeLine>, ghost record0: Option<Closures.ClosureRecord>,
                         ghost table0: seq<Closures.ClosureRecord>, ghost tables0: PermanentTables,
                         ghost seqs0: seq<TransactionSequence>, ghost n: nat)
      requires docs.document == doc0 && doc0.head == PaidHead(h, line) && doc0.payments == ps + [line]
      requires doc0.changes == cs
      requires OpenRecord() == record0 && closures.table == table0 && docs.archive.tables == tables0
      requires docs.sequences == seqs0 && uuid.count == n
      requires closures.Valid()
      modifies this`trace, Open()`head, Open()`changes, closures`table, {closures.closure}`closure, docs.archive,
               docs`sequences, docs`document, docs`customers, uuid
      ensures closures.Valid()
      ensures trace == old(trace) + SettleSteps(PaidHead(h, line), hasChangeButton, confirmed, io, record0.Some?)
      ensures SettledFrom(doc0, h, ps, line, cs, hasChangeButton, confirmed, record0, table0, tables0, seqs0,
                          uuid.values, n, io)
    {
      var change := PaymentService.CalculateChange(docs.document);
      if change > 0.0 {
        if !hasChangeButton {
          ShowChangeInfoAndRecord(confirmed, io, today, now, uuid);
        }
        return;
      }
      var _ := CheckAndCompleteDocument(io, today, now, uuid);
    }

    /** `_process_payment`: refused without a document, when the payment
        service refuses the payment or when its line cannot be created,
        with nothing changed; otherwise the payment line is appended, the
        head's payment total raised, and the payment settled. */
    method ProcessPayment(paymentType: string, buttonName: string, hasChangeButton: bool, confirmed: bool,
                          io: Writes, today: Date, now: int, uuid: UuidSource) returns (ok: bool)
      requires closures.Valid()
      modifies this`trace, Open()`head, Open()`payments, Open()`changes, closures`table, {closures.closure}`closure,
               docs.archive, docs`sequences, docs`document, docs`customers, uuid
      ensures closures.Valid()
      ensures old(docs.document) == null ==> !ok
      ensures old(docs.document) != null ==>
        var h := old(docs.document.head);
        var step := PaymentService.PaymentStep(h, |old(docs.document.payments)|, paymentType,
          PaymentService.PaymentAmount(buttonName, PaymentService.Remaining(h), paymentType),
          uuid.values(old(uuid.count)));
        && (ok <==> step.Success? && io.paymentCreated)
        && (ok ==>
              && trace == old(trace) + SettleSteps(PaidHead(h, step.value), hasChangeButton, confirmed, io,
                                                   old(closures.closure) != null)
              && SettledFrom(old(docs.document), h, old(docs.document.payments), step.value,
                             old(docs.document.changes), hasChangeButton, confirmed, old(OpenRecord()),
                             old(closures.table), old(docs.archive.tables), old(docs.sequences), uuid.values,
                             old(uuid.count) + 1, io))
      ensures !ok ==> trace == old(trace) && docs.document == old(docs.document) && uuid.count == old(uuid.count)
      ensures !ok && docs.document != null ==>
        docs.document.head == old(docs.document.head) && docs.document.payments == old(docs.document.payments) &&
        docs.document.changes == old(docs.document.changes)
    {
      if docs.document == null {
        return false;
      }
      var paid, line, err := PaymentService.ProcessPayment(docs.document, paymentType, buttonName, io.paymentCreated,
                                                           uuid);
      if !paid {
        return false;
      }
      ghost var h := old(docs.document.head);
      ghost var step := PaymentService.PaymentStep(h, |old(docs.document.payments)|, paymentType,
        PaymentService.PaymentAmount(buttonName, PaymentService.Remaining(h), paymentType),
        uuid.values(old(uuid.count)));
      SettlePayment(hasChangeButton, confirmed, io, today, now, uuid, old(docs.document), h,
                    old(docs.document.payments), step.value, old(docs.document.changes), old(OpenRecord()),
                    old(closures.table), old(docs.archive.tables), old(docs.sequences), old(uuid.count) + 1);
      ok := true;
    }

    /** The tender events (cash, credit, check, exchange, prepaid, charge
        sale and other): refused when logged out, else a payment of that
        type. */
    method TenderEvent(paymentType: string, buttonName: string, hasChangeButton: bool, confirmed: bool,
                       io: Writes, today: Date, now: int, uuid: UuidSource) returns (ok: bool)
      requires closures.Valid()
      modifies this`trace, Open()`head, Open()`payments, Open()`changes, closures`table, {closures.closure}`closure,
               docs.archive, docs`sequences, docs`document, docs`customers, uuid
      ensures closures.Valid()
      ensures !status.loginSucceed ==>
        !ok && trace == old(trace) && docs.document == old(docs.document) && uuid.count == old(uuid.count)
      ensures status.loginSucceed && old(docs.document) == null ==> !ok
      ensures status.loginSucceed && old(docs.document) != null ==>
        var h := old(docs.document.head);
        var step := PaymentService.PaymentStep(h, |old(docs.document.payments)|, paymentType,
          PaymentService.PaymentAmount(buttonName, PaymentService.Remaining(h), paymentType),
          uuid.values(old(uuid.count)));
        && (ok <==> step.Success? && io.paymentCreated)
        && (ok ==>
              && trace == old(trace) + SettleSteps(PaidHead(h, step.value), hasChangeButton, confirmed, io,
                                                   old(closures.closure) != null)
              && SettledFrom(old(docs.document), h, old(docs.document.payments), step.value,
                             old(docs.document.changes), hasChangeButton, confirmed, old(OpenRecord()),
                             old(closures.table), old(docs.archive.tables), old(docs.sequences), uuid.values,
                             old(uuid.count) + 1, io))
      ensures !ok ==> trace == old(trace) && docs.document == old(docs.document) && uuid.count == old(uuid.count)
      ensures !ok && docs.document != null ==>
        docs.document.head == old(docs.document.head) && docs.document.payments == old(docs.document.payments) &&
        docs.document.changes == old(docs.document.changes)
    {
      if !status.loginSucceed {
        return false;
      }
      ok := ProcessPayment(paymentType, buttonName, hasChangeButton, confirmed, io, today, now, uuid);
    }
  }
}
