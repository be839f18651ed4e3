/**
 * The end-of-day closure: the open closure record with its summary lists,
 * how the open one is found at start-up, how a new one is numbered, and
 * how closing it stamps, stores and replaces it.
 */
module Closures {
  import opened Wrappers
  import opened Documents
  import opened Catalog

  /** A `Closure` row with the running totals the sale core maintains. */
  datatype ClosureRecord = ClosureRecord(
    id: Id,
    uniqueId: string,
    number: int,
    storeId: Id,
    posId: Id,
    date: Date,
    startTime: int,
    endTime: Option<int>,
    baseCurrencyId: Id,
    cashierOpenedId: Id,
    cashierClosedId: Id,
    totalDocumentCount: int,
    validTransactionCount: int,
    grossSales: real,
    netSales: real,
    totalTax: real,
    totalDiscount: real,
    totalTip: real,
    closingCash: real,
    paidInCount: int,
    paidInTotal: real,
    expectedCash: real,
    cashDifference: real,
    description: Option<string>,
    isDeleted: bool)

  /** The summary tables hanging off a closure, in the order closing saves them. */
  datatype SummaryKind =
    | CashierSummaries | Currencies | DepartmentSummaries | DiscountSummaries
    | DocumentTypeSummaries | PaymentTypeSummaries | TipSummaries | VatSummaries
    | CountrySpecific

  const ListKinds: seq<SummaryKind> := [CashierSummaries, Currencies, DepartmentSummaries,
    DiscountSummaries, DocumentTypeSummaries, PaymentTypeSummaries, TipSummaries, VatSummaries]

  /** A summary row; `id` is `None` until the row is first stored. */
  datatype Summary = Summary(kind: SummaryKind, id: Option<Id>, closureId: Option<Id>, payload: int, isDeleted: bool)

  /** The `closure` dictionary: the record, one list per summary kind and
      the optional country-specific row. */
  class ClosureData {
    var closure: ClosureRecord
    var lists: map<SummaryKind, seq<Summary>>
    var countrySpecific: Option<Summary>

    ghost predicate Valid()
      reads this
    {
      forall k :: k in ListKinds ==> k in lists
    }

    constructor (rec: ClosureRecord, ls: map<SummaryKind, seq<Summary>>, cs: Option<Summary>)
      requires forall k :: k in ListKinds ==> k in ls
      ensures closure == rec && lists == ls && countrySpecific == cs && Valid()
    {
      closure := rec;
      lists := ls;
      countrySpecific := cs;
    }
  }

  // ------------------------------------------------------------ table queries

  /** The stored summaries of one kind that belong to a closure and are not deleted. */
  function SummariesOf(rows: seq<Summary>, kind: SummaryKind, closureId: Id): (r: seq<Summary>)
    ensures forall s :: s in r <==> (s in rows && s.kind == kind && s.closureId == Some(closureId) && !s.isDeleted)
  {
    if |rows| == 0 then []
    else
      var rest := SummariesOf(rows[1..], kind, closureId);
      var s := rows[0];
      assert forall x :: x in rows <==> x == s || x in rows[1..];
      if s.kind == kind && s.closureId == Some(closureId) && !s.isDeleted then [s] + rest else rest
  }

  /** The lists `_load_closure_data` builds for a closure id. */
  function ListsOf(rows: seq<Summary>, closureId: Id): (r: map<SummaryKind, seq<Summary>>)
    ensures forall k :: k in ListKinds ==> k in r && r[k] == SummariesOf(rows, k, closureId)
  {
    map k | k in ListKinds :: SummariesOf(rows, k, closureId)
  }

  /** The index of the first row with that id. */
  function FindClosure(table: seq<ClosureRecord>, id: Id): (r: Option<nat>)
    ensures r.Some? ==> r.value < |table| && table[r.value].id == id
    ensures r.None? ==> forall j :: 0 <= j < |table| ==> table[j].id != id
  {
    if |table| == 0 then None
    else if table[0].id == id then Some(0)
    else match FindClosure(table[1..], id)
      case None => None
      case Some(k) => Some(k + 1)
  }

  predicate IsOpen(c: ClosureRecord)
  {
    c.endTime.None? && !c.isDeleted
  }

  /** The open closure with the latest start time (the first such row on a tie). */
  function LatestOpen(table: seq<ClosureRecord>): (r: Option<nat>)
    ensures r.None? <==> forall j :: 0 <= j < |table| ==> !IsOpen(table[j])
    ensures r.Some? ==> r.value < |table| && IsOpen(table[r.value])
    ensures r.Some? ==> forall j :: 0 <= j < |table| && IsOpen(table[j]) ==>
      table[j].startTime <= table[r.value].startTime
  {
    if |table| == 0 then None
    else
      var rest := LatestOpen(table[1..]);
      assert forall j :: 1 <= j < |table| ==> table[j] == table[1..][j - 1];
      if !IsOpen(table[0]) then
        (match rest case None => None case Some(k) => Some(k + 1))
      else match rest
        case None => Some(0)
        case Some(k) => if table[k + 1].startTime > table[0].startTime then Some(k + 1) else Some(0)
  }

  predicate CountsOn(c: ClosureRecord, day: Date)
  {
    c.date == day && !c.isDeleted
  }

  /** The highest closure number already used on `day`, if any. */
  function MaxNumberOn(table: seq<ClosureRecord>, day: Date): (r: Option<int>)
    ensures r.None? <==> forall j :: 0 <= j < |table| ==> !CountsOn(table[j], day)
    ensures r.Some? ==> exists j :: 0 <= j < |table| && CountsOn(table[j], day) && table[j].number == r.value
    ensures r.Some? ==> forall j :: 0 <= j < |table| && CountsOn(table[j], day) ==> table[j].number <= r.value
  {
    if |table| == 0 then None
    else
      var rest := MaxNumberOn(table[1..], day);
      assert forall j :: 1 <= j < |table| ==> table[j] == table[1..][j - 1];
      if !CountsOn(table[0], day) then rest
      else match rest
        case None => Some(table[0].number)
        case Some(m) => Some(if table[0].number > m then table[0].number else m)
  }

  /** The number the next closure of `day` receives. */
  function NextClosureNumber(table: seq<ClosureRecord>, day: Date): int
  {
    match MaxNumberOn(table, day)
    case None => 1
    case Some(m) => m + 1
  }

  /** The next number is 1 on a fresh day and otherwise one past the day's
      highest, so it differs from every number already used that day. */
  lemma NextClosureNumberFresh(table: seq<ClosureRecord>, day: Date)
    ensures (forall j :: 0 <= j < |table| ==> !CountsOn(table[j], day)) ==> NextClosureNumber(table, day) == 1
    ensures forall j :: 0 <= j < |table| && CountsOn(table[j], day) ==>
      table[j].number < NextClosureNumber(table, day)
    ensures (exists j :: 0 <= j < |table| && CountsOn(table[j], day)) ==>
      exists j :: 0 <= j < |table| && CountsOn(table[j], day) && table[j].number + 1 == NextClosureNumber(table, day)
  {
  }

  /** "YYYYMMDD-nnnn". */
  function ClosureUniqueId(day: Date, n: int): string
  {
    StampedNumber(day, n, 4)
  }

  /** The unique id names its day and its number. */
  lemma ClosureUniqueIdDecodes(day: Date, n: nat)
    ensures Text.Split(ClosureUniqueId(day, n), '-') == [DateStamp(day), Text.PadInt(n, 4)]
    ensures Text.ParseInt(Text.Split(ClosureUniqueId(day, n), '-')[1]) == Some(n)
  {
    StampedNumberDecodes(day, n, 4);
  }

  /** Primary keys are unique. */
  ghost predicate UniqueIds(table: seq<ClosureRecord>)
  {
    forall i, j :: 0 <= i < j < |table| ==> table[i].id != table[j].id
  }

  /** With unique keys, looking up a stored row's id finds that row. */
  lemma {:induction false} FindClosureUnique(table: seq<ClosureRecord>, i: nat)
    requires UniqueIds(table) && i < |table|
    ensures FindClosure(table, table[i].id) == Some(i)
  {
    if i > 0 {
      assert table[1..][i - 1] == table[i];
      FindClosureUnique(table[1..], i - 1);
    }
  }

  /** `create()`: an insert, which fails (leaving the table as it was) when
      the key is already taken. */
  function InsertClosure(table: seq<ClosureRecord>, c: ClosureRecord): (r: seq<ClosureRecord>)
    ensures FindClosure(table, c.id).None? ==> r == table + [c]
    ensures FindClosure(table, c.id).Some? ==> r == table
  {
    if FindClosure(table, c.id).None? then table + [c] else table
  }

  /** `save()`: a merge, which replaces the row with the same key or adds the row. */
  function MergeClosure(table: seq<ClosureRecord>, c: ClosureRecord): (r: seq<ClosureRecord>)
    ensures FindClosure(table, c.id).None? ==> r == table + [c]
    ensures FindClosure(table, c.id).Some? ==> r == table[FindClosure(table, c.id).value := c]
  {
    match FindClosure(table, c.id)
    case None => table + [c]
    case Some(i) => table[i := c]
  }

  /** Both writes keep keys unique, and afterwards the key finds a row:
      the written one after a merge, and after an insert whenever the key was free. */
  lemma WritesKeepKeysUnique(table: seq<ClosureRecord>, c: ClosureRecord)
    requires UniqueIds(table)
    ensures UniqueIds(InsertClosure(table, c)) && UniqueIds(MergeClosure(table, c))
    ensures FindClosure(MergeClosure(table, c), c.id).Some?
    ensures MergeClosure(table, c)[FindClosure(MergeClosure(table, c), c.id).value] == c
    ensures FindClosure(InsertClosure(table, c), c.id).Some?
    ensures FindClosure(table, c.id).None? ==>
      InsertClosure(table, c)[FindClosure(InsertClosure(table, c), c.id).value] == c
  {
    match FindClosure(table, c.id)
    case None =>
      FindClosureUnique(table + [c], |table|);
    case Some(i) =>
      FindClosureUnique(table[i := c], i);
  }

  /** The first cashier id available: the logged-in cashier, else the first cached one. */
  function ClosureCashier(current: Option<Cashier>, cashiers: seq<Cashier>): (r: Option<Id>)
    ensures current.Some? ==> r == Some(current.value.id)
    ensures current.None? && |cashiers| > 0 ==> r == Some(cashiers[0].id)
    ensures current.None? && |cashiers| == 0 ==> r.None?
  {
    if current.Some? then Some(current.value.id)
    else if |cashiers| > 0 then Some(cashiers[0].id)
    else None
  }

  /** The base currency: the one configured in the POS settings, else the
      first cached currency. */
  function ClosureCurrency(settings: PosSettings, currencyIds: seq<Id>): (r: Option<Id>)
    ensures settings.currentCurrencyId.Some? ==> r == settings.currentCurrencyId
    ensures settings.currentCurrencyId.None? && |currencyIds| > 0 ==> r == Some(currencyIds[0])
    ensures settings.currentCurrencyId.None? && |currencyIds| == 0 ==> r.None?
  {
    if settings.currentCurrencyId.Some? then settings.currentCurrencyId
    else if |currencyIds| > 0 then Some(currencyIds[0])
    else None
  }

  /** The record `create_empty_closure` would store under `id`, or `None`
      when the settings, a store, a currency or a cashier is missing. */
  function NewClosure(settings: Option<PosSettings>, storeIds: seq<Id>, currencyIds: seq<Id>,
                      cashier: Option<Cashier>, cashiers: seq<Cashier>,
                      table: seq<ClosureRecord>, today: Date, now: int, id: Id): (r: Option<ClosureRecord>)
    ensures r.None? <==> (settings.None? || |storeIds| == 0 ||
      ClosureCurrency(settings.value, currencyIds).None? || ClosureCashier(cashier, cashiers).None?)
    ensures r.Some? ==>
      var c := r.value;
      c.id == id && IsOpen(c) && c.date == today && c.startTime == now &&
      c.number == NextClosureNumber(table, today) && c.uniqueId == ClosureUniqueId(today, c.number) &&
      c.storeId == storeIds[0] && c.posId == settings.value.id &&
      c.baseCurrencyId == ClosureCurrency(settings.value, currencyIds).value &&
      c.cashierOpenedId == ClosureCashier(cashier, cashiers).value &&
      c.cashierClosedId == c.cashierOpenedId &&
      c.totalDocumentCount == 0 && c.validTransactionCount == 0 && c.grossSales == 0.0 &&
      c.netSales == 0.0 && c.totalTax == 0.0 && c.closingCash == 0.0 && c.paidInTotal == 0.0
  {
    if settings.None? || |storeIds| == 0 then None
    else
      var currencyId := ClosureCurrency(settings.value, currencyIds);
      var cashierId := ClosureCashier(cashier, cashiers);
      if currencyId.None? || cashierId.None? then None
      else
        var n := NextClosureNumber(table, today);
        Some(ClosureRecord(id, ClosureUniqueId(today, n), n, storeIds[0], settings.value.id, today, now, None,
                           currencyId.value, cashierId.value, cashierId.value,
                           0, 0, 0.0, 0.0, 0.0, 0.0, 0.0, 0.0, 0, 0.0, 0.0, 0.0, None, false))
  }

  /** A new closure is numbered after every closure of its day, and its
      unique id carries that day and number. */
  lemma NewClosureNumbering(settings: Option<PosSettings>, storeIds: seq<Id>, currencyIds: seq<Id>,
                            cashier: Option<Cashier>, cashiers: seq<Cashier>,
                            table: seq<ClosureRecord>, today: Date, now: int, id: Id)
    requires NewClosure(settings, storeIds, currencyIds, cashier, cashiers, table, today, now, id).Some?
    ensures var c := NewClosure(settings, storeIds, currencyIds, cashier, cashiers, table, today, now, id).value;
      (forall j :: 0 <= j < |table| && CountsOn(table[j], today) ==> table[j].number < c.number) &&
      ((forall j :: 0 <= j < |table| && CountsOn(table[j], today) ==> table[j].number >= 0) ==>
        c.number >= 1 && Text.Split(c.uniqueId, '-')[0] == DateStamp(today))
  {
    var c := NewClosure(settings, storeIds, currencyIds, cashier, cashiers, table, today, now, id).value;
    NextClosureNumberFresh(table, today);
    if MaxNumberOn(table, today).Some? {
      var j :| 0 <= j < |table| && CountsOn(table[j], today) && table[j].number == MaxNumberOn(table, today).value;
    }
    if c.number >= 0 {
      ClosureUniqueIdDecodes(today, c.number);
    }
  }

  /** The summaries after closing: the same rows in the same order, each now
      stored with an id; the new ones tied to the closure, the stored ones unchanged. */
  ghost predicate Stamped(before: seq<Summary>, after: seq<Summary>, closureId: Id)
  {
    |after| == |before| &&
    forall j :: 0 <= j < |before| ==>
      after[j].id.Some? && after[j].kind == before[j].kind && after[j].payload == before[j].payload &&
      (before[j].id.None? ==> after[j].closureId == Some(closureId)) &&
      (before[j].id.Some? ==> after[j] == before[j])
  }

  /** The first stored summary with that id. */
  function FindSummary(rows: seq<Summary>, id: Option<Id>): (r: Option<nat>)
    ensures r.Some? ==> r.value < |rows| && rows[r.value].id == id
    ensures r.None? ==> forall j :: 0 <= j < |rows| ==> rows[j].id != id
  {
    if |rows| == 0 then None
    else if rows[0].id == id then Some(0)
    else match FindSummary(rows[1..], id)
      case None => None
      case Some(k) => Some(k + 1)
  }

  /** Writes one summary: a new one is inserted (and skipped on a taken
      key), a stored one is merged. */
  function PutSummary(rows: seq<Summary>, isNew: bool, t: Summary): (r: seq<Summary>)
    ensures isNew && FindSummary(rows, t.id).Some? ==> r == rows
    ensures (!isNew || FindSummary(rows, t.id).None?) ==>
      FindSummary(r, t.id).Some? && r[FindSummary(r, t.id).value] == t
    ensures |rows| <= |r| <= |rows| + 1
  {
    match FindSummary(rows, t.id)
    case None =>
      assert FindSummary(rows + [t], t.id) == Some(|rows|) by { FindSummaryLast(rows, t); }
      rows + [t]
    case Some(i) =>
      if isNew then rows
      else
        assert FindSummary(rows[i := t], t.id) == Some(i) by { FindSummaryAt(rows, i, t); }
        rows[i := t]
  }

  lemma {:induction false} FindSummaryLast(rows: seq<Summary>, t: Summary)
    requires FindSummary(rows, t.id).None?
    ensures FindSummary(rows + [t], t.id) == Some(|rows|)
  {
    if |rows| > 0 {
      assert (rows + [t])[1..] == rows[1..] + [t];
      FindSummaryLast(rows[1..], t);
    }
  }

  lemma {:induction false} FindSummaryAt(rows: seq<Summary>, i: nat, t: Summary)
    requires FindSummary(rows, t.id) == Some(i)
    ensures FindSummary(rows[i := t], t.id) == Some(i)
  {
    if i > 0 {
      assert rows[i := t][1..] == rows[1..][i - 1 := t];
      FindSummaryAt(rows[1..], i - 1, t);
    }
  }

  /** The summary rows after writing `ts` for the summaries `ss`, in order. */
  function PutSummaries(rows: seq<Summary>, ss: seq<Summary>, ts: seq<Summary>): seq<Summary>
    requires |ss| == |ts|
    decreases |ss|
  {
    if |ss| == 0 then rows
    else PutSummaries(PutSummary(rows, ss[0].id.None?, ts[0]), ss[1..], ts[1..])
  }

  lemma {:induction false} PutSummariesSnoc(rows: seq<Summary>, ss: seq<Summary>, ts: seq<Summary>, s: Summary, t: Summary)
    requires |ss| == |ts|
    decreases |ss|
    ensures PutSummaries(rows, ss + [s], ts + [t]) == PutSummary(PutSummaries(rows, ss, ts), s.id.None?, t)
  {
    if |ss| > 0 {
      assert (ss + [s])[1..] == ss[1..] + [s];
      assert (ts + [t])[1..] == ts[1..] + [t];
      PutSummariesSnoc(PutSummary(rows, ss[0].id.None?, ts[0]), ss[1..], ts[1..], s, t);
    }
  }

  /** How many of the summaries are not stored yet; each draws a fresh id when stored. */
  function Unstored(ss: seq<Summary>): nat
  {
    if |ss| == 0 then 0 else Unstored(ss[..|ss| - 1]) + (if ss[|ss| - 1].id.None? then 1 else 0)
  }

  /** The summary rows after storing the lists of the first `n` kinds in
      order; `before` holds the lists as they were, `after` as stored. */
  function PutLists(rows: seq<Summary>, before: map<SummaryKind, seq<Summary>>,
                    after: map<SummaryKind, seq<Summary>>, n: nat): seq<Summary>
    requires n <= |ListKinds|
  {
    if n == 0 then rows
    else
      var k := ListKinds[n - 1];
      var prev := PutLists(rows, before, after, n - 1);
      if k in before && k in after && |before[k]| == |after[k]| then PutSummaries(prev, before[k], after[k]) else prev
  }

  /** The ids drawn by storing the lists of the first `n` kinds. */
  function UnstoredLists(before: map<SummaryKind, seq<Summary>>, n: nat): nat
    requires n <= |ListKinds|
  {
    if n == 0 then 0
    else UnstoredLists(before, n - 1) + (if ListKinds[n - 1] in before then Unstored(before[ListKinds[n - 1]]) else 0)
  }

  /** The summary rows after `close_closure` has stored every list in order
      and then the country-specific row. */
  function StoredRows(rows: seq<Summary>, before: map<SummaryKind, seq<Summary>>, after: map<SummaryKind, seq<Summary>>,
                      csBefore: Option<Summary>, csAfter: Option<Summary>): seq<Summary>
  {
    var listed := PutLists(rows, before, after, |ListKinds|);
    if csBefore.Some? && csAfter.Some? then PutSummary(listed, csBefore.value.id.None?, csAfter.value) else listed
  }

  /** The ids drawn by storing every list and the country-specific row. */
  function UnstoredAll(before: map<SummaryKind, seq<Summary>>, cs: Option<Summary>): nat
  {
    UnstoredLists(before, |ListKinds|) + (if cs.Some? && cs.value.id.None? then 1 else 0)
  }

  /** `PutLists` only looks at the lists of the first `n` kinds. */
  lemma {:induction false} PutListsAgree(rows: seq<Summary>, before: map<SummaryKind, seq<Summary>>,
                                         a1: map<SummaryKind, seq<Summary>>, a2: map<SummaryKind, seq<Summary>>, n: nat)
    requires n <= |ListKinds|
    requires forall j :: 0 <= j < n ==> ListKinds[j] in a1 && ListKinds[j] in a2 && a1[ListKinds[j]] == a2[ListKinds[j]]
    ensures PutLists(rows, before, a1, n) == PutLists(rows, before, a2, n)
  {
    if n > 0 {
      PutListsAgree(rows, before, a1, a2, n - 1);
    }
  }

  /** Storing the list of kind `i` extends the rows of the kinds before it. */
  lemma PutListsStep(rows: seq<Summary>, before: map<SummaryKind, seq<Summary>>,
                     a1: map<SummaryKind, seq<Summary>>, i: nat, saved: seq<Summary>)
    requires i < |ListKinds|
    requires forall k :: k in ListKinds ==> k in before && k in a1
    requires |before[ListKinds[i]]| == |saved|
    ensures PutLists(rows, before, a1[ListKinds[i] := saved], i + 1) ==
      PutSummaries(PutLists(rows, before, a1, i), before[ListKinds[i]], saved)
  {
    ListKindsDistinct();
    PutListsAgree(rows, before, a1, a1[ListKinds[i] := saved], i);
  }

  /** Storing one more summary extends the stamped prefix. */
  lemma StampedSnoc(ss: seq<Summary>, r: seq<Summary>, s: Summary, t: Summary, closureId: Id)
    requires Stamped(ss, r, closureId) && Stamped([s], [t], closureId)
    ensures Stamped(ss + [s], r + [t], closureId)
  {
    assert forall j :: 0 <= j < |ss| ==> (ss + [s])[j] == ss[j] && (r + [t])[j] == r[j];
  }

  /** One more summary draws one more id exactly when it is not stored yet. */
  lemma UnstoredStep(ss: seq<Summary>, i: nat)
    requires i < |ss|
    ensures ss[..i + 1] == ss[..i] + [ss[i]]
    ensures Unstored(ss[..i + 1]) == Unstored(ss[..i]) + (if ss[i].id.None? then 1 else 0)
  {
    assert ss[..i + 1][..i] == ss[..i];
  }

  /** Storing the list of kind `i` carries every loop fact of
      `StoreLists` from the first `i` kinds to the first `i + 1`. */
  lemma ListsStep(rows: seq<Summary>, before: map<SummaryKind, seq<Summary>>,
                  a1: map<SummaryKind, seq<Summary>>, i: nat, saved: seq<Summary>, closureId: Id)
    requires i < |ListKinds|
    requires forall k :: k in ListKinds ==> k in before && k in a1
    requires forall j :: 0 <= j < i ==> Stamped(before[ListKinds[j]], a1[ListKinds[j]], closureId)
    requires forall j :: i <= j < |ListKinds| ==> a1[ListKinds[j]] == before[ListKinds[j]]
    requires Stamped(a1[ListKinds[i]], saved, closureId)
    ensures var a2 := a1[ListKinds[i] := saved];
      && (forall k :: k in ListKinds ==> k in a2)
      && (forall j :: 0 <= j < i + 1 ==> Stamped(before[ListKinds[j]], a2[ListKinds[j]], closureId))
      && (forall j :: i + 1 <= j < |ListKinds| ==> a2[ListKinds[j]] == before[ListKinds[j]])
      && PutLists(rows, before, a2, i + 1) == PutSummaries(PutLists(rows, before, a1, i), a1[ListKinds[i]], saved)
      && UnstoredLists(before, i + 1) == UnstoredLists(before, i) + Unstored(a1[ListKinds[i]])
  {
    ListKindsDistinct();
    PutListsStep(rows, before, a1, i, saved);
  }

  /** All eight summary kinds are different. */
  lemma ListKindsDistinct()
    ensures forall a, b :: 0 <= a < b < |ListKinds| ==> ListKinds[a] != ListKinds[b]
  {
  }

  /** The ClosureManager part of the application: the open closure and the
      stored closure and summary rows. */
  class ClosureManager {
    var closure: ClosureData?
    var table: seq<ClosureRecord>
    var summaryRows: seq<Summary>

    ghost predicate Valid()
      reads this
    {
      UniqueIds(table)
    }

    constructor (t: seq<ClosureRecord>, rows: seq<Summary>)
      requires UniqueIds(t)
      ensures closure == null && table == t && summaryRows == rows && Valid()
    {
      closure := null;
      table := t;
      summaryRows := rows;
    }

    /** `_load_closure_data`: the stored record and its live summaries, or no change. */
    method LoadClosureData(id: Id)
      modifies this
      ensures table == old(table) && summaryRows == old(summaryRows)
      ensures FindClosure(table, id).None? ==> closure == old(closure)
      ensures FindClosure(table, id).Some? ==>
        fresh(closure) && closure.Valid() &&
        closure.closure == table[FindClosure(table, id).value] &&
        closure.lists == ListsOf(summaryRows, id) &&
        closure.countrySpecific == FirstOf(SummariesOf(summaryRows, CountrySpecific, id))
    {
      match FindClosure(table, id)
      case None =>
      case Some(i) =>
        var cs := SummariesOf(summaryRows, CountrySpecific, id);
        closure := new ClosureData(table[i], ListsOf(summaryRows, id), FirstOf(cs));
    }

    /** `create_empty_closure`: inserts and loads a new open closure (see
        `NewClosure`), or does nothing when something it needs is missing. */
    method CreateEmptyClosure(settings: Option<PosSettings>, storeIds: seq<Id>, currencyIds: seq<Id>,
                              cashier: Option<Cashier>, cashiers: seq<Cashier>,
                              today: Date, now: int, uuid: UuidSource)
      requires Valid()
      modifies this, uuid
      ensures Valid() && summaryRows == old(summaryRows)
      ensures var nc := NewClosure(settings, storeIds, currencyIds, cashier, cashiers, old(table), today, now,
                                   uuid.values(old(uuid.count)));
        (nc.None? ==> table == old(table) && closure == old(closure) && uuid.count == old(uuid.count)) &&
        (nc.Some? ==>
          table == InsertClosure(old(table), nc.value) && uuid.count == old(uuid.count) + 1 &&
          fresh(closure) && closure.Valid() && closure.closure.id == nc.value.id &&
          (FindClosure(old(table), nc.value.id).None? ==> closure.closure == nc.value))
    {
      if settings.None? || |storeIds| == 0 {
        return;
      }
      var currencyId := ClosureCurrency(settings.value, currencyIds);
      if currencyId.None? {
        return;
      }
      var cashierId := ClosureCashier(cashier, cashiers);
      if cashierId.None? {
        return;
      }
      var n := NextClosureNumber(table, today);
      var id := uuid.Next();
      var rec := ClosureRecord(id, ClosureUniqueId(today, n), n, storeIds[0], settings.value.id, today, now, None,
                               currencyId.value, cashierId.value, cashierId.value,
                               0, 0, 0.0, 0.0, 0.0, 0.0, 0.0, 0.0, 0, 0.0, 0.0, 0.0, None, false);
      WritesKeepKeysUnique(table, rec);
      table := InsertClosure(table, rec);
      LoadClosureData(id);
    }

    /** `load_open_closure`: resume the latest open closure, or open a new one. */
    method LoadOpenClosure(settings: Option<PosSettings>, storeIds: seq<Id>, currencyIds: seq<Id>,
                           cashier: Option<Cashier>, cashiers: seq<Cashier>,
                           today: Date, now: int, uuid: UuidSource)
      requires Valid()
      modifies this, uuid
      ensures Valid() && summaryRows == old(summaryRows)
      ensures LatestOpen(old(table)).Some? ==>
        table == old(table) && uuid.count == old(uuid.count) && fresh(closure) && closure.Valid() &&
        closure.closure == old(table)[LatestOpen(old(table)).value]
      ensures LatestOpen(old(table)).None? ==>
        var nc := NewClosure(settings, storeIds, currencyIds, cashier, cashiers, old(table), today, now,
                             uuid.values(old(uuid.count)));
        (nc.None? ==> table == old(table) && closure == old(closure)) &&
        (nc.Some? ==> table == InsertClosure(old(table), nc.value) && fresh(closure) &&
                      closure.closure.id == nc.value.id) &&
        (nc.Some? && FindClosure(old(table), nc.value.id).None? ==> closure.closure == nc.value)
    {
      match LatestOpen(table)
      case Some(i) =>
        FindClosureUnique(table, i);
        LoadClosureData(table[i].id);
      case None =>
        CreateEmptyClosure(settings, storeIds, currencyIds, cashier, cashiers, today, now, uuid);
    }

    /** `close_closure`: stamp the end time and closing cashier, settle the
        cash difference, store the record and every summary, then open the
        next closure.  Nothing happens without an open closure or a cashier. */
    method CloseClosure(closingCash: Option<real>, description: Option<string>,
                        settings: Option<PosSettings>, storeIds: seq<Id>, currencyIds: seq<Id>,
                        cashier: Option<Cashier>, cashiers: seq<Cashier>,
                        today: Date, now: int, uuid: UuidSource)
      requires Valid() && (closure != null ==> closure.Valid())
      modifies this, closure, uuid
      ensures Valid()
      ensures (old(closure) == null || cashier.None?) ==>
        closure == old(closure) && table == old(table) && summaryRows == old(summaryRows) &&
        uuid.count == old(uuid.count)
      ensures old(closure) != null && cashier.Some? ==>
        var stamped := Closed(old(closure.closure), now, cashier.value.id, closingCash, description);
        && old(closure).closure == stamped && old(closure).Valid()
        && (forall j :: 0 <= j < |ListKinds| ==>
             Stamped(old(closure.lists)[ListKinds[j]], old(closure).lists[ListKinds[j]], stamped.id))
        && (old(closure.countrySpecific).Some? <==> old(closure).countrySpecific.Some?)
        && (old(closure.countrySpecific).Some? ==>
             Stamped([old(closure.countrySpecific).value], [old(closure).countrySpecific.value], stamped.id))
        && summaryRows == StoredRows(old(summaryRows), old(closure.lists), old(closure).lists,
                                     old(closure.countrySpecific), old(closure).countrySpecific)
      ensures old(closure) != null && cashier.Some? ==>
        var stamped := Closed(old(closure.closure), now, cashier.value.id, closingCash, description);
        var merged := MergeClosure(old(table), stamped);
        var mid := old(uuid.count) + UnstoredAll(old(closure.lists), old(closure.countrySpecific));
        var nc := NewClosure(settings, storeIds, currencyIds, cashier, cashiers, merged, today, now, uuid.values(mid));
        && (nc.None? ==> table == merged && closure == old(closure) && uuid.count == mid)
        && (nc.Some? ==>
             table == InsertClosure(merged, nc.value) && uuid.count == mid + 1 &&
             fresh(closure) && closure.Valid() && closure.closure.id == nc.value.id &&
             (FindClosure(merged, nc.value.id).None? ==> closure.closure == nc.value))
    {
      if closure == null || cashier.None? {
        return;
      }
      var data := closure;
      CloseAndStore(data, cashier.value.id, closingCash, description, now, uuid);
      ghost var merged, mid := table, uuid.count;
      CreateEmptyClosure(settings, storeIds, currencyIds, cashier, cashiers, today, now, uuid);
    }

    /** The closing part of `close_closure` for the open closure `data`:
        the record is stamped and merged into the table, then every summary
        is stored (see `StoreAllSummaries`). */
    method CloseAndStore(data: ClosureData, cashierId: Id, closingCash: Option<real>, description: Option<string>,
                         now: int, uuid: UuidSource)
      requires Valid() && data.Valid()
      modifies this`table, this`summaryRows, data, uuid
      ensures Valid() && data.Valid()
      ensures data.closure == Closed(old(data.closure), now, cashierId, closingCash, description)
      ensures table == MergeClosure(old(table), data.closure)
      ensures forall j :: 0 <= j < |ListKinds| ==>
        Stamped(old(data.lists)[ListKinds[j]], data.lists[ListKinds[j]], data.closure.id)
      ensures old(data.countrySpecific).Some? <==> data.countrySpecific.Some?
      ensures old(data.countrySpecific).Some? ==>
        Stamped([old(data.countrySpecific).value], [data.countrySpecific.value], data.closure.id)
      ensures summaryRows == StoredRows(old(summaryRows), old(data.lists), data.lists,
                                        old(data.countrySpecific), data.countrySpecific)
      ensures uuid.count == old(uuid.count) + UnstoredAll(old(data.lists), old(data.countrySpecific))
    {
      var c := Closed(data.closure, now, cashierId, closingCash, description);
      data.closure := c;
      WritesKeepKeysUnique(table, c);
      table := MergeClosure(table, c);
      StoreAllSummaries(data, uuid);
    }

    /** The summary part of `close_closure`: every list in order, then the
        country-specific row, each tied to the closure record `data.closure`. */
    method StoreAllSummaries(data: ClosureData, uuid: UuidSource)
      requires data.Valid()
      modifies this`summaryRows, data`lists, data`countrySpecific, uuid
      ensures data.Valid()
      ensures forall j :: 0 <= j < |ListKinds| ==>
        Stamped(old(data.lists)[ListKinds[j]], data.lists[ListKinds[j]], data.closure.id)
      ensures old(data.countrySpecific).Some? <==> data.countrySpecific.Some?
      ensures old(data.countrySpecific).Some? ==>
        Stamped([old(data.countrySpecific).value], [data.countrySpecific.value], data.closure.id)
      ensures summaryRows == StoredRows(old(summaryRows), old(data.lists), data.lists,
                                        old(data.countrySpecific), data.countrySpecific)
      ensures uuid.count == old(uuid.count) + UnstoredAll(old(data.lists), old(data.countrySpecific))
    {
      StoreLists(data, uuid);
      if data.countrySpecific.Some? {
        var s2 := StoreOne(data.countrySpecific.value, data.closure.id, uuid);
        data.countrySpecific := Some(s2);
      }
    }

    /** Every summary list of `data`, kind by kind in order. */
    method StoreLists(data: ClosureData, uuid: UuidSource)
      requires data.Valid()
      modifies this`summaryRows, data`lists, uuid
      ensures data.Valid()
      ensures forall j :: 0 <= j < |ListKinds| ==>
        Stamped(old(data.lists)[ListKinds[j]], data.lists[ListKinds[j]], data.closure.id)
      ensures summaryRows == PutLists(old(summaryRows), old(data.lists), data.lists, |ListKinds|)
      ensures uuid.count == old(uuid.count) + UnstoredLists(old(data.lists), |ListKinds|)
    {
      ghost var before, rows, count := data.lists, summaryRows, uuid.count;
      var closureId := data.closure.id;
      var i := 0;
      while i < |ListKinds|
        invariant 0 <= i <= |ListKinds|
        invariant data.Valid()
        invariant forall j :: 0 <= j < i ==> Stamped(before[ListKinds[j]], data.lists[ListKinds[j]], closureId)
        invariant forall j :: i <= j < |ListKinds| ==> data.lists[ListKinds[j]] == before[ListKinds[j]]
        invariant summaryRows == PutLists(rows, before, data.lists, i)
        invariant uuid.count == count + UnstoredLists(before, i)
      {
        ghost var lists0 := data.lists;
        var saved := StoreKind(data, i, uuid);
        ListsStep(rows, before, lists0, i, saved, closureId);
        i := i + 1;
      }
    }

    /** The list of kind `ListKinds[i]` stored, with the rows written. */
    method StoreKind(data: ClosureData, i: nat, uuid: UuidSource) returns (saved: seq<Summary>)
      requires data.Valid() && i < |ListKinds|
      modifies this`summaryRows, data`lists, uuid
      ensures var k := ListKinds[i];
        && data.lists == old(data.lists)[k := saved]
        && Stamped(old(data.lists)[k], saved, data.closure.id)
        && summaryRows == PutSummaries(old(summaryRows), old(data.lists)[k], saved)
        && uuid.count == old(uuid.count) + Unstored(old(data.lists)[k])
    {
      var kind := ListKinds[i];
      saved := StoreSummaries(data.lists[kind], data.closure.id, uuid);
      data.lists := data.lists[kind := saved];
    }

    /** Stores one summary list in order (see `StoreOne`). */
    method StoreSummaries(ss: seq<Summary>, closureId: Id, uuid: UuidSource) returns (r: seq<Summary>)
      modifies this`summaryRows, uuid
      ensures Stamped(ss, r, closureId)
      ensures summaryRows == PutSummaries(old(summaryRows), ss, r)
      ensures uuid.count == old(uuid.count) + Unstored(ss)
    {
      r := [];
      var i := 0;
      while i < |ss|
        invariant 0 <= i <= |ss| && |r| == i
        invariant Stamped(ss[..i], r, closureId)
        invariant summaryRows == PutSummaries(old(summaryRows), ss[..i], r)
        invariant uuid.count == old(uuid.count) + Unstored(ss[..i])
      {
        var s := StoreOne(ss[i], closureId, uuid);
        PutSummariesSnoc(old(summaryRows), ss[..i], r, ss[i], s);
        StampedSnoc(ss[..i], r, ss[i], s, closureId);
        UnstoredStep(ss, i);
        r := r + [s];
        i := i + 1;
      }
      assert ss[..i] == ss;
    }

    /** Stores one summary: one without an id is tied to the closure, given
        a fresh id and inserted; one with an id is merged as it is. */
    method StoreOne(s: Summary, closureId: Id, uuid: UuidSource) returns (t: Summary)
      modifies this`summaryRows, uuid
      ensures Stamped([s], [t], closureId)
      ensures s.id.None? ==>
        t == s.(closureId := Some(closureId), id := Some(uuid.values(old(uuid.count)))) &&
        uuid.count == old(uuid.count) + 1
      ensures s.id.Some? ==> uuid.count == old(uuid.count)
      ensures summaryRows == PutSummary(old(summaryRows), s.id.None?, t)
    {
      if s.id.None? {
        var id := uuid.Next();
        t := s.(closureId := Some(closureId), id := Some(id));
      } else {
        t := s;
      }
      summaryRows := PutSummary(summaryRows, s.id.None?, t);
    }
  }

  function FirstOf(ss: seq<Summary>): (r: Option<Summary>)
    ensures |ss| > 0 ==> r == Some(ss[0])
    ensures |ss| == 0 ==> r.None?
  {
    if |ss| > 0 then Some(ss[0]) else None
  }

  /** The record after closing: end time and closing cashier set; with a
      counted amount, the closing cash and its difference to the expected
      cash; with a non-empty description, that description. */
  function Closed(c: ClosureRecord, now: int, cashierId: Id, closingCash: Option<real>, description: Option<string>): (r: ClosureRecord)
    ensures r.endTime == Some(now) && r.cashierClosedId == cashierId
    ensures closingCash.Some? ==> r.closingCash == closingCash.value && r.cashDifference == closingCash.value - c.expectedCash
    ensures closingCash.None? ==> r.closingCash == c.closingCash && r.cashDifference == c.cashDifference
    ensures description.Some? && description.value != "" ==> r.description == description
    ensures (description.None? || description.value == "") ==> r.description == c.description
    ensures r.(endTime := c.endTime, cashierClosedId := c.cashierClosedId, closingCash := c.closingCash,
               cashDifference := c.cashDifference, description := c.description) == c
  {
    var c1 := c.(endTime := Some(now), cashierClosedId := cashierId);
    var c2 := if closingCash.Some? then c1.(closingCash := closingCash.value, cashDifference := closingCash.value - c1.expectedCash) else c1;
    if description.Some? && description.value != "" then c2.(description := description) else c2
  }
}
