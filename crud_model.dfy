/**
 * The create/read/update/delete base every table model inherits: saving
 * (insert or update by id) and creating (insert only), both giving a new
 * record a fresh id; reading all rows with the soft-delete filter; paging;
 * building a record from a dictionary; and soft or hard deletion.  A table
 * is a sequence of rows; a failing database session is a flag.
 */
module CrudModel {
  import opened Wrappers
  import opened Documents
  import Tables

  /** A stored row.  `isDeleted` is meaningful only for tables that have
      the column. */
  datatype Row = Row(id: Id, isDeleted: bool, fields: map<string, string>)

  function RowId(r: Row): Id
  {
    r.id
  }

  /** A database table. */
  class Table {
    var rows: seq<Row>
    /** Whether the model has an `is_deleted` column. */
    const hasDeletedColumn: bool
    /** Whether the session raises a database error. */
    var failing: bool

    constructor (hasColumn: bool)
      ensures rows == [] && hasDeletedColumn == hasColumn && !failing
    {
      rows := [];
      hasDeletedColumn := hasColumn;
      failing := false;
    }
  }

  /** Whether some row has id `id`. */
  predicate HasId(rows: seq<Row>, id: Id)
  {
    exists k :: 0 <= k < |rows| && rows[k].id == id
  }

  /** The rows without id `id`: what a hard delete leaves. */
  function Without(rows: seq<Row>, id: Id): (r: seq<Row>)
    ensures forall x :: x in r ==> x.id != id
    ensures forall x :: x in rows && x.id != id <==> x in r
  {
    Tables.Select(rows, (x: Row) => x.id != id)
  }

  /** A model object in memory; `id` is `None` until it is given one. */
  class Record {
    var id: Option<Id>
    var isDeleted: bool
    var fields: map<string, string>

    constructor (fs: map<string, string>)
      ensures id.None? && !isDeleted && fields == fs
    {
      id := None;
      isDeleted := false;
      fields := fs;
    }

    function AsRow(): (r: Row)
      reads this
      requires id.Some?
      ensures r.id == id.value && r.isDeleted == isDeleted && r.fields == fields
    {
      Row(id.value, isDeleted, fields)
    }
  }

  /** `save`: a record without an id gets a fresh one; then the row is
      merged (replacing the row with that id, or appended).  A database
      error leaves the table as it was and returns false. */
  method Save(rec: Record, table: Table, uuid: UuidSource) returns (ok: bool)
    modifies rec`id, table`rows, uuid
    ensures old(rec.id).Some? ==> rec.id == old(rec.id) && uuid.count == old(uuid.count)
    ensures old(rec.id).None? ==> rec.id == Some(uuid.values(old(uuid.count))) && uuid.count == old(uuid.count) + 1
    ensures ok == !table.failing
    ensures ok ==> table.rows == Tables.Upsert(old(table.rows), rec.AsRow(), RowId)
    ensures !ok ==> table.rows == old(table.rows)
  {
    if rec.id.None? {
      var newId := uuid.Next();
      rec.id := Some(newId);
    }
    if table.failing {
      return false;
    }
    table.rows := Tables.Upsert(table.rows, rec.AsRow(), RowId);
    ok := true;
  }

  /** A saved record is in the table under its id. */
  lemma SavedIsStored(rows: seq<Row>, row: Row)
    ensures var r := Tables.Upsert(rows, row, RowId);
      exists k :: 0 <= k < |r| && r[k] == row
  {
    Tables.UpsertStores(rows, row, RowId);
  }

  /** Saving twice stores no second row: the table keeps its length. */
  lemma SaveTwiceKeepsLength(rows: seq<Row>, row: Row)
    ensures |Tables.Upsert(Tables.Upsert(rows, row, RowId), row, RowId)| == |Tables.Upsert(rows, row, RowId)|
  {
    Tables.UpsertStores(rows, row, RowId);
  }

  /** `create`: like `save`, but an insert: an id already in the table is
      a database error, and the table is left as it was. */
  method Create(rec: Record, table: Table, uuid: UuidSource) returns (ok: bool)
    modifies rec`id, table`rows, uuid
    ensures old(rec.id).Some? ==> rec.id == old(rec.id) && uuid.count == old(uuid.count)
    ensures old(rec.id).None? ==> rec.id == Some(uuid.values(old(uuid.count))) && uuid.count == old(uuid.count) + 1
    ensures ok <==> !table.failing && !HasId(old(table.rows), rec.id.value)
    ensures ok ==> table.rows == old(table.rows) + [rec.AsRow()]
    ensures !ok ==> table.rows == old(table.rows)
  {
    if rec.id.None? {
      var newId := uuid.Next();
      rec.id := Some(newId);
    }
    if table.failing || HasId(table.rows, rec.id.value) {
      return false;
    }
    table.rows := table.rows + [rec.AsRow()];
    ok := true;
  }

  /** `get_all(is_deleted)`: rows with that flag when the column exists,
      every row otherwise; nothing on a database error. */
  function GetAll(rows: seq<Row>, hasDeletedColumn: bool, failing: bool, isDeleted: bool): (r: seq<Row>)
    ensures failing ==> r == []
    ensures !failing && !hasDeletedColumn ==> r == rows
    ensures !failing && hasDeletedColumn ==> forall x :: x in r <==> x in rows && x.isDeleted == isDeleted
  {
    if failing then []
    else if hasDeletedColumn then Tables.Select(rows, (x: Row) => x.isDeleted == isDeleted)
    else rows
  }

  /** Reading the live rows and the deleted rows splits the table. */
  lemma GetAllPartitions(rows: seq<Row>, x: Row)
    requires x in rows
    ensures x in GetAll(rows, true, false, false) || x in GetAll(rows, true, false, true)
    ensures !(x in GetAll(rows, true, false, false) && x in GetAll(rows, true, false, true))
  {
  }

  /** A dictionary argument; `from_dict` removes its "id" in place. */
  class Dict {
    var entries: map<string, string>

    constructor (es: map<string, string>)
      ensures entries == es
    {
      entries := es;
    }
  }

  /** `from_dict`: drops "id" from the caller's dictionary and builds a
      record from the rest, which has no id yet. */
  method FromDict(data: Dict) returns (rec: Record)
    modifies data
    ensures data.entries == old(data.entries) - {"id"}
    ensures fresh(rec) && rec.id.None? && rec.fields == data.entries && "id" !in rec.fields
  {
    if "id" in data.entries {
      data.entries := data.entries - {"id"};
    }
    rec := new Record(data.entries);
  }

  /** `delete(soft_delete)`: a soft delete of a model with the column marks
      the record deleted and merges it; otherwise the row is removed.
      Removing a record that was never stored is a database error. */
  method Delete(rec: Record, table: Table, softDelete: bool) returns (ok: bool)
    requires rec.id.Some?
    modifies rec`isDeleted, table`rows
    ensures softDelete && table.hasDeletedColumn ==>
      rec.isDeleted && ok == !table.failing &&
      table.rows == (if ok then Tables.Upsert(old(table.rows), rec.AsRow(), RowId) else old(table.rows))
    ensures !(softDelete && table.hasDeletedColumn) ==>
      rec.isDeleted == old(rec.isDeleted) &&
      (ok <==> !table.failing && HasId(old(table.rows), rec.id.value)) &&
      table.rows == (if ok then Without(old(table.rows), rec.id.value) else old(table.rows))
  {
    if softDelete && table.hasDeletedColumn {
      rec.isDeleted := true;
      if table.failing {
        return false;
      }
      table.rows := Tables.Upsert(table.rows, rec.AsRow(), RowId);
      return true;
    }
    if table.failing || !HasId(table.rows, rec.id.value) {
      return false;
    }
    table.rows := Without(table.rows, rec.id.value);
    ok := true;
  }

  // ------------------------------------------------------------ paging

  /** The result of `paginate`. */
  datatype Page = Page(items: seq<Row>, total: int, page: int, perPage: int, pages: int)

  /** The rows after skipping `offset`; SQLite reads a negative offset as 0. */
  function Skip(rows: seq<Row>, offset: int): (r: seq<Row>)
    ensures offset <= 0 ==> r == rows
    ensures 0 <= offset <= |rows| ==> r == rows[offset..]
    ensures offset > |rows| ==> r == []
  {
    if offset <= 0 then rows else if offset <= |rows| then rows[offset..] else []
  }

  /** At most `n` rows from the front; SQLite reads a negative limit as
      no limit at all. */
  function Limit(rows: seq<Row>, n: int): (r: seq<Row>)
    ensures n < 0 ==> r == rows
    ensures n >= 0 ==> |r| <= n && r <= rows
    ensures n >= 0 && |rows| >= n ==> |r| == n
    ensures n >= 0 && |rows| < n ==> r == rows
  {
    if n < 0 || |rows| <= n then rows else rows[..n]
  }

  /** Python's `//`: the quotient rounded towards minus infinity. */
  function FloorDiv(a: int, b: int): (q: int)
    requires b != 0
    ensures b > 0 ==> q * b <= a < q * b + b
    ensures b < 0 ==> q * b + b < a <= q * b
  {
    if b > 0 then a / b else (-a) / (-b)
  }

  /** Why `paginate` raises instead of returning a page. */
  datatype PageError = ZeroDivision

  /** `paginate(page, per_page)` over the rows already filtered: the rows
      from `(page - 1) * per_page`, at most `per_page` of them, the total,
      and the page count rounded up.  A database error gives an empty page
      with total and page count 0; a page size of 0, once the query has
      run, raises the division error, which the handler does not catch. */
  function Paginate(rows: seq<Row>, page: int, perPage: int, failing: bool): (r: Result<Page, PageError>)
    ensures r.Failure? <==> !failing && perPage == 0
    ensures r.Success? ==> r.value.page == page && r.value.perPage == perPage
    ensures r.Success? && failing ==> r.value.items == [] && r.value.total == 0 && r.value.pages == 0
    ensures r.Success? && !failing ==>
      r.value.total == |rows| && r.value.pages == FloorDiv(|rows| + perPage - 1, perPage)
    ensures r.Success? && !failing ==> r.value.items == Limit(Skip(rows, (page - 1) * perPage), perPage)
    ensures r.Success? && perPage > 0 ==> |r.value.items| <= perPage
    ensures r.Success? && !failing && perPage < 0 && page >= 1 ==> r.value.items == rows
  {
    if failing then Success(Page([], 0, page, perPage, 0))
    else if perPage == 0 then Failure(ZeroDivision)
    else
      Success(Page(Limit(Skip(rows, (page - 1) * perPage), perPage), |rows|, page, perPage,
                   FloorDiv(|rows| + perPage - 1, perPage)))
  }

  /** The page count is the total divided by the page size, rounded up:
      the pages hold every row, and the last page is not empty. */
  lemma PagesIsCeiling(total: nat, perPage: int)
    requires perPage > 0
    ensures var pages := (total + perPage - 1) / perPage;
      pages * perPage >= total && (pages == 0 || (pages - 1) * perPage < total)
    ensures (total + perPage - 1) / perPage == 0 <==> total == 0
  {
    var pages := (total + perPage - 1) / perPage;
    var rem := (total + perPage - 1) % perPage;
    assert total + perPage - 1 == pages * perPage + rem;
  }

  /** Row `k` lies `k % per_page` rows after the offset of page
      `k / per_page + 1`. */
  lemma PageOffset(perPage: int, k: nat)
    requires perPage > 0
    ensures (k / perPage + 1 - 1) * perPage + k % perPage == k
    ensures 0 <= k % perPage < perPage
  {
  }

  /** Row `k` is on page `k / per_page + 1`, at position `k % per_page`,
      and that page is one of the counted pages. */
  lemma RowOnPage(rows: seq<Row>, perPage: int, k: int)
    requires perPage > 0 && 0 <= k < |rows|
    ensures var p := Paginate(rows, k / perPage + 1, perPage, false).value;
      k % perPage < |p.items| && p.items[k % perPage] == rows[k] && k / perPage + 1 <= p.pages
  {
    var page := k / perPage + 1;
    var offset := (page - 1) * perPage;
    var pos := k % perPage;
    PageOffset(perPage, k);
    assert offset + pos == k;
    var skipped := Skip(rows, offset);
    assert skipped == rows[offset..];
    assert skipped[pos] == rows[k];
    assert pos < |Limit(skipped, perPage)|;
    PageCounted(|rows|, perPage, k);
  }

  /** The page of row `k` is at most the page count. */
  lemma PageCounted(n: nat, perPage: int, k: nat)
    requires perPage > 0 && k < n
    ensures k / perPage + 1 <= (n + perPage - 1) / perPage
  {
    var q := k / perPage + 1;
    assert q * perPage == k / perPage * perPage + perPage;
    assert k / perPage * perPage <= k;
    assert q * perPage <= n + perPage - 1;
    QuotientBound(q, n + perPage - 1, perPage);
  }

  /** `q * p <= m` gives `q <= m / p`. */
  lemma QuotientBound(q: int, m: int, p: int)
    requires p > 0 && q * p <= m
    ensures q <= m / p
  {
    assert m == m / p * p + m % p;
    if q > m / p {
      MulMonotone(m / p + 1, q, p);
    }
  }

  lemma MulMonotone(a: int, b: int, c: int)
    requires 0 <= a <= b && c > 0
    ensures a * c <= b * c
  {
  }

  /** A page past the last one is empty. */
  lemma PastLastPageEmpty(rows: seq<Row>, page: int, perPage: int)
    requires perPage > 0
    requires page > (|rows| + perPage - 1) / perPage
    ensures Paginate(rows, page, perPage, false).value.items == []
  {
    PagesIsCeiling(|rows|, perPage);
    var pages := (|rows| + perPage - 1) / perPage;
    MulMonotone(pages, page - 1, perPage);
  }
}
