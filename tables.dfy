/**
 * Table-level operations shared by the document and cache managers: a
 * filtered read (`filter_by`), an upsert by id (`session.merge`), copying
 * rows under fresh ids, and the temp→permanent id maps built by the copy.
 */
module Tables {
  import opened Wrappers
  import opened Documents

  /** The rows that satisfy `keep`, in table order (`filter_by`). */
  function Select<T>(rows: seq<T>, keep: T -> bool): (r: seq<T>)
    ensures |r| <= |rows|
    ensures forall x :: x in r ==> x in rows && keep(x)
    ensures forall x :: x in rows && keep(x) ==> x in r
  {
    if |rows| == 0 then []
    else if keep(rows[0]) then [rows[0]] + Select(rows[1..], keep)
    else Select(rows[1..], keep)
  }

  /** The index of the first row that satisfies `keep` (`find_first`). */
  function FindFirst<T>(rows: seq<T>, keep: T -> bool): (r: Option<nat>)
    ensures r.Some? ==> (r.value < |rows| && keep(rows[r.value]) &&
      forall k :: 0 <= k < r.value ==> !keep(rows[k]))
    ensures r.None? ==> forall k :: 0 <= k < |rows| ==> !keep(rows[k])
  {
    if |rows| == 0 then None
    else if keep(rows[0]) then Some(0)
    else match FindFirst(rows[1..], keep)
      case None => None
      case Some(k) => Some(k + 1)
  }

  /** `session.merge(row)`: the first row with the same id is replaced;
      when there is none the row is appended. */
  function Upsert<T>(rows: seq<T>, row: T, idOf: T -> Id): (r: seq<T>)
    ensures FindFirst(rows, x => idOf(x) == idOf(row)).Some? ==>
      var k := FindFirst(rows, x => idOf(x) == idOf(row)).value;
      r == rows[k := row]
    ensures FindFirst(rows, x => idOf(x) == idOf(row)).None? ==> r == rows + [row]
  {
    match FindFirst(rows, x => idOf(x) == idOf(row))
    case None => rows + [row]
    case Some(k) => rows[k := row]
  }

  /** After an upsert the row is stored and is the first with its id. */
  lemma UpsertStores<T>(rows: seq<T>, row: T, idOf: T -> Id)
    ensures var r := Upsert(rows, row, idOf);
      var f := FindFirst(r, x => idOf(x) == idOf(row));
      f.Some? && r[f.value] == row
    ensures |Upsert(rows, row, idOf)| <= |rows| + 1
  {
    var keep := x => idOf(x) == idOf(row);
    var r := Upsert(rows, row, idOf);
    match FindFirst(rows, keep)
    case None =>
      assert keep(r[|rows|]);
      var f := FindFirst(r, keep);
      assert f.Some?;
    case Some(k) =>
      var f := FindFirst(r, keep);
      assert keep(r[k]);
      assert f.Some? && f.value <= k;
  }

  /** `copies` are `rows` copied under fresh ids: the k-th copy is
      `move(rows[k], ids(start + k))`. */
  ghost predicate Relocated<T>(copies: seq<T>, rows: seq<T>, move: (T, Id) -> T, ids: nat -> Id, start: nat)
  {
    |copies| == |rows| && forall k :: 0 <= k < |rows| ==> copies[k] == move(rows[k], ids(start + k))
  }

  /** A copy is determined by the rows, the move and the ids drawn. */
  lemma RelocatedUnique<T>(a: seq<T>, b: seq<T>, rows: seq<T>, move: (T, Id) -> T, ids: nat -> Id, start: nat)
    requires Relocated(a, rows, move, ids, start) && Relocated(b, rows, move, ids, start)
    ensures a == b
  {
    assert forall k :: 0 <= k < |a| ==> a[k] == b[k];
  }

  /** Copying one more row extends the copy by that row's copy. */
  lemma RelocatedSnoc<T>(copies: seq<T>, rows: seq<T>, move: (T, Id) -> T, ids: nat -> Id, start: nat, i: nat)
    requires i < |rows| && Relocated(copies, rows[..i], move, ids, start)
    ensures Relocated(copies + [move(rows[i], ids(start + i))], rows[..i + 1], move, ids, start)
  {
    var c := copies + [move(rows[i], ids(start + i))];
    forall k | 0 <= k < i + 1
      ensures c[k] == move(rows[..i + 1][k], ids(start + k))
    {
      if k < i {
        assert rows[..i][k] == rows[..i + 1][k];
      }
    }
  }

  /** Dropping the last row drops the last copy. */
  lemma RelocatedInit<T>(copies: seq<T>, rows: seq<T>, move: (T, Id) -> T, ids: nat -> Id, start: nat)
    requires |rows| > 0 && Relocated(copies, rows, move, ids, start)
    ensures Relocated(copies[..|rows| - 1], rows[..|rows| - 1], move, ids, start)
    ensures copies[|rows| - 1] == move(rows[|rows| - 1], ids(start + |rows| - 1))
  {
    var n := |rows| - 1;
    forall k | 0 <= k < n
      ensures copies[..n][k] == move(rows[..n][k], ids(start + k))
    {
      assert copies[..n][k] == copies[k] && rows[..n][k] == rows[k];
    }
  }

  /** The temp→permanent id map filled while copying: each temporary id
      maps to the id drawn for its copy; a later row wins on a repeated id. */
  function IdMap<T>(rows: seq<T>, idOf: T -> Id, ids: nat -> Id, start: nat): map<Id, Id>
  {
    if |rows| == 0 then map[]
    else IdMap(rows[..|rows| - 1], idOf, ids, start)[idOf(rows[|rows| - 1]) := ids(start + |rows| - 1)]
  }

  /** The map's keys are exactly the temporary ids. */
  lemma {:induction false} IdMapKeys<T>(rows: seq<T>, idOf: T -> Id, ids: nat -> Id, start: nat)
    ensures forall t :: t in IdMap(rows, idOf, ids, start) <==> exists k :: 0 <= k < |rows| && idOf(rows[k]) == t
  {
    if |rows| > 0 {
      var n := |rows| - 1;
      IdMapKeys(rows[..n], idOf, ids, start);
      forall t | exists k :: 0 <= k < |rows| && idOf(rows[k]) == t
        ensures t in IdMap(rows, idOf, ids, start)
      {
        var k :| 0 <= k < |rows| && idOf(rows[k]) == t;
        if k < n {
          assert idOf(rows[..n][k]) == t;
        }
      }
    }
  }

  /** With distinct temporary ids, a reference to the k-th row is
      translated to the id of the k-th copy. */
  lemma {:induction false} IdMapPoints<T>(rows: seq<T>, idOf: T -> Id, ids: nat -> Id, start: nat, k: nat)
    requires k < |rows|
    requires forall i, j :: 0 <= i < j < |rows| ==> idOf(rows[i]) != idOf(rows[j])
    ensures idOf(rows[k]) in IdMap(rows, idOf, ids, start)
    ensures IdMap(rows, idOf, ids, start)[idOf(rows[k])] == ids(start + k)
  {
    var n := |rows| - 1;
    if k < n {
      assert forall i, j :: 0 <= i < j < |rows[..n]| ==> idOf(rows[..n][i]) != idOf(rows[..n][j]) by {
        forall i, j | 0 <= i < j < |rows[..n]|
          ensures idOf(rows[..n][i]) != idOf(rows[..n][j])
        {
          assert rows[..n][i] == rows[i] && rows[..n][j] == rows[j];
        }
      }
      IdMapPoints(rows[..n], idOf, ids, start, k);
      assert rows[..n][k] == rows[k];
      assert idOf(rows[k]) != idOf(rows[n]);
    }
  }

  /** `id_map.get(ref)` for a set reference; an unset one stays unset. */
  function MapRef(ref: Option<Id>, m: map<Id, Id>): (r: Option<Id>)
    ensures ref.None? ==> r.None?
    ensures ref.Some? && ref.value in m ==> r == Some(m[ref.value])
    ensures ref.Some? && ref.value !in m ==> r.None?
  {
    if ref.Some? && ref.value in m then Some(m[ref.value]) else None
  }
}
