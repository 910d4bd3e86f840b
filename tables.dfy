/** The in-memory shape of every database table the accounts and boards views
    touch: a sequence of rows, each with its primary key, the user it belongs
    to (its `user` or `author` foreign key) and its other columns. The ORM
    calls the views make are stated here once: `filter(...)`,
    `get(pk=..., user=...)` and `delete()`. */
module Tables {
  import opened Wrappers

  type UserId = nat

  /** `request.user`: an anonymous user (whose `pk` is None) or a signed-in one. */
  datatype Viewer = Anonymous | Authenticated(id: UserId)

  /** A table row: primary key, owning user, remaining columns. */
  datatype Row<T> = Row(id: nat, owner: UserId, data: T)

  /** The HTTP statuses the views answer with. */
  datatype Status = Ok200 | Created201 | NoContent204 | BadRequest400 | NotFound404

  /** Primary keys are pairwise distinct. */
  ghost predicate DistinctIds<T>(rows: seq<Row<T>>)
  {
    forall i, j :: 0 <= i < j < |rows| ==> rows[i].id != rows[j].id
  }

  /** Every primary key is below the next key the table will hand out. */
  ghost predicate IdsBelow<T>(rows: seq<Row<T>>, next: nat)
  {
    forall i :: 0 <= i < |rows| ==> rows[i].id < next
  }

  /** `objects.filter(...)`: the rows that satisfy `keep`, in table order. */
  function Filter<T(!new)>(rows: seq<T>, keep: T -> bool): (r: seq<T>)
    ensures |r| <= |rows|
    ensures forall x :: x in r <==> x in rows && keep(x)
  {
    if rows == [] then []
    else
      assert rows == [rows[0]] + rows[1..];
      if keep(rows[0]) then [rows[0]] + Filter(rows[1..], keep)
      else Filter(rows[1..], keep)
  }

  /** Filtering a concatenation filters each part. */
  lemma {:induction false} FilterAppend<T(!new)>(a: seq<T>, b: seq<T>, keep: T -> bool)
    ensures Filter(a + b, keep) == Filter(a, keep) + Filter(b, keep)
  {
    if a == [] {
      assert a + b == b;
    } else {
      assert (a + b)[0] == a[0];
      assert (a + b)[1..] == a[1..] + b;
      FilterAppend(a[1..], b, keep);
    }
  }

  /** `filter(user=u)` / `filter(author=u)`: the rows that belong to `u`. */
  function OwnedBy<T(!new)>(rows: seq<Row<T>>, u: UserId): (r: seq<Row<T>>)
    ensures |r| <= |rows|
    ensures forall x :: x in r <==> x in rows && x.owner == u
  {
    Filter(rows, (x: Row<T>) => x.owner == u)
  }

  /** Rows of other users never appear in `u`'s slice, wherever they are added. */
  lemma OwnedByAppend<T(!new)>(a: seq<Row<T>>, b: seq<Row<T>>, u: UserId)
    ensures OwnedBy(a + b, u) == OwnedBy(a, u) + OwnedBy(b, u)
  {
    FilterAppend(a, b, (x: Row<T>) => x.owner == u);
  }

  /** The position of the first row satisfying `p`, or None when no row does. */
  function IndexWhere<T>(rows: seq<T>, p: T -> bool): (r: Option<nat>)
    ensures r.Some? ==> r.value < |rows| && p(rows[r.value])
    ensures r.Some? ==> forall k :: 0 <= k < r.value ==> !p(rows[k])
    ensures r.None? ==> forall k :: 0 <= k < |rows| ==> !p(rows[k])
  {
    if rows == [] then None
    else if p(rows[0]) then Some(0)
    else match IndexWhere(rows[1..], p)
      case None => None
      case Some(i) => Some(i + 1)
  }

  /** `objects.get(pk=pk)`: where the row with that primary key is. */
  function FindById<T(!new)>(rows: seq<Row<T>>, pk: nat): (r: Option<nat>)
    ensures r.Some? ==> r.value < |rows| && rows[r.value].id == pk
    ensures r.None? <==> forall x :: x in rows ==> x.id != pk
  {
    IndexWhere(rows, (x: Row<T>) => x.id == pk)
  }

  /** `objects.get(pk=pk, user=u)`: where the row with that key AND that owner is;
      None (the view's 404) when the key is missing or belongs to someone else. */
  function FindOwned<T(!new)>(rows: seq<Row<T>>, pk: nat, u: UserId): (r: Option<nat>)
    ensures r.Some? ==> r.value < |rows| && rows[r.value].id == pk && rows[r.value].owner == u
    ensures r.None? <==> forall x :: x in rows ==> !(x.id == pk && x.owner == u)
  {
    IndexWhere(rows, (x: Row<T>) => x.id == pk && x.owner == u)
  }

  /** With distinct keys, a row found by key and owner is the row with that key. */
  lemma FindOwnedIsFindById<T(!new)>(rows: seq<Row<T>>, pk: nat, u: UserId)
    requires DistinctIds(rows)
    ensures FindOwned(rows, pk, u).Some? <==>
              FindById(rows, pk).Some? && rows[FindById(rows, pk).value].owner == u
    ensures FindOwned(rows, pk, u).Some? ==> FindOwned(rows, pk, u) == FindById(rows, pk)
  {
    var o, b := FindOwned(rows, pk, u), FindById(rows, pk);
    if o.Some? {
      assert rows[o.value] in rows;
    } else if b.Some? {
      assert rows[b.value] in rows;
    }
  }

  /** The table after `delete()` of the row at position `i`. */
  function RemoveAt<T>(rows: seq<Row<T>>, i: nat): (r: seq<Row<T>>)
    requires i < |rows|
    ensures |r| == |rows| - 1
    ensures forall k :: 0 <= k < i ==> r[k] == rows[k]
    ensures forall k :: i <= k < |r| ==> r[k] == rows[k + 1]
  {
    rows[..i] + rows[i + 1..]
  }

  /** Deleting one row removes exactly that row: every other row, whoever owns
      it, is still there, and the deleted key is gone. */
  lemma RemoveAtExactly<T(!new)>(rows: seq<Row<T>>, i: nat)
    requires DistinctIds(rows) && i < |rows|
    ensures forall x :: x in RemoveAt(rows, i) <==> x in rows && x.id != rows[i].id
    ensures DistinctIds(RemoveAt(rows, i))
  {
  }

  /** Appending a row under a fresh key keeps keys distinct and below the next key. */
  lemma AppendFresh<T>(rows: seq<Row<T>>, next: nat, row: Row<T>)
    requires DistinctIds(rows) && IdsBelow(rows, next) && row.id == next
    ensures DistinctIds(rows + [row]) && IdsBelow(rows + [row], next + 1)
  {
  }

  /** Changing the other columns of one row keeps its key. */
  lemma ReplaceKeepsIds<T>(rows: seq<Row<T>>, next: nat, i: nat, d: T)
    requires DistinctIds(rows) && IdsBelow(rows, next) && i < |rows|
    ensures DistinctIds(rows[i := rows[i].(data := d)])
    ensures IdsBelow(rows[i := rows[i].(data := d)], next)
  {
  }
}
