/** Tables of rows with an auto-increment primary key.

    Every model of the repository declares `ordering = ['-id']`, so a table is
    kept here as a sequence of rows NEWEST FIRST: ids strictly decrease along
    the sequence. A new row is prepended with an id larger than every id in use,
    and a delete keeps the remaining rows in their order. */
module Rows {

  type Id = nat

  /** One row: its primary key and the values of its other columns. */
  datatype Row<T> = Row(id: Id, val: T)

  /** The order `ordering = ['-id']` yields: ids strictly decrease. */
  ghost predicate Descending<T>(t: seq<Row<T>>)
  {
    forall i, j | 0 <= i < j < |t| :: t[i].id > t[j].id
  }

  /** Every id in use is below the id the store hands out next. */
  ghost predicate Below<T>(t: seq<Row<T>>, next: Id)
  {
    forall r | r in t :: r.id < next
  }

  /** No two rows agree on `key`: a `unique=True` field or a `UniqueConstraint`. */
  ghost predicate Unique<T, K>(t: seq<Row<T>>, key: T -> K)
  {
    forall i, j | 0 <= i < j < |t| :: key(t[i].val) != key(t[j].val)
  }

  function Ids<T(==)>(t: seq<Row<T>>): set<Id>
  {
    set r | r in t :: r.id
  }

  /** Some row already holds `k` under `key`. */
  predicate Taken<T(==), K(==)>(t: seq<Row<T>>, key: T -> K, k: K)
  {
    exists r | r in t :: key(r.val) == k
  }

  /** Some row holds exactly the values `v`. */
  predicate Present<T(==)>(t: seq<Row<T>>, v: T)
  {
    exists r | r in t :: r.val == v
  }

  function RowId<T>(r: Row<T>): Id
  {
    r.id
  }

  /** `DELETE ... WHERE key IN gone`: the rows whose `key` is not in `gone`,
      in their original order. */
  function Drop<T(==)>(t: seq<Row<T>>, key: Row<T> -> Id, gone: set<Id>): (r: seq<Row<T>>)
    ensures forall x | x in r :: x in t && key(x) !in gone
    ensures forall x | x in t && key(x) !in gone :: x in r
    ensures |r| <= |t|
  {
    if t == [] then []
    else if key(t[0]) in gone then Drop(t[1..], key, gone)
    else [t[0]] + Drop(t[1..], key, gone)
  }

  lemma DescendingCons<T>(a: Row<T>, t: seq<Row<T>>)
    ensures Descending([a] + t) <==> Descending(t) && forall x | x in t :: x.id < a.id
  {
    var s := [a] + t;
    if Descending(t) && forall x | x in t :: x.id < a.id {
      forall i, j | 0 <= i < j < |s| ensures s[i].id > s[j].id {
        if i == 0 {
          assert s[j] in t;
        } else {
          assert s[i] == t[i - 1] && s[j] == t[j - 1];
        }
      }
    }
    if Descending(s) {
      forall x | x in t ensures x.id < a.id {
        var k :| 0 <= k < |t| && t[k] == x;
        assert s[0] == a && s[k + 1] == x;
      }
      forall i, j | 0 <= i < j < |t| ensures t[i].id > t[j].id {
        assert s[i + 1] == t[i] && s[j + 1] == t[j];
      }
    }
  }

  lemma UniqueCons<T, K>(a: Row<T>, t: seq<Row<T>>, key: T -> K)
    ensures Unique([a] + t, key) <==> Unique(t, key) && forall x | x in t :: key(x.val) != key(a.val)
  {
    var s := [a] + t;
    if Unique(t, key) && forall x | x in t :: key(x.val) != key(a.val) {
      forall i, j | 0 <= i < j < |s| ensures key(s[i].val) != key(s[j].val) {
        if i == 0 {
          assert s[j] in t;
        } else {
          assert s[i] == t[i - 1] && s[j] == t[j - 1];
        }
      }
    }
    if Unique(s, key) {
      forall x | x in t ensures key(x.val) != key(a.val) {
        var k :| 0 <= k < |t| && t[k] == x;
        assert s[0] == a && s[k + 1] == x;
      }
      forall i, j | 0 <= i < j < |t| ensures key(t[i].val) != key(t[j].val) {
        assert s[i + 1] == t[i] && s[j + 1] == t[j];
      }
    }
  }

  /** A new row with a fresh, larger id keeps the table newest first. */
  lemma InsertKeepsDescending<T>(t: seq<Row<T>>, id: Id, v: T)
    requires Descending(t) && Below(t, id)
    ensures Descending([Row(id, v)] + t)
  {
    DescendingCons(Row(id, v), t);
  }

  /** A new row keeps a uniqueness constraint exactly when its key is free. */
  lemma InsertKeepsUnique<T, K>(t: seq<Row<T>>, id: Id, v: T, key: T -> K)
    requires Unique(t, key)
    ensures Unique([Row(id, v)] + t, key) <==> !Taken(t, key, key(v))
  {
    UniqueCons(Row(id, v), t, key);
  }

  lemma {:induction false} DropKeepsDescending<T>(t: seq<Row<T>>, key: Row<T> -> Id, gone: set<Id>)
    requires Descending(t)
    ensures Descending(Drop(t, key, gone))
  {
    if t != [] {
      assert t == [t[0]] + t[1..];
      DescendingCons(t[0], t[1..]);
      DropKeepsDescending(t[1..], key, gone);
      if key(t[0]) !in gone {
        DescendingCons(t[0], Drop(t[1..], key, gone));
      }
    }
  }

  lemma {:induction false} DropKeepsUnique<T, K>(t: seq<Row<T>>, key: Row<T> -> Id, gone: set<Id>, unique: T -> K)
    requires Unique(t, unique)
    ensures Unique(Drop(t, key, gone), unique)
  {
    if t != [] {
      assert t == [t[0]] + t[1..];
      UniqueCons(t[0], t[1..], unique);
      DropKeepsUnique(t[1..], key, gone, unique);
      if key(t[0]) !in gone {
        UniqueCons(t[0], Drop(t[1..], key, gone), unique);
      }
    }
  }

  /** In a newest-first table an id names at most one row. */
  lemma SameIdSameRow<T>(t: seq<Row<T>>, x: Row<T>, y: Row<T>)
    requires Descending(t) && x in t && y in t && x.id == y.id
    ensures x == y
  {
    var i :| 0 <= i < |t| && t[i] == x;
    var j :| 0 <= j < |t| && t[j] == y;
    assert !(i < j) && !(j < i);
  }

  /** Under a uniqueness constraint a key names at most one row. */
  lemma SameKeySameRow<T, K>(t: seq<Row<T>>, key: T -> K, x: Row<T>, y: Row<T>)
    requires Unique(t, key) && x in t && y in t && key(x.val) == key(y.val)
    ensures x == y
  {
    var i :| 0 <= i < |t| && t[i] == x;
    var j :| 0 <= j < |t| && t[j] == y;
    assert !(i < j) && !(j < i);
  }

  /** Deleting by primary key removes exactly those ids. */
  lemma IdsAfterDrop<T>(t: seq<Row<T>>, gone: set<Id>)
    ensures Ids(Drop(t, RowId, gone)) == Ids(t) - gone
  {
    var d := Drop(t, RowId, gone);
    forall id | id in Ids(t) - gone ensures id in Ids(d) {
      var r :| r in t && r.id == id;
      assert RowId(r) !in gone;
      assert r in d;
    }
  }

  lemma IdsCons<T>(a: Row<T>, t: seq<Row<T>>)
    ensures Ids([a] + t) == {a.id} + Ids(t)
  {
    forall id | id in Ids(t) ensures id in Ids([a] + t) {
      var r :| r in t && r.id == id;
      assert r in [a] + t;
    }
    assert a in [a] + t;
  }

  /** Deleting by a key no row holds changes nothing. */
  lemma {:induction false} DropNothing<T>(t: seq<Row<T>>, key: Row<T> -> Id, gone: set<Id>)
    requires forall x | x in t :: key(x) !in gone
    ensures Drop(t, key, gone) == t
  {
    if t != [] {
      DropNothing(t[1..], key, gone);
      assert t == [t[0]] + t[1..];
    }
  }

  /** Deleting one row by its primary key shortens the table by exactly one. */
  lemma {:induction false} DropOne<T>(t: seq<Row<T>>, x: Row<T>)
    requires Descending(t) && x in t
    ensures |Drop(t, RowId, {x.id})| == |t| - 1
  {
    assert t == [t[0]] + t[1..];
    DescendingCons(t[0], t[1..]);
    if t[0] == x {
      DropNothing(t[1..], RowId, {x.id});
    } else {
      DropOne(t[1..], x);
    }
  }

  /** Deleting, by its primary key, the one row that holds `key(x.val)` under a
      uniqueness constraint removes exactly the rows holding that key, and no
      more than one row. */
  lemma DropTheRow<T, K>(t: seq<Row<T>>, key: T -> K, x: Row<T>)
    requires Descending(t) && Unique(t, key) && x in t
    ensures forall y | y in t :: y in Drop(t, RowId, {x.id}) <==> key(y.val) != key(x.val)
    ensures |Drop(t, RowId, {x.id})| == |t| - 1
  {
    forall y | y in t ensures y in Drop(t, RowId, {x.id}) <==> key(y.val) != key(x.val) {
      if y.id == x.id {
        SameIdSameRow(t, x, y);
      }
      if key(y.val) == key(x.val) {
        SameKeySameRow(t, key, x, y);
      }
    }
    DropOne(t, x);
  }
}
