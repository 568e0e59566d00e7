// Exactly when a batch of inserts goes through, and which keys it leaves.
module Outcomes {
  import opened Schema
  import opened Loading

  ghost predicate AllIn(rows: seq<Row>, table: Table) {
    forall r :: r in rows ==> TableOf(r) == table
  }

  // No row of t refers to a row of the table.
  ghost predicate Unreferenced(t: Store, table: Table) {
    forall k, p :: k in t && p in Refs(t[k]) ==> p.table != table
  }

  // A table without UNIQUE keys whose rows refer to nothing.
  predicate PlainTable(table: Table) {
    table in {ResetTable, SettingTable, CharacterTable, TemplateTable}
  }

  lemma PlainRows(r: Row)
    requires PlainTable(TableOf(r))
    ensures Refs(r) == {} && UniqueOf(r) == NoUnique
  {
  }

  // Plain INSERTs fail exactly on a repeated primary key.
  lemma {:induction false} PlainInsertOutcome(t: Store, rows: seq<Row>, table: Table)
    requires Integrity(t) && AllIn(rows, table) && PlainTable(table)
    ensures RunBatch(t, PlainInsert, rows).Done? <==> Distinct(rows) && KeySet(rows) !! t.Keys
    ensures RunBatch(t, PlainInsert, rows).Done? ==> RunBatch(t, PlainInsert, rows).store.Keys == t.Keys + KeySet(rows)
    decreases rows
  {
    if rows != [] {
      var r, rest := rows[0], rows[1..];
      KeySetSplit(rows);
      DistinctSplit(rows);
      PlainInsertOne(t, r);
      if KeyOf(r) !in t {
        PlainInsertOutcome(Put(t, r), rest, table);
      }
    }
  }

  lemma PlainInsertOne(t: Store, r: Row)
    requires Integrity(t) && PlainTable(TableOf(r))
    ensures Exec(t, Insert(r)) == if KeyOf(r) in t then ConstraintFailed else Done(Put(t, r))
    ensures KeyOf(r) !in t ==> Integrity(Put(t, r))
  {
    PlainRows(r);
    if KeyOf(r) in t {
      assert KeyOf(r) in Clashing(t, r);
    } else {
      assert Clashing(t, r) == {};
      ExecKeepsIntegrity(t, Insert(r));
    }
  }

  lemma DistinctSplit(rows: seq<Row>)
    requires rows != []
    ensures Distinct(rows) <==> Distinct(rows[1..]) && KeyOf(rows[0]) !in KeySet(rows[1..])
  {
    var rest := rows[1..];
    if Distinct(rows) {
      forall i | 0 <= i < |rest| ensures KeyOf(rest[i]) != KeyOf(rows[0]) { assert rest[i] == rows[i + 1]; }
      forall i, j | 0 <= i < j < |rest| ensures KeyOf(rest[i]) != KeyOf(rest[j]) {
        assert rest[i] == rows[i + 1] && rest[j] == rows[j + 1];
      }
    }
    if Distinct(rest) && KeyOf(rows[0]) !in KeySet(rest) {
      forall i, j | 0 <= i < j < |rows| ensures KeyOf(rows[i]) != KeyOf(rows[j]) {
        assert rows[j] == rest[j - 1];
        assert KeyOf(rest[j - 1]) in KeySet(rest);
        if i > 0 { assert rows[i] == rest[i - 1]; }
      }
    }
  }

  // ------------------------------------------------------- INSERT OR REPLACE

  // Deleting rows nothing refers to removes just them.
  lemma DeleteUnreferenced(t: Store, gone: set<Key>)
    requires forall k, p :: k in t && p in Refs(t[k]) ==> p !in gone
    ensures Delete(t, gone) == t - gone
  {
    forall k | k in t
      ensures Parents(t[k]) !! gone && SoftParents(t[k]) !! gone
    {
      forall p | p in Parents(t[k]) || p in SoftParents(t[k]) ensures p !in gone { assert p in Refs(t[k]); }
    }
    assert Children(t, gone) == {};
  }

  // The row at k is the last one with its key, and no later row repeats its UNIQUE key.
  ghost predicate LastWord(rows: seq<Row>, k: int) {
    0 <= k < |rows| && forall j :: k < j < |rows| ==> !Clash(rows[j], rows[k])
  }

  ghost predicate Survives(rows: seq<Row>, key: Key) {
    exists k :: LastWord(rows, k) && KeyOf(rows[k]) == key
  }

  // One row replaced in a table nothing refers to.
  lemma ReplaceOne(t: Store, r: Row)
    requires Integrity(t) && Unreferenced(t, TableOf(r))
    requires forall p :: p in Refs(r) ==> p.table != TableOf(r)
    ensures Exec(t, InsertOrReplace(r)).Done? <==> Refs(r) <= t.Keys
    ensures Refs(r) <= t.Keys ==> Exec(t, InsertOrReplace(r)) == Done(Put(t - Clashing(t, r), r))
  {
    var gone := Clashing(t, r);
    forall k | k in gone ensures k.table == TableOf(r) {
      UniqueNamesTable(t[k], r);
    }
    DeleteUnreferenced(t, gone);
  }

  // A UNIQUE key never spans two tables.
  lemma UniqueNamesTable(a: Row, b: Row)
    requires Clash(a, b)
    ensures TableOf(a) == TableOf(b)
  {
    assert UniqueOf(a).PairOf? ==> TableOf(a) == AssignmentTable;
    assert UniqueOf(b).PairOf? ==> TableOf(b) == AssignmentTable;
    assert UniqueOf(a).TickOf? ==> TableOf(a) == CompletionTable;
    assert UniqueOf(b).TickOf? ==> TableOf(b) == CompletionTable;
    assert UniqueOf(a).NameOf? ==> TableOf(a) == ItemTable;
    assert UniqueOf(b).NameOf? ==> TableOf(b) == ItemTable;
  }

  // A row present before the batch outlives it when no row of the batch clashes with it.
  ghost predicate Outlives(t: Store, rows: seq<Row>, key: Key) {
    key in t && forall r :: r in rows ==> !Clash(r, t[key])
  }

  lemma SurvivesSplit(rows: seq<Row>, key: Key)
    requires rows != []
    ensures Survives(rows, key) <==>
            Survives(rows[1..], key) || (KeyOf(rows[0]) == key && forall r :: r in rows[1..] ==> !Clash(r, rows[0]))
  {
    var rest := rows[1..];
    if Survives(rest, key) {
      var k :| LastWord(rest, k) && KeyOf(rest[k]) == key;
      forall j | k + 1 < j < |rows| ensures !Clash(rows[j], rows[k + 1]) { assert rows[j] == rest[j - 1]; }
      assert LastWord(rows, k + 1);
    }
    if KeyOf(rows[0]) == key && forall r :: r in rest ==> !Clash(r, rows[0]) {
      forall j | 0 < j < |rows| ensures !Clash(rows[j], rows[0]) { assert rows[j] == rest[j - 1]; }
      assert LastWord(rows, 0);
    }
    if Survives(rows, key) {
      var k :| LastWord(rows, k) && KeyOf(rows[k]) == key;
      if k > 0 {
        forall j | k - 1 < j < |rest| ensures !Clash(rest[j], rest[k - 1]) { assert rest[j] == rows[j + 1]; }
        assert LastWord(rest, k - 1);
      } else {
        forall r | r in rest ensures !Clash(r, rows[0]) {
          var j :| 0 <= j < |rest| && rest[j] == r;
          assert rows[j + 1] == r;
        }
      }
    }
  }

  // A batch of INSERT OR REPLACE into a table nothing refers to yet fails
  // exactly on a dangling reference; a key is left behind when a row of the
  // batch has the last word on it, or when the batch never touched it.
  lemma {:induction false} ReplaceOutcome(t: Store, rows: seq<Row>, table: Table)
    requires Integrity(t) && Unreferenced(t, table) && AllIn(rows, table)
    requires forall r, p :: r in rows && p in Refs(r) ==> p.table != table
    ensures RunBatch(t, OrReplace, rows).Done? <==> forall r :: r in rows ==> Refs(r) <= t.Keys
    ensures RunBatch(t, OrReplace, rows).Done? ==>
              forall key :: key in RunBatch(t, OrReplace, rows).store <==> Survives(rows, key) || Outlives(t, rows, key)
    decreases rows
  {
    if rows == [] {
    } else {
      var r, rest := rows[0], rows[1..];
      assert r in rows;
      ReplaceOne(t, r);
      assert forall x :: x in rows <==> x == r || x in rest;
      if Refs(r) <= t.Keys {
        var t' := Put(t - Clashing(t, r), r);
        ExecKeepsIntegrity(t, InsertOrReplace(r));
        forall x | x in rest ensures Refs(x) <= t'.Keys <==> Refs(x) <= t.Keys {
          SameRefs(t, r, x);
        }
        ReplaceOutcome(t', rest, table);
        forall key
          ensures Survives(rest, key) || Outlives(t', rest, key) <==> Survives(rows, key) || Outlives(t, rows, key)
        {
          SurvivesSplit(rows, key);
          OutlivesStep(t, rows, key);
        }
      }
    }
  }

  lemma SameRefs(t: Store, r: Row, x: Row)
    requires TableOf(x) == TableOf(r) && Keyed(t) && forall p :: p in Refs(x) ==> p.table != TableOf(x)
    ensures Refs(x) <= Put(t - Clashing(t, r), r).Keys <==> Refs(x) <= t.Keys
  {
    forall k | k in Clashing(t, r) ensures k.table == TableOf(r) {
      UniqueNamesTable(t[k], r);
    }
  }

  lemma OutlivesStep(t: Store, rows: seq<Row>, key: Key)
    requires rows != [] && Keyed(t)
    ensures var r, rest := rows[0], rows[1..];
            Outlives(Put(t - Clashing(t, r), r), rest, key) <==>
            Outlives(t, rows, key) || (key == KeyOf(r) && forall x :: x in rest ==> !Clash(x, r))
  {
    var r, rest := rows[0], rows[1..];
    var t' := Put(t - Clashing(t, r), r);
    assert forall x :: x in rows <==> x == r || x in rest;
    if key in t {
      assert Clash(t[key], r) == Clash(r, t[key]);
      assert key == KeyOf(r) ==> Clash(r, t[key]);
      assert key in Clashing(t, r) <==> Clash(t[key], r);
    }
    if key == KeyOf(r) {
      assert key in t' && t'[key] == r;
    } else if key in t && !Clash(t[key], r) {
      assert key in t' && t'[key] == t[key];
    }
  }

  // -------------------------------------------------------- INSERT OR IGNORE

  ghost predicate RepeatsEarlier(rows: seq<Row>, k: int)
    requires 0 <= k < |rows|
  {
    exists j :: 0 <= j < k && KeyOf(rows[j]) == KeyOf(rows[k])
  }

  // Rows whose references all resolve are never the cause of a failure.
  lemma {:induction false} IgnoreNeverFails(t: Store, rows: seq<Row>, table: Table)
    requires Integrity(t) && AllIn(rows, table) && forall r :: r in rows ==> Refs(r) <= t.Keys
    ensures RunBatch(t, OrIgnore, rows).Done?
    decreases rows
  {
    if rows != [] {
      var r := rows[0];
      assert r in rows;
      ExecKeepsIntegrity(t, InsertOrIgnore(r));
      IgnoreNeverFails(Exec(t, InsertOrIgnore(r)).store, rows[1..], table);
    }
  }

  lemma KeyIsFresh(t: Store, r: Row)
    requires Keyed(t) && Clashing(t, r) == {}
    ensures KeyOf(r) !in t
  {
    assert KeyOf(r) in t ==> KeyOf(r) in Clashing(t, r);
  }

  // What was there stays, and only rows of the table are added.
  lemma {:induction false} IgnoreOnlyAdds(t: Store, rows: seq<Row>, table: Table)
    requires Keyed(t) && AllIn(rows, table) && RunBatch(t, OrIgnore, rows).Done?
    ensures var t' := RunBatch(t, OrIgnore, rows).store;
            t.Keys <= t'.Keys && (forall k :: k in t ==> t'[k] == t[k])
            && (forall k :: k in t' && k !in t ==> k.table == table)
    decreases rows
  {
    if rows != [] {
      var r := rows[0];
      assert r in rows;
      if Clashing(t, r) == {} {
        KeyIsFresh(t, r);
      }
      IgnoreOnlyAdds(Exec(t, InsertOrIgnore(r)).store, rows[1..], table);
    }
  }

  // Rows that were not there are rows of the list.
  lemma {:induction false} IgnoredAreListed(t: Store, rows: seq<Row>, table: Table)
    requires Keyed(t) && AllIn(rows, table) && RunBatch(t, OrIgnore, rows).Done?
    ensures var t' := RunBatch(t, OrIgnore, rows).store; forall k :: k in t' && k !in t ==> t'[k] in rows
    decreases rows
  {
    if rows != [] {
      hide Clashing, Refs;
      assert rows[0] in rows;
      var t1 := Exec(t, InsertOrIgnore(rows[0])).store;
      assert t1 == t || t1 == Put(t, rows[0]);
      IgnoreOnlyAdds(t1, rows[1..], table);
      IgnoredAreListed(t1, rows[1..], table);
    }
  }

  // In a table with no UNIQUE key a dangling row fails the batch unless its
  // primary key is already taken, in which case it is ignored unread.
  lemma {:induction false} IgnoreOutcome(t: Store, rows: seq<Row>, table: Table)
    requires Integrity(t) && AllIn(rows, table)
    requires forall r :: r in rows ==> UniqueOf(r) == NoUnique && forall p :: p in Refs(r) ==> p.table != table
    ensures RunBatch(t, OrIgnore, rows).Done? <==>
            forall k :: 0 <= k < |rows| ==> Refs(rows[k]) <= t.Keys || KeyOf(rows[k]) in t || RepeatsEarlier(rows, k)
    decreases rows
  {
    if rows != [] {
      hide UniqueHolds, RefsResolve;
      var r, rest := rows[0], rows[1..];
      assert r in rows;
      assert KeyOf(r) in t ==> KeyOf(r) in Clashing(t, r);
      assert forall k :: k in t && Clash(t[k], r) ==> k == KeyOf(r);
      assert (Clashing(t, r) == {}) == (KeyOf(r) !in t);
      if Exec(t, InsertOrIgnore(r)).Done? {
        var t' := Exec(t, InsertOrIgnore(r)).store;
        ExecKeepsIntegrity(t, InsertOrIgnore(r));
        assert t'.Keys == t.Keys + {KeyOf(r)};
        IgnoreOutcome(t', rest, table);
        forall k | 1 <= k < |rows|
          ensures Refs(rows[k]) <= t.Keys || KeyOf(rows[k]) in t || RepeatsEarlier(rows, k) <==>
                  Refs(rest[k - 1]) <= t'.Keys || KeyOf(rest[k - 1]) in t' || RepeatsEarlier(rest, k - 1)
        {
          RepeatsStep(rows, k);
          assert rows[k] in rows;
        }
        forall k | 0 <= k < |rest|
          ensures Refs(rows[k + 1]) <= t.Keys || KeyOf(rows[k + 1]) in t || RepeatsEarlier(rows, k + 1) <==>
                  Refs(rest[k]) <= t'.Keys || KeyOf(rest[k]) in t' || RepeatsEarlier(rest, k)
        {
        }
      } else {
        assert !RepeatsEarlier(rows, 0);
      }
    }
  }

  lemma RepeatsStep(rows: seq<Row>, k: int)
    requires 1 <= k < |rows|
    ensures RepeatsEarlier(rows, k) <==> KeyOf(rows[k]) == KeyOf(rows[0]) || RepeatsEarlier(rows[1..], k - 1)
  {
    var rest := rows[1..];
    if RepeatsEarlier(rows, k) {
      var j :| 0 <= j < k && KeyOf(rows[j]) == KeyOf(rows[k]);
      if j > 0 { assert KeyOf(rest[j - 1]) == KeyOf(rest[k - 1]); }
    }
    if RepeatsEarlier(rest, k - 1) {
      var j :| 0 <= j < k - 1 && KeyOf(rest[j]) == KeyOf(rest[k - 1]);
      assert KeyOf(rows[j + 1]) == KeyOf(rows[k]);
    }
  }
}
