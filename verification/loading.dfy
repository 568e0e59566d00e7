// Batches of inserts of one kind, and what they leave behind.
module Loading {
  import opened Schema

  // OrUpdate is INSERT ... ON CONFLICT DO UPDATE.
  datatype Verb = PlainInsert | OrIgnore | OrReplace | OrUpdate

  datatype Batch = Batch(verb: Verb, rows: seq<Row>)

  function Statement(verb: Verb, r: Row): Stmt {
    match verb
    case PlainInsert => Insert(r)
    case OrIgnore => InsertOrIgnore(r)
    case OrReplace => InsertOrReplace(r)
    case OrUpdate => Upsert(r)
  }

  // Inserts the rows in order and stops at the first violated constraint.
  function RunBatch(t: Store, verb: Verb, rows: seq<Row>): Outcome
    decreases rows
  {
    if rows == [] then Done(t)
    else match Exec(t, Statement(verb, rows[0]))
      case ConstraintFailed => ConstraintFailed
      case Done(t') => RunBatch(t', verb, rows[1..])
  }

  function RunBatches(t: Store, batches: seq<Batch>): Outcome
    decreases batches
  {
    if batches == [] then Done(t)
    else match RunBatch(t, batches[0].verb, batches[0].rows)
      case ConstraintFailed => ConstraintFailed
      case Done(t') => RunBatches(t', batches[1..])
  }

  lemma {:induction false} RunBatchSnoc(t: Store, verb: Verb, rows: seq<Row>, r: Row)
    ensures RunBatch(t, verb, rows + [r]) ==
            match RunBatch(t, verb, rows)
            case ConstraintFailed => ConstraintFailed
            case Done(t') => Exec(t', Statement(verb, r))
    decreases rows
  {
    if rows == [] {
      assert (rows + [r])[1..] == [];
    } else {
      assert (rows + [r])[1..] == rows[1..] + [r];
      match Exec(t, Statement(verb, rows[0]))
      case ConstraintFailed =>
      case Done(t') => RunBatchSnoc(t', verb, rows[1..], r);
    }
  }

  lemma {:induction false} RunBatchKeepsIntegrity(t: Store, verb: Verb, rows: seq<Row>)
    requires Integrity(t) && RunBatch(t, verb, rows).Done?
    ensures Integrity(RunBatch(t, verb, rows).store)
    decreases rows
  {
    if rows != [] {
      var s := Statement(verb, rows[0]);
      ExecKeepsIntegrity(t, s);
      RunBatchKeepsIntegrity(Exec(t, s).store, verb, rows[1..]);
    }
  }

  lemma {:induction false} RunBatchesKeepIntegrity(t: Store, batches: seq<Batch>)
    requires Integrity(t) && RunBatches(t, batches).Done?
    ensures Integrity(RunBatches(t, batches).store)
    decreases batches
  {
    if batches != [] {
      var b := batches[0];
      RunBatchKeepsIntegrity(t, b.verb, b.rows);
      RunBatchesKeepIntegrity(RunBatch(t, b.verb, b.rows).store, batches[1..]);
    }
  }

  function KeySet(rows: seq<Row>): set<Key> {
    set i | 0 <= i < |rows| :: KeyOf(rows[i])
  }

  lemma KeySetSplit(rows: seq<Row>)
    requires rows != []
    ensures KeySet(rows) == {KeyOf(rows[0])} + KeySet(rows[1..])
  {
    forall k | k in KeySet(rows)
      ensures k in {KeyOf(rows[0])} + KeySet(rows[1..])
    {
      var i :| 0 <= i < |rows| && k == KeyOf(rows[i]);
      if i > 0 {
        assert k == KeyOf(rows[1..][i - 1]);
      }
    }
    forall k | k in KeySet(rows[1..])
      ensures k in KeySet(rows)
    {
      var i :| 0 <= i < |rows| - 1 && k == KeyOf(rows[1..][i]);
      assert k == KeyOf(rows[i + 1]);
    }
  }

  lemma KeySetSnoc(rows: seq<Row>, r: Row)
    ensures KeySet(rows + [r]) == KeySet(rows) + {KeyOf(r)}
  {
    var all := rows + [r];
    forall k | k in KeySet(rows) ensures k in KeySet(all) {
      var i :| 0 <= i < |rows| && KeyOf(rows[i]) == k;
      assert KeyOf(all[i]) == k;
    }
    assert KeyOf(all[|rows|]) == KeyOf(r);
    forall k | k in KeySet(all) ensures k in KeySet(rows) + {KeyOf(r)} {
      var i :| 0 <= i < |all| && KeyOf(all[i]) == k;
      if i < |rows| { assert all[i] == rows[i]; }
    }
  }

  ghost predicate Distinct(rows: seq<Row>) {
    forall i, j :: 0 <= i < j < |rows| ==> KeyOf(rows[i]) != KeyOf(rows[j])
  }

  // -------------------------------------------- loading a consistent database

  // The part of s stored under keys.
  function Sub(s: Store, keys: set<Key>): Store {
    map k | k in s && k in keys :: s[k]
  }

  lemma DeleteNothing(t: Store)
    ensures Delete(t, {}) == t
  {
    assert Children(t, {}) == {};
  }

  lemma SubHasNoClash(s: Store, keys: set<Key>, r: Row)
    requires Integrity(s) && KeyOf(r) in s && s[KeyOf(r)] == r && KeyOf(r) !in keys
    ensures Clashing(Sub(s, keys), r) == {}
  {
    var t := Sub(s, keys);
    forall k | k in t
      ensures !Clash(t[k], r)
    {
      assert Clash(s[k], s[KeyOf(r)]) ==> k == KeyOf(r);
    }
  }

  // A row that clashes with nothing and whose references are there goes in
  // whatever the verb.
  lemma ExecPuts(t: Store, verb: Verb, r: Row)
    requires Clashing(t, r) == {} && Refs(r) <= t.Keys
    ensures Exec(t, Statement(verb, r)) == Done(Put(t, r))
  {
    hide Refs, Clash;
    DeleteNothing(t);
  }

  lemma ExecFresh(s: Store, keys: set<Key>, verb: Verb, r: Row)
    requires Integrity(s) && KeyOf(r) in s && s[KeyOf(r)] == r
    requires KeyOf(r) !in keys && Refs(r) <= keys
    ensures Exec(Sub(s, keys), Statement(verb, r)) == Done(Sub(s, keys + {KeyOf(r)}))
  {
    hide Exec, Clashing, UniqueHolds, Refs;
    var t := Sub(s, keys);
    SubHasNoClash(s, keys, r);
    assert Refs(r) <= s.Keys;
    assert Refs(r) <= t.Keys;
    ExecPuts(t, verb, r);
    assert Put(t, r) == Sub(s, keys + {KeyOf(r)});
  }

  // Rows of a consistent database go in with any verb, once what they refer to is in.
  lemma {:induction false} LoadRows(s: Store, keys: set<Key>, verb: Verb, rows: seq<Row>)
    requires Integrity(s) && Distinct(rows)
    requires forall r :: r in rows ==> KeyOf(r) in s && s[KeyOf(r)] == r && KeyOf(r) !in keys && Refs(r) <= keys
    ensures RunBatch(Sub(s, keys), verb, rows) == Done(Sub(s, keys + KeySet(rows)))
    decreases rows
  {
    if rows == [] {
      assert keys + KeySet(rows) == keys;
    } else {
      var r := rows[0];
      ExecFresh(s, keys, verb, r);
      forall x | x in rows[1..]
        ensures KeyOf(x) !in keys + {KeyOf(r)}
      {
        assert x in rows;
      }
      LoadRows(s, keys + {KeyOf(r)}, verb, rows[1..]);
      KeySetSplit(rows);
      assert keys + {KeyOf(r)} + KeySet(rows[1..]) == keys + KeySet(rows);
    }
  }

  // rows lists the rows of s in the given table, each once, in any order.
  ghost predicate Lists(rows: seq<Row>, s: Store, table: Table) {
    && Distinct(rows)
    && (forall r :: r in rows ==> KeyOf(r) in s && s[KeyOf(r)] == r)
    && KeySet(rows) == KeysIn(s, table)
  }

  // rows holds the rows of the table that meet a condition, each once.
  ghost predicate Picks(rows: seq<Row>, t: Store, table: Table, keep: Row -> bool) {
    && Distinct(rows)
    && (forall r :: r in rows ==> KeyOf(r) in t && t[KeyOf(r)] == r && TableOf(r) == table && keep(r))
    && (forall k :: k in t && k.table == table && keep(t[k]) ==> t[k] in rows)
  }

  // The same rows are picked by a condition that says the same of the table's rows.
  lemma PicksAlike(rows: seq<Row>, t: Store, table: Table, f: Row -> bool, g: Row -> bool)
    requires Picks(rows, t, table, f) && forall r :: TableOf(r) == table ==> f(r) == g(r)
    requires Keyed(t)
    ensures Picks(rows, t, table, g)
  {
    forall k | k in t && k.table == table ensures TableOf(t[k]) == table { assert KeyOf(t[k]) == k; }
  }

  function KeysInAll(s: Store, tables: seq<Table>): set<Key> {
    set k | k in s && k.table in tables
  }

  // Every reference out of the i-th batch goes to a table loaded before it.
  ghost predicate ParentsFirst(loaded: seq<Table>, order: seq<Table>, batches: seq<Batch>)
    requires |order| == |batches|
  {
    forall i, r, k :: 0 <= i < |order| && r in batches[i].rows && k in Refs(r) ==>
      k.table in loaded || k.table in order[..i]
  }

  lemma ParentsFirstStep(loaded: seq<Table>, order: seq<Table>, batches: seq<Batch>)
    requires |order| == |batches| > 0 && ParentsFirst(loaded, order, batches)
    ensures ParentsFirst(loaded + [order[0]], order[1..], batches[1..])
  {
    forall i, r, k | 0 <= i < |order[1..]| && r in batches[1..][i].rows && k in Refs(r)
      ensures k.table in loaded + [order[0]] || k.table in order[1..][..i]
    {
      assert batches[1..][i] == batches[i + 1];
      assert order[..i + 1] == [order[0]] + order[1..][..i];
    }
  }

  // The batch of one table, once the tables its rows refer to are in.
  lemma LoadTable(s: Store, loaded: seq<Table>, table: Table, b: Batch)
    requires Integrity(s) && Lists(b.rows, s, table) && table !in loaded
    requires forall r, k :: r in b.rows && k in Refs(r) ==> k.table in loaded
    ensures RunBatch(Sub(s, KeysInAll(s, loaded)), b.verb, b.rows) == Done(Sub(s, KeysInAll(s, loaded + [table])))
  {
    var keys := KeysInAll(s, loaded);
    forall r | r in b.rows
      ensures KeyOf(r) !in keys && Refs(r) <= keys
    {
      var i :| 0 <= i < |b.rows| && b.rows[i] == r;
      assert KeyOf(r) in KeySet(b.rows);
      assert Refs(s[KeyOf(r)]) <= s.Keys;
    }
    LoadRows(s, keys, b.verb, b.rows);
    assert keys + KeySet(b.rows) == KeysInAll(s, loaded + [table]);
  }

  // Batch by batch, each table listed after the tables it refers to, the whole
  // database comes back.
  lemma {:induction false} LoadTables(s: Store, loaded: seq<Table>, order: seq<Table>, batches: seq<Batch>)
    requires Integrity(s) && |order| == |batches|
    requires forall i :: 0 <= i < |order| ==> Lists(batches[i].rows, s, order[i]) && order[i] !in loaded
    requires forall i, j :: 0 <= i < j < |order| ==> order[i] != order[j]
    requires ParentsFirst(loaded, order, batches)
    ensures RunBatches(Sub(s, KeysInAll(s, loaded)), batches) == Done(Sub(s, KeysInAll(s, loaded + order)))
    decreases batches
  {
    hide Lists, RunBatch, Refs, KeysInAll, Sub, Integrity;
    if batches == [] {
      assert loaded + order == loaded;
    } else {
      var table := order[0];
      assert forall r, k :: r in batches[0].rows && k in Refs(r) ==> k.table in loaded || k.table in order[..0];
      LoadTable(s, loaded, table, batches[0]);
      ParentsFirstStep(loaded, order, batches);
      forall i | 0 <= i < |order[1..]|
        ensures Lists(batches[1..][i].rows, s, order[1..][i]) && order[1..][i] !in loaded + [table]
      {
        assert batches[1..][i] == batches[i + 1] && order[1..][i] == order[i + 1];
      }
      LoadTables(s, loaded + [table], order[1..], batches[1..]);
      assert loaded + [table] + order[1..] == loaded + order;
    }
  }
}
