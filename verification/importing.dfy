// When the statements of a restore go through: the plan of rows per table, the
// wipe, and the exact condition under which no constraint is violated.
module Importing {
  import opened Schema
  import opened Loading
  import opened Outcomes

  // The rows to be inserted, table by table.
  type Plan = map<Table, seq<Row>>

  // The tables in the order a restore fills them.
  const ORDER: seq<Table> := [ResetTable, SettingTable, CharacterTable, ItemTable, PriceTable, WatchTable,
                              BuildScoreTable,
    PresetTable, RunTable, DropTable, CostTable, TemplateTable, AssignmentTable, CompletionTable, ChargeUseTable,
    DurationTable]

  function Position(table: Table): nat {
    match table
    case ResetTable => 0
    case SettingTable => 1
    case CharacterTable => 2
    case ItemTable => 3
    case PriceTable => 4
    case WatchTable => 5
    case BuildScoreTable => 6
    case PresetTable => 7
    case RunTable => 8
    case DropTable => 9
    case CostTable => 10
    case TemplateTable => 11
    case AssignmentTable => 12
    case CompletionTable => 13
    case ChargeUseTable => 14
    case DurationTable => 15
    case AlertTable => 16
  }

  lemma PositionInOrder(table: Table)
    ensures table != AlertTable ==> Position(table) < |ORDER| && ORDER[Position(table)] == table
  {
  }

  lemma OrderPosition(i: int)
    requires 0 <= i < |ORDER|
    ensures Position(ORDER[i]) == i && ORDER[i] != AlertTable
  {
  }

  function VerbOf(table: Table): Verb {
    match table
    case ResetTable => PlainInsert
    case SettingTable => OrUpdate
    case CharacterTable => PlainInsert
    case TemplateTable => PlainInsert
    case AssignmentTable => OrIgnore
    case CompletionTable => OrIgnore
    case ChargeUseTable => OrIgnore
    case DurationTable => OrIgnore
    case _ => OrReplace
  }

  ghost predicate WellFormed(p: Plan) {
    && (forall table :: table != AlertTable ==> table in p && AllIn(p[table], table))
    && |p[SettingTable]| <= 1
  }

  function BatchesFrom(p: Plan, i: nat): seq<Batch>
    requires forall table :: table != AlertTable ==> table in p
    requires i <= |ORDER|
    decreases |ORDER| - i
  {
    if i == |ORDER| then []
    else
      OrderPosition(i);
      [Batch(VerbOf(ORDER[i]), p[ORDER[i]])] + BatchesFrom(p, i + 1)
  }

  // ------------------------------------------------------------------ the wipe

  const WIPED: seq<Table> := [SettingTable, CharacterTable, TemplateTable, ResetTable, AlertTable, WatchTable,
                              PriceTable, ItemTable]

  // DELETE FROM each of the tables.
  function Wipe(t: Store, tables: seq<Table>): Store
    decreases tables
  {
    if tables == [] then t else Wipe(Delete(t, KeysIn(t, tables[0])), tables[1..])
  }

  lemma {:induction false} WipeLeaves(t: Store, tables: seq<Table>)
    requires Integrity(t)
    ensures Integrity(Wipe(t, tables)) && Wipe(t, tables).Keys <= t.Keys
    ensures forall k :: k in Wipe(t, tables) ==> k.table !in tables
    decreases tables
  {
    if tables != [] {
      var gone := KeysIn(t, tables[0]);
      var t' := Delete(t, gone);
      DeleteKeepsIntegrity(t, gone);
      WipeLeaves(t', tables[1..]);
      forall k | k in Wipe(t, tables)
        ensures k.table !in tables
      {
        assert k in t' && k !in gone;
      }
    }
  }

  // Clearing the eight root tables empties all seventeen: everything else hangs
  // on a cascading foreign key.
  lemma WipeEmpties(t: Store)
    requires Integrity(t)
    ensures Wipe(t, WIPED) == map[]
  {
    var t' := Wipe(t, WIPED);
    WipeLeaves(t, WIPED);
    forall k | k in t'
      ensures false
    {
      assert KeyOf(t'[k]) == k && Refs(t'[k]) <= t'.Keys;
      HasWipedAncestor(t', t'[k]);
    }
    assert t'.Keys == {};
  }

  // Some table above the row's own is one of those cleared.
  lemma HasWipedAncestor(t: Store, r: Row)
    requires Integrity(t) && KeyOf(r) in t && t[KeyOf(r)] == r
    ensures exists k :: k in t && k.table in WIPED
  {
    if TableOf(r) in WIPED {
      assert KeyOf(r).table in WIPED;
    } else if r.Drop? || r.Cost? {
      var run := RunKey(r.runId);
      assert run in Refs(r) && run in t;
      assert KeyOf(t[run]) == run && t[run].LootRun?;
      assert CharacterKey(t[run].characterId) in Refs(t[run]);
      assert CharacterKey(t[run].characterId).table in WIPED;
    } else {
      var c := CharacterKey(if r.BuildScore? then r.id else r.characterId);
      assert c in Refs(r) && c.table in WIPED;
    }
  }

  // --------------------------------------------- which references will resolve

  // The tables other tables refer to.
  predicate Referenced(table: Table) {
    table in {CharacterTable, ItemTable, RunTable, TemplateTable}
  }

  // The keys a finished restore of the plan holds in those tables.
  ghost predicate Present(p: Plan, key: Key)
    requires WellFormed(p)
  {
    if key.table == ItemTable then Survives(p[ItemTable], key)
    else Referenced(key.table) && key in KeySet(p[key.table])
  }

  ghost predicate RefsPresent(p: Plan, r: Row)
    requires WellFormed(p)
  {
    forall k :: k in Refs(r) ==> Present(p, k)
  }

  // What keeps the statements of one table from violating a constraint.
  ghost predicate Goes(p: Plan, table: Table)
    requires WellFormed(p) && table != AlertTable
  {
    match VerbOf(table)
    case PlainInsert => Distinct(p[table])
    case OrUpdate => true
    case OrReplace => forall r :: r in p[table] ==> RefsPresent(p, r)
    case OrIgnore => forall i :: 0 <= i < |p[table]| ==> RefsPresent(p, p[table][i]) || RepeatsEarlier(p[table], i)
  }

  // Assignments and completions are filtered down to known characters and templates.
  ghost predicate Filtered(p: Plan)
    requires WellFormed(p)
  {
    forall r :: r in p[AssignmentTable] || r in p[CompletionTable] ==> RefsPresent(p, r)
  }

  // Tables before position i are loaded, and hold exactly the keys that count.
  ghost predicate Stage(p: Plan, t: Store, i: int)
    requires WellFormed(p)
  {
    && Integrity(t)
    && (forall k :: k in t ==> Position(k.table) < i)
    && (forall k: Key :: Referenced(k.table) && Position(k.table) < i ==> (k in t <==> Present(p, k)))
  }

  lemma RefsPointBack(r: Row)
    ensures forall k :: k in Refs(r) ==> Referenced(k.table) && Position(k.table) < Position(TableOf(r))
  {
  }

  lemma RefsResolveAtStage(p: Plan, t: Store, i: int, r: Row)
    requires WellFormed(p) && Stage(p, t, i) && Position(TableOf(r)) == i
    ensures Refs(r) <= t.Keys <==> RefsPresent(p, r)
  {
    RefsPointBack(r);
    if RefsPresent(p, r) {
      forall k | k in Refs(r) ensures k in t { assert Present(p, k); }
    }
  }

  lemma NothingRefersYet(p: Plan, t: Store, i: int, table: Table)
    requires WellFormed(p) && Stage(p, t, i) && Position(table) == i
    ensures Unreferenced(t, table) && KeysIn(t, table) == {}
  {
    forall k, x | k in t && x in Refs(t[k])
      ensures x.table != table
    {
      assert x in t;
    }
  }

  lemma PlainStage(p: Plan, t: Store, table: Table)
    requires WellFormed(p) && table != AlertTable && VerbOf(table) == PlainInsert && Stage(p, t, Position(table))
    ensures var out := RunBatch(t, PlainInsert, p[table]);
            (out.Done? <==> Goes(p, table)) && (out.Done? ==> Stage(p, out.store, Position(table) + 1))
  {
    var rows := p[table];
    PlainInsertOutcome(t, rows, table);
    forall k | k in KeySet(rows) ensures k.table == table && k !in t {
      var i :| 0 <= i < |rows| && k == KeyOf(rows[i]);
      assert rows[i] in rows;
    }
    if Distinct(rows) {
      RunBatchKeepsIntegrity(t, PlainInsert, rows);
      var t' := RunBatch(t, PlainInsert, rows).store;
      forall k: Key | Referenced(k.table) && Position(k.table) < Position(table) + 1
        ensures k in t' <==> Present(p, k)
      {
        SamePosition(k.table, table);
      }
    }
  }

  lemma SamePosition(a: Table, b: Table)
    ensures Position(a) == Position(b) ==> a == b
  {
    PositionInOrder(a);
    PositionInOrder(b);
  }

  lemma SettingStage(p: Plan, t: Store)
    requires WellFormed(p) && Stage(p, t, Position(SettingTable))
    ensures var out := RunBatch(t, OrUpdate, p[SettingTable]);
            out.Done? && Stage(p, out.store, Position(SettingTable) + 1)
  {
    var rows := p[SettingTable];
    if rows != [] {
      var r := rows[0];
      assert r in rows && rows[1..] == [];
      PlainRows(r);
      assert Clashing(t, r) - {KeyOf(r)} == {};
      ExecKeepsIntegrity(t, Upsert(r));
    }
  }

  lemma ReplaceStage(p: Plan, t: Store, table: Table)
    requires WellFormed(p) && table != AlertTable && VerbOf(table) == OrReplace && Stage(p, t, Position(table))
    ensures var out := RunBatch(t, OrReplace, p[table]);
            (out.Done? <==> Goes(p, table)) && (out.Done? ==> Stage(p, out.store, Position(table) + 1))
  {
    var rows := p[table];
    NothingRefersYet(p, t, Position(table), table);
    forall r | r in rows
      ensures (Refs(r) <= t.Keys <==> RefsPresent(p, r)) && forall k :: k in Refs(r) ==> k.table != table
    {
      RefsResolveAtStage(p, t, Position(table), r);
      RefsPointBack(r);
    }
    ReplaceOutcome(t, rows, table);
    if RunBatch(t, OrReplace, rows).Done? {
      RunBatchKeepsIntegrity(t, OrReplace, rows);
      ReplacedKeys(p, t, table, RunBatch(t, OrReplace, rows).store);
    }
  }

  lemma ReplacedKeys(p: Plan, t: Store, table: Table, t': Store)
    requires WellFormed(p) && table != AlertTable && VerbOf(table) == OrReplace && Stage(p, t, Position(table))
    requires Integrity(t')
    requires forall k :: k in t' <==> Survives(p[table], k) || Outlives(t, p[table], k)
    ensures Stage(p, t', Position(table) + 1)
  {
    var rows := p[table];
    forall k: Key
      ensures k.table == table ==> (k in t' <==> Survives(rows, k))
      ensures k.table != table ==> (k in t' <==> k in t)
    {
      if Survives(rows, k) {
        var i :| LastWord(rows, i) && KeyOf(rows[i]) == k;
        assert rows[i] in rows;
      }
      if k in t && k.table != table {
        forall r | r in rows ensures !Clash(r, t[k]) {
          if Clash(r, t[k]) { UniqueNamesTable(r, t[k]); }
        }
      }
    }
    forall k: Key | Referenced(k.table) && Position(k.table) < Position(table) + 1
      ensures k in t' <==> Present(p, k)
    {
      SamePosition(k.table, table);
      if k.table == table == RunTable {
        LastOfEachKey(rows, k);
      }
    }
  }

  // Where no UNIQUE key interferes, every key of the list survives.
  lemma LastOfEachKey(rows: seq<Row>, key: Key)
    requires forall r :: r in rows ==> UniqueOf(r) == NoUnique
    ensures Survives(rows, key) <==> key in KeySet(rows)
  {
    if key in KeySet(rows) {
      var i :| 0 <= i < |rows| && KeyOf(rows[i]) == key;
      LastFrom(rows, i);
    }
  }

  lemma LastFrom(rows: seq<Row>, i: int)
    requires 0 <= i < |rows| && forall r :: r in rows ==> UniqueOf(r) == NoUnique
    ensures Survives(rows, KeyOf(rows[i]))
    decreases |rows| - i
  {
    if j :| i < j < |rows| && KeyOf(rows[j]) == KeyOf(rows[i]) {
      LastFrom(rows, j);
    } else {
      forall j | i < j < |rows| ensures !Clash(rows[j], rows[i]) {
        assert rows[i] in rows;
      }
      assert LastWord(rows, i);
    }
  }

  lemma IgnoredRefs(p: Plan, t: Store, table: Table, r: Row)
    requires WellFormed(p) && table != AlertTable && Stage(p, t, Position(table)) && r in p[table]
    ensures (Refs(r) <= t.Keys <==> RefsPresent(p, r)) && forall k :: k in Refs(r) ==> k.table != table
  {
    hide Refs, RefsPresent;
    RefsResolveAtStage(p, t, Position(table), r);
    RefsPointBack(r);
  }

  lemma IgnoreGoes(p: Plan, t: Store, table: Table)
    requires WellFormed(p) && Filtered(p) && table != AlertTable && VerbOf(table) == OrIgnore
    requires Stage(p, t, Position(table))
    ensures RunBatch(t, OrIgnore, p[table]).Done? <==> Goes(p, table)
  {
    hide Refs, RefsPresent, RunBatch, RepeatsEarlier;
    var rows := p[table];
    NothingRefersYet(p, t, Position(table), table);
    forall r | r in rows
      ensures (Refs(r) <= t.Keys <==> RefsPresent(p, r)) && forall k :: k in Refs(r) ==> k.table != table
    {
      IgnoredRefs(p, t, table, r);
    }
    if table == AssignmentTable || table == CompletionTable {
      forall r | r in rows ensures Refs(r) <= t.Keys { assert RefsPresent(p, r); }
      IgnoreNeverFails(t, rows, table);
      assert forall i :: 0 <= i < |rows| ==> rows[i] in rows;
    } else {
      IgnoreOutcome(t, rows, table);
      assert forall i :: 0 <= i < |rows| ==> rows[i] in rows && KeyOf(rows[i]) !in t;
    }
  }

  lemma IgnoreStage(p: Plan, t: Store, table: Table)
    requires WellFormed(p) && Filtered(p) && table != AlertTable && VerbOf(table) == OrIgnore
    requires Stage(p, t, Position(table))
    ensures var out := RunBatch(t, OrIgnore, p[table]);
            (out.Done? <==> Goes(p, table)) && (out.Done? ==> Stage(p, out.store, Position(table) + 1))
  {
    hide Refs, RefsPresent, RunBatch, Goes;
    var rows := p[table];
    IgnoreGoes(p, t, table);
    if RunBatch(t, OrIgnore, rows).Done? {
      RunBatchKeepsIntegrity(t, OrIgnore, rows);
      IgnoreOnlyAdds(t, rows, table);
      var t' := RunBatch(t, OrIgnore, rows).store;
      forall k: Key | Referenced(k.table) && Position(k.table) < Position(table) + 1
        ensures k in t' <==> Present(p, k)
      {
        SamePosition(k.table, table);
      }
    }
  }


  lemma TableStage(p: Plan, t: Store, table: Table)
    requires WellFormed(p) && Filtered(p) && table != AlertTable && Stage(p, t, Position(table))
    ensures var out := RunBatch(t, VerbOf(table), p[table]);
            (out.Done? <==> Goes(p, table)) && (out.Done? ==> Stage(p, out.store, Position(table) + 1))
  {
    match VerbOf(table) {
      case PlainInsert => PlainStage(p, t, table);
      case OrUpdate => SettingStage(p, t);
      case OrReplace => ReplaceStage(p, t, table);
      case OrIgnore => IgnoreStage(p, t, table);
    }
  }

  lemma BatchesStep(p: Plan, t: Store, i: nat)
    requires WellFormed(p) && i < |ORDER| && ORDER[i] != AlertTable
    ensures RunBatches(t, BatchesFrom(p, i)) ==
            match RunBatch(t, VerbOf(ORDER[i]), p[ORDER[i]])
            case ConstraintFailed => ConstraintFailed
            case Done(t') => RunBatches(t', BatchesFrom(p, i + 1))
  {
    assert BatchesFrom(p, i)[1..] == BatchesFrom(p, i + 1);
  }

  ghost predicate GoesFrom(p: Plan, i: nat)
    requires WellFormed(p) && i <= |ORDER|
    decreases |ORDER| - i
  {
    i == |ORDER| || (OrderPosition(i); Goes(p, ORDER[i]) && GoesFrom(p, i + 1))
  }

  // From any stage on, the rest of the restore goes through exactly when each
  // remaining table does.
  lemma {:induction false} RestOutcome(p: Plan, t: Store, i: nat)
    requires WellFormed(p) && Filtered(p) && i <= |ORDER| && Stage(p, t, i)
    ensures var out := RunBatches(t, BatchesFrom(p, i));
            (out.Done? <==> GoesFrom(p, i)) && (out.Done? ==> Stage(p, out.store, |ORDER|))
    decreases |ORDER| - i
  {
    if i < |ORDER| {
      OrderPosition(i);
      TableStage(p, t, ORDER[i]);
      BatchesStep(p, t, i);
      if Goes(p, ORDER[i]) {
        RestOutcome(p, RunBatch(t, VerbOf(ORDER[i]), p[ORDER[i]]).store, i + 1);
      }
    }
  }

  lemma {:induction false} GoesFromAll(p: Plan, i: nat)
    requires WellFormed(p) && i <= |ORDER|
    ensures GoesFrom(p, i) <==> forall table :: table != AlertTable && Position(table) >= i ==> Goes(p, table)
    decreases |ORDER| - i
  {
    forall table | table != AlertTable && Position(table) >= i
      ensures i < |ORDER| && (Position(table) == i ==> table == ORDER[i])
    {
      PositionInOrder(table);
    }
    if i < |ORDER| {
      OrderPosition(i);
      GoesFromAll(p, i + 1);
    }
  }

  lemma GoesEverywhere(p: Plan)
    requires WellFormed(p)
    ensures GoesFrom(p, 0) <==> forall table :: table != AlertTable ==> Goes(p, table)
  {
    GoesFromAll(p, 0);
  }

  lemma EmptyStage(p: Plan)
    requires WellFormed(p)
    ensures Stage(p, map[], 0)
  {
  }

  // Inserting a whole plan into an empty database goes through exactly when
  // every table does, and then every key and foreign key holds.
  lemma PlanOutcome(p: Plan)
    requires WellFormed(p) && Filtered(p)
    ensures var out := RunBatches(map[], BatchesFrom(p, 0));
            (out.Done? <==> GoesFrom(p, 0)) && (out.Done? ==> Stage(p, out.store, |ORDER|))
  {
    EmptyStage(p);
    RestOutcome(p, map[], 0);
  }
}
