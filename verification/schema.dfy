// The user tables of the SQLite schema as one map from (table, primary key) to
// row, with the foreign keys, UNIQUE keys and referential actions as functions
// of a row. CHECK columns are enumerated types.
module Schema {
  import opened Wrappers
  import Json

  type Id = string

  datatype Table =
    | SettingTable | CharacterTable | BuildScoreTable | PresetTable | ResetTable | TemplateTable | AssignmentTable
    | CompletionTable | ChargeUseTable | DurationTable | ItemTable | PriceTable | WatchTable | AlertTable
    | RunTable | DropTable | CostTable

  datatype Key = Key(table: Table, id: Id)

  datatype TemplateKind = DAILY | WEEKLY | CHARGE
  datatype WatchOp = Below | AtMost | Above | AtLeast
  datatype CostKind = KINAH | ITEM
  datatype StatUnit = Flat | Percent
  datatype Stat = Stat(id: string, caption: string, unitOf: StatUnit, enabled: bool, weight: real)

  datatype Row =
    | Setting(id: Id, value: string)
    | Character(id: Id, name: string, server: Option<string>, class_: Option<string>, createdAt: string,
                updatedAt: string)
    | BuildScore(id: Id, state: Json.Value, updatedAt: string)
    | Preset(id: Id, characterId: Id, name: string, description: Option<string>, stats: seq<Stat>, createdAt: string,
             updatedAt: string)
    | Reset(id: Id, dailyReset: string, weeklyDay: real, updatedAt: string)
    | Template(id: Id, title: string, kind: TemplateKind, estimate: int, rechargeHours: Option<real>,
               maxStacks: Option<real>,
               createdAt: string, updatedAt: string)
    | Assignment(id: Id, characterId: Id, templateId: Id, enabled: bool, targetCount: Option<real>, createdAt: string,
                 updatedAt: string)
    | Completion(id: Id, characterId: Id, templateId: Id, periodKey: string, completedAt: string)
    | ChargeUse(id: Id, characterId: Id, templateId: Id, usedAt: string)
    | Duration(id: Id, characterId: Id, timedTemplate: Option<Id>, startedAt: string, endedAt: string, timed: real)
    | Item(id: Id, name: string, category: Option<string>, note: Option<string>, createdAt: string, updatedAt: string)
    | Price(id: Id, market: string, itemId: Id, price: int, recordedAt: string, createdAt: string, updatedAt: string)
    | Watch(id: Id, market: string, itemId: Id, op: WatchOp, threshold: int, active: bool, createdAt: string,
            updatedAt: string)
    | Alert(id: Id, market: string, itemId: Id, itemName: string, op: WatchOp, threshold: int, price: int,
            triggeredAt: string,
            readAt: Option<string>)
    | LootRun(id: Id, characterId: Id, server: Option<string>, content: string, role: Option<string>,
              power: Option<string>,
              runStarted: Option<string>, runEnded: Option<string>, seconds: int, createdAt: string, updatedAt: string)
    | Drop(id: Id, runId: Id, dropItem: Option<Id>, itemName: string, qty: int, note: Option<string>, createdAt: string,
           updatedAt: string)
    | Cost(id: Id, runId: Id, costKind: CostKind, costRef: Option<Id>, costItem: Option<string>, qty: int, kinah: int,
           note: Option<string>, createdAt: string, updatedAt: string)

  type Store = map<Key, Row>

  function TableOf(r: Row): Table {
    match r
    case Setting(_, _) => SettingTable
    case Character(_, _, _, _, _, _) => CharacterTable
    case BuildScore(_, _, _) => BuildScoreTable
    case Preset(_, _, _, _, _, _, _) => PresetTable
    case Reset(_, _, _, _) => ResetTable
    case Template(_, _, _, _, _, _, _, _) => TemplateTable
    case Assignment(_, _, _, _, _, _, _) => AssignmentTable
    case Completion(_, _, _, _, _) => CompletionTable
    case ChargeUse(_, _, _, _) => ChargeUseTable
    case Duration(_, _, _, _, _, _) => DurationTable
    case Item(_, _, _, _, _, _) => ItemTable
    case Price(_, _, _, _, _, _, _) => PriceTable
    case Watch(_, _, _, _, _, _, _, _) => WatchTable
    case Alert(_, _, _, _, _, _, _, _, _) => AlertTable
    case LootRun(_, _, _, _, _, _, _, _, _, _, _) => RunTable
    case Drop(_, _, _, _, _, _, _, _) => DropTable
    case Cost(_, _, _, _, _, _, _, _, _, _) => CostTable
  }

  function KeyOf(r: Row): Key {
    Key(TableOf(r), r.id)
  }

  function CharacterKey(id: Id): Key { Key(CharacterTable, id) }
  function TemplateKey(id: Id): Key { Key(TemplateTable, id) }
  function ItemKey(id: Id): Key { Key(ItemTable, id) }
  function RunKey(id: Id): Key { Key(RunTable, id) }

  // Foreign keys declared ON DELETE CASCADE.
  function Parents(r: Row): set<Key> {
    match r
    case BuildScore(id, _, _) => {CharacterKey(id)}
    case Preset(_, c, _, _, _, _, _) => {CharacterKey(c)}
    case Assignment(_, c, t, _, _, _, _) => {CharacterKey(c), TemplateKey(t)}
    case Completion(_, c, t, _, _) => {CharacterKey(c), TemplateKey(t)}
    case ChargeUse(_, c, t, _) => {CharacterKey(c), TemplateKey(t)}
    case Duration(_, c, _, _, _, _) => {CharacterKey(c)}
    case Price(_, _, i, _, _, _, _) => {ItemKey(i)}
    case Watch(_, _, i, _, _, _, _, _) => {ItemKey(i)}
    case Alert(_, _, i, _, _, _, _, _, _) => {ItemKey(i)}
    case LootRun(_, c, _, _, _, _, _, _, _, _, _) => {CharacterKey(c)}
    case Drop(_, run, _, _, _, _, _, _) => {RunKey(run)}
    case Cost(_, run, _, _, _, _, _, _, _, _) => {RunKey(run)}
    case _ => {}
  }

  // Foreign keys declared ON DELETE SET NULL.
  function SoftParents(r: Row): set<Key> {
    match r
    case Duration(_, _, Some(t), _, _, _) => {TemplateKey(t)}
    case Drop(_, _, Some(i), _, _, _, _, _) => {ItemKey(i)}
    case Cost(_, _, _, Some(i), _, _, _, _, _, _) => {ItemKey(i)}
    case _ => {}
  }

  function Refs(r: Row): set<Key> {
    Parents(r) + SoftParents(r)
  }

  // SET NULL for the references that lie in gone.
  function ClearSoft(r: Row, gone: set<Key>): (r': Row)
    ensures KeyOf(r') == KeyOf(r) && Parents(r') == Parents(r) && UniqueOf(r') == UniqueOf(r)
    ensures SoftParents(r') == SoftParents(r) - gone
    ensures SoftParents(r) !! gone ==> r' == r
  {
    if SoftParents(r) !! gone then r
    else match r
      case Duration(_, _, _, _, _, _) => r.(timedTemplate := None)
      case Drop(_, _, _, _, _, _, _, _) => r.(dropItem := None)
      case Cost(_, _, _, _, _, _, _, _, _, _) => r.(costRef := None)
  }

  // The UNIQUE constraints besides the primary keys.
  datatype Unique = NoUnique | PairOf(c: Id, t: Id) | TickOf(c: Id, t: Id, period: string) | NameOf(name: string)

  function UniqueOf(r: Row): Unique {
    match r
    case Assignment(_, c, t, _, _, _, _) => PairOf(c, t)
    case Completion(_, c, t, p, _) => TickOf(c, t, p)
    case Item(_, name, _, _, _, _) => NameOf(name)
    case _ => NoUnique
  }

  // Two rows that a PRIMARY KEY or UNIQUE constraint keeps apart.
  predicate Clash(a: Row, b: Row) {
    KeyOf(a) == KeyOf(b) || (UniqueOf(a) != NoUnique && UniqueOf(a) == UniqueOf(b))
  }

  ghost predicate Keyed(t: Store) {
    forall k :: k in t ==> KeyOf(t[k]) == k
  }

  ghost predicate RefsResolve(t: Store) {
    forall k :: k in t ==> Refs(t[k]) <= t.Keys
  }

  ghost predicate UniqueHolds(t: Store) {
    forall j, k :: j in t && k in t && Clash(t[j], t[k]) ==> j == k
  }

  // What the schema promises of every committed database.
  ghost predicate Integrity(t: Store) {
    Keyed(t) && RefsResolve(t) && UniqueHolds(t)
  }

  // Rows that go when the rows of gone go, one foreign key further.
  function Children(t: Store, gone: set<Key>): set<Key> {
    set k | k in t && !(Parents(t[k]) !! gone)
  }

  function CascadeOf(t: Store, gone: set<Key>): (all: set<Key>)
    ensures gone <= all && Children(t, all) <= all
    ensures forall k :: k in all ==> k in gone || (k in t && !(Parents(t[k]) !! all))
    decreases t.Keys - gone
  {
    var more := Children(t, gone);
    if more <= gone then gone
    else
      assert t.Keys - (gone + more) < t.Keys - gone by {
        var k :| k in more && k !in gone;
        assert k in t.Keys - gone && k !in t.Keys - (gone + more);
      }
      CascadeOf(t, gone + more)
  }

  // DELETE of the rows in gone, with ON DELETE CASCADE and ON DELETE SET NULL.
  function Delete(t: Store, gone: set<Key>): Store {
    var all := CascadeOf(t, gone);
    map k | k in t && k !in all :: ClearSoft(t[k], all)
  }

  function KeysIn(t: Store, table: Table): set<Key> {
    set k | k in t && k.table == table
  }

  function Clashing(t: Store, r: Row): set<Key> {
    set k | k in t && Clash(t[k], r)
  }

  datatype Stmt =
    | Insert(row: Row)
    | InsertOrIgnore(row: Row)
    | InsertOrReplace(row: Row)
    // INSERT ... ON CONFLICT(primary key) DO UPDATE
    | Upsert(row: Row)
    // UPDATE ... WHERE id = row.id, row being the row after the update
    | Update(row: Row)
    | DeleteRows(keys: set<Key>)
    // DELETE FROM table
    | DeleteAll(table: Table)

  datatype Outcome = Done(store: Store) | ConstraintFailed

  function Put(t: Store, r: Row): Store {
    t[KeyOf(r) := r]
  }

  // One statement with immediate constraint checking and foreign keys enforced.
  function Exec(t: Store, s: Stmt): Outcome {
    match s
    case Insert(r) =>
      if Clashing(t, r) != {} || !(Refs(r) <= t.Keys) then ConstraintFailed else Done(Put(t, r))
    case InsertOrIgnore(r) =>
      if Clashing(t, r) != {} then Done(t) else if !(Refs(r) <= t.Keys) then ConstraintFailed else Done(Put(t, r))
    case InsertOrReplace(r) =>
      var rest := Delete(t, Clashing(t, r));
      if !(Refs(r) <= rest.Keys) then ConstraintFailed else Done(Put(rest, r))
    case Upsert(r) =>
      if Clashing(t, r) - {KeyOf(r)} != {} || !(Refs(r) <= t.Keys) then ConstraintFailed else Done(Put(t, r))
    case Update(r) =>
      if KeyOf(r) !in t then Done(t)
      else if Clashing(t, r) - {KeyOf(r)} != {} || !(Refs(r) <= t.Keys) then ConstraintFailed
      else Done(Put(t, r))
    case DeleteRows(keys) => Done(Delete(t, keys * t.Keys))
    case DeleteAll(table) => Done(Delete(t, KeysIn(t, table)))
  }

  // ---------------------------------------------------------------- integrity

  lemma DeleteKeepsIntegrity(t: Store, gone: set<Key>)
    requires Integrity(t)
    ensures Integrity(Delete(t, gone))
  {
    var all := CascadeOf(t, gone);
    var t' := Delete(t, gone);
    forall k | k in t'
      ensures KeyOf(t'[k]) == k && Refs(t'[k]) <= t'.Keys
    {
      assert k in t && k !in all && t'[k] == ClearSoft(t[k], all);
      assert Refs(t[k]) <= t.Keys;
      assert k !in Children(t, all);
      assert Parents(t[k]) !! all;
    }
    forall j, k | j in t' && k in t' && Clash(t'[j], t'[k])
      ensures j == k
    {
      assert t'[j] == ClearSoft(t[j], all) && t'[k] == ClearSoft(t[k], all);
      assert Clash(t[j], t[k]);
    }
  }

  lemma PutKeepsIntegrity(t: Store, r: Row)
    requires Integrity(t)
    requires Clashing(t, r) <= {KeyOf(r)} && Refs(r) <= t.Keys
    ensures Integrity(Put(t, r))
  {
    forall k | k in t && k != KeyOf(r)
      ensures !Clash(t[k], r)
    {
      assert k !in Clashing(t, r);
    }
  }

  // No row clashes with r once its clashing rows are deleted.
  lemma DeleteClears(t: Store, r: Row)
    requires Keyed(t)
    ensures Clashing(Delete(t, Clashing(t, r)), r) == {}
  {
    var gone := Clashing(t, r);
    var all := CascadeOf(t, gone);
    forall k | k in Delete(t, gone)
      ensures !Clash(Delete(t, gone)[k], r)
    {
      assert Delete(t, gone)[k] == ClearSoft(t[k], all);
      assert k !in gone;
      assert !Clash(t[k], r);
    }
  }

  // Every statement that succeeds keeps every key and foreign key of the schema.
  lemma ExecKeepsIntegrity(t: Store, s: Stmt)
    requires Integrity(t) && Exec(t, s).Done?
    ensures Integrity(Exec(t, s).store)
  {
    match s
    case Insert(r) => PutKeepsIntegrity(t, r);
    case InsertOrIgnore(r) => if Clashing(t, r) == {} { PutKeepsIntegrity(t, r); }
    case InsertOrReplace(r) =>
      DeleteKeepsIntegrity(t, Clashing(t, r));
      DeleteClears(t, r);
      PutKeepsIntegrity(Delete(t, Clashing(t, r)), r);
    case Upsert(r) => PutKeepsIntegrity(t, r);
    case Update(r) => if KeyOf(r) in t { PutKeepsIntegrity(t, r); }
    case DeleteRows(keys) => DeleteKeepsIntegrity(t, keys * t.Keys);
    case DeleteAll(table) => DeleteKeepsIntegrity(t, KeysIn(t, table));
  }
}
