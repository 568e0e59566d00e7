// exportUserBackup and importUserBackup as functions of whole databases.
module Restore {
  import opened Wrappers
  import opened Json
  import opened Schema
  import opened Loading
  import opened Outcomes
  import opened Importing
  import opened Backup

  datatype ImportError = BadBackup | UnsupportedVersion | ConstraintViolated

  predicate SupportedVersion(v: Value) {
    v.Number? && (v.n == 1.0 || v.n == 2.0 || v.n == 3.0 || v.n == 4.0)
  }

  function Version(raw: Value): Value { Get(raw, SchemaVersion) }

  function PlannerOf(raw: Value): Value { GetObject(raw, Name.Planner) }

  // Version 1 keeps one flat settings object, later versions a default and a list per server.
  function DefaultSettings(raw: Value): Value {
    var settings := GetObject(PlannerOf(raw), Settings);
    if Version(raw) == Number(1.0) then settings else GetObject(settings, Default)
  }

  function DefaultHhmm(raw: Value): string { GetString(DefaultSettings(raw), DailyResetHhmm, "09:00") }

  function DefaultDay(raw: Value): real { GetNumber(DefaultSettings(raw), WeeklyResetDay, 1.0) }

  // The raw list the rows of a table are read from.
  function RawList(raw: Value, table: Table): seq<Value> {
    match table
    case ResetTable =>
      if Version(raw) == Number(1.0) then [] else GetList(GetObject(PlannerOf(raw), Settings), PerServer)
    case CharacterTable => GetList(raw, Characters)
    case BuildScoreTable => GetList(GetObject(raw, BuildScores), PerCharacter)
    case PresetTable => GetList(GetObject(raw, BuildScores), Presets)
    case TemplateTable => GetList(PlannerOf(raw), Templates)
    case AssignmentTable => GetList(PlannerOf(raw), Assignments)
    case CompletionTable => GetList(PlannerOf(raw), Completions)
    case ChargeUseTable => GetList(PlannerOf(raw), ChargeUses)
    case DurationTable => GetList(PlannerOf(raw), Durations)
    case ItemTable => GetList(GetObject(raw, Economy), Items)
    case PriceTable => GetList(GetObject(raw, Economy), Prices)
    case WatchTable => GetList(GetObject(raw, Economy), Watches)
    case RunTable => GetList(GetObject(raw, Loot), Runs)
    case DropTable => GetList(GetObject(raw, Loot), Drops)
    case CostTable => GetList(GetObject(raw, Loot), Costs)
    case SettingTable => []
    case AlertTable => []
  }

  function Ids(rows: seq<Row>): set<Id> {
    set i | 0 <= i < |rows| :: rows[i].id
  }

  // The id sets are built as the lists they come from are read: characters,
  // items, runs (whose characters are known by then) and templates.
  function KnownBefore(raw: Value, now: string): Known {
    Known(now, DefaultHhmm(raw), DefaultDay(raw), {}, {}, {}, {})
  }

  function KnownOf(raw: Value, now: string): Known {
    var k0 := KnownBefore(raw, now);
    var k1 := k0.(characters := Ids(Collect(CharacterTable, k0, RawList(raw, CharacterTable))),
                  templates := Ids(Collect(TemplateTable, k0, RawList(raw, TemplateTable))),
                  items := Ids(Collect(ItemTable, k0, RawList(raw, ItemTable))));
    k1.(runs := Ids(Collect(RunTable, k1, RawList(raw, RunTable))))
  }

  function ListOf(raw: Value, now: string, table: Table): seq<Row> {
    Collect(table, KnownOf(raw, now), RawList(raw, table))
  }

  function ActiveOf(raw: Value): string { GetString(raw, ActiveCharacterId, "") }

  // The rows of a restore, table by table.
  function RowsFor(raw: Value, now: string, table: Table): seq<Row> {
    match table
    case ResetTable => [Reset(DEFAULT_ID, DefaultHhmm(raw), DefaultDay(raw), now)] + ListOf(raw, now, ResetTable)
    case SettingTable => if ActiveOf(raw) == "" then [] else [Setting(ACTIVE_KEY, ActiveOf(raw))]
    case _ => ListOf(raw, now, table)
  }

  function PlanOf(raw: Value, now: string): Plan {
    map table: Table | table != AlertTable :: RowsFor(raw, now, table)
  }

  // The closing INSERT OR IGNORE ... SELECT over the cross join of characters
  // and templates, in the order the join is scanned.
  function FillRow(pair: (Id, Id), now: string): Row {
    Assignment("assign:" + pair.0 + ":" + pair.1, pair.0, pair.1, true, None, now, now)
  }

  function FillRows(scan: seq<(Id, Id)>, now: string): seq<Row> {
    seq(|scan|, i requires 0 <= i < |scan| => FillRow(scan[i], now))
  }

  // scan lists each (character, template) pair of t once.
  ghost predicate CrossJoin(scan: seq<(Id, Id)>, t: Store) {
    && (forall i, j :: 0 <= i < j < |scan| ==> scan[i] != scan[j])
    && (forall c, x :: (c, x) in scan <==> CharacterKey(c) in t && TemplateKey(x) in t)
  }

  function Loaded(raw: Value, now: string): Outcome {
    RunBatches(map[], BatchesFrom(PlanOf(raw, now), 0))
  }

  // The restore as a function of the database it starts from; scan is the order
  // in which the closing cross join is read.
  function Import(t: Store, raw: Value, now: string, scan: seq<(Id, Id)>): Result<Store, ImportError> {
    if !IsObject(raw) then Err(BadBackup)
    else if !SupportedVersion(Version(raw)) then Err(UnsupportedVersion)
    else match RunBatches(Wipe(t, WIPED), BatchesFrom(PlanOf(raw, now), 0))
      case ConstraintFailed => Err(ConstraintViolated)
      case Done(t') =>
        match RunBatch(t', OrIgnore, FillRows(scan, now))
        case ConstraintFailed => Err(ConstraintViolated)
        case Done(t'') => Ok(t'')
  }

  // ------------------------------------------------------- what parsing yields

  lemma {:induction false} CollectedRows(table: Table, k: Known, vs: seq<Value>)
    ensures AllIn(Collect(table, k, vs), table)
    ensures forall r :: r in Collect(table, k, vs) ==> exists v :: v in vs && Accept(table, k, v) == Some(r)
    decreases vs
  {
    if vs != [] {
      var init, last := vs[..|vs| - 1], vs[|vs| - 1];
      CollectedRows(table, k, init);
      AcceptedRow(table, k, last);
      assert forall v :: v in init ==> v in vs;
      assert last in vs;
    }
  }

  // Reading a list is the same before and after ids it does not look at are known.
  lemma {:induction false} CollectSame(table: Table, k: Known, k': Known, vs: seq<Value>)
    requires forall v :: v in vs ==> Accept(table, k, v) == Accept(table, k', v)
    ensures Collect(table, k, vs) == Collect(table, k', vs)
    decreases vs
  {
    if vs != [] {
      assert vs[|vs| - 1] in vs;
      CollectSame(table, k, k', vs[..|vs| - 1]);
    }
  }

  lemma PlanIsWellFormed(raw: Value, now: string)
    ensures WellFormed(PlanOf(raw, now))
  {
    forall table | table != AlertTable
      ensures AllIn(RowsFor(raw, now, table), table)
    {
      RowsInTable(raw, now, table);
    }
  }

  lemma RowsInTable(raw: Value, now: string, table: Table)
    ensures AllIn(RowsFor(raw, now, table), table)
  {
    ListInTable(raw, now, table);
  }

  lemma ListInTable(raw: Value, now: string, table: Table)
    ensures AllIn(ListOf(raw, now, table), table)
  {
    CollectedRows(table, KnownOf(raw, now), RawList(raw, table));
  }

  // Which ids are known makes no difference to the lists they are read off.
  lemma RootsReadAlike(table: Table, k: Known, k': Known, v: Value)
    requires table in {CharacterTable, TemplateTable, ItemTable} && k.now == k'.now
    ensures Accept(table, k, v) == Accept(table, k', v)
  {
  }

  lemma RunsReadAlike(k: Known, k': Known, v: Value)
    requires k.now == k'.now && k.characters == k'.characters
    ensures Accept(RunTable, k, v) == Accept(RunTable, k', v)
  {
  }

  // The id sets are those of the rows that will be inserted.
  lemma KnownIds(raw: Value, now: string)
    ensures KnownOf(raw, now).characters == Ids(ListOf(raw, now, CharacterTable))
    ensures KnownOf(raw, now).templates == Ids(ListOf(raw, now, TemplateTable))
    ensures KnownOf(raw, now).items == Ids(ListOf(raw, now, ItemTable))
    ensures KnownOf(raw, now).runs == Ids(ListOf(raw, now, RunTable))
  {
    hide Accept, RawList, Collect, Ids, DefaultHhmm, DefaultDay;
    var k0, k := KnownBefore(raw, now), KnownOf(raw, now);
    forall table, v | table in {CharacterTable, TemplateTable, ItemTable}
      ensures Accept(table, k0, v) == Accept(table, k, v)
    {
      RootsReadAlike(table, k0, k, v);
    }
    CollectSame(CharacterTable, k0, k, RawList(raw, CharacterTable));
    CollectSame(TemplateTable, k0, k, RawList(raw, TemplateTable));
    CollectSame(ItemTable, k0, k, RawList(raw, ItemTable));
    var k1 := k.(runs := {});
    assert k1 == k0.(characters := k.characters, templates := k.templates, items := k.items);
    forall v ensures Accept(RunTable, k1, v) == Accept(RunTable, k, v) {
      RunsReadAlike(k1, k, v);
    }
    CollectSame(RunTable, k1, k, RawList(raw, RunTable));
  }

  lemma IdsAreKeys(rows: seq<Row>, table: Table)
    requires AllIn(rows, table)
    ensures forall id :: id in Ids(rows) <==> Key(table, id) in KeySet(rows)
  {
    forall id
      ensures id in Ids(rows) <==> Key(table, id) in KeySet(rows)
    {
      if id in Ids(rows) {
        var i :| 0 <= i < |rows| && rows[i].id == id;
        assert rows[i] in rows;
        assert KeyOf(rows[i]) == Key(table, id);
      }
      if Key(table, id) in KeySet(rows) {
        var i :| 0 <= i < |rows| && KeyOf(rows[i]) == Key(table, id);
        assert rows[i].id == id;
      }
    }
  }
}
