// Which raw values a restore accepts, and what it leaves behind.
module Safety {
  import opened Wrappers
  import opened Json
  import opened Schema
  import opened Loading
  import opened Outcomes
  import opened Importing
  import opened Backup
  import opened Restore

  // ---------------------------------------- which references a list can contain

  // References a row keeps after the id filters: all of them resolve, except the
  // empty template id of a duration; item references only to listed items.
  ghost predicate Sieved(k: Known, r: Row) {
    forall p :: p in Refs(r) ==>
      (p.table == CharacterTable ==> p.id in k.characters)
      && (p.table == TemplateTable ==> p.id in k.templates || (r.Duration? && p.id == ""))
      && (p.table == RunTable ==> p.id in k.runs)
      && (p.table == ItemTable ==> p.id in k.items)
  }

  lemma SievedTick(table: Table, k: Known, v: Value)
    requires table in {AssignmentTable, CompletionTable, ChargeUseTable, DurationTable} && Accept(table, k, v).Some?
    ensures Sieved(k, Accept(table, k, v).value)
  {
  }

  lemma SievedTrade(table: Table, k: Known, v: Value)
    requires table in {ItemTable, PriceTable, WatchTable} && Accept(table, k, v).Some?
    ensures Sieved(k, Accept(table, k, v).value)
  {
  }

  lemma SievedRun(k: Known, v: Value)
    requires AcceptRun(k, v).Some?
    ensures Sieved(k, AcceptRun(k, v).value)
  {
  }

  lemma SievedDrop(k: Known, v: Value)
    requires AcceptDrop(k, v).Some?
    ensures Sieved(k, AcceptDrop(k, v).value)
  {
  }

  lemma SievedCost(k: Known, v: Value)
    requires AcceptCost(k, v).Some?
    ensures Sieved(k, AcceptCost(k, v).value)
  {
  }

  lemma SievedLoot(table: Table, k: Known, v: Value)
    requires table in {RunTable, DropTable, CostTable} && Accept(table, k, v).Some?
    ensures Sieved(k, Accept(table, k, v).value)
  {
    hide AcceptRun, AcceptDrop, AcceptCost, Sieved;
    match table
    case RunTable => SievedRun(k, v);
    case DropTable => SievedDrop(k, v);
    case CostTable => SievedCost(k, v);
  }

  lemma SievedProfile(table: Table, k: Known, v: Value)
    requires table in {BuildScoreTable, PresetTable} && Accept(table, k, v).Some?
    ensures Sieved(k, Accept(table, k, v).value)
  {
  }

  lemma PlainRowsSieved(k: Known, r: Row)
    requires PlainTable(TableOf(r))
    ensures Sieved(k, r)
  {
    PlainRows(r);
  }

  lemma AcceptedSieved(table: Table, k: Known, v: Value)
    requires Accept(table, k, v).Some?
    ensures Sieved(k, Accept(table, k, v).value)
  {
    AcceptedRow(table, k, v);
    if table in {AssignmentTable, CompletionTable, ChargeUseTable, DurationTable} {
      SievedTick(table, k, v);
    } else if table in {ItemTable, PriceTable, WatchTable} {
      SievedTrade(table, k, v);
    } else if table in {RunTable, DropTable, CostTable} {
      SievedLoot(table, k, v);
    } else if table in {BuildScoreTable, PresetTable} {
      SievedProfile(table, k, v);
    } else {
      PlainRowsSieved(k, Accept(table, k, v).value);
    }
  }

  lemma ListIsSieved(raw: Value, now: string, table: Table, r: Row)
    requires r in ListOf(raw, now, table)
    ensures TableOf(r) == table && Sieved(KnownOf(raw, now), r)
  {
    var k, vs := KnownOf(raw, now), RawList(raw, table);
    CollectedRows(table, k, vs);
    var v :| v in vs && Accept(table, k, v) == Some(r);
    AcceptedSieved(table, k, v);
  }

  // A known id names a row of the plan.
  lemma KnownIsPresent(raw: Value, now: string, key: Key)
    requires WellFormed(PlanOf(raw, now))
    ensures key.table == CharacterTable ==> (key.id in KnownOf(raw, now).characters <==> Present(PlanOf(raw, now), key))
    ensures key.table == TemplateTable ==> (key.id in KnownOf(raw, now).templates <==> Present(PlanOf(raw, now), key))
    ensures key.table == RunTable ==> (key.id in KnownOf(raw, now).runs <==> Present(PlanOf(raw, now), key))
  {
    KnownIds(raw, now);
    if key.table in {CharacterTable, TemplateTable, RunTable} {
      ListInTable(raw, now, key.table);
      IdsAreKeys(ListOf(raw, now, key.table), key.table);
      assert key == Key(key.table, key.id);
    }
  }

  // Every reference of a listed row resolves, but for item references and the
  // empty template id.
  lemma ListedRefs(raw: Value, now: string, table: Table, r: Row, key: Key)
    requires WellFormed(PlanOf(raw, now)) && r in ListOf(raw, now, table) && key in Refs(r)
    requires key.table != ItemTable && (key.table == TemplateTable && r.Duration? ==> key.id != "")
    ensures Present(PlanOf(raw, now), key)
  {
    ListIsSieved(raw, now, table, r);
    KnownIsPresent(raw, now, key);
    RefsPointBack(r);
  }

  // A plan whose references all resolve, but for item references and the empty
  // template id of a duration, which the id filters let through.
  ghost predicate Sifted(p: Plan) {
    WellFormed(p) && forall table, r :: table != AlertTable && r in p[table] ==> SiftedRow(p, r)
  }

  ghost predicate SiftedRow(p: Plan, r: Row)
    requires WellFormed(p)
  {
    forall key :: key in Refs(r) && key.table != ItemTable && !(r.Duration? && key == TemplateKey("")) ==>
      Present(p, key)
  }

  lemma ListIsSifted(raw: Value, now: string, table: Table, r: Row)
    requires WellFormed(PlanOf(raw, now)) && r in ListOf(raw, now, table)
    ensures SiftedRow(PlanOf(raw, now), r)
  {
    forall key | key in Refs(r) && key.table != ItemTable && !(r.Duration? && key == TemplateKey(""))
      ensures Present(PlanOf(raw, now), key)
    {
      ListedRefs(raw, now, table, r, key);
    }
  }

  lemma PlainIsSifted(p: Plan, r: Row)
    requires WellFormed(p) && PlainTable(TableOf(r))
    ensures SiftedRow(p, r)
  {
    PlainRows(r);
  }

  // Whatever the raw value, the rows read from it make a sifted plan.
  lemma PlanIsSifted(raw: Value, now: string)
    ensures Sifted(PlanOf(raw, now))
  {
    var p := PlanOf(raw, now);
    PlanIsWellFormed(raw, now);
    forall table, r | table != AlertTable && r in p[table]
      ensures SiftedRow(p, r)
    {
      assert TableOf(r) == table;
      if PlainTable(table) {
        PlainIsSifted(p, r);
      } else {
        ListIsSifted(raw, now, table, r);
      }
    }
  }

  lemma SiftedIsFiltered(p: Plan)
    requires Sifted(p)
    ensures Filtered(p)
  {
    forall r | r in p[AssignmentTable] || r in p[CompletionTable]
      ensures RefsPresent(p, r)
    {
      assert SiftedRow(p, r) && (TableOf(r) == AssignmentTable || TableOf(r) == CompletionTable);
    }
  }

  // ------------------------------------------------------ the exact condition

  // Rows that point to an item point to one no later item of the list pushes out.
  ghost predicate ItemsSurvive(p: Plan, table: Table)
    requires WellFormed(p) && table != AlertTable
  {
    forall r, key :: r in p[table] && key in Refs(r) && key.table == ItemTable ==> Survives(p[ItemTable], key)
  }

  // A duration with the empty template id goes in only when a template has the
  // empty id, or when its own id was taken by an earlier duration.
  ghost predicate DurationsResolve(p: Plan)
    requires WellFormed(p)
  {
    forall i :: 0 <= i < |p[DurationTable]| && TemplateKey("") in Refs(p[DurationTable][i]) ==>
      TemplateKey("") in KeySet(p[TemplateTable]) || RepeatsEarlier(p[DurationTable], i)
  }

  // What a caller can check before a restore: ids and server names are not
  // repeated, prices, watches, drops and costs point to items that are not
  // pushed out by a later item of the same name, and no duration points to an
  // empty template id.
  ghost predicate Restorable(p: Plan)
    requires WellFormed(p)
  {
    && Distinct(p[ResetTable]) && Distinct(p[CharacterTable]) && Distinct(p[TemplateTable])
    && ItemsSurvive(p, PriceTable) && ItemsSurvive(p, WatchTable) && ItemsSurvive(p, DropTable)
    && ItemsSurvive(p, CostTable)
    && DurationsResolve(p)
  }

  lemma ReplaceGoes(p: Plan, table: Table)
    requires Sifted(p) && table != AlertTable && VerbOf(table) == OrReplace
    ensures Goes(p, table) <==> ItemsSurvive(p, table)
  {
    forall r | r in p[table]
      ensures RefsPresent(p, r) <==>
              forall key :: key in Refs(r) && key.table == ItemTable ==> Survives(p[ItemTable], key)
    {
      assert SiftedRow(p, r) && TableOf(r) == table;
    }
  }

  lemma NoItemRefs(p: Plan, table: Table)
    requires WellFormed(p) && table in {ItemTable, BuildScoreTable, PresetTable, RunTable}
    ensures ItemsSurvive(p, table)
  {
    forall r, key | r in p[table] && key in Refs(r) ensures key.table != ItemTable {
      assert TableOf(r) == table;
    }
  }

  lemma TicksGo(p: Plan, table: Table)
    requires Sifted(p) && table in {AssignmentTable, CompletionTable, ChargeUseTable}
    ensures Goes(p, table)
  {
    forall r | r in p[table] ensures RefsPresent(p, r) {
      assert SiftedRow(p, r) && TableOf(r) == table;
    }
  }

  lemma DurationsGo(p: Plan)
    requires Sifted(p)
    ensures Goes(p, DurationTable) <==> DurationsResolve(p)
  {
    forall r | r in p[DurationTable]
      ensures RefsPresent(p, r) <==> (TemplateKey("") in Refs(r) ==> TemplateKey("") in KeySet(p[TemplateTable]))
    {
      assert SiftedRow(p, r) && TableOf(r) == DurationTable;
    }
  }

  ghost predicate AllGo(p: Plan)
    requires WellFormed(p)
  {
    && Goes(p, ResetTable) && Goes(p, SettingTable) && Goes(p, CharacterTable) && Goes(p, TemplateTable)
    && Goes(p, DurationTable)
    && Goes(p, ItemTable) && Goes(p, PriceTable) && Goes(p, WatchTable) && Goes(p, BuildScoreTable)
    && Goes(p, PresetTable)
    && Goes(p, RunTable) && Goes(p, DropTable) && Goes(p, CostTable)
    && Goes(p, AssignmentTable) && Goes(p, CompletionTable) && Goes(p, ChargeUseTable)
  }

  lemma EveryTable(p: Plan)
    requires WellFormed(p)
    ensures GoesFrom(p, 0) <==> AllGo(p)
  {
    GoesEverywhere(p);
  }

  lemma ReplacedTablesGo(p: Plan)
    requires Sifted(p)
    ensures Goes(p, ItemTable) && Goes(p, BuildScoreTable) && Goes(p, PresetTable) && Goes(p, RunTable)
    ensures forall table :: table in {PriceTable, WatchTable, DropTable, CostTable} ==>
              (Goes(p, table) <==> ItemsSurvive(p, table))
  {
    forall table | table in {ItemTable, BuildScoreTable, PresetTable, RunTable} ensures Goes(p, table) {
      NoItemRefs(p, table);
      ReplaceGoes(p, table);
    }
    forall table | table in {PriceTable, WatchTable, DropTable, CostTable}
      ensures Goes(p, table) <==> ItemsSurvive(p, table)
    {
      ReplaceGoes(p, table);
    }
  }

  lemma PlainTablesGo(p: Plan)
    requires WellFormed(p)
    ensures Goes(p, SettingTable)
    ensures forall table :: table in {ResetTable, CharacterTable, TemplateTable} ==>
              (Goes(p, table) <==> Distinct(p[table]))
  {
  }

  // A sifted plan goes into an empty database exactly when it is restorable.
  lemma PlanGoes(p: Plan)
    requires Sifted(p)
    ensures GoesFrom(p, 0) <==> Restorable(p)
  {
    hide Goes, ItemsSurvive, DurationsResolve, SiftedRow, RefsPresent, Distinct;
    EveryTable(p);
    PlainTablesGo(p);
    ReplacedTablesGo(p);
    TicksGo(p, AssignmentTable);
    TicksGo(p, CompletionTable);
    TicksGo(p, ChargeUseTable);
    DurationsGo(p);
  }

  // ------------------------------------------------------------- main results

  lemma FillRowFacts(pair: (Id, Id), now: string)
    ensures var r := FillRow(pair, now);
            TableOf(r) == AssignmentTable && UniqueOf(r) == PairOf(pair.0, pair.1)
            && Refs(r) == {CharacterKey(pair.0), TemplateKey(pair.1)}
  {
  }

  lemma FillNeverFails(t: Store, scan: seq<(Id, Id)>, now: string)
    requires Integrity(t) && CrossJoin(scan, t)
    ensures RunBatch(t, OrIgnore, FillRows(scan, now)).Done?
  {
    hide Exec, UniqueHolds, RefsResolve, RunBatch;
    var rows := FillRows(scan, now);
    forall r | r in rows
      ensures TableOf(r) == AssignmentTable && Refs(r) <= t.Keys
    {
      var i :| 0 <= i < |scan| && rows[i] == FillRow(scan[i], now);
      FillRowFacts(scan[i], now);
      assert (scan[i].0, scan[i].1) in scan;
    }
    IgnoreNeverFails(t, rows, AssignmentTable);
  }

  // The scan order handed to a restore lists the cross join it meets.
  ghost predicate ScanFits(scan: seq<(Id, Id)>, raw: Value, now: string) {
    Loaded(raw, now).Done? ==> CrossJoin(scan, Loaded(raw, now).store)
  }

  // A restore starts from nothing, whatever the database held.
  lemma ImportForgets(t: Store, raw: Value, now: string, scan: seq<(Id, Id)>)
    requires Integrity(t)
    ensures Import(t, raw, now, scan) == Import(map[], raw, now, scan)
  {
    hide PlanOf, RunBatches, BatchesFrom;
    WipeEmpties(t);
    WipeEmpties(map[]);
  }

  // A supported backup is taken exactly when it is restorable, however many of
  // its references dangle; what it leaves satisfies every key and foreign key.
  lemma ImportOutcome(t: Store, raw: Value, now: string, scan: seq<(Id, Id)>)
    requires Integrity(t) && IsObject(raw) && SupportedVersion(Version(raw)) && ScanFits(scan, raw, now)
    ensures WellFormed(PlanOf(raw, now))
    ensures Import(t, raw, now, scan).Ok? <==> Restorable(PlanOf(raw, now))
    ensures Import(t, raw, now, scan).Ok? ==> Integrity(Import(t, raw, now, scan).value)
  {
    var p := PlanOf(raw, now);
    PlanIsSifted(raw, now);
    SiftedIsFiltered(p);
    PlanGoes(p);
    PlanOutcome(p);
    WipeEmpties(t);
    if Loaded(raw, now).Done? {
      var t' := Loaded(raw, now).store;
      FillNeverFails(t', scan, now);
      RunBatchKeepsIntegrity(t', OrIgnore, FillRows(scan, now));
    }
  }

  // Item names that are not repeated leave no item pushed out.
  lemma DistinctNamesSurvive(rows: seq<Row>, key: Key)
    requires AllIn(rows, ItemTable) && key in KeySet(rows)
    requires forall i, j :: 0 <= i < j < |rows| && rows[i].Item? && rows[j].Item? ==> rows[i].name != rows[j].name
    ensures Survives(rows, key)
  {
    var i :| 0 <= i < |rows| && KeyOf(rows[i]) == key;
    LastNamed(rows, i);
  }

  lemma LastNamed(rows: seq<Row>, i: int)
    requires AllIn(rows, ItemTable) && 0 <= i < |rows|
    requires forall i, j :: 0 <= i < j < |rows| && rows[i].Item? && rows[j].Item? ==> rows[i].name != rows[j].name
    ensures Survives(rows, KeyOf(rows[i]))
    decreases |rows| - i
  {
    if j :| i < j < |rows| && KeyOf(rows[j]) == KeyOf(rows[i]) {
      LastNamed(rows, j);
    } else {
      forall j | i < j < |rows| ensures !Clash(rows[j], rows[i]) {
        assert rows[i] in rows && rows[j] in rows;
        assert rows[i].Item? && rows[j].Item?;
      }
      assert LastWord(rows, i);
    }
  }

  // Ids, server names and item names not repeated, and no empty template id on a
  // duration: nothing else in a backup can violate a constraint.
  lemma TidyIsRestorable(raw: Value, now: string)
    requires WellFormed(PlanOf(raw, now))
    requires var p := PlanOf(raw, now);
             Distinct(p[ResetTable]) && Distinct(p[CharacterTable]) && Distinct(p[TemplateTable])
    requires var items := ListOf(raw, now, ItemTable);
             forall i, j :: 0 <= i < j < |items| && items[i].Item? && items[j].Item? ==> items[i].name != items[j].name
    requires forall r :: r in ListOf(raw, now, DurationTable) ==> TemplateKey("") !in Refs(r)
    ensures Restorable(PlanOf(raw, now))
  {
    var p := PlanOf(raw, now);
    forall table | table in {PriceTable, WatchTable, DropTable, CostTable}
      ensures ItemsSurvive(p, table)
    {
      TidyItems(raw, now, table);
    }
  }

  lemma TidyItems(raw: Value, now: string, table: Table)
    requires WellFormed(PlanOf(raw, now)) && table in {PriceTable, WatchTable, DropTable, CostTable}
    requires var items := ListOf(raw, now, ItemTable);
             forall i, j :: 0 <= i < j < |items| && items[i].Item? && items[j].Item? ==> items[i].name != items[j].name
    ensures ItemsSurvive(PlanOf(raw, now), table)
  {
    var items := ListOf(raw, now, ItemTable);
    ListInTable(raw, now, ItemTable);
    IdsAreKeys(items, ItemTable);
    KnownIds(raw, now);
    forall r, key | r in ListOf(raw, now, table) && key in Refs(r) && key.table == ItemTable
      ensures Survives(items, key)
    {
      ListIsSieved(raw, now, table, r);
      assert key == Key(ItemTable, key.id);
      DistinctNamesSurvive(items, key);
    }
  }

  // ------------------------------------------- one reference the filters miss

  // One character and one duration whose template id is the empty string.
  function EmptyTemplateBackup(): Value {
    Object(map[SchemaVersion := Number(4.0),
               Characters := Array([EmptyTemplateOwner()]),
               Name.Planner := Object(map[Durations := Array([EmptyTemplateDuration()])])])
  }

  function EmptyTemplateOwner(): Value {
    Object(map[Name.Id := Str("c"), NameField := Str("n")])
  }

  function EmptyTemplateDuration(): Value {
    Object(map[Name.Id := Str("d"), CharacterId := Str("c"), TemplateId := Str(""), StartedAt := Str("s"),
               EndedAt := Str("e")])
  }

  lemma EmptyTemplateLists()
    ensures var raw := EmptyTemplateBackup();
            && IsObject(raw) && SupportedVersion(Version(raw))
            && RawList(raw, TemplateTable) == []
            && RawList(raw, CharacterTable) == [EmptyTemplateOwner()]
            && RawList(raw, DurationTable) == [EmptyTemplateDuration()]
  {
  }

  lemma CollectOne(table: Table, k: Known, v: Value)
    ensures Collect(table, k, [v]) == match Accept(table, k, v) case None => [] case Some(r) => [r]
  {
    assert [v][..0] == [];
  }

  lemma EmptyDurationRow(k: Known)
    requires "c" in k.characters
    ensures Accept(DurationTable, k, EmptyTemplateDuration()) == Some(Duration("d", "c", Some(""), "s", "e", 0.0))
  {
  }

  lemma EmptyTemplateRows(raw: Value, now: string, c: Value)
    requires RawList(raw, TemplateTable) == [] && RawList(raw, CharacterTable) == [c]
    requires RawList(raw, DurationTable) == [EmptyTemplateDuration()]
    requires forall k :: AcceptCharacter(k, c).Some? && AcceptCharacter(k, c).value.id == "c"
    ensures ListOf(raw, now, DurationTable) == [Duration("d", "c", Some(""), "s", "e", 0.0)]
    ensures ListOf(raw, now, TemplateTable) == []
  {
    hide RawList, AcceptCharacter, AcceptDuration, KnownOf, EmptyTemplateDuration;
    var k := KnownOf(raw, now);
    CollectOne(CharacterTable, k, c);
    KnownIds(raw, now);
    var one := ListOf(raw, now, CharacterTable);
    assert |one| == 1 && one[0].id == "c";
    CollectOne(DurationTable, k, EmptyTemplateDuration());
    EmptyDurationRow(k);
  }

  // An unresolved empty template id spoils any plan.
  lemma EmptyTemplateBreaks(p: Plan)
    requires WellFormed(p) && p[TemplateTable] == [] && |p[DurationTable]| == 1
    requires TemplateKey("") in Refs(p[DurationTable][0])
    ensures !Restorable(p)
  {
    assert !RepeatsEarlier(p[DurationTable], 0);
    assert TemplateKey("") !in KeySet(p[TemplateTable]);
  }

  lemma NotRestorableFails(t: Store, raw: Value, now: string, scan: seq<(Id, Id)>)
    requires Integrity(t) && IsObject(raw) && SupportedVersion(Version(raw)) && ScanFits(scan, raw, now)
    requires WellFormed(PlanOf(raw, now)) && !Restorable(PlanOf(raw, now))
    ensures Import(t, raw, now, scan) == Err(ConstraintViolated)
  {
    ImportOutcome(t, raw, now, scan);
  }

  lemma EmptyTemplatePlan(raw: Value, now: string)
    requires RawList(raw, TemplateTable) == [] && RawList(raw, CharacterTable) == [EmptyTemplateOwner()]
    requires RawList(raw, DurationTable) == [EmptyTemplateDuration()]
    ensures WellFormed(PlanOf(raw, now)) && !Restorable(PlanOf(raw, now))
  {
    EmptyTemplateRows(raw, now, EmptyTemplateOwner());
    PlanIsWellFormed(raw, now);
    EmptyTemplateBreaks(PlanOf(raw, now));
  }

  // No id, server name or item name is repeated here, yet the restore fails on a
  // foreign key: the falsy template id is never looked up before it is inserted.
  lemma EmptyTemplateIdFails(t: Store, now: string, scan: seq<(Id, Id)>)
    requires Integrity(t) && ScanFits(scan, EmptyTemplateBackup(), now)
    ensures Import(t, EmptyTemplateBackup(), now, scan) == Err(ConstraintViolated)
  {
    EmptyTemplateLists();
    EmptyTemplatePlan(EmptyTemplateBackup(), now);
    NotRestorableFails(t, EmptyTemplateBackup(), now, scan);
  }
}
