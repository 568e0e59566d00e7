// exportUserBackup, and what importing its output brings back.
module Exporting {
  import opened Wrappers
  import opened Json
  import opened Schema
  import opened Loading
  import opened Outcomes
  import opened Importing
  import opened Backup
  import opened Restore

  // Rows of each table in the order its query lists them; ties are in any order,
  // and no property depends on the order.
  type Listings = map<Table, seq<Row>>

  ghost predicate Listing(t: Store, lists: Listings) {
    forall table :: table in lists && Lists(lists[table], t, table)
  }

  // WHERE id LIKE 'server:%'
  function ServerRows(rows: seq<Row>): seq<Row> {
    if rows == [] then []
    else
      var init, last := ServerRows(rows[..|rows| - 1]), rows[|rows| - 1];
      if SERVER_PREFIX <= last.id then init + [last] else init
  }

  const DEFAULT_KEY := Key(ResetTable, DEFAULT_ID)
  const ACTIVE_SETTING := Key(SettingTable, ACTIVE_KEY)

  function EncodeDefault(r: Row): Value {
    if r.Reset?
    then Object(map[DailyResetHhmm := Str(r.dailyReset), WeeklyResetDay := Number(r.weeklyDay),
                    UpdatedAt := Str(r.updatedAt)])
    else Null
  }

  function ActiveValue(t: Store): Value {
    if ACTIVE_SETTING in t && t[ACTIVE_SETTING].Setting? then Str(t[ACTIVE_SETTING].value) else Null
  }

  function Listed(lists: Listings, table: Table): Value {
    Array(EncodeRows(if table in lists then lists[table] else []))
  }

  function IsListed(lists: Listings, table: Table): bool {
    table in lists && lists[table] != []
  }

  function PlannerValue(default: Row, lists: Listings): Value {
    Object(map[
      Settings := Object(map[Default := EncodeDefault(default),
                             PerServer := Array(EncodeRows(ServerRows(if ResetTable in lists then lists[ResetTable]
                                                                      else [])))]),
      Templates := Listed(lists, TemplateTable),
      Assignments := Listed(lists, AssignmentTable),
      Completions := Listed(lists, CompletionTable),
      ChargeUses := Listed(lists, ChargeUseTable),
      Durations := Listed(lists, DurationTable)])
  }

  function BuildScoreValue(lists: Listings): Value {
    if !IsListed(lists, BuildScoreTable) && !IsListed(lists, PresetTable) then Undefined
    else if !IsListed(lists, PresetTable) then Object(map[PerCharacter := Listed(lists, BuildScoreTable)])
    else Object(map[PerCharacter := Listed(lists, BuildScoreTable), Presets := Listed(lists, PresetTable)])
  }

  function EconomyValue(lists: Listings): Value {
    if !IsListed(lists, ItemTable) && !IsListed(lists, PriceTable) && !IsListed(lists, WatchTable) then Undefined
    else Object(map[Items := Listed(lists, ItemTable), Prices := Listed(lists, PriceTable),
                    Watches := Listed(lists, WatchTable)])
  }

  function LootValue(lists: Listings): Value {
    if !IsListed(lists, RunTable) && !IsListed(lists, DropTable) && !IsListed(lists, CostTable) then Undefined
    else Object(map[Runs := Listed(lists, RunTable), Drops := Listed(lists, DropTable),
                    Costs := Listed(lists, CostTable)])
  }

  function BackupValue(at: string, active: Value, characters: Value, planner: Value, build: Value, economy: Value,
                       loot: Value): Value
  {
    Object(map[SchemaVersion := Number(4.0), ExportedAt := Str(at), ActiveCharacterId := active,
               Characters := characters,
               Name.Planner := planner, BuildScores := build, Economy := economy, Loot := loot])
  }

  // The default settings row; reading it creates it when it is missing.
  function DefaultRow(t: Store, at: string): Row {
    if DEFAULT_KEY in t then t[DEFAULT_KEY] else Reset(DEFAULT_ID, "09:00", 1.0, at)
  }

  // The backup of t; a part that is undefined is left out by JSON.
  function Export(t: Store, lists: Listings, at: string): Value {
    BackupValue(at, ActiveValue(t), Listed(lists, CharacterTable), PlannerValue(DefaultRow(t, at), lists),
                BuildScoreValue(lists), EconomyValue(lists), LootValue(lists))
  }

  // What a restore of t's own backup holds before the closing cross join.
  function Survivors(t: Store, now: string): Store {
    map k | k in t && Kept(t[k]) :: Restored(t[k], now)
  }

  ghost predicate AllNormal(t: Store) {
    forall k :: k in t ==> Normal(t[k])
  }

  // --------------------------------------------------- reading the parts back

  lemma TopParts(at: string, active: Value, characters: Value, planner: Value, build: Value, economy: Value,
                 loot: Value)
    ensures var v := BackupValue(at, active, characters, planner, build, economy, loot);
            && IsObject(v) && Version(v) == Number(4.0) && Get(v, ActiveCharacterId) == active
            && Get(v, Characters) == characters
            && Get(v, Name.Planner) == planner && Get(v, BuildScores) == build && Get(v, Economy) == economy
            && Get(v, Loot) == loot
  {
  }

  lemma ExportParts(t: Store, lists: Listings, at: string)
    ensures var v := Export(t, lists, at);
            && IsObject(v) && Version(v) == Number(4.0) && Get(v, ActiveCharacterId) == ActiveValue(t)
            && Get(v, Characters) == Listed(lists, CharacterTable)
            && Get(v, Name.Planner) == PlannerValue(DefaultRow(t, at), lists)
            && Get(v, BuildScores) == BuildScoreValue(lists) && Get(v, Economy) == EconomyValue(lists)
            && Get(v, Loot) == LootValue(lists)
  {
    TopParts(at, ActiveValue(t), Listed(lists, CharacterTable), PlannerValue(DefaultRow(t, at), lists),
             BuildScoreValue(lists), EconomyValue(lists), LootValue(lists));
  }

  lemma EconomyLists(raw: Value, lists: Listings, table: Table)
    requires Get(raw, Economy) == EconomyValue(lists) && table in {ItemTable, PriceTable, WatchTable} && table in lists
    ensures RawList(raw, table) == EncodeRows(lists[table])
  {
  }

  lemma LootLists(raw: Value, lists: Listings, table: Table)
    requires Get(raw, Loot) == LootValue(lists) && table in {RunTable, DropTable, CostTable} && table in lists
    ensures RawList(raw, table) == EncodeRows(lists[table])
  {
  }

  lemma BuildScoreLists(raw: Value, lists: Listings, table: Table)
    requires Get(raw, BuildScores) == BuildScoreValue(lists) && table in {BuildScoreTable, PresetTable}
    requires table in lists
    ensures RawList(raw, table) == EncodeRows(lists[table])
  {
  }

  lemma PlannerLists(raw: Value, default: Row, lists: Listings, table: Table)
    requires Get(raw, Name.Planner) == PlannerValue(default, lists) && table in lists
    requires table in {TemplateTable, AssignmentTable, CompletionTable, ChargeUseTable, DurationTable}
    ensures RawList(raw, table) == EncodeRows(lists[table])
  {
  }

  lemma SettingsParts(raw: Value, default: Row, lists: Listings)
    requires Get(raw, Name.Planner) == PlannerValue(default, lists) && Version(raw) == Number(4.0)
    requires default.Reset? && ResetTable in lists
    ensures RawList(raw, ResetTable) == EncodeRows(ServerRows(lists[ResetTable]))
    ensures DefaultHhmm(raw) == default.dailyReset && DefaultDay(raw) == default.weeklyDay
  {
  }

  // Every exported list is found again where the importer looks for it.
  lemma ExportedList(t: Store, lists: Listings, at: string, table: Table)
    requires table in lists && table !in {ResetTable, SettingTable, AlertTable}
    ensures RawList(Export(t, lists, at), table) == EncodeRows(lists[table])
  {
    ExportParts(t, lists, at);
    var raw := Export(t, lists, at);
    if table in {ItemTable, PriceTable, WatchTable} {
      EconomyLists(raw, lists, table);
    } else if table in {RunTable, DropTable, CostTable} {
      LootLists(raw, lists, table);
    } else if table in {BuildScoreTable, PresetTable} {
      BuildScoreLists(raw, lists, table);
    } else if table in {TemplateTable, AssignmentTable, CompletionTable, ChargeUseTable, DurationTable} {
      PlannerLists(raw, DefaultRow(t, at), lists, table);
    }
  }
}
