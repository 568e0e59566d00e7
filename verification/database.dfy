// The open database: its tables, the savepoint of a transaction, and the
// operations that loop over rows and run statements one by one.
module Database {
  import opened Wrappers
  import opened Json
  import opened Schema
  import opened Loading
  import opened Outcomes
  import opened Importing
  import opened Backup
  import opened Restore
  import opened Exporting
  import opened Operations
  import opened Creation
  import opened Preset
  import opened Trading
  import Text
  import opened Safety
  import opened Assignments

  class Connection {
    var tables: Store
    var saved: Option<Store>

    // init(): the empty schema and INSERT OR IGNORE of the default settings.
    constructor (now: string)
      ensures tables == map[DEFAULT_KEY := Reset(DEFAULT_ID, "09:00", 1.0, now)] && saved.None?
      ensures Consistent(tables)
    {
      tables := map[DEFAULT_KEY := Reset(DEFAULT_ID, "09:00", 1.0, now)];
      saved := None;
    }

    // db.run: false stands for the exception of a violated constraint.
    method Run(s: Stmt) returns (ok: bool)
      modifies this`tables
      ensures ok <==> Exec(old(tables), s).Done?
      ensures tables == if ok then Exec(old(tables), s).store else old(tables)
    {
      var out := Exec(tables, s);
      ok := out.Done?;
      if ok {
        tables := out.store;
      }
    }

    method Begin()
      modifies this`saved
      ensures saved == Some(tables)
    {
      saved := Some(tables);
    }

    method Commit()
      modifies this`saved
      ensures saved.None?
    {
      saved := None;
    }

    method Rollback()
      modifies this
      ensures saved.None? && tables == old(saved).GetOr(old(tables))
    {
      tables := saved.GetOr(tables);
      saved := None;
    }

    // for (const row of rows) db.run(...)
    method InsertRows(verb: Verb, rows: seq<Row>) returns (ok: bool)
      modifies this`tables
      ensures ok <==> RunBatch(old(tables), verb, rows).Done?
      ensures ok ==> tables == RunBatch(old(tables), verb, rows).store
    {
      hide Exec, RunBatch;
      var i := 0;
      NothingToRun(tables, verb, rows);
      while i < |rows|
        invariant 0 <= i <= |rows|
        invariant RunBatch(old(tables), verb, rows) == RunBatch(tables, verb, rows[i..])
      {
        BatchStep(tables, verb, rows, i);
        var done := Run(Statement(verb, rows[i]));
        if !done {
          return false;
        }
        i := i + 1;
      }
      NothingToRun(tables, verb, rows);
      return true;
    }

    // SELECT ... FROM table: its rows, each once.
    method ListTable(table: Table) returns (rows: seq<Row>)
      requires Keyed(tables)
      ensures Lists(rows, tables, table)
    {
      rows := [];
      var rest := KeysIn(tables, table);
      while rest != {}
        invariant rest <= KeysIn(tables, table)
        invariant Distinct(rows) && KeySet(rows) == KeysIn(tables, table) - rest
        invariant forall r :: r in rows ==> KeyOf(r) in tables && tables[KeyOf(r)] == r
        decreases rest
      {
        var k :| k in rest;
        ghost var before := rows;
        rows := rows + [tables[k]];
        rest := rest - {k};
        KeySetSnoc(before, tables[k]);
      }
    }

    // SELECT ... FROM table WHERE keep
    method Select(table: Table, keep: Row -> bool) returns (rows: seq<Row>)
      requires Keyed(tables)
      ensures Picks(rows, tables, table, keep)
    {
      var all := ListTable(table);
      rows := [];
      var i := 0;
      while i < |all|
        invariant 0 <= i <= |all|
        invariant forall r :: r in rows <==> keep(r) && exists j :: 0 <= j < i && all[j] == r
        invariant forall r :: r in rows ==> KeyOf(r) !in KeySet(all[i..])
        invariant Distinct(rows)
      {
        KeySetSplit(all[i..]);
        assert all[i..][1..] == all[i + 1..] && all[i..][0] == all[i];
        if keep(all[i]) {
          LaterKeysDiffer(all, i);
          rows := rows + [all[i]];
        }
        i := i + 1;
      }
      SelectedAll(tables, table, all, rows, keep);
    }

    // ------------------------------------------------------ characters, templates

    method CreateCharacter(id: Id, name: string, server: Option<string>, class_: Option<string>, now: string)
      returns (ok: bool, ghost scan: seq<Id>)
      requires Consistent(tables) && Fresh(tables, id)
      modifies this`tables
      ensures ScanOf(scan, old(tables), TemplateTable)
      ensures ok && tables == Creation.CreateCharacter(old(tables), id, name, server, class_, now, scan).store
    {
      var templates := ListTable(TemplateTable);
      var order := IdsOf(templates);
      ListedIdsScan(templates, tables, TemplateTable, order);
      CreateCharacterKeeps(tables, id, name, server, class_, now, order);
      ok := Run(Insert(Character(id, name, server, class_, now, now)));
      if ok {
        ok := InsertRows(OrIgnore, CharacterAssignments(id, order, now));
      }
      scan := order;
    }

    method CreatePlannerTemplate(id: Id, title: string, kind: TemplateKind, estimate: real, recharge: Option<real>,
                                 stacks: Option<real>,
                                 now: string, order: seq<Id>) returns (ok: bool)
      requires Consistent(tables) && Fresh(tables, id) && ScanOf(order, tables, CharacterTable)
      modifies this`tables
      ensures ok && tables == CreateTemplate(old(tables), id, title, kind, estimate, recharge, stacks, now, order).store
    {
      CreateTemplateKeeps(tables, id, title, kind, estimate, recharge, stacks, now, order);
      ok := Run(Insert(TemplateRow(id, title, kind, estimate, recharge, stacks, now, now)));
      if ok {
        ok := InsertRows(OrIgnore, TemplateAssignments(id, order, now));
      }
    }

    // Checks the arguments of a simple operation and issues its statements; the
    // first failure is thrown.
    method Perform(op: Simple) returns (ok: bool)
      modifies this`tables
      ensures Progress(tables, ok) == Performed(old(tables), op)
    {
      hide Exec, SimpleStmts, Rejected;
      if Rejected(tables, op) {
        return false;
      }
      var stmts := SimpleStmts(tables, op);
      var i := 0;
      while i < |stmts|
        invariant 0 <= i <= |stmts|
        invariant RunAll(old(tables), stmts) == RunAll(tables, stmts[i..])
      {
        assert stmts[i..][0] == stmts[i] && stmts[i..][1..] == stmts[i + 1..];
        ok := Run(stmts[i]);
        if !ok {
          return;
        }
        i := i + 1;
      }
      ok := true;
    }

    // Applies a planner preset: reads the wanted templates, clears on replace,
    // then creates those whose type and folded title are not there yet.
    method ApplyPlannerPreset(mode: Mode, templates: seq<Value>, fold: string -> string, ids: seq<Id>, now: string,
                              order: seq<Id>)
      returns (created: nat, skipped: nat)
      requires Consistent(tables)
      requires ScanOf(order, Cleared(tables, mode), CharacterTable)
      requires FreshAlong(Cleared(tables, mode), Marks(Cleared(tables, mode), fold), NormaliseAll(templates), fold, ids,
                          now, order)
      modifies this`tables
      ensures Applied(tables, created, skipped) ==
              Preset.Apply(old(tables), mode, NormaliseAll(templates), fold, ids, now, order)
      ensures Consistent(tables)
    {
      var wanted := ReadWanted(templates);
      created, skipped := ApplyWanted(mode, wanted, fold, ids, now, order);
    }

    method ApplyWanted(mode: Mode, wanted: seq<Wanted>, fold: string -> string, ids: seq<Id>, now: string,
                       order: seq<Id>)
      returns (created: nat, skipped: nat)
      requires Consistent(tables)
      requires ScanOf(order, Cleared(tables, mode), CharacterTable)
      requires FreshAlong(Cleared(tables, mode), Marks(Cleared(tables, mode), fold), wanted, fold, ids, now, order)
      modifies this`tables
      ensures Applied(tables, created, skipped) == Preset.Apply(old(tables), mode, wanted, fold, ids, now, order)
      ensures Consistent(tables)
    {
      Clear(mode, fold);
      var marks := ReadMarks(fold);
      created, skipped := CreateMissing(marks, wanted, fold, ids, now, order);
    }

    // In replace mode, DELETE FROM planner_template.
    method Clear(mode: Mode, ghost fold: string -> string)
      requires Consistent(tables)
      modifies this`tables
      ensures tables == Cleared(old(tables), mode) && Consistent(tables)
    {
      if mode == Replace {
        ghost var next := Cleared(tables, mode);
        ClearStep(tables, next, fold);
        var cleared := Run(DeleteAll(TemplateTable));
        assert tables == next;
      }
    }

    // The loop over the wanted templates.
    method CreateMissing(known: set<Mark>, wanted: seq<Wanted>, fold: string -> string, ids: seq<Id>, now: string,
                         order: seq<Id>)
      returns (created: nat, skipped: nat)
      requires Consistent(tables) && ScanOf(order, tables, CharacterTable) && known == Marks(tables, fold)
      requires FreshAlong(tables, known, wanted, fold, ids, now, order)
      modifies this`tables
      ensures Applied(tables, created, skipped) == Loop(old(tables), known, wanted, fold, ids, now, order)
      ensures Consistent(tables)
    {
      hide Consistent, CreateWanted, Fresh, ScanOf, Marks;
      var marks, rest, i := known, ids, 0;
      created, skipped := 0, 0;
      while i < |wanted|
        invariant 0 <= i <= |wanted|
        invariant Consistent(tables) && ScanOf(order, tables, CharacterTable) && marks == Marks(tables, fold)
        invariant FreshAlong(tables, marks, wanted[i..], fold, rest, now, order)
        invariant Loop(old(tables), known, wanted, fold, ids, now, order)
                  == Carried(Loop(tables, marks, wanted[i..], fold, rest, now, order), created, skipped)
      {
        assert wanted[i..][1..] == wanted[i + 1..];
        LoopStep(tables, marks, wanted[i..], fold, rest, now, order, created, skipped);
        if MarkOf(wanted[i], fold) in marks {
          skipped := skipped + 1;
        } else {
          CreatedWanted(tables, wanted[i], FirstId(rest), now, order, fold);
          CreateOne(wanted[i], FirstId(rest), now, order);
          marks, rest, created := marks + {MarkOf(wanted[i], fold)}, RestIds(rest), created + 1;
        }
        i := i + 1;
      }
    }

    method CreateOne(w: Wanted, id: Id, now: string, order: seq<Id>)
      requires Consistent(tables) && Fresh(tables, id) && ScanOf(order, tables, CharacterTable)
      modifies this`tables
      ensures tables == CreateWanted(old(tables), w, id, now, order).store
    {
      var ok := CreatePlannerTemplate(id, w.title, w.kind, w.estimate, w.recharge, w.stacks, now, order);
    }

    // The marks of the templates already there.
    method ReadMarks(fold: string -> string) returns (marks: set<Mark>)
      requires Keyed(tables)
      ensures marks == Marks(tables, fold)
    {
      var rows := ListTable(TemplateTable);
      marks := {};
      var i := 0;
      while i < |rows|
        invariant 0 <= i <= |rows|
        invariant marks == set j | 0 <= j < i && rows[j].Template? :: (rows[j].kind, fold(rows[j].title))
      {
        if rows[i].Template? {
          marks := marks + {(rows[i].kind, fold(rows[i].title))};
        }
        i := i + 1;
      }
      ListedMarks(rows, tables, fold);
    }

    // ------------------------------------------------ items, prices, loot runs

    // SELECT ... FROM economy_item WHERE name = $name LIMIT 1
    method FindItem(name: string) returns (found: Option<Row>)
      requires Integrity(tables)
      ensures found == ItemNamed(tables, name)
    {
      var rows := ListTable(ItemTable);
      var i := 0;
      while i < |rows|
        invariant 0 <= i <= |rows|
        invariant forall j :: 0 <= j < i ==> UniqueOf(rows[j]) != NameOf(name)
      {
        if UniqueOf(rows[i]) == NameOf(name) {
          NamedIsFound(tables, rows, i, name);
          return Some(rows[i]);
        }
        i := i + 1;
      }
      NoneIsNamed(tables, rows, name);
      return None;
    }

    // upsertEconomyItemByName; a blank name is an error.
    method UpsertEconomyItem(given: string, category: Option<string>, note: Option<string>, newId: Id, now: string)
      returns (ok: bool, item: Id)
      requires Integrity(tables)
      modifies this`tables
      ensures Text.Trim(given) == "" ==> !ok && tables == old(tables)
      ensures Text.Trim(given) != "" ==>
                var (s, i) := UpsertItem(old(tables), Text.Trim(given), category, note, newId, now);
                && item == i && (ok <==> Exec(old(tables), s).Done?)
                && tables == if ok then Exec(old(tables), s).store else old(tables)
      ensures Integrity(tables)
    {
      hide Exec, Integrity, Text.Trim;
      var name := Text.Trim(given);
      if name == "" {
        return false, "";
      }
      var found := FindItem(name);
      ghost var before := tables;
      var s: Stmt;
      if found.Some? && found.value.Item? && found.value.id != "" {
        var r := found.value;
        s, item := Update(Item(r.id, name, OrKept(category, r.category), OrKept(note, r.note), r.createdAt, now)), r.id;
      } else {
        s, item := Insert(Item(newId, name, TrimmedOrNone(category), TrimmedOrNone(note), now, now)), newId;
      }
      ok := Run(s);
      if ok {
        ExecKeepsIntegrity(before, s);
      }
    }

    // One line of a loot run.
    method RecordLine(run: Id, l: Line, id: Id, newId: Id, now: string) returns (ok: bool)
      requires Integrity(tables)
      modifies this`tables
      ensures Progress(tables, ok) == RunAll(old(tables), LineStmts(old(tables), run, l, id, newId, now))
      ensures Integrity(tables)
    {
      hide Exec, Integrity, UpsertItem, RunAll, Text.Trim, LineRow;
      ghost var before := tables;
      RunNone(tables);
      if !Counts(l) {
        return true;
      }
      var item := "";
      if !l.Paid? {
        Text.TrimIsProjection(l.name);
        ok, item := UpsertEconomyItem(Text.Trim(l.name), None, None, newId, now);
        RunTwo(before, UpsertItem(before, Text.Trim(l.name), None, None, newId, now).0,
               Insert(LineRow(l, run, id, item, now)));
        if !ok {
          return;
        }
      } else {
        RunOne(before, Insert(LineRow(l, run, id, "", now)));
      }
      ghost var priced := tables;
      ok := Run(Insert(LineRow(l, run, id, item, now)));
      if ok {
        ExecKeepsIntegrity(priced, Insert(LineRow(l, run, id, item, now)));
      }
    }

    // The loops over drops and costs.
    method RecordLines(run: Id, lines: seq<Line>, ids: seq<(Id, Id)>, now: string) returns (ok: bool)
      requires Integrity(tables)
      modifies this`tables
      ensures Progress(tables, ok) == RunLines(old(tables), run, lines, ids, now)
      ensures Integrity(tables)
    {
      hide Integrity, RunAll, LineStmts;
      var rest, i := ids, 0;
      assert lines[0..] == lines;
      while i < |lines|
        invariant 0 <= i <= |lines| && Integrity(tables)
        invariant RunLines(old(tables), run, lines, ids, now) == RunLines(tables, run, lines[i..], rest, now)
      {
        assert lines[i..][0] == lines[i] && lines[i..][1..] == lines[i + 1..];
        ok := RecordLine(run, lines[i], FirstPair(rest).0, FirstPair(rest).1, now);
        if !ok {
          return;
        }
        rest, i := RestPairs(rest), i + 1;
      }
      ok := true;
    }

    // createLootRun: all of it in one transaction, or none.
    method CreateLootRun(id: Id, input: RunInput, parse: string -> Option<int>, ids: seq<(Id, Id)>, now: string)
      returns (ok: bool)
      requires Integrity(tables)
      modifies this
      ensures Progress(tables, ok) == CreateRun(old(tables), id, input, parse, ids, now)
      ensures Integrity(tables)
    {
      hide Integrity, Exec, RunLines, RunRow;
      if input.owner == "" || Text.Trim(input.content) == "" || CharacterKey(input.owner) !in tables {
        return false;
      }
      var row := RunRow(tables, id, input, parse, now);
      ghost var before := tables;
      Begin();
      ok := Run(Insert(row));
      if ok {
        ExecKeepsIntegrity(before, Insert(row));
        ok := RecordLines(id, input.lines, ids, now);
      }
      if ok {
        Commit();
      } else {
        Rollback();
      }
    }

    // triggerWatchesForPrice, the loop over the query's rows.
    method Trigger(watches: seq<Row>, ids: seq<Id>, name: string, price: int, at: string) returns (ok: bool)
      modifies this`tables
      ensures Progress(tables, ok) == TriggerWatches(old(tables), watches, ids, name, price, at)
    {
      hide Exec, Compare;
      var rest, i := ids, 0;
      assert watches[0..] == watches;
      while i < |watches|
        invariant 0 <= i <= |watches|
        invariant TriggerWatches(old(tables), watches, ids, name, price, at) ==
                  TriggerWatches(tables, watches[i..], rest, name, price, at)
      {
        assert watches[i..][0] == watches[i] && watches[i..][1..] == watches[i + 1..];
        if SetsOff(watches[i], price) {
          ok := Run(Insert(AlertOf(watches[i], FirstOf(rest), name, price, at)));
          if !ok {
            return;
          }
        }
        rest, i := RestOf(rest), i + 1;
      }
      ok := true;
    }

    // addEconomyPrice
    method AddEconomyPrice(market: string, name: string, amount: real, recordedAt: string, id: Id, newId: Id,
                           alertIds: seq<Id>,
                           now: string) returns (ok: bool, watches: seq<Row>)
      requires Integrity(tables)
      modifies this`tables
      ensures Progress(tables, ok) ==
              AddPrice(old(tables), market, name, amount, recordedAt, id, newId, watches, alertIds, now)
      ensures ok ==>
                Picks(watches, old(tables), WatchTable,
                      WatchingOf(Text.Trim(market), PricedItem(old(tables), name, newId, now)))
      ensures ok && FreshPrice(old(tables), id, newId, alertIds, |watches|) ==>
                OneAlertEach(old(tables), tables, Text.Trim(market), PricedItem(old(tables), name, newId, now),
                             Text.Trim(name),
                             FloorNat(amount), recordedAt)
    {
      hide Integrity, Exec, UpsertItem, TriggerWatches, RunAll, Picks, FreshPrice, OneAlertEach;
      watches := [];
      if Text.Trim(market) == "" || Text.Trim(name) == "" {
        return false, [];
      }
      ghost var before := tables;
      var item;
      Text.TrimIsProjection(name);
      ok, item := UpsertEconomyItem(Text.Trim(name), None, None, newId, now);
      var row := Row.Price(id, Text.Trim(market), item, FloorNat(amount), recordedAt, now, now);
      RunTwo(before, UpsertItem(before, Text.Trim(name), None, None, newId, now).0, Insert(row));
      if !ok {
        return;
      }
      ghost var upserted := tables;
      ok := Run(Insert(row));
      if !ok {
        return;
      }
      ExecKeepsIntegrity(upserted, Insert(row));
      PricingKeepsWatches(before, Text.Trim(name), newId, now, row);
      watches := ActiveWatches(Text.Trim(market), item);
      SamePicks(before, tables, WatchTable, watches, WatchingOf(Text.Trim(market), item));
      ok := Trigger(watches, alertIds, Text.Trim(name), FloorNat(amount), recordedAt);
      if FreshPrice(before, id, newId, alertIds, |watches|) {
        FreshPriceAlerts(before, market, name, amount, recordedAt, id, newId, watches, alertIds, now);
      }
    }

    // SELECT ... FROM economy_price_watch WHERE server = $server AND item_id =
    // $itemId AND active = 1
    method ActiveWatches(market: string, item: Id) returns (watches: seq<Row>)
      requires Integrity(tables)
      ensures Picks(watches, tables, WatchTable, WatchingOf(market, item))
    {
      var keep := (w: Row) => w.Watch? && w.market == market && w.itemId == item && w.active;
      watches := Select(WatchTable, keep);
      PicksAlike(watches, tables, WatchTable, keep, WatchingOf(market, item));
    }

    // ------------------------------------------------------------ the backup

    // DELETE FROM the root tables, one by one.
    method WipeTables(roots: seq<Table>)
      modifies this`tables
      ensures tables == Wipe(old(tables), roots)
    {
      hide Exec, Wipe;
      var i := 0;
      NothingToWipe(tables, roots);
      while i < |roots|
        invariant 0 <= i <= |roots|
        invariant Wipe(old(tables), roots) == Wipe(tables, roots[i..])
      {
        WipeStep(tables, roots, i);
        var cleared := Run(DeleteAll(roots[i]));
        i := i + 1;
      }
      NothingToWipe(tables, roots);
    }

    // The insert loops, table by table, up to the first violated constraint.
    method RunPlan(p: Plan) returns (ok: bool)
      requires WellFormed(p)
      modifies this`tables
      ensures ok <==> RunBatches(old(tables), BatchesFrom(p, 0)).Done?
      ensures ok ==> tables == RunBatches(old(tables), BatchesFrom(p, 0)).store
    {
      var i := 0;
      while i < |ORDER|
        invariant 0 <= i <= |ORDER|
        invariant RunBatches(old(tables), BatchesFrom(p, 0)) == RunBatches(tables, BatchesFrom(p, i))
      {
        OrderPosition(i);
        BatchesStep(p, tables, i);
        ok := InsertRows(VerbOf(ORDER[i]), p[ORDER[i]]);
        if !ok {
          return;
        }
        i := i + 1;
      }
      ok := true;
    }

    // The part of importUserBackup inside BEGIN ... COMMIT.
    method Refill(p: Plan, now: string) returns (ok: bool, scan: seq<(Id, Id)>)
      requires WellFormed(p) && Integrity(tables)
      modifies this`tables
      ensures RefillFits(old(tables), p, scan)
      ensures match Refilled(old(tables), p, now, scan)
              case ConstraintFailed => !ok
              case Done(t) => ok && tables == t
    {
      ghost var before := tables;
      WipeLeaves(tables, WIPED);
      WipeTables(WIPED);
      ghost var wiped := tables;
      scan := [];
      ok := RunPlan(p);
      if ok {
        RunBatchesKeepIntegrity(wiped, BatchesFrom(p, 0));
        scan := ReadCrossJoin();
        ok := InsertRows(OrIgnore, FillRows(scan, now));
      }
    }

    // SELECT c.id, t.id FROM app_character c CROSS JOIN planner_template t
    method ReadCrossJoin() returns (scan: seq<(Id, Id)>)
      requires Integrity(tables)
      ensures CrossJoin(scan, tables)
    {
      var characters := ListTable(CharacterTable);
      var templates := ListTable(TemplateTable);
      ListedIdsScan(characters, tables, CharacterTable, IdsOf(characters));
      ListedIdsScan(templates, tables, TemplateTable, IdsOf(templates));
      scan := Pairs(IdsOf(characters), IdsOf(templates));
      PairsAreProduct(IdsOf(characters), IdsOf(templates));
    }

    // Restores a backup in one transaction, or changes nothing.
    method ImportUserBackup(raw: Value, now: string)
      returns (result: Result<(), ImportError>, ghost scan: seq<(Id, Id)>)
      requires Integrity(tables)
      modifies this
      ensures Supported(raw) ==> ScanFits(scan, raw, now)
      ensures match Import(old(tables), raw, now, scan)
              case Ok(t) => result == Ok(()) && tables == t
              case Err(e) => result == Err(e) && tables == old(tables)
    {
      scan := [];
      if !IsObject(raw) {
        return Err(BadBackup), scan;
      }
      if !SupportedVersion(Version(raw)) {
        return Err(UnsupportedVersion), scan;
      }
      var p := ReadPlan(raw, now);
      PlanIsWellFormed(raw, now);
      Begin();
      var ok, join := Refill(p, now);
      if ok {
        Commit();
        result := Ok(());
      } else {
        Rollback();
        result := Err(ConstraintViolated);
      }
      scan := join;
      ImportIsRefill(old(tables), raw, now, join, p);
    }

    // One SELECT per table.
    method ListAll() returns (found: Listings)
      requires Keyed(tables)
      ensures Listing(tables, found)
    {
      found := map[];
      var i := 0;
      while i < |TABLES|
        invariant 0 <= i <= |TABLES|
        invariant forall table: Table :: Position(table) < i ==> table in found && Lists(found[table], tables, table)
      {
        TablePosition(i);
        var table := TABLES[i];
        var rows := ListTable(table);
        found := found[table := rows];
        forall x: Table | Position(x) == i ensures x == table { SamePosition(x, table); }
        i := i + 1;
      }
    }

    // The backup record of the tables.
    method ExportUserBackup(at: string) returns (backup: Value, lists: Listings)
      requires Consistent(tables)
      ensures Listing(tables, lists) && backup == Export(tables, lists, at)
    {
      lists := ListAll();
      backup := Export(tables, lists, at);
    }
  }

  const TABLES: seq<Table> := ORDER + [AlertTable]

  lemma TablePosition(i: int)
    requires 0 <= i < |TABLES|
    ensures Position(TABLES[i]) == i
  {
  }

  // The UUIDs of a price are new and different, one for each watch read.
  ghost predicate FreshPrice(t: Store, id: Id, newId: Id, alertIds: seq<Id>, watches: nat) {
    && newId != "" && ItemKey(newId) !in t && Key(PriceTable, id) !in t
    && |alertIds| == watches && FreshAlerts(t, alertIds)
  }

  lemma FreshPriceAlerts(t: Store, market: string, name: string, amount: real, recordedAt: string, id: Id, newId: Id,
                         watches: seq<Row>, alertIds: seq<Id>, now: string)
    requires Integrity(t) && FreshPrice(t, id, newId, alertIds, |watches|)
    requires Picks(watches, t, WatchTable, WatchingOf(Text.Trim(market), PricedItem(t, name, newId, now)))
    ensures var p := AddPrice(t, market, name, amount, recordedAt, id, newId, watches, alertIds, now);
            p.ok ==> OneAlertEach(t, p.store, Text.Trim(market), PricedItem(t, name, newId, now), Text.Trim(name),
                                  FloorNat(amount), recordedAt)
  {
    hide AddPrice, OneAlertEach, Picks, Integrity, FreshAlerts;
    PriceAlerts(t, market, name, amount, recordedAt, id, newId, watches, alertIds, now);
  }

  // The item and its entry leave the watches as they are.
  lemma PricingKeepsWatches(t: Store, name: string, newId: Id, now: string, row: Row)
    requires Integrity(t) && row.Price?
    requires var s := UpsertItem(t, name, None, None, newId, now).0;
             Exec(t, s).Done? && Exec(Exec(t, s).store, Insert(row)).Done?
    ensures var t' := Exec(Exec(t, UpsertItem(t, name, None, None, newId, now).0).store, Insert(row)).store;
            SameTable(t, t', WatchTable)
  {
    hide Delete, Clashing, Refs, OrKept, TrimmedOrNone, UniqueHolds, RefsResolve;
  }

  lemma LaterKeysDiffer(rows: seq<Row>, i: nat)
    requires Distinct(rows) && i < |rows|
    ensures KeyOf(rows[i]) !in KeySet(rows[i + 1..])
  {
    var rest := rows[i + 1..];
    forall k | k in KeySet(rest) ensures k != KeyOf(rows[i]) {
      var j :| 0 <= j < |rest| && KeyOf(rest[j]) == k;
      assert rest[j] == rows[i + 1 + j];
    }
  }

  lemma SelectedAll(t: Store, table: Table, all: seq<Row>, rows: seq<Row>, keep: Row -> bool)
    requires Keyed(t) && Lists(all, t, table) && Distinct(rows)
    requires forall r :: r in rows <==> keep(r) && exists j :: 0 <= j < |all| && all[j] == r
    ensures Picks(rows, t, table, keep)
  {
    forall r | r in rows ensures KeyOf(r) in t && t[KeyOf(r)] == r && TableOf(r) == table {
      var j :| 0 <= j < |all| && all[j] == r;
      assert all[j] in all && KeyOf(all[j]) in KeySet(all);
    }
    forall k | k in t && k.table == table && keep(t[k]) ensures t[k] in rows {
      assert k in KeySet(all);
      var j :| 0 <= j < |all| && KeyOf(all[j]) == k;
      assert all[j] in all;
    }
  }

  lemma NamedIsFound(t: Store, rows: seq<Row>, i: nat, name: string)
    requires Integrity(t) && Lists(rows, t, ItemTable) && i < |rows| && UniqueOf(rows[i]) == NameOf(name)
    ensures ItemNamed(t, name) == Some(rows[i])
  {
    hide RefsResolve;
    assert rows[i] in rows && t[KeyOf(rows[i])] == rows[i];
    forall k | k in t && UniqueOf(t[k]) == NameOf(name) ensures t[k] == rows[i] {
      assert Clash(t[k], t[KeyOf(rows[i])]);
    }
  }

  lemma NoneIsNamed(t: Store, rows: seq<Row>, name: string)
    requires Keyed(t) && Lists(rows, t, ItemTable) && forall j :: 0 <= j < |rows| ==> UniqueOf(rows[j]) != NameOf(name)
    ensures ItemNamed(t, name) == None
  {
    forall k | k in t ensures UniqueOf(t[k]) != NameOf(name) {
      assert KeyOf(t[k]) == k;
      if t[k].Item? {
        assert k in KeySet(rows);
        var j :| 0 <= j < |rows| && KeyOf(rows[j]) == k;
        assert rows[j] in rows;
      }
    }
  }

  lemma BatchStep(t: Store, verb: Verb, rows: seq<Row>, i: nat)
    requires i < |rows|
    ensures RunBatch(t, verb, rows[i..]) ==
            match Exec(t, Statement(verb, rows[i]))
            case ConstraintFailed => ConstraintFailed
            case Done(t') => RunBatch(t', verb, rows[i + 1..])
  {
    hide Exec;
    assert rows[i..][0] == rows[i] && rows[i..][1..] == rows[i + 1..];
  }

  lemma WipeStep(t: Store, roots: seq<Table>, i: nat)
    requires i < |roots|
    ensures Exec(t, DeleteAll(roots[i])).Done?
    ensures Wipe(t, roots[i..]) == Wipe(Exec(t, DeleteAll(roots[i])).store, roots[i + 1..])
  {
    hide Delete;
    assert roots[i..][0] == roots[i] && roots[i..][1..] == roots[i + 1..];
  }

  lemma NothingToWipe(t: Store, roots: seq<Table>)
    ensures Wipe(t, roots[|roots|..]) == t && Wipe(t, roots[0..]) == Wipe(t, roots)
  {
    assert roots[0..] == roots;
  }

  lemma NothingToRun(t: Store, verb: Verb, rows: seq<Row>)
    ensures RunBatch(t, verb, rows[|rows|..]) == Done(t) && RunBatch(t, verb, rows[0..]) == RunBatch(t, verb, rows)
  {
    assert rows[0..] == rows;
  }

  lemma ClearStep(t: Store, next: Store, fold: string -> string)
    requires Consistent(t) && next == Cleared(t, Replace)
    ensures Exec(t, DeleteAll(TemplateTable)) == Done(next) && Consistent(next)
  {
    hide Consistent, Marks, Complete;
    ClearedKeeps(t, fold);
  }

  function Carried(a: Applied, created: nat, skipped: nat): Applied {
    Applied(a.store, a.created + created, a.skipped + skipped)
  }

  // One turn of the loop moves a count from the rest to the counters.
  lemma LoopStep(t: Store, marks: set<Mark>, wanted: seq<Wanted>, fold: string -> string, ids: seq<Id>, now: string,
                 order: seq<Id>,
                 created: nat, skipped: nat)
    requires wanted != []
    ensures Carried(Loop(t, marks, wanted, fold, ids, now, order), created, skipped) ==
            var w := wanted[0];
            if MarkOf(w, fold) in marks
            then Carried(Loop(t, marks, wanted[1..], fold, ids, now, order), created, skipped + 1)
            else Carried(Loop(CreateWanted(t, w, FirstId(ids), now, order).store, marks + {MarkOf(w, fold)},
                              wanted[1..], fold,
                              RestIds(ids), now, order), created + 1, skipped)
  {
  }

  ghost function Refilled(t: Store, p: Plan, now: string, scan: seq<(Id, Id)>): Outcome
    requires WellFormed(p)
  {
    match RunBatches(Wipe(t, WIPED), BatchesFrom(p, 0))
    case ConstraintFailed => ConstraintFailed
    case Done(t') => RunBatch(t', OrIgnore, FillRows(scan, now))
  }

  ghost predicate RefillFits(t: Store, p: Plan, scan: seq<(Id, Id)>)
    requires WellFormed(p)
  {
    var out := RunBatches(Wipe(t, WIPED), BatchesFrom(p, 0));
    out.Done? ==> CrossJoin(scan, out.store)
  }

  predicate Supported(raw: Value) { IsObject(raw) && SupportedVersion(Version(raw)) }

  lemma ImportIsRefill(t: Store, raw: Value, now: string, scan: seq<(Id, Id)>, p: Plan)
    requires Integrity(t) && Supported(raw) && p == PlanOf(raw, now) && WellFormed(p)
    ensures Import(t, raw, now, scan) ==
            match Refilled(t, p, now, scan) case ConstraintFailed => Err(ConstraintViolated) case Done(t') => Ok(t')
    ensures RefillFits(t, p, scan) ==> ScanFits(scan, raw, now)
  {
    WipeEmpties(t);
  }

  // for (const x of list) { ...continue... rows.push(...) }
  method CollectRows(table: Table, k: Known, vs: seq<Value>) returns (rows: seq<Row>)
    ensures rows == Collect(table, k, vs)
  {
    rows := [];
    var i := 0;
    while i < |vs|
      invariant 0 <= i <= |vs|
      invariant rows == Collect(table, k, vs[..i])
    {
      assert vs[..i + 1][..i] == vs[..i] && vs[..i + 1][i] == vs[i];
      match Accept(table, k, vs[i]) {
        case None =>
        case Some(r) => rows := rows + [r];
      }
      i := i + 1;
    }
    assert vs[..|vs|] == vs;
  }

  // The id sets, from the lists they are read off.
  method ReadKnown(raw: Value, now: string) returns (k: Known)
    ensures k == KnownOf(raw, now)
  {
    k := KnownBefore(raw, now);
    var characters := CollectRows(CharacterTable, k, RawList(raw, CharacterTable));
    var templates := CollectRows(TemplateTable, k, RawList(raw, TemplateTable));
    var items := CollectRows(ItemTable, k, RawList(raw, ItemTable));
    k := k.(characters := Ids(characters), templates := Ids(templates), items := Ids(items));
    var runs := CollectRows(RunTable, k, RawList(raw, RunTable));
    k := k.(runs := Ids(runs));
  }

  // Every list of a raw backup.
  method ReadPlan(raw: Value, now: string) returns (p: Plan)
    ensures p == PlanOf(raw, now)
  {
    var k := ReadKnown(raw, now);
    p := map[];
    var i := 0;
    while i < |ORDER|
      invariant 0 <= i <= |ORDER|
      invariant forall table :: table in p <==> table != AlertTable && Position(table) < i
      invariant forall table :: table in p ==> p[table] == RowsFor(raw, now, table)
    {
      OrderPosition(i);
      var table := ORDER[i];
      var rows := CollectRows(table, k, RawList(raw, table));
      if table == ResetTable {
        rows := [Reset(DEFAULT_ID, DefaultHhmm(raw), DefaultDay(raw), now)] + rows;
      } else if table == SettingTable {
        rows := if ActiveOf(raw) == "" then [] else [Setting(ACTIVE_KEY, ActiveOf(raw))];
      }
      p := p[table := rows];
      forall x: Table | Position(x) == i ensures x == table { SamePosition(x, table); }
      i := i + 1;
    }
    forall table | table != AlertTable ensures Position(table) < |ORDER| { PositionInOrder(table); }
  }

  method ReadWanted(templates: seq<Value>) returns (wanted: seq<Wanted>)
    ensures wanted == NormaliseAll(templates)
  {
    hide Normalise;
    wanted := [];
    var i := 0;
    while i < |templates|
      invariant 0 <= i <= |templates|
      invariant wanted == NormaliseAll(templates[..i])
    {
      assert templates[..i + 1][..i] == templates[..i] && templates[..i + 1][i] == templates[i];
      match Normalise(templates[i]) {
        case None =>
        case Some(w) => wanted := wanted + [w];
      }
      i := i + 1;
    }
    assert templates[..|templates|] == templates;
  }

  function Pairs(cs: seq<Id>, xs: seq<Id>): seq<(Id, Id)> {
    if cs == [] then [] else seq(|xs|, i requires 0 <= i < |xs| => (cs[0], xs[i])) + Pairs(cs[1..], xs)
  }

  lemma {:induction false} PairsMembers(cs: seq<Id>, xs: seq<Id>)
    ensures forall c, x :: (c, x) in Pairs(cs, xs) <==> c in cs && x in xs
    decreases cs
  {
    if cs != [] {
      PairsMembers(cs[1..], xs);
      var row := seq(|xs|, i requires 0 <= i < |xs| => (cs[0], xs[i]));
      forall c, x ensures (c, x) in row <==> c == cs[0] && x in xs {
        if c == cs[0] && x in xs {
          var i :| 0 <= i < |xs| && xs[i] == x;
          assert row[i] == (c, x);
        }
      }
    }
  }

  lemma {:induction false} PairsAreProduct(cs: seq<Id>, xs: seq<Id>)
    requires forall i, j :: 0 <= i < j < |cs| ==> cs[i] != cs[j]
    requires forall i, j :: 0 <= i < j < |xs| ==> xs[i] != xs[j]
    ensures forall c, x :: (c, x) in Pairs(cs, xs) <==> c in cs && x in xs
    ensures forall i, j :: 0 <= i < j < |Pairs(cs, xs)| ==> Pairs(cs, xs)[i] != Pairs(cs, xs)[j]
    decreases cs
  {
    PairsMembers(cs, xs);
    if cs != [] {
      PairsAreProduct(cs[1..], xs);
      PairsMembers(cs[1..], xs);
      assert cs[0] !in cs[1..];
      var row := seq(|xs|, i requires 0 <= i < |xs| => (cs[0], xs[i]));
      var rest := Pairs(cs[1..], xs);
      forall i, j | 0 <= i < j < |row + rest|
        ensures (row + rest)[i] != (row + rest)[j]
      {
        if i < |row| <= j {
          assert rest[j - |row|] in rest && (rest[j - |row|].0, rest[j - |row|].1) in rest;
          assert rest[j - |row|].0 in cs[1..];
        }
      }
    }
  }

  lemma ListedMarks(rows: seq<Row>, t: Store, fold: string -> string)
    requires Lists(rows, t, TemplateTable) && Keyed(t)
    ensures Marks(t, fold) == set j | 0 <= j < |rows| && rows[j].Template? :: (rows[j].kind, fold(rows[j].title))
  {
    forall k | k in t && t[k].Template?
      ensures exists j :: 0 <= j < |rows| && rows[j] == t[k]
    {
      assert KeyOf(t[k]) == k && k in KeySet(rows);
      var j :| 0 <= j < |rows| && KeyOf(rows[j]) == k;
      assert rows[j] in rows;
    }
    forall j | 0 <= j < |rows| ensures KeyOf(rows[j]) in t && t[KeyOf(rows[j])] == rows[j] {
      assert rows[j] in rows;
    }
  }

  function IdsOf(rows: seq<Row>): seq<Id> {
    seq(|rows|, i requires 0 <= i < |rows| => rows[i].id)
  }

  lemma ListedIdsScan(rows: seq<Row>, t: Store, table: Table, order: seq<Id>)
    requires Lists(rows, t, table) && order == IdsOf(rows)
    ensures ScanOf(order, t, table)
  {
    forall i | 0 <= i < |rows| ensures KeyOf(rows[i]) == Key(table, order[i]) {
      assert KeyOf(rows[i]) in KeySet(rows);
    }
    forall id ensures id in order <==> Key(table, id) in t {
      if id in order {
        var i :| 0 <= i < |order| && order[i] == id;
        assert rows[i] in rows && KeyOf(rows[i]) == Key(table, id);
      }
      if Key(table, id) in t {
        assert Key(table, id) in KeySet(rows);
        var i :| 0 <= i < |rows| && KeyOf(rows[i]) == Key(table, id);
        assert order[i] == id;
      }
    }
    forall i, j | 0 <= i < j < |order| ensures order[i] != order[j] {
      assert KeyOf(rows[i]) != KeyOf(rows[j]);
    }
  }
}
