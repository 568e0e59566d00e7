// Whole runs of the application: what holds of every database it can reach.
module Runs {
  import opened Wrappers
  import opened Json
  import opened Schema
  import opened Loading
  import opened Outcomes
  import opened Importing
  import opened Backup
  import opened Restore
  import opened Exporting
  import opened RoundTrip
  import opened Safety
  import opened Assignments
  import opened Completing
  import opened Operations
  import opened Creation
  import opened Preset
  import opened Trading
  import opened Faithful
  import Text

  // ------------------------------------------------- a restore leaves order

  lemma ProfileNormal(table: Table, k: Known, v: Value)
    requires table in {ResetTable, CharacterTable, BuildScoreTable, TemplateTable} && Accept(table, k, v).Some?
    ensures Normal(Accept(table, k, v).value)
  {
    var server := Text.Trim(GetString(v, Server, ""));
    Text.TrimIsProjection(GetString(v, Server, ""));
    assert ServerOf(SERVER_PREFIX + server) == server;
  }

  lemma {:induction false} AsStatsNormal(vs: seq<Value>)
    requires AsStats(vs).Some?
    ensures NormalStats(AsStats(vs).value)
    decreases vs
  {
    if vs != [] {
      AsStatsNormal(vs[..|vs| - 1]);
    }
  }

  lemma PresetNormal(k: Known, v: Value)
    requires AcceptPreset(k, v).Some?
    ensures Normal(AcceptPreset(k, v).value)
  {
    Text.TrimIsProjection(GetString(v, NameField, ""));
    AsStatsNormal(Get(v, Stats).items);
  }

  lemma TradeNormal(table: Table, k: Known, v: Value)
    requires table in {ItemTable, PriceTable, WatchTable} && Accept(table, k, v).Some?
    ensures Normal(Accept(table, k, v).value)
  {
    Text.TrimIsProjection(GetString(v, NameField, ""));
    Text.TrimIsProjection(GetString(v, Server, ""));
  }

  lemma LootNormal(table: Table, k: Known, v: Value)
    requires table in {RunTable, DropTable, CostTable} && Accept(table, k, v).Some?
    ensures Normal(Accept(table, k, v).value)
  {
    Text.TrimIsProjection(GetString(v, Content, ""));
    Text.TrimIsProjection(GetString(v, ItemName, ""));
  }

  lemma TickNormal(r: Row)
    requires r.Assignment? || r.Completion? || r.ChargeUse? || r.Duration?
    ensures Normal(r)
  {
  }

  // Whatever raw value it is read from, an accepted row is in normal form.
  lemma AcceptedNormal(table: Table, k: Known, v: Value)
    requires Accept(table, k, v).Some?
    ensures Normal(Accept(table, k, v).value)
  {
    AcceptedRow(table, k, v);
    if table in {ResetTable, CharacterTable, BuildScoreTable, TemplateTable} {
      ProfileNormal(table, k, v);
    } else if table == PresetTable {
      PresetNormal(k, v);
    } else if table in {ItemTable, PriceTable, WatchTable} {
      TradeNormal(table, k, v);
    } else if table in {RunTable, DropTable, CostTable} {
      LootNormal(table, k, v);
    } else {
      TickNormal(Accept(table, k, v).value);
    }
  }

  lemma ListIsNormal(raw: Value, now: string, table: Table, r: Row)
    requires r in ListOf(raw, now, table)
    ensures Normal(r)
  {
    var k, vs := KnownOf(raw, now), RawList(raw, table);
    CollectedRows(table, k, vs);
    var v :| v in vs && Accept(table, k, v) == Some(r);
    AcceptedNormal(table, k, v);
  }

  lemma PlanIsNormal(raw: Value, now: string, table: Table, r: Row)
    requires table != AlertTable && r in RowsFor(raw, now, table)
    ensures Normal(r)
  {
    if r in ListOf(raw, now, table) {
      ListIsNormal(raw, now, table, r);
    }
  }

  lemma ExecKeepsNormal(t: Store, verb: Verb, r: Row)
    requires AllNormal(t) && Normal(r) && Exec(t, Statement(verb, r)).Done?
    ensures AllNormal(Exec(t, Statement(verb, r)).store)
  {
    if verb == OrReplace {
      DeleteKeepsNormal(t, Clashing(t, r));
    }
  }

  // A row nothing replaces and that hangs on no parent stays.
  lemma ExecKeepsRoot(t: Store, verb: Verb, r: Row, k: Key)
    requires Keyed(t) && k in t && Parents(t[k]) == {} && k.table != TableOf(r) && Exec(t, Statement(verb, r)).Done?
    ensures k in Exec(t, Statement(verb, r)).store
  {
    hide Refs, Delete, Clashing;
    if verb == OrReplace {
      ReplaceKeepsRoot(t, r, k);
    }
  }

  lemma ReplaceKeepsRoot(t: Store, r: Row, k: Key)
    requires Keyed(t) && k in t && Parents(t[k]) == {} && k.table != TableOf(r)
    ensures k in Delete(t, Clashing(t, r))
  {
    hide Delete, Clash;
    var gone := Clashing(t, r);
    if k in gone { UniqueNamesTable(t[k], r); }
    if k !in Delete(t, gone) { Deleted(t, gone, k); }
  }

  lemma {:induction false} BatchKeeps(t: Store, verb: Verb, rows: seq<Row>, table: Table)
    requires Integrity(t) && AllNormal(t) && AllIn(rows, table) && (forall r :: r in rows ==> Normal(r))
    requires RunBatch(t, verb, rows).Done?
    ensures AllNormal(RunBatch(t, verb, rows).store)
    ensures DEFAULT_KEY in t && table != ResetTable ==> DEFAULT_KEY in RunBatch(t, verb, rows).store
    decreases rows
  {
    if rows != [] {
      var r := rows[0];
      assert r in rows;
      ExecKeepsNormal(t, verb, r);
      ExecKeepsIntegrity(t, Statement(verb, r));
      if DEFAULT_KEY in t && table != ResetTable {
        assert KeyOf(t[DEFAULT_KEY]) == DEFAULT_KEY;
        ExecKeepsRoot(t, verb, r, DEFAULT_KEY);
      }
      BatchKeeps(Exec(t, Statement(verb, r)).store, verb, rows[1..], table);
    }
  }

  lemma {:induction false} BatchesKeep(p: Plan, t: Store, i: nat)
    requires WellFormed(p) && 1 <= i <= |ORDER| && Consistent(t) && RunBatches(t, BatchesFrom(p, i)).Done?
    requires forall table, r :: table != AlertTable && r in p[table] ==> Normal(r)
    ensures Consistent(RunBatches(t, BatchesFrom(p, i)).store)
    decreases |ORDER| - i
  {
    if i < |ORDER| {
      OrderPosition(i);
      OrderPosition(0);
      BatchesStep(p, t, i);
      BatchKeeps(t, VerbOf(ORDER[i]), p[ORDER[i]], ORDER[i]);
      RunBatchKeepsIntegrity(t, VerbOf(ORDER[i]), p[ORDER[i]]);
      BatchesKeep(p, RunBatch(t, VerbOf(ORDER[i]), p[ORDER[i]]).store, i + 1);
    }
  }

  lemma FirstBatch(p: Plan)
    requires WellFormed(p) && (forall r :: r in p[ResetTable] ==> Normal(r)) && DEFAULT_KEY in KeySet(p[ResetTable])
    requires RunBatch(map[], PlainInsert, p[ResetTable]).Done?
    ensures Consistent(RunBatch(map[], PlainInsert, p[ResetTable]).store)
  {
    var rows := p[ResetTable];
    PlainInsertOutcome(map[], rows, ResetTable);
    RunBatchKeepsIntegrity(map[], PlainInsert, rows);
    BatchKeeps(map[], PlainInsert, rows, ResetTable);
  }

  lemma LoadedIsConsistent(raw: Value, now: string)
    requires Loaded(raw, now).Done?
    ensures Consistent(Loaded(raw, now).store)
  {
    var p := PlanOf(raw, now);
    PlanIsWellFormed(raw, now);
    forall table, r | table != AlertTable && r in p[table] ensures Normal(r) {
      PlanIsNormal(raw, now, table, r);
    }
    assert KeyOf(p[ResetTable][0]) == DEFAULT_KEY;
    BatchesStep(p, map[], 0);
    FirstBatch(p);
    BatchesKeep(p, RunBatch(map[], PlainInsert, p[ResetTable]).store, 1);
  }

  lemma FillRowsNormal(scan: seq<(Id, Id)>, now: string)
    ensures forall r :: r in FillRows(scan, now) ==> Normal(r)
  {
  }

  // Whatever a restore accepts, it leaves a consistent database.
  lemma ImportIsConsistent(t: Store, raw: Value, now: string, scan: seq<(Id, Id)>)
    requires Integrity(t) && Import(t, raw, now, scan).Ok?
    ensures Consistent(Import(t, raw, now, scan).value)
  {
    WipeEmpties(t);
    LoadedIsConsistent(raw, now);
    FillRowsNormal(scan, now);
    BatchKeepsNormal(Loaded(raw, now).store, FillRows(scan, now));
  }

  // --------------------------------------------------------------- operations

  datatype Op =
    | Plain(op: Simple)
    | NewCharacter(id: Id, name: string, server: Option<string>, class_: Option<string>, now: string, scan: seq<Id>)
    | NewTemplate(id: Id, title: string, kind: TemplateKind, estimate: real, recharge: Option<real>,
                  stacks: Option<real>, now: string,
                  scan: seq<Id>)
    | ApplyPreset(mode: Mode, wanted: seq<Wanted>, fold: string -> string, ids: seq<Id>, now: string, scan: seq<Id>)
    | NewPrice(market: string, name: string, amount: real, at: string, id: Id, newId: Id, watches: seq<Row>,
               alertIds: seq<Id>, now: string)
    | NewWatch(market: string, name: string, op_: WatchOp, threshold: real, id: Id, newId: Id, now: string)
    | NewRun(id: Id, input: RunInput, parse: string -> Option<int>, uuids: seq<(Id, Id)>, now: string)
    | RestoreBackup(raw: Value, now: string, join: seq<(Id, Id)>)

  // The database after an operation, also when it throws half way. A loot run is
  // one transaction; a restore that fails changes nothing.
  ghost function Step(t: Store, op: Op): Store {
    match op
    case Plain(s) => Performed(t, s).store
    case NewCharacter(id, name, server, class_, now, scan) =>
      CreateCharacter(t, id, name, server, class_, now, scan).store
    case NewTemplate(id, title, kind, estimate, recharge, stacks, now, scan) =>
      CreateTemplate(t, id, title, kind, estimate, recharge, stacks, now, scan).store
    case ApplyPreset(mode, wanted, fold, ids, now, scan) => Preset.Apply(t, mode, wanted, fold, ids, now, scan).store
    case NewPrice(market, name, amount, at, id, newId, watches, alertIds, now) =>
      AddPrice(t, market, name, amount, at, id, newId, watches, alertIds, now).store
    case NewWatch(market, name, op_, threshold, id, newId, now) =>
      RunAll(t, CreateWatchStmts(t, market, name, op_, threshold, id, newId, now)).store
    case NewRun(id, input, parse, uuids, now) => CreateRun(t, id, input, parse, uuids, now).store
    case RestoreBackup(raw, now, join) => AfterRestore(t, Import(t, raw, now, join))
  }

  // UUIDs are fresh when drawn, and scans list what they scan.
  ghost predicate Sound(t: Store, op: Op) {
    match op
    case NewCharacter(id, _, _, _, _, scan) => Fresh(t, id) && ScanOf(scan, t, TemplateTable)
    case NewTemplate(id, _, _, _, _, _, _, scan) => Fresh(t, id) && ScanOf(scan, t, CharacterTable)
    case ApplyPreset(mode, wanted, fold, ids, now, scan) =>
      var t' := Cleared(t, mode);
      ScanOf(scan, t', CharacterTable) && FreshAlong(t', Marks(t', fold), wanted, fold, ids, now, scan)
    case RestoreBackup(raw, now, join) => ScanFits(join, raw, now)
    case _ => true
  }

  // A restore that is taken.
  predicate Restores(t: Store, op: Op) {
    op.RestoreBackup? && Import(t, op.raw, op.now, op.join).Ok?
  }

  lemma PresetKeeps(t: Store, mode: Mode, wanted: seq<Wanted>, fold: string -> string, ids: seq<Id>, now: string,
                    scan: seq<Id>)
    requires Consistent(t) && Sound(t, ApplyPreset(mode, wanted, fold, ids, now, scan))
    ensures var t' := Preset.Apply(t, mode, wanted, fold, ids, now, scan).store;
            Consistent(t') && (Complete(t) ==> Complete(t'))
  {
    if mode == Replace {
      ClearedKeeps(t, fold);
    }
    LoopOutcome(Cleared(t, mode), wanted, fold, ids, now, scan);
  }

  // One operation keeps the database consistent. A restore that is taken leaves
  // every pair assigned exactly when its backup's lists do; anything else keeps
  // every pair assigned.
  lemma StepKeeps(t: Store, op: Op)
    requires Consistent(t) && Sound(t, op)
    ensures Consistent(Step(t, op))
    ensures if Restores(t, op) then Complete(Step(t, op)) <==> BackupFills(op.raw, op.now)
            else Complete(t) ==> Complete(Step(t, op))
  {
    match op
    case Plain(s) => SimpleKeeps(t, s);
    case NewCharacter(id, name, server, class_, now, scan) =>
      CreateCharacterKeeps(t, id, name, server, class_, now, scan);
    case NewTemplate(id, title, kind, estimate, recharge, stacks, now, scan) =>
      CreateTemplateKeeps(t, id, title, kind, estimate, recharge, stacks, now, scan);
    case ApplyPreset(mode, wanted, fold, ids, now, scan) => PresetKeeps(t, mode, wanted, fold, ids, now, scan);
    case NewPrice(market, name, amount, at, id, newId, watches, alertIds, now) =>
      AddPriceKeeps(t, market, name, amount, at, id, newId, watches, alertIds, now);
    case NewWatch(market, name, op_, threshold, id, newId, now) =>
      CreateWatchGood(t, market, name, op_, threshold, id, newId, now);
      GoodStmtsKeep(t, CreateWatchStmts(t, market, name, op_, threshold, id, newId, now));
    case NewRun(id, input, parse, uuids, now) => CreateRunKeeps(t, id, input, parse, uuids, now);
    case RestoreBackup(raw, now, join) => RestoreKeeps(t, raw, now, join);
  }

  // A restore that is rejected leaves the database as it was.
  function AfterRestore(t: Store, out: Result<Store, ImportError>): Store {
    match out
    case Ok(t') => t'
    case Err(_) => t
  }

  lemma RestoreKeeps(t: Store, raw: Value, now: string, join: seq<(Id, Id)>)
    requires Consistent(t) && ScanFits(join, raw, now)
    ensures var out := Import(t, raw, now, join);
            Consistent(AfterRestore(t, out)) && (out.Ok? ==> (Complete(out.value) <==> BackupFills(raw, now)))
  {
    hide Import, BackupFills, Complete;
    if Import(t, raw, now, join).Ok? {
      ImportIsConsistent(t, raw, now, join);
      ImportCompletesIff(t, raw, now, join);
    }
  }

  // init(): the empty schema and the default reset settings.
  function Initial(now: string): Store {
    map[DEFAULT_KEY := Reset(DEFAULT_ID, "09:00", 1.0, now)]
  }

  lemma InitialHolds(now: string)
    ensures Consistent(Initial(now)) && Complete(Initial(now))
  {
  }

  ghost function After(t: Store, ops: seq<Op>): Store
    decreases ops
  {
    if ops == [] then t else After(Step(t, ops[0]), ops[1..])
  }

  ghost predicate SoundRun(t: Store, ops: seq<Op>)
    decreases ops
  {
    ops == [] || (Sound(t, ops[0]) && SoundRun(Step(t, ops[0]), ops[1..]))
  }

  // What the lists of the last backup taken say about their gaps, or what was
  // said before the first one.
  ghost predicate Filled(t: Store, ops: seq<Op>, before: bool)
    decreases ops
  {
    if ops == [] then before
    else Filled(Step(t, ops[0]), ops[1..], if Restores(t, ops[0]) then BackupFills(ops[0].raw, ops[0].now) else before)
  }

  lemma {:induction false} RunKeeps(t: Store, ops: seq<Op>, before: bool)
    requires Consistent(t) && SoundRun(t, ops) && (before ==> Complete(t))
    ensures Consistent(After(t, ops))
    ensures Filled(t, ops, before) ==> Complete(After(t, ops))
    decreases ops
  {
    hide Step, Sound, Consistent, Complete, Import, BackupFills;
    if ops != [] {
      StepKeeps(t, ops[0]);
      RunKeeps(Step(t, ops[0]), ops[1..], if Restores(t, ops[0]) then BackupFills(ops[0].raw, ops[0].now) else before);
    }
  }

  // Every database the application can reach satisfies every key and foreign
  // key; when the lists of the last backup taken, if any, leave no clashing gaps,
  // it has exactly one assignment for each existing pair of character and
  // template, and none for any other.
  lemma ReachableInvariant(now: string, ops: seq<Op>)
    requires SoundRun(Initial(now), ops)
    ensures Consistent(After(Initial(now), ops))
    ensures Filled(Initial(now), ops, true) ==>
              forall pair: (Id, Id) :: InStore(After(Initial(now), ops), pair) <==>
              Covered(After(Initial(now), ops), pair)
  {
    hide After, SoundRun, Filled, Initial, Complete, Covered, AllNormal;
    InitialHolds(now);
    RunKeeps(Initial(now), ops, true);
    if Filled(Initial(now), ops, true) {
      forall pair: (Id, Id)
        ensures InStore(After(Initial(now), ops), pair) <==> Covered(After(Initial(now), ops), pair)
      {
        ExactlyOneAssignment(After(Initial(now), ops), pair);
      }
    }
  }

  lemma {:induction false} PlainRun(t: Store, ops: seq<Op>)
    requires forall op :: op in ops && op.RestoreBackup? ==> PlainBackup(op.raw, op.now)
    ensures Filled(t, ops, true)
    decreases ops
  {
    hide Step, Import, BackupFills, PlainBackup;
    if ops != [] {
      var op := ops[0];
      assert op in ops;
      if Restores(t, op) {
        PlainBackupFills(op.raw, op.now);
      }
      PlainRun(Step(t, op), ops[1..]);
    }
  }

  // With backups whose character ids have no colon and whose assignments use no
  // made-up id of another pair, every reachable database is fully assigned.
  lemma ReachablePlainly(now: string, ops: seq<Op>)
    requires SoundRun(Initial(now), ops) && forall op :: op in ops && op.RestoreBackup? ==> PlainBackup(op.raw, op.now)
    ensures forall pair: (Id, Id) :: InStore(After(Initial(now), ops), pair) <==>
            Covered(After(Initial(now), ops), pair)
  {
    hide After, SoundRun, Filled, Initial, Covered, Consistent, PlainBackup;
    PlainRun(Initial(now), ops);
    ReachableInvariant(now, ops);
  }

  // Every reachable database, whatever backups it has taken, accepts its own
  // backup in any state it has moved on to. It gets its user data back exactly
  // when no empty id is in use and every missing assignment's id is taken; the
  // other direction is for a restore stamped later than every assignment.
  lemma ReachableRoundTrip(start: string, ops: seq<Op>, target: Store, lists: Listings, at: string, now: string,
                           scan: seq<(Id, Id)>)
    requires SoundRun(Initial(start), ops) && Integrity(target)
    requires var t := After(Initial(start), ops); Listing(t, lists) && CrossJoin(scan, Survivors(t, now))
    ensures var t := After(Initial(start), ops);
            var out := Import(target, Export(t, lists, at), now, scan);
            && out.Ok?
            && (!EmptyIdInUse(t) && GapsTaken(t) ==> SameData(t, out.value, now))
            && (StampedLater(t, now) && SameData(t, out.value, now) ==> !EmptyIdInUse(t) && GapsTaken(t))
  {
    hide Export, Import, After, SoundRun, EmptyIdInUse, GapsTaken, SameData, Initial, Complete, Survivors;
    var t := After(Initial(start), ops);
    InitialHolds(start);
    RunKeeps(Initial(start), ops, true);
    OwnBackup(target, t, lists, at, now, scan);
    if !EmptyIdInUse(t) && GapsTaken(t) {
      BackupRoundTrip(target, t, lists, at, now, scan);
    }
    if StampedLater(t, now) {
      RoundTripIff(target, t, lists, at, now, scan);
    }
  }
}
