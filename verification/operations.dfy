// The writing operations as the statements they issue, and the invariants every
// run of them keeps.
module Operations {
  import opened Wrappers
  import opened Json
  import opened Schema
  import opened Loading
  import opened Outcomes
  import opened Backup
  import opened Exporting
  import opened Assignments
  import Text

  // The database after some statements; ok is false once one has failed, and
  // nothing runs after a failure.
  datatype Progress = Progress(store: Store, ok: bool)

  function RunAll(t: Store, stmts: seq<Stmt>): Progress
    decreases stmts
  {
    if stmts == [] then Progress(t, true)
    else match Exec(t, stmts[0])
      case ConstraintFailed => Progress(t, false)
      case Done(t') => RunAll(t', stmts[1..])
  }

  lemma RunNone(t: Store)
    ensures RunAll(t, []) == Progress(t, true)
  {
  }

  lemma RunOne(t: Store, a: Stmt)
    ensures RunAll(t, [a]) == match Exec(t, a) case ConstraintFailed => Progress(t, false) case Done(t') => Progress(t',
        true)
  {
    hide Exec;
    assert [a][1..] == [];
  }

  // -------------------------------------------------------------- invariants

  ghost predicate Consistent(t: Store) {
    Integrity(t) && AllNormal(t) && DEFAULT_KEY in t
  }

  // Rows are written in normal form and the default settings are never deleted.
  predicate Tidy(s: Stmt) {
    match s
    case DeleteRows(keys) => DEFAULT_KEY !in keys
    case DeleteAll(table) => table != ResetTable
    case InsertOrReplace(r) => false
    case _ => Normal(s.row)
  }

  lemma ClearSoftNormal(r: Row, gone: set<Key>)
    requires Normal(r)
    ensures Normal(ClearSoft(r, gone))
  {
  }

  // A row that goes is named, or has a parent that goes.
  lemma Deleted(t: Store, gone: set<Key>, k: Key)
    requires k in t && k !in Delete(t, gone)
    ensures k in gone || exists p :: p in Parents(t[k]) && p !in Delete(t, gone)
  {
    var all := CascadeOf(t, gone);
    assert k in all;
    if k !in gone {
      var p :| p in Parents(t[k]) && p in all;
      assert p !in Delete(t, gone);
    }
  }

  lemma DefaultStays(t: Store, gone: set<Key>)
    requires Keyed(t) && DEFAULT_KEY in t && DEFAULT_KEY !in gone
    ensures DEFAULT_KEY in Delete(t, gone)
  {
    hide CascadeOf;
    assert KeyOf(t[DEFAULT_KEY]) == DEFAULT_KEY && Parents(t[DEFAULT_KEY]) == {};
    if DEFAULT_KEY !in Delete(t, gone) {
      Deleted(t, gone, DEFAULT_KEY);
      assert false;
    }
  }

  lemma DeleteKeepsNormal(t: Store, gone: set<Key>)
    requires AllNormal(t)
    ensures AllNormal(Delete(t, gone))
  {
    hide Normal, CascadeOf;
    var all := CascadeOf(t, gone);
    forall k | k in Delete(t, gone) ensures Normal(Delete(t, gone)[k]) {
      ClearSoftNormal(t[k], all);
    }
  }

  lemma DeleteKeepsTidy(t: Store, gone: set<Key>)
    requires Consistent(t) && DEFAULT_KEY !in gone
    ensures Consistent(Delete(t, gone))
  {
    hide AllNormal, Delete, UniqueHolds, RefsResolve;
    DeleteKeepsIntegrity(t, gone);
    DeleteKeepsNormal(t, gone);
    DefaultStays(t, gone);
  }

  lemma ExecKeepsConsistent(t: Store, s: Stmt)
    requires Consistent(t) && Tidy(s) && Exec(t, s).Done?
    ensures Consistent(Exec(t, s).store)
  {
    ExecKeepsIntegrity(t, s);
    match s
    case DeleteRows(keys) => DeleteKeepsTidy(t, keys * t.Keys);
    case DeleteAll(table) => DeleteKeepsTidy(t, KeysIn(t, table));
    case _ =>
  }

  lemma {:induction false} RunKeepsConsistent(t: Store, stmts: seq<Stmt>)
    requires Consistent(t) && forall s :: s in stmts ==> Tidy(s)
    ensures Consistent(RunAll(t, stmts).store)
    decreases stmts
  {
    if stmts != [] {
      assert stmts[0] in stmts;
      if Exec(t, stmts[0]).Done? {
        ExecKeepsConsistent(t, stmts[0]);
        RunKeepsConsistent(Exec(t, stmts[0]).store, stmts[1..]);
      }
    }
  }

  // Statements that create no character and no template and delete no assignment.
  predicate LeavesAssignments(s: Stmt) {
    match s
    case DeleteRows(keys) => forall k :: k in keys ==> k.table != AssignmentTable
    case DeleteAll(table) => table != AssignmentTable
    case InsertOrReplace(r) => false
    case Update(r) => TableOf(r) != AssignmentTable
    case _ => TableOf(s.row) !in {CharacterTable, TemplateTable, AssignmentTable}
  }

  // An assignment goes only with its character, its template or its own row.
  lemma AssignmentStays(t: Store, gone: set<Key>, pair: (Id, Id), k: Key)
    requires Keyed(t) && k in t && k !in gone && UniqueOf(t[k]) == PairOf(pair.0, pair.1)
    requires InStore(Delete(t, gone), pair)
    ensures k in Delete(t, gone) && UniqueOf(Delete(t, gone)[k]) == PairOf(pair.0, pair.1)
  {
    hide Exec, CascadeOf;
    var t' := Delete(t, gone);
    assert t[k].Assignment? && Parents(t[k]) == {CharacterKey(pair.0), TemplateKey(pair.1)};
    if k !in t' {
      Deleted(t, gone, k);
      assert false;
    }
  }

  lemma DeleteKeepsComplete(t: Store, gone: set<Key>)
    requires Integrity(t) && Complete(t) && forall k :: k in gone ==> k.table != AssignmentTable
    ensures Complete(Delete(t, gone))
  {
    hide Delete, RefsResolve, UniqueHolds;
    var t' := Delete(t, gone);
    forall pair: (Id, Id) | InStore(t', pair)
      ensures Covered(t', pair)
    {
      DeletedPair(t, gone, pair);
      var k :| k in t && UniqueOf(t[k]) == PairOf(pair.0, pair.1);
      AssignmentTables(t, k, pair);
      AssignmentStays(t, gone, pair, k);
    }
  }

  lemma DeletedPair(t: Store, gone: set<Key>, pair: (Id, Id))
    requires Complete(t) && InStore(Delete(t, gone), pair)
    ensures Covered(t, pair)
  {
    assert InStore(t, pair);
  }

  lemma AssignmentTables(t: Store, k: Key, pair: (Id, Id))
    requires Keyed(t) && k in t && UniqueOf(t[k]) == PairOf(pair.0, pair.1)
    ensures k.table == AssignmentTable
  {
    assert KeyOf(t[k]) == k;
  }

  lemma PutKeepsComplete(t: Store, r: Row)
    requires Keyed(t) && Complete(t) && TableOf(r) != AssignmentTable
    requires TableOf(r) in {CharacterTable, TemplateTable} ==> KeyOf(r) in t
    ensures Complete(Put(t, r))
  {
    var t' := Put(t, r);
    forall pair: (Id, Id) | InStore(t', pair)
      ensures Covered(t', pair)
    {
      assert InStore(t, pair);
      var k :| k in t && UniqueOf(t[k]) == PairOf(pair.0, pair.1);
      assert KeyOf(t[k]) == k && t[k].Assignment?;
      assert t'[k] == t[k];
    }
  }

  lemma ExecKeepsComplete(t: Store, s: Stmt)
    requires Integrity(t) && Complete(t) && LeavesAssignments(s) && Exec(t, s).Done?
    ensures Complete(Exec(t, s).store)
  {
    match s
    case DeleteRows(keys) => DeleteKeepsComplete(t, keys * t.Keys);
    case DeleteAll(table) => DeleteKeepsComplete(t, KeysIn(t, table));
    case Update(r) => if KeyOf(r) in t { PutKeepsComplete(t, r); }
    case Insert(r) => PutKeepsComplete(t, r);
    case InsertOrIgnore(r) => PutKeepsComplete(t, r);
    case Upsert(r) => PutKeepsComplete(t, r);
  }

  lemma {:induction false} RunKeepsComplete(t: Store, stmts: seq<Stmt>)
    requires Integrity(t) && Complete(t) && forall s :: s in stmts ==> LeavesAssignments(s)
    ensures Integrity(RunAll(t, stmts).store) && Complete(RunAll(t, stmts).store)
    decreases stmts
  {
    if stmts != [] {
      assert stmts[0] in stmts;
      if Exec(t, stmts[0]).Done? {
        ExecKeepsIntegrity(t, stmts[0]);
        ExecKeepsComplete(t, stmts[0]);
        RunKeepsComplete(Exec(t, stmts[0]).store, stmts[1..]);
      }
    }
  }

  // ---------------------------------------------- operations of few statements

  // typeof s === "string" && s.trim() ? s.trim() : null
  function TrimmedOrNone(o: Option<string>): Option<string> {
    match o
    case None => None
    case Some(s) => if Text.Trim(s) == "" then None else Some(Text.Trim(s))
  }

  // A name with the white space at its ends taken off, or none when there is no more.
  lemma NamedOrNone(o: Option<string>)
    ensures TrimmedOrNone(o).Some? <==> o.Some? && !Text.AllSpace(o.value)
    ensures TrimmedOrNone(o).Some? ==> Text.StripsTo(o.value, TrimmedOrNone(o).value)
  {
    if o.Some? { Text.BlankTrims(o.value); }
  }

  // typeof s === "string" ? s.trim() : null
  function TrimmedText(o: Option<string>): Option<string> {
    match o
    case None => None
    case Some(s) => Some(Text.Trim(s))
  }

  function TemplateRow(id: Id, title: string, kind: TemplateKind, estimate: real, recharge: Option<real>,
                       stacks: Option<real>,
                       created: string, updated: string): Row
  {
    Template(id, title, kind, FloorNat(estimate), if kind.CHARGE? then recharge else None,
             if kind.CHARGE? then stacks else None,
             created, updated)
  }

  function ServerSettings(server: string, hhmm: string, day: real, now: string): seq<Stmt> {
    if Text.Trim(server) == "" then [] else [Upsert(Reset(SERVER_PREFIX + Text.Trim(server), hhmm, day, now))]
  }

  // Operations that issue a fixed list of statements.
  datatype Simple =
    | SetSetting(key: string, text: Option<string>)
    | UpdateCharacter(id: Id, name: string, server: Option<string>, class_: Option<string>, now: string)
    | DeleteCharacter(id: Id)
    | SetBuildScore(id: Id, state: Value, now: string)
    | DeleteBuildScore(id: Id)
    | CreatePreset(id: Id, owner: Id, name: string, description: Option<string>, stats: seq<Stat>, created: string,
                   updated: string)
    // describe is what to put for the description, if anything
    | UpdatePreset(id: Id, rename: Option<string>, describe: Option<Option<string>>, now: string)
    | DeletePreset(id: Id)
    | SetDefaultReset(hhmm: string, day: real, now: string)
    | SetServerReset(market: string, hhmm: string, day: real, now: string)
    | ClearServerReset(market: string)
    | UpdateTemplate(id: Id, title: string, kind: TemplateKind, estimate: real, recharge: Option<real>,
                     stacks: Option<real>, now: string)
    | DeleteTemplate(id: Id)
    | SetCompletion(id: Id, owner: Id, template: Id, period: string, completed: bool, at: string)
    | UseCharge(id: Id, owner: Id, template: Id, at: string)
    | UndoCharge(id: Id)
    // started and ended as toISOString writes them, None when they are no dates
    | AddDuration(id: Id, owner: Id, template: Id, started: Option<string>, ended: Option<string>, lasted: real)
    | DeleteDuration(id: Id, owner: Id)
    | UpdateItem(id: Id, name: string, category: Option<string>, note: Option<string>, now: string)
    | DeleteItem(id: Id)
    | SetWatchActive(id: Id, on: bool, now: string)
    | DeleteWatch(id: Id)
    | MarkAlertRead(id: Id, now: string)
    | DeleteRun(id: Id, owner: Id)

  // A preset under a new name, with a new description if one is given.
  function Described(r: Row, id: Id, name: string, describe: Option<Option<string>>, now: string): Row
    requires r.Preset?
  {
    Preset(id, r.characterId, name, match describe case None => r.description case Some(d) => TrimmedText(d), r.stats,
           r.createdAt, now)
  }

  // Ticks of (character, template) in a period.
  function TicksAt(t: Store, c: Id, x: Id, period: string): set<Key> {
    set k | k in t && UniqueOf(t[k]) == TickOf(c, x, period)
  }

  // The row under a key, when it belongs to the given owner.
  function OwnedBy(t: Store, k: Key, owner: Id): set<Key> {
    if k in t && CharacterKey(owner) in Parents(t[k]) then {k} else {}
  }

  function CharacterStmts(t: Store, op: Simple): seq<Stmt> {
    match op
    case SetSetting(key, None) => [DeleteRows({Key(SettingTable, key)})]
    case SetSetting(key, Some(v)) => [Upsert(Setting(key, v))]
    case UpdateCharacter(id, name, server, class_, now) =>
      var k := CharacterKey(id);
      if k in t && t[k].Character? then [Update(Character(id, name, server, class_, t[k].createdAt, now))] else []
    case DeleteCharacter(id) => [DeleteRows({CharacterKey(id)})]
    case SetBuildScore(c, state, now) => if state.Undefined? then [] else [Upsert(BuildScore(c, state, now))]
    case DeleteBuildScore(c) => [DeleteRows({Key(BuildScoreTable, c)})]
    case CreatePreset(id, c, name, description, stats, created, updated) =>
      if Text.Trim(name) == "" || !NormalStats(stats) then []
      else [Insert(Preset(id, c, Text.Trim(name), TrimmedText(description), stats, created, updated))]
    case UpdatePreset(id, rename, describe, now) =>
      var k := Key(PresetTable, id);
      if k !in t || !t[k].Preset? then []
      else
        var name := match rename case None => t[k].name case Some(n) => Text.Trim(n);
        if name == "" then [] else [Update(Described(t[k], id, name, describe, now))]
    case DeletePreset(id) => [DeleteRows({Key(PresetTable, id)})]
    case _ => []
  }

  function PlannerStmts(t: Store, op: Simple): seq<Stmt> {
    match op
    case SetDefaultReset(hhmm, day, now) => [Upsert(Reset(DEFAULT_ID, hhmm, day, now))]
    case SetServerReset(server, hhmm, day, now) => ServerSettings(server, hhmm, day, now)
    case ClearServerReset(server) =>
      if Text.Trim(server) == "" then [] else [DeleteRows({Key(ResetTable, SERVER_PREFIX + Text.Trim(server))})]
    case UpdateTemplate(id, title, kind, estimate, recharge, stacks, now) =>
      var k := TemplateKey(id);
      if k in t && t[k].Template?
      then [Update(TemplateRow(id, title, kind, estimate, recharge, stacks, t[k].createdAt, now))] else []
    case DeleteTemplate(id) => [DeleteRows({TemplateKey(id)})]
    case SetCompletion(id, c, x, period, completed, at) =>
      if completed then [InsertOrIgnore(Completion(id, c, x, period, at))]
      else [DeleteRows(TicksAt(t, c, x, period))]
    case UseCharge(id, c, x, at) => [Insert(ChargeUse(id, c, x, at))]
    case UndoCharge(id) => if id == "" then [] else [DeleteRows({Key(ChargeUseTable, id)})]
    case AddDuration(id, c, x, started, ended, seconds) =>
      if started.None? || ended.None? then []
      else [Insert(Duration(id, c, Some(x), started.value, ended.value,
                            if seconds.Floor < 1 then 1.0 else seconds.Floor as real))]
    case DeleteDuration(id, c) => [DeleteRows(OwnedBy(t, Key(DurationTable, id), c))]
    case _ => []
  }

  function TradeStmts(t: Store, op: Simple): seq<Stmt> {
    match op
    case UpdateItem(id, name, category, note, now) =>
      var k := ItemKey(id);
      if id == "" || Text.Trim(name) == "" || k !in t || !t[k].Item? then []
      else [Update(Item(id, Text.Trim(name), TrimmedOrNone(category), TrimmedOrNone(note), t[k].createdAt, now))]
    case DeleteItem(id) => [DeleteRows({ItemKey(id)})]
    case SetWatchActive(id, on, now) =>
      var k := Key(WatchTable, id);
      if id == "" || k !in t || !t[k].Watch? then []
      else var w := t[k]; [Update(Watch(id, w.market, w.itemId, w.op, w.threshold, on, w.createdAt, now))]
    case DeleteWatch(id) => [DeleteRows({Key(WatchTable, id)})]
    case MarkAlertRead(id, now) =>
      var k := Key(AlertTable, id);
      if id == "" || k !in t || !t[k].Alert? then []
      else var a := t[k]; [Update(Alert(id, a.market, a.itemId, a.itemName, a.op, a.threshold, a.price, a.triggeredAt,
                                        Some(now)))]
    case DeleteRun(id, c) => if id == "" || c == "" then [] else [DeleteRows(OwnedBy(t, RunKey(id), c))]
    case _ => []
  }

  function SimpleStmts(t: Store, op: Simple): seq<Stmt> {
    CharacterStmts(t, op) + PlannerStmts(t, op) + TradeStmts(t, op)
  }

  // What the functions throw at before they issue a statement; Undefined stands
  // for a build score that cannot be read.
  predicate Rejected(t: Store, op: Simple) {
    match op
    case SetBuildScore(_, state, _) => state.Undefined?
    case CreatePreset(_, _, name, _, stats, _, _) => Text.Trim(name) == "" || !NormalStats(stats)
    case UpdatePreset(id, rename, _, _) =>
      var k := Key(PresetTable, id);
      id == "" || k !in t || !t[k].Preset? || (match rename case None => t[k].name case Some(n) => Text.Trim(n)) == ""
    case AddDuration(_, _, _, started, ended, _) => started.None? || ended.None?
    case UpdateItem(id, name, _, _, _) => id == "" || Text.Trim(name) == ""
    case SetWatchActive(id, _, _) => id == ""
    case MarkAlertRead(id, _) => id == ""
    case DeleteRun(id, owner) => id == "" || owner == ""
    case _ => false
  }

  function Performed(t: Store, op: Simple): Progress {
    if Rejected(t, op) then Progress(t, false) else RunAll(t, SimpleStmts(t, op))
  }

  function Good(s: Stmt): bool {
    Tidy(s) && LeavesAssignments(s)
  }

  lemma CharacterStmtsGood(t: Store, op: Simple)
    requires Consistent(t)
    ensures forall s :: s in CharacterStmts(t, op) ==> Good(s)
  {
    hide Integrity, UniqueHolds, RefsResolve, Text.Trim, Text.Trimmed, NormalStats;
    match op
    case CreatePreset(_, _, name, _, _, _, _) => Text.TrimIsProjection(name);
    case UpdatePreset(id, rename, _, _) =>
      var k := Key(PresetTable, id);
      if k in t { assert Normal(t[k]); }
      if rename.Some? { Text.TrimIsProjection(rename.value); }
    case _ =>
  }

  lemma ServerSettingsGood(server: string, hhmm: string, day: real, now: string)
    ensures forall s :: s in ServerSettings(server, hhmm, day, now) ==> Good(s)
  {
    Text.TrimIsProjection(server);
    assert ServerOf(SERVER_PREFIX + Text.Trim(server)) == Text.Trim(server);
  }

  lemma TickTables(t: Store, c: Id, x: Id, period: string)
    requires Keyed(t)
    ensures forall k :: k in TicksAt(t, c, x, period) ==> k.table == CompletionTable
  {
    forall k | k in TicksAt(t, c, x, period) ensures k.table == CompletionTable {
      assert KeyOf(t[k]) == k && t[k].Completion?;
    }
  }

  lemma PlannerStmtsGood(t: Store, op: Simple)
    requires Consistent(t)
    ensures forall s :: s in PlannerStmts(t, op) ==> Good(s)
  {
    hide UniqueHolds, RefsResolve, Text.Trim, Text.Trimmed, AllNormal, TicksAt, ServerSettings;
    match op
    case SetServerReset(server, hhmm, day, now) => ServerSettingsGood(server, hhmm, day, now);
    case ClearServerReset(server) => PrefixedIsNotDefault(Text.Trim(server));
    case SetCompletion(_, c, x, period, _, _) => TickTables(t, c, x, period);
    case _ =>
  }

  lemma PrefixedIsNotDefault(name: string)
    ensures SERVER_PREFIX + name != DEFAULT_ID
  {
    assert (SERVER_PREFIX + name)[0] == 's' && DEFAULT_ID[0] == 'd';
  }

  lemma TradeStmtsGood(t: Store, op: Simple)
    requires Consistent(t)
    ensures forall s :: s in TradeStmts(t, op) ==> Good(s)
  {
    hide Integrity, UniqueHolds, RefsResolve, Text.Trim, Text.Trimmed;
    match op
    case UpdateItem(_, name, _, _, _) => Text.TrimIsProjection(name);
    case SetWatchActive(id, _, _) =>
      var k := Key(WatchTable, id);
      if k in t { assert Normal(t[k]); }
    case _ =>
  }

  // Every simple operation keeps the store consistent and the assignments complete.
  lemma SimpleKeeps(t: Store, op: Simple)
    requires Consistent(t)
    ensures Consistent(Performed(t, op).store)
    ensures Complete(t) ==> Complete(Performed(t, op).store)
  {
    hide Rejected, CharacterStmts, PlannerStmts, TradeStmts;
    CharacterStmtsGood(t, op);
    PlannerStmtsGood(t, op);
    TradeStmtsGood(t, op);
    RunKeepsConsistent(t, SimpleStmts(t, op));
    if Complete(t) {
      RunKeepsComplete(t, SimpleStmts(t, op));
    }
  }
}
