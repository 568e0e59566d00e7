// What an operation touches: exactly which rows a deletion takes along and which
// lose a reference, and the one row any other operation writes.
module Effects {
  import opened Wrappers
  import opened Json
  import opened Schema
  import opened Loading
  import opened Outcomes
  import opened Importing
  import opened Backup
  import opened Operations
  import Text

  // A row goes when it is named, when a parent is, or when a parent of its parent is.
  predicate GoesWith(t: Store, gone: set<Key>, k: Key) {
    k in gone || (k in t && exists p :: p in Parents(t[k]) && (p in gone || (p in t && !(Parents(t[p]) !! gone))))
  }

  // Only characters, items, runs and templates are parents, and of these only
  // runs have a parent themselves.
  lemma ParentsOfParents(t: Store, k: Key, p: Key)
    requires Keyed(t) && k in t && p in Parents(t[k]) && p in t
    ensures forall q :: q in Parents(t[p]) ==> q.table == CharacterTable && (q in t ==> Parents(t[q]) == {})
  {
    assert KeyOf(t[p]) == p && Refs(t[k]) == Parents(t[k]) + SoftParents(t[k]);
    RefsPointBack(t[k]);
    forall q | q in Parents(t[p]) ensures q.table == CharacterTable && (q in t ==> Parents(t[q]) == {}) {
      assert t[p].LootRun?;
      if q in t { assert KeyOf(t[q]) == q && t[q].Character?; }
    }
  }

  // A cascade never runs further than two foreign keys.
  lemma CascadeIsTwoDeep(t: Store, gone: set<Key>, k: Key)
    requires Keyed(t) && gone <= t.Keys
    ensures k in CascadeOf(t, gone) <==> GoesWith(t, gone, k)
  {
    hide CascadeOf, Parents;
    var all := CascadeOf(t, gone);
    if GoesWith(t, gone, k) && k !in gone {
      var p :| p in Parents(t[k]) && (p in gone || (p in t && !(Parents(t[p]) !! gone)));
      if p !in gone {
        var q :| q in Parents(t[p]) && q in gone;
        assert p in Children(t, all);
      }
      assert p in all && k in Children(t, all);
    }
    if k in all && k !in gone {
      var p :| p in Parents(t[k]) && p in all;
      if p !in gone {
        var q :| q in Parents(t[p]) && q in all;
        ParentsOfParents(t, k, p);
        assert q in gone;
      }
    }
  }

  // DELETE of rows by key, row by row.
  lemma DeleteExactly(t: Store, gone: set<Key>, k: Key)
    requires Keyed(t) && gone <= t.Keys
    ensures k in Delete(t, gone) <==> k in t && !GoesWith(t, gone, k)
    ensures k in Delete(t, gone) ==>
              Delete(t, gone)[k] == if exists p :: p in SoftParents(t[k]) && GoesWith(t, gone, p) then Cleared(t[k])
                                    else t[k]
  {
    hide CascadeOf, GoesWith, SoftParents, Parents;
    CascadeIsTwoDeep(t, gone, k);
    if k in Delete(t, gone) {
      var all := CascadeOf(t, gone);
      forall p ensures p in all <==> GoesWith(t, gone, p) { CascadeIsTwoDeep(t, gone, p); }
      SoftCleared(t[k], all);
    }
  }

  // The row with its one nullable reference set to NULL.
  function Cleared(r: Row): Row {
    match r
    case Duration(id, c, _, started, ended, seconds) => Duration(id, c, None, started, ended, seconds)
    case Drop(id, run, _, name, qty, note, created, updated) => Drop(id, run, None, name, qty, note, created, updated)
    case Cost(id, run, kind, _, name, qty, kinah, note, created, updated) =>
      Cost(id, run, kind, None, name, qty, kinah, note, created, updated)
    case _ => r
  }

  lemma SoftCleared(r: Row, gone: set<Key>)
    ensures ClearSoft(r, gone) == if exists p :: p in SoftParents(r) && p in gone then Cleared(r) else r
  {
    if p :| p in SoftParents(r) && p in gone {
      assert !(SoftParents(r) !! gone);
    } else {
      assert SoftParents(r) !! gone;
    }
  }

  function Deleting(t: Store, k: Key): Store {
    RunAll(t, [DeleteRows({k})]).store
  }

  lemma DeletingOne(t: Store, k: Key)
    requires k in t
    ensures Deleting(t, k) == Delete(t, {k})
  {
    hide CascadeOf;
    var stmts := [DeleteRows({k})];
    var t' := Delete(t, {k} * t.Keys);
    assert Exec(t, stmts[0]) == Done(t');
    assert RunAll(t, stmts) == RunAll(t', stmts[1..]);
    assert RunAll(t', stmts[1..]) == Progress(t', true);
    assert {k} * t.Keys == {k};
  }

  // The three deletions of the application, as the statements they issue.
  lemma DeletionStmts(t: Store, id: Id)
    ensures SimpleStmts(t, DeleteCharacter(id)) == [DeleteRows({CharacterKey(id)})]
    ensures SimpleStmts(t, DeleteTemplate(id)) == [DeleteRows({TemplateKey(id)})]
    ensures SimpleStmts(t, DeleteItem(id)) == [DeleteRows({ItemKey(id)})]
  {
  }

  predicate OfItem(r: Row, id: Id) {
    match r
    case Price(_, _, i, _, _, _, _) => i == id
    case Watch(_, _, i, _, _, _, _, _) => i == id
    case Alert(_, _, i, _, _, _, _, _, _) => i == id
    case _ => false
  }

  predicate MentionsItem(r: Row, id: Id) {
    match r
    case Drop(_, _, i, _, _, _, _, _) => i == Some(id)
    case Cost(_, _, _, i, _, _, _, _, _, _) => i == Some(id)
    case _ => false
  }

  // Deleting an item deletes its prices, watches and alerts, takes it off the
  // drops and costs that name it, and leaves everything else.
  lemma DeleteItemEffect(t: Store, id: Id, k: Key)
    requires Keyed(t) && ItemKey(id) in t
    ensures var t' := RunAll(t, SimpleStmts(t, DeleteItem(id))).store;
            && (k in t' <==> k in t && k != ItemKey(id) && !OfItem(t[k], id))
            && (k in t' ==> t'[k] == if MentionsItem(t[k], id) then Cleared(t[k]) else t[k])
  {
    hide Delete;
    DeletionStmts(t, id);
    DeletingOne(t, ItemKey(id));
    DeleteExactly(t, {ItemKey(id)}, k);
    ItemGoes(t, id, k);
    if k in t {
      ItemSoft(t, id, k);
    }
  }

  lemma ItemGoes(t: Store, id: Id, k: Key)
    requires Keyed(t) && ItemKey(id) in t
    ensures GoesWith(t, {ItemKey(id)}, k) <==> k == ItemKey(id) || (k in t && OfItem(t[k], id))
  {
    var gone := {ItemKey(id)};
    if k in t {
      forall p | p in Parents(t[k]) && p in t ensures Parents(t[p]) !! gone { ParentsOfParents(t, k, p); }
      assert OfItem(t[k], id) <==> ItemKey(id) in Parents(t[k]);
    }
  }

  lemma ItemSoft(t: Store, id: Id, k: Key)
    requires Keyed(t) && ItemKey(id) in t && k in t
    ensures (exists p :: p in SoftParents(t[k]) && GoesWith(t, {ItemKey(id)}, p)) <==> MentionsItem(t[k], id)
  {
    hide GoesWith, OfItem;
    forall p | p in SoftParents(t[k]) ensures GoesWith(t, {ItemKey(id)}, p) <==> p == ItemKey(id) {
      ItemGoes(t, id, p);
      RootRow(t, k, p);
    }
    if MentionsItem(t[k], id) { assert ItemKey(id) in SoftParents(t[k]); }
  }

  // A nullable reference points to an item or a template, which hang on nothing.
  lemma RootRow(t: Store, k: Key, p: Key)
    requires Keyed(t) && k in t && p in SoftParents(t[k])
    ensures p.table == ItemTable || p.table == TemplateTable
    ensures p in t ==> Parents(t[p]) == {} && forall id :: !OfItem(t[p], id)
  {
    if p in t { assert KeyOf(t[p]) == p; }
  }

  predicate OfTemplate(r: Row, id: Id) {
    match r
    case Assignment(_, _, x, _, _, _, _) => x == id
    case Completion(_, _, x, _, _) => x == id
    case ChargeUse(_, _, x, _) => x == id
    case _ => false
  }

  predicate MentionsTemplate(r: Row, id: Id) { r.Duration? && r.timedTemplate == Some(id) }

  // Deleting a template deletes its assignments, ticks and charge uses and takes
  // it off the durations that name it.
  lemma DeleteTemplateEffect(t: Store, id: Id, k: Key)
    requires Keyed(t) && TemplateKey(id) in t
    ensures var t' := RunAll(t, SimpleStmts(t, DeleteTemplate(id))).store;
            && (k in t' <==> k in t && k != TemplateKey(id) && !OfTemplate(t[k], id))
            && (k in t' ==> t'[k] == if MentionsTemplate(t[k], id) then Cleared(t[k]) else t[k])
  {
    hide Delete;
    DeletionStmts(t, id);
    DeletingOne(t, TemplateKey(id));
    DeleteExactly(t, {TemplateKey(id)}, k);
    TemplateGoes(t, id, k);
    if k in t {
      TemplateSoft(t, id, k);
    }
  }

  lemma TemplateGoes(t: Store, id: Id, k: Key)
    requires Keyed(t) && TemplateKey(id) in t
    ensures GoesWith(t, {TemplateKey(id)}, k) <==> k == TemplateKey(id) || (k in t && OfTemplate(t[k], id))
  {
    var gone := {TemplateKey(id)};
    if k in t {
      forall p | p in Parents(t[k]) && p in t ensures Parents(t[p]) !! gone { ParentsOfParents(t, k, p); }
      assert OfTemplate(t[k], id) <==> TemplateKey(id) in Parents(t[k]);
    }
  }

  lemma TemplateSoft(t: Store, id: Id, k: Key)
    requires Keyed(t) && TemplateKey(id) in t && k in t
    ensures (exists p :: p in SoftParents(t[k]) && GoesWith(t, {TemplateKey(id)}, p)) <==> MentionsTemplate(t[k], id)
  {
    hide GoesWith, OfTemplate;
    forall p | p in SoftParents(t[k]) ensures GoesWith(t, {TemplateKey(id)}, p) <==> p == TemplateKey(id) {
      TemplateGoes(t, id, p);
      RootHasNoTicks(t, k, p);
    }
    if MentionsTemplate(t[k], id) { assert TemplateKey(id) in SoftParents(t[k]); }
  }

  lemma RootHasNoTicks(t: Store, k: Key, p: Key)
    requires Keyed(t) && k in t && p in SoftParents(t[k])
    ensures p in t ==> forall id :: !OfTemplate(t[p], id)
  {
    if p in t { assert KeyOf(t[p]) == p; }
  }

  predicate OfCharacter(r: Row, id: Id) {
    match r
    case BuildScore(c, _, _) => c == id
    case Preset(_, c, _, _, _, _, _) => c == id
    case Assignment(_, c, _, _, _, _, _) => c == id
    case Completion(_, c, _, _, _) => c == id
    case ChargeUse(_, c, _, _) => c == id
    case Duration(_, c, _, _, _, _) => c == id
    case LootRun(_, c, _, _, _, _, _, _, _, _, _) => c == id
    case _ => false
  }

  // A drop or cost of one of the character's runs.
  predicate OfItsRun(t: Store, r: Row, id: Id) {
    (r.Drop? || r.Cost?) && RunKey(r.runId) in t && t[RunKey(r.runId)].LootRun? && t[RunKey(r.runId)].characterId == id
  }

  // Deleting a character deletes all that is its own, down to the drops and costs
  // of its runs, and nothing of anybody else.
  lemma DeleteCharacterEffect(t: Store, id: Id, k: Key)
    requires Keyed(t) && CharacterKey(id) in t
    ensures var t' := RunAll(t, SimpleStmts(t, DeleteCharacter(id))).store;
            && (k in t' <==> k in t && k != CharacterKey(id) && !OfCharacter(t[k], id) && !OfItsRun(t, t[k], id))
            && (k in t' ==> t'[k] == t[k])
  {
    hide Delete;
    DeletionStmts(t, id);
    DeletingOne(t, CharacterKey(id));
    DeleteExactly(t, {CharacterKey(id)}, k);
    CharacterGoes(t, id, k);
    if k in t {
      CharacterSoft(t, id, k);
    }
  }

  lemma CharacterGoes(t: Store, id: Id, k: Key)
    requires Keyed(t) && CharacterKey(id) in t
    ensures GoesWith(t, {CharacterKey(id)}, k) <==>
            k == CharacterKey(id) || (k in t && (OfCharacter(t[k], id) || OfItsRun(t, t[k], id)))
  {
    var gone := {CharacterKey(id)};
    if k in t {
      assert OfCharacter(t[k], id) <==> CharacterKey(id) in Parents(t[k]);
      if OfItsRun(t, t[k], id) {
        assert RunKey(t[k].runId) in Parents(t[k]) && CharacterKey(id) in Parents(t[RunKey(t[k].runId)]);
      }
      forall p | p in Parents(t[k]) && p in t && !(Parents(t[p]) !! gone) ensures OfItsRun(t, t[k], id) {
        assert KeyOf(t[p]) == p;
        Grandparent(t, k, p, id);
      }
    }
  }

  lemma Grandparent(t: Store, k: Key, p: Key, id: Id)
    requires Keyed(t) && k in t && p in Parents(t[k]) && p in t && CharacterKey(id) in Parents(t[p])
    ensures OfItsRun(t, t[k], id)
  {
    assert KeyOf(t[p]) == p;
    RefsPointBack(t[k]);
    assert p in Refs(t[k]);
    assert t[p].LootRun?;
  }

  lemma CharacterSoft(t: Store, id: Id, k: Key)
    requires Keyed(t) && CharacterKey(id) in t && k in t
    ensures forall p :: p in SoftParents(t[k]) ==> !GoesWith(t, {CharacterKey(id)}, p)
  {
    hide GoesWith;
    forall p | p in SoftParents(t[k]) ensures !GoesWith(t, {CharacterKey(id)}, p) {
      CharacterGoes(t, id, p);
      RootHasNoOwner(t, k, p);
    }
  }

  lemma RootHasNoOwner(t: Store, k: Key, p: Key)
    requires Keyed(t) && k in t && p in SoftParents(t[k])
    ensures p.table != CharacterTable
    ensures p in t ==> forall id :: !OfCharacter(t[p], id) && !OfItsRun(t, t[p], id)
  {
    if p in t { assert KeyOf(t[p]) == p; }
  }

  // The other operations that delete.
  predicate Removes(op: Simple) {
    match op
    case SetSetting(_, text) => text.None?
    case DeleteBuildScore(_) => true
    case DeletePreset(_) => true
    case ClearServerReset(_) => true
    case UndoCharge(_) => true
    case DeleteDuration(_, _) => true
    case DeleteWatch(_) => true
    case DeleteRun(_, _) => true
    case _ => false
  }

  // The rows they delete: the one named, of the owner named where there is one, and
  // with a run its drops and costs.
  predicate Removed(t: Store, op: Simple, k: Key) {
    match op
    case SetSetting(key, _) => k == Key(SettingTable, key)
    case DeleteBuildScore(c) => k == Key(BuildScoreTable, c)
    case DeletePreset(id) => k == Key(PresetTable, id)
    case ClearServerReset(market) => Text.Trim(market) != "" && k == Key(ResetTable, "server:" + Text.Trim(market))
    case UndoCharge(id) => id != "" && k == Key(ChargeUseTable, id)
    case DeleteDuration(id, owner) =>
      k == Key(DurationTable, id) && k in t && t[k].Duration? && t[k].characterId == owner
    case DeleteWatch(id) => k == Key(WatchTable, id)
    case DeleteRun(id, owner) =>
      && id != "" && owner != "" && RunKey(id) in t && t[RunKey(id)].LootRun? && t[RunKey(id)].characterId == owner
      && (k == RunKey(id) || (k in t && (t[k].Drop? || t[k].Cost?) && t[k].runId == id))
    case _ => false
  }

  // Rows nothing can refer to go by themselves.
  lemma DeleteLeaves(t: Store, gone: set<Key>)
    requires forall k :: k in gone ==> k.table !in {CharacterTable, TemplateTable, ItemTable, RunTable}
    ensures Delete(t, gone * t.Keys) == t - gone
  {
    forall k, p | k in t && p in Refs(t[k]) ensures p !in gone * t.Keys { RefsPointBack(t[k]); }
    DeleteUnreferenced(t, gone * t.Keys);
  }

  // A run goes with its drops and costs.
  lemma RunGoes(t: Store, id: Id, k: Key)
    requires Keyed(t) && RunKey(id) in t
    ensures k in Delete(t, {RunKey(id)}) <==>
            k in t && k != RunKey(id) && !((t[k].Drop? || t[k].Cost?) && t[k].runId == id)
    ensures k in Delete(t, {RunKey(id)}) ==> Delete(t, {RunKey(id)})[k] == t[k]
  {
    hide Delete;
    var gone := {RunKey(id)};
    DeleteExactly(t, gone, k);
    if k in t {
      forall p | p in Parents(t[k]) && p in t ensures Parents(t[p]) !! gone { ParentsOfParents(t, k, p); }
      assert RunKey(id) in Parents(t[k]) <==> (t[k].Drop? || t[k].Cost?) && t[k].runId == id;
      forall p | p in SoftParents(t[k]) ensures !GoesWith(t, gone, p) { RootRow(t, k, p); }
    }
  }

  // Which statements they issue.
  lemma RemovalStmts(t: Store, op: Simple)
    requires Keyed(t) && Removes(op) && !op.DeleteRun? && !Rejected(t, op)
    ensures var stmts := SimpleStmts(t, op);
            || (stmts == [] && forall k :: !Removed(t, op, k))
            || (|stmts| == 1 && stmts[0].DeleteRows? && (forall k :: k in t && Removed(t, op, k) ==> k in stmts[0].keys)
                && forall k :: k in stmts[0].keys ==>
                     Removed(t, op, k) && k.table !in {CharacterTable, TemplateTable, ItemTable, RunTable})
  {
    hide Text.Trim;
    if op.DeleteDuration? {
      var k := Key(DurationTable, op.id);
      if k in t { assert KeyOf(t[k]) == k; }
    }
  }

  // They are thrown at for want of a name, and else delete those rows and no others.
  lemma RemoveEffect(t: Store, op: Simple, k: Key)
    requires Keyed(t) && Removes(op)
    ensures var p := Performed(t, op);
            && (p.ok <==> !Rejected(t, op))
            && (k in p.store <==> k in t && !Removed(t, op, k)) && (k in p.store ==> p.store[k] == t[k])
  {
    hide Rejected, Removed, SimpleStmts, Delete;
    if op.DeleteRun? {
      RunRemoved(t, op, k);
    } else {
      NeverRejected(t, op);
      RemovalStmts(t, op);
      RunNone(t);
      if SimpleStmts(t, op) != [] {
        var s := SimpleStmts(t, op)[0];
        assert SimpleStmts(t, op) == [s];
        RunOne(t, s);
        DeleteLeaves(t, s.keys);
      }
    }
  }

  lemma NeverRejected(t: Store, op: Simple)
    requires Removes(op) && !op.DeleteRun?
    ensures !Rejected(t, op)
  {
  }

  lemma RunRemoved(t: Store, op: Simple, k: Key)
    requires Keyed(t) && op.DeleteRun?
    ensures var p := Performed(t, op);
            && (p.ok <==> !Rejected(t, op))
            && (k in p.store <==> k in t && !Removed(t, op, k)) && (k in p.store ==> p.store[k] == t[k])
  {
    hide Delete;
    var run := RunKey(op.id);
    if run in t { assert KeyOf(t[run]) == run; }
    if !Rejected(t, op) {
      var gone := OwnedBy(t, run, op.owner);
      assert SimpleStmts(t, op) == [DeleteRows(gone)];
      RunOne(t, DeleteRows(gone));
      assert gone * t.Keys == gone;
      if gone == {} { DeleteNothing(t); } else { RunGoes(t, op.id, k); }
    }
  }

  // ----------------------------------------------- writing one row, and no other

  // Changed in place to one with the same references, a row without a UNIQUE key
  // is written and nothing fails.
  lemma UpdateInPlace(t: Store, row: Row)
    requires Integrity(t) && KeyOf(row) in t && Refs(row) == Refs(t[KeyOf(row)]) && UniqueOf(row) == NoUnique
    ensures RunAll(t, [Update(row)]) == Progress(Put(t, row), true)
  {
    hide Refs, UniqueOf;
    forall k | k in t && Clash(t[k], row) ensures k == KeyOf(row) { assert KeyOf(t[k]) == k; }
    assert Clashing(t, row) - {KeyOf(row)} == {};
    RunOne(t, Update(row));
  }

  // Written whether it is there or not, it fails exactly on a dangling reference.
  lemma UpsertOne(t: Store, row: Row)
    requires Keyed(t) && UniqueOf(row) == NoUnique
    ensures RunAll(t, [Upsert(row)]) == if Refs(row) <= t.Keys then Progress(Put(t, row), true) else Progress(t, false)
  {
    hide Refs, UniqueOf;
    forall k | k in t && Clash(t[k], row) ensures k == KeyOf(row) { assert KeyOf(t[k]) == k; }
    assert Clashing(t, row) - {KeyOf(row)} == {};
    RunOne(t, Upsert(row));
  }

  lemma InsertOne(t: Store, row: Row)
    requires Keyed(t) && UniqueOf(row) == NoUnique && KeyOf(row) !in t
    ensures RunAll(t, [Insert(row)]) == if Refs(row) <= t.Keys then Progress(Put(t, row), true) else Progress(t, false)
  {
    hide Refs, UniqueOf;
    forall k | k in t ensures !Clash(t[k], row) { assert KeyOf(t[k]) == k; }
    assert Clashing(t, row) == {};
    RunOne(t, Insert(row));
  }

  // Another item has the name.
  predicate NameTaken(t: Store, id: Id, name: string) {
    exists k :: k in t && k != ItemKey(id) && UniqueOf(t[k]) == NameOf(name)
  }

  lemma RenameClash(t: Store, id: Id, row: Row)
    requires Keyed(t) && row.Item? && row.id == id
    ensures Clashing(t, row) - {KeyOf(row)} != {} <==> NameTaken(t, id, row.name)
  {
    if NameTaken(t, id, row.name) {
      var k :| k in t && k != ItemKey(id) && UniqueOf(t[k]) == NameOf(row.name);
      assert k in Clashing(t, row) - {KeyOf(row)};
    }
    if k :| k in Clashing(t, row) - {KeyOf(row)} {
      assert KeyOf(t[k]) == k;
      assert UniqueOf(t[k]) == NameOf(row.name);
    }
  }

  // The operations that write one row.
  predicate Writes(op: Simple) {
    match op
    case SetSetting(_, text) => text.Some?
    case UpdateCharacter(_, _, _, _, _) => true
    case SetBuildScore(_, _, _) => true
    case CreatePreset(_, _, _, _, _, _, _) => true
    case UpdatePreset(_, _, _, _) => true
    case SetDefaultReset(_, _, _) => true
    case SetServerReset(market, _, _, _) => Text.Trim(market) != ""
    case UpdateTemplate(_, _, _, _, _, _, _) => true
    case UseCharge(_, _, _, _) => true
    case AddDuration(_, _, _, _, _, _) => true
    case UpdateItem(_, _, _, _, _) => true
    case SetWatchActive(_, _, _) => true
    case MarkAlertRead(_, _) => true
    case _ => false
  }

  // The row it is about.
  function Target(op: Simple): Key
    requires Writes(op)
  {
    match op
    case SetSetting(key, _) => Key(SettingTable, key)
    case UpdateCharacter(id, _, _, _, _) => CharacterKey(id)
    case SetBuildScore(c, _, _) => Key(BuildScoreTable, c)
    case CreatePreset(id, _, _, _, _, _, _) => Key(PresetTable, id)
    case UpdatePreset(id, _, _, _) => Key(PresetTable, id)
    case SetDefaultReset(_, _, _) => Key(ResetTable, "default")
    case SetServerReset(market, _, _, _) => Key(ResetTable, "server:" + Text.Trim(market))
    case UpdateTemplate(id, _, _, _, _, _, _) => TemplateKey(id)
    case UseCharge(id, _, _, _) => Key(ChargeUseTable, id)
    case AddDuration(id, _, _, _, _, _) => Key(DurationTable, id)
    case UpdateItem(id, _, _, _, _) => ItemKey(id)
    case SetWatchActive(id, _, _) => Key(WatchTable, id)
    case MarkAlertRead(id, _) => Key(AlertTable, id)
  }

  // It inserts under a UUID.
  predicate Adds(op: Simple) { op.CreatePreset? || op.UseCharge? || op.AddDuration? }

  // It writes the row also when it is not there yet.
  predicate Makes(op: Simple) {
    Adds(op) || op.SetSetting? || op.SetBuildScore? || op.SetDefaultReset? || op.SetServerReset?
  }

  // The constraint it would violate.
  predicate Refused(t: Store, op: Simple) {
    match op
    case UpdateItem(id, name, _, _, _) => ItemKey(id) in t && NameTaken(t, id, Text.Trim(name))
    case SetBuildScore(c, _, _) => CharacterKey(c) !in t
    case CreatePreset(_, c, _, _, _, _, _) => CharacterKey(c) !in t
    case UseCharge(_, c, x, _) => CharacterKey(c) !in t || TemplateKey(x) !in t
    case AddDuration(_, c, x, _, _, _) => CharacterKey(c) !in t || TemplateKey(x) !in t
    case _ => false
  }

  function CreatedOf(r: Row): string {
    match r
    case Character(_, _, _, _, created, _) => created
    case Preset(_, _, _, _, _, created, _) => created
    case Template(_, _, _, _, _, _, created, _) => created
    case Item(_, _, _, _, created, _) => created
    case Watch(_, _, _, _, _, _, created, _) => created
    case Alert(_, _, _, _, _, _, _, triggered, _) => triggered
    case _ => ""
  }

  // The same record: its key, its references and its time of creation.
  predicate SameRecord(a: Row, b: Row) {
    KeyOf(a) == KeyOf(b) && Refs(a) == Refs(b) && CreatedOf(a) == CreatedOf(b)
  }

  // The text given, without white space at its ends.
  predicate TextOf(stored: Option<string>, given: Option<string>) {
    (stored.Some? <==> given.Some?) && (given.Some? ==> stored == Some(Text.Trim(given.value)))
  }

  // The row says what the operation was given.
  predicate Says(r: Row, op: Simple) {
    match op
    case SetSetting(_, text) => r.Setting? && Some(r.value) == text
    case UpdateCharacter(_, name, server, class_, now) =>
      r.Character? && r.name == name && r.server == server && r.class_ == class_ && r.updatedAt == now
    case SetBuildScore(_, state, now) => r.BuildScore? && r.state == state && r.updatedAt == now
    case CreatePreset(_, c, name, description, stats, created, updated) =>
      r.Preset? && r.characterId == c && r.name == Text.Trim(name) && TextOf(r.description, description)
      && r.stats == stats
      && r.createdAt == created && r.updatedAt == updated
    case UpdatePreset(_, rename, describe, now) =>
      r.Preset? && (rename.Some? ==> r.name == Text.Trim(rename.value))
      && (describe.Some? ==> TextOf(r.description, describe.value))
      && r.updatedAt == now
    case SetDefaultReset(hhmm, day, now) => r.Reset? && r.dailyReset == hhmm && r.weeklyDay == day && r.updatedAt == now
    case SetServerReset(_, hhmm, day, now) =>
      r.Reset? && r.dailyReset == hhmm && r.weeklyDay == day && r.updatedAt == now
    case UpdateTemplate(_, title, kind, estimate, recharge, stacks, now) =>
      && r.Template? && r.title == title && r.kind == kind && WholeFrom(r.estimate, estimate, 0) && r.updatedAt == now
      && r.rechargeHours == (if kind.CHARGE? then recharge else None)
      && r.maxStacks == (if kind.CHARGE? then stacks else None)
    case UseCharge(_, c, x, at) => r.ChargeUse? && r.characterId == c && r.templateId == x && r.usedAt == at
    case AddDuration(_, c, x, started, ended, lasted) =>
      && r.Duration? && r.characterId == c && r.timedTemplate == Some(x) && Some(r.startedAt) == started
      && Some(r.endedAt) == ended
      && r.timed == r.timed.Floor as real && WholeFrom(r.timed.Floor, lasted, 1)
    case UpdateItem(_, name, category, note, now) =>
      r.Item? && r.name == Text.Trim(name) && r.category == TrimmedOrNone(category) && r.note == TrimmedOrNone(note)
      && r.updatedAt == now
    case SetWatchActive(_, on, now) => r.Watch? && r.active == on && r.updatedAt == now
    case MarkAlertRead(_, now) => r.Alert? && r.readAt == Some(now)
    case _ => true
  }

  // The parts of the row the operation is given nothing for.
  predicate Untouched(a: Row, b: Row, op: Simple) {
    match op
    case UpdatePreset(_, rename, describe, _) =>
      && a.Preset? && b.Preset? && a.stats == b.stats
      && (rename.None? ==> a.name == b.name) && (describe.None? ==> a.description == b.description)
    case SetWatchActive(_, _, _) =>
      a.Watch? && b.Watch? && a.market == b.market && a.op == b.op && a.threshold == b.threshold
    case MarkAlertRead(_, _) =>
      && a.Alert? && b.Alert? && a.market == b.market && a.itemName == b.itemName && a.op == b.op
      && a.threshold == b.threshold
      && a.price == b.price
    case _ => true
  }

  // What an operation that writes one row does: it fails exactly when it is
  // rejected or refused, and then changes nothing; it never touches another row;
  // a row that is not there is made only by an operation that makes rows; and the
  // row written is the same record, saying what was given and untouched otherwise.
  ghost predicate WritesOne(t: Store, op: Simple, p: Progress)
    requires Writes(op)
  {
    var k := Target(op);
    && (p.ok <==> !Rejected(t, op) && !Refused(t, op))
    && (!p.ok ==> p.store == t)
    && (forall j :: j != k ==> (j in p.store <==> j in t) && (j in t ==> p.store[j] == t[j]))
    && (p.ok ==> (k in p.store <==> k in t || Makes(op)))
    && (p.ok && k in p.store ==>
          Says(p.store[k], op) && (k in t ==> SameRecord(t[k], p.store[k]) && Untouched(t[k], p.store[k], op)))
  }

  // Settings for a blank server name write nothing.
  lemma WriteEffect(t: Store, op: Simple)
    requires Integrity(t) && (Writes(op) || op.SetServerReset?) && (Adds(op) ==> Target(op) !in t)
    ensures Writes(op) ==> WritesOne(t, op, Performed(t, op))
    ensures !Writes(op) ==> Performed(t, op) == Progress(t, true)
  {
    hide WritesOne, Performed;
    if !Writes(op) {
      BlankServerIsIdle(t, op);
    } else if op.UpdateCharacter? || op.UpdateTemplate? || op.SetWatchActive? || op.MarkAlertRead? || op.UpdatePreset? {
      UpdateEffect(t, op);
    } else if op.UpdateItem? {
      RenameEffect(t, op);
    } else if Adds(op) {
      AddEffect(t, op);
    } else {
      SetEffect(t, op);
    }
  }

  // One row written: what is left to show is about the row.
  lemma RowWritten(t: Store, op: Simple, row: Row)
    requires Writes(op) && KeyOf(row) == Target(op) && !Rejected(t, op) && !Refused(t, op)
    requires Says(row, op) && (Target(op) in t || Makes(op))
    requires Target(op) in t ==> SameRecord(t[Target(op)], row) && Untouched(t[Target(op)], row, op)
    ensures WritesOne(t, op, Progress(Put(t, row), true))
  {
    hide Says, Refs, Rejected, Refused, Target;
  }

  lemma NothingWritten(t: Store, op: Simple, ok: bool)
    requires Writes(op) && (ok <==> !Rejected(t, op) && !Refused(t, op)) && (ok ==> Target(op) !in t && !Makes(op))
    ensures WritesOne(t, op, Progress(t, ok))
  {
    hide Says, Refs, Rejected, Refused, Target;
  }

  // The row as an update of a present row leaves it.
  function Edited(r: Row, op: Simple): Row {
    match op
    case UpdateCharacter(id, name, server, class_, now) => Character(id, name, server, class_, CreatedOf(r), now)
    case UpdateTemplate(id, title, kind, estimate, recharge, stacks, now) =>
      TemplateRow(id, title, kind, estimate, recharge, stacks, CreatedOf(r), now)
    case UpdatePreset(id, rename, describe, now) =>
      if r.Preset? then Described(r, id, match rename case None => r.name case Some(n) => Text.Trim(n), describe, now)
      else r
    case SetWatchActive(id, on, now) =>
      if r.Watch? then Watch(id, r.market, r.itemId, r.op, r.threshold, on, r.createdAt, now) else r
    case MarkAlertRead(id, now) =>
      if r.Alert? then Alert(id, r.market, r.itemId, r.itemName, r.op, r.threshold, r.price, r.triggeredAt, Some(now))
      else r
    case _ => r
  }

  lemma EditedRow(t: Store, op: Simple)
    requires Keyed(t) && Writes(op) && Target(op) in t && !Rejected(t, op)
    requires op.UpdateCharacter? || op.UpdateTemplate? || op.SetWatchActive? || op.MarkAlertRead? || op.UpdatePreset?
    ensures var row := Edited(t[Target(op)], op);
            && SimpleStmts(t, op) == [Update(row)] && KeyOf(row) == Target(op) && UniqueOf(row) == NoUnique
            && Says(row, op) && SameRecord(t[Target(op)], row) && Untouched(t[Target(op)], row, op)
  {
    hide Text.Trim, Text.Trimmed;
    assert KeyOf(t[Target(op)]) == Target(op);
  }

  lemma UpdateEffect(t: Store, op: Simple)
    requires Integrity(t)
    requires (op.UpdateCharacter? || op.UpdateTemplate? || op.SetWatchActive? || op.MarkAlertRead? || op.UpdatePreset?)
    ensures WritesOne(t, op, Performed(t, op))
  {
    hide WritesOne, Rejected, SimpleStmts, Edited, Says, Refs, RefsResolve, UniqueHolds;
    if Rejected(t, op) {
      NothingWritten(t, op, false);
    } else if Target(op) in t {
      EditedRow(t, op);
      UpdateInPlace(t, Edited(t[Target(op)], op));
      RowWritten(t, op, Edited(t[Target(op)], op));
    } else {
      NothingToUpdate(t, op);
      RunNone(t);
      NothingWritten(t, op, true);
    }
  }

  lemma NothingToUpdate(t: Store, op: Simple)
    requires Writes(op) && Target(op) !in t && !Rejected(t, op) && !Makes(op)
    ensures SimpleStmts(t, op) == []
  {
    hide Text.Trim;
  }

  lemma RenameEffect(t: Store, op: Simple)
    requires Integrity(t) && op.UpdateItem?
    ensures WritesOne(t, op, Performed(t, op))
  {
    hide WritesOne, Text.Trim, TrimmedOrNone, RefsResolve, UniqueHolds, NameTaken;
    if Rejected(t, op) {
      NothingWritten(t, op, false);
    } else if Target(op) in t {
      assert KeyOf(t[Target(op)]) == Target(op);
      var row := Item(op.id, Text.Trim(op.name), TrimmedOrNone(op.category), TrimmedOrNone(op.note),
                      t[Target(op)].createdAt, op.now);
      assert SimpleStmts(t, op) == [Update(row)];
      RunOne(t, Update(row));
      RenameClash(t, op.id, row);
      if Refused(t, op) { NothingWritten(t, op, false); } else { RowWritten(t, op, row); }
    } else {
      NothingToUpdate(t, op);
      RunNone(t);
      NothingWritten(t, op, true);
    }
  }

  // The row an operation that makes rows writes.
  function Made(op: Simple): Row
    requires Writes(op) && Makes(op)
  {
    match op
    case SetSetting(key, text) => Setting(key, text.value)
    case SetBuildScore(c, state, now) => BuildScore(c, state, now)
    case SetDefaultReset(hhmm, day, now) => Reset("default", hhmm, day, now)
    case SetServerReset(market, hhmm, day, now) => Reset("server:" + Text.Trim(market), hhmm, day, now)
    case CreatePreset(id, c, name, description, stats, created, updated) =>
      Preset(id, c, Text.Trim(name), TrimmedText(description), stats, created, updated)
    case UseCharge(id, c, x, at) => ChargeUse(id, c, x, at)
    case AddDuration(id, c, x, started, ended, lasted) =>
      Duration(id, c, Some(x), started.GetOr(""), ended.GetOr(""),
               if lasted.Floor < 1 then 1.0 else lasted.Floor as real)
  }

  lemma InsertedRow(t: Store, op: Simple)
    requires Writes(op) && Adds(op)
    ensures var row := Made(op);
            && KeyOf(row) == Target(op) && UniqueOf(row) == NoUnique
            && (!Rejected(t, op) ==> Says(row, op) && SimpleStmts(t, op) == [Insert(row)])
            && (Refs(row) <= t.Keys <==> !Refused(t, op))
  {
    hide Text.Trim, NormalStats;
  }

  lemma UpsertedRow(t: Store, op: Simple)
    requires Keyed(t) && Writes(op) && Makes(op) && !Adds(op)
    ensures var row := Made(op);
            && KeyOf(row) == Target(op) && UniqueOf(row) == NoUnique && Says(row, op)
            && (!Rejected(t, op) ==> SimpleStmts(t, op) == [Upsert(row)]) && (Refs(row) <= t.Keys <==> !Refused(t, op))
            && (Target(op) in t ==> SameRecord(t[Target(op)], row))
  {
    hide Text.Trim;
    if Target(op) in t { assert KeyOf(t[Target(op)]) == Target(op); }
  }

  lemma AddEffect(t: Store, op: Simple)
    requires Keyed(t) && Writes(op) && Adds(op) && Target(op) !in t
    ensures WritesOne(t, op, Performed(t, op))
  {
    hide WritesOne, Rejected, Refused, SimpleStmts, Says, Refs, Made, Target;
    InsertedRow(t, op);
    if Rejected(t, op) || Refused(t, op) { NothingWritten(t, op, false); } else { RowWritten(t, op, Made(op)); }
    InsertOne(t, Made(op));
  }

  lemma SetEffect(t: Store, op: Simple)
    requires Keyed(t) && Writes(op) && Makes(op) && !Adds(op)
    ensures WritesOne(t, op, Performed(t, op))
  {
    hide WritesOne, Rejected, Refused, SimpleStmts, Says, Refs, Made, Target;
    UpsertedRow(t, op);
    if Rejected(t, op) || Refused(t, op) { NothingWritten(t, op, false); } else { RowWritten(t, op, Made(op)); }
    UpsertOne(t, Made(op));
  }

  lemma BlankServerIsIdle(t: Store, op: Simple)
    requires op.SetServerReset? && !Writes(op)
    ensures Performed(t, op) == Progress(t, true)
  {
    assert SimpleStmts(t, op) == [];
    RunNone(t);
  }
}
