// What a batch of inserts leaves of its list, row by row, and so what an import
// leaves of a whole backup.
module Contents {
  import opened Wrappers
  import opened Json
  import opened Schema
  import opened Loading
  import opened Outcomes
  import opened Importing
  import opened Backup
  import opened Restore
  import opened Safety
  import opened Reading

  predicate Met(rows: seq<Row>, r: Row) {
    exists i :: 0 <= i < |rows| && Clash(rows[i], r)
  }

  // The rows INSERT OR IGNORE keeps of a list: those whose id and UNIQUE key no
  // kept one before them has.
  function Stored(rows: seq<Row>): seq<Row> {
    if rows == [] then []
    else
      var init, last := Stored(rows[..|rows| - 1]), rows[|rows| - 1];
      if Met(init, last) then init else init + [last]
  }

  // The rows with the last word on their keys are there, and no others of the table.
  ghost predicate HoldsLast(t: Store, rows: seq<Row>, table: Table) {
    && (forall i :: LastWord(rows, i) ==> KeyOf(rows[i]) in t && t[KeyOf(rows[i])] == rows[i])
    && (forall k :: k in t && k.table == table ==> Survives(rows, k))
  }

  // What the statements of a table leave of its list: the first rows where they
  // ignore, the last ones where they replace.
  ghost predicate Holds(t: Store, rows: seq<Row>, table: Table) {
    if VerbOf(table) == OrIgnore then Lists(Stored(rows), t, table) else HoldsLast(t, rows, table)
  }

  ghost predicate Elsewhere(t: Store, t': Store, table: Table) {
    forall k: Key :: k.table != table ==> (k in t' <==> k in t) && (k in t ==> t'[k] == t[k])
  }

  lemma ElsewhereHolds(t: Store, t': Store, rows: seq<Row>, table: Table, other: Table)
    requires Elsewhere(t, t', table) && AllIn(rows, other) && other != table && Holds(t, rows, other)
    ensures Holds(t', rows, other)
  {
    hide VerbOf, Stored;
    if VerbOf(other) == OrIgnore {
      assert KeysIn(t', other) == KeysIn(t, other);
      forall r | r in Stored(rows) ensures KeyOf(r) in t' && t'[KeyOf(r)] == r {
        var i :| 0 <= i < |Stored(rows)| && Stored(rows)[i] == r;
        assert KeyOf(r) in KeySet(Stored(rows));
      }
    } else {
      forall i | LastWord(rows, i) ensures KeyOf(rows[i]) in t' && t'[KeyOf(rows[i])] == rows[i] {
        assert rows[i] in rows;
      }
    }
  }

  // ------------------------------------------------------- one statement more

  lemma LastStep(t: Store, rows: seq<Row>, r: Row, table: Table)
    requires Keyed(t) && HoldsLast(t, rows, table) && AllIn(rows, table) && TableOf(r) == table
    ensures HoldsLast(Put(t - Clashing(t, r), r), rows + [r], table)
    ensures Elsewhere(t, Put(t - Clashing(t, r), r), table)
  {
    var more, t' := rows + [r], Put(t - Clashing(t, r), r);
    forall k | k in Clashing(t, r) ensures k.table == table { UniqueNamesTable(t[k], r); }
    forall i | LastWord(more, i) ensures KeyOf(more[i]) in t' && t'[KeyOf(more[i])] == more[i] {
      if i < |rows| {
        LastBefore(rows, r, i);
      }
    }
    forall k | k in t' && k.table == table ensures Survives(more, k) {
      if k == KeyOf(r) {
        assert LastWord(more, |rows|);
      } else {
        var i :| LastWord(rows, i) && KeyOf(rows[i]) == k;
        LastStill(rows, r, i);
      }
    }
  }

  lemma LastBefore(rows: seq<Row>, r: Row, i: int)
    requires LastWord(rows + [r], i) && i < |rows|
    ensures LastWord(rows, i) && (rows + [r])[i] == rows[i] && !Clash(r, rows[i])
  {
    assert (rows + [r])[|rows|] == r;
    forall j | i < j < |rows| ensures !Clash(rows[j], rows[i]) { assert (rows + [r])[j] == rows[j]; }
  }

  lemma LastStill(rows: seq<Row>, r: Row, i: int)
    requires LastWord(rows, i) && !Clash(r, rows[i])
    ensures LastWord(rows + [r], i) && (rows + [r])[i] == rows[i]
  {
    var more := rows + [r];
    forall j | i < j < |more| ensures !Clash(more[j], more[i]) { assert j < |rows| ==> more[j] == rows[j]; }
  }

  // Whether a row clashes with what is stored is read off the list of the stored.
  lemma MetIff(t: Store, rows: seq<Row>, r: Row, table: Table)
    requires Keyed(t) && Lists(rows, t, table) && TableOf(r) == table
    ensures Met(rows, r) <==> Clashing(t, r) != {}
  {
    if Met(rows, r) {
      var i :| 0 <= i < |rows| && Clash(rows[i], r);
      assert rows[i] in rows && KeyOf(rows[i]) in Clashing(t, r);
    }
    if k :| k in Clashing(t, r) {
      UniqueNamesTable(t[k], r);
      assert k in KeySet(rows);
      var i :| 0 <= i < |rows| && KeyOf(rows[i]) == k;
      assert rows[i] in rows && Clash(rows[i], r);
    }
  }

  lemma OneMoreListed(t: Store, rows: seq<Row>, r: Row)
    requires Keyed(t) && Lists(rows, t, TableOf(r)) && KeyOf(r) !in t
    ensures Lists(rows + [r], Put(t, r), TableOf(r))
  {
    hide KeySet;
    var more, t' := rows + [r], Put(t, r);
    KeySetSnoc(rows, r);
    forall i | 0 <= i < |rows| ensures KeyOf(rows[i]) in t && more[i] == rows[i] { assert rows[i] in rows; }
    assert KeysIn(t', TableOf(r)) == KeysIn(t, TableOf(r)) + {KeyOf(r)};
  }

  // --------------------------------------------------------------- whole batches

  // INSERT OR IGNORE: exactly the rows kept, as they are listed.
  lemma {:induction false} IgnoreContents(t: Store, rows: seq<Row>, table: Table)
    requires Integrity(t) && KeysIn(t, table) == {} && AllIn(rows, table) && RunBatch(t, OrIgnore, rows).Done?
    ensures Lists(Stored(rows), RunBatch(t, OrIgnore, rows).store, table)
    ensures Elsewhere(t, RunBatch(t, OrIgnore, rows).store, table)
    decreases rows
  {
    hide Integrity, Exec, Met, Lists, Elsewhere, RunBatch, KeysIn, TableOf;
    NothingToRun(t, OrIgnore);
    if rows != [] {
      var init, last := rows[..|rows| - 1], rows[|rows| - 1];
      assert rows == init + [last] && last in rows;
      RunBatchSnoc(t, OrIgnore, init, last);
      RunBatchKeepsIntegrity(t, OrIgnore, init);
      IgnoreContents(t, init, table);
      IgnoreStep(t, RunBatch(t, OrIgnore, init).store, Stored(init), last, table);
    } else {
      NothingHeld(t, table);
    }
  }

  lemma NothingToRun(t: Store, verb: Verb)
    ensures RunBatch(t, verb, []) == Done(t)
  {
  }

  lemma NothingHeld(t: Store, table: Table)
    requires KeysIn(t, table) == {}
    ensures Lists([], t, table) && Elsewhere(t, t, table) && HoldsLast(t, [], table)
  {
    forall k | k in t && k.table == table ensures k in KeysIn(t, table) {}
  }

  lemma IgnoreStep(t0: Store, t: Store, rows: seq<Row>, r: Row, table: Table)
    requires Integrity(t) && Lists(rows, t, table) && TableOf(r) == table && Elsewhere(t0, t, table)
    requires Exec(t, InsertOrIgnore(r)).Done?
    ensures var t' := Exec(t, InsertOrIgnore(r)).store;
            Lists(if Met(rows, r) then rows else rows + [r], t', table) && Elsewhere(t0, t', table)
  {
    hide Lists, Met, UniqueHolds, RefsResolve;
    MetIff(t, rows, r, table);
    if !Met(rows, r) {
      KeyIsFresh(t, r);
      OneMoreListed(t, rows, r);
    }
  }

  // INSERT and INSERT OR REPLACE: exactly the rows with the last word.
  lemma {:induction false} LastContents(t: Store, verb: Verb, rows: seq<Row>, table: Table)
    requires Integrity(t) && KeysIn(t, table) == {} && AllIn(rows, table) && Unreferenced(t, table)
    requires forall r, p :: r in rows && p in Refs(r) ==> p.table != table
    requires verb in {PlainInsert, OrReplace} && RunBatch(t, verb, rows).Done?
    ensures HoldsLast(RunBatch(t, verb, rows).store, rows, table)
    ensures Elsewhere(t, RunBatch(t, verb, rows).store, table) && Unreferenced(RunBatch(t, verb, rows).store, table)
    decreases rows
  {
    hide Integrity, Exec, HoldsLast, Elsewhere, Unreferenced, Refs, RunBatch, KeysIn, TableOf;
    NothingToRun(t, verb);
    if rows != [] {
      var init, last := rows[..|rows| - 1], rows[|rows| - 1];
      assert rows == init + [last] && last in rows && forall r :: r in init ==> r in rows;
      RunBatchSnoc(t, verb, init, last);
      RunBatchKeepsIntegrity(t, verb, init);
      LastContents(t, verb, init, table);
      LastStatement(t, RunBatch(t, verb, init).store, verb, init, last, table);
    } else {
      NothingHeld(t, table);
    }
  }

  lemma LastStatement(t0: Store, t: Store, verb: Verb, rows: seq<Row>, r: Row, table: Table)
    requires Integrity(t) && HoldsLast(t, rows, table) && AllIn(rows, table) && TableOf(r) == table
    requires Elsewhere(t0, t, table) && Unreferenced(t, table) && forall p :: p in Refs(r) ==> p.table != table
    requires verb in {PlainInsert, OrReplace} && Exec(t, Statement(verb, r)).Done?
    ensures var t' := Exec(t, Statement(verb, r)).store;
            HoldsLast(t', rows + [r], table) && Elsewhere(t0, t', table) && Unreferenced(t', table)
  {
    hide HoldsLast, UniqueHolds, RefsResolve, Refs, Delete, Clashing;
    assert Exec(t, Statement(verb, r)).store == Put(t - Clashing(t, r), r) by {
      if verb == OrReplace { ReplaceOne(t, r); } else { assert t - {} == t; }
    }
    LastStep(t, rows, r, table);
  }

  // --------------------------------------------------------------- whole plans

  lemma SettingContents(t: Store, rows: seq<Row>)
    requires Keyed(t) && KeysIn(t, SettingTable) == {} && AllIn(rows, SettingTable) && |rows| <= 1
    requires RunBatch(t, OrUpdate, rows).Done?
    ensures HoldsLast(RunBatch(t, OrUpdate, rows).store, rows, SettingTable)
    ensures Elsewhere(t, RunBatch(t, OrUpdate, rows).store, SettingTable)
  {
    hide HoldsLast, Elsewhere;
    NothingHeld(t, SettingTable);
    if rows != [] {
      assert rows[0] in rows && rows[1..] == [] && rows == [] + [rows[0]];
      SettingIsNew(t, rows[0]);
      LastStep(t, [], rows[0], SettingTable);
    }
  }

  lemma SettingIsNew(t: Store, r: Row)
    requires Keyed(t) && KeysIn(t, SettingTable) == {} && TableOf(r) == SettingTable
    ensures Put(t - Clashing(t, r), r) == Put(t, r)
  {
    forall k | k in t ensures !Clash(t[k], r) {
      assert KeyOf(t[k]) == k && (k.table == SettingTable ==> k in KeysIn(t, SettingTable));
    }
    assert Clashing(t, r) == {};
  }

  // One table of a plan, once its parents are in.
  lemma TableContents(p: Plan, t: Store, table: Table)
    requires WellFormed(p) && table != AlertTable && Stage(p, t, Position(table))
    requires RunBatch(t, VerbOf(table), p[table]).Done?
    ensures Holds(RunBatch(t, VerbOf(table), p[table]).store, p[table], table)
    ensures Elsewhere(t, RunBatch(t, VerbOf(table), p[table]).store, table)
  {
    hide Stage, RunBatch, HoldsLast, Lists, Elsewhere, Refs;
    StageIntegrity(p, t, Position(table));
    NothingRefersYet(p, t, Position(table), table);
    forall r, q | r in p[table] && q in Refs(r) ensures q.table != table { RefsPointBack(r); }
    match VerbOf(table)
    case OrIgnore => IgnoreContents(t, p[table], table);
    case OrUpdate => SettingContents(t, p[table]);
    case _ => LastContents(t, VerbOf(table), p[table], table);
  }

  lemma StageIntegrity(p: Plan, t: Store, i: int)
    requires WellFormed(p) && Stage(p, t, i)
    ensures Integrity(t)
  {
  }

  // The tables before position i hold what their statements leave of their lists.
  ghost predicate HoldsUpTo(p: Plan, t: Store, i: int)
    requires WellFormed(p)
  {
    forall table :: table != AlertTable && Position(table) < i ==> Holds(t, p[table], table)
  }

  lemma HoldsOneMore(p: Plan, t: Store, t': Store, table: Table)
    requires WellFormed(p) && table != AlertTable && HoldsUpTo(p, t, Position(table))
    requires Elsewhere(t, t', table) && Holds(t', p[table], table)
    ensures HoldsUpTo(p, t', Position(table) + 1)
  {
    hide Holds, Elsewhere;
    forall other | other != AlertTable && Position(other) < Position(table) + 1 ensures Holds(t', p[other], other) {
      SamePosition(other, table);
      if other != table { ElsewhereHolds(t, t', p[other], table, other); }
    }
  }

  // Loading a plan leaves of every list just what its statements leave.
  lemma {:induction false} PlanContents(p: Plan, t: Store, i: nat)
    requires WellFormed(p) && Filtered(p) && i <= |ORDER| && Stage(p, t, i) && HoldsUpTo(p, t, i)
    requires RunBatches(t, BatchesFrom(p, i)).Done?
    ensures HoldsUpTo(p, RunBatches(t, BatchesFrom(p, i)).store, |ORDER|)
    decreases |ORDER| - i
  {
    hide AllIn, Filtered, Stage, HoldsUpTo, Holds, Elsewhere, RunBatch, Goes, VerbOf, Position;
    if i < |ORDER| {
      OrderPosition(i);
      var table := ORDER[i];
      BatchesStep(p, t, i);
      TableStage(p, t, table);
      TableContents(p, t, table);
      var t' := RunBatch(t, VerbOf(table), p[table]).store;
      HoldsOneMore(p, t, t', table);
      PlanContents(p, t', i + 1);
    }
  }

  lemma LastStage(p: Plan, t: Store)
    requires WellFormed(p) && Stage(p, t, |ORDER|) && HoldsUpTo(p, t, |ORDER|)
    ensures Integrity(t) && (forall k :: k in t ==> k.table != AlertTable)
    ensures forall table :: table != AlertTable ==> Holds(t, p[table], table)
  {
    hide Holds, UniqueHolds, RefsResolve;
    forall table | table != AlertTable ensures Holds(t, p[table], table) { PositionInOrder(table); }
  }

  lemma PlanStarts(p: Plan)
    requires WellFormed(p)
    ensures Stage(p, map[], 0) && HoldsUpTo(p, map[], 0)
  {
    EmptyStage(p);
  }

  // What a backup leaves in an empty database, table by table.
  lemma LoadedContents(raw: Value, now: string)
    requires Loaded(raw, now).Done?
    ensures forall table :: table != AlertTable ==> Holds(Loaded(raw, now).store, RowsFor(raw, now, table), table)
    ensures forall k :: k in Loaded(raw, now).store ==> k.table != AlertTable
    ensures Integrity(Loaded(raw, now).store)
  {
    hide Filtered, Sifted, RowsFor, Holds, RunBatches, BatchesFrom, Stage, HoldsUpTo, Integrity, AllIn, GoesFrom;
    var p := PlanOf(raw, now);
    PlanIsWellFormed(raw, now);
    PlanIsSifted(raw, now);
    SiftedIsFiltered(p);
    PlanOutcome(p);
    PlanStarts(p);
    PlanContents(p, map[], 0);
    LastStage(p, Loaded(raw, now).store);
    forall table | table != AlertTable ensures Holds(Loaded(raw, now).store, RowsFor(raw, now, table), table) {
      assert p[table] == RowsFor(raw, now, table);
    }
  }

  // ------------------------------------------------------------- main results

  // An import refuses what is no object, and then any version but the four.
  lemma ImportRefuses(t: Store, raw: Value, now: string, scan: seq<(Id, Id)>)
    ensures Import(t, raw, now, scan) == Err(BadBackup) <==> !raw.Object? && !raw.Array?
    ensures Import(t, raw, now, scan) == Err(UnsupportedVersion) <==>
            (raw.Object? || raw.Array?)
            && forall n :: n in {1.0, 2.0, 3.0, 4.0} ==> !At(raw, [SchemaVersion], Number(n))
  {
    hide RunBatches, BatchesFrom, PlanOf, RunBatch;
    forall n ensures At(raw, [SchemaVersion], Number(n)) <==> Version(raw) == Number(n) {
      AtOne(raw, SchemaVersion, Number(n));
    }
  }

  // A readable entry of the row's list says it.
  ghost predicate Told(r: Row, raw: Value, k: Known) {
    && !(r.Reset? && VersionOne(raw))
    && exists xs: seq<Value>, n :: At(raw, PathOf(TableOf(r)), Array(xs)) && 0 <= n < |xs| && Tells(r, xs[n], k)
  }

  // An assignment made up for a character and a template.
  predicate FilledIn(r: Row, now: string) {
    && r.Assignment? && r.id == "assign:" + r.characterId + ":" + r.templateId && r.enabled && r.targetCount.None?
    && r.createdAt == now && r.updatedAt == now
  }

  // The active character, when the backup names one that is not the empty text.
  ghost predicate TellsActive(r: Row, raw: Value) {
    r.Setting? && r.id == "activeCharacterId" && At(raw, [ActiveCharacterId], Str(r.value)) && r.value != ""
  }

  ghost predicate DefaultFrom(r: Row, raw: Value, now: string) {
    r.Reset? && r.id == "default" && TellsDefault(r.dailyReset, r.weeklyDay, raw) && r.updatedAt == now
  }

  lemma ListedHere(raw: Value, table: Table)
    requires table !in {SettingTable, AlertTable} && RawList(raw, table) != []
    ensures At(raw, PathOf(table), Array(RawList(raw, table))) && !(table == ResetTable && VersionOne(raw))
  {
    hide At, RawList, PathOf;
    ListRead(raw, table);
  }

  lemma ListedIsTold(raw: Value, now: string, table: Table, r: Row)
    requires r in ListOf(raw, now, table)
    ensures TableOf(r) == table && Told(r, raw, KnownOf(raw, now))
  {
    hide At, Tells, Readable, Collect, KnownOf, RawList, PathOf, Places, VersionOne;
    var k, vs := KnownOf(raw, now), RawList(raw, table);
    NoList(raw, now);
    ListTold(table, k, vs);
    var places :| Places(ListOf(raw, now, table), vs, k, table, places);
    var i :| 0 <= i < |ListOf(raw, now, table)| && ListOf(raw, now, table)[i] == r;
    PlaceTells(ListOf(raw, now, table), vs, k, table, places, i);
    ListedHere(raw, table);
  }

  lemma PlaceTells(rows: seq<Row>, vs: seq<Value>, k: Known, table: Table, places: seq<int>, i: nat)
    requires Places(rows, vs, k, table, places) && i < |rows|
    ensures |places| == |rows| && 0 <= places[i] < |vs| && Tells(rows[i], vs[places[i]], k) && TableOf(rows[i]) == table
  {
    hide Tells, Readable, TableOf;
  }

  lemma NoList(raw: Value, now: string)
    ensures ListOf(raw, now, SettingTable) == [] && ListOf(raw, now, AlertTable) == []
  {
  }

  // Every row read from a backup is told by it.
  lemma PlannedIsTold(raw: Value, now: string, table: Table, r: Row)
    requires table != AlertTable && r in RowsFor(raw, now, table)
    ensures TableOf(r) == table
    ensures Told(r, raw, KnownOf(raw, now)) || TellsActive(r, raw) || DefaultFrom(r, raw, now)
  {
    hide Told, KnownOf, ListOf, DefaultHhmm, DefaultDay;
    if r in ListOf(raw, now, table) {
      ListedIsTold(raw, now, table, r);
    } else if table == ResetTable {
      DefaultTold(raw);
    } else {
      AtOne(raw, ActiveCharacterId, Str(ActiveOf(raw)));
    }
  }

  lemma HeldIsPlanned(t: Store, raw: Value, now: string, k: Key)
    requires Integrity(t) && k in t && k.table != AlertTable && Holds(t, RowsFor(raw, now, k.table), k.table)
    ensures t[k] in RowsFor(raw, now, k.table)
  {
    hide RowsFor, UniqueHolds, RefsResolve;
    var rows := RowsFor(raw, now, k.table);
    if VerbOf(k.table) == OrIgnore {
      StoredAreListed(rows);
      assert k in KeySet(Stored(rows));
      var i :| 0 <= i < |Stored(rows)| && KeyOf(Stored(rows)[i]) == k;
      assert Stored(rows)[i] in Stored(rows);
    } else {
      var i :| LastWord(rows, i) && KeyOf(rows[i]) == k;
    }
  }

  lemma {:induction false} StoredAreListed(rows: seq<Row>)
    ensures forall r :: r in Stored(rows) ==> r in rows
    decreases rows
  {
    if rows != [] {
      StoredAreListed(rows[..|rows| - 1]);
    }
  }

  lemma FilledRows(scan: seq<(Id, Id)>, now: string)
    ensures AllIn(FillRows(scan, now), AssignmentTable)
    ensures forall r :: r in FillRows(scan, now) ==> FilledIn(r, now)
  {
  }

  // A backup that is taken leaves what its lists leave, and besides it only
  // assignments made up for the pairs that had none.
  lemma ImportContents(t: Store, raw: Value, now: string, scan: seq<(Id, Id)>)
    requires Integrity(t) && ScanFits(scan, raw, now) && Import(t, raw, now, scan).Ok?
    ensures Loaded(raw, now).Done?
    ensures var t', loaded := Import(t, raw, now, scan).value, Loaded(raw, now).store;
            && (forall table :: table != AlertTable ==> Holds(loaded, RowsFor(raw, now, table), table))
            && (forall k :: k in loaded ==> k in t' && t'[k] == loaded[k])
            && (forall k :: k in t' && k !in loaded ==> FilledIn(t'[k], now))
  {
    hide RowsFor, Holds, RunBatches, BatchesFrom, PlanOf, FillRows, RunBatch, FilledIn;
    WipeEmpties(t);
    LoadedContents(raw, now);
    var loaded := Loaded(raw, now).store;
    FilledRows(scan, now);
    IgnoreOnlyAdds(loaded, FillRows(scan, now), AssignmentTable);
    IgnoredAreListed(loaded, FillRows(scan, now), AssignmentTable);
  }

  lemma DefaultIsFirst(raw: Value, now: string)
    ensures var rows := RowsFor(raw, now, ResetTable);
            LastWord(rows, 0) && DefaultFrom(rows[0], raw, now) && KeyOf(rows[0]) == Key(ResetTable, "default")
  {
    hide ListOf, DefaultHhmm, DefaultDay, TellsDefault, KnownOf;
    DefaultTold(raw);
    var rows := RowsFor(raw, now, ResetTable);
    forall j | 0 < j < |rows| ensures !Clash(rows[j], rows[0]) {
      assert rows[j] == ListOf(raw, now, ResetTable)[j - 1];
      ServerRow(raw, now, rows[j]);
      assert rows[j].id[0] == 's' && rows[0].id[0] == 'd';
    }
  }

  lemma ServerRow(raw: Value, now: string, r: Row)
    requires r in ListOf(raw, now, ResetTable)
    ensures r.Reset? && "server:" <= r.id
  {
    hide KnownOf, RawList, Collect, ReadsName, ReadsText, ReadsNumber;
    ListedIsTold(raw, now, ResetTable, r);
  }

  lemma ActiveIsOnly(raw: Value, now: string, s: string)
    requires At(raw, [ActiveCharacterId], Str(s)) && s != ""
    ensures var rows := RowsFor(raw, now, SettingTable);
            LastWord(rows, 0) && KeyOf(rows[0]) == Key(SettingTable, "activeCharacterId")
  {
    AtOne(raw, ActiveCharacterId, Str(s));
  }

  // Whatever the raw value: after an import every row is told by an entry of the
  // backup where the list of its table is kept, or is the active character, or an
  // assignment made up; and the default settings are those the backup tells of.
  lemma ImportTells(t: Store, raw: Value, now: string, scan: seq<(Id, Id)>)
    requires Integrity(t) && ScanFits(scan, raw, now) && Import(t, raw, now, scan).Ok?
    ensures var t', k := Import(t, raw, now, scan).value, KnownOf(raw, now);
            && Key(ResetTable, "default") in t' && DefaultFrom(t'[Key(ResetTable, "default")], raw, now)
            && TellsDefault(k.dailyReset, k.weeklyDay, raw) && k.now == now
            && (forall key :: key in t' && key != Key(ResetTable, "default") ==>
                  Told(t'[key], raw, k) || TellsActive(t'[key], raw) || FilledIn(t'[key], now))
            && (forall s :: At(raw, [ActiveCharacterId], Str(s)) && s != "" ==>
                  Key(SettingTable, "activeCharacterId") in t')
  {
    hide Told, TellsDefault, TellsActive, FilledIn, RowsFor, Import, Loaded, UniqueHolds, RefsResolve, At, LastWord;
    ImportContents(t, raw, now, scan);
    LoadedContents(raw, now);
    var loaded := Loaded(raw, now).store;
    DefaultTold(raw);
    DefaultIsFirst(raw, now);
    forall s | At(raw, [ActiveCharacterId], Str(s)) && s != ""
      ensures Key(SettingTable, "activeCharacterId") in loaded
    {
      ActiveIsOnly(raw, now, s);
      assert Holds(loaded, RowsFor(raw, now, SettingTable), SettingTable);
    }
    assert Holds(loaded, RowsFor(raw, now, ResetTable), ResetTable);
    forall key | key in loaded && key != Key(ResetTable, "default")
      ensures Told(loaded[key], raw, KnownOf(raw, now)) || TellsActive(loaded[key], raw)
    {
      HeldIsPlanned(loaded, raw, now, key);
      assert KeyOf(loaded[key]) == key;
      PlannedIsTold(raw, now, key.table, loaded[key]);
    }
  }
}
