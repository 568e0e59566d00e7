// Backups an import takes that show where the expected properties fail.
module Witnesses {
  import opened Wrappers
  import opened Json
  import opened Schema
  import opened Loading
  import opened Outcomes
  import opened Importing
  import opened Backup
  import opened Restore
  import opened Exporting
  import opened RoundTrip
  import opened Safety
  import opened Assignments
  import opened Completing
  import opened Contents
  import opened Faithful
  import opened Operations
  import opened Trading
  import opened Runs
  import opened Database
  import opened Periods
  import opened LootReport
  import opened Reports
  import Text

  // ------------------------------------ backups of characters and templates only

  function CharacterValue(id: Id): Value {
    Object(map[Name.Id := Str(id), NameField := Str("n")])
  }

  function TemplateValue(id: Id): Value {
    Object(map[Name.Id := Str(id), Name.Title := Str("t"), Name.Type := Str("DAILY")])
  }

  function ValuesOf(ids: seq<Id>, value: Id -> Value): seq<Value> {
    if ids == [] then [] else ValuesOf(ids[..|ids| - 1], value) + [value(ids[|ids| - 1])]
  }

  // The rows bear the ids, in order.
  ghost predicate Bear(rows: seq<Row>, ids: seq<Id>, table: Table) {
    |rows| == |ids| && forall i :: 0 <= i < |ids| ==> KeyOf(rows[i]) == Key(table, ids[i])
  }

  function IdsBackup(characters: seq<Id>, templates: seq<Id>): Value {
    Object(map[SchemaVersion := Number(4.0),
               Characters := Array(ValuesOf(characters, CharacterValue)),
               Name.Planner := Object(map[Templates := Array(ValuesOf(templates, TemplateValue))])])
  }

  lemma CollectMore(table: Table, k: Known, vs: seq<Value>, v: Value)
    requires Accept(table, k, v).Some?
    ensures Collect(table, k, vs + [v]) == Collect(table, k, vs) + [Accept(table, k, v).value]
  {
    hide Accept;
    assert (vs + [v])[..|vs|] == vs;
  }

  // Each value is accepted as a row of its id.
  ghost predicate Accepted(table: Table, k: Known, value: Id -> Value) {
    forall id :: Accept(table, k, value(id)).Some? && KeyOf(Accept(table, k, value(id)).value) == Key(table, id)
  }

  lemma {:induction false} CollectsIds(table: Table, k: Known, ids: seq<Id>, value: Id -> Value)
    requires Accepted(table, k, value)
    ensures Bear(Collect(table, k, ValuesOf(ids, value)), ids, table)
    decreases ids
  {
    hide Accept, Collect;
    if ids == [] {
      NothingCollected(table, k);
    } else {
      var init, last := ids[..|ids| - 1], ids[|ids| - 1];
      CollectsIds(table, k, init, value);
      CollectMore(table, k, ValuesOf(init, value), value(last));
    }
  }

  lemma AcceptsIds(k: Known, id: Id)
    ensures AcceptCharacter(k, CharacterValue(id)).Some?
    ensures KeyOf(AcceptCharacter(k, CharacterValue(id)).value) == CharacterKey(id)
    ensures AcceptTemplate(k, TemplateValue(id)).Some?
    ensures KeyOf(AcceptTemplate(k, TemplateValue(id)).value) == TemplateKey(id)
  {
  }

  lemma IdsLists(characters: seq<Id>, templates: seq<Id>, table: Table)
    ensures var raw := IdsBackup(characters, templates);
            && IsObject(raw) && SupportedVersion(Version(raw))
            && RawList(raw, table) == if table == CharacterTable then ValuesOf(characters, CharacterValue)
                                      else if table == TemplateTable then ValuesOf(templates, TemplateValue)
                                      else []
  {
    hide ValuesOf;
  }

  lemma NothingCollected(table: Table, k: Known)
    ensures Collect(table, k, []) == []
  {
  }

  lemma IdsRows(characters: seq<Id>, templates: seq<Id>, now: string)
    ensures var raw := IdsBackup(characters, templates);
            && Bear(RowsFor(raw, now, CharacterTable), characters, CharacterTable)
            && Bear(RowsFor(raw, now, TemplateTable), templates, TemplateTable)
            && RowsFor(raw, now, AssignmentTable) == [] && |RowsFor(raw, now, ResetTable)| == 1
            && forall table :: table !in {CharacterTable, TemplateTable} ==> ListOf(raw, now, table) == []
  {
    hide IdsBackup, RawList, Collect, ValuesOf, KnownOf, Bear, AcceptCharacter, AcceptTemplate, CharacterValue,
      TemplateValue;
    var raw := IdsBackup(characters, templates);
    var k := KnownOf(raw, now);
    IdsLists(characters, templates, CharacterTable);
    IdsLists(characters, templates, TemplateTable);
    assert Accepted(CharacterTable, k, CharacterValue) && Accepted(TemplateTable, k, TemplateValue) by {
      forall id {
        AcceptsIds(k, id);
      }
    }
    CollectsIds(CharacterTable, k, characters, CharacterValue);
    CollectsIds(TemplateTable, k, templates, TemplateValue);
    forall table | table !in {CharacterTable, TemplateTable} ensures ListOf(raw, now, table) == [] {
      IdsLists(characters, templates, table);
      NothingCollected(table, k);
    }
  }

  lemma BearDistinct(rows: seq<Row>, ids: seq<Id>, table: Table)
    requires Bear(rows, ids, table) && forall i, j :: 0 <= i < j < |ids| ==> ids[i] != ids[j]
    ensures Distinct(rows)
  {
  }

  // Such a backup with distinct ids is taken by any database.
  lemma IdsTaken(t: Store, characters: seq<Id>, templates: seq<Id>, now: string, scan: seq<(Id, Id)>)
    requires Integrity(t) && ScanFits(scan, IdsBackup(characters, templates), now)
    requires forall i, j :: 0 <= i < j < |characters| ==> characters[i] != characters[j]
    requires forall i, j :: 0 <= i < j < |templates| ==> templates[i] != templates[j]
    ensures Import(t, IdsBackup(characters, templates), now, scan).Ok?
  {
    hide IdsBackup, Import, Loaded, RowsFor, Restorable, Bear;
    var raw := IdsBackup(characters, templates);
    IdsLists(characters, templates, ResetTable);
    IdsRows(characters, templates, now);
    PlanIsWellFormed(raw, now);
    BearDistinct(RowsFor(raw, now, CharacterTable), characters, CharacterTable);
    BearDistinct(RowsFor(raw, now, TemplateTable), templates, TemplateTable);
    TidyIsRestorable(raw, now);
    ImportOutcome(t, raw, now, scan);
  }

  // What such an import leaves: the listed characters and templates, and no
  // assignment but those of the closing cross join.
  lemma IdsLoaded(t: Store, characters: seq<Id>, templates: seq<Id>, now: string, scan: seq<(Id, Id)>)
    requires Integrity(t) && ScanFits(scan, IdsBackup(characters, templates), now)
    requires Import(t, IdsBackup(characters, templates), now, scan).Ok?
    ensures var t' := Import(t, IdsBackup(characters, templates), now, scan).value;
            && (forall i :: 0 <= i < |characters| ==> CharacterKey(characters[i]) in t')
            && (forall i :: 0 <= i < |templates| ==> TemplateKey(templates[i]) in t')
            && (forall k :: k in t' && t'[k].Assignment? ==> t'[k].updatedAt == now)
  {
    hide IdsBackup, Loaded, RowsFor, RunBatch, Import, Bear, HoldsLists;
    var raw := IdsBackup(characters, templates);
    IdsRows(characters, templates, now);
    ImportIsFill(t, raw, now, scan);
    LoadedLists(raw, now);
    LoadedIntegrity(raw, now);
    FilledLists(Loaded(raw, now).store, RowsFor(raw, now, CharacterTable), RowsFor(raw, now, TemplateTable), characters,
                templates, now, scan);
  }

  lemma ImportIsFill(t: Store, raw: Value, now: string, scan: seq<(Id, Id)>)
    requires Integrity(t) && Import(t, raw, now, scan).Ok?
    ensures Loaded(raw, now).Done?
    ensures RunBatch(Loaded(raw, now).store, OrIgnore, FillRows(scan, now)) == Done(Import(t, raw, now, scan).value)
  {
    hide RunBatch, RunBatches, BatchesFrom, PlanOf;
    WipeEmpties(t);
  }

  lemma FilledLists(s: Store, cs: seq<Row>, xs: seq<Row>, characters: seq<Id>, templates: seq<Id>, now: string,
                    scan: seq<(Id, Id)>)
    requires Integrity(s) && Bear(cs, characters, CharacterTable) && Bear(xs, templates, TemplateTable)
    requires HoldsLists(s, cs, xs, [])
    requires RunBatch(s, OrIgnore, FillRows(scan, now)).Done?
    ensures var t := RunBatch(s, OrIgnore, FillRows(scan, now)).store;
            && (forall i :: 0 <= i < |characters| ==> CharacterKey(characters[i]) in t)
            && (forall i :: 0 <= i < |templates| ==> TemplateKey(templates[i]) in t)
            && (forall k :: k in t && t[k].Assignment? ==> t[k].updatedAt == now)
  {
    hide RunBatch, UniqueHolds, RefsResolve;
    var rows := FillRows(scan, now);
    FillRowsAreAssignments(scan, now);
    IgnoreOnlyAdds(s, rows, AssignmentTable);
    FillIsStamped(scan, now);
    forall i | 0 <= i < |characters| ensures CharacterKey(characters[i]) in s {
      assert KeyOf(cs[i]) == CharacterKey(characters[i]);
    }
    forall i | 0 <= i < |templates| ensures TemplateKey(templates[i]) in s {
      assert KeyOf(xs[i]) == TemplateKey(templates[i]);
    }
    var t := RunBatch(s, OrIgnore, rows).store;
    RunBatchKeepsIntegrity(s, OrIgnore, rows);
    forall k | k in t && t[k].Assignment? ensures t[k].updatedAt == now {
      assert KeyOf(t[k]) == k;
      NothingStored(s, k);
      AddedRows(s, rows, k);
    }
  }

  lemma FillIsStamped(scan: seq<(Id, Id)>, now: string)
    ensures forall r :: r in FillRows(scan, now) ==> r.Assignment? && r.updatedAt == now
  {
  }

  lemma NothingStored(s: Store, k: Key)
    requires Lists(Stored([]), s, AssignmentTable) && k.table == AssignmentTable
    ensures k !in s
  {
    assert k in s ==> k in KeySet(Stored([]));
  }

  // ------------------------------------------------------------- an empty id

  // A character under the empty id and one template: the import takes it, assigns
  // the template, and has an empty id in use ever after.
  lemma EmptyIdTaken(t: Store, now: string, scan: seq<(Id, Id)>)
    requires Integrity(t) && ScanFits(scan, IdsBackup([""], ["x"]), now)
    ensures Import(t, IdsBackup([""], ["x"]), now, scan).Ok?
    ensures EmptyIdInUse(Import(t, IdsBackup([""], ["x"]), now, scan).value)
  {
    hide IdsBackup, Import, RowsFor, PlainIds, BackupFills;
    var raw := IdsBackup([""], ["x"]);
    IdsTaken(t, [""], ["x"], now, scan);
    IdsLoaded(t, [""], ["x"], now, scan);
    EmptyIdIsPlain(now);
    PlainBackupFills(raw, now);
    ImportCompletesIff(t, raw, now, scan);
    ImportIsConsistent(t, raw, now, scan);
    var t' := Import(t, raw, now, scan).value;
    assert [""][0] == "" && ["x"][0] == "x";
    EmptyPair(t');
  }

  lemma EmptyIdIsPlain(now: string)
    ensures PlainBackup(IdsBackup([""], ["x"]), now)
  {
    hide IdsBackup, RowsFor;
    var cs, xs := [""], ["x"];
    IdsRows(cs, xs, now);
    var rows := RowsFor(IdsBackup(cs, xs), now, CharacterTable);
    forall r | r in rows ensures ColonFree(r.id) {
      var i :| 0 <= i < |rows| && rows[i] == r;
      assert KeyOf(rows[i]) == Key(CharacterTable, cs[i]);
    }
  }

  lemma EmptyPair(t: Store)
    requires Integrity(t) && Complete(t) && CharacterKey("") in t && TemplateKey("x") in t
    ensures EmptyIdInUse(t)
  {
    assert InStore(t, ("", "x"));
    var k :| k in t && UniqueOf(t[k]) == PairOf("", "x");
    assert KeyOf(t[k]) == k && CharacterKey("") in Refs(t[k]);
  }

  // Its own backup, taken back at another time, does not give its data back.
  lemma EmptyIdLost(t: Store, now: string, scan: seq<(Id, Id)>, target: Store, lists: Listings, at: string,
                    later: string, join: seq<(Id, Id)>)
    requires Integrity(t) && ScanFits(scan, IdsBackup([""], ["x"]), now) && Integrity(target) && later != now
    requires Import(t, IdsBackup([""], ["x"]), now, scan).Ok?
    requires var t' := Import(t, IdsBackup([""], ["x"]), now, scan).value; Listing(t', lists) && CrossJoin(join,
        Survivors(t', later))
    ensures var t' := Import(t, IdsBackup([""], ["x"]), now, scan).value;
            && Import(target, Export(t', lists, at), later, join).Ok?
            && !SameData(t', Import(target, Export(t', lists, at), later, join).value, later)
  {
    hide IdsBackup, Import, Export, Survivors, SameData, EmptyIdInUse, GapsTaken;
    var t' := Import(t, IdsBackup([""], ["x"]), now, scan).value;
    EmptyIdTaken(t, now, scan);
    IdsLoaded(t, [""], ["x"], now, scan);
    ImportIsConsistent(t, IdsBackup([""], ["x"]), now, scan);
    RoundTripIff(target, t', lists, at, later, join);
  }

  // -------------------------------------------------- one made-up id for two pairs

  // assign:a:b:c is made up for (a, b:c) and for (a:b, c): the import takes the
  // backup and leaves one of the two unassigned.
  lemma TwoPairsOneId(t: Store, now: string, scan: seq<(Id, Id)>)
    requires Integrity(t) && ScanFits(scan, IdsBackup(["a", "a:b"], ["b:c", "c"]), now)
    ensures Import(t, IdsBackup(["a", "a:b"], ["b:c", "c"]), now, scan).Ok?
    ensures !Complete(Import(t, IdsBackup(["a", "a:b"], ["b:c", "c"]), now, scan).value)
  {
    hide IdsBackup, Import, RowsFor, BackupFills;
    var cs, xs := ["a", "a:b"], ["b:c", "c"];
    assert cs[0] != cs[1] by { assert |cs[0]| != |cs[1]|; }
    assert xs[0] != xs[1] by { assert |xs[0]| != |xs[1]|; }
    IdsTaken(t, cs, xs, now, scan);
    ImportCompletesIff(t, IdsBackup(cs, xs), now, scan);
    SameFill(now);
  }

  lemma SameFill(now: string)
    ensures !BackupFills(IdsBackup(["a", "a:b"], ["b:c", "c"]), now)
  {
    hide IdsBackup, RowsFor, FillsFree;
    var cs, xs := ["a", "a:b"], ["b:c", "c"];
    IdsRows(cs, xs, now);
    var raw := IdsBackup(cs, xs);
    var characters, templates := RowsFor(raw, now, CharacterTable), RowsFor(raw, now, TemplateTable);
    assert KeyOf(characters[0]) == Key(CharacterTable, cs[0]) && KeyOf(characters[1]) == Key(CharacterTable, cs[1]);
    assert KeyOf(templates[0]) == Key(TemplateTable, xs[0]) && KeyOf(templates[1]) == Key(TemplateTable, xs[1]);
    TwoGaps(characters, templates);
  }

  lemma TwoGaps(characters: seq<Row>, templates: seq<Row>)
    requires CharacterKey("a") in KeySet(characters) && CharacterKey("a:b") in KeySet(characters)
    requires TemplateKey("b:c") in KeySet(templates) && TemplateKey("c") in KeySet(templates)
    ensures !FillsFree(characters, templates, [])
  {
    var p: (Id, Id), q: (Id, Id) := ("a", "b:c"), ("a:b", "c");
    assert Gap(characters, templates, [], p) && Gap(characters, templates, [], q);
    assert "a" + ":" + "b:c" == "a:b" + ":" + "c";
    assert "assign:" + "a" + ":" + "b:c" == "assign:" + "a:b" + ":" + "c";
    assert FillKey(p) == FillKey(q);
    assert p.0 != q.0 by { assert |p.0| != |q.0|; }
  }

  // ------------------------------- an item under the empty id, and a blank server

  // A character, an item under the empty id and a run on a server of white space.
  function OddBackup(ended: string): Value {
    Object(map[SchemaVersion := Number(4.0),
               Characters := Array([CharacterValue("c")]),
               Name.Economy := Object(map[Name.Items := Array([OddItem()])]),
               Name.Loot := Object(map[Name.Runs := Array([OddRun(ended)])])])
  }

  function OddItem(): Value {
    Object(map[Name.Id := Str(""), NameField := Str("i")])
  }

  function OddRun(ended: string): Value {
    Object(map[Name.Id := Str("r"), CharacterId := Str("c"), Name.Server := Str(" "), Name.Content := Str("x"),
               EndedAt := Str(ended)])
  }

  function OddRow(table: Table, ended: string, now: string): Row {
    match table
    case CharacterTable => Character("c", "n", None, None, now, now)
    case ItemTable => Item("", "i", None, None, now, now)
    case RunTable => LootRun("r", "c", Some(" "), "x", None, None, None, Some(ended), 0, now, now)
    case _ => Reset(DEFAULT_ID, "09:00", 1.0, now)
  }

  lemma KnowsNow(raw: Value, now: string)
    ensures KnownOf(raw, now).now == now
  {
    hide RawList, Collect, DefaultHhmm, DefaultDay;
  }

  // What it is loaded as.
  function OddStore(ended: string, now: string): Store {
    map[DEFAULT_KEY := OddRow(ResetTable, ended, now), CharacterKey("c") := OddRow(CharacterTable, ended, now),
        ItemKey("") := OddRow(ItemTable, ended, now), RunKey("r") := OddRow(RunTable, ended, now)]
  }

  lemma OddLists(ended: string, table: Table)
    ensures var raw := OddBackup(ended);
            && IsObject(raw) && SupportedVersion(Version(raw)) && ActiveOf(raw) == "" && DefaultHhmm(raw) == "09:00"
            && DefaultDay(raw) == 1.0
            && RawList(raw, table) == match table
                                      case CharacterTable => [CharacterValue("c")]
                                      case ItemTable => [OddItem()]
                                      case RunTable => [OddRun(ended)]
                                      case _ => []
  {
    hide CharacterValue, OddItem, OddRun;
  }

  lemma OddCharacter(k: Known, ended: string)
    ensures AcceptCharacter(k, CharacterValue("c")) == Some(OddRow(CharacterTable, ended, k.now))
  {
  }

  lemma OddItemAccepted(k: Known, ended: string)
    ensures AcceptItem(k, OddItem()) == Some(OddRow(ItemTable, ended, k.now))
  {
    hide Text.Trim;
    Text.TrimIsProjection("i");
    assert Text.Trimmed("i");
  }

  lemma OddRunAccepted(k: Known, ended: string)
    requires "c" in k.characters
    ensures AcceptRun(k, OddRun(ended)) == Some(OddRow(RunTable, ended, k.now))
  {
    hide Text.Trim;
    Text.TrimIsProjection("x");
    assert Text.Trimmed("x");
  }

  lemma OddRows(ended: string, now: string, table: Table)
    requires table != AlertTable
    ensures RowsFor(OddBackup(ended), now, table) ==
            if table in {ResetTable, CharacterTable, ItemTable, RunTable} then [OddRow(table, ended, now)] else []
  {
    hide OddBackup, RawList, KnownOf, AcceptCharacter, AcceptItem, AcceptRun, CharacterValue, OddItem, OddRun, ActiveOf,
      DefaultHhmm, DefaultDay;
    var raw := OddBackup(ended);
    var k := KnownOf(raw, now);
    KnowsNow(raw, now);
    OddLists(ended, CharacterTable);
    CollectOne(CharacterTable, k, CharacterValue("c"));
    OddCharacter(k, ended);
    KnownIds(raw, now);
    assert "c" in k.characters by {
      var one := ListOf(raw, now, CharacterTable);
      assert one[0].id == "c";
    }
    OddLists(ended, table);
    OddListed(ended, now, table, k);
  }

  lemma OddListed(ended: string, now: string, table: Table, k: Known)
    requires k == KnownOf(OddBackup(ended), now) && k.now == now && "c" in k.characters && table != AlertTable
    ensures ListOf(OddBackup(ended), now, table) ==
            if table in {CharacterTable, ItemTable, RunTable} then [OddRow(table, ended, now)] else []
  {
    hide OddBackup, RawList, KnownOf, AcceptCharacter, AcceptItem, AcceptRun, CharacterValue, OddItem, OddRun, Collect;
    OddLists(ended, table);
    match table
    case CharacterTable => CollectOne(table, k, CharacterValue("c")); OddCharacter(k, ended);
    case ItemTable => CollectOne(table, k, OddItem()); OddItemAccepted(k, ended);
    case RunTable => CollectOne(table, k, OddRun(ended)); OddRunAccepted(k, ended);
    case _ => NothingCollected(table, k);
  }

  lemma OddKeys(ended: string, now: string, k: Key)
    ensures var s := OddStore(ended, now);
            k in s ==> s[k] == OddRow(k.table, ended, now) && KeyOf(s[k]) == k
                       && (UniqueOf(s[k]) != NoUnique ==> k == ItemKey("")) && Refs(s[k]) <= {CharacterKey("c")}
    ensures CharacterKey("c") in OddStore(ended, now)
  {
  }

  lemma OddIntegrity(ended: string, now: string)
    ensures Integrity(OddStore(ended, now))
  {
    hide OddStore, OddRow, Refs, UniqueOf;
    var s := OddStore(ended, now);
    OddKeys(ended, now, CharacterKey("c"));
    forall k | k in s ensures KeyOf(s[k]) == k && Refs(s[k]) <= s.Keys { OddKeys(ended, now, k); }
    forall j, k | j in s && k in s && Clash(s[j], s[k]) ensures j == k {
      OddKeys(ended, now, j);
      OddKeys(ended, now, k);
    }
  }

  lemma OddListing(ended: string, now: string, table: Table)
    ensures Lists(if table in {ResetTable, CharacterTable, ItemTable,
                               RunTable} then [OddRow(table, ended, now)] else [], OddStore(ended, now), table)
  {
    var s := OddStore(ended, now);
    var rows := if table in {ResetTable, CharacterTable, ItemTable, RunTable} then [OddRow(table, ended, now)] else [];
    if rows == [] {
      assert KeySet(rows) == KeysIn(s, table);
    } else {
      assert KeySet(rows) == {KeyOf(rows[0])};
      assert KeysIn(s, table) == {KeyOf(rows[0])};
    }
  }

  // An import takes it as it is.
  lemma OddTaken(t: Store, ended: string, now: string, scan: seq<(Id, Id)>)
    requires Integrity(t) && ScanFits(scan, OddBackup(ended), now)
    ensures Loaded(OddBackup(ended), now) == Done(OddStore(ended, now))
    ensures Import(t, OddBackup(ended), now, scan) == Ok(OddStore(ended, now))
  {
    hide OddBackup, RowsFor, Loaded, Lists, Integrity, PlanOf, RunBatches, BatchesFrom;
    var raw, s := OddBackup(ended), OddStore(ended, now);
    OddIntegrity(ended, now);
    forall table | table != AlertTable ensures Lists(RowsFor(raw, now, table), s, table) {
      OddRows(ended, now, table);
      OddListing(ended, now, table);
    }
    LoadsRows(raw, now, s);
    OddLists(ended, ResetTable);
    NoPairs(s, scan);
    OddImport(t, raw, now, scan, s);
  }

  lemma ScannedPair(s: Store, scan: seq<(Id, Id)>, i: nat)
    requires CrossJoin(scan, s) && i < |scan|
    ensures TemplateKey(scan[i].1) in s
  {
    assert (scan[i].0, scan[i].1) in scan;
  }

  lemma NoPairs(s: Store, scan: seq<(Id, Id)>)
    requires CrossJoin(scan, s) && forall x :: TemplateKey(x) !in s
    ensures scan == []
  {
    hide CrossJoin;
    if scan != [] {
      ScannedPair(s, scan, 0);
    }
  }

  lemma OddImport(t: Store, raw: Value, now: string, scan: seq<(Id, Id)>, s: Store)
    requires Integrity(t) && IsObject(raw) && SupportedVersion(Version(raw)) && Loaded(raw, now) == Done(s)
    requires scan == []
    ensures Import(t, raw, now, scan) == Ok(s)
  {
    hide PlanOf, RunBatches, BatchesFrom;
    WipeEmpties(t);
    assert FillRows(scan, now) == [];
  }

  // Afterwards the item under the empty id is neither found nor made again: it can
  // not be found or created by name, nor priced, nor named in a run.
  lemma EmptyItemBlocks(ended: string, taken: string, market: string, amount: real, at: string, id: Id, newId: Id,
                        lineIds: (Id, Id),
                        content: string, parse: string -> Option<int>, now: string)
    requires newId != "" && lineIds.1 != "" && id != "r" && Text.Trim(content) != ""
    ensures var t := OddStore(ended, taken);
            && !Exec(t, UpsertItem(t, "i", None, None, newId, now).0).Done?
            && !AddPrice(t, market, "i", amount, at, id, newId, [], [], now).ok
            && !CreateRun(t, id, RunInput("c", content, None, None, None, None, None, [Gained("i", 1.0, None)]), parse,
                          [lineIds], now).ok
  {
    hide UpsertItem, Exec, AddPrice, CreateRun, Integrity, PriceStmts, RunAll;
    var t := OddStore(ended, taken);
    var input := RunInput("c", content, None, None, None, None, None, [Gained("i", 1.0, None)]);
    OddIntegrity(ended, taken);
    Text.TrimIsProjection("i");
    assert Text.Trimmed("i") && EmptyNamed(t, "i");
    UpsertResult(t, "i", None, None, newId, now);
    AddPriceResult(t, market, "i", amount, at, id, newId, [], [], now);
    assert Blocked(t, input.lines[0]);
    RunStoredIff(t, id, input, parse, [lineIds], now);
  }

  // The week's runs of that database are the one run.
  lemma OddWeek(runs: seq<Row>, at: int, start: int, iso: int -> string, order: string -> real, now: string)
    requires RunsRead(runs, OddStore(iso(at), now), "c", iso(start), iso(at), order)
    requires order(iso(start)) <= order(iso(at))
    ensures runs != [] && BlankPriceServer(None, runs)
  {
    var t := OddStore(iso(at), now);
    var run := OddRow(RunTable, iso(at), now);
    assert RunOf("c", iso(start), iso(at), order)(t[RunKey("r")]);
    assert run in runs;
    assert runs[0] in runs && KeyOf(runs[0]) in t && TableOf(runs[0]) == RunTable;
    assert OnServer(runs[0]) && runs[0].server == Some(" ");
    assert PricedAt(Some(" "), None, runs) && Text.AllSpace(" ");
  }

  // Later times are later strings.
  ghost predicate KeepsTime(iso: int -> string, order: string -> real) {
    forall a, b :: a <= b ==> order(iso(a)) <= order(iso(b))
  }

  // A new database after taking that backup.
  method OpenOdd(ended: string, now: string) returns (db: Connection)
    ensures db.tables == OddStore(ended, now) && Keyed(db.tables)
  {
    hide Integrity, Import, Loaded, OddBackup, OddStore, Consistent, Keyed;
    db := new Connection(now);
    ConsistentIsIntact(db.tables);
    ghost var before := db.tables;
    var result, scan := db.ImportUserBackup(OddBackup(ended), now);
    OddLists(ended, ResetTable);
    OddTaken(before, ended, now, scan);
    OddIntegrity(ended, now);
    KeyedIfIntact(db.tables);
  }

  // With the run ended in the week asked for, and no server asked for, the report
  // of that database throws.
  method BlankServerThrows(at: int, iso: int -> string, order: string -> real, now: string)
    returns (report: Result<Report, ReportError>)
    requires KeepsTime(iso, order)
    ensures report.Err?
  {
    hide *;
    var db := OpenOdd(iso(at), now);
    report := GetLootWeeklyReport(db, "c", None, at, iso, order);
    ghost var week, start :| Reported(report, week, db.tables, "c", None, at, start, iso, order);
    OddReported(report, week, db.tables, at, start, iso, order, now);
  }

  lemma OddReported(report: Result<Report, ReportError>, week: Week, t: Store, at: int, start: int, iso: int -> string,
                    order: string -> real, now: string)
    requires t == OddStore(iso(at), now) && KeepsTime(iso, order)
    requires Reported(report, week, t, "c", None, at, start, iso, order)
    ensures report.Err?
  {
    hide OddStore, RunsRead, ResetRead, IsWeeklyReset, BlankPriceServer, LinesRead, ReportOf, LinesOf;
    OddWeek(week.runs, at, start, iso, order, now);
  }

  lemma ConsistentIsIntact(t: Store)
    requires Consistent(t)
    ensures Integrity(t)
  {
  }

  lemma KeyedIfIntact(t: Store)
    requires Integrity(t)
    ensures Keyed(t)
  {
  }
}
