// Which backups leave every template assigned to every character: a condition on
// the backup's own lists.
module Completing {
  import opened Wrappers
  import opened Schema
  import opened Loading
  import opened Outcomes
  import opened Importing
  import opened Restore
  import opened Safety
  import opened Assignments
  import opened Contents
  import Json

  predicate HasPair(rows: seq<Row>, pair: (Id, Id)) {
    exists i :: 0 <= i < |rows| && UniqueOf(rows[i]) == PairOf(pair.0, pair.1)
  }

  // A listed character and a listed template that no kept assignment joins.
  predicate Gap(characters: seq<Row>, templates: seq<Row>, assignments: seq<Row>, pair: (Id, Id)) {
    && CharacterKey(pair.0) in KeySet(characters) && TemplateKey(pair.1) in KeySet(templates)
    && !HasPair(Stored(assignments), pair)
  }

  // No kept assignment has an id that is made up for a gap, and no two gaps get
  // the same one.
  ghost predicate FillsFree(characters: seq<Row>, templates: seq<Row>, assignments: seq<Row>) {
    && (forall pair: (Id, Id) :: Gap(characters, templates, assignments, pair) ==>
            FillKey(pair) !in KeySet(Stored(assignments)))
    && (forall p: (Id, Id), q: (Id, Id) ::
          Gap(characters, templates, assignments, p) && Gap(characters, templates, assignments, q) && p != q ==>
            FillKey(p) != FillKey(q))
  }

  ghost predicate BackupFills(raw: Json.Value, now: string) {
    FillsFree(RowsFor(raw, now, CharacterTable), RowsFor(raw, now, TemplateTable), RowsFor(raw, now, AssignmentTable))
  }

  // ------------------------------------------------ what loading makes of a list

  lemma ListedPair(t: Store, rows: seq<Row>, pair: (Id, Id))
    requires Keyed(t) && Lists(rows, t, AssignmentTable)
    ensures Covered(t, pair) <==> HasPair(rows, pair)
  {
    if Covered(t, pair) {
      var k :| k in t && UniqueOf(t[k]) == PairOf(pair.0, pair.1);
      assert KeyOf(t[k]) == k && t[k].Assignment?;
      assert k in KeySet(rows);
      var i :| 0 <= i < |rows| && KeyOf(rows[i]) == k;
      assert rows[i] in rows;
    }
    if HasPair(rows, pair) {
      var i :| 0 <= i < |rows| && UniqueOf(rows[i]) == PairOf(pair.0, pair.1);
      assert rows[i] in rows;
    }
  }

  // What a loaded backup holds of the three lists.
  ghost predicate HoldsLists(t: Store, characters: seq<Row>, templates: seq<Row>, assignments: seq<Row>) {
    && (forall id :: CharacterKey(id) in t <==> CharacterKey(id) in KeySet(characters))
    && (forall id :: TemplateKey(id) in t <==> TemplateKey(id) in KeySet(templates))
    && Lists(Stored(assignments), t, AssignmentTable)
  }

  lemma RootsAtEnd(p: Plan, t: Store, table: Table)
    requires WellFormed(p) && Stage(p, t, |ORDER|) && table in {CharacterTable, TemplateTable}
    ensures forall id :: Key(table, id) in t <==> Key(table, id) in KeySet(p[table])
  {
    hide UniqueHolds, RefsResolve, KeySet;
    forall id ensures Key(table, id) in t <==> Key(table, id) in KeySet(p[table]) {
      assert Present(p, Key(table, id)) <==> Key(table, id) in KeySet(p[table]);
    }
  }

  lemma LoadedLists(raw: Json.Value, now: string)
    requires Loaded(raw, now).Done?
    ensures HoldsLists(Loaded(raw, now).store, RowsFor(raw, now, CharacterTable), RowsFor(raw, now, TemplateTable),
                       RowsFor(raw, now, AssignmentTable))
  {
    hide RowsFor, Stored, Lists, RunBatches, BatchesFrom, Stage, WellFormed, Filtered, Sifted, KeySet;
    var p := PlanOf(raw, now);
    PlanIsWellFormed(raw, now);
    PlanIsSifted(raw, now);
    SiftedIsFiltered(p);
    PlanOutcome(p);
    LoadedContents(raw, now);
    RootsAtEnd(p, Loaded(raw, now).store, CharacterTable);
    RootsAtEnd(p, Loaded(raw, now).store, TemplateTable);
  }

  lemma GapIff(t: Store, characters: seq<Row>, templates: seq<Row>, assignments: seq<Row>, pair: (Id, Id))
    requires Keyed(t) && HoldsLists(t, characters, templates, assignments)
    ensures Gap(characters, templates, assignments, pair) <==> InStore(t, pair) && !Covered(t, pair)
    ensures FillKey(pair) in t <==> FillKey(pair) in KeySet(Stored(assignments))
  {
    ListedPair(t, Stored(assignments), pair);
    assert FillKey(pair) in KeysIn(t, AssignmentTable) <==> FillKey(pair) in t;
  }

  lemma FreeIff(t: Store, characters: seq<Row>, templates: seq<Row>, assignments: seq<Row>, scan: seq<(Id, Id)>,
                now: string)
    requires Keyed(t) && HoldsLists(t, characters, templates, assignments) && CrossJoin(scan, t)
    ensures IdsFree(t, FillRows(scan, now)) <==> FillsFree(characters, templates, assignments)
  {
    hide HoldsLists, Gap, Covered, Stored;
    forall pair: (Id, Id)
      ensures Gap(characters, templates, assignments, pair) <==> pair in scan && !Covered(t, pair)
      ensures FillKey(pair) in t <==> FillKey(pair) in KeySet(Stored(assignments))
    {
      GapIff(t, characters, templates, assignments, pair);
      assert (pair.0, pair.1) == pair;
    }
    if IdsFree(t, FillRows(scan, now)) { FreeGivesFills(t, characters, templates, assignments, scan, now); }
    if FillsFree(characters, templates,
                 assignments) { FillsGiveFree(t, characters, templates, assignments, scan, now); }
  }

  // The gaps of the lists are the uncovered pairs of the scan.
  ghost predicate SameGaps(t: Store, characters: seq<Row>, templates: seq<Row>, assignments: seq<Row>,
                           scan: seq<(Id, Id)>)
  {
    forall pair: (Id, Id) ::
      && (Gap(characters, templates, assignments, pair) <==> pair in scan && !Covered(t, pair))
      && (FillKey(pair) in t <==> FillKey(pair) in KeySet(Stored(assignments)))
  }

  lemma FreeGivesFills(t: Store, characters: seq<Row>, templates: seq<Row>, assignments: seq<Row>, scan: seq<(Id, Id)>,
                       now: string)
    requires CrossJoin(scan, t) && IdsFree(t, FillRows(scan, now))
    requires SameGaps(t, characters, templates, assignments, scan)
    ensures FillsFree(characters, templates, assignments)
  {
    hide Gap, Covered, Stored, IdsFree, FillRows, KeySet, FillKey;
    forall pair: (Id, Id) | Gap(characters, templates, assignments, pair)
      ensures FillKey(pair) !in KeySet(Stored(assignments))
    {
      FreeFill(t, scan, now, pair);
    }
    forall p: (Id, Id), q: (Id, Id) | Gap(characters, templates, assignments, p)
                                      && Gap(characters, templates, assignments, q) && p != q
      ensures FillKey(p) != FillKey(q)
    {
      DifferentFills(t, scan, now, p, q);
    }
  }

  lemma FreeFill(t: Store, scan: seq<(Id, Id)>, now: string, pair: (Id, Id))
    requires CrossJoin(scan, t) && IdsFree(t, FillRows(scan, now)) && pair in scan && !Covered(t, pair)
    ensures FillKey(pair) !in t
  {
    hide Covered, FillRows;
    FillRowsArePairs(scan, now);
    assert FillRow(pair, now) in FillRows(scan, now) && PairOfRow(FillRow(pair, now)) == pair;
    assert KeyOf(FillRow(pair, now)) == FillKey(pair);
  }

  lemma DifferentFills(t: Store, scan: seq<(Id, Id)>, now: string, p: (Id, Id), q: (Id, Id))
    requires IdsFree(t, FillRows(scan, now)) && p in scan && q in scan && !Covered(t, p) && !Covered(t, q) && p != q
    ensures FillKey(p) != FillKey(q)
  {
    hide Covered;
    var rows := FillRows(scan, now);
    var i :| 0 <= i < |scan| && scan[i] == p;
    var j :| 0 <= j < |scan| && scan[j] == q;
    assert rows[i] == FillRow(p, now) && rows[j] == FillRow(q, now);
    assert KeyOf(rows[i]) == FillKey(p) && KeyOf(rows[j]) == FillKey(q);
    assert if i < j then KeyOf(rows[i]) != KeyOf(rows[j]) else KeyOf(rows[j]) != KeyOf(rows[i]);
  }

  lemma FillsGiveFree(t: Store, characters: seq<Row>, templates: seq<Row>, assignments: seq<Row>, scan: seq<(Id, Id)>,
                      now: string)
    requires CrossJoin(scan, t) && FillsFree(characters, templates, assignments)
    requires SameGaps(t, characters, templates, assignments, scan)
    ensures IdsFree(t, FillRows(scan, now))
  {
    hide Gap, Covered, Stored;
    var rows := FillRows(scan, now);
    FillRowsArePairs(scan, now);
    forall r | r in rows ensures KeyOf(r) == FillKey(PairOfRow(r)) && PairOfRow(r) in scan {
      assert r == FillRow(PairOfRow(r), now);
    }
    forall r | r in rows && !Covered(t, PairOfRow(r)) ensures KeyOf(r) !in t {
      assert Gap(characters, templates, assignments, PairOfRow(r));
    }
    forall i, j | 0 <= i < j < |rows| && !Covered(t, PairOfRow(rows[i])) && !Covered(t, PairOfRow(rows[j]))
      ensures KeyOf(rows[i]) != KeyOf(rows[j])
    {
      assert rows[i] in rows && rows[j] in rows;
      assert Gap(characters, templates, assignments, PairOfRow(rows[i]));
      assert Gap(characters, templates, assignments, PairOfRow(rows[j]));
    }
  }

  // ------------------------------------------------------------- main results

  // A backup that is taken leaves every template assigned to every character
  // exactly when the ids made up for the gaps of its lists are free and different.
  lemma ImportCompletesIff(t: Store, raw: Json.Value, now: string, scan: seq<(Id, Id)>)
    requires Integrity(t) && ScanFits(scan, raw, now) && Import(t, raw, now, scan).Ok?
    ensures Complete(Import(t, raw, now, scan).value) <==> BackupFills(raw, now)
  {
    hide Import, Loaded, RowsFor, FillsFree, HoldsLists, Complete, IdsFree;
    FillCompletesIff(t, raw, now, scan);
    LoadedIntegrity(raw, now);
    LoadedLists(raw, now);
    FreeIff(Loaded(raw, now).store, RowsFor(raw, now, CharacterTable), RowsFor(raw, now, TemplateTable),
            RowsFor(raw, now, AssignmentTable), scan, now);
  }

  // No two listed assignments share an id or a pair.
  ghost predicate Unclashed(rows: seq<Row>) {
    forall i, j :: 0 <= i < j < |rows| ==> !Clash(rows[i], rows[j])
  }

  // Then every listed assignment is kept, and the condition is on the lists as
  // they stand.
  lemma {:induction false} UnclashedAreStored(rows: seq<Row>)
    requires Unclashed(rows)
    ensures Stored(rows) == rows
    decreases rows
  {
    if rows != [] {
      UnclashedAreStored(rows[..|rows| - 1]);
      assert rows == rows[..|rows| - 1] + [rows[|rows| - 1]];
    }
  }

  // Character ids without a colon, as UUIDs are, and no listed assignment under
  // the id made up for a pair other than its own.
  ghost predicate PlainIds(characters: seq<Row>, templates: seq<Row>, assignments: seq<Row>) {
    && (forall r :: r in characters ==> ColonFree(r.id))
    && (forall r, c, x :: r in assignments && c in characters && x in templates && KeyOf(r) == FillKey((c.id, x.id)) ==>
          UniqueOf(r) == PairOf(c.id, x.id))
  }

  lemma PlainGap(characters: seq<Row>, templates: seq<Row>, assignments: seq<Row>, pair: (Id, Id))
    requires PlainIds(characters, templates, assignments)
    requires CharacterKey(pair.0) in KeySet(characters) && TemplateKey(pair.1) in KeySet(templates)
    ensures ColonFree(pair.0)
    ensures FillKey(pair) in KeySet(Stored(assignments)) ==> HasPair(Stored(assignments), pair)
  {
    hide Stored;
    StoredAreListed(assignments);
    var i :| 0 <= i < |characters| && KeyOf(characters[i]) == CharacterKey(pair.0);
    var j :| 0 <= j < |templates| && KeyOf(templates[j]) == TemplateKey(pair.1);
    assert characters[i] in characters && templates[j] in templates;
    assert pair == (characters[i].id, templates[j].id);
    if FillKey(pair) in KeySet(Stored(assignments)) {
      var n :| 0 <= n < |Stored(assignments)| && KeyOf(Stored(assignments)[n]) == FillKey(pair);
      assert Stored(assignments)[n] in assignments;
    }
  }

  lemma PlainIdsFill(characters: seq<Row>, templates: seq<Row>, assignments: seq<Row>)
    requires PlainIds(characters, templates, assignments)
    ensures FillsFree(characters, templates, assignments)
  {
    hide Stored, PlainIds, HasPair, KeySet;
    forall pair: (Id, Id) | Gap(characters, templates, assignments, pair)
      ensures ColonFree(pair.0) && FillKey(pair) !in KeySet(Stored(assignments))
    {
      PlainGap(characters, templates, assignments, pair);
    }
    forall p: (Id, Id), q: (Id, Id) | Gap(characters, templates, assignments, p)
                                      && Gap(characters, templates, assignments, q) && p != q
      ensures FillKey(p) != FillKey(q)
    {
      if FillKey(p) == FillKey(q) { FillIdsDiffer(p, q); }
    }
  }

  ghost predicate PlainBackup(raw: Json.Value, now: string) {
    PlainIds(RowsFor(raw, now, CharacterTable), RowsFor(raw, now, TemplateTable), RowsFor(raw, now, AssignmentTable))
  }

  // Such a backup, when it is taken, leaves every template assigned to every
  // character.
  lemma PlainBackupFills(raw: Json.Value, now: string)
    requires PlainBackup(raw, now)
    ensures BackupFills(raw, now)
  {
    hide RowsFor, PlainIds, FillsFree;
    PlainIdsFill(RowsFor(raw, now, CharacterTable), RowsFor(raw, now, TemplateTable),
                 RowsFor(raw, now, AssignmentTable));
  }
}
