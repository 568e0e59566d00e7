// The round trip of whole databases, and exactly which databases it is faithful on.
module Faithful {
  import opened Wrappers
  import opened Json
  import opened Schema
  import opened Loading
  import opened Outcomes
  import opened Importing
  import opened Backup
  import opened Restore
  import opened Exporting
  import opened RoundTrip
  import opened Safety
  import opened Assignments

  // The row as the list functions show it after a restore: an empty server or
  // class is listed as null anyway, and the default settings carry a new stamp.
  function Returned(r: Row, now: string): Row {
    if r.Duration? then r else Restored(r, now)
  }

  // r holds the user data of t and nothing else.
  ghost predicate SameData(t: Store, r: Store, now: string) {
    forall k: Key :: k.table != SettingTable && k.table != AlertTable ==>
      (k in t <==> k in r) && (k in t ==> r[k] == Returned(t[k], now))
  }

  // Some character or template in use has the empty string as its id.
  ghost predicate EmptyIdInUse(t: Store) {
    exists k :: k in t && k.table in {AssignmentTable, CompletionTable, ChargeUseTable, DurationTable} && EmptyRef(t[k])
  }

  predicate EmptyRef(r: Row) {
    CharacterKey("") in Refs(r) || TemplateKey("") in Refs(r)
  }

  ghost predicate UserRow(t: Store, k: Key) {
    k in t && k.table != SettingTable && k.table != AlertTable
  }

  lemma KeptUserRow(r: Row, now: string)
    requires !r.Setting? && !r.Alert?
    ensures (r.Assignment? || r.Completion? || r.ChargeUse? || r.Duration?) && EmptyRef(r) ==>
              !Kept(r) || (r.Duration? && Restored(r, now) != Returned(r, now))
    ensures !((r.Assignment? || r.Completion? || r.ChargeUse? || r.Duration?) && EmptyRef(r)) ==>
              Kept(r) && Restored(r, now) == Returned(r, now)
  {
    if r.Assignment? || r.Completion? || r.ChargeUse? {
      assert Refs(r) == {CharacterKey(r.characterId), TemplateKey(r.templateId)};
    } else if r.Duration? {
      assert r.timedTemplate.Some? ==> TemplateKey(r.timedTemplate.value) in Refs(r);
      assert CharacterKey(r.characterId) in Refs(r);
    }
  }

  // ----------------------------------------------------- the general round trip

  // A database's own backup is always accepted, into any database, and leaves
  // its surviving rows plus whatever the closing cross join adds.
  lemma OwnBackup(target: Store, t: Store, lists: Listings, at: string, now: string, scan: seq<(Id, Id)>)
    requires Integrity(target) && Integrity(t) && AllNormal(t) && Listing(t, lists) && DEFAULT_KEY in t
    requires CrossJoin(scan, Survivors(t, now))
    ensures RunBatch(Survivors(t, now), OrIgnore, FillRows(scan, now)).Done?
    ensures Import(target, Export(t, lists, at), now, scan) ==
            Ok(RunBatch(Survivors(t, now), OrIgnore, FillRows(scan, now)).store)
  {
    LoadedBackup(t, lists, at, now);
    WipeEmpties(target);
    SurvivorsIntegrity(t, now);
    FillNeverFails(Survivors(t, now), scan, now);
    ExportParts(t, lists, at);
  }

  // Every pair without an assignment would get an id that is taken.
  ghost predicate GapsTaken(t: Store) {
    forall pair: (Id, Id) :: InStore(t, pair) && !Covered(t, pair) ==> FillKey(pair) in t
  }

  // The row of a fill-in that INSERT OR IGNORE would skip.
  ghost predicate Skipped(t: Store, r: Row) {
    Covered(t, PairOfRow(r)) || KeyOf(r) in t
  }

  lemma {:induction false} NothingToFill(t: Store, rows: seq<Row>)
    requires Integrity(t) && forall r :: r in rows ==> r.Assignment? && Refs(r) <= t.Keys && Skipped(t, r)
    ensures RunBatch(t, OrIgnore, rows) == Done(t)
    decreases rows
  {
    if rows != [] {
      assert rows[0] in rows;
      IgnoreOneFill(t, rows[0]);
      NothingToFill(t, rows[1..]);
    }
  }

  // A row that is not skipped leaves some assignment that was not there.
  lemma {:induction false} SomethingFilled(t: Store, rows: seq<Row>, r: Row)
    requires Integrity(t) && (forall x :: x in rows ==> x.Assignment? && Refs(x) <= t.Keys) && r in rows
    requires !Skipped(t, r)
    requires RunBatch(t, OrIgnore, rows).Done?
    ensures exists k :: k in RunBatch(t, OrIgnore, rows).store && k !in t && k.table == AssignmentTable
    decreases rows
  {
    hide UniqueHolds, RefsResolve, Exec, Covered;
    var x, rest := rows[0], rows[1..];
    IgnoreOneFill(t, x);
    if Skipped(t, x) {
      assert r in rest;
      SomethingFilled(t, rest, r);
    } else {
      KeepsRow(Put(t, x), rest, KeyOf(x));
      assert KeyOf(x) in RunBatch(t, OrIgnore, rows).store;
    }
  }

  lemma SurvivorsAreFaithful(t: Store, now: string)
    requires Integrity(t) && !EmptyIdInUse(t)
    ensures SameData(t, Survivors(t, now), now)
  {
    forall k | UserRow(t, k)
      ensures k in Survivors(t, now) && Survivors(t, now)[k] == Returned(t[k], now)
    {
      assert KeyOf(t[k]) == k;
      KeptUserRow(t[k], now);
    }
  }

  // Without empty ids the surviving rows have the gaps of the database.
  lemma SurvivorsGaps(t: Store, now: string)
    requires Integrity(t) && !EmptyIdInUse(t)
    ensures GapsTaken(Survivors(t, now)) <==> GapsTaken(t)
  {
    hide UniqueHolds, RefsResolve, Survivors, Covered, Returned;
    SurvivorsAreFaithful(t, now);
    SurvivorsIntegrity(t, now);
    var s := Survivors(t, now);
    forall pair: (Id, Id) ensures Covered(s, pair) <==> Covered(t, pair) {
      SameCovered(t, s, now, pair);
    }
  }

  lemma SameCovered(t: Store, s: Store, now: string, pair: (Id, Id))
    requires Keyed(t) && Keyed(s) && SameData(t, s, now)
    ensures Covered(s, pair) <==> Covered(t, pair)
  {
    if Covered(t, pair) {
      var k :| k in t && UniqueOf(t[k]) == PairOf(pair.0, pair.1);
      assert KeyOf(t[k]) == k && t[k].Assignment?;
      assert k in s && s[k] == t[k];
    }
    if Covered(s, pair) {
      var k :| k in s && UniqueOf(s[k]) == PairOf(pair.0, pair.1);
      assert KeyOf(s[k]) == k && s[k].Assignment?;
      assert k in t && KeyOf(t[k]) == k && s[k] == Returned(t[k], now);
    }
  }

  // The closing cross join changes nothing exactly when every gap would get a
  // taken id; otherwise some assignment is added.
  lemma FillChanges(t: Store, scan: seq<(Id, Id)>, now: string)
    requires Integrity(t) && CrossJoin(scan, t) && RunBatch(t, OrIgnore, FillRows(scan, now)).Done?
    ensures GapsTaken(t) ==> RunBatch(t, OrIgnore, FillRows(scan, now)) == Done(t)
    ensures !GapsTaken(t) ==> AddsAssignment(t, RunBatch(t, OrIgnore, FillRows(scan, now)).store)
  {
    hide UniqueHolds, RefsResolve, Covered, Exec, RunBatch, FillRows;
    var rows := FillRows(scan, now);
    FillRefs(t, scan, now);
    FillRowsArePairs(scan, now);
    if GapsTaken(t) {
      forall r | r in rows ensures Skipped(t, r) {
        var pair := PairOfRow(r);
        assert KeyOf(r) == FillKey(pair);
        assert (pair.0, pair.1) in scan && InStore(t, pair);
      }
      NothingToFill(t, rows);
    } else {
      var pair: (Id, Id) :| InStore(t, pair) && !Covered(t, pair) && FillKey(pair) !in t;
      assert (pair.0, pair.1) == pair && pair in scan;
      SomethingFilled(t, rows, FillRow(pair, now));
    }
  }

  ghost predicate AddsAssignment(t: Store, t': Store) {
    exists k :: k in t' && k !in t && k.table == AssignmentTable
  }

  // Restoring a consistent database that uses no empty id, and whose gaps are all
  // taken, from its own backup, into any database, gives its user data back
  // exactly. A fully assigned database has no gaps.
  lemma BackupRoundTrip(target: Store, t: Store, lists: Listings, at: string, now: string, scan: seq<(Id, Id)>)
    requires Integrity(target) && Integrity(t) && AllNormal(t) && Listing(t, lists) && DEFAULT_KEY in t
    requires !EmptyIdInUse(t) && GapsTaken(t) && CrossJoin(scan, Survivors(t, now))
    ensures Import(target, Export(t, lists, at), now, scan) == Ok(Survivors(t, now))
    ensures SameData(t, Survivors(t, now), now)
  {
    hide GapsTaken, EmptyIdInUse, Survivors, RunBatch, Import, Export, SameData;
    OwnBackup(target, t, lists, at, now, scan);
    SurvivorsIntegrity(t, now);
    SurvivorsGaps(t, now);
    FillChanges(Survivors(t, now), scan, now);
    SurvivorsAreFaithful(t, now);
  }

  // No assignment carries the time of the restore.
  ghost predicate StampedLater(t: Store, now: string) {
    forall k :: k in t && t[k].Assignment? ==> t[k].updatedAt != now
  }

  // With an empty id in use, some row does not come back as it was.
  lemma EmptyIdIsLost(t: Store, now: string, scan: seq<(Id, Id)>)
    requires Integrity(t) && EmptyIdInUse(t) && CrossJoin(scan, Survivors(t, now))
    requires StampedLater(t, now)
    requires RunBatch(Survivors(t, now), OrIgnore, FillRows(scan, now)).Done?
    ensures !SameData(t, RunBatch(Survivors(t, now), OrIgnore, FillRows(scan, now)).store, now)
  {
    hide UniqueHolds, RefsResolve, Exec, RunBatch;
    var s := Survivors(t, now);
    var rows := FillRows(scan, now);
    var r := RunBatch(s, OrIgnore, rows).store;
    SurvivorsIntegrity(t, now);
    var k :| k in t && k.table in {AssignmentTable, CompletionTable, ChargeUseTable, DurationTable} && EmptyRef(t[k]);
    assert KeyOf(t[k]) == k;
    KeptUserRow(t[k], now);
    if k in s {
      KeepsRow(s, rows, k);
      assert r[k] == Restored(t[k], now);
      assert k in r && r[k] != Returned(t[k], now);
    } else if k in r {
      AddedRows(s, rows, k);
      FillRowsArePairs(scan, now);
      assert r[k].updatedAt == now && r[k].Assignment?;
      RunBatchKeepsIntegrity(s, OrIgnore, rows);
      assert KeyOf(r[k]) == k;
    }
  }

  // For a backup of any consistent database, restored at a time later than its
  // last assignment: it is accepted, and the round trip is faithful exactly when
  // no empty id is in use and every missing assignment's id is taken.
  lemma RoundTripIff(target: Store, t: Store, lists: Listings, at: string, now: string, scan: seq<(Id, Id)>)
    requires Integrity(target) && Integrity(t) && AllNormal(t) && Listing(t, lists) && DEFAULT_KEY in t
    requires CrossJoin(scan, Survivors(t, now))
    requires StampedLater(t, now)
    ensures Import(target, Export(t, lists, at), now, scan).Ok?
    ensures SameData(t, Import(target, Export(t, lists, at), now, scan).value, now) <==>
            !EmptyIdInUse(t) && GapsTaken(t)
  {
    hide GapsTaken, EmptyIdInUse, Survivors, RunBatch, Import, Export, SameData;
    OwnBackup(target, t, lists, at, now, scan);
    if EmptyIdInUse(t) {
      EmptyIdIsLost(t, now, scan);
    } else {
      SurvivorsIntegrity(t, now);
      SurvivorsGaps(t, now);
      FillChanges(Survivors(t, now), scan, now);
      SurvivorsAreFaithful(t, now);
      if !GapsTaken(t) {
        AddedIsNotSame(t, Survivors(t, now), RunBatch(Survivors(t, now), OrIgnore, FillRows(scan, now)).store, now);
      }
    }
  }

  lemma AddedIsNotSame(t: Store, s: Store, r: Store, now: string)
    requires SameData(t, s, now) && AddsAssignment(s, r)
    ensures !SameData(t, r, now)
  {
    var k :| k in r && k !in s && k.table == AssignmentTable;
    assert k !in t;
  }

  // The active character comes back too, unless it is set to the empty string.
  lemma ActiveCharacterReturns(t: Store, now: string)
    requires Integrity(t)
    ensures ActiveValue(Survivors(t, now)) == if ActiveValue(t) == Str("") then Null else ActiveValue(t)
  {
    if ACTIVE_SETTING in t {
      assert KeyOf(t[ACTIVE_SETTING]) == ACTIVE_SETTING;
    }
  }
}
