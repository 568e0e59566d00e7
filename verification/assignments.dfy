// "Every character x every template is assigned": what keeps the rule, and when
// the closing cross join of a restore establishes it.
module Assignments {
  import opened Wrappers
  import opened Schema
  import opened Loading
  import opened Outcomes
  import opened Importing
  import opened Restore
  import opened Safety
  import Json

  ghost predicate Covered(t: Store, pair: (Id, Id)) {
    exists k :: k in t && UniqueOf(t[k]) == PairOf(pair.0, pair.1)
  }

  ghost predicate InStore(t: Store, pair: (Id, Id)) {
    CharacterKey(pair.0) in t && TemplateKey(pair.1) in t
  }

  // With UNIQUE(character_id, template_id) and the foreign keys this means one
  // assignment for each existing pair and none for any other.
  ghost predicate Complete(t: Store) {
    forall pair: (Id, Id) :: InStore(t, pair) ==> Covered(t, pair)
  }

  lemma ExactlyOneAssignment(t: Store, pair: (Id, Id))
    requires Integrity(t) && Complete(t)
    ensures InStore(t, pair) <==> Covered(t, pair)
    ensures forall j, k :: j in t && k in t && UniqueOf(t[j]) == PairOf(pair.0, pair.1) == UniqueOf(t[k]) ==> j == k
  {
    if Covered(t, pair) {
      var k :| k in t && UniqueOf(t[k]) == PairOf(pair.0, pair.1);
      assert t[k].Assignment? && CharacterKey(pair.0) in Refs(t[k]) && TemplateKey(pair.1) in Refs(t[k]);
    }
    forall j, k | j in t && k in t && UniqueOf(t[j]) == PairOf(pair.0, pair.1) == UniqueOf(t[k])
      ensures j == k
    {
      assert Clash(t[j], t[k]);
    }
  }

  // -------------------------------------------------- the closing cross join

  function FillKey(pair: (Id, Id)): Key {
    Key(AssignmentTable, "assign:" + pair.0 + ":" + pair.1)
  }

  // Rows added by INSERT OR IGNORE come from the batch, as given.
  lemma {:induction false} AddedRows(t: Store, rows: seq<Row>, k: Key)
    requires RunBatch(t, OrIgnore, rows).Done? && k in RunBatch(t, OrIgnore, rows).store && k !in t
    ensures RunBatch(t, OrIgnore, rows).store[k] in rows
    decreases rows
  {
    if rows != [] {
      var t' := Exec(t, InsertOrIgnore(rows[0])).store;
      if k in t' {
        KeepsRow(t', rows[1..], k);
      } else {
        AddedRows(t', rows[1..], k);
      }
    }
  }

  lemma {:induction false} KeepsRow(t: Store, rows: seq<Row>, k: Key)
    requires RunBatch(t, OrIgnore, rows).Done? && k in t && KeyOf(t[k]) == k
    ensures k in RunBatch(t, OrIgnore, rows).store && RunBatch(t, OrIgnore, rows).store[k] == t[k]
    decreases rows
  {
    if rows != [] {
      var r := rows[0];
      assert KeyOf(r) == k ==> k in Clashing(t, r);
      KeepsRow(Exec(t, InsertOrIgnore(r)).store, rows[1..], k);
    }
  }

  // The pair an assignment row is for.
  function PairOfRow(r: Row): (Id, Id) {
    if r.Assignment? then (r.characterId, r.templateId) else ("", "")
  }

  // Assignment rows for pairwise different pairs.
  ghost predicate PairRows(rows: seq<Row>) {
    && (forall r :: r in rows ==> r.Assignment?)
    && (forall i, j :: 0 <= i < j < |rows| ==> PairOfRow(rows[i]) != PairOfRow(rows[j]))
  }

  // The ids handed to the missing pairs are free and pairwise different.
  ghost predicate IdsFree(t: Store, rows: seq<Row>) {
    && (forall r :: r in rows && !Covered(t, PairOfRow(r)) ==> KeyOf(r) !in t)
    && (forall i, j :: 0 <= i < j < |rows| && !Covered(t, PairOfRow(rows[i])) && !Covered(t, PairOfRow(rows[j])) ==>
          KeyOf(rows[i]) != KeyOf(rows[j]))
  }

  ghost predicate AllCovered(t: Store, rows: seq<Row>) {
    forall r :: r in rows ==> Covered(t, PairOfRow(r))
  }

  lemma IgnoreOneFill(t: Store, r: Row)
    requires Integrity(t) && r.Assignment? && Refs(r) <= t.Keys
    ensures Exec(t, InsertOrIgnore(r)) == if Covered(t, PairOfRow(r)) || KeyOf(r) in t then Done(t) else Done(Put(t, r))
  {
    if Covered(t, PairOfRow(r)) {
      var k :| k in t && UniqueOf(t[k]) == PairOf(r.characterId, r.templateId);
      assert k in Clashing(t, r);
    } else if KeyOf(r) in t {
      assert KeyOf(r) in Clashing(t, r);
    } else {
      assert Clashing(t, r) == {};
    }
  }

  lemma {:induction false} FreeIdsCover(t: Store, rows: seq<Row>)
    requires Integrity(t) && PairRows(rows) && IdsFree(t, rows) && forall r :: r in rows ==> Refs(r) <= t.Keys
    ensures RunBatch(t, OrIgnore, rows).Done? && AllCovered(RunBatch(t, OrIgnore, rows).store, rows)
    decreases rows
  {
    if rows != [] {
      hide UniqueHolds, RefsResolve, IdsFree, PairRows, Exec;
      var r, rest := rows[0], rows[1..];
      assert r in rows;
      assert r.Assignment? by { AssignmentRow(rows, 0); }
      IgnoreOneFill(t, r);
      ExecKeepsIntegrity(t, InsertOrIgnore(r));
      var t' := Exec(t, InsertOrIgnore(r)).store;
      FreeIdsStep(t, rows);
      FreeIdsCover(t', rest);
      assert Covered(t', PairOfRow(r)) by {
        if !Covered(t, PairOfRow(r)) { assert UniqueOf(t'[KeyOf(r)]) == PairOf(r.characterId, r.templateId); }
      }
      StaysCovered(t', rest, PairOfRow(r));
      assert forall x :: x in rows ==> x == r || x in rest;
    }
  }

  lemma AssignmentRow(rows: seq<Row>, i: nat)
    requires PairRows(rows) && i < |rows|
    ensures rows[i].Assignment?
  {
    assert rows[i] in rows;
  }

  lemma FreeIdsStep(t: Store, rows: seq<Row>)
    requires rows != [] && Integrity(t) && PairRows(rows) && IdsFree(t, rows) && Refs(rows[0]) <= t.Keys
    ensures var t' := if Covered(t, PairOfRow(rows[0])) then t else Put(t, rows[0]);
            PairRows(rows[1..]) && IdsFree(t', rows[1..]) && (!Covered(t, PairOfRow(rows[0])) ==> KeyOf(rows[0]) !in t)
  {
    var r, rest := rows[0], rows[1..];
    assert r in rows;
    var t' := if Covered(t, PairOfRow(r)) then t else Put(t, r);
    assert !Covered(t, PairOfRow(r)) ==> KeyOf(r) !in t;
    forall x | Covered(t, x) ensures Covered(t', x) {
      var k :| k in t && UniqueOf(t[k]) == PairOf(x.0, x.1);
      assert k in t' && t'[k] == t[k];
    }
    forall i | 0 <= i < |rest| && !Covered(t', PairOfRow(rest[i]))
      ensures KeyOf(rest[i]) !in t'
    {
      assert rest[i] == rows[i + 1] && rest[i] in rows;
    }
    forall i, j | 0 <= i < j < |rest| && !Covered(t', PairOfRow(rest[i])) && !Covered(t', PairOfRow(rest[j]))
      ensures KeyOf(rest[i]) != KeyOf(rest[j])
    {
      assert rest[i] == rows[i + 1] && rest[j] == rows[j + 1];
    }
  }

  lemma StaysCovered(t: Store, rows: seq<Row>, pair: (Id, Id))
    requires Keyed(t) && Covered(t, pair) && RunBatch(t, OrIgnore, rows).Done?
    ensures Covered(RunBatch(t, OrIgnore, rows).store, pair)
  {
    var k :| k in t && UniqueOf(t[k]) == PairOf(pair.0, pair.1);
    KeepsRow(t, rows, k);
    assert UniqueOf(RunBatch(t, OrIgnore, rows).store[k]) == PairOf(pair.0, pair.1);
  }

  // A newly covered pair got the id meant for it.
  lemma NewlyCovered(t: Store, rows: seq<Row>, i: int)
    requires Integrity(t) && PairRows(rows) && 0 <= i < |rows| && RunBatch(t, OrIgnore, rows).Done?
    requires !Covered(t, PairOfRow(rows[i])) && Covered(RunBatch(t, OrIgnore, rows).store, PairOfRow(rows[i]))
    ensures var t' := RunBatch(t, OrIgnore, rows).store;
            KeyOf(rows[i]) !in t && KeyOf(rows[i]) in t' && t'[KeyOf(rows[i])] == rows[i]
  {
    var t' := RunBatch(t, OrIgnore, rows).store;
    RunBatchKeepsIntegrity(t, OrIgnore, rows);
    var pair := PairOfRow(rows[i]);
    var k :| k in t' && UniqueOf(t'[k]) == PairOf(pair.0, pair.1);
    if k in t {
      KeepsRow(t, rows, k);
      assert false;
    }
    AddedRows(t, rows, k);
    var j :| 0 <= j < |rows| && rows[j] == t'[k];
    assert rows[j] in rows && PairOfRow(rows[j]) == pair;
  }

  // The cross join covers every pair exactly when the ids it makes up for the
  // missing pairs are free and pairwise different.
  lemma FillOutcome(t: Store, rows: seq<Row>)
    requires Integrity(t) && PairRows(rows) && forall r :: r in rows ==> Refs(r) <= t.Keys
    ensures RunBatch(t, OrIgnore, rows).Done?
    ensures AllCovered(RunBatch(t, OrIgnore, rows).store, rows) <==> IdsFree(t, rows)
  {
    IgnoreNeverFails(t, rows, AssignmentTable);
    var t' := RunBatch(t, OrIgnore, rows).store;
    if IdsFree(t, rows) {
      FreeIdsCover(t, rows);
    }
    if AllCovered(t', rows) {
      forall i | 0 <= i < |rows| && !Covered(t, PairOfRow(rows[i]))
        ensures KeyOf(rows[i]) !in t && KeyOf(rows[i]) in t' && t'[KeyOf(rows[i])] == rows[i]
      {
        assert rows[i] in rows;
        NewlyCovered(t, rows, i);
      }
    }
  }

  lemma FillRowsArePairs(scan: seq<(Id, Id)>, now: string)
    requires forall i, j :: 0 <= i < j < |scan| ==> scan[i] != scan[j]
    ensures PairRows(FillRows(scan, now))
    ensures forall r :: r in FillRows(scan, now) ==> PairOfRow(r) in scan && r == FillRow(PairOfRow(r), now)
    ensures forall pair :: pair in scan ==> FillRow(pair, now) in FillRows(scan, now)
  {
    var rows := FillRows(scan, now);
    forall i | 0 <= i < |rows|
      ensures rows[i].Assignment? && PairOfRow(rows[i]) == scan[i] && scan[i] in scan && rows[i] in rows
    {
    }
  }

  lemma FillRefs(t: Store, scan: seq<(Id, Id)>, now: string)
    requires CrossJoin(scan, t)
    ensures forall r :: r in FillRows(scan, now) ==> Refs(r) <= t.Keys
  {
    FillRowsArePairs(scan, now);
    forall r | r in FillRows(scan, now) ensures Refs(r) <= t.Keys {
      FillRowFacts(PairOfRow(r), now);
      assert (PairOfRow(r).0, PairOfRow(r).1) in scan;
    }
  }

  lemma CoveredScan(t: Store, scan: seq<(Id, Id)>, now: string)
    requires forall i, j :: 0 <= i < j < |scan| ==> scan[i] != scan[j]
    ensures AllCovered(t, FillRows(scan, now)) <==> forall pair :: pair in scan ==> Covered(t, pair)
  {
    FillRowsArePairs(scan, now);
    if AllCovered(t, FillRows(scan, now)) {
      forall pair | pair in scan ensures Covered(t, pair) {
        assert FillRow(pair, now) in FillRows(scan, now) && PairOfRow(FillRow(pair, now)) == pair;
      }
    }
  }

  lemma FilledIsComplete(t: Store, scan: seq<(Id, Id)>, now: string)
    requires Integrity(t) && CrossJoin(scan, t) && RunBatch(t, OrIgnore, FillRows(scan, now)).Done?
    ensures Complete(RunBatch(t, OrIgnore, FillRows(scan, now)).store) <==>
            AllCovered(RunBatch(t, OrIgnore, FillRows(scan, now)).store, FillRows(scan, now))
  {
    FillRowsAreAssignments(scan, now);
    BatchIsComplete(t, FillRows(scan, now), scan);
    CoveredScan(RunBatch(t, OrIgnore, FillRows(scan, now)).store, scan, now);
  }

  lemma FillRowsAreAssignments(scan: seq<(Id, Id)>, now: string)
    ensures AllIn(FillRows(scan, now), AssignmentTable)
  {
  }

  lemma BatchIsComplete(t: Store, rows: seq<Row>, scan: seq<(Id, Id)>)
    requires Integrity(t) && CrossJoin(scan, t) && AllIn(rows, AssignmentTable) && RunBatch(t, OrIgnore, rows).Done?
    ensures Complete(RunBatch(t, OrIgnore, rows).store) <==>
            forall pair :: pair in scan ==> Covered(RunBatch(t, OrIgnore, rows).store, pair)
  {
    IgnoreOnlyAdds(t, rows, AssignmentTable);
    SamePairs(t, RunBatch(t, OrIgnore, rows).store, scan);
  }

  lemma SamePairs(t: Store, t': Store, scan: seq<(Id, Id)>)
    requires CrossJoin(scan, t)
    requires t.Keys <= t'.Keys && forall k :: k in t' && k !in t ==> k.table == AssignmentTable
    ensures Complete(t') <==> forall pair :: pair in scan ==> Covered(t', pair)
  {
    forall pair: (Id, Id) ensures InStore(t', pair) <==> pair in scan {
      assert pair == (pair.0, pair.1);
    }
  }

  // A restore assigns every template to every character exactly when the ids it
  // makes up are free and pairwise different in what it has loaded.
  lemma FillCompletesIff(t: Store, raw: Json.Value, now: string, scan: seq<(Id, Id)>)
    requires Integrity(t) && ScanFits(scan, raw, now) && Import(t, raw, now, scan).Ok?
    ensures Loaded(raw, now).Done?
    ensures Complete(Import(t, raw, now, scan).value) <==> IdsFree(Loaded(raw, now).store, FillRows(scan, now))
  {
    WipeEmpties(t);
    LoadedIntegrity(raw, now);
    var t' := Loaded(raw, now).store;
    FillRowsArePairs(scan, now);
    FillRefs(t', scan, now);
    FillOutcome(t', FillRows(scan, now));
    FilledIsComplete(t', scan, now);
  }

  lemma LoadedIntegrity(raw: Json.Value, now: string)
    requires Loaded(raw, now).Done?
    ensures Integrity(Loaded(raw, now).store)
  {
    PlanIsWellFormed(raw, now);
    RunBatchesKeepIntegrity(map[], BatchesFrom(PlanOf(raw, now), 0));
  }

  // ------------------------------------------ ids without a colon never collide

  predicate ColonFree(id: Id) {
    ':' !in id
  }

  lemma FirstColon(a: string, b: string, x: string, y: string)
    requires ':' !in a && ':' !in b && a + ":" + x == b + ":" + y
    ensures a == b && x == y
  {
    var s := a + ":" + x;
    assert s[|a|] == ':' && s[|b|] == ':';
    forall i | 0 <= i < |a| ensures s[i] != ':' { assert a[i] in a; }
    forall i | 0 <= i < |b| ensures s[i] != ':' { assert s[i] == b[i] && b[i] in b; }
    assert |a| == |b|;
    assert a == s[..|a|] && b == s[..|b|];
    assert x == s[|a| + 1..] && y == s[|b| + 1..];
  }

  lemma FillIdsDiffer(p: (Id, Id), q: (Id, Id))
    requires ColonFree(p.0) && ColonFree(q.0) && FillKey(p) == FillKey(q)
    ensures p == q
  {
    var prefix := "assign:";
    var a, b := "assign:" + p.0 + ":" + p.1, "assign:" + q.0 + ":" + q.1;
    assert a == prefix + (p.0 + ":" + p.1) && b == prefix + (q.0 + ":" + q.1);
    assert a[|prefix|..] == p.0 + ":" + p.1 && b[|prefix|..] == q.0 + ":" + q.1;
    FirstColon(p.0, q.0, p.1, q.1);
  }
}
