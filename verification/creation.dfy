// Creating characters and templates, with their automatic assignments, and
// applying a planner preset.
module Creation {
  import opened Wrappers
  import opened Json
  import opened Schema
  import opened Loading
  import opened Outcomes
  import opened Backup
  import opened Exporting
  import opened Assignments
  import opened Operations
  import Text

  // u occurs in s.
  ghost predicate Occurs(u: string, s: string) {
    exists a: string, b: string :: s == a + u + b
  }

  // A fresh UUID occurs in no stored id.
  ghost predicate Fresh(t: Store, u: Id) {
    u != "" && forall k :: k in t ==> !Occurs(u, k.id)
  }

  // scan lists the ids of a table once each, in the order the SELECT reads it.
  ghost predicate ScanOf(scan: seq<Id>, t: Store, table: Table) {
    (forall i, j :: 0 <= i < j < |scan| ==> scan[i] != scan[j]) && forall id :: id in scan <==> Key(table, id) in t
  }

  // The automatic assignment of (c, x), under 'assign:' || owner || ':' || other.
  function AutoRow(owner: Id, other: Id, c: Id, x: Id, now: string): Row {
    Assignment("assign:" + owner + ":" + other, c, x, true, None, now, now)
  }

  function CharacterAssignments(id: Id, scan: seq<Id>, now: string): seq<Row> {
    seq(|scan|, i requires 0 <= i < |scan| => AutoRow(id, scan[i], id, scan[i], now))
  }

  function TemplateAssignments(id: Id, scan: seq<Id>, now: string): seq<Row> {
    seq(|scan|, i requires 0 <= i < |scan| => AutoRow(id, scan[i], scan[i], id, now))
  }

  // INSERT of the new row, then INSERT OR IGNORE ... SELECT of its assignments.
  function InsertWithAssignments(t: Store, row: Row, rows: seq<Row>): Progress {
    match Exec(t, Insert(row))
    case ConstraintFailed => Progress(t, false)
    case Done(t') =>
      match RunBatch(t', OrIgnore, rows)
      case ConstraintFailed => Progress(t', false)
      case Done(t'') => Progress(t'', true)
  }

  function CreateCharacter(t: Store, id: Id, name: string, server: Option<string>, class_: Option<string>, now: string,
                           scan: seq<Id>): Progress
  {
    InsertWithAssignments(t, Character(id, name, server, class_, now, now), CharacterAssignments(id, scan, now))
  }

  function CreateTemplate(t: Store, id: Id, title: string, kind: TemplateKind, estimate: real, recharge: Option<real>,
                          stacks: Option<real>, now: string, scan: seq<Id>): Progress
  {
    InsertWithAssignments(t, TemplateRow(id, title, kind, estimate, recharge, stacks, now, now),
                          TemplateAssignments(id, scan, now))
  }

  // ------------------------------------------- what a new row brings with it

  lemma AutoIdIsFresh(t: Store, u: Id, other: Id)
    requires Fresh(t, u)
    ensures Key(AssignmentTable, "assign:" + u + ":" + other) !in t
  {
    var s := "assign:" + u + ":" + other;
    assert s == "assign:" + u + (":" + other);
    assert Occurs(u, s);
  }

  lemma FreshIsNew(t: Store, u: Id, table: Table)
    requires Fresh(t, u)
    ensures Key(table, u) !in t
  {
    assert u == "" + u + "";
    assert Occurs(u, u);
  }

  lemma AutoIdsDiffer(u: Id, a: Id, b: Id)
    requires a != b
    ensures "assign:" + u + ":" + a != "assign:" + u + ":" + b
  {
    var p := "assign:" + u + ":";
    assert "assign:" + u + ":" + a == p + a && "assign:" + u + ":" + b == p + b;
    assert (p + a)[|p|..] == a && (p + b)[|p|..] == b;
  }

  // The new rows' pairs are missing so far, their ids are free and different.
  lemma NewRowsAreFree(t: Store, u: Id, rows: seq<Row>, scan: seq<Id>)
    requires Fresh(t, u) && |rows| == |scan| && forall i, j :: 0 <= i < j < |scan| ==> scan[i] != scan[j]
    requires forall i :: 0 <= i < |rows| ==> rows[i].Assignment? && rows[i].id == "assign:" + u + ":" + scan[i]
    ensures forall r :: r in rows ==> KeyOf(r) !in t
    ensures forall i, j :: 0 <= i < j < |rows| ==> KeyOf(rows[i]) != KeyOf(rows[j])
  {
    forall i | 0 <= i < |rows| ensures KeyOf(rows[i]) !in t {
      AutoIdIsFresh(t, u, scan[i]);
    }
    forall i, j | 0 <= i < j < |rows| ensures KeyOf(rows[i]) != KeyOf(rows[j]) {
      AutoIdsDiffer(u, scan[i], scan[j]);
    }
  }

  lemma {:induction false} BatchKeepsNormal(t: Store, rows: seq<Row>)
    requires Consistent(t) && (forall r :: r in rows ==> Normal(r)) && RunBatch(t, OrIgnore, rows).Done?
    ensures Consistent(RunBatch(t, OrIgnore, rows).store)
    decreases rows
  {
    if rows != [] {
      assert rows[0] in rows;
      ExecKeepsConsistent(t, InsertOrIgnore(rows[0]));
      BatchKeepsNormal(Exec(t, InsertOrIgnore(rows[0])).store, rows[1..]);
    }
  }

  // A character or template row with a fresh id goes in with its assignments,
  // and afterwards every pair is assigned again.
  lemma InsertWithAssignmentsKeeps(t: Store, row: Row, rows: seq<Row>)
    requires Consistent(t) && Normal(row) && (row.Character? || row.Template?) && KeyOf(row) !in t
    requires PairRows(rows)
    requires (forall r :: r in rows ==> KeyOf(r) !in t && Refs(r) <= t.Keys + {KeyOf(row)} && KeyOf(row) in Refs(r))
    requires forall i, j :: 0 <= i < j < |rows| ==> KeyOf(rows[i]) != KeyOf(rows[j])
    ensures var p := InsertWithAssignments(t, row, rows);
            p.ok && Consistent(p.store) && AllCovered(p.store, rows)
            && (forall k :: k in t ==> k in p.store && p.store[k] == t[k])
            && (forall k :: k in p.store && k !in t ==> k == KeyOf(row) || k.table == AssignmentTable)
            && (forall k :: k in p.store && k !in t && k != KeyOf(row) ==> p.store[k] in rows)
            && KeyOf(row) in p.store && p.store[KeyOf(row)] == row
  {
    hide Integrity, AllNormal, Normal, Refs;
    NewRowGoesIn(t, row);
    NewPairsAreFree(t, row, rows);
    AutoFill(Put(t, row), rows);
  }

  lemma PairRowsNormal(rows: seq<Row>)
    requires PairRows(rows)
    ensures AllIn(rows, AssignmentTable) && forall r :: r in rows ==> Normal(r)
  {
  }

  lemma AutoFill(t: Store, rows: seq<Row>)
    requires Consistent(t) && PairRows(rows) && IdsFree(t, rows) && forall r :: r in rows ==> Refs(r) <= t.Keys
    ensures var out := RunBatch(t, OrIgnore, rows);
            out.Done? && Consistent(out.store) && AllCovered(out.store, rows) && t.Keys <= out.store.Keys
            && (forall k :: k in t ==> out.store[k] == t[k])
            && (forall k :: k in out.store && k !in t ==> k.table == AssignmentTable && out.store[k] in rows)
  {
    hide AllNormal, Normal, UniqueHolds, RefsResolve, Refs, Exec, RunBatch, IdsFree;
    PairRowsNormal(rows);
    FreeIdsCover(t, rows);
    IgnoredAreListed(t, rows, AssignmentTable);
    BatchKeepsNormal(t, rows);
    IgnoreOnlyAdds(t, rows, AssignmentTable);
  }

  lemma NewRowGoesIn(t: Store, row: Row)
    requires Consistent(t) && Normal(row) && (row.Character? || row.Template?) && KeyOf(row) !in t
    ensures Exec(t, Insert(row)) == Done(Put(t, row)) && Consistent(Put(t, row))
  {
    PlainRows(row);
    assert Clashing(t, row) == {};
    ExecKeepsConsistent(t, Insert(row));
  }

  lemma NewPairsAreFree(t: Store, row: Row, rows: seq<Row>)
    requires Integrity(t) && (row.Character? || row.Template?) && KeyOf(row) !in t
    requires PairRows(rows) && (forall r :: r in rows ==> KeyOf(r) !in t && KeyOf(row) in Refs(r))
    requires forall i, j :: 0 <= i < j < |rows| ==> KeyOf(rows[i]) != KeyOf(rows[j])
    ensures IdsFree(Put(t, row), rows)
  {
    forall r | r in rows ensures KeyOf(r) !in Put(t, row) {
      assert r.Assignment?;
    }
  }

  // Old pairs keep their assignment, new ones got theirs from the batch.
  lemma StillComplete(t: Store, t': Store, row: Row, rows: seq<Row>)
    requires Complete(t) && AllCovered(t', rows) && (row.Character? || row.Template?)
    requires forall k :: k in t ==> k in t' && t'[k] == t[k]
    requires forall k :: k in t' && k !in t ==> k == KeyOf(row) || k.table == AssignmentTable
    requires row.Character? ==> forall x :: TemplateKey(x) in t ==> exists r :: r in rows && PairOfRow(r) == (row.id, x)
    requires row.Template? ==> forall c :: CharacterKey(c) in t ==> exists r :: r in rows && PairOfRow(r) == (c, row.id)
    ensures Complete(t')
  {
    forall pair: (Id, Id) | InStore(t', pair)
      ensures Covered(t', pair)
    {
      if InStore(t, pair) {
        var k :| k in t && UniqueOf(t[k]) == PairOf(pair.0, pair.1);
        assert t'[k] == t[k];
      } else if row.Character? {
        assert pair.0 == row.id && TemplateKey(pair.1) in t;
        var r :| r in rows && PairOfRow(r) == (row.id, pair.1);
        assert Covered(t', PairOfRow(r)) && PairOfRow(r) == pair;
      } else {
        assert pair.1 == row.id && CharacterKey(pair.0) in t;
        var r :| r in rows && PairOfRow(r) == (pair.0, row.id);
        assert Covered(t', PairOfRow(r)) && PairOfRow(r) == pair;
      }
    }
  }

  lemma CharacterAssignmentRows(t: Store, id: Id, scan: seq<Id>, now: string)
    requires Fresh(t, id) && ScanOf(scan, t, TemplateTable)
    ensures var rows := CharacterAssignments(id, scan, now);
            && PairRows(rows)
            && (forall r :: r in rows ==>
                    KeyOf(r) !in t && Refs(r) <= t.Keys + {CharacterKey(id)} && CharacterKey(id) in Refs(r))
            && (forall i, j :: 0 <= i < j < |rows| ==> KeyOf(rows[i]) != KeyOf(rows[j]))
            && (forall x :: TemplateKey(x) in t ==> exists r :: r in rows && PairOfRow(r) == (id, x))
  {
    var rows := CharacterAssignments(id, scan, now);
    NewRowsAreFree(t, id, rows, scan);
    forall i | 0 <= i < |rows|
      ensures rows[i] in rows && PairOfRow(rows[i]) == (id, scan[i])
      ensures Refs(rows[i]) == {CharacterKey(id), TemplateKey(scan[i])}
    {
      assert scan[i] in scan;
    }
    forall x | TemplateKey(x) in t ensures exists r :: r in rows && PairOfRow(r) == (id, x) {
      var i :| 0 <= i < |scan| && scan[i] == x;
      assert PairOfRow(rows[i]) == (id, x);
    }
  }

  lemma TemplateAssignmentRows(t: Store, id: Id, scan: seq<Id>, now: string)
    requires Fresh(t, id) && ScanOf(scan, t, CharacterTable)
    ensures var rows := TemplateAssignments(id, scan, now);
            && PairRows(rows)
            && (forall r :: r in rows ==>
                    KeyOf(r) !in t && Refs(r) <= t.Keys + {TemplateKey(id)} && TemplateKey(id) in Refs(r))
            && (forall i, j :: 0 <= i < j < |rows| ==> KeyOf(rows[i]) != KeyOf(rows[j]))
            && (forall c :: CharacterKey(c) in t ==> exists r :: r in rows && PairOfRow(r) == (c, id))
  {
    var rows := TemplateAssignments(id, scan, now);
    NewRowsAreFree(t, id, rows, scan);
    forall i | 0 <= i < |rows|
      ensures rows[i] in rows && PairOfRow(rows[i]) == (scan[i], id)
      ensures Refs(rows[i]) == {CharacterKey(scan[i]), TemplateKey(id)}
    {
      assert scan[i] in scan;
    }
    forall c | CharacterKey(c) in t ensures exists r :: r in rows && PairOfRow(r) == (c, id) {
      var i :| 0 <= i < |scan| && scan[i] == c;
      assert PairOfRow(rows[i]) == (c, id);
    }
  }

  lemma AutoRows(t: Store, t': Store, row: Row, rows: seq<Row>)
    requires Keyed(t') && forall k :: k in t' && k !in t && k != KeyOf(row) ==> t'[k] in rows
    ensures forall k :: k in t' && k !in t && k != KeyOf(row) ==>
              t'[k].id == k.id && exists i :: 0 <= i < |rows| && t'[k] == rows[i]
  {
    forall k | k in t' && k !in t && k != KeyOf(row) ensures t'[k].id == k.id { assert KeyOf(t'[k]) == k; }
  }

  // An assignment made for a new character or template: enabled, without a target.
  predicate AutoAssigned(r: Row, id: Id, now: string) {
    r.Assignment? && r.id == id && r.enabled && r.targetCount.None? && r.createdAt == now && r.updatedAt == now
  }

  // A new character is stored, nothing else changes but its assignments, and
  // every template is assigned to it.
  lemma CreateCharacterKeeps(t: Store, id: Id, name: string, server: Option<string>, class_: Option<string>,
                             now: string, scan: seq<Id>)
    requires Consistent(t) && Fresh(t, id) && ScanOf(scan, t, TemplateTable)
    ensures var p := CreateCharacter(t, id, name, server, class_, now, scan);
            && p.ok && Consistent(p.store) && (Complete(t) ==> Complete(p.store))
            && CharacterKey(id) in p.store && p.store[CharacterKey(id)] == Character(id, name, server, class_, now, now)
            && (forall k :: k in t ==> k in p.store && p.store[k] == t[k])
            && (forall k :: k in p.store && k !in t ==> k == CharacterKey(id) || k.table == AssignmentTable)
            && (forall k :: k in p.store && k !in t && k != CharacterKey(id) ==>
                  && AutoAssigned(p.store[k], k.id, now) && p.store[k].characterId == id
                  && k.id == "assign:" + id + ":" + p.store[k].templateId)
  {
    var row := Character(id, name, server, class_, now, now);
    var rows := CharacterAssignments(id, scan, now);
    hide AllNormal, UniqueHolds, RefsResolve, Refs, InsertWithAssignments, RunBatch;
    FreshIsNew(t, id, CharacterTable);
    CharacterAssignmentRows(t, id, scan, now);
    InsertWithAssignmentsKeeps(t, row, rows);
    AutoRows(t, InsertWithAssignments(t, row, rows).store, row, rows);
    if Complete(t) {
      StillComplete(t, InsertWithAssignments(t, row, rows).store, row, rows);
    }
  }

  lemma CreateTemplateKeeps(t: Store, id: Id, title: string, kind: TemplateKind, estimate: real, recharge: Option<real>,
                            stacks: Option<real>, now: string, scan: seq<Id>)
    requires Consistent(t) && Fresh(t, id) && ScanOf(scan, t, CharacterTable)
    ensures var p := CreateTemplate(t, id, title, kind, estimate, recharge, stacks, now, scan);
            && p.ok && Consistent(p.store) && (Complete(t) ==> Complete(p.store))
            && TemplateKey(id) in p.store
            && p.store[TemplateKey(id)] == TemplateRow(id, title, kind, estimate, recharge, stacks, now, now)
            && (forall k :: k in t ==> k in p.store && p.store[k] == t[k])
            && (forall k :: k in p.store && k !in t ==> k == TemplateKey(id) || k.table == AssignmentTable)
            && (forall k :: k in p.store && k !in t && k != TemplateKey(id) ==>
                  && AutoAssigned(p.store[k], k.id, now) && p.store[k].templateId == id
                  && k.id == "assign:" + id + ":" + p.store[k].characterId)
  {
    var row := TemplateRow(id, title, kind, estimate, recharge, stacks, now, now);
    var rows := TemplateAssignments(id, scan, now);
    hide AllNormal, UniqueHolds, RefsResolve, Refs, InsertWithAssignments, RunBatch;
    FreshIsNew(t, id, TemplateTable);
    TemplateAssignmentRows(t, id, scan, now);
    InsertWithAssignmentsKeeps(t, row, rows);
    AutoRows(t, InsertWithAssignments(t, row, rows).store, row, rows);
    if Complete(t) {
      StillComplete(t, InsertWithAssignments(t, row, rows).store, row, rows);
    }
  }
}
