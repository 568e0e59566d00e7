// applyPlannerPreset: which templates of a preset are created, and what a second
// application does.
module Preset {
  import opened Wrappers
  import opened Json
  import opened Schema
  import opened Loading
  import opened Backup
  import opened Exporting
  import opened Assignments
  import opened Operations
  import opened Creation
  import opened Reading
  import Text

  datatype Mode = Merge | Replace

  datatype Wanted = Wanted(title: string, kind: TemplateKind, estimate: real, recharge: Option<real>,
                           stacks: Option<real>)

  // One raw preset entry; None is `continue`.
  function Normalise(v: Value): Option<Wanted> {
    var title := Text.Trim(GetString(v, Title, ""));
    var kind := AsKind(Get(v, Type));
    if !IsObject(v) || title == "" || kind.None? then None
    else Some(Wanted(title, kind.value, GetCount(v, EstimateMinutes) as real, GetOptNumber(v, RechargeHours),
                     GetOptNumber(v, MaxStacks)))
  }

  function NormaliseAll(vs: seq<Value>): seq<Wanted> {
    if vs == [] then []
    else
      var init := NormaliseAll(vs[..|vs| - 1]);
      match Normalise(vs[|vs| - 1])
      case None => init
      case Some(w) => init + [w]
  }

  // What an entry of a preset asks for: a title without white space at its ends, a
  // type, and the numbers where there are any.
  ghost predicate Asks(w: Wanted, v: Value) {
    && ReadsName(w.title, v, Title)
    && At(v, [Type], Str(if w.kind.DAILY? then "DAILY" else if w.kind.WEEKLY? then "WEEKLY" else "CHARGE"))
    && w.estimate == w.estimate.Floor as real && ReadsCount(w.estimate.Floor, v, [EstimateMinutes])
    && ReadsOptNumber(w.recharge, v, [RechargeHours]) && ReadsOptNumber(w.stacks, v, [MaxStacks])
  }

  lemma WantedTold(v: Value)
    ensures Normalise(v).Some? <==> HasName(v, Title) && OneOf(v, Type, {"DAILY", "WEEKLY", "CHARGE"})
    ensures Normalise(v).Some? ==> Asks(Normalise(v).value, v)
  {
    hide ReadsName, ReadsCount, ReadsOptNumber, Text.Trim, GetString, GetOptNumber, GetCount;
    Fields(v);
    Reads(v);
    NameRead(v, Title);
  }

  // A list asks for what its parts ask for, one after the other.
  lemma {:induction false} WantedJoin(a: seq<Value>, b: seq<Value>)
    ensures NormaliseAll(a + b) == NormaliseAll(a) + NormaliseAll(b)
    decreases b
  {
    hide Normalise;
    if b == [] {
      assert a + b == a;
    } else {
      var init, last := b[..|b| - 1], b[|b| - 1];
      WantedJoin(a, init);
      WantedOne(a + init, last);
      WantedOne(init, last);
      assert a + b == a + init + [last] && b == init + [last];
    }
  }

  lemma WantedOne(a: seq<Value>, v: Value)
    ensures NormaliseAll(a + [v]) == NormaliseAll(a) + match Normalise(v) case None => [] case Some(w) => [w]
  {
    hide Normalise;
    assert (a + [v])[..|a|] == a;
  }

  // Two templates count as the same when type and folded title agree; fold
  // stands for trim().toLowerCase().
  type Mark = (TemplateKind, string)

  function MarkOf(w: Wanted, fold: string -> string): Mark { (w.kind, fold(w.title)) }

  function Marks(t: Store, fold: string -> string): set<Mark> {
    set k | k in t && t[k].Template? :: (t[k].kind, fold(t[k].title))
  }

  function WantedMarks(wanted: seq<Wanted>, fold: string -> string): set<Mark> {
    if wanted == [] then {} else {MarkOf(wanted[0], fold)} + WantedMarks(wanted[1..], fold)
  }

  function CreateWanted(t: Store, w: Wanted, id: Id, now: string, scan: seq<Id>): Progress {
    CreateTemplate(t, id, w.title, w.kind, w.estimate, w.recharge, w.stacks, now, scan)
  }

  datatype Applied = Applied(store: Store, created: nat, skipped: nat)

  function FirstId(ids: seq<Id>): Id { if ids == [] then "" else ids[0] }

  function RestIds(ids: seq<Id>): seq<Id> { if ids == [] then [] else ids[1..] }

  // The loop over the wanted templates; ids are the UUIDs drawn, scan the order
  // in which the characters are read.
  function Loop(t: Store, marks: set<Mark>, wanted: seq<Wanted>, fold: string -> string, ids: seq<Id>, now: string,
                scan: seq<Id>): Applied
    decreases wanted
  {
    if wanted == [] then Applied(t, 0, 0)
    else
      var w := wanted[0];
      if MarkOf(w, fold) in marks then
        var rest := Loop(t, marks, wanted[1..], fold, ids, now, scan);
        Applied(rest.store, rest.created, rest.skipped + 1)
      else
        var t' := CreateWanted(t, w, FirstId(ids), now, scan).store;
        var rest := Loop(t', marks + {MarkOf(w, fold)}, wanted[1..], fold, RestIds(ids), now, scan);
        Applied(rest.store, rest.created + 1, rest.skipped)
  }

  function Cleared(t: Store, mode: Mode): Store {
    if mode.Replace? then Delete(t, KeysIn(t, TemplateTable)) else t
  }

  function Apply(t: Store, mode: Mode, wanted: seq<Wanted>, fold: string -> string, ids: seq<Id>, now: string,
                 scan: seq<Id>): Applied
  {
    var t' := Cleared(t, mode);
    Loop(t', Marks(t', fold), wanted, fold, ids, now, scan)
  }

  // Every UUID is fresh when it is drawn.
  ghost predicate FreshAlong(t: Store, marks: set<Mark>, wanted: seq<Wanted>, fold: string -> string, ids: seq<Id>,
                             now: string, scan: seq<Id>)
    decreases wanted
  {
    wanted == [] ||
    (var w := wanted[0];
     if MarkOf(w, fold) in marks then FreshAlong(t, marks, wanted[1..], fold, ids, now, scan)
     else
       && Fresh(t, FirstId(ids))
       && FreshAlong(CreateWanted(t, w, FirstId(ids), now, scan).store, marks + {MarkOf(w, fold)}, wanted[1..], fold,
                     RestIds(ids), now, scan))
  }

  lemma CreatedMark(t: Store, w: Wanted, id: Id, now: string, scan: seq<Id>, fold: string -> string)
    requires Consistent(t) && Fresh(t, id) && ScanOf(scan, t, CharacterTable)
    ensures var t' := CreateWanted(t, w, id, now, scan).store;
            Marks(t', fold) == Marks(t, fold) + {MarkOf(w, fold)} && ScanOf(scan, t', CharacterTable)
  {
    hide CreateTemplate, AllNormal, UniqueHolds, RefsResolve;
    CreateTemplateKeeps(t, id, w.title, w.kind, w.estimate, w.recharge, w.stacks, now, scan);
    var t' := CreateWanted(t, w, id, now, scan).store;
    var key := TemplateKey(id);
    assert t'[key].Template? && t'[key].title == w.title && t'[key].kind == w.kind;
    forall k | k in t' && t'[k].Template?
      ensures k == key || (k in t && t'[k] == t[k])
    {
      assert KeyOf(t'[k]) == k;
    }
    forall m | m in Marks(t, fold) ensures m in Marks(t', fold) {
      var k :| k in t && t[k].Template? && m == (t[k].kind, fold(t[k].title));
      assert t'[k] == t[k];
    }
  }

  lemma CreatedWanted(t: Store, w: Wanted, id: Id, now: string, scan: seq<Id>, fold: string -> string)
    requires Consistent(t) && Fresh(t, id) && ScanOf(scan, t, CharacterTable)
    ensures var t' := CreateWanted(t, w, id, now, scan).store;
            && Consistent(t') && (Complete(t) ==> Complete(t')) && Unchanged(t, t')
            && Marks(t', fold) == Marks(t, fold) + {MarkOf(w, fold)} && ScanOf(scan, t', CharacterTable)
  {
    CreateTemplateKeeps(t, id, w.title, w.kind, w.estimate, w.recharge, w.stacks, now, scan);
    CreatedMark(t, w, id, now, scan, fold);
  }

  // No two templates count as the same.
  ghost predicate OneEach(t: Store, fold: string -> string) {
    forall j, k :: j in t && k in t && t[j].Template? && t[k].Template? && SameMark(t[j], t[k], fold) ==> j == k
  }

  predicate SameMark(a: Row, b: Row, fold: string -> string)
    requires a.Template? && b.Template?
  {
    a.kind == b.kind && fold(a.title) == fold(b.title)
  }

  lemma CreatedOnce(t: Store, w: Wanted, id: Id, now: string, scan: seq<Id>, fold: string -> string)
    requires Consistent(t) && Fresh(t, id) && ScanOf(scan, t, CharacterTable)
    requires MarkOf(w, fold) !in Marks(t, fold) && OneEach(t, fold)
    ensures OneEach(CreateWanted(t, w, id, now, scan).store, fold)
  {
    hide CreateTemplate, AllNormal, UniqueHolds, RefsResolve, Complete, Fresh, ScanOf;
    CreateTemplateKeeps(t, id, w.title, w.kind, w.estimate, w.recharge, w.stacks, now, scan);
    var t' := CreateWanted(t, w, id, now, scan).store;
    var key := TemplateKey(id);
    NewMark(t, t', key, w, fold);
  }

  lemma NewMark(t: Store, t': Store, key: Key, w: Wanted, fold: string -> string)
    requires Keyed(t') && Unchanged(t, t') && MarkOf(w, fold) !in Marks(t, fold) && OneEach(t, fold)
    requires key in t' && t'[key].Template? && t'[key].title == w.title && t'[key].kind == w.kind
    requires forall k :: k in t' && k !in t ==> k == key || k.table == AssignmentTable
    ensures OneEach(t', fold)
  {
    forall k | k in t' && t'[k].Template? ensures k == key || (k in t && t'[k] == t[k]) {
      assert KeyOf(t'[k]) == k;
    }
    forall k | k in t && t[k].Template? ensures (t[k].kind, fold(t[k].title)) in Marks(t, fold) {}
  }

  ghost predicate Unchanged(t: Store, t': Store) {
    forall k :: k in t ==> k in t' && t'[k] == t[k]
  }

  // What a run of the loop from t has to leave: the marks there were and those
  // wanted, each wanted template created or skipped, and the old rows untouched.
  ghost predicate GoodOutcome(t: Store, a: Applied, wanted: seq<Wanted>, fold: string -> string, now: string) {
    && Consistent(a.store) && (Complete(t) ==> Complete(a.store))
    && a.created + a.skipped == |wanted|
    && Marks(a.store, fold) == Marks(t, fold) + WantedMarks(wanted, fold)
    && Unchanged(t, a.store) && (OneEach(t, fold) ==> OneEach(a.store, fold))
    && a.created == |NewTemplates(t, a.store)| && AsWanted(t, a.store, wanted, fold, now)
  }

  function NewTemplates(t: Store, t': Store): set<Key> { set k | k in t' && k !in t && t'[k].Template? }

  // The template a wanted one is made into.
  predicate TemplateSays(r: Row, w: Wanted, now: string) {
    && r.Template? && r.title == w.title && r.kind == w.kind && WholeFrom(r.estimate, w.estimate, 0)
    && r.rechargeHours == (if w.kind.CHARGE? then w.recharge else None)
    && r.maxStacks == (if w.kind.CHARGE? then w.stacks else None) && r.createdAt == now && r.updatedAt == now
  }

  // Wanted for the first time, and not there before.
  predicate FirstWanted(t: Store, wanted: seq<Wanted>, i: int, fold: string -> string) {
    && 0 <= i < |wanted| && MarkOf(wanted[i], fold) !in Marks(t, fold)
    && forall j :: 0 <= j < i ==> MarkOf(wanted[j], fold) != MarkOf(wanted[i], fold)
  }

  // Every new template is as some wanted one says, the first of its mark.
  ghost predicate AsWanted(t: Store, t': Store, wanted: seq<Wanted>, fold: string -> string, now: string) {
    forall k :: k in NewTemplates(t, t') ==>
      exists i :: FirstWanted(t, wanted, i, fold) && TemplateSays(t'[k], wanted[i], now)
  }

  // One new template, as wanted.
  ghost predicate OneNew(t: Store, t': Store, w: Wanted, now: string) {
    exists k :: NewTemplates(t, t') == {k} && TemplateSays(t'[k], w, now)
  }

  lemma CreatedAsWanted(t: Store, w: Wanted, id: Id, now: string, scan: seq<Id>)
    requires Consistent(t) && Fresh(t, id) && ScanOf(scan, t, CharacterTable)
    ensures OneNew(t, CreateWanted(t, w, id, now, scan).store, w, now)
  {
    hide CreateTemplate, AllNormal, UniqueHolds, RefsResolve;
    CreateTemplateKeeps(t, id, w.title, w.kind, w.estimate, w.recharge, w.stacks, now, scan);
    FreshIsNew(t, id, TemplateTable);
    FloorNatIs(w.estimate);
    var t' := CreateWanted(t, w, id, now, scan).store;
    forall k | k in NewTemplates(t, t') ensures k == TemplateKey(id) { assert KeyOf(t'[k]) == k; }
    assert NewTemplates(t, t') == {TemplateKey(id)};
  }

  lemma SkippedAsWanted(t: Store, t': Store, wanted: seq<Wanted>, fold: string -> string, now: string)
    requires wanted != [] && MarkOf(wanted[0], fold) in Marks(t, fold) && AsWanted(t, t', wanted[1..], fold, now)
    ensures AsWanted(t, t', wanted, fold, now)
  {
    hide Marks, MarkOf, TemplateSays;
    forall k | k in NewTemplates(t, t')
      ensures exists i :: FirstWanted(t, wanted, i, fold) && TemplateSays(t'[k], wanted[i], now)
    {
      var i :| FirstWanted(t, wanted[1..], i, fold) && TemplateSays(t'[k], wanted[1..][i], now);
      assert forall j :: 0 < j < |wanted| ==> wanted[j] == wanted[1..][j - 1];
      assert FirstWanted(t, wanted, i + 1, fold);
    }
  }

  lemma JoinAsWanted(t: Store, t1: Store, t2: Store, wanted: seq<Wanted>, fold: string -> string, now: string)
    requires wanted != [] && MarkOf(wanted[0], fold) !in Marks(t, fold)
    requires Marks(t1, fold) == Marks(t, fold) + {MarkOf(wanted[0], fold)}
    requires Unchanged(t, t1) && Unchanged(t1, t2)
    requires OneNew(t, t1, wanted[0], now) && AsWanted(t1, t2, wanted[1..], fold, now)
    ensures AsWanted(t, t2, wanted, fold, now) && |NewTemplates(t, t2)| == |NewTemplates(t1, t2)| + 1
  {
    hide Marks, MarkOf, TemplateSays;
    var n :| NewTemplates(t, t1) == {n} && TemplateSays(t1[n], wanted[0], now);
    assert n in NewTemplates(t, t1);
    forall k ensures k in NewTemplates(t, t2) <==> k in NewTemplates(t1, t2) + {n} {
      assert k in t1 && k !in t && t1[k].Template? <==> k == n by { assert k in NewTemplates(t, t1) <==> k == n; }
    }
    assert NewTemplates(t, t2) == NewTemplates(t1, t2) + {n};
    forall k | k in NewTemplates(t, t2)
      ensures exists i :: FirstWanted(t, wanted, i, fold) && TemplateSays(t2[k], wanted[i], now)
    {
      if k == n {
        assert FirstWanted(t, wanted, 0, fold) && t2[n] == t1[n];
      } else {
        var i :| FirstWanted(t1, wanted[1..], i, fold) && TemplateSays(t2[k], wanted[1..][i], now);
        assert forall j :: 0 < j < |wanted| ==> wanted[j] == wanted[1..][j - 1];
        assert FirstWanted(t, wanted, i + 1, fold);
      }
    }
  }

  lemma NoneWanted(t: Store, fold: string -> string, now: string)
    requires Consistent(t)
    ensures GoodOutcome(t, Applied(t, 0, 0), [], fold, now)
  {
    assert NewTemplates(t, t) == {};
  }

  lemma SkippedOne(t: Store, rest: Applied, wanted: seq<Wanted>, fold: string -> string, now: string)
    requires wanted != [] && MarkOf(wanted[0], fold) in Marks(t, fold) && GoodOutcome(t, rest, wanted[1..], fold, now)
    ensures GoodOutcome(t, Applied(rest.store, rest.created, rest.skipped + 1), wanted, fold, now)
  {
    hide Consistent, Complete, Unchanged, OneEach, AsWanted, NewTemplates;
    SkippedAsWanted(t, rest.store, wanted, fold, now);
    assert Marks(t, fold) + {MarkOf(wanted[0], fold)} == Marks(t, fold);
    JoinMarks(Marks(t, fold), MarkOf(wanted[0], fold), WantedMarks(wanted[1..], fold));
  }

  lemma {:induction false} LoopOutcome(t: Store, wanted: seq<Wanted>, fold: string -> string, ids: seq<Id>, now: string,
                                       scan: seq<Id>)
    requires Consistent(t) && ScanOf(scan, t, CharacterTable)
    requires FreshAlong(t, Marks(t, fold), wanted, fold, ids, now, scan)
    ensures GoodOutcome(t, Loop(t, Marks(t, fold), wanted, fold, ids, now, scan), wanted, fold, now)
    decreases wanted, 1
  {
    hide Consistent, Complete, Unchanged, OneEach, GoodOutcome, Fresh, ScanOf, CreateWanted, OneNew;
    if wanted == [] {
      NoneWanted(t, fold, now);
    } else {
      var w := wanted[0];
      if MarkOf(w, fold) in Marks(t, fold) {
        LoopOutcome(t, wanted[1..], fold, ids, now, scan);
        SkippedOne(t, Loop(t, Marks(t, fold), wanted[1..], fold, ids, now, scan), wanted, fold, now);
      } else {
        CreatedWanted(t, w, FirstId(ids), now, scan, fold);
        CreatedAsWanted(t, w, FirstId(ids), now, scan);
        if OneEach(t, fold) { CreatedOnce(t, w, FirstId(ids), now, scan, fold); }
        AfterCreation(t, CreateWanted(t, w, FirstId(ids), now, scan).store, wanted, fold, RestIds(ids), now, scan);
      }
    }
  }

  lemma {:induction false} AfterCreation(t: Store, t': Store, wanted: seq<Wanted>, fold: string -> string, ids: seq<Id>,
                                         now: string, scan: seq<Id>)
    requires wanted != [] && Consistent(t') && (Complete(t) ==> Complete(t')) && Unchanged(t, t')
    requires ScanOf(scan, t', CharacterTable)
    requires Marks(t', fold) == Marks(t, fold) + {MarkOf(wanted[0], fold)} && (OneEach(t, fold) ==> OneEach(t', fold))
    requires FreshAlong(t', Marks(t', fold), wanted[1..], fold, ids, now, scan)
    requires MarkOf(wanted[0], fold) !in Marks(t, fold) && OneNew(t, t', wanted[0], now)
    ensures var rest := Loop(t', Marks(t', fold), wanted[1..], fold, ids, now, scan);
            GoodOutcome(t, Applied(rest.store, rest.created + 1, rest.skipped), wanted, fold, now)
    decreases wanted, 0
  {
    hide Consistent, Complete, Unchanged, OneEach, GoodOutcome, OneNew, Marks;
    LoopOutcome(t', wanted[1..], fold, ids, now, scan);
    LiftOutcome(t, t', Loop(t', Marks(t', fold), wanted[1..], fold, ids, now, scan), wanted, fold, now);
  }

  lemma LiftOutcome(t: Store, t': Store, rest: Applied, wanted: seq<Wanted>, fold: string -> string, now: string)
    requires wanted != [] && (Complete(t) ==> Complete(t')) && Unchanged(t, t')
    requires Marks(t', fold) == Marks(t, fold) + {MarkOf(wanted[0], fold)} && (OneEach(t, fold) ==> OneEach(t', fold))
    requires MarkOf(wanted[0], fold) !in Marks(t, fold) && OneNew(t, t', wanted[0], now)
    requires GoodOutcome(t', rest, wanted[1..], fold, now)
    ensures GoodOutcome(t, Applied(rest.store, rest.created + 1, rest.skipped), wanted, fold, now)
  {
    hide Consistent, Complete, OneEach, AsWanted, NewTemplates, OneNew, Marks;
    JoinAsWanted(t, t', rest.store, wanted, fold, now);
    UnchangedTransitive(t, t', rest.store);
    JoinMarks(Marks(t, fold), MarkOf(wanted[0], fold), WantedMarks(wanted[1..], fold));
  }

  lemma UnchangedTransitive(a: Store, b: Store, c: Store)
    requires Unchanged(a, b) && Unchanged(b, c)
    ensures Unchanged(a, c)
  {
  }

  lemma JoinMarks(a: set<Mark>, m: Mark, b: set<Mark>)
    ensures a + {m} + b == a + ({m} + b)
  {
  }

  lemma {:induction false} NothingNew(t: Store, marks: set<Mark>, wanted: seq<Wanted>, fold: string -> string,
                                      ids: seq<Id>, now: string, scan: seq<Id>)
    requires WantedMarks(wanted, fold) <= marks
    ensures Loop(t, marks, wanted, fold, ids, now, scan) == Applied(t, 0, |wanted|)
    decreases wanted
  {
    if wanted != [] {
      NothingNew(t, marks, wanted[1..], fold, ids, now, scan);
    }
  }

  // Merging a preset a second time creates nothing and changes nothing.
  lemma MergeTwice(t: Store, wanted: seq<Wanted>, fold: string -> string, ids: seq<Id>, now: string, scan: seq<Id>,
                   ids': seq<Id>, now': string, scan': seq<Id>)
    requires Consistent(t) && ScanOf(scan, t, CharacterTable)
    requires FreshAlong(t, Marks(t, fold), wanted, fold, ids, now, scan)
    ensures var once := Apply(t, Merge, wanted, fold, ids, now, scan).store;
            Apply(once, Merge, wanted, fold, ids', now', scan') == Applied(once, 0, |wanted|)
  {
    LoopOutcome(t, wanted, fold, ids, now, scan);
    var once := Apply(t, Merge, wanted, fold, ids, now, scan).store;
    NothingNew(once, Marks(once, fold), wanted, fold, ids', now', scan');
  }

  // Replacing leaves exactly the wanted templates, each folded title once.
  lemma ReplaceLeavesWanted(t: Store, wanted: seq<Wanted>, fold: string -> string, ids: seq<Id>, now: string,
                            scan: seq<Id>)
    requires Consistent(t) && ScanOf(scan, Cleared(t, Replace), CharacterTable)
    requires FreshAlong(Cleared(t, Replace), Marks(Cleared(t, Replace), fold), wanted, fold, ids, now, scan)
    ensures var a := Apply(t, Replace, wanted, fold, ids, now, scan);
            && Consistent(a.store) && (Complete(t) ==> Complete(a.store))
            && Marks(a.store, fold) == WantedMarks(wanted, fold) && OneEach(a.store, fold)
            && AsWanted(Cleared(t, Replace), a.store, wanted, fold, now)
            && forall k :: k in a.store && a.store[k].Template? ==> k in NewTemplates(Cleared(t, Replace), a.store)
  {
    hide Delete, Loop, Marks, WantedMarks, Integrity, OneEach, AsWanted, Cleared, NewTemplates, Unchanged;
    ClearedKeeps(t, fold);
    LoopOutcome(Cleared(t, Replace), wanted, fold, ids, now, scan);
    AllAreNew(Cleared(t, Replace), Apply(t, Replace, wanted, fold, ids, now, scan).store, fold);
  }

  lemma AllAreNew(t: Store, t': Store, fold: string -> string)
    requires Marks(t, fold) == {} && Unchanged(t, t')
    ensures forall k :: k in t' && t'[k].Template? ==> k in NewTemplates(t, t')
  {
    forall k | k in t && t[k].Template? ensures (t[k].kind, fold(t[k].title)) in Marks(t, fold) {}
  }

  lemma ClearedIsConsistent(t: Store)
    requires Consistent(t)
    ensures Consistent(Cleared(t, Replace)) && (Complete(t) ==> Complete(Cleared(t, Replace)))
  {
    hide Consistent, Complete, Delete;
    ExecKeepsConsistent(t, DeleteAll(TemplateTable));
    if Complete(t) {
      ConsistentIntegrity(t);
      ExecKeepsComplete(t, DeleteAll(TemplateTable));
    }
  }

  lemma ConsistentIntegrity(t: Store)
    requires Consistent(t)
    ensures Integrity(t)
  {
  }

  lemma ClearedMarks(t: Store, fold: string -> string)
    requires Keyed(Cleared(t, Replace))
    ensures Marks(Cleared(t, Replace), fold) == {} && OneEach(Cleared(t, Replace), fold)
  {
    hide Cleared;
    NoTemplates(t);
  }

  lemma NoTemplates(t: Store)
    requires Keyed(Cleared(t, Replace))
    ensures forall k :: k in Cleared(t, Replace) ==> !Cleared(t, Replace)[k].Template?
  {
    hide ClearSoft, CascadeOf, Children, Parents, SoftParents;
    var t' := Cleared(t, Replace);
    forall k | k in t' ensures !t'[k].Template? {
      assert KeyOf(t'[k]) == k && k !in KeysIn(t, TemplateTable);
    }
  }

  lemma ClearedKeeps(t: Store, fold: string -> string)
    requires Consistent(t)
    ensures Consistent(Cleared(t, Replace)) && (Complete(t) ==> Complete(Cleared(t, Replace)))
    ensures Marks(Cleared(t, Replace), fold) == {} && OneEach(Cleared(t, Replace), fold)
  {
    hide AllNormal, Cleared, Marks, Complete, OneEach;
    ClearedIsConsistent(t);
    ClearedMarks(t, fold);
  }
}
