// Completion ticks: what a sequence of on and off toggles leaves in the database
// and what the overview shows of it at any later (or earlier) time.
module Completions {
  import opened Wrappers
  import opened Schema
  import opened Loading
  import opened Exporting
  import opened Operations
  import opened Calendar
  import opened Periods

  datatype Toggle = Toggle(id: Id, owner: Id, template: Id, weekly: bool, on: bool, at: int)

  // The reset settings, which stay fixed.
  datatype Settings = Settings(hhmm: string, day: int)

  function PeriodOf(s: Settings, weekly: bool, t: int): string {
    if weekly then WeeklyKey(t, s.hhmm, s.day) else DailyKey(t, s.hhmm)
  }

  // planner:toggleComplete; iso stands for toISOString.
  function ToggleStmts(t: Store, g: Toggle, s: Settings, iso: int -> string): seq<Stmt> {
    SimpleStmts(t, SetCompletion(g.id, g.owner, g.template, PeriodOf(s, g.weekly, g.at), g.on, iso(g.at)))
  }

  function AfterToggle(t: Store, g: Toggle, s: Settings, iso: int -> string): Store {
    RunAll(t, ToggleStmts(t, g, s, iso)).store
  }

  function AfterToggles(t: Store, gs: seq<Toggle>, s: Settings, iso: int -> string): Store
    decreases gs
  {
    if gs == [] then t else AfterToggle(AfterToggles(t, gs[..|gs| - 1], s, iso), gs[|gs| - 1], s, iso)
  }

  // The UUIDs drawn for the ticks are new when drawn.
  ghost predicate FreshIds(t: Store, gs: seq<Toggle>, s: Settings, iso: int -> string)
    decreases gs
  {
    gs == [] ||
    (FreshIds(t, gs[..|gs| - 1], s, iso)
     && Key(CompletionTable, gs[|gs| - 1].id) !in AfterToggles(t, gs[..|gs| - 1], s, iso))
  }

  predicate Ticked(t: Store, c: Id, x: Id, period: string) { TicksAt(t, c, x, period) != {} }

  // No reset of the kind falls between the two instants.
  ghost predicate SameWindow(s: Settings, weekly: bool, a: int, b: int) {
    forall r: int :: (a < r <= b || b < r <= a) ==>
      if weekly then !IsWeeklyReset(r, ParseHhmm(s.hhmm), ClampDay(s.day)) else !IsDailyReset(r, ParseHhmm(s.hhmm))
  }

  // What the last toggle of that kind, task and window said.
  ghost function LastToggle(gs: seq<Toggle>, c: Id, x: Id, s: Settings, weekly: bool, now: int): Option<bool>
    decreases gs
  {
    if gs == [] then None
    else
      var g := gs[|gs| - 1];
      if g.owner == c && g.template == x && g.weekly == weekly && SameWindow(s, weekly, g.at, now) then Some(g.on)
      else LastToggle(gs[..|gs| - 1], c, x, s, weekly, now)
  }

  // ------------------------------------------------------------- one toggle

  lemma WindowsAreKeys(s: Settings, weekly: bool, a: int, b: int)
    ensures PeriodOf(s, weekly, a) == PeriodOf(s, weekly, b) <==> SameWindow(s, weekly, a, b)
  {
    if a <= b {
      OrderedWindows(s, weekly, a, b);
    } else {
      OrderedWindows(s, weekly, b, a);
    }
  }

  lemma OrderedWindows(s: Settings, weekly: bool, a: int, b: int)
    requires a <= b
    ensures PeriodOf(s, weekly, a) == PeriodOf(s, weekly, b) <==> SameWindow(s, weekly, a, b)
  {
    if weekly {
      WeeklyKeysPartition(a, b, s.hhmm, s.day);
    } else {
      DailyKeysPartition(a, b, s.hhmm);
    }
  }

  lemma NothingRefersToTicks(t: Store, c: Id, x: Id, period: string)
    requires Keyed(t)
    ensures Delete(t, TicksAt(t, c, x, period)) == t - TicksAt(t, c, x, period)
  {
    var gone := TicksAt(t, c, x, period);
    forall k | k in gone ensures k.table == CompletionTable {
      assert KeyOf(t[k]) == k && t[k].Completion?;
    }
    forall k | k in t ensures Parents(t[k]) !! gone && SoftParents(t[k]) !! gone {}
    assert Children(t, gone) == {};
  }

  // Switching off takes away the ticks of that task and period only.
  lemma OffResult(t: Store, c: Id, x: Id, period: string, id: Id, at: string)
    requires Keyed(t)
    ensures RunAll(t, SimpleStmts(t, SetCompletion(id, c, x, period, false, at))) ==
            Progress(t - TicksAt(t, c, x, period), true)
  {
    var gone := TicksAt(t, c, x, period);
    assert SimpleStmts(t, SetCompletion(id, c, x, period, false, at)) == [DeleteRows(gone)];
    assert gone * t.Keys == gone;
    NothingRefersToTicks(t, c, x, period);
  }

  // Switching on adds one tick, unless there is one already or the task is gone.
  lemma OnResult(t: Store, c: Id, x: Id, period: string, id: Id, at: string)
    requires Keyed(t) && Key(CompletionTable, id) !in t
    ensures var row := Completion(id, c, x, period, at);
            RunAll(t, SimpleStmts(t, SetCompletion(id, c, x, period, true, at))).store ==
            if !Ticked(t, c, x, period) && CharacterKey(c) in t && TemplateKey(x) in t then Put(t, row) else t
  {
    hide Stable;
    var row := Completion(id, c, x, period, at);
    assert SimpleStmts(t, SetCompletion(id, c, x, period, true, at)) == [InsertOrIgnore(row)];
    forall k | k in t ensures Clash(t[k], row) <==> k in TicksAt(t, c, x, period) {
      assert KeyOf(t[k]) == k;
    }
    assert Clashing(t, row) == TicksAt(t, c, x, period);
    assert Refs(row) == {CharacterKey(c), TemplateKey(x)};
  }

  ghost predicate Stable(t: Store, c: Id, x: Id) {
    Keyed(t) && CharacterKey(c) in t && TemplateKey(x) in t
  }

  // One toggle sets the tick of its own task and period and leaves all others.
  lemma ToggleSets(t: Store, g: Toggle, s: Settings, iso: int -> string, c: Id, x: Id, period: string)
    requires Stable(t, c, x) && Key(CompletionTable, g.id) !in t
    ensures Stable(AfterToggle(t, g, s, iso), c, x)
    ensures Ticked(AfterToggle(t, g, s, iso), c, x, period) <==>
            if g.owner == c && g.template == x && PeriodOf(s, g.weekly, g.at) == period then g.on
            else Ticked(t, c, x, period)
  {
    TickSets(t, g, PeriodOf(s, g.weekly, g.at), iso(g.at), c, x, period);
  }

  lemma TickSets(t: Store, g: Toggle, own: string, at: string, c: Id, x: Id, period: string)
    requires Stable(t, c, x) && Key(CompletionTable, g.id) !in t
    ensures var t' := RunAll(t, SimpleStmts(t, SetCompletion(g.id, g.owner, g.template, own, g.on, at))).store;
            Stable(t', c, x) &&
            (Ticked(t', c, x, period) <==>
             if g.owner == c && g.template == x && own == period then g.on else Ticked(t, c, x, period))
  {
    if g.on {
      OnResult(t, g.owner, g.template, own, g.id, at);
      TickAdded(t, Completion(g.id, g.owner, g.template, own, at), c, x, period);
    } else {
      OffResult(t, g.owner, g.template, own, g.id, at);
      TicksRemoved(t, g.owner, g.template, own, c, x, period);
    }
  }

  lemma TickAdded(t: Store, row: Row, c: Id, x: Id, period: string)
    requires row.Completion? && Stable(t, c, x) && KeyOf(row) !in t
    ensures Stable(Put(t, row), c, x)
    ensures Ticked(Put(t, row), c, x, period) <==> Ticked(t, c, x, period) || UniqueOf(row) == TickOf(c, x, period)
  {
    var t' := Put(t, row);
    if Ticked(t, c, x, period) {
      var k :| k in TicksAt(t, c, x, period);
      assert k in TicksAt(t', c, x, period);
    }
    if UniqueOf(row) == TickOf(c, x, period) {
      assert KeyOf(row) in TicksAt(t', c, x, period);
    }
    if Ticked(t', c, x, period) {
      var k :| k in TicksAt(t', c, x, period);
      assert k == KeyOf(row) || k in TicksAt(t, c, x, period);
    }
  }

  lemma TicksRemoved(t: Store, owner: Id, template: Id, own: string, c: Id, x: Id, period: string)
    requires Stable(t, c, x)
    ensures Stable(t - TicksAt(t, owner, template, own), c, x)
    ensures Ticked(t - TicksAt(t, owner, template, own), c, x, period) <==>
            Ticked(t, c, x, period) && !(owner == c && template == x && own == period)
  {
    var gone := TicksAt(t, owner, template, own);
    var t' := t - gone;
    forall k | k in gone ensures k.table == CompletionTable {
      assert KeyOf(t[k]) == k && t[k].Completion?;
    }
    if owner == c && template == x && own == period {
      assert TicksAt(t', c, x, period) == {};
    } else {
      assert TicksAt(t', c, x, period) == TicksAt(t, c, x, period);
    }
  }

  // ---------------------------------------------------------- whole sequences

  lemma {:induction false} TogglesSet(t: Store, gs: seq<Toggle>, s: Settings, iso: int -> string, c: Id, x: Id,
                                      weekly: bool, now: int)
    requires Stable(t, c, x) && FreshIds(t, gs, s, iso)
    ensures Stable(AfterToggles(t, gs, s, iso), c, x)
    ensures Ticked(AfterToggles(t, gs, s, iso), c, x, PeriodOf(s, weekly, now)) ==
            LastToggle(gs, c, x, s, weekly, now).GetOr(Ticked(t, c, x, PeriodOf(s, weekly, now)))
    decreases gs
  {
    hide AfterToggle, PeriodOf, SameWindow, Ticked, Stable;
    if gs != [] {
      var init, g := gs[..|gs| - 1], gs[|gs| - 1];
      TogglesSet(t, init, s, iso, c, x, weekly, now);
      ToggleSets(AfterToggles(t, init, s, iso), g, s, iso, c, x, PeriodOf(s, weekly, now));
      ToggleCounts(s, g, weekly, now);
    }
  }

  // A toggle bears on the period of a time exactly when it is of that kind and
  // falls into that window: daily and weekly keys never meet.
  lemma ToggleCounts(s: Settings, g: Toggle, weekly: bool, now: int)
    ensures PeriodOf(s, g.weekly, g.at) == PeriodOf(s, weekly, now) <==>
            g.weekly == weekly && SameWindow(s, weekly, g.at, now)
  {
    if g.weekly == weekly {
      WindowsAreKeys(s, weekly, g.at, now);
    } else if weekly {
      KindsDiffer(g.at, now, s.hhmm, s.day);
    } else {
      KindsDiffer(now, g.at, s.hhmm, s.day);
    }
  }

  // -------------------------------------------------------------- the overview

  // SELECT template_id, period_key ... WHERE character_id = $c AND period_key IN
  // ($d, $w), folded into the two sets.
  method ReadDone(rows: seq<Row>, ghost t: Store, c: Id, dailyKey: string, weeklyKey: string)
    returns (doneDaily: set<Id>, doneWeekly: set<Id>)
    requires Lists(rows, t, CompletionTable) && Keyed(t)
    ensures forall x :: x in doneDaily <==> Ticked(t, c, x, dailyKey)
    ensures forall x :: x in doneWeekly <==> Ticked(t, c, x, weeklyKey)
  {
    doneDaily, doneWeekly := {}, {};
    var i := 0;
    while i < |rows|
      invariant 0 <= i <= |rows|
      invariant forall x :: x in doneDaily <==> exists j :: 0 <= j < i && UniqueOf(rows[j]) == TickOf(c, x, dailyKey)
      invariant forall x :: x in doneWeekly <==> exists j :: 0 <= j < i && UniqueOf(rows[j]) == TickOf(c, x, weeklyKey)
    {
      var r := rows[i];
      if r.Completion? && r.characterId == c {
        if r.periodKey == dailyKey {
          doneDaily := doneDaily + {r.templateId};
        }
        if r.periodKey == weeklyKey {
          doneWeekly := doneWeekly + {r.templateId};
        }
      }
      i := i + 1;
    }
    ListedTicks(rows, t, c, dailyKey);
    ListedTicks(rows, t, c, weeklyKey);
  }

  lemma ListedTicks(rows: seq<Row>, t: Store, c: Id, period: string)
    requires Lists(rows, t, CompletionTable) && Keyed(t)
    ensures forall x :: Ticked(t, c, x, period) <==>
            exists j :: 0 <= j < |rows| && UniqueOf(rows[j]) == TickOf(c, x, period)
  {
    forall x
      ensures Ticked(t, c, x, period) <==> exists j :: 0 <= j < |rows| && UniqueOf(rows[j]) == TickOf(c, x, period)
    {
      if Ticked(t, c, x, period) {
        var k :| k in TicksAt(t, c, x, period);
        assert KeyOf(t[k]) == k && t[k].Completion?;
        assert k in KeySet(rows);
        var j :| 0 <= j < |rows| && KeyOf(rows[j]) == k;
        assert rows[j] in rows && rows[j] == t[k];
      }
      if j :| 0 <= j < |rows| && UniqueOf(rows[j]) == TickOf(c, x, period) {
        assert rows[j] in rows;
        assert KeyOf(rows[j]) in TicksAt(t, c, x, period);
      }
    }
  }

  datatype ChecklistItem = ChecklistItem(template: Id, title: string, estimate: int, completed: bool)

  // The items of one kind among the joined rows, in their order, each with its tick.
  function Checklist(rows: seq<Row>, kind: TemplateKind, t: Store, c: Id, period: string): seq<ChecklistItem> {
    if rows == [] then []
    else
      var init, r := Checklist(rows[..|rows| - 1], kind, t, c, period), rows[|rows| - 1];
      if r.Template? && r.kind == kind
      then init + [ChecklistItem(r.id, r.title, r.estimate, Ticked(t, c, r.id, period))]
      else init
  }

  // The checklists of the overview; rows is the join of the character's enabled
  // assignments with their templates, ticks the completion table.
  method ReadChecklists(rows: seq<Row>, ticks: seq<Row>, ghost t: Store, c: Id, dailyKey: string, weeklyKey: string)
    returns (daily: seq<ChecklistItem>, weekly: seq<ChecklistItem>)
    requires Lists(ticks, t, CompletionTable) && Keyed(t)
    ensures daily == Checklist(rows, DAILY, t, c, dailyKey)
    ensures weekly == Checklist(rows, WEEKLY, t, c, weeklyKey)
  {
    var doneDaily, doneWeekly := ReadDone(ticks, t, c, dailyKey, weeklyKey);
    daily, weekly := [], [];
    var i := 0;
    while i < |rows|
      invariant 0 <= i <= |rows|
      invariant daily == Checklist(rows[..i], DAILY, t, c, dailyKey)
      invariant weekly == Checklist(rows[..i], WEEKLY, t, c, weeklyKey)
    {
      var r := rows[i];
      assert rows[..i + 1][..i] == rows[..i] && rows[..i + 1][i] == r;
      if r.Template? {
        if r.kind == DAILY {
          daily := daily + [ChecklistItem(r.id, r.title, r.estimate, r.id in doneDaily)];
        } else if r.kind == WEEKLY {
          weekly := weekly + [ChecklistItem(r.id, r.title, r.estimate, r.id in doneWeekly)];
        }
      }
      i := i + 1;
    }
    assert rows[..|rows|] == rows;
  }

  // The overview shows a task completed at a time exactly when the last toggle of
  // its kind in the reset window of that time was "on", whatever toggles of other
  // kinds, tasks and characters came between; without one, what was there stays.
  lemma OverviewShowsLastToggle(t: Store, gs: seq<Toggle>, s: Settings, iso: int -> string, c: Id, x: Id, weekly: bool,
                                now: int)
    requires Stable(t, c, x) && FreshIds(t, gs, s, iso) && forall k :: k in t ==> !t[k].Completion?
    ensures Ticked(AfterToggles(t, gs, s, iso), c, x, PeriodOf(s, weekly, now)) <==>
            LastToggle(gs, c, x, s, weekly, now) == Some(true)
  {
    hide AfterToggles, PeriodOf, LastToggle;
    TogglesSet(t, gs, s, iso, c, x, weekly, now);
    assert TicksAt(t, c, x, PeriodOf(s, weekly, now)) == {};
  }
}
