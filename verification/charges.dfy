// Charges: a log of uses, counted in a sliding window of the recharge time.
module Charges {
  import opened Wrappers
  import opened Schema
  import opened Loading
  import opened Operations

  // The uses of one character and template, by row, as instants in milliseconds.
  type Log = map<Key, int>

  // WHERE used_at > $cutoff
  function Used(log: Log, cutoff: int): set<Key> {
    set k | k in log && log[k] > cutoff
  }

  function At(log: Log, u: int): set<Key> {
    set k | k in log && log[k] == u
  }

  // The uses in (from, upto].
  function Between(log: Log, from: int, upto: int): set<Key> {
    set k | k in log && from < log[k] <= upto
  }

  // The window is the recharge time in milliseconds.
  datatype Rule = Rule(window: int, stacks: real)

  function Available(used: int, stacks: real): real {
    if stacks - used as real < 0.0 then 0.0 else stacks - used as real
  }

  // Those the overview counts at a time.
  function Counted(log: Log, window: int, now: int): set<Key> {
    Used(log, now - window)
  }

  // Those in the half-open interval of the window's length after a time.
  function Sliding(log: Log, window: int, from: int): set<Key> {
    Between(log, from, from + window)
  }

  // ids lists a set once each.
  ghost predicate ListsKeys(ids: seq<Key>, all: set<Key>) {
    (forall i, j :: 0 <= i < j < |ids| ==> ids[i] != ids[j]) && forall k :: k in ids <==> k in all
  }

  lemma {:induction false} ListedCount(ids: seq<Key>, all: set<Key>)
    requires ListsKeys(ids, all)
    ensures |ids| == |all|
    decreases ids
  {
    if ids == [] {
      assert all == {};
    } else {
      assert ids[0] in ids;
      forall k ensures k in ids[1..] <==> k in all - {ids[0]} {
        if k in ids[1..] {
          var i :| 0 <= i < |ids[1..]| && ids[1..][i] == k;
          assert ids[i + 1] == k;
        }
      }
      ListedCount(ids[1..], all - {ids[0]});
    }
  }

  lemma SmallerSet(a: set<Key>, b: set<Key>)
    requires a <= b
    ensures |a| <= |b| && (a != b ==> |a| < |b|)
  {
    assert b == a + (b - a);
    if a != b { assert b - a != {}; }
  }

  // Uses in the order of their times.
  ghost predicate InUseOrder(ids: seq<Key>, log: Log) {
    forall i, j :: 0 <= i < j < |ids| ==> ids[i] in log && ids[j] in log && log[ids[i]] <= log[ids[j]]
  }

  // The charge part of the overview, from the rows of the query in order of time.
  // The next recharge is when the count falls: until then it stays, then it drops.
  method ReadCharge(ids: seq<Key>, log: Log, rule: Rule, now: int)
    returns (used: nat, available: real, next: Option<int>)
    requires ListsKeys(ids, Counted(log, rule.window, now))
    requires InUseOrder(ids, log)
    ensures used == |Counted(log, rule.window, now)| && available == Available(used, rule.stacks)
    ensures next.None? <==> used == 0 || rule.stacks <= 0.0
    ensures next.Some? ==> next.value > now && |Counted(log, rule.window, next.value)| < used
    ensures next.Some? ==> forall s :: now <= s < next.value ==> |Counted(log, rule.window, s)| == used
  {
    ListedCount(ids, Counted(log, rule.window, now));
    used := |ids|;
    available := Available(used, rule.stacks);
    if available >= rule.stacks || used == 0 {
      next := None;
    } else {
      var first := ids[0];
      assert first in ids;
      next := Some(log[first] + rule.window);
      WindowDrops(log, rule.window, now, first, ids);
    }
  }

  lemma WindowDrops(log: Log, window: int, now: int, first: Key, ids: seq<Key>)
    requires ListsKeys(ids, Counted(log, window, now)) && ids != [] && first == ids[0]
    requires InUseOrder(ids, log)
    ensures first in log && log[first] + window > now
    ensures |Used(log, log[first])| < |Counted(log, window, now)|
    ensures forall s :: now <= s < log[first] + window ==> Counted(log, window, s) == Counted(log, window, now)
  {
    var inWindow := Counted(log, window, now);
    assert first in ids;
    forall k | k in inWindow ensures log[k] >= log[first] {
      assert k in ids;
      var i :| 0 <= i < |ids| && ids[i] == k;
      if i > 0 { assert log[ids[0]] <= log[ids[i]]; }
    }
    assert first !in Used(log, log[first]) && Used(log, log[first]) <= inWindow;
    SmallerSet(Used(log, log[first]), inWindow);
  }

  // ----------------------------------------------------------- uses and undos

  // SELECT id ... ORDER BY used_at DESC LIMIT 1, ties in any order
  ghost predicate Latest(log: Log, k: Key) {
    k in log && forall j :: j in log ==> log[j] <= log[k]
  }

  // Every half-open interval as long as the window holds at most the stacks,
  // rounded up.
  ghost predicate RateBound(log: Log, rule: Rule) {
    forall from: int :: Few(Sliding(log, rule.window, from), rule.stacks)
  }

  predicate Few(keys: set<Key>, stacks: real) {
    keys == {} || |keys| as real < stacks + 1.0
  }

  lemma UseKeepsBound(log: Log, rule: Rule, k: Key, at: int)
    requires RateBound(log, rule) && k !in log
    requires Available(|Counted(log, rule.window, at)|, rule.stacks) > 0.0
    ensures RateBound(log[k := at], rule)
  {
    var log' := log[k := at];
    forall from
      ensures Few(Sliding(log', rule.window, from), rule.stacks)
    {
      var b, b' := Sliding(log, rule.window, from), Sliding(log', rule.window, from);
      if from < at <= from + rule.window {
        assert b' == b + {k};
        assert b <= Counted(log, rule.window, at);
        SmallerSet(b, Counted(log, rule.window, at));
      } else {
        assert b' == b;
      }
    }
  }

  lemma EmptyLog(rule: Rule, now: int)
    ensures Kept(map[], rule, now)
  {
    forall from ensures Few(Sliding(map[], rule.window, from), rule.stacks) {
      assert Sliding(map[], rule.window, from) == {};
    }
  }

  lemma UndoKeepsBound(log: Log, rule: Rule, k: Key)
    requires RateBound(log, rule)
    ensures RateBound(log - {k}, rule)
  {
    forall from
      ensures Few(Sliding(log - {k}, rule.window, from), rule.stacks)
    {
      SmallerSet(Sliding(log - {k}, rule.window, from), Sliding(log, rule.window, from));
    }
  }

  // The bound holds and no use lies after the clock.
  ghost predicate Kept(log: Log, rule: Rule, now: int) {
    RateBound(log, rule) && forall k :: k in log ==> log[k] <= now
  }

  // What is shown as used and as available add up to the stacks.
  predicate AddsUp(used: nat, stacks: real) {
    Available(used, stacks) + used as real == stacks
  }

  // With no use in the future, what is shown as used is less than one more than
  // the stacks; it adds up with the available exactly when it is not more than
  // the stacks, as it is for every whole number of them that is not negative.
  lemma ShownAddUp(log: Log, rule: Rule, now: int)
    requires Kept(log, rule, now)
    ensures var used := |Counted(log, rule.window, now)|;
            && (used == 0 || used as real < rule.stacks + 1.0)
            && (AddsUp(used, rule.stacks) <==> used as real <= rule.stacks)
            && (rule.stacks >= 0.0 && rule.stacks == rule.stacks.Floor as real ==> AddsUp(used, rule.stacks))
  {
    var used := Counted(log, rule.window, now);
    assert used == Sliding(log, rule.window, now - rule.window);
    assert Few(used, rule.stacks);
    if rule.stacks >= 0.0 && rule.stacks == rule.stacks.Floor as real {
      WholeStacks(|used|, rule.stacks.Floor);
    }
  }

  lemma WholeStacks(n: nat, stacks: nat)
    requires n == 0 || n as real < stacks as real + 1.0
    ensures n as real <= stacks as real
  {
    assert n <= stacks;
  }

  // The same times, each as often.
  ghost predicate SameTimes(a: Log, b: Log) {
    forall u: int :: |At(a, u)| == |At(b, u)|
  }

  lemma LatestUndone(log: Log, k: Key, at: int, undone: Key)
    requires k !in log && Latest(log[k := at], undone) && forall j :: j in log ==> log[j] <= at
    ensures SameTimes(log[k := at] - {undone}, log)
  {
    var log' := log[k := at];
    var back := log' - {undone};
    assert log'[k] == at && log'[undone] == at;
    forall u: int ensures |At(back, u)| == |At(log, u)| {
      if u == at {
        assert At(log', at) == At(log, at) + {k};
        assert At(back, at) == At(log', at) - {undone};
      } else {
        assert At(back, u) == At(log, u);
      }
    }
  }

  lemma LaterUndone(log: Log, k: Key, at: int, undone: Key, j: Key)
    requires k !in log && Latest(log[k := at], undone) && j in log && log[j] > at
    ensures !SameTimes(log[k := at] - {undone}, log)
  {
    var log' := log[k := at];
    var back := log' - {undone};
    assert log'[j] == log[j] && log'[undone] >= log[j];
    assert At(back, at) == At(log, at) + {k};
    assert |At(back, at)| == |At(log, at)| + 1;
  }

  // A use followed by an undo, which may take another row of the same time,
  // restores the times exactly when the use is not earlier than any other.
  lemma UseThenUndo(log: Log, k: Key, at: int, undone: Key)
    requires k !in log && Latest(log[k := at], undone)
    ensures SameTimes(log[k := at] - {undone}, log) <==> forall j :: j in log ==> log[j] <= at
  {
    hide SameTimes, Latest;
    if j :| j in log && log[j] > at {
      LaterUndone(log, k, at, undone, j);
    } else {
      LatestUndone(log, k, at, undone);
    }
  }

  // ------------------------------------------------------------- in the store

  // instant reads an ISO string.
  function LogOf(t: Store, c: Id, x: Id, instant: string -> int): Log {
    map k | k in t && t[k].ChargeUse? && t[k].characterId == c && t[k].templateId == x :: instant(t[k].usedAt)
  }

  function UseKey(id: Id): Key { Key(ChargeUseTable, id) }

  datatype Event =
    | Use(id: Id, owner: Id, template: Id, at: int)
    | Undo(id: Id, owner: Id, template: Id, at: int)

  function AfterEvent(t: Store, e: Event, iso: int -> string): Store {
    match e
    case Use(id, c, x, at) => RunAll(t, SimpleStmts(t, UseCharge(id, c, x, iso(at)))).store
    case Undo(id, _, _, _) => RunAll(t, SimpleStmts(t, UndoCharge(id))).store
  }

  function AfterEvents(t: Store, es: seq<Event>, iso: int -> string): Store
    decreases es
  {
    if es == [] then t else AfterEvent(AfterEvents(t, es[..|es| - 1], iso), es[|es| - 1], iso)
  }

  // A use is made with a new id and only while the overview shows something
  // available; an undo takes the latest use of its own character and template.
  ghost predicate Allowed(t: Store, e: Event, rules: Id -> Rule, instant: string -> int) {
    var log := LogOf(t, e.owner, e.template, instant);
    match e
    case Use(id, c, x, at) =>
      id != "" && UseKey(id) !in t && Available(|Counted(log, rules(x).window, at)|, rules(x).stacks) > 0.0
    case Undo(id, _, _, _) => id != "" && Latest(log, UseKey(id))
  }

  // A run under a clock that does not go back.
  ghost predicate Proper(t: Store, es: seq<Event>, rules: Id -> Rule, instant: string -> int, iso: int -> string)
    decreases es
  {
    es == [] ||
    (var init, e := es[..|es| - 1], es[|es| - 1];
     && Proper(t, init, rules, instant, iso)
     && Allowed(AfterEvents(t, init, iso), e, rules, instant)
     && (init != [] ==> init[|init| - 1].at <= e.at))
  }

  lemma UseInserts(t: Store, id: Id, c: Id, x: Id, at: string)
    requires Keyed(t) && UseKey(id) !in t
    ensures RunAll(t, SimpleStmts(t, UseCharge(id, c, x, at))).store ==
            if CharacterKey(c) in t && TemplateKey(x) in t then Put(t, ChargeUse(id, c, x, at)) else t
  {
    var row := ChargeUse(id, c, x, at);
    assert SimpleStmts(t, UseCharge(id, c, x, at)) == [Insert(row)];
    assert Clashing(t, row) == {} by {
      forall k | k in t ensures !Clash(t[k], row) { assert KeyOf(t[k]) == k; }
    }
    assert Refs(row) == {CharacterKey(c), TemplateKey(x)};
  }

  lemma UndoDeletes(t: Store, id: Id)
    requires Keyed(t) && id != ""
    ensures RunAll(t, SimpleStmts(t, UndoCharge(id))).store == t - {UseKey(id)}
  {
    var gone := {UseKey(id)} * t.Keys;
    assert SimpleStmts(t, UndoCharge(id)) == [DeleteRows({UseKey(id)})];
    forall k | k in t ensures Parents(t[k]) !! gone && SoftParents(t[k]) !! gone {}
    assert Children(t, gone) == {};
    assert t - gone == t - {UseKey(id)};
  }

  // What an event does to the log of one character and template.
  lemma EventLogged(t: Store, e: Event, rules: Id -> Rule, instant: string -> int, iso: int -> string, c: Id, x: Id)
    requires Keyed(t) && Allowed(t, e, rules, instant) && forall u :: instant(iso(u)) == u
    ensures Keyed(AfterEvent(t, e, iso))
    ensures var log, log' := LogOf(t, c, x, instant), LogOf(AfterEvent(t, e, iso), c, x, instant);
            || log' == log
            || (e.owner == c && e.template == x
                && log' == if e.Use? then log[UseKey(e.id) := e.at] else log - {UseKey(e.id)})
  {
    hide SimpleStmts, RunAll, LogOf;
    match e
    case Use(id, owner, template, at) => UseLogged(t, id, owner, template, at, instant, iso, c, x);
    case Undo(id, owner, template, _) => UndoLogged(t, id, owner, template, instant, c, x);
  }

  lemma UseLogged(t: Store, id: Id, owner: Id, template: Id, at: int, instant: string -> int, iso: int -> string, c: Id,
                  x: Id)
    requires Keyed(t) && UseKey(id) !in t && instant(iso(at)) == at
    ensures var t' := RunAll(t, SimpleStmts(t, UseCharge(id, owner, template, iso(at)))).store;
            var log, log' := LogOf(t, c, x, instant), LogOf(t', c, x, instant);
            Keyed(t') && (log' == log || (owner == c && template == x && log' == log[UseKey(id) := at]))
  {
    hide SimpleStmts, RunAll;
    UseInserts(t, id, owner, template, iso(at));
    LogAfterPut(t, ChargeUse(id, owner, template, iso(at)), c, x, instant);
  }

  lemma UndoLogged(t: Store, id: Id, owner: Id, template: Id, instant: string -> int, c: Id, x: Id)
    requires Keyed(t) && id != "" && UseKey(id) in LogOf(t, owner, template, instant)
    ensures var t' := RunAll(t, SimpleStmts(t, UndoCharge(id))).store;
            var log, log' := LogOf(t, c, x, instant), LogOf(t', c, x, instant);
            Keyed(t') && (log' == log || (owner == c && template == x && log' == log - {UseKey(id)}))
  {
    hide SimpleStmts, RunAll;
    var log := LogOf(t, c, x, instant);
    UndoDeletes(t, id);
    assert LogOf(t - {UseKey(id)}, c, x, instant) == log - {UseKey(id)};
    if owner != c || template != x {
      assert log - {UseKey(id)} == log;
    }
  }

  lemma LogAfterPut(t: Store, row: Row, c: Id, x: Id, instant: string -> int)
    requires Keyed(t) && row.ChargeUse? && KeyOf(row) !in t
    ensures Keyed(Put(t, row))
    ensures LogOf(Put(t, row), c, x, instant) ==
            if row.characterId == c && row.templateId == x
            then LogOf(t, c, x, instant)[KeyOf(row) := instant(row.usedAt)]
            else LogOf(t, c, x, instant)
  {
  }

  function ClockAfter(es: seq<Event>, start: int): int {
    if es == [] then start else es[|es| - 1].at
  }

  // From an empty log, whatever uses and undos follow: the rate bound holds, no
  // use lies after the clock, and available and used add up to the stacks.
  lemma {:induction false} ChargeRun(t: Store, es: seq<Event>, rules: Id -> Rule, instant: string -> int,
                                     iso: int -> string, c: Id, x: Id, start: int)
    requires Keyed(t) && (forall k :: k in t ==> !t[k].ChargeUse?) && Proper(t, es, rules, instant, iso)
    requires forall u :: instant(iso(u)) == u
    ensures var log := LogOf(AfterEvents(t, es, iso), c, x, instant);
            Keyed(AfterEvents(t, es, iso)) && Kept(log, rules(x), ClockAfter(es, start))
    decreases es
  {
    if es == [] {
      assert LogOf(t, c, x, instant) == map[];
      EmptyLog(rules(x), start);
    } else {
      var init, e := es[..|es| - 1], es[|es| - 1];
      ChargeRun(t, init, rules, instant, iso, c, x, e.at);
      var before := AfterEvents(t, init, iso);
      EventLogged(before, e, rules, instant, iso, c, x);
      EventKeepsBound(before, e, rules, instant, iso, c, x);
    }
  }

  lemma EventKeepsBound(t: Store, e: Event, rules: Id -> Rule, instant: string -> int, iso: int -> string, c: Id, x: Id)
    requires Keyed(t) && Allowed(t, e, rules, instant) && (forall u :: instant(iso(u)) == u)
    requires RateBound(LogOf(t, c, x, instant), rules(x))
    ensures RateBound(LogOf(AfterEvent(t, e, iso), c, x, instant), rules(x))
  {
    var log := LogOf(t, c, x, instant);
    EventLogged(t, e, rules, instant, iso, c, x);
    if e.owner == c && e.template == x {
      if e.Use? {
        UseKeepsBound(log, rules(x), UseKey(e.id), e.at);
      } else {
        UndoKeepsBound(log, rules(x), UseKey(e.id));
      }
    }
  }

  // At every moment from the last event on: what is shown as used, and when it
  // adds up with what is shown as available.
  lemma ShownAfterRun(t: Store, es: seq<Event>, rules: Id -> Rule, instant: string -> int, iso: int -> string, c: Id,
                      x: Id, now: int)
    requires Keyed(t) && (forall k :: k in t ==> !t[k].ChargeUse?) && Proper(t, es, rules, instant, iso)
    requires (forall u :: instant(iso(u)) == u) && ClockAfter(es, now) <= now
    ensures var used, stacks := |Counted(LogOf(AfterEvents(t, es, iso), c, x, instant), rules(x).window,
                                         now)|, rules(x).stacks;
            && (used == 0 || used as real < stacks + 1.0)
            && (AddsUp(used, stacks) <==> used as real <= stacks)
            && (stacks >= 0.0 && stacks == stacks.Floor as real ==> AddsUp(used, stacks))
  {
    ChargeRun(t, es, rules, instant, iso, c, x, now);
    ShownAddUp(LogOf(AfterEvents(t, es, iso), c, x, instant), rules(x), now);
  }

  // ------------------------------------------- when the numbers shown add up

  function UseId(n: nat): (id: Id)
    ensures |id| == n
  {
    if n == 0 then "" else UseId(n - 1) + "x"
  }

  // n uses at one instant.
  function Burst(n: nat, c: Id, x: Id, at: int): (es: seq<Event>)
    ensures |es| == n
  {
    if n == 0 then [] else Burst(n - 1, c, x, at) + [Use(UseId(n), c, x, at)]
  }

  // After n uses of a burst: they are the log, and longer ids are free.
  ghost predicate AfterBurst(t: Store, n: nat, c: Id, x: Id, at: int, instant: string -> int) {
    && Keyed(t) && CharacterKey(c) in t && TemplateKey(x) in t
    && (forall k :: k in t && t[k].ChargeUse? ==> |k.id| <= n)
    && (forall k :: k in LogOf(t, c, x, instant) ==> LogOf(t, c, x, instant)[k] == at)
    && |LogOf(t, c, x, instant).Keys| == n
  }

  lemma BurstCount(t: Store, n: nat, c: Id, x: Id, at: int, instant: string -> int, window: int)
    requires AfterBurst(t, n, c, x, at, instant) && window > 0
    ensures |Counted(LogOf(t, c, x, instant), window, at)| == n
  {
    assert Counted(LogOf(t, c, x, instant), window, at) == LogOf(t, c, x, instant).Keys;
  }

  lemma OneUseMore(t: Store, row: Row, n: nat, c: Id, x: Id, at: int, instant: string -> int)
    requires AfterBurst(t, n, c, x, at, instant) && row.ChargeUse? && row == ChargeUse(UseId(n + 1), c, x, row.usedAt)
    requires instant(row.usedAt) == at
    ensures KeyOf(row) !in t && AfterBurst(Put(t, row), n + 1, c, x, at, instant)
  {
    hide LogOf;
    var k, log := KeyOf(row), LogOf(t, c, x, instant);
    assert k in t ==> KeyOf(t[k]) == k;
    LoggedIsStored(t, c, x, instant, k);
    LogAfterPut(t, row, c, x, instant);
    assert log[k := at].Keys == log.Keys + {k};
  }

  lemma BurstStep(t: Store, n: nat, c: Id, x: Id, at: int, instant: string -> int, iso: int -> string)
    requires AfterBurst(t, n, c, x, at, instant) && instant(iso(at)) == at
    ensures UseKey(UseId(n + 1)) !in t
    ensures AfterBurst(AfterEvent(t, Use(UseId(n + 1), c, x, at), iso), n + 1, c, x, at, instant)
  {
    hide SimpleStmts, RunAll, LogOf;
    OneUseMore(t, ChargeUse(UseId(n + 1), c, x, iso(at)), n, c, x, at, instant);
    UseInserts(t, UseId(n + 1), c, x, iso(at));
  }

  lemma LoggedIsStored(t: Store, c: Id, x: Id, instant: string -> int, k: Key)
    ensures k in LogOf(t, c, x, instant) ==> k in t
  {
  }

  // As long as the overview shows something available the burst can go on.
  lemma {:induction false} BurstRuns(t: Store, n: nat, rules: Id -> Rule, instant: string -> int, iso: int -> string,
                                     c: Id, x: Id, at: int)
    requires AfterBurst(t, 0, c, x, at, instant) && rules(x).window > 0 && instant(iso(at)) == at
    requires n == 0 || (n - 1) as real < rules(x).stacks
    ensures Proper(t, Burst(n, c, x, at), rules, instant, iso)
    ensures AfterBurst(AfterEvents(t, Burst(n, c, x, at), iso), n, c, x, at, instant)
    decreases n
  {
    hide AfterBurst, AfterEvent, LogOf;
    if n > 0 {
      var init, e := Burst(n - 1, c, x, at), Use(UseId(n), c, x, at);
      var es := Burst(n, c, x, at);
      assert es[..|es| - 1] == init && es[|es| - 1] == e;
      BurstRuns(t, n - 1, rules, instant, iso, c, x, at);
      var t' := AfterEvents(t, init, iso);
      BurstCount(t', n - 1, c, x, at, instant, rules(x).window);
      BurstStep(t', n - 1, c, x, at, instant, iso);
      assert Allowed(t', e, rules, instant);
      BurstClock(n - 1, c, x, at);
    }
  }

  lemma BurstClock(n: nat, c: Id, x: Id, at: int)
    ensures Burst(n, c, x, at) != [] ==> Burst(n, c, x, at)[|Burst(n, c, x, at)| - 1].at == at
    ensures ClockAfter(Burst(n, c, x, at), at) == at
  {
  }

  // The numbers shown at a time, from the last event of a run on.
  ghost predicate ShownAt(t: Store, es: seq<Event>, rules: Id -> Rule, instant: string -> int, iso: int -> string,
                          c: Id, x: Id, now: int)
  {
    AddsUp(|Counted(LogOf(AfterEvents(t, es, iso), c, x, instant), rules(x).window, now)|, rules(x).stacks)
  }

  // At every moment from the last event on, whatever uses and undos there were,
  // available and used add up to the stacks.
  ghost predicate AlwaysAddsUp(t: Store, rules: Id -> Rule, instant: string -> int, iso: int -> string, c: Id, x: Id) {
    forall es, now ::
      Proper(t, es, rules, instant, iso) && ClockAfter(es, now) <= now ==>
        ShownAt(t, es, rules, instant, iso, c, x, now)
  }

  // What a template's stacks must be for that.
  predicate WholeRule(rule: Rule) {
    rule.stacks >= 0.0 && (rule.window > 0 ==> rule.stacks == rule.stacks.Floor as real)
  }

  // With any other stacks some run of uses is shown as more than they are: none
  // when they are negative, and else one more than their whole part.
  lemma OddStacksOverrun(t: Store, rules: Id -> Rule, instant: string -> int, iso: int -> string, c: Id, x: Id, at: int)
    requires Keyed(t) && (forall k :: k in t ==> !t[k].ChargeUse?) && CharacterKey(c) in t && TemplateKey(x) in t
    requires instant(iso(at)) == at && !WholeRule(rules(x))
    ensures var es := Burst(if rules(x).stacks < 0.0 then 0 else rules(x).stacks.Floor + 1, c, x, at);
            Proper(t, es, rules, instant, iso) && ClockAfter(es, at) <= at
            && !ShownAt(t, es, rules, instant, iso, c, x, at)
  {
    hide AfterBurst, Proper, AfterEvents;
    var stacks := rules(x).stacks;
    assert LogOf(t, c, x, instant) == map[];
    if stacks < 0.0 {
      NoEvents(t, rules, instant, iso);
    } else {
      var n := stacks.Floor + 1;
      assert AfterBurst(t, 0, c, x, at, instant) by { BeforeBurst(t, c, x, at, instant); }
      BurstRuns(t, n, rules, instant, iso, c, x, at);
      BurstCount(AfterEvents(t, Burst(n, c, x, at), iso), n, c, x, at, instant, rules(x).window);
      BurstClock(n, c, x, at);
    }
  }

  lemma BeforeBurst(t: Store, c: Id, x: Id, at: int, instant: string -> int)
    requires Keyed(t) && (forall k :: k in t ==> !t[k].ChargeUse?) && CharacterKey(c) in t && TemplateKey(x) in t
    ensures AfterBurst(t, 0, c, x, at, instant)
  {
    assert LogOf(t, c, x, instant) == map[];
  }

  lemma NoEvents(t: Store, rules: Id -> Rule, instant: string -> int, iso: int -> string)
    ensures Proper(t, [], rules, instant, iso) && AfterEvents(t, [], iso) == t
  {
  }

  // A window of no length counts no use that is not in the future.
  lemma NoWindow(log: Log, rule: Rule, now: int)
    requires Kept(log, rule, now) && rule.window <= 0
    ensures Counted(log, rule.window, now) == {}
  {
  }

  // Available and used add up after every run exactly when the stacks are a whole
  // number that is not negative, or the window has no length and the stacks are
  // not negative.
  lemma AddsUpIff(t: Store, rules: Id -> Rule, instant: string -> int, iso: int -> string, c: Id, x: Id)
    requires Keyed(t) && (forall k :: k in t ==> !t[k].ChargeUse?) && CharacterKey(c) in t && TemplateKey(x) in t
    requires forall u :: instant(iso(u)) == u
    ensures AlwaysAddsUp(t, rules, instant, iso, c, x) <==> WholeRule(rules(x))
  {
    hide Proper, AfterEvents, LogOf, Kept, ClockAfter, Burst;
    if WholeRule(rules(x)) {
      forall es, now | Proper(t, es, rules, instant, iso) && ClockAfter(es, now) <= now
        ensures ShownAt(t, es, rules, instant, iso, c, x, now)
      {
        WholeAddsUp(t, es, rules, instant, iso, c, x, now);
      }
    } else {
      OddStacksOverrun(t, rules, instant, iso, c, x, 0);
    }
  }

  lemma WholeAddsUp(t: Store, es: seq<Event>, rules: Id -> Rule, instant: string -> int, iso: int -> string, c: Id,
                    x: Id, now: int)
    requires Keyed(t) && (forall k :: k in t ==> !t[k].ChargeUse?) && Proper(t, es, rules, instant, iso)
    requires (forall u :: instant(iso(u)) == u) && ClockAfter(es, now) <= now && WholeRule(rules(x))
    ensures ShownAt(t, es, rules, instant, iso, c, x, now)
  {
    hide Proper, AfterEvents, LogOf, Counted;
    ShownAfterRun(t, es, rules, instant, iso, c, x, now);
    if rules(x).window <= 0 {
      ChargeRun(t, es, rules, instant, iso, c, x, now);
      KeptLater(LogOf(AfterEvents(t, es, iso), c, x, instant), rules(x), ClockAfter(es, now), now);
      NoWindow(LogOf(AfterEvents(t, es, iso), c, x, instant), rules(x), now);
    }
  }

  lemma KeptLater(log: Log, rule: Rule, u: int, now: int)
    requires Kept(log, rule, u) && u <= now
    ensures Kept(log, rule, now)
  {
  }
}
