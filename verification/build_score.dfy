// Build scores: the weighted sum, and what applying a preset does to it.
module BuildScores {
  import opened Wrappers
  import opened Schema

  type Values = map<string, real>

  // values[s.id] ?? 0
  function ValueOf(values: Values, id: string): real {
    if id in values then values[id] else 0.0
  }

  function Contribution(s: Stat, values: Values): real {
    if s.enabled then s.weight * ValueOf(values, s.id) else 0.0
  }

  function Score(stats: seq<Stat>, values: Values): real {
    if stats == [] then 0.0 else Contribution(stats[0], values) + Score(stats[1..], values)
  }

  method ComputeScore(stats: seq<Stat>, values: Values) returns (sum: real)
    ensures sum == Score(stats, values)
  {
    sum := 0.0;
    var i := 0;
    while i < |stats|
      invariant 0 <= i <= |stats| && Score(stats, values) == sum + Score(stats[i..], values)
    {
      assert stats[i..][1..] == stats[i + 1..];
      if stats[i].enabled {
        sum := sum + stats[i].weight * ValueOf(values, stats[i].id);
      }
      i := i + 1;
    }
  }

  // One more stat adds its weight times its value, nothing when it is disabled or
  // has no value.
  lemma ScoreAdds(s: Stat, stats: seq<Stat>, values: Values)
    ensures Score([], values) == 0.0
    ensures Score([s] + stats, values) - Score(stats, values) ==
            if s.enabled && s.id in values then s.weight * values[s.id] else 0.0
  {
    assert ([s] + stats)[1..] == stats;
  }

  lemma {:induction false} ScoreJoin(a: seq<Stat>, b: seq<Stat>, values: Values)
    ensures Score(a + b, values) == Score(a, values) + Score(b, values)
    decreases a
  {
    if a == [] {
      assert a + b == b;
    } else {
      assert (a + b)[1..] == a[1..] + b;
      ScoreJoin(a[1..], b, values);
    }
  }

  // ------------------------------------------------------- an insertion-ordered Map

  predicate Distinct(stats: seq<Stat>) {
    forall i, j :: 0 <= i < j < |stats| ==> stats[i].id != stats[j].id
  }

  // The place of an id, or |stats|.
  function Find(stats: seq<Stat>, id: string): (i: nat)
    ensures i <= |stats| && (i < |stats| ==> stats[i].id == id) && forall j :: 0 <= j < i ==> stats[j].id != id
  {
    if stats == [] then 0 else if stats[0].id == id then 0
    else
      var i := Find(stats[1..], id);
      assert forall j :: 0 < j <= i ==> stats[j] == stats[1..][j - 1];
      i + 1
  }

  function Get(stats: seq<Stat>, id: string): Option<Stat> {
    var i := Find(stats, id);
    if i < |stats| then Some(stats[i]) else None
  }

  // map.set(s.id, s): a key that is there keeps its place.
  function Set(stats: seq<Stat>, s: Stat): (r: seq<Stat>)
    ensures Distinct(stats) ==> Distinct(r)
  {
    var i := Find(stats, s.id);
    if i < |stats| then stats[i := s] else stats + [s]
  }

  lemma SetFinds(stats: seq<Stat>, s: Stat)
    ensures Get(Set(stats, s), s.id) == Some(s)
  {
    var i, r := Find(stats, s.id), Set(stats, s);
    assert r[i] == s && forall j :: 0 <= j < i ==> r[j] == stats[j];
    var k := Find(r, s.id);
    assert k == i;
  }

  lemma SetOthers(stats: seq<Stat>, s: Stat, id: string)
    requires id != s.id
    ensures Get(Set(stats, s), id) == Get(stats, id)
  {
    var i := Find(stats, id);
    var r := Set(stats, s);
    var k := Find(r, id);
    if i < |stats| {
      assert r[i] == stats[i];
      assert k == i;
    } else {
      assert forall j :: 0 <= j < |r| ==> r[j].id != id;
      assert k == |r|;
    }
  }

  // new Map(stats.map((s) => [s.id, s]))
  function ById(stats: seq<Stat>): (r: seq<Stat>)
    ensures Distinct(r)
  {
    if stats == [] then [] else Set(ById(stats[..|stats| - 1]), stats[|stats| - 1])
  }

  function Delete(stats: seq<Stat>, i: nat): seq<Stat>
    requires i < |stats|
  {
    stats[..i] + stats[i + 1..]
  }

  // -------------------------------------------------------------- user presets

  function Disabled(s: Stat): Stat { s.(enabled := false) }

  // The state's stats with those of the preset in place, each once, the others
  // disabled, and what is left of the preset at the end.
  function Filled(stats: seq<Stat>, rest: seq<Stat>): seq<Stat>
    decreases stats
  {
    if stats == [] then rest
    else
      var i := Find(rest, stats[0].id);
      if i < |rest| then [rest[i]] + Filled(stats[1..], Delete(rest, i))
      else [Disabled(stats[0])] + Filled(stats[1..], rest)
  }

  function ApplyUserPreset(stats: seq<Stat>, preset: seq<Stat>): seq<Stat> {
    Filled(stats, ById(preset))
  }

  method ApplyUserPresetInPlace(stats: seq<Stat>, preset: seq<Stat>) returns (next: seq<Stat>)
    ensures next == ApplyUserPreset(stats, preset)
  {
    hide ById;
    var presetById := ById(preset);
    next := [];
    var k := 0;
    assert stats[0..] == stats;
    while k < |stats|
      invariant 0 <= k <= |stats| && ApplyUserPreset(stats, preset) == next + Filled(stats[k..], presetById)
    {
      FilledStep(stats, k, presetById, next);
      var i := Find(presetById, stats[k].id);
      if i < |presetById| {
        next, presetById := next + [presetById[i]], Delete(presetById, i);
      } else {
        next := next + [Disabled(stats[k])];
      }
      k := k + 1;
    }
    next := next + presetById;
  }

  // What the head of the remaining stats is replaced by, and what is left of the preset.
  function Head(stats: seq<Stat>, k: nat, rest: seq<Stat>): (Stat, seq<Stat>)
    requires k < |stats|
  {
    var i := Find(rest, stats[k].id);
    if i < |rest| then (rest[i], Delete(rest, i)) else (Disabled(stats[k]), rest)
  }

  lemma FilledHead(stats: seq<Stat>, k: nat, rest: seq<Stat>)
    requires k < |stats|
    ensures var (head, left) := Head(stats, k, rest); Filled(stats[k..], rest) == [head] + Filled(stats[k + 1..], left)
  {
    hide Delete, Disabled;
    assert stats[k..][1..] == stats[k + 1..] && stats[k..][0] == stats[k];
  }

  lemma FilledStep(stats: seq<Stat>, k: nat, rest: seq<Stat>, next: seq<Stat>)
    requires k < |stats|
    ensures var (head, left) := Head(stats, k, rest);
            next + Filled(stats[k..], rest) == next + [head] + Filled(stats[k + 1..], left)
  {
    hide Filled, Head;
    FilledHead(stats, k, rest);
  }

  lemma ScoreWithout(stats: seq<Stat>, i: nat, values: Values)
    requires i < |stats|
    ensures Score(stats, values) == Contribution(stats[i], values) + Score(Delete(stats, i), values)
  {
    assert stats == stats[..i] + ([stats[i]] + stats[i + 1..]);
    ScoreJoin(stats[..i], [stats[i]] + stats[i + 1..], values);
    ScoreJoin(stats[..i], stats[i + 1..], values);
    assert ([stats[i]] + stats[i + 1..])[1..] == stats[i + 1..];
  }

  lemma {:induction false} FilledScore(stats: seq<Stat>, rest: seq<Stat>, values: Values)
    ensures Score(Filled(stats, rest), values) == Score(rest, values)
    decreases stats
  {
    if stats != [] {
      var i := Find(rest, stats[0].id);
      if i < |rest| {
        FilledScore(stats[1..], Delete(rest, i), values);
        ScoreWithout(rest, i, values);
        assert ([rest[i]] + Filled(stats[1..], Delete(rest, i)))[1..] == Filled(stats[1..], Delete(rest, i));
      } else {
        FilledScore(stats[1..], rest, values);
        assert ([Disabled(stats[0])] + Filled(stats[1..], rest))[1..] == Filled(stats[1..], rest);
      }
    }
  }

  // Whatever the state, even with repeated ids, the score after applying a preset
  // is the weighted sum over the preset's distinct stats.
  lemma ScoreIsThePresets(stats: seq<Stat>, preset: seq<Stat>, values: Values)
    ensures Score(ApplyUserPreset(stats, preset), values) == Score(ById(preset), values)
  {
    FilledScore(stats, ById(preset), values);
  }

  lemma DeleteKeepsDistinct(stats: seq<Stat>, i: nat)
    requires Distinct(stats) && i < |stats|
    ensures Distinct(Delete(stats, i)) && Get(Delete(stats, i), stats[i].id).None?
  {
    var r := Delete(stats, i);
    assert forall j :: 0 <= j < |r| ==> r[j] == stats[if j < i then j else j + 1];
  }

  lemma DeleteOthers(stats: seq<Stat>, i: nat, id: string)
    requires i < |stats| && Get(stats, id).None?
    ensures Get(Delete(stats, i), id).None?
  {
    var r := Delete(stats, i);
    assert forall j :: 0 <= j < |r| ==> r[j] == stats[if j < i then j else j + 1];
  }

  // The place of every stat of the state keeps its id. A stat the preset does not
  // name survives there disabled; what the preset adds comes after.
  lemma {:induction false} FilledPlaces(stats: seq<Stat>, rest: seq<Stat>, k: nat)
    requires Distinct(rest) && k < |stats|
    ensures |Filled(stats, rest)| >= |stats| && Filled(stats, rest)[k].id == stats[k].id
    ensures Get(rest, stats[k].id).None? ==> Filled(stats, rest)[k] == Disabled(stats[k])
    decreases stats
  {
    var i := Find(rest, stats[0].id);
    if i < |rest| {
      DeleteKeepsDistinct(rest, i);
      if Get(rest, stats[k].id).None? { DeleteOthers(rest, i, stats[k].id); }
      if k > 0 { FilledPlaces(stats[1..], Delete(rest, i), k - 1); } else { FilledLength(stats[1..], Delete(rest, i)); }
    } else {
      if k > 0 { FilledPlaces(stats[1..], rest, k - 1); } else { FilledLength(stats[1..], rest); }
    }
  }

  lemma {:induction false} FilledLength(stats: seq<Stat>, rest: seq<Stat>)
    ensures |Filled(stats, rest)| >= |stats|
    decreases stats
  {
    if stats != [] {
      var i := Find(rest, stats[0].id);
      if i < |rest| { FilledLength(stats[1..], Delete(rest, i)); } else { FilledLength(stats[1..], rest); }
    }
  }

  lemma OthersSurvive(stats: seq<Stat>, preset: seq<Stat>, k: nat)
    requires k < |stats|
    ensures var next := ApplyUserPreset(stats, preset);
            && k < |next| && next[k].id == stats[k].id
            && (Get(ById(preset), stats[k].id).None? ==> next[k] == Disabled(stats[k]))
  {
    FilledPlaces(stats, ById(preset), k);
  }

  lemma {:induction false} FilledWithItself(rest: seq<Stat>)
    requires Distinct(rest)
    ensures Filled(rest, rest) == rest
    decreases rest
  {
    if rest != [] {
      assert Find(rest, rest[0].id) == 0;
      assert Delete(rest, 0) == rest[1..];
      FilledWithItself(rest[1..]);
    }
  }

  lemma {:induction false} FilledTwice(stats: seq<Stat>, rest: seq<Stat>)
    requires Distinct(rest)
    ensures Filled(Filled(stats, rest), rest) == Filled(stats, rest)
    decreases stats
  {
    if stats == [] {
      FilledWithItself(rest);
    } else {
      var i := Find(rest, stats[0].id);
      var once := Filled(stats, rest);
      if i < |rest| {
        DeleteKeepsDistinct(rest, i);
        FilledTwice(stats[1..], Delete(rest, i));
        assert once[0] == rest[i] && once[1..] == Filled(stats[1..], Delete(rest, i));
      } else {
        FilledTwice(stats[1..], rest);
        assert once[0] == Disabled(stats[0]) && once[1..] == Filled(stats[1..], rest);
      }
    }
  }

  // Applying a preset twice is applying it once, also when ids are repeated.
  lemma ApplyTwice(stats: seq<Stat>, preset: seq<Stat>)
    ensures ApplyUserPreset(ApplyUserPreset(stats, preset), preset) == ApplyUserPreset(stats, preset)
  {
    FilledTwice(stats, ById(preset));
  }

  // ------------------------------------------------------------- class presets

  datatype ClassStat = ClassStat(id: string, enabled: bool, weight: real)

  // Label and unit come from the catalogue, then from the state, then from the id.
  function Merged(stats: seq<Stat>, p: ClassStat, catalog: map<string, (string, StatUnit)>): Stat {
    var existing := Get(stats, p.id);
    Stat(p.id,
         if p.id in catalog then catalog[p.id].0 else if existing.Some? then existing.value.caption else p.id,
         if p.id in catalog then catalog[p.id].1 else if existing.Some? then existing.value.unitOf else Flat,
         p.enabled, p.weight)
  }

  function Merge(stats: seq<Stat>, preset: seq<ClassStat>, catalog: map<string, (string, StatUnit)>): seq<Stat> {
    if preset == [] then stats
    else
      var init := Merge(stats, preset[..|preset| - 1], catalog);
      Set(init, Merged(init, preset[|preset| - 1], catalog))
  }

  method ApplyClassPreset(stats: seq<Stat>, preset: seq<ClassStat>, catalog: map<string, (string, StatUnit)>)
    returns (next: seq<Stat>)
    ensures next == Merge(ById(stats), preset, catalog)
  {
    hide Set, Merged;
    next := ById(stats);
    var k := 0;
    while k < |preset|
      invariant 0 <= k <= |preset| && next == Merge(ById(stats), preset[..k], catalog)
    {
      assert preset[..k + 1][..k] == preset[..k];
      next := Set(next, Merged(next, preset[k], catalog));
      k := k + 1;
    }
    assert preset[..|preset|] == preset;
  }

  // The last entry of the preset for an id.
  function LastOf(preset: seq<ClassStat>, id: string): Option<ClassStat> {
    if preset == [] then None
    else if preset[|preset| - 1].id == id then Some(preset[|preset| - 1])
    else LastOf(preset[..|preset| - 1], id)
  }

  // Ids stay distinct; a stat the preset names is switched and weighted as its
  // last entry says, any other stays as it was.
  lemma {:induction false} MergeResult(stats: seq<Stat>, preset: seq<ClassStat>,
                                       catalog: map<string, (string, StatUnit)>, id: string)
    requires Distinct(stats)
    ensures Distinct(Merge(stats, preset, catalog))
    ensures var after := Get(Merge(stats, preset, catalog), id);
            match LastOf(preset, id)
            case None => after == Get(stats, id)
            case Some(p) => after.Some? && after.value.enabled == p.enabled && after.value.weight == p.weight
    decreases preset
  {
    if preset != [] {
      var init, last := preset[..|preset| - 1], preset[|preset| - 1];
      MergeResult(stats, init, catalog, id);
      var before := Merge(stats, init, catalog);
      SetFinds(before, Merged(before, last, catalog));
      if last.id != id {
        SetOthers(before, Merged(before, last, catalog), id);
      }
    }
  }
}
