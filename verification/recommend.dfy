// Which tasks to do in the time at hand: the desktop and the web recommenders.
module Recommend {
  import opened Wrappers
  import opened Greedy

  type Id = string

  datatype Source = Average | Estimate

  datatype Task = Task(template: Id, estimate: real)

  datatype Pick = Pick(template: Id, minutes: int, source: Source)

  // Math.min(240, Math.max(1, Math.round(x)))
  function ClampMinutes(x: real): (m: int)
    ensures 1 <= m <= 240
    ensures 1.0 <= x <= 240.0 ==> m as real - 0.5 <= x < m as real + 0.5
    ensures (x < 1.0 ==> m == 1) && (x > 240.0 ==> m == 240)
  {
    var m := (x + 0.5).Floor;
    if m < 1 then 1 else if m > 240 then 240 else m
  }

  // The measured average when there is one, otherwise the estimate, five minutes
  // by default.
  function CandidateOf(task: Task, averages: map<Id, real>): (p: Pick)
    ensures p.template == task.template && 1 <= p.minutes <= 240
    ensures p.source == Average <==> task.template in averages && averages[task.template] > 0.0
    ensures p.source == Average && 60.0 <= averages[task.template] <= 14400.0 ==>
              p.minutes as real * 60.0 - 30.0 <= averages[task.template] < p.minutes as real * 60.0 + 30.0
    ensures p.source == Average && averages[task.template] < 60.0 ==> p.minutes == 1
    ensures p.source == Average && averages[task.template] > 14400.0 ==> p.minutes == 240
    ensures p.source == Estimate && task.estimate <= 0.0 ==> p.minutes == 5
    ensures p.source == Estimate && 0.0 < task.estimate < 1.0 ==> p.minutes == 1
    ensures p.source == Estimate && task.estimate > 240.0 ==> p.minutes == 240
    ensures p.source == Estimate && 1.0 <= task.estimate <= 240.0 ==>
              p.minutes as real - 0.5 <= task.estimate < p.minutes as real + 0.5
  {
    if task.template in averages && averages[task.template] > 0.0
    then Pick(task.template, ClampMinutes(averages[task.template] / 60.0), Average)
    else Pick(task.template, ClampMinutes(if task.estimate <= 0.0 then 5.0 else task.estimate), Estimate)
  }

  function CandidatesOf(tasks: seq<Task>, averages: map<Id, real>): (picks: seq<Pick>)
    ensures |picks| == |tasks| && forall i :: 0 <= i < |tasks| ==> picks[i].template == tasks[i].template
  {
    seq(|tasks|, i requires 0 <= i < |tasks| => CandidateOf(tasks[i], averages))
  }

  function Minutes(p: Pick): real { p.minutes as real }

  // The whole minutes of the budget, none when it is negative.
  function BudgetMinutes(budget: real): (minutes: nat)
    ensures if budget < 0.0 then minutes == 0 else minutes as real <= budget < minutes as real + 1.0
  {
    if budget.Floor < 0 then 0 else budget.Floor
  }

  method RecommendPlannerItems(budget: real, tasks: seq<Task>, averages: map<Id, real>)
    returns (picked: seq<Pick>, total: int)
    ensures Best(picked, CandidatesOf(tasks, averages), BudgetMinutes(budget) as real, Minutes)
    ensures total as real == Total(picked, Minutes)
    ensures picked <= SortBy(CandidatesOf(tasks, averages), Minutes)
  {
    hide CandidatesOf, SortBy, Best, Filled, Total;
    var budgetMinutes := BudgetMinutes(budget);
    var candidates := CandidatesOf(tasks, averages);
    var ordered := SortBy(candidates, Minutes);
    SortResult(candidates, Minutes);
    ghost var limit := budgetMinutes as real;
    picked, total := [], 0;
    FilledStart(ordered, limit, Minutes);
    var i := 0;
    while i < |ordered|
      invariant 0 <= i <= |ordered| && total as real == Total(picked, Minutes)
      invariant Filled(picked, ordered, i, limit, Minutes)
    {
      FilledStep(picked, ordered, i, limit, Minutes);
      WholeMinutes(total, ordered[i].minutes, budgetMinutes);
      if total + ordered[i].minutes <= budgetMinutes {
        picked := picked + [ordered[i]];
        total := total + ordered[i].minutes;
      }
      i := i + 1;
    }
    DesktopBest(tasks, averages, candidates, ordered, picked, budgetMinutes);
    FilledIsPrefix(picked, ordered, limit, Minutes);
  }

  lemma WholeMinutes(a: int, b: int, limit: int)
    ensures (a + b) as real == a as real + b as real
    ensures a + b <= limit <==> a as real + b as real <= limit as real
  {
  }

  lemma DesktopBest(tasks: seq<Task>, averages: map<Id, real>, candidates: seq<Pick>, ordered: seq<Pick>,
                    picked: seq<Pick>, budget: int)
    requires candidates == CandidatesOf(tasks, averages) && budget >= 0
    requires Sorted(ordered, Minutes) && multiset(ordered) == multiset(candidates)
    requires Filled(picked, ordered, |ordered|, budget as real, Minutes)
    ensures Best(picked, candidates, budget as real, Minutes)
  {
    forall p | p in ordered ensures Minutes(p) >= 0.0 {
      assert p in multiset(candidates);
      var j :| 0 <= j < |candidates| && candidates[j] == p;
    }
    FilledIsBest(picked, candidates, ordered, budget as real, Minutes);
  }

  // --------------------------------------------------------------- web modules

  datatype Candidate = Candidate(id: Id, seconds: real)

  function Seconds(c: Candidate): real { c.seconds }

  // .filter((c) => c.estimatedSeconds > 0)
  function Positive(cs: seq<Candidate>): seq<Candidate> {
    if cs == [] then []
    else Positive(cs[..|cs| - 1]) + (if cs[|cs| - 1].seconds > 0.0 then [cs[|cs| - 1]] else [])
  }

  lemma {:induction false} PositiveAre(cs: seq<Candidate>)
    ensures forall c :: multiset(Positive(cs))[c] == if c.seconds > 0.0 then multiset(cs)[c] else 0
    decreases cs
  {
    if cs != [] {
      PositiveAre(cs[..|cs| - 1]);
      assert cs == cs[..|cs| - 1] + [cs[|cs| - 1]];
    }
  }

  function AtLeastZero(budget: real): real { if budget < 0.0 then 0.0 else budget }

  // The total is what the selected items take only when the budget is not negative.
  method RecommendForBudget(candidates: seq<Candidate>, budget: real)
    returns (selected: seq<Candidate>, total: real, remaining: real)
    ensures Best(selected, Positive(candidates), AtLeastZero(budget), Seconds)
    ensures remaining == AtLeastZero(budget) - Total(selected, Seconds) && remaining >= 0.0
    ensures total == Total(selected, Seconds) <==> budget >= 0.0
    ensures budget < 0.0 ==> selected == [] && total == budget
    ensures selected <= SortBy(Positive(candidates), Seconds)
  {
    var offered := Positive(candidates);
    var sorted := SortBy(offered, Seconds);
    SortResult(offered, Seconds);
    selected, remaining := [], AtLeastZero(budget);
    var i := 0;
    while i < |sorted|
      invariant 0 <= i <= |sorted| && remaining == AtLeastZero(budget) - Total(selected, Seconds)
      invariant Filled(selected, sorted, i, AtLeastZero(budget), Seconds)
    {
      FilledStep(selected, sorted, i, AtLeastZero(budget), Seconds);
      if sorted[i].seconds <= remaining {
        selected := selected + [sorted[i]];
        remaining := remaining - sorted[i].seconds;
      }
      i := i + 1;
    }
    total := budget - remaining;
    WebBest(candidates, offered, sorted, selected, budget);
  }

  lemma WebBest(candidates: seq<Candidate>, offered: seq<Candidate>, sorted: seq<Candidate>, selected: seq<Candidate>,
                budget: real)
    requires offered == Positive(candidates) && Sorted(sorted, Seconds) && multiset(sorted) == multiset(offered)
    requires Filled(selected, sorted, |sorted|, AtLeastZero(budget), Seconds)
    ensures Best(selected, offered, AtLeastZero(budget), Seconds)
    ensures budget < 0.0 ==> selected == []
  {
    PositiveAre(candidates);
    forall c | c in sorted ensures Seconds(c) > 0.0 {
      assert c in multiset(offered);
    }
    FilledIsBest(selected, offered, sorted, AtLeastZero(budget), Seconds);
    if selected != [] {
      PrefixGrows(sorted, 1, |selected|, Seconds);
      assert sorted[..1][..0] == [];
      assert sorted[0] in sorted && Total(selected, Seconds) > 0.0;
    }
  }
}
