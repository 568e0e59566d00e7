// Filling a budget with the cheapest items first: why the greedy choice is best.
module Greedy {
  function Total<T>(s: seq<T>, w: T -> real): real {
    if s == [] then 0.0 else Total(s[..|s| - 1], w) + w(s[|s| - 1])
  }

  ghost predicate Sorted<T>(s: seq<T>, w: T -> real) {
    forall i, j :: 0 <= i <= j < |s| ==> w(s[i]) <= w(s[j])
  }

  // s takes no item more often than it is offered.
  ghost predicate Chosen<T>(s: seq<T>, offered: seq<T>) {
    multiset(s) <= multiset(offered)
  }

  // Array.prototype.sort is stable: the item goes after all that are not heavier.
  function Insert<T>(x: T, s: seq<T>, w: T -> real): seq<T> {
    if s == [] || w(s[|s| - 1]) <= w(x) then s + [x] else Insert(x, s[..|s| - 1], w) + [s[|s| - 1]]
  }

  function SortBy<T>(s: seq<T>, w: T -> real): seq<T> {
    if s == [] then [] else Insert(s[|s| - 1], SortBy(s[..|s| - 1], w), w)
  }

  lemma {:induction false} InsertKeeps<T>(x: T, s: seq<T>, w: T -> real)
    ensures multiset(Insert(x, s, w)) == multiset(s) + multiset{x}
    decreases s
  {
    if s != [] && w(s[|s| - 1]) > w(x) {
      InsertKeeps(x, s[..|s| - 1], w);
      assert s == s[..|s| - 1] + [s[|s| - 1]];
    }
  }

  lemma {:induction false} InsertBelow<T>(x: T, s: seq<T>, w: T -> real, bound: real)
    requires w(x) <= bound && forall i :: 0 <= i < |s| ==> w(s[i]) <= bound
    ensures forall i :: 0 <= i < |Insert(x, s, w)| ==> w(Insert(x, s, w)[i]) <= bound
    decreases s
  {
    if s != [] && w(s[|s| - 1]) > w(x) {
      InsertBelow(x, s[..|s| - 1], w, bound);
    }
  }

  lemma {:induction false} InsertResult<T>(x: T, s: seq<T>, w: T -> real)
    requires Sorted(s, w)
    ensures Sorted(Insert(x, s, w), w) && multiset(Insert(x, s, w)) == multiset(s) + multiset{x}
    decreases s
  {
    InsertKeeps(x, s, w);
    if s != [] && w(s[|s| - 1]) > w(x) {
      var init, last := s[..|s| - 1], s[|s| - 1];
      InsertResult(x, init, w);
      InsertBelow(x, init, w, w(last));
    }
  }

  lemma {:induction false} SortResult<T>(s: seq<T>, w: T -> real)
    ensures Sorted(SortBy(s, w), w) && multiset(SortBy(s, w)) == multiset(s)
    decreases s
  {
    if s != [] {
      hide Insert, Sorted;
      SortResult(s[..|s| - 1], w);
      InsertResult(s[|s| - 1], SortBy(s[..|s| - 1], w), w);
      LastApart(s);
    }
  }

  lemma LastApart<T>(s: seq<T>)
    requires s != []
    ensures multiset(s) == multiset(s[..|s| - 1]) + multiset{s[|s| - 1]}
  {
    assert s == s[..|s| - 1] + [s[|s| - 1]];
  }

  // Items of one weight, in order.
  function OfWeight<T>(s: seq<T>, w: T -> real, weight: real): seq<T> {
    if s == [] then []
    else OfWeight(s[..|s| - 1], w, weight) + (if w(s[|s| - 1]) == weight then [s[|s| - 1]] else [])
  }

  lemma {:induction false} InsertIsStable<T>(x: T, s: seq<T>, w: T -> real, weight: real)
    requires Sorted(s, w)
    ensures OfWeight(Insert(x, s, w), w, weight) == OfWeight(s, w, weight) + (if w(x) == weight then [x] else [])
    decreases s
  {
    if s == [] || w(s[|s| - 1]) <= w(x) {
      assert (s + [x])[..|s|] == s;
    } else {
      var init, last := s[..|s| - 1], s[|s| - 1];
      InsertIsStable(x, init, w, weight);
      var r := Insert(x, init, w);
      assert (r + [last])[..|r|] == r;
    }
  }

  // Items of equal weight keep their order.
  lemma {:induction false} SortIsStable<T>(s: seq<T>, w: T -> real, weight: real)
    ensures OfWeight(SortBy(s, w), w, weight) == OfWeight(s, w, weight)
    decreases s
  {
    if s != [] {
      SortIsStable(s[..|s| - 1], w, weight);
      SortResult(s[..|s| - 1], w);
      InsertIsStable(s[|s| - 1], SortBy(s[..|s| - 1], w), w, weight);
    }
  }

  // Sorted by w, and by v where w says nothing.
  ghost predicate SortedBoth<T>(s: seq<T>, w: T -> real, v: T -> real) {
    forall i, j :: 0 <= i <= j < |s| ==> w(s[i]) < w(s[j]) || (w(s[i]) == w(s[j]) && v(s[i]) <= v(s[j]))
  }

  lemma {:induction false} InsertLast<T>(x: T, s: seq<T>, w: T -> real, v: T -> real)
    requires SortedBoth(s, w, v) && forall i :: 0 <= i < |s| ==> v(s[i]) <= v(x)
    ensures SortedBoth(Insert(x, s, w), w, v)
    decreases s
  {
    if s != [] && w(s[|s| - 1]) > w(x) {
      var init, last := s[..|s| - 1], s[|s| - 1];
      InsertLast(x, init, w, v);
      InsertKeeps(x, init, w);
      var r := Insert(x, init, w);
      forall i | 0 <= i < |r| ensures w(r[i]) < w(last) || (w(r[i]) == w(last) && v(r[i]) <= v(last)) {
        assert r[i] in multiset(r);
        assert r[i] == x || r[i] in init;
      }
    }
  }

  // Sorting by the second key and then by the first orders by both.
  lemma {:induction false} SortTwice<T>(s: seq<T>, w: T -> real, v: T -> real)
    requires Sorted(s, v)
    ensures SortedBoth(SortBy(s, w), w, v)
    decreases s
  {
    if s != [] {
      var init, last := s[..|s| - 1], s[|s| - 1];
      SortTwice(init, w, v);
      SortResult(init, w);
      var r := SortBy(init, w);
      forall i | 0 <= i < |r| ensures v(r[i]) <= v(last) {
        assert r[i] in multiset(init);
        var j :| 0 <= j < |init| && init[j] == r[i];
        assert v(s[j]) <= v(s[|s| - 1]);
      }
      InsertLast(last, r, w, v);
    }
  }

  // No two items share a key.
  ghost predicate Apart<T, K>(s: seq<T>, key: T -> K) {
    forall i, j :: 0 <= i < j < |s| ==> key(s[i]) != key(s[j])
  }

  lemma {:induction false} OnceEach<T, K>(s: seq<T>, key: T -> K, x: T)
    requires Apart(s, key)
    ensures multiset(s)[x] <= 1
    decreases s
  {
    if s != [] {
      var init, last := s[..|s| - 1], s[|s| - 1];
      LastApart(s);
      OnceEach(init, key, x);
      assert forall i :: 0 <= i < |init| ==> key(init[i]) != key(last);
      assert last !in init;
    }
  }

  lemma TwiceIn<T>(s: seq<T>, i: nat, j: nat)
    requires i < j < |s| && s[i] == s[j]
    ensures multiset(s)[s[i]] >= 2
  {
    assert s == s[..j] + [s[j]] + s[j + 1..];
    assert s[i] == s[..j][i] && s[i] in multiset(s[..j]);
  }

  // Another order of the same items still has each key once.
  lemma ApartPermuted<T, K>(s: seq<T>, r: seq<T>, key: T -> K)
    requires Apart(s, key) && multiset(r) == multiset(s)
    ensures Apart(r, key)
  {
    forall i, j | 0 <= i < j < |r| ensures key(r[i]) != key(r[j]) {
      if key(r[i]) == key(r[j]) {
        assert r[i] in multiset(s) && r[j] in multiset(s);
        assert r[i] == r[j];
        OnceEach(s, key, r[i]);
        TwiceIn(r, i, j);
      }
    }
  }

  lemma {:induction false} TotalJoin<T>(a: seq<T>, b: seq<T>, w: T -> real)
    ensures Total(a + b, w) == Total(a, w) + Total(b, w)
    decreases b
  {
    if b == [] {
      assert a + b == a;
    } else {
      var init, last := b[..|b| - 1], b[|b| - 1];
      TotalJoin(a, init, w);
      assert (a + b)[..|a + b| - 1] == a + init;
    }
  }

  lemma TakeOut<T>(s: seq<T>, i: int, w: T -> real)
    requires 0 <= i < |s|
    ensures var rest := s[..i] + s[i + 1..];
            Total(s, w) == Total(rest, w) + w(s[i]) && multiset(s) == multiset(rest) + multiset{s[i]}
            && |rest| == |s| - 1
  {
    assert s == s[..i] + [s[i]] + s[i + 1..];
    TotalJoin(s[..i] + [s[i]], s[i + 1..], w);
    TotalJoin(s[..i], s[i + 1..], w);
    assert (s[..i] + [s[i]])[..i] == s[..i];
  }

  // No choice of that many items is lighter than the lightest ones.
  lemma {:induction false} PrefixIsLightest<T>(s: seq<T>, o: seq<T>, w: T -> real)
    requires Sorted(o, w) && Chosen(s, o)
    ensures |s| <= |o| && Total(o[..|s|], w) <= Total(s, w)
    decreases o, 1
  {
    CountsBound(multiset(s), multiset(o));
    if s != [] {
      var init, last := o[..|o| - 1], o[|o| - 1];
      assert o == init + [last];
      if Chosen(s, init) {
        PrefixIsLightest(s, init, w);
        assert init[..|s|] == o[..|s|];
      } else {
        LastIsUsed(s, init, last);
        var i :| 0 <= i < |s| && s[i] == last;
        WithoutLast(s, i, o, w);
      }
    }
  }

  lemma {:induction false} WithoutLast<T>(s: seq<T>, i: int, o: seq<T>, w: T -> real)
    requires o != [] && Sorted(o, w) && 0 <= i < |s| <= |o| && s[i] == o[|o| - 1]
    requires multiset(s) - multiset{s[i]} <= multiset(o[..|o| - 1])
    ensures Total(o[..|s|], w) <= Total(s, w)
    decreases o, 0
  {
    hide Total, Sorted;
    var init, rest := o[..|o| - 1], s[..i] + s[i + 1..];
    TakeOut(s, i, w);
    TakenOut(multiset(s), multiset(rest), s[i]);
    SortedParts(o, |s| - 1, w);
    PrefixIsLightest(rest, init, w);
    TotalOfPrefix(o, |s|, w);
  }

  lemma TakenOut<T>(s: multiset<T>, rest: multiset<T>, x: T)
    requires s == rest + multiset{x}
    ensures rest == s - multiset{x}
  {
  }

  lemma SortedParts<T>(o: seq<T>, i: nat, w: T -> real)
    requires Sorted(o, w) && i < |o|
    ensures Sorted(o[..|o| - 1], w) && w(o[i]) <= w(o[|o| - 1])
  {
  }

  lemma TotalOfPrefix<T>(o: seq<T>, n: nat, w: T -> real)
    requires 0 < n <= |o|
    ensures Total(o[..n], w) == Total(o[..|o| - 1][..n - 1], w) + w(o[n - 1])
  {
    assert o[..n][..n - 1] == o[..|o| - 1][..n - 1];
  }

  lemma CountsBound<T>(a: multiset<T>, b: multiset<T>)
    requires a <= b
    ensures |a| <= |b|
  {
    assert b == a + (b - a);
  }

  lemma LastIsUsed<T>(s: seq<T>, init: seq<T>, last: T)
    requires Chosen(s, init + [last]) && !Chosen(s, init)
    ensures last in s && multiset(s) - multiset{last} <= multiset(init)
  {
    var x :| multiset(s)[x] > multiset(init)[x];
    assert multiset(init + [last]) == multiset(init) + multiset{last};
    assert x == last;
  }

  // What the loop has picked from the first i items of a sorted list: as many
  // as fit, and once one did not fit nothing more was added.
  ghost predicate Filled<T>(picked: seq<T>, o: seq<T>, i: int, budget: real, w: T -> real) {
    && 0 <= |picked| <= i <= |o| && picked == o[..|picked|]
    && (Total(picked, w) <= budget || picked == [])
    && (|picked| < i ==> Total(picked, w) + w(o[|picked|]) > budget)
  }

  lemma FilledStart<T>(o: seq<T>, budget: real, w: T -> real)
    ensures Filled([], o, 0, budget, w) && Total([], w) == 0.0
  {
  }

  lemma FilledStep<T>(picked: seq<T>, o: seq<T>, i: int, budget: real, w: T -> real)
    requires Sorted(o, w) && Filled(picked, o, i, budget, w) && i < |o|
    ensures Total(picked, w) + w(o[i]) <= budget ==> Filled(picked + [o[i]], o, i + 1, budget, w)
    ensures Total(picked, w) + w(o[i]) > budget ==> Filled(picked, o, i + 1, budget, w)
    ensures Total(picked + [o[i]], w) == Total(picked, w) + w(o[i])
  {
    assert (picked + [o[i]])[..|picked|] == picked;
    if |picked| < i {
      assert w(o[|picked|]) <= w(o[i]);
    } else {
      assert picked + [o[i]] == o[..i + 1];
    }
  }

  lemma FilledIsPrefix<T>(picked: seq<T>, o: seq<T>, budget: real, w: T -> real)
    requires Filled(picked, o, |o|, budget, w)
    ensures picked <= o
  {
  }

  // The picked items fit the budget; no choice that fits has more items, and none
  // with as many is lighter.
  ghost predicate Best<T(!new)>(picked: seq<T>, offered: seq<T>, budget: real, w: T -> real) {
    && Chosen(picked, offered) && Total(picked, w) <= budget
    && (forall s: seq<T> :: Chosen(s, offered) && Total(s, w) <= budget ==> |s| <= |picked|)
    && (forall s: seq<T> :: Chosen(s, offered) && |s| == |picked| ==> Total(picked, w) <= Total(s, w))
  }

  lemma OneMoreIsTooMuch<T>(picked: seq<T>, o: seq<T>, budget: real, w: T -> real)
    requires Filled(picked, o, |o|, budget, w) && |picked| < |o|
    ensures Total(o[..|picked| + 1], w) > budget
  {
    assert o[..|picked| + 1][..|picked|] == picked;
  }

  lemma MostItems<T>(picked: seq<T>, o: seq<T>, budget: real, w: T -> real, s: seq<T>)
    requires Sorted(o, w) && Filled(picked, o, |o|, budget, w) && forall x :: x in o ==> w(x) >= 0.0
    requires Chosen(s, o) && Total(s, w) <= budget
    ensures |s| <= |picked|
  {
    hide Total, Filled, Sorted, Chosen;
    PrefixIsLightest(s, o, w);
    if |s| > |picked| {
      OneMoreIsTooMuch(picked, o, budget, w);
      PrefixGrows(o, |picked| + 1, |s|, w);
    }
  }

  lemma FilledIsBest<T(!new)>(picked: seq<T>, offered: seq<T>, o: seq<T>, budget: real, w: T -> real)
    requires Sorted(o, w) && multiset(o) == multiset(offered) && Filled(picked, o, |o|, budget, w) && budget >= 0.0
    requires forall x :: x in o ==> w(x) >= 0.0
    ensures Best(picked, offered, budget, w)
  {
    assert o == picked + o[|picked|..];
    forall s: seq<T> | Chosen(s, offered) && |s| == |picked| ensures Total(picked, w) <= Total(s, w) {
      PrefixIsLightest(s, o, w);
    }
    forall s: seq<T> | Chosen(s, offered) && Total(s, w) <= budget ensures |s| <= |picked| {
      MostItems(picked, o, budget, w, s);
    }
  }

  lemma {:induction false} PrefixGrows<T>(o: seq<T>, i: int, j: int, w: T -> real)
    requires 0 <= i <= j <= |o| && forall x :: x in o ==> w(x) >= 0.0
    ensures Total(o[..i], w) <= Total(o[..j], w)
    decreases j
  {
    if i < j {
      PrefixGrows(o, i, j - 1, w);
      assert o[..j][..j - 1] == o[..j - 1];
      assert o[j - 1] in o;
    }
  }
}
