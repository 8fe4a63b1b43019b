/** Sums of reals, sorting and the rearrangement inequality behind normalised DCG. */
module Ranking {

  function Sum(xs: seq<real>): real {
    if xs == [] then 0.0 else xs[0] + Sum(xs[1..])
  }

  lemma {:induction false} SumSnoc(xs: seq<real>, x: real)
    ensures Sum(xs + [x]) == Sum(xs) + x
  {
    if xs == [] {
      assert [] + [x] == [x] && [x][1..] == [];
    } else {
      assert (xs + [x])[1..] == xs[1..] + [x];
      SumSnoc(xs[1..], x);
    }
  }

  lemma {:induction false} SumRemove(xs: seq<real>, i: nat)
    requires i < |xs|
    ensures Sum(xs) == xs[i] + Sum(xs[..i] + xs[i + 1..])
  {
    var rest := xs[..i] + xs[i + 1..];
    if i == 0 {
      assert rest == xs[1..];
    } else {
      assert rest[1..] == xs[1..][..i - 1] + xs[1..][i..];
      SumRemove(xs[1..], i - 1);
    }
  }

  ghost predicate Descending(xs: seq<real>) {
    forall i, j :: 0 <= i < j < |xs| ==> xs[i] >= xs[j]
  }

  function InsertDescending(xs: seq<real>, x: real): seq<real> {
    if xs == [] || x >= xs[0] then [x] + xs else [xs[0]] + InsertDescending(xs[1..], x)
  }

  lemma {:induction false} InsertKeepsElements(xs: seq<real>, x: real)
    ensures multiset(InsertDescending(xs, x)) == multiset(xs) + multiset{x}
  {
    if xs != [] && x < xs[0] {
      InsertKeepsElements(xs[1..], x);
      assert xs == [xs[0]] + xs[1..];
    }
  }

  lemma {:induction false} InsertKeepsDescending(xs: seq<real>, x: real)
    requires Descending(xs)
    ensures Descending(InsertDescending(xs, x))
  {
    if xs != [] && x < xs[0] {
      InsertKeepsDescending(xs[1..], x);
      var tail := InsertDescending(xs[1..], x);
      InsertKeepsElements(xs[1..], x);
      forall j | 0 <= j < |tail|
        ensures xs[0] >= tail[j]
      {
        assert tail[j] in multiset(tail);
        assert tail[j] == x || tail[j] in xs[1..];
      }
    }
  }

  /** sorted(xs, reverse=True) */
  function SortDescending(xs: seq<real>): seq<real> {
    if xs == [] then [] else InsertDescending(SortDescending(xs[1..]), xs[0])
  }

  lemma {:induction false} SortSorts(xs: seq<real>)
    ensures Descending(SortDescending(xs)) && multiset(SortDescending(xs)) == multiset(xs)
    ensures |SortDescending(xs)| == |xs|
  {
    if xs != [] {
      SortSorts(xs[1..]);
      assert xs == [xs[0]] + xs[1..];
      InsertKeepsElements(SortDescending(xs[1..]), xs[0]);
      InsertKeepsDescending(SortDescending(xs[1..]), xs[0]);
    }
    SameSize(SortDescending(xs), xs);
  }

  lemma SameSize(xs: seq<real>, ys: seq<real>)
    requires multiset(xs) == multiset(ys)
    ensures |xs| == |ys|
  {
    assert |multiset(xs)| == |xs| && |multiset(ys)| == |ys|;
  }

  /** An element of xs whose removal leaves a sub-collection of the rest of the sorted collection. */
  lemma RemovableElement(xs: seq<real>, sorted: seq<real>)
    returns (i: nat)
    requires Descending(sorted) && multiset(xs) <= multiset(sorted) && xs != [] && sorted != []
    ensures i < |xs| && xs[i] <= sorted[0]
    ensures multiset(xs[..i] + xs[i + 1..]) <= multiset(sorted[1..])
  {
    var top := sorted[0];
    i := 0;
    if top in xs {
      i :| 0 <= i < |xs| && xs[i] == top;
    }
    RemoveAt(xs, i);
    assert xs[i] in multiset(xs) && xs[i] in multiset(sorted) && xs[i] in sorted;
    var rest, below := multiset(xs[..i] + xs[i + 1..]), multiset(sorted[1..]);
    assert multiset(sorted) == below + multiset{top} by {
      assert sorted == [top] + sorted[1..];
    }
    assert xs[i] == top || top !in multiset(xs);
    DropTop(rest, below, xs[i], top);
  }

  lemma DropTop(rest: multiset<real>, below: multiset<real>, x: real, top: real)
    requires rest + multiset{x} <= below + multiset{top}
    requires x == top || top !in rest
    ensures rest <= below
  {
    forall e
      ensures rest[e] <= below[e]
    {
      assert (rest + multiset{x})[e] <= (below + multiset{top})[e];
    }
  }

  /** No k elements of a collection sum to more than its k largest. */
  lemma {:induction false} TopSumsHighest(xs: seq<real>, sorted: seq<real>)
    requires Descending(sorted) && multiset(xs) <= multiset(sorted)
    ensures |xs| <= |sorted| && Sum(xs) <= Sum(sorted[..|xs|])
    decreases |sorted|
  {
    MultisetSize(xs, sorted);
    if xs != [] {
      var i := RemovableElement(xs, sorted);
      var rest := xs[..i] + xs[i + 1..];
      TopSumsHighest(rest, sorted[1..]);
      SumRemove(xs, i);
      assert sorted[..|xs|] == [sorted[0]] + sorted[1..][..|rest|];
      assert sorted[..|xs|][1..] == sorted[1..][..|rest|];
    }
  }

  lemma RemoveAt(xs: seq<real>, i: nat)
    requires i < |xs|
    ensures multiset(xs) == multiset(xs[..i] + xs[i + 1..]) + multiset{xs[i]}
  {
    assert xs == xs[..i] + [xs[i]] + xs[i + 1..];
  }

  lemma MultisetSize(xs: seq<real>, ys: seq<real>)
    requires multiset(xs) <= multiset(ys)
    ensures |xs| <= |ys|
  {
    assert |multiset(ys)| == |multiset(ys) - multiset(xs)| + |multiset(xs)|;
  }

  // ---------- Discounted sums ----------

  /** Rank discounts: discount(0), discount(1), ... for ranks 1, 2, .... */
  type Discount = nat -> real

  ghost predicate Decreasing(discount: Discount) {
    && (forall i: nat :: discount(i) > 0.0)
    && (forall i: nat, j: nat :: i < j ==> discount(i) > discount(j))
  }

  /** Discounted cumulative gain, rank by rank. */
  function Dcg(xs: seq<real>, discount: Discount): real {
    if xs == [] then 0.0 else Dcg(xs[..|xs| - 1], discount) + xs[|xs| - 1] * discount(|xs| - 1)
  }

  /** Summation by parts: a DCG is a positive combination of prefix sums. */
  function ByPrefix(xs: seq<real>, discount: Discount): real {
    if xs == [] then 0.0
    else ByPrefix(xs[..|xs| - 1], discount) + Sum(xs) * (discount(|xs| - 1) - discount(|xs|))
  }

  lemma {:induction false} SummationByParts(xs: seq<real>, discount: Discount)
    ensures Dcg(xs, discount) == ByPrefix(xs, discount) + Tail(xs, discount)
  {
    if xs != [] {
      var init, x := xs[..|xs| - 1], xs[|xs| - 1];
      SummationByParts(init, discount);
      assert xs == init + [x];
      SumSnoc(init, x);
      var a, d, e := Sum(init), discount(|init|), discount(|xs|);
      assert (a + x) * (d - e) + (a + x) * e == (a + x) * d == a * d + x * d;
    }
  }

  /** Every prefix of xs sums to at most the same prefix of best. */
  ghost predicate Dominated(xs: seq<real>, best: seq<real>) {
    |xs| == |best| && forall k :: 0 <= k <= |xs| ==> Sum(xs[..k]) <= Sum(best[..k])
  }

  lemma DominatedInit(xs: seq<real>, best: seq<real>)
    requires Dominated(xs, best) && xs != []
    ensures Dominated(xs[..|xs| - 1], best[..|xs| - 1]) && Sum(xs) <= Sum(best)
  {
    var n := |xs| - 1;
    forall k | 0 <= k <= n
      ensures Sum(xs[..n][..k]) <= Sum(best[..n][..k])
    {
      TakeTake(xs, n, k);
      TakeTake(best, n, k);
    }
    WholeSum(xs, best);
  }

  lemma TakeTake(xs: seq<real>, n: nat, k: nat)
    requires k <= n <= |xs|
    ensures xs[..n][..k] == xs[..k]
  {
  }

  /** Rearrangement: under any positive decreasing discount a dominated order has no larger DCG, and an equal one
      only if it is the same order. */
  lemma DominatedDcg(xs: seq<real>, best: seq<real>, discount: Discount)
    requires Decreasing(discount) && Dominated(xs, best)
    ensures Dcg(xs, discount) <= Dcg(best, discount)
    ensures Dcg(xs, discount) == Dcg(best, discount) ==> xs == best
  {
    ByPrefixMonotone(xs, best, discount);
    WholeSum(xs, best);
    GapPositive(discount, |xs|);
    DcgStepUp(xs, best, discount);
  }

  lemma DcgStepUp(xs: seq<real>, best: seq<real>, discount: Discount)
    requires |xs| == |best| && discount(|xs|) > 0.0
    requires ByPrefix(xs, discount) <= ByPrefix(best, discount) && Sum(xs) <= Sum(best)
    ensures Dcg(xs, discount) <= Dcg(best, discount)
    ensures Dcg(xs, discount) == Dcg(best, discount) ==> ByPrefix(xs, discount) == ByPrefix(best, discount)
  {
    TailStepUp(xs, best, discount);
    SummationByParts(xs, discount);
    SummationByParts(best, discount);
  }

  lemma TailStepUp(xs: seq<real>, best: seq<real>, discount: Discount)
    requires |xs| == |best| && discount(|xs|) > 0.0 && Sum(xs) <= Sum(best)
    ensures Tail(xs, discount) <= Tail(best, discount)
  {
    Scale(Sum(xs), Sum(best), discount(|xs|));
  }

  /** The last term of the summation by parts. */
  function Tail(xs: seq<real>, discount: Discount): real {
    Sum(xs) * discount(|xs|)
  }

  lemma WholeSum(xs: seq<real>, best: seq<real>)
    requires Dominated(xs, best)
    ensures |xs| == |best| && Sum(xs) <= Sum(best)
  {
    assert xs[..|xs|] == xs && best[..|xs|] == best;
  }

  lemma GapPositive(discount: Discount, n: nat)
    requires Decreasing(discount)
    ensures discount(n) > 0.0 && discount(n) - discount(n + 1) > 0.0
  {
  }

  lemma StepUp(a: real, b: real, s: real, t: real, d: real)
    requires a <= b && s <= t && d > 0.0
    ensures a + s * d <= b + t * d
    ensures a + s * d == b + t * d ==> a == b && s == t
  {
    Scale(s, t, d);
  }

  lemma Scale(a: real, b: real, d: real)
    requires a <= b && d > 0.0
    ensures a * d <= b * d && (a * d == b * d ==> a == b)
  {
    if a < b {
      assert (b - a) * d > 0.0;
    }
  }

  lemma {:induction false} ByPrefixMonotone(xs: seq<real>, best: seq<real>, discount: Discount)
    requires Decreasing(discount) && Dominated(xs, best)
    ensures ByPrefix(xs, discount) <= ByPrefix(best, discount)
    ensures ByPrefix(xs, discount) == ByPrefix(best, discount) ==> xs == best
    decreases |xs|
  {
    if xs != [] {
      var n := |xs| - 1;
      var a, b := ByPrefix(xs[..n], discount), ByPrefix(best[..n], discount);
      assert a <= b && (a == b ==> xs[..n] == best[..n]) && Sum(xs) <= Sum(best) by {
        DominatedInit(xs, best);
        ByPrefixMonotone(xs[..n], best[..n], discount);
      }
      assert discount(n) - discount(n + 1) > 0.0 by {
        GapPositive(discount, n);
      }
      StepUp(a, b, Sum(xs), Sum(best), discount(n) - discount(n + 1));
      LastBySums(xs, best);
    }
  }

  lemma LastBySums(xs: seq<real>, best: seq<real>)
    requires |xs| == |best| && xs != []
    ensures var n := |xs| - 1; xs[..n] == best[..n] && Sum(xs) == Sum(best) ==> xs == best
  {
    SumLast(xs);
    SumLast(best);
  }

  lemma SumLast(xs: seq<real>)
    requires xs != []
    ensures xs == xs[..|xs| - 1] + [xs[|xs| - 1]] && Sum(xs) == Sum(xs[..|xs| - 1]) + xs[|xs| - 1]
  {
    var front, last := xs[..|xs| - 1], xs[|xs| - 1];
    assert xs == front + [last];
    SumSnoc(front, last);
  }

  lemma {:induction false} DcgNonNegative(xs: seq<real>, discount: Discount)
    requires Decreasing(discount) && forall x <- xs :: x >= 0.0
    ensures Dcg(xs, discount) >= 0.0
    ensures Dcg(xs, discount) == 0.0 <==> forall x <- xs :: x == 0.0
  {
    if xs != [] {
      var n := |xs| - 1;
      assert xs == xs[..n] + [xs[n]];
      assert xs[n] in xs && forall x <- xs[..n] :: x in xs;
      DcgNonNegative(xs[..n], discount);
      assert discount(n) > 0.0;
      Scale(0.0, xs[n], discount(n));
      if forall x <- xs[..n] :: x == 0.0 {
        assert xs[n] == 0.0 ==> forall x <- xs :: x == 0.0;
      }
    }
  }

  /** Trailing zeros add nothing. */
  lemma {:induction false} DcgPad(xs: seq<real>, zeros: seq<real>, discount: Discount)
    requires forall z <- zeros :: z == 0.0
    ensures Dcg(xs + zeros, discount) == Dcg(xs, discount)
    decreases |zeros|
  {
    if zeros == [] {
      assert xs + zeros == xs;
    } else {
      var init := zeros[..|zeros| - 1];
      assert (xs + zeros)[..|xs + zeros| - 1] == xs + init;
      assert forall z <- init :: z in zeros;
      assert zeros[|zeros| - 1] in zeros;
      DcgPad(xs, init, discount);
    }
  }

  // ---------- Domination is needed ----------

  /** A discount that falls slowly, and by m after the first k ranks. */
  function StepDiscount(k: nat, m: nat): Discount {
    (i: nat) => 1.0 / (i + 1) as real + if i < k then m as real else 0.0
  }

  lemma Reciprocals(a: real, b: real)
    requires 0.0 < a < b
    ensures 1.0 / a > 1.0 / b > 0.0
  {
  }

  lemma StepDecreases(k: nat, m: nat)
    ensures Decreasing(StepDiscount(k, m))
  {
    var discount := StepDiscount(k, m);
    forall i: nat
      ensures discount(i) > 0.0
    {
      Reciprocals((i + 1) as real, (i + 2) as real);
    }
    forall i: nat, j: nat | i < j
      ensures discount(i) > discount(j)
    {
      Reciprocals((i + 1) as real, (j + 1) as real);
    }
  }

  ghost predicate Raised(low: Discount, high: Discount, k: nat) {
    forall i: nat :: high(i) == low(i) + if i < k then 1.0 else 0.0
  }

  function Prefix(xs: seq<real>, k: nat): seq<real> {
    if k < |xs| then xs[..k] else xs
  }

  lemma OneMoreTime(x: real, low: real, high: real, more: bool)
    requires high == low + if more then 1.0 else 0.0
    ensures x * high == x * low + if more then x else 0.0
  {
  }

  lemma PrefixSum(xs: seq<real>, k: nat)
    requires xs != []
    ensures Sum(Prefix(xs, k)) ==
            Sum(Prefix(xs[..|xs| - 1], k)) + if |xs| <= k then xs[|xs| - 1] else 0.0
  {
    var init := xs[..|xs| - 1];
    if |xs| <= k {
      assert Prefix(xs, k) == xs && Prefix(init, k) == init;
      SumLast(xs);
    } else {
      assert Prefix(xs, k) == Prefix(init, k);
    }
  }

  /** Raising the first k discounts by one counts the first k gains once more. */
  lemma {:induction false} RaisedDcg(xs: seq<real>, low: Discount, high: Discount, k: nat)
    requires Raised(low, high, k)
    ensures Dcg(xs, high) == Dcg(xs, low) + Sum(Prefix(xs, k))
  {
    if xs != [] {
      var n := |xs| - 1;
      RaisedDcg(xs[..n], low, high, k);
      PrefixSum(xs, k);
      OneMoreTime(xs[n], low(n), high(n), |xs| <= k);
    }
  }

  ghost function Lead(xs: seq<real>, best: seq<real>, discount: Discount): real {
    Dcg(xs, discount) - Dcg(best, discount)
  }

  lemma RaisedLead(xs: seq<real>, best: seq<real>, low: Discount, high: Discount, k: nat)
    requires Raised(low, high, k)
    ensures Lead(xs, best, high) == Lead(xs, best, low) + (Sum(Prefix(xs, k)) - Sum(Prefix(best, k)))
  {
    RaisedDcg(xs, low, high, k);
    RaisedDcg(best, low, high, k);
  }

  /** So the lead grows by the prefixes' gap with every unit of the step. */
  lemma {:induction false} LeadGrows(xs: seq<real>, best: seq<real>, k: nat, m: nat, gap: real)
    requires gap == Sum(Prefix(xs, k)) - Sum(Prefix(best, k))
    ensures Lead(xs, best, StepDiscount(k, m)) == Lead(xs, best, StepDiscount(k, 0)) + Times(m, gap)
    decreases m
  {
    if m > 0 {
      LeadGrows(xs, best, k, m - 1, gap);
      assert Raised(StepDiscount(k, m - 1), StepDiscount(k, m), k);
      RaisedLead(xs, best, StepDiscount(k, m - 1), StepDiscount(k, m), k);
    }
  }

  function Times(m: nat, x: real): real {
    if m == 0 then 0.0 else Times(m - 1, x) + x
  }

  lemma {:induction false} TimesIsProduct(m: nat, x: real)
    ensures Times(m, x) == m as real * x
  {
    if m > 0 {
      TimesIsProduct(m - 1, x);
      assert m as real * x == (m - 1) as real * x + x;
    }
  }

  lemma StepSize(x: real, target: real)
    returns (m: nat)
    requires x > 0.0
    ensures Times(m, x) > target
  {
    if target < 0.0 {
      m := 0;
    } else {
      m := (target / x).Floor + 1;
      assert m as real > target / x;
      TimesIsProduct(m, x);
      QuotientBelow(target, x, m as real);
    }
  }

  lemma QuotientBelow(a: real, b: real, c: real)
    requires b > 0.0 && c > a / b
    ensures c * b > a
  {
    assert a / b * b == a;
    assert (c - a / b) * b > 0.0;
  }

  /** If a prefix of xs sums to more than the same prefix of best, some discount prefers xs. */
  lemma BreakingDiscount(xs: seq<real>, best: seq<real>)
    returns (discount: Discount)
    requires |xs| == |best| && !Dominated(xs, best)
    ensures Decreasing(discount) && Dcg(xs, discount) > Dcg(best, discount)
  {
    var k: nat := FailingPrefix(xs, best);
    var gap := Sum(Prefix(xs, k)) - Sum(Prefix(best, k));
    var m := StepSize(gap, -Lead(xs, best, StepDiscount(k, 0)));
    discount := StepDiscount(k, m);
    StepDecreases(k, m);
    LeadGrows(xs, best, k, m, gap);
  }

  lemma FailingPrefix(xs: seq<real>, best: seq<real>)
    returns (k: nat)
    requires |xs| == |best| && !Dominated(xs, best)
    ensures Sum(Prefix(xs, k)) > Sum(Prefix(best, k))
  {
    k :| 0 <= k <= |xs| && Sum(xs[..k]) > Sum(best[..k]);
    assert Prefix(xs, k) == xs[..k] && Prefix(best, k) == best[..k];
  }
}
