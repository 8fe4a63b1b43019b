/** Ranking metrics of one golden query: graded relevance, recall, reciprocal rank and NDCG at ten. Floats are
    reals, and 1/log2(rank + 1) is any positive strictly decreasing discount. */
module RetrievalMetrics {
  import opened Collections
  import opened Ranking

  type ChunkId = nat

  datatype Grade = Primary | Supporting

  datatype RelevantChunk = RelevantChunk(anchor: string, grade: Grade)

  function Weight(g: Grade): real {
    if g.Primary? then 2.0 else 1.0
  }

  type AnchorIndex = map<string, seq<ChunkId>>

  /** The relevance dict: its keys in insertion order, and the grade of each. */
  datatype Relevant = Relevant(order: seq<ChunkId>, grades: map<ChunkId, Grade>)

  ghost predicate Distinct(ids: seq<ChunkId>) {
    forall i, j :: 0 <= i < j < |ids| ==> ids[i] != ids[j]
  }

  ghost predicate DictOk(d: Relevant) {
    Distinct(d.order) && forall id :: id in d.order <==> id in d.grades
  }

  // ---------- Which chunks are relevant ----------

  function Resolved(index: AnchorIndex, anchor: string): seq<ChunkId> {
    if anchor in index then index[anchor] else []
  }

  /** Some anchor of that grade resolves to the chunk. */
  ghost predicate Reaches(rels: seq<RelevantChunk>, index: AnchorIndex, id: ChunkId, g: Grade) {
    exists k :: 0 <= k < |rels| && rels[k].grade == g && id in Resolved(index, rels[k].anchor)
  }

  /** The dict after looking at the anchors: a chunk is a key if some anchor reaches it, and primary if a primary
      one does. */
  ghost predicate GradesExactly(d: Relevant, rels: seq<RelevantChunk>, index: AnchorIndex) {
    && DictOk(d)
    && (forall id :: id in d.grades <==> Reaches(rels, index, id, Primary) || Reaches(rels, index, id, Supporting))
    && (forall id <- d.grades :: d.grades[id].Primary? <==> Reaches(rels, index, id, Primary))
  }

  function Note(d: Relevant, id: ChunkId, g: Grade): Relevant {
    if id !in d.grades then Relevant(d.order + [id], d.grades[id := g])
    else if Weight(g) > Weight(d.grades[id]) then Relevant(d.order, d.grades[id := g])
    else d
  }

  lemma ReachesSnoc(rels: seq<RelevantChunk>, rel: RelevantChunk, index: AnchorIndex, id: ChunkId, g: Grade)
    ensures Reaches(rels + [rel], index, id, g)
       <==> Reaches(rels, index, id, g) || (rel.grade == g && id in Resolved(index, rel.anchor))
  {
    var more := rels + [rel];
    if Reaches(rels, index, id, g) {
      var k :| 0 <= k < |rels| && rels[k].grade == g && id in Resolved(index, rels[k].anchor);
      assert more[k] == rels[k];
    }
    if rel.grade == g && id in Resolved(index, rel.anchor) {
      assert more[|rels|] == rel;
    }
  }

  lemma {:induction false} NoteAll(d: Relevant, ids: seq<ChunkId>, g: Grade)
    requires DictOk(d)
    ensures var e := Noted(d, ids, g);
            && DictOk(e)
            && (forall id :: id in e.grades <==> id in d.grades || id in ids)
            && (forall id <- e.grades :: e.grades[id].Primary? <==>
                  (id in d.grades && d.grades[id].Primary?) || (g.Primary? && id in ids))
    decreases |ids|
  {
    if ids != [] {
      var next := Note(d, ids[0], g);
      assert ids == [ids[0]] + ids[1..];
      NoteAll(next, ids[1..], g);
    }
  }

  function Noted(d: Relevant, ids: seq<ChunkId>, g: Grade): Relevant
    decreases |ids|
  {
    if ids == [] then d else Noted(Note(d, ids[0], g), ids[1..], g)
  }

  method NoteAnchor(d: Relevant, ids: seq<ChunkId>, g: Grade) returns (e: Relevant)
    ensures e == Noted(d, ids, g)
  {
    e := d;
    for j := 0 to |ids|
      invariant Noted(e, ids[j..], g) == Noted(d, ids, g)
    {
      assert ids[j..][0] == ids[j] && ids[j..][1..] == ids[j + 1..];
      e := Note(e, ids[j], g);
    }
  }

  /** Highest grade wins, whatever the order of the anchors. */
  method RelevantChunkIds(rels: seq<RelevantChunk>, index: AnchorIndex) returns (d: Relevant)
    ensures GradesExactly(d, rels, index)
  {
    d := Relevant([], map[]);
    for i := 0 to |rels|
      invariant GradesExactly(d, rels[..i], index)
    {
      ghost var before := d;
      d := NoteAnchor(d, Resolved(index, rels[i].anchor), rels[i].grade);
      NoteAll(before, Resolved(index, rels[i].anchor), rels[i].grade);
      assert rels[..i + 1] == rels[..i] + [rels[i]];
      forall id, g
        ensures Reaches(rels[..i + 1], index, id, g)
           <==> Reaches(rels[..i], index, id, g)
                || (rels[i].grade == g && id in Resolved(index, rels[i].anchor))
      {
        ReachesSnoc(rels[..i], rels[i], index, id, g);
      }
    }
    assert rels[..|rels|] == rels;
  }

  // ---------- NDCG ----------

  function GradeOf(id: ChunkId, grades: map<ChunkId, Grade>): real {
    if id in grades then Weight(grades[id]) else 0.0
  }

  function Gains(ids: seq<ChunkId>, grades: map<ChunkId, Grade>): (gains: seq<real>)
    ensures |gains| == |ids|
  {
    if ids == [] then [] else [GradeOf(ids[0], grades)] + Gains(ids[1..], grades)
  }

  function Zeros(n: nat): (zeros: seq<real>)
    ensures |zeros| == n && forall z <- zeros :: z == 0.0
  {
    if n == 0 then [] else [0.0] + Zeros(n - 1)
  }

  function Top<T>(xs: seq<T>, k: nat): seq<T> {
    if |xs| <= k then xs else xs[..k]
  }

  /** Every weight there is to collect, padded to at least ten. */
  function Pool(d: Relevant): seq<real> {
    Gains(d.order, d.grades) + Zeros(if |d.order| < 10 then 10 - |d.order| else 0)
  }

  function IdealGains(d: Relevant): seq<real> {
    Top(SortDescending(Pool(d)), 10)
  }

  function Ndcg(ranked: seq<ChunkId>, d: Relevant, discount: Discount): Option<real> {
    var idcg := Dcg(IdealGains(d), discount);
    if idcg > 0.0 then Some(Dcg(Gains(Top(ranked, 10), d.grades), discount) / idcg) else None
  }

  // ---------- Why it lies between zero and one ----------

  function Hits(ids: seq<ChunkId>, grades: map<ChunkId, Grade>): seq<ChunkId> {
    if ids == [] then [] else (if ids[0] in grades then [ids[0]] else []) + Hits(ids[1..], grades)
  }

  lemma {:induction false} HitsAre(ids: seq<ChunkId>, grades: map<ChunkId, Grade>)
    ensures multiset(Hits(ids, grades)) <= multiset(ids)
    ensures forall id :: id in Hits(ids, grades) <==> id in ids && id in grades
  {
    if ids != [] {
      HitsAre(ids[1..], grades);
      assert ids == [ids[0]] + ids[1..];
    }
  }

  /** Gains are the weights of the hits, and zeros. */
  lemma {:induction false} GainsOfHits(ids: seq<ChunkId>, grades: map<ChunkId, Grade>)
    ensures GainsWithin(ids, grades)
  {
    if ids != [] {
      GainsOfHits(ids[1..], grades);
      GainsWithinCons(ids, grades);
    }
  }

  ghost predicate GainsWithin(ids: seq<ChunkId>, grades: map<ChunkId, Grade>) {
    multiset(Gains(ids, grades)) <= multiset(Gains(Hits(ids, grades), grades)) + multiset(Zeros(|ids|))
  }

  lemma GainsWithinCons(ids: seq<ChunkId>, grades: map<ChunkId, Grade>)
    requires ids != [] && GainsWithin(ids[1..], grades)
    ensures GainsWithin(ids, grades)
  {
    var a, a' := multiset(Gains(ids[1..], grades)), multiset(Gains(ids, grades));
    var b, b' := multiset(Gains(Hits(ids[1..], grades), grades)), multiset(Gains(Hits(ids, grades), grades));
    var n := |ids[1..]|;
    GainsCons(ids, grades);
    ZerosCons(n + 1);
    HitsCons(ids, grades);
    OneMore(GradeOf(ids[0], grades), ids[0] in grades, a, a', b, b', multiset(Zeros(n)), multiset(Zeros(n + 1)));
    assert n + 1 == |ids|;
  }

  lemma GainsCons(ids: seq<ChunkId>, grades: map<ChunkId, Grade>)
    requires ids != []
    ensures multiset(Gains(ids, grades)) == multiset{GradeOf(ids[0], grades)} + multiset(Gains(ids[1..], grades))
  {
    assert Gains(ids, grades) == [GradeOf(ids[0], grades)] + Gains(ids[1..], grades);
  }

  lemma ZerosCons(n: nat)
    requires n > 0
    ensures multiset(Zeros(n)) == multiset{0.0} + multiset(Zeros(n - 1))
  {
    assert Zeros(n) == [0.0] + Zeros(n - 1);
  }

  lemma HitsCons(ids: seq<ChunkId>, grades: map<ChunkId, Grade>)
    requires ids != []
    ensures var later := multiset(Gains(Hits(ids[1..], grades), grades));
            multiset(Gains(Hits(ids, grades), grades)) ==
            if ids[0] in grades then multiset{GradeOf(ids[0], grades)} + later else later
  {
    var later := Hits(ids[1..], grades);
    if ids[0] in grades {
      assert Hits(ids, grades) == [ids[0]] + later && ([ids[0]] + later)[1..] == later;
      GainsCons(Hits(ids, grades), grades);
    } else {
      assert Hits(ids, grades) == later;
    }
  }

  lemma OneMore(
    x: real, hit: bool, a: multiset<real>, a': multiset<real>, b: multiset<real>, b': multiset<real>,
    c: multiset<real>, c': multiset<real>)
    requires a <= b + c && (!hit ==> x == 0.0)
    requires a' == multiset{x} + a && c' == multiset{0.0} + c && b' == if hit then multiset{x} + b else b
    ensures a' <= b' + c'
  {
  }

  lemma {:induction false} GainsRemove(ids: seq<ChunkId>, i: nat, grades: map<ChunkId, Grade>)
    requires i < |ids|
    ensures multiset(Gains(ids, grades))
         == multiset{GradeOf(ids[i], grades)} + multiset(Gains(ids[..i] + ids[i + 1..], grades))
  {
    var rest := ids[..i] + ids[i + 1..];
    if i == 0 {
      assert rest == ids[1..];
    } else {
      assert rest[1..] == ids[1..][..i - 1] + ids[1..][i..];
      GainsRemove(ids[1..], i - 1, grades);
    }
  }

  lemma {:induction false} GainsMonotone(a: seq<ChunkId>, b: seq<ChunkId>, grades: map<ChunkId, Grade>)
    requires multiset(a) <= multiset(b)
    ensures multiset(Gains(a, grades)) <= multiset(Gains(b, grades))
    decreases |a|
  {
    if a != [] {
      assert a == [a[0]] + a[1..];
      assert a[0] in multiset(b);
      var i :| 0 <= i < |b| && b[i] == a[0];
      var rest := b[..i] + b[i + 1..];
      assert b == b[..i] + [b[i]] + b[i + 1..];
      assert multiset(b) == multiset(rest) + multiset{a[0]};
      forall id
        ensures multiset(a[1..])[id] <= multiset(rest)[id]
      {
        assert multiset(a)[id] <= multiset(b)[id];
      }
      GainsMonotone(a[1..], rest, grades);
      GainsRemove(b, i, grades);
    }
  }

  lemma DistinctCount(ids: seq<ChunkId>, id: ChunkId)
    requires Distinct(ids)
    ensures multiset(ids)[id] <= 1
    ensures id in ids ==> multiset(ids)[id] == 1
  {
    if id in ids {
      var i :| 0 <= i < |ids| && ids[i] == id;
      assert ids == ids[..i] + [id] + ids[i + 1..];
      assert id !in ids[..i] && id !in ids[i + 1..];
      assert multiset(ids) == multiset(ids[..i]) + multiset{id} + multiset(ids[i + 1..]);
    }
  }

  lemma HitsWithinOrder(ids: seq<ChunkId>, d: Relevant)
    requires Distinct(Hits(ids, d.grades)) && DictOk(d)
    ensures multiset(Hits(ids, d.grades)) <= multiset(d.order)
  {
    HitsAre(ids, d.grades);
    forall id
      ensures multiset(Hits(ids, d.grades))[id] <= multiset(d.order)[id]
    {
      DistinctCount(Hits(ids, d.grades), id);
      DistinctCount(d.order, id);
      assert id in multiset(Hits(ids, d.grades)) ==> id in Hits(ids, d.grades);
    }
  }

  /** The ranking's gains, padded to ten. */
  function PaddedGains(ranked: seq<ChunkId>, d: Relevant): (gains: seq<real>)
    ensures |gains| == 10
  {
    var top := Top(ranked, 10);
    Gains(top, d.grades) + Zeros(10 - |top|)
  }

  lemma {:induction false} ZerosAdd(m: nat, n: nat)
    ensures Zeros(m) + Zeros(n) == Zeros(m + n)
  {
    if m > 0 {
      ZerosAdd(m - 1, n);
      assert Zeros(m) + Zeros(n) == [0.0] + (Zeros(m - 1) + Zeros(n));
    } else {
      assert Zeros(0) + Zeros(n) == Zeros(n);
    }
  }

  /** No relevant chunk is listed twice in the first ten. */
  ghost predicate HitsOnce(ranked: seq<ChunkId>, d: Relevant) {
    Distinct(Hits(Top(ranked, 10), d.grades))
  }

  lemma {:induction false} DistinctHits(ids: seq<ChunkId>, grades: map<ChunkId, Grade>)
    requires Distinct(ids)
    ensures Distinct(Hits(ids, grades))
  {
    if ids != [] {
      DistinctHits(ids[1..], grades);
      HitsAre(ids[1..], grades);
    }
  }

  lemma PaddedWithinPool(ranked: seq<ChunkId>, d: Relevant)
    requires HitsOnce(ranked, d) && DictOk(d)
    ensures multiset(PaddedGains(ranked, d)) <= multiset(SortDescending(Pool(d)) + Zeros(10))
  {
    var top := Top(ranked, 10);
    TopWithinOrder(ranked, d);
    SortSorts(Pool(d));
    PoolArithmetic(Gains(top, d.grades), 10, Gains(d.order, d.grades), SortDescending(Pool(d)));
  }

  lemma PoolArithmetic(gains: seq<real>, n: nat, weights: seq<real>, pool: seq<real>)
    requires |gains| <= n
    requires multiset(gains) <= multiset(weights) + multiset(Zeros(|gains|)) && multiset(weights) <= multiset(pool)
    ensures multiset(gains + Zeros(n - |gains|)) <= multiset(pool + Zeros(n))
  {
    var some, more := Zeros(|gains|), Zeros(n - |gains|);
    PutTogether(gains, more, weights, some, pool);
    assert some + more == Zeros(n) by {
      ZerosAdd(|gains|, n - |gains|);
    }
  }

  lemma TopWithinOrder(ranked: seq<ChunkId>, d: Relevant)
    requires HitsOnce(ranked, d) && DictOk(d)
    ensures var top := Top(ranked, 10);
            multiset(Gains(top, d.grades)) <= multiset(Gains(d.order, d.grades)) + multiset(Zeros(|top|))
  {
    var top := Top(ranked, 10);
    GainsOfHits(top, d.grades);
    HitsWithinOrder(top, d);
    GainsMonotone(Hits(top, d.grades), d.order, d.grades);
  }

  lemma PutTogether(gains: seq<real>, more: seq<real>, weights: seq<real>, some: seq<real>, pool: seq<real>)
    requires multiset(gains) <= multiset(weights) + multiset(some) && multiset(weights) <= multiset(pool)
    ensures multiset(gains + more) <= multiset(pool + (some + more))
  {
    WithinPool(multiset(gains), multiset(weights), multiset(pool), multiset(some), multiset(more));
  }

  lemma WithinPool(gains: multiset<real>, hits: multiset<real>, weights: multiset<real>, some: multiset<real>,
                   more: multiset<real>)
    requires gains <= hits + some && hits <= weights
    ensures gains + more <= weights + (some + more)
  {
  }

  lemma {:induction false} GainsNonNegative(ids: seq<ChunkId>, grades: map<ChunkId, Grade>)
    ensures forall x <- Gains(ids, grades) :: x >= 0.0
  {
    if ids != [] {
      GainsNonNegative(ids[1..], grades);
    }
  }

  lemma IdealIsTop(d: Relevant)
    ensures |IdealGains(d)| == 10 && (forall x <- IdealGains(d) :: x >= 0.0)
    ensures Descending(SortDescending(Pool(d)) + Zeros(10))
    ensures forall k :: 0 <= k <= 10 ==> (SortDescending(Pool(d)) + Zeros(10))[..k] == IdealGains(d)[..k]
  {
    var sorted := SortDescending(Pool(d));
    SortedPool(d);
    assert forall x <- IdealGains(d) :: x in sorted;
    ThenZeros(sorted, 10);
    PrefixOfTop(sorted);
  }

  lemma SortedPool(d: Relevant)
    ensures var sorted := SortDescending(Pool(d));
            |sorted| >= 10 && Descending(sorted) && forall x <- sorted :: x >= 0.0
  {
    var sorted := SortDescending(Pool(d));
    SortSorts(Pool(d));
    GainsNonNegative(d.order, d.grades);
    forall x | x in sorted
      ensures x >= 0.0
    {
      assert x in multiset(sorted) && x in multiset(Pool(d)) && x in Pool(d);
    }
  }

  lemma ThenZeros(sorted: seq<real>, n: nat)
    requires Descending(sorted) && forall x <- sorted :: x >= 0.0
    ensures Descending(sorted + Zeros(n))
  {
    var all := sorted + Zeros(n);
    forall i, j | 0 <= i < j < |all|
      ensures all[i] >= all[j]
    {
      if j >= |sorted| {
        assert all[j] == Zeros(n)[j - |sorted|] && all[j] in Zeros(n);
        assert i < |sorted| ==> sorted[i] in sorted;
        assert i >= |sorted| ==> Zeros(n)[i - |sorted|] in Zeros(n);
      }
    }
  }

  lemma PrefixOfTop(sorted: seq<real>)
    requires |sorted| >= 10
    ensures forall k :: 0 <= k <= 10 ==> (sorted + Zeros(10))[..k] == Top(sorted, 10)[..k]
  {
    forall k | 0 <= k <= 10
      ensures (sorted + Zeros(10))[..k] == Top(sorted, 10)[..k]
    {
      assert Top(sorted, 10) == sorted[..10];
    }
  }

  /** The returned order is dominated by the ideal order: a rearrangement of a smaller collection. */
  lemma RankingDominated(ranked: seq<ChunkId>, d: Relevant)
    requires HitsOnce(ranked, d) && DictOk(d)
    ensures Dominated(PaddedGains(ranked, d), IdealGains(d))
  {
    var xs, all := PaddedGains(ranked, d), SortDescending(Pool(d)) + Zeros(10);
    IdealIsTop(d);
    PaddedWithinPool(ranked, d);
    forall k | 0 <= k <= 10
      ensures Sum(xs[..k]) <= Sum(IdealGains(d)[..k])
    {
      assert xs == xs[..k] + xs[k..];
      assert multiset(xs[..k]) <= multiset(xs) <= multiset(all);
      TopSumsHighest(xs[..k], all);
      assert all[..k] == IdealGains(d)[..k];
    }
  }

  lemma {:induction false} NoGains(ids: seq<ChunkId>, grades: map<ChunkId, Grade>)
    ensures (forall k :: 0 <= k < |ids| ==> Gains(ids, grades)[k] == GradeOf(ids[k], grades))
    ensures (forall x <- Gains(ids, grades) :: x == 0.0) <==> forall id <- ids :: id !in grades
  {
    if ids != [] {
      NoGains(ids[1..], grades);
    }
    var gains := Gains(ids, grades);
    forall k | 0 <= k < |ids|
      ensures gains[k] == GradeOf(ids[k], grades)
    {
      assert k > 0 ==> gains[k] == Gains(ids[1..], grades)[k - 1] && ids[k] == ids[1..][k - 1];
    }
    ZeroGradesOnly(ids, gains, grades);
  }

  lemma ZeroGradesOnly(ids: seq<ChunkId>, gains: seq<real>, grades: map<ChunkId, Grade>)
    requires |gains| == |ids| && forall k :: 0 <= k < |ids| ==> gains[k] == GradeOf(ids[k], grades)
    ensures (forall x <- gains :: x == 0.0) <==> forall id <- ids :: id !in grades
  {
    if forall x <- gains :: x == 0.0 {
      forall id <- ids
        ensures id !in grades
      {
        var k :| 0 <= k < |ids| && ids[k] == id;
        assert gains[k] in gains;
      }
    }
    if forall id <- ids :: id !in grades {
      forall x <- gains
        ensures x == 0.0
      {
        var k :| 0 <= k < |gains| && gains[k] == x;
        assert ids[k] in ids;
      }
    }
  }

  /** For any ranked list NDCG is undefined exactly when the query has no relevant chunk at all, never negative, and 0
      exactly when none of the first ten is relevant. */
  lemma NdcgIsDefined(ranked: seq<ChunkId>, d: Relevant, discount: Discount)
    requires Decreasing(discount) && DictOk(d)
    ensures var ndcg := Ndcg(ranked, d, discount);
            && (ndcg.None? <==> d.order == [])
            && (ndcg.Some? ==> ndcg.value >= 0.0)
            && (ndcg.Some? ==> (ndcg.value == 0.0 <==> forall id <- Top(ranked, 10) :: id !in d.grades))
  {
    var ideal, top := IdealGains(d), Top(ranked, 10);
    var gains := Gains(top, d.grades);
    assert Dcg(ideal, discount) >= 0.0 && (Dcg(ideal, discount) == 0.0 <==> d.order == []) by {
      IdealIsTop(d);
      DcgNonNegative(ideal, discount);
      IdealPositive(d);
    }
    assert Dcg(gains, discount) >= 0.0 && (Dcg(gains, discount) == 0.0 <==> forall id <- top :: id !in d.grades) by {
      GainsNonNegative(top, d.grades);
      DcgNonNegative(gains, discount);
      NoGains(top, d.grades);
    }
    if Dcg(ideal, discount) > 0.0 {
      QuotientSign(Dcg(gains, discount), Dcg(ideal, discount));
    }
  }

  lemma QuotientSign(a: real, b: real)
    requires a >= 0.0 && b > 0.0
    ensures a / b >= 0.0 && (a / b == 0.0 <==> a == 0.0)
  {
  }

  /** A query whose relevant chunks are not returned at all scores 0; it is not left undefined. */
  lemma UnreturnedScoresZero(ranked: seq<ChunkId>, d: Relevant, discount: Discount)
    requires Decreasing(discount) && DictOk(d) && d.order != []
    requires forall id <- ranked :: id !in d.grades
    ensures Ndcg(ranked, d, discount) == Some(0.0)
  {
    NdcgIsDefined(ranked, d, discount);
    assert forall id <- Top(ranked, 10) :: id in ranked;
  }

  /** A dominated list scores at most 1, under any discount; exactly 1 if its gains are the ideal ones. */
  lemma DominatedScoresAtMostOne(ranked: seq<ChunkId>, d: Relevant, discount: Discount)
    requires Decreasing(discount) && DictOk(d) && Dominated(PaddedGains(ranked, d), IdealGains(d))
    ensures var ndcg := Ndcg(ranked, d, discount);
            ndcg.Some? ==> 0.0 <= ndcg.value <= 1.0 && (ndcg.value == 1.0 <==> PaddedGains(ranked, d) == IdealGains(d))
  {
    var ideal, top := IdealGains(d), Top(ranked, 10);
    var gains := Gains(top, d.grades);
    DominatedDcg(PaddedGains(ranked, d), ideal, discount);
    DcgPad(gains, Zeros(10 - |top|), discount);
    GainsNonNegative(top, d.grades);
    DcgNonNegative(gains, discount);
    if Dcg(ideal, discount) > 0.0 {
      Quotient(Dcg(gains, discount), Dcg(ideal, discount));
    }
  }

  /** NDCG is between 0 and 1 for every query and every ranked list that lists no relevant chunk twice in its first
      ten, and it is 1 exactly when those ten collect the best grades in descending order. It is 0 exactly when none
      of them is relevant, and undefined exactly when the query has no relevant chunk at all. */
  lemma NdcgIsNormalised(ranked: seq<ChunkId>, d: Relevant, discount: Discount)
    requires Decreasing(discount) && HitsOnce(ranked, d) && DictOk(d)
    ensures var ndcg := Ndcg(ranked, d, discount);
            && (ndcg.None? <==> d.order == [])
            && (ndcg.Some? ==> 0.0 <= ndcg.value <= 1.0)
            && (ndcg.Some? ==> (ndcg.value == 1.0 <==> PaddedGains(ranked, d) == IdealGains(d)))
            && (ndcg.Some? ==> (ndcg.value == 0.0 <==> forall id <- Top(ranked, 10) :: id !in d.grades))
  {
    RankingDominated(ranked, d);
    DominatedScoresAtMostOne(ranked, d, discount);
    NdcgIsDefined(ranked, d, discount);
  }

  /** A list that names no chunk twice, which is what a retrieval returns, always has a normalised NDCG. */
  lemma DistinctListsAreNormalised(ranked: seq<ChunkId>, d: Relevant, discount: Discount)
    requires Decreasing(discount) && Distinct(ranked) && DictOk(d)
    ensures var ndcg := Ndcg(ranked, d, discount);
            && (ndcg.Some? <==> d.order != [])
            && (ndcg.Some? ==> 0.0 <= ndcg.value <= 1.0)
            && (ndcg.Some? ==> (ndcg.value == 1.0 <==> PaddedGains(ranked, d) == IdealGains(d)))
  {
    DistinctHits(Top(ranked, 10), d.grades);
    NdcgIsNormalised(ranked, d, discount);
  }

  /** The exact condition: NDCG stays at most 1 under every discount if and only if no prefix of the list's gains sums
      to more than the same prefix of the ideal gains. */
  lemma AtMostOneIffDominated(ranked: seq<ChunkId>, d: Relevant)
    requires DictOk(d) && d.order != []
    ensures (forall discount: Discount :: Decreasing(discount) ==>
               Ndcg(ranked, d, discount).Some? && Ndcg(ranked, d, discount).value <= 1.0)
       <==> Dominated(PaddedGains(ranked, d), IdealGains(d))
  {
    if Dominated(PaddedGains(ranked, d), IdealGains(d)) {
      forall discount: Discount | Decreasing(discount)
        ensures Ndcg(ranked, d, discount).Some? && Ndcg(ranked, d, discount).value <= 1.0
      {
        DominatedScoresAtMostOne(ranked, d, discount);
        NdcgIsDefined(ranked, d, discount);
      }
    } else {
      IdealIsTop(d);
      var discount := BreakingDiscount(PaddedGains(ranked, d), IdealGains(d));
      NdcgIsDefined(ranked, d, discount);
      var top := Top(ranked, 10);
      DcgPad(Gains(top, d.grades), Zeros(10 - |top|), discount);
      AboveOne(Dcg(Gains(top, d.grades), discount), Dcg(IdealGains(d), discount));
    }
  }

  lemma Quotient(a: real, b: real)
    requires 0.0 <= a <= b && b > 0.0
    ensures 0.0 <= a / b <= 1.0 && (a / b == 1.0 <==> a == b)
  {
  }

  lemma IdealPositive(d: Relevant)
    requires DictOk(d)
    ensures (forall x <- IdealGains(d) :: x == 0.0) <==> d.order == []
  {
    if d.order == [] {
      SortedZeros(10);
      assert Pool(d) == Zeros(10);
    } else {
      BestIsPositive(d);
      assert IdealGains(d)[0] in IdealGains(d);
    }
  }

  lemma BestIsPositive(d: Relevant)
    requires DictOk(d) && d.order != []
    ensures |IdealGains(d)| == 10 && IdealGains(d)[0] > 0.0
  {
    var sorted, w := SortDescending(Pool(d)), GradeOf(d.order[0], d.grades);
    SortSorts(Pool(d));
    assert d.order[0] in d.order && d.order[0] in d.grades;
    assert Pool(d)[0] == w;
    assert w in multiset(Pool(d)) && w in multiset(sorted);
    var i :| 0 <= i < |sorted| && sorted[i] == w;
    assert sorted[0] >= w;
  }

  /** With a repeated chunk the bound fails: one primary chunk listed twice scores above 1. */
  lemma RepeatedChunkBreaksNdcg(discount: Discount)
    requires Decreasing(discount)
    ensures var ndcg := Ndcg([7, 7], Relevant([7], map[7 := Primary]), discount);
            ndcg.Some? && ndcg.value > 1.0
  {
    var d := Relevant([7], map[7 := Primary]);
    assert [7, 7][1..] == [7] && [7][1..] == [];
    assert Gains([7], d.grades) == [2.0] && Gains([7, 7], d.grades) == [2.0, 2.0];
    SortedAlready(9);
    assert IdealGains(d) == [2.0] + Zeros(9);
    DcgPad([2.0], Zeros(9), discount);
    TwoGains(discount);
    assert discount(0) > 0.0 && discount(1) > 0.0;
    AboveOne(Dcg([2.0, 2.0], discount), Dcg([2.0], discount));
  }

  /** What a gain is worth: a supporting chunk ranked before a primary one. */
  lemma ReversedPairNdcg(p: ChunkId, q: ChunkId, d: Relevant, discount: Discount)
    requires Decreasing(discount) && p != q && d == Relevant([p, q], map[p := Primary, q := Supporting])
    ensures Ndcg([q, p], d, discount) ==
            Some((1.0 * discount(0) + 2.0 * discount(1)) / (2.0 * discount(0) + 1.0 * discount(1)))
  {
    PairIdeal(p, q, d, discount);
    assert Dcg(Gains(Top([q, p], 10), d.grades), discount) == 1.0 * discount(0) + 2.0 * discount(1) by {
      GainsOfPair(q, p, d.grades);
      PairDcg(1.0, 2.0, discount);
    }
    assert discount(0) > 0.0 && discount(1) > 0.0;
  }

  lemma PairIdeal(p: ChunkId, q: ChunkId, d: Relevant, discount: Discount)
    requires p != q && d == Relevant([p, q], map[p := Primary, q := Supporting])
    ensures Dcg(IdealGains(d), discount) == 2.0 * discount(0) + 1.0 * discount(1)
  {
    assert Pool(d) == [2.0, 1.0] + Zeros(8) by {
      GainsOfPair(p, q, d.grades);
    }
    SortedPair(8);
    assert IdealGains(d) == [2.0, 1.0] + Zeros(8);
    DcgPad([2.0, 1.0], Zeros(8), discount);
    PairDcg(2.0, 1.0, discount);
  }

  lemma GainsOfPair(a: ChunkId, b: ChunkId, grades: map<ChunkId, Grade>)
    ensures Gains([a, b], grades) == [GradeOf(a, grades), GradeOf(b, grades)]
  {
    assert [a, b][1..] == [b] && [b][1..] == [];
    assert Gains([b], grades) == [GradeOf(b, grades)];
  }

  lemma SortedPair(n: nat)
    ensures SortDescending([2.0, 1.0] + Zeros(n)) == [2.0, 1.0] + Zeros(n)
  {
    SortedZeros(n);
    var pool := [2.0, 1.0] + Zeros(n);
    assert pool[1..] == [1.0] + Zeros(n) && pool[1..][1..] == Zeros(n);
    assert SortDescending(pool[1..]) == [1.0] + Zeros(n);
    assert [2.0] + ([1.0] + Zeros(n)) == pool;
  }

  lemma PairDcg(a: real, b: real, discount: Discount)
    ensures Dcg([a, b], discount) == a * discount(0) + b * discount(1)
  {
    assert [a, b][..1] == [a] && [a][..0] == [];
    assert Dcg([], discount) == 0.0;
    assert Dcg([a], discount) == a * discount(0);
  }

  lemma TwoGains(discount: Discount)
    ensures Dcg([2.0], discount) == 2.0 * discount(0)
    ensures Dcg([2.0, 2.0], discount) == 2.0 * discount(0) + 2.0 * discount(1)
  {
    assert [2.0][..0] == [] && [2.0, 2.0][..1] == [2.0];
    assert Dcg([], discount) == 0.0;
  }

  lemma AboveOne(a: real, b: real)
    requires a > b > 0.0
    ensures a / b > 1.0
  {
  }

  lemma {:induction false} SortedZeros(n: nat)
    ensures SortDescending(Zeros(n)) == Zeros(n)
  {
    if n > 0 {
      SortedZeros(n - 1);
      assert Zeros(n)[1..] == Zeros(n - 1);
    }
  }

  lemma SortedAlready(n: nat)
    ensures SortDescending([2.0] + Zeros(n)) == [2.0] + Zeros(n)
  {
    SortedZeros(n);
    assert ([2.0] + Zeros(n))[1..] == Zeros(n);
  }

  // ---------- Recall and reciprocal rank ----------

  /** The distinct relevant chunks among the first k. */
  function Found(ranked: seq<ChunkId>, d: Relevant, k: nat): set<ChunkId> {
    set id | id in Top(ranked, k) && id in d.grades
  }

  function RecallAt(ranked: seq<ChunkId>, d: Relevant, k: nat): real {
    if d.order == [] then 0.0 else |Found(ranked, d, k)| as real / |d.order| as real
  }

  /** The 1-based ranks of relevant chunks, given the rank of the first element. */
  function RelevantRanks(ranked: seq<ChunkId>, d: Relevant, first: nat): seq<nat> {
    if ranked == [] then []
    else (if ranked[0] in d.grades then [first] else []) + RelevantRanks(ranked[1..], d, first + 1)
  }

  function Mrr(ranked: seq<ChunkId>, d: Relevant): real {
    var ranks := RelevantRanks(ranked, d, 1);
    if ranks == [] || ranks[0] == 0 then 0.0 else 1.0 / ranks[0] as real
  }

  function Elements(ids: seq<ChunkId>): set<ChunkId> {
    set id | id in ids
  }

  lemma {:induction false} DistinctSize(ids: seq<ChunkId>)
    requires Distinct(ids)
    ensures |Elements(ids)| == |ids|
  {
    if ids != [] {
      DistinctSize(ids[1..]);
      assert Elements(ids) == {ids[0]} + Elements(ids[1..]);
      assert ids[0] !in Elements(ids[1..]);
    }
  }

  lemma SubsetSize(a: set<ChunkId>, b: set<ChunkId>)
    requires a <= b
    ensures |a| <= |b| && (|a| == |b| <==> a == b)
  {
    assert |b - a| == |b| - |a|;
    if |a| == |b| {
      assert b - a == {};
    }
  }

  lemma TopGrows(ranked: seq<ChunkId>, j: nat, k: nat)
    requires j <= k
    ensures Top(ranked, j) <= Top(ranked, k)
  {
  }

  lemma FoundSizes(ranked: seq<ChunkId>, d: Relevant, j: nat, k: nat)
    requires DictOk(d) && j <= k
    ensures |Found(ranked, d, j)| <= |Found(ranked, d, k)| <= |d.order|
    ensures |Found(ranked, d, k)| == |d.order| <==> forall id <- d.order :: id in Top(ranked, k)
  {
    var all := Elements(d.order);
    DistinctSize(d.order);
    TopGrows(ranked, j, k);
    SubsetSize(Found(ranked, d, j), Found(ranked, d, k));
    SubsetSize(Found(ranked, d, k), all);
    if forall id <- d.order :: id in Top(ranked, k) {
      assert Found(ranked, d, k) == all;
    }
    if Found(ranked, d, k) == all {
      forall id | id in d.order
        ensures id in Top(ranked, k)
      {
        assert id in all;
      }
    }
  }

  /** Recall is a fraction, never falls as more ranks are counted, and is 1 exactly when every relevant chunk is
      among the first k; repeated chunks do not inflate it. */
  lemma RecallIsAFraction(ranked: seq<ChunkId>, d: Relevant, j: nat, k: nat)
    requires DictOk(d) && j <= k
    ensures 0.0 <= RecallAt(ranked, d, j) <= RecallAt(ranked, d, k) <= 1.0
    ensures d.order != [] ==> (RecallAt(ranked, d, k) == 1.0 <==> forall id <- d.order :: id in Top(ranked, k))
  {
    FoundSizes(ranked, d, j, k);
    if d.order != [] {
      Ratio(|Found(ranked, d, j)|, |Found(ranked, d, k)|, |d.order|);
    }
  }

  /** How many of the first k ranks hold a relevant chunk that no earlier rank holds. */
  function FirstHits(ranked: seq<ChunkId>, d: Relevant, k: nat): nat
    requires k <= |ranked|
  {
    if k == 0 then 0
    else
      FirstHits(ranked, d, k - 1)
      + if ranked[k - 1] in d.grades && ranked[k - 1] !in ranked[..k - 1] then 1 else 0
  }

  lemma {:induction false} FoundAreFirstHits(ranked: seq<ChunkId>, d: Relevant, k: nat)
    requires k <= |ranked|
    ensures |Found(ranked, d, k)| == FirstHits(ranked, d, k)
  {
    if k == 0 {
      assert Found(ranked, d, 0) == {};
    } else {
      FoundAreFirstHits(ranked, d, k - 1);
      var id := ranked[k - 1];
      assert ranked[..k] == ranked[..k - 1] + [id];
      assert Top(ranked, k) == ranked[..k] && Top(ranked, k - 1) == ranked[..k - 1];
      assert Found(ranked, d, k) == Found(ranked, d, k - 1) + if id in d.grades then {id} else {};
    }
  }

  /** Recall times the number of relevant chunks is the number of relevant chunks that the first k ranks show, each
      counted where it comes first. */
  lemma RecallCounts(ranked: seq<ChunkId>, d: Relevant, k: nat)
    ensures d.order != [] ==>
              RecallAt(ranked, d, k) * |d.order| as real ==
              FirstHits(ranked, d, if k <= |ranked| then k else |ranked|) as real
    ensures d.order == [] ==> RecallAt(ranked, d, k) == 0.0
  {
    var n := if k <= |ranked| then k else |ranked|;
    assert Top(ranked, k) == Top(ranked, n);
    FoundAreFirstHits(ranked, d, n);
    assert Found(ranked, d, k) == Found(ranked, d, n);
    if d.order != [] {
      TimesQuotient(|Found(ranked, d, k)| as real, |d.order| as real);
    }
  }

  lemma TimesQuotient(a: real, b: real)
    requires b > 0.0
    ensures a / b * b == a
  {
  }

  lemma Ratio(a: nat, b: nat, n: nat)
    requires a <= b <= n && n > 0
    ensures 0.0 <= a as real / n as real <= b as real / n as real <= 1.0
    ensures b as real / n as real == 1.0 <==> b == n
  {
    var x, y, z := a as real, b as real, n as real;
    assert x <= y <= z;
    Quotient(x, z);
    Quotient(y, z);
    QuotientMonotone(x, y, z);
  }

  lemma QuotientMonotone(x: real, y: real, z: real)
    requires x <= y && z > 0.0
    ensures x / z <= y / z
  {
  }

  lemma {:induction false} FirstRank(ranked: seq<ChunkId>, d: Relevant, first: nat)
    ensures var ranks := RelevantRanks(ranked, d, first);
            && (ranks == [] <==> forall id <- ranked :: id !in d.grades)
            && (ranks != [] ==>
                  && first <= ranks[0] < first + |ranked|
                  && ranked[ranks[0] - first] in d.grades
                  && forall i :: 0 <= i < ranks[0] - first ==> ranked[i] !in d.grades)
  {
    if ranked != [] {
      FirstRank(ranked[1..], d, first + 1);
      var ranks, later := RelevantRanks(ranked, d, first), RelevantRanks(ranked[1..], d, first + 1);
      if ranked[0] !in d.grades {
        assert ranks == later;
        if later != [] {
          forall i | 0 <= i < ranks[0] - first
            ensures ranked[i] !in d.grades
          {
            assert i > 0 ==> ranked[i] == ranked[1..][i - 1];
          }
        } else {
          assert ranked == [ranked[0]] + ranked[1..];
        }
      }
    }
  }

  /** A relevant result is at rank r, when ranks are counted from `first`. */
  ghost predicate RelevantAt(ranked: seq<ChunkId>, d: Relevant, first: nat, r: nat) {
    first <= r < first + |ranked| && ranked[r - first] in d.grades
  }

  ghost predicate Increasing(ranks: seq<nat>) {
    forall i, j :: 0 <= i < j < |ranks| ==> ranks[i] < ranks[j]
  }

  /** The ranks listed are those of the relevant results, in order, each once. */
  lemma {:induction false} RanksMeaning(ranked: seq<ChunkId>, d: Relevant, first: nat)
    ensures forall r: nat :: RelevantAt(ranked, d, first, r) <==> r in RelevantRanks(ranked, d, first)
    ensures Increasing(RelevantRanks(ranked, d, first))
    decreases |ranked|
  {
    if ranked != [] {
      RanksMeaning(ranked[1..], d, first + 1);
      var later := RelevantRanks(ranked[1..], d, first + 1);
      forall r: nat
        ensures RelevantAt(ranked, d, first, r) <==> (r == first && ranked[0] in d.grades) || r in later
        ensures r in later ==> r > first
      {
        assert RelevantAt(ranked[1..], d, first + 1, r) <==> r in later;
        assert first < r < first + |ranked| ==> ranked[1..][r - first - 1] == ranked[r - first];
      }
      RankBefore(first, later);
    }
  }

  lemma RankBefore(first: nat, later: seq<nat>)
    requires Increasing(later) && forall r <- later :: r > first
    ensures Increasing([first] + later) && forall r: nat :: r in [first] + later <==> r == first || r in later
    ensures [] + later == later
  {
    assert forall i :: 0 <= i < |later| ==> later[i] in later;
  }

  /** The reciprocal rank is 1/r for the first rank r holding a relevant chunk. NoHitScoresZero is the other case. */
  lemma MrrMeaning(ranked: seq<ChunkId>, d: Relevant, r: nat)
    requires 1 <= r <= |ranked| && ranked[r - 1] in d.grades
    requires forall i :: 0 <= i < r - 1 ==> ranked[i] !in d.grades
    ensures Mrr(ranked, d) == 1.0 / r as real && 0.0 < Mrr(ranked, d) <= 1.0
  {
    FirstRank(ranked, d, 1);
    var ranks := RelevantRanks(ranked, d, 1);
    assert ranked[r - 1] in ranked;
    assert ranks[0] == r;
  }

  lemma NoHitScoresZero(ranked: seq<ChunkId>, d: Relevant)
    ensures Mrr(ranked, d) == 0.0 <==> forall id <- ranked :: id !in d.grades
  {
    FirstRank(ranked, d, 1);
  }
}
