/** The refusal-threshold sweep: every distinct observed score, and one point above them all. */
module ThresholdSweep {
  import opened Collections

  /** The top fused score of a query, and whether it should be answered. */
  datatype Score = Score(value: real, positive: bool)

  datatype Counts = Counts(tp: nat, fp: nat, tn: nat, fn: nat)

  datatype ThresholdPoint = ThresholdPoint(threshold: real, counts: Counts)

  datatype Swept = Points(points: seq<ThresholdPoint>) | IndexError

  /** How many scores are positive (or not) and at least t (or below it). */
  function Count(scores: seq<Score>, positive: bool, proceeds: bool, t: real): nat {
    if scores == [] then 0
    else
      (if scores[0].positive == positive && (scores[0].value >= t) == proceeds then 1 else 0)
      + Count(scores[1..], positive, proceeds, t)
  }

  function CountsAt(scores: seq<Score>, t: real): Counts {
    Counts(Count(scores, true, true, t), Count(scores, false, true, t),
           Count(scores, false, false, t), Count(scores, true, false, t))
  }

  ghost predicate Ascending(xs: seq<real>) {
    forall i, j :: 0 <= i < j < |xs| ==> xs[i] < xs[j]
  }

  /** Put x into an ascending list without repeating it. */
  function Insert(xs: seq<real>, x: real): seq<real> {
    if xs == [] || x < xs[0] then [x] + xs
    else if x == xs[0] then xs
    else [xs[0]] + Insert(xs[1..], x)
  }

  lemma {:induction false} InsertOk(xs: seq<real>, x: real)
    requires Ascending(xs)
    ensures Ascending(Insert(xs, x)) && Insert(xs, x) != []
    ensures forall y :: y in Insert(xs, x) <==> y == x || y in xs
  {
    if xs != [] && x > xs[0] {
      InsertOk(xs[1..], x);
      assert xs == [xs[0]] + xs[1..];
      var tail := Insert(xs[1..], x);
      forall j | 0 <= j < |tail|
        ensures xs[0] < tail[j]
      {
        assert tail[j] in tail;
      }
    }
  }

  /** sorted({s for s, _ in scores}) */
  function DistinctScores(scores: seq<Score>): seq<real> {
    if scores == [] then [] else Insert(DistinctScores(scores[1..]), scores[0].value)
  }

  lemma {:induction false} DistinctScoresOk(scores: seq<Score>)
    ensures Ascending(DistinctScores(scores))
    ensures forall y :: y in DistinctScores(scores) <==> exists k :: 0 <= k < |scores| && scores[k].value == y
    ensures DistinctScores(scores) == [] <==> scores == []
  {
    if scores != [] {
      DistinctScoresOk(scores[1..]);
      InsertOk(DistinctScores(scores[1..]), scores[0].value);
      forall y
        ensures y in DistinctScores(scores) <==> exists k :: 0 <= k < |scores| && scores[k].value == y
      {
        if exists k :: 0 <= k < |scores| && scores[k].value == y {
          var k :| 0 <= k < |scores| && scores[k].value == y;
          if k > 0 {
            assert scores[1..][k - 1].value == y;
          }
        }
        if y in DistinctScores(scores) && y != scores[0].value {
          var k :| 0 <= k < |scores[1..]| && scores[1..][k].value == y;
          assert scores[k + 1].value == y;
        }
      }
    }
  }

  const EPSILON: real := 0.000001

  function Candidates(scores: seq<Score>): seq<real>
    requires scores != []
  {
    var distinct := DistinctScores(scores);
    if distinct == [] then [] else distinct + [distinct[|distinct| - 1] + EPSILON]
  }

  function PointsFor(scores: seq<Score>, thresholds: seq<real>): (points: seq<ThresholdPoint>)
    ensures |points| == |thresholds|
    ensures forall i :: 0 <= i < |points| ==>
                          points[i] == ThresholdPoint(thresholds[i], CountsAt(scores, thresholds[i]))
  {
    seq(|thresholds|, i requires 0 <= i < |thresholds| =>
                        ThresholdPoint(thresholds[i], CountsAt(scores, thresholds[i])))
  }

  method CountBy(scores: seq<Score>, t: real) returns (c: Counts)
    ensures c == CountsAt(scores, t)
  {
    var tp, fp, tn, fn := 0, 0, 0, 0;
    for i := 0 to |scores|
      invariant tp + Count(scores[i..], true, true, t) == Count(scores, true, true, t)
      invariant fp + Count(scores[i..], false, true, t) == Count(scores, false, true, t)
      invariant tn + Count(scores[i..], false, false, t) == Count(scores, false, false, t)
      invariant fn + Count(scores[i..], true, false, t) == Count(scores, true, false, t)
    {
      assert scores[i..][0] == scores[i] && scores[i..][1..] == scores[i + 1..];
      if scores[i].positive {
        if scores[i].value >= t { tp := tp + 1; } else { fn := fn + 1; }
      } else {
        if scores[i].value >= t { fp := fp + 1; } else { tn := tn + 1; }
      }
    }
    c := Counts(tp, fp, tn, fn);
  }

  /** An empty score list fails at candidates[-1]. */
  method SweepThresholds(scores: seq<Score>) returns (swept: Swept)
    ensures swept == if scores == [] then IndexError else Points(PointsFor(scores, Candidates(scores)))
  {
    var candidates := DistinctScores(scores);
    DistinctScoresOk(scores);
    if candidates == [] {
      return IndexError;
    }
    candidates := candidates + [candidates[|candidates| - 1] + EPSILON];
    var points: seq<ThresholdPoint> := [];
    for i := 0 to |candidates|
      invariant points == PointsFor(scores, candidates[..i])
    {
      var c := CountBy(scores, candidates[i]);
      points := points + [ThresholdPoint(candidates[i], c)];
    }
    assert candidates[..|candidates|] == candidates;
    swept := Points(points);
  }

  // ---------- The curve ----------

  ghost predicate Observed(scores: seq<Score>, y: real) {
    exists k :: 0 <= k < |scores| && scores[k].value == y
  }

  /** The thresholds tried are the observed scores, each once, in ascending order, and a millionth above the highest. */
  lemma CandidatesOk(scores: seq<Score>)
    requires scores != []
    ensures var c := Candidates(scores);
            && |c| >= 2 && Ascending(c) && c[|c| - 1] == c[|c| - 2] + 0.000001
            && (forall y :: Observed(scores, y) <==> y in c[..|c| - 1])
            && (forall k :: 0 <= k < |scores| ==> scores[k].value in c[..|c| - 1])
            && forall k :: 0 <= k < |scores| ==> c[0] <= scores[k].value < c[|c| - 1]
  {
    DistinctScoresOk(scores);
    var distinct, c := DistinctScores(scores), Candidates(scores);
    assert c[..|c| - 1] == distinct;
    forall k | 0 <= k < |scores|
      ensures scores[k].value in distinct && c[0] <= scores[k].value < c[|c| - 1]
    {
      assert scores[k].value in distinct;
      var j :| 0 <= j < |distinct| && distinct[j] == scores[k].value;
      assert distinct[0] <= distinct[j] <= distinct[|distinct| - 1];
    }
  }

  /** Two thresholds that no score separates give the same counts. */
  lemma {:induction false} SameSide(scores: seq<Score>, positive: bool, proceeds: bool, t: real, u: real)
    requires forall k :: 0 <= k < |scores| ==> (scores[k].value >= t <==> scores[k].value >= u)
    ensures Count(scores, positive, proceeds, t) == Count(scores, positive, proceeds, u)
  {
    if scores != [] {
      SameSide(scores[1..], positive, proceeds, t, u);
    }
  }

  lemma {:induction false} FirstAtLeast(c: seq<real>, t: real)
    returns (i: nat)
    requires Ascending(c) && c != [] && t <= c[|c| - 1]
    ensures i < |c| && t <= c[i] && forall j :: 0 <= j < i ==> c[j] < t
  {
    i := 0;
    while c[i] < t
      invariant i < |c| && forall j :: 0 <= j < i ==> c[j] < t
      decreases |c| - i
    {
      assert i < |c| - 1;
      i := i + 1;
    }
  }

  /** Lossless: whatever real threshold is chosen, some candidate of the sweep has the same four counts. */
  lemma LosslessCurve(scores: seq<Score>, t: real)
    returns (i: nat)
    requires scores != []
    ensures i < |Candidates(scores)|
    ensures PointsFor(scores, Candidates(scores))[i].counts == CountsAt(scores, t)
  {
    CandidatesOk(scores);
    var c := Candidates(scores);
    if t > c[|c| - 1] {
      i := |c| - 1;
    } else {
      i := FirstAtLeast(c, t);
    }
    forall k | 0 <= k < |scores|
      ensures scores[k].value >= t <==> scores[k].value >= c[i]
    {
      var j :| 0 <= j < |c| - 1 && c[j] == scores[k].value;
      assert i < j ==> c[i] < c[j];
    }
    SameSide(scores, true, true, t, c[i]);
    SameSide(scores, false, true, t, c[i]);
    SameSide(scores, false, false, t, c[i]);
    SameSide(scores, true, false, t, c[i]);
  }

  function Size(scores: seq<Score>, positive: bool): nat {
    if scores == [] then 0 else (if scores[0].positive == positive then 1 else 0) + Size(scores[1..], positive)
  }

  lemma {:induction false} CountsAddUp(scores: seq<Score>, positive: bool, t: real)
    ensures Count(scores, positive, true, t) + Count(scores, positive, false, t) == Size(scores, positive)
  {
    if scores != [] {
      CountsAddUp(scores[1..], positive, t);
    }
  }

  lemma {:induction false} FewerProceed(scores: seq<Score>, positive: bool, t: real, u: real)
    requires t <= u
    ensures Count(scores, positive, true, t) >= Count(scores, positive, true, u)
  {
    if scores != [] {
      FewerProceed(scores[1..], positive, t, u);
    }
  }

  function Ratio(part: nat, whole: nat): Option<real> {
    if whole == 0 then None else Some(part as real / whole as real)
  }

  function Recall(c: Counts): Option<real> {
    Ratio(c.tp, c.tp + c.fn)
  }

  function Specificity(c: Counts): Option<real> {
    Ratio(c.tn, c.tn + c.fp)
  }

  ghost predicate AtMost(a: Option<real>, b: Option<real>) {
    (a.None? <==> b.None?) && (a.Some? && b.Some? ==> a.value <= b.value)
  }

  /** The part of a class, if there is anyone in it. */
  ghost predicate Measures(ratio: Option<real>, part: nat, whole: nat) {
    if whole == 0 then ratio.None? else ratio.Some? && ratio.value * whole as real == part as real
  }

  /** Recall is the share of the positives that proceed, specificity that of the negatives that are refused. */
  lemma RatesMeasure(scores: seq<Score>, t: real)
    ensures var c := CountsAt(scores, t);
            && Measures(Recall(c), c.tp, Size(scores, true))
            && Measures(Specificity(c), c.tn, Size(scores, false))
  {
    CountsAddUp(scores, true, t);
    CountsAddUp(scores, false, t);
    RatioMeasures(CountsAt(scores, t).tp, Size(scores, true));
    RatioMeasures(CountsAt(scores, t).tn, Size(scores, false));
  }

  lemma RatioMeasures(part: nat, whole: nat)
    ensures Measures(Ratio(part, whole), part, whole)
  {
    if whole > 0 {
      TimesQuotient(part as real, whole as real);
    }
  }

  lemma TimesQuotient(a: real, b: real)
    requires b > 0.0
    ensures a / b * b == a
  {
  }

  lemma RatioMonotone(a: nat, b: nat, whole: nat)
    requires a <= b
    ensures AtMost(Ratio(a, whole), Ratio(b, whole))
  {
  }

  /** Along the curve the class sizes stay fixed, recall never rises and specificity never falls. */
  lemma CurveIsMonotone(scores: seq<Score>, t: real, u: real)
    requires t <= u
    ensures var a, b := CountsAt(scores, t), CountsAt(scores, u);
            && a.tp + a.fn == b.tp + b.fn == Size(scores, true)
            && a.fp + a.tn == b.fp + b.tn == Size(scores, false)
            && AtMost(Recall(b), Recall(a))
            && AtMost(Specificity(a), Specificity(b))
  {
    var a, b := CountsAt(scores, t), CountsAt(scores, u);
    CountsAddUp(scores, true, t);
    CountsAddUp(scores, true, u);
    CountsAddUp(scores, false, t);
    CountsAddUp(scores, false, u);
    FewerProceed(scores, true, t, u);
    FewerProceed(scores, false, t, u);
    RatiosMonotone(a, b);
  }

  lemma RatiosMonotone(a: Counts, b: Counts)
    requires a.tp + a.fn == b.tp + b.fn && b.tp <= a.tp
    requires a.fp + a.tn == b.fp + b.tn && b.fp <= a.fp
    ensures AtMost(Recall(b), Recall(a)) && AtMost(Specificity(a), Specificity(b))
  {
    RatioMonotone(b.tp, a.tp, a.tp + a.fn);
    RatioMonotone(a.tn, b.tn, a.tn + a.fp);
  }

  lemma {:induction false} NoneBelow(scores: seq<Score>, positive: bool, t: real)
    requires forall k :: 0 <= k < |scores| ==> scores[k].value >= t
    ensures Count(scores, positive, false, t) == 0
  {
    if scores != [] {
      NoneBelow(scores[1..], positive, t);
    }
  }

  lemma {:induction false} NoneReach(scores: seq<Score>, positive: bool, t: real)
    requires forall k :: 0 <= k < |scores| ==> scores[k].value < t
    ensures Count(scores, positive, true, t) == 0
  {
    if scores != [] {
      NoneReach(scores[1..], positive, t);
    }
  }

  /** The first point refuses nothing and the last refuses everything. */
  lemma CurveEnds(scores: seq<Score>)
    requires scores != []
    ensures var points := PointsFor(scores, Candidates(scores));
            && |points| >= 2
            && points[0].counts.tn == points[0].counts.fn == 0
            && points[|points| - 1].counts.tp == points[|points| - 1].counts.fp == 0
  {
    CandidatesOk(scores);
    var c := Candidates(scores);
    NoneBelow(scores, true, c[0]);
    NoneBelow(scores, false, c[0]);
    NoneReach(scores, true, c[|c| - 1]);
    NoneReach(scores, false, c[|c| - 1]);
  }
}
