/** The score of a rating group: the per-mistake-type scores of the types
    that carry annotations, summed, and clamped into the group's range
    (AnnotationMapper.calculatePointsForRatingGroup and
    calculatePointsForMistakeType). */
module ScoreAggregator {
  import opened Base
  import opened Domain

  /** The annotations of one mistake type, in annotation order. */
  function AnnotationsOf(anns: seq<Annotation>, mt: MistakeType): (r: seq<Annotation>)
    ensures forall a :: a in r <==> a in anns && a.mistakeType == mt
  {
    Filter((a: Annotation) => a.mistakeType == mt, anns)
  }

  /** The score of one mistake type; None when nothing carries it. */
  function PointsForMistakeType(anns: seq<Annotation>, mt: MistakeType,
                                calculate: (MistakeType, seq<Annotation>) -> real): (r: Option<real>)
    ensures r.None? <==> forall a :: a in anns ==> a.mistakeType != mt
    ensures r.Some? ==> r.value == calculate(mt, AnnotationsOf(anns, mt))
  {
    var filtered := AnnotationsOf(anns, mt);
    if filtered == [] then None
    else
      assert filtered[0] in filtered;
      Some(calculate(mt, filtered))
  }

  /** What one mistake type adds to the group's sum. */
  function Contribution(anns: seq<Annotation>, mt: MistakeType,
                        calculate: (MistakeType, seq<Annotation>) -> real): real
  {
    match PointsForMistakeType(anns, mt, calculate)
    case None => 0.0
    case Some(p) => p
  }

  /** The unclamped sum over the first n mistake types, in list order. */
  function RawSumOf(mts: seq<MistakeType>, n: nat, anns: seq<Annotation>,
                    calculate: (MistakeType, seq<Annotation>) -> real): real
    requires n <= |mts|
  {
    if n == 0 then 0.0
    else RawSumOf(mts, n - 1, anns, calculate) + Contribution(anns, mts[n - 1], calculate)
  }

  function RawSum(mts: seq<MistakeType>, anns: seq<Annotation>,
                  calculate: (MistakeType, seq<Annotation>) -> real): real
  {
    RawSumOf(mts, |mts|, anns, calculate)
  }

  /** The `scores` map after the first n mistake types: each of them that
      has annotations, mapped to its score. */
  function ScoreMapOf(mts: seq<MistakeType>, n: nat, anns: seq<Annotation>,
                      calculate: (MistakeType, seq<Annotation>) -> real): (m: map<MistakeType, real>)
    requires n <= |mts|
    ensures forall mt :: mt in m <==>
      (exists i :: 0 <= i < n && mts[i] == mt) && AnnotationsOf(anns, mt) != []
    ensures forall mt :: mt in m ==> m[mt] == calculate(mt, AnnotationsOf(anns, mt))
  {
    if n == 0 then map[]
    else
      var m := ScoreMapOf(mts, n - 1, anns, calculate);
      match PointsForMistakeType(anns, mts[n - 1], calculate)
      case None => m
      case Some(p) => m[mts[n - 1] := p]
  }

  function ScoreMap(mts: seq<MistakeType>, anns: seq<Annotation>,
                    calculate: (MistakeType, seq<Annotation>) -> real): map<MistakeType, real>
  {
    ScoreMapOf(mts, |mts|, anns, calculate)
  }

  predicate InRange(r: Range, v: real)
  {
    (r.lower.Some? ==> r.lower.value <= v) && (r.upper.Some? ==> v <= r.upper.value)
  }

  predicate WellFormedRange(r: Range)
  {
    r.lower.Some? && r.upper.Some? ==> r.lower.value <= r.upper.value
  }

  function Dist(x: real, y: real): real
  {
    if x <= y then y - x else x - y
  }

  /** The rating group's setToRange: the point of the range nearest to v. */
  function SetToRange(r: Range, v: real): (c: real)
    ensures c == v <==> InRange(r, v)
    ensures WellFormedRange(r) ==> InRange(r, c)
    ensures WellFormedRange(r) ==> forall w :: InRange(r, w) ==> Dist(c, v) <= Dist(w, v)
  {
    if r.lower.Some? && v < r.lower.value then r.lower.value
    else if r.upper.Some? && v > r.upper.value then r.upper.value
    else v
  }

  /** The PointResult of a rating group. */
  function RatingGroupScore(g: RatingGroup, anns: seq<Annotation>,
                            calculate: (MistakeType, seq<Annotation>) -> real): (pr: PointResult)
    ensures forall mt :: mt in pr.scores <==>
      mt in g.mistakeTypes && exists a :: a in anns && a.mistakeType == mt
    ensures forall mt :: mt in pr.scores ==> pr.scores[mt] == calculate(mt, AnnotationsOf(anns, mt))
    ensures pr.reachedLimit <==>
      g.range.Some? && !InRange(g.range.value, RawSum(g.mistakeTypes, anns, calculate))
    ensures pr.points == if g.range.Some?
                         then SetToRange(g.range.value, RawSum(g.mistakeTypes, anns, calculate))
                         else RawSum(g.mistakeTypes, anns, calculate)
    ensures g.range.Some? && WellFormedRange(g.range.value) ==> InRange(g.range.value, pr.points)
  {
    var sum := RawSum(g.mistakeTypes, anns, calculate);
    var reachedLimit := g.range.Some? && SetToRange(g.range.value, sum) != sum;
    var scores := ScoreMap(g.mistakeTypes, anns, calculate);
    assert forall mt :: mt in scores <==> mt in g.mistakeTypes && PointsForMistakeType(anns, mt, calculate).Some?;
    PointResult(if reachedLimit then SetToRange(g.range.value, sum) else sum, reachedLimit, scores)
  }

  /** The source's loop: accumulate the sum and the scores map over the
      group's mistake types, then clamp. */
  method CalculatePointsForRatingGroup(g: RatingGroup, anns: seq<Annotation>,
                                       calculate: (MistakeType, seq<Annotation>) -> real)
    returns (pr: PointResult)
    ensures pr == RatingGroupScore(g, anns, calculate)
  {
    var sum := 0.0;
    var scores: map<MistakeType, real> := map[];
    var mts := g.mistakeTypes;
    for i := 0 to |mts|
      invariant sum == RawSumOf(mts, i, anns, calculate)
      invariant scores == ScoreMapOf(mts, i, anns, calculate)
    {
      var score := PointsForMistakeType(anns, mts[i], calculate);
      if score.None? {
        continue;
      }
      scores := scores[mts[i] := score.value];
      sum := sum + score.value;
    }
    var reachedLimit := g.range.Some? && SetToRange(g.range.value, sum) != sum;
    if reachedLimit {
      sum := SetToRange(g.range.value, sum);
    }
    pr := PointResult(sum, reachedLimit, scores);
  }

  /** Mistake types none of which has annotations sum to 0. */
  lemma {:induction false} RawSumOfUnannotated(mts: seq<MistakeType>, n: nat, anns: seq<Annotation>,
                                               calculate: (MistakeType, seq<Annotation>) -> real)
    requires n <= |mts|
    requires forall mt :: mt in mts ==> AnnotationsOf(anns, mt) == []
    ensures RawSumOf(mts, n, anns, calculate) == 0.0
  {
    if n > 0 {
      assert mts[n - 1] in mts;
      RawSumOfUnannotated(mts, n - 1, anns, calculate);
    }
  }

  /** Range [0, 10], two mistake types scoring 6 each: the sum 12 is
      clamped to 10 and the limit is reported. */
  lemma ClampScenario(g: RatingGroup, anns: seq<Annotation>,
                      calculate: (MistakeType, seq<Annotation>) -> real, m1: MistakeType, m2: MistakeType)
    requires g.range == Some(Range(Some(0.0), Some(10.0)))
    requires g.mistakeTypes == [m1, m2]
    requires AnnotationsOf(anns, m1) != [] && AnnotationsOf(anns, m2) != []
    requires calculate(m1, AnnotationsOf(anns, m1)) == 6.0 && calculate(m2, AnnotationsOf(anns, m2)) == 6.0
    ensures RatingGroupScore(g, anns, calculate).points == 10.0
    ensures RatingGroupScore(g, anns, calculate).reachedLimit
  {
    assert AnnotationsOf(anns, m1)[0] in AnnotationsOf(anns, m1);
    assert AnnotationsOf(anns, m2)[0] in AnnotationsOf(anns, m2);
    assert Contribution(anns, m1, calculate) == 6.0;
    assert Contribution(anns, m2, calculate) == 6.0;
    assert RawSumOf(g.mistakeTypes, 1, anns, calculate) == 6.0;
    assert RawSum(g.mistakeTypes, anns, calculate) == 12.0;
  }
}
