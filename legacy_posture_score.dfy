/**
 * The earlier, absolute-only posture scorer of posture_score.py: line tilts
 * folded into [0, 90], normalized shoulder width as the distance indicator,
 * three tiered penalties and no baseline.
 */
module LegacyPostureScoring {
  import opened Common
  import opened Geometry
  import opened Smoothing
  import opened Penalties

  // Feature names produced by this extractor.
  const TiltKey: string := "shoulder_tilt_deg"
  const RollKey: string := "head_roll_deg"
  const DistanceKey: string := "distance_indicator"
  const FaceWidthKey: string := "face_width"

  /** Every key of this extractor's result. */
  const ExtractorKeys: set<string> := {TiltKey, RollKey, DistanceKey, FaceWidthKey}

  // Thresholds (degrees; normalized shoulder width).
  const ShoulderWarn: real := 5.0
  const ShoulderBad: real := 8.0
  const HeadRollWarn: real := 10.0
  const HeadRollBad: real := 20.0
  const DistWarn: real := 0.55
  const DistBad: real := 0.6

  /**
   * The fold at the end of `_line_tilt_deg`: an `atan2` angle in [-180, 180]
   * becomes the tilt of the undirected line, in [0, 90].
   */
  function FoldTilt(angle: real): (r: real)
    requires -180.0 <= angle <= 180.0
    ensures 0.0 <= r <= 90.0
    ensures Abs(angle) <= 90.0 ==> r == Abs(angle)
    ensures 90.0 < Abs(angle) ==> r == 180.0 - Abs(angle)
  {
    var a := Abs(angle);
    if a > 90.0 then 180.0 - a else a
  }

  /**
   * Reversing a segment turns its `atan2` angle by half a turn; the folded
   * tilt does not change, so the tilt does not depend on which endpoint comes
   * first.
   */
  lemma FoldTiltHalfTurn(angle: real)
    requires -180.0 <= angle <= 180.0
    ensures var turned := if angle > 0.0 then angle - 180.0 else angle + 180.0;
      -180.0 <= turned <= 180.0 && FoldTilt(turned) == FoldTilt(angle)
  {
  }

  /** `_line_tilt_deg(p1, p2)`: tilt of the segment from horizontal, in [0, 90]. */
  function LineTiltDeg(p1: Point, p2: Point, t: Trig): (r: real)
    requires TrigLaws(t)
    ensures 0.0 <= r <= 90.0
  {
    FoldTilt(t.atan2Deg(p2.y - p1.y, p2.x - p1.x))
  }

  /** `extract_face_shoulder_features(landmarks)` on normalized coordinates. */
  function Extract(lm: Pose, t: Trig): (f: FeatureMap)
    requires TrigLaws(t)
    ensures f.Keys == ExtractorKeys
    ensures 0.0 <= f[TiltKey] <= 90.0 && 0.0 <= f[RollKey] <= 90.0
    ensures 0.0 <= f[DistanceKey] && 0.0 <= f[FaceWidthKey]
    ensures lm.leftShoulder == lm.rightShoulder ==> f[DistanceKey] == 0.0
  {
    var ls, rs := lm.leftShoulder, lm.rightShoulder;
    var ml, mr := lm.mouthLeft, lm.mouthRight;
    map[TiltKey := LineTiltDeg(ls, rs, t),
        RollKey := LineTiltDeg(lm.leftEye, lm.rightEye, t),
        DistanceKey := t.hypot(ls.x - rs.x, ls.y - rs.y),
        FaceWidthKey := t.hypot(ml.x - mr.x, ml.y - mr.y)]
  }

  /** The keys `compute` reads. */
  predicate HasScoringKeys(f: FeatureMap)
  {
    TiltKey in f && RollKey in f && DistanceKey in f
  }

  /** `_penalty_from_tilt`: 0, 10 or 20 points. */
  function PenaltyFromTilt(deg: real): (p: int)
    ensures p in {0, 10, 20}
    ensures (p == 0 <==> deg < ShoulderWarn) && (p == 20 <==> ShoulderBad <= deg)
  {
    Tiered(deg, ShoulderWarn, ShoulderBad, 10, 20)
  }

  /** `_penalty_from_roll`: 0, 10 or 20 points. */
  function PenaltyFromRoll(deg: real): (p: int)
    ensures p in {0, 10, 20}
    ensures (p == 0 <==> deg < HeadRollWarn) && (p == 20 <==> HeadRollBad <= deg)
  {
    Tiered(deg, HeadRollWarn, HeadRollBad, 10, 20)
  }

  /** `_penalty_from_distance`: 0, 10 or 20 points. */
  function PenaltyFromDistance(dist: real): (p: int)
    ensures p in {0, 10, 20}
    ensures (p == 0 <==> dist < DistWarn) && (p == 20 <==> DistBad <= dist)
  {
    Tiered(dist, DistWarn, DistBad, 10, 20)
  }

  /** Every penalty is non-decreasing in its feature. */
  lemma PenaltiesMonotone(x: real, y: real)
    requires x <= y
    ensures PenaltyFromTilt(x) <= PenaltyFromTilt(y)
    ensures PenaltyFromRoll(x) <= PenaltyFromRoll(y)
    ensures PenaltyFromDistance(x) <= PenaltyFromDistance(y)
  {
  }

  /** The category names, in the order `compute` inserts them. */
  const CategoryNames: seq<string> := ["shoulder_tilt", "head_roll", "head_distance"]

  /** The three-entry `penalties` dictionary. */
  function Penalize(f: FeatureMap): (ps: seq<Penalty>)
    requires HasScoringKeys(f)
    ensures |ps| == 3
    ensures forall i :: 0 <= i < 3 ==> ps[i].name == CategoryNames[i] && ps[i].points in {0, 10, 20}
  {
    [ Penalty("shoulder_tilt", PenaltyFromTilt(f[TiltKey])),
      Penalty("head_roll", PenaltyFromRoll(f[RollKey])),
      Penalty("head_distance", PenaltyFromDistance(f[DistanceKey])) ]
  }

  /** The dictionary `compute` returns. */
  datatype ScoreResult = ScoreResult(score: int, status: string, penalties: seq<Penalty>, features: FeatureMap)

  /**
   * The part of `compute` after smoothing. The total is at most 60, so the
   * `max(0, ...)` floor never applies.
   */
  function Evaluate(f: FeatureMap): (r: ScoreResult)
    requires HasScoringKeys(f)
    ensures r.features == f && r.penalties == Penalize(f)
    ensures r.score == 100 - Total(r.penalties)
    ensures 40 <= r.score <= 100
    ensures r.status == "Good" <==> forall i :: 0 <= i < 3 ==> r.penalties[i].points == 0
    ensures r.status != "Good" ==> r.status == Join(ActiveLabels(r.penalties), ", ")
    ensures forall i :: 0 <= i < 3 ==> (CategoryNames[i] in ActiveLabels(r.penalties) <==> r.penalties[i].points > 0)
  {
    var ps := Penalize(f);
    var total := Total(ps);
    TotalOfThree(ps);
    StatusGoodIff(ps);
    LabelsOfCategories(ps);
    ScoreResult(if 100 - total > 0 then 100 - total else 0, Status(ps), ps, f)
  }

  /** The three category names differ pairwise. */
  lemma CategoryNamesUnique()
    ensures forall i, j :: 0 <= i < j < 3 ==> CategoryNames[i] != CategoryNames[j]
  {
    var n0, n1, n2 := CategoryNames[0], CategoryNames[1], CategoryNames[2];
    assert n0[0] == 's' && n1[0] == 'h' && n2[0] == 'h';
    assert n1[5] == 'r' && n2[5] == 'd';
  }

  /** With the three distinct names, a name is listed iff its penalty is positive. */
  lemma LabelsOfCategories(ps: seq<Penalty>)
    requires |ps| == 3 && forall i :: 0 <= i < 3 ==> ps[i].name == CategoryNames[i]
    ensures forall i :: 0 <= i < 3 ==> (CategoryNames[i] in ActiveLabels(ps) <==> ps[i].points > 0)
  {
    CategoryNamesUnique();
    assert UniqueNames(ps);
    ActiveLabelsOfEntry(ps, 0);
    ActiveLabelsOfEntry(ps, 1);
    ActiveLabelsOfEntry(ps, 2);
  }

  /**
   * There is no baseline: the result depends only on the three scored
   * features of the smoothed vector.
   */
  lemma EvaluateDependsOnScoredFeatures(f: FeatureMap, g: FeatureMap)
    requires HasScoringKeys(f) && HasScoringKeys(g)
    requires f[TiltKey] == g[TiltKey] && f[RollKey] == g[RollKey] && f[DistanceKey] == g[DistanceKey]
    ensures Evaluate(f).score == Evaluate(g).score
    ensures Evaluate(f).status == Evaluate(g).status
    ensures Evaluate(f).penalties == Evaluate(g).penalties
  {
  }

  /** The earlier scorer: smoothing state only. */
  class PostureScore {
    /** The previous smoothed vector (`self.history`). */
    var history: Option<FeatureMap>

    constructor ()
      ensures history == None
    {
      history := None;
    }

    /** `smooth_features`: returns the smoothed vector and stores it. */
    method SmoothFeatures(incoming: FeatureMap) returns (r: FeatureMap)
      modifies this
      ensures r == Smoothed(old(history), incoming)
      ensures history == Some(r)
    {
      r := SmoothStep(history, incoming);
      history := Some(r);
    }

    /** `compute`: smooths the features, then scores the smoothed vector. */
    method Compute(features: FeatureMap) returns (r: ScoreResult)
      requires HasScoringKeys(features)
      modifies this
      ensures r == Evaluate(Smoothed(old(history), features))
      ensures history == Some(r.features)
    {
      var f := SmoothFeatures(features);
      r := Evaluate(f);
    }
  }
}
