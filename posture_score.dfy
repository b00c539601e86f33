/**
 * The baseline-aware posture scorer of Codes/posture_score.py: the pixel-space
 * feature extractor, the four tiered penalties (absolute thresholds before
 * calibration, deviations from the baseline after), and the score and status
 * computed from them.
 */
module PostureScoring {
  import opened Common
  import opened Geometry
  import opened Smoothing
  import opened Penalties

  // Feature names produced by the extractor.
  const TiltKey: string := "shoulder_tilt_deg"
  const RollKey: string := "head_roll_deg"
  const RollRawKey: string := "head_roll_raw"
  const EyeDistKey: string := "eye_dist_px"
  const DistanceKey: string := "distance_indicator"
  const HunchKey: string := "nose_shoulder_angle"

  /** Every key of the extractor's result. */
  const ExtractorKeys: set<string> := {TiltKey, RollKey, RollRawKey, EyeDistKey, DistanceKey, HunchKey}

  // Absolute-mode thresholds (degrees, pixels).
  const ShoulderWarn: real := 5.0
  const ShoulderBad: real := 10.0
  const HeadRollWarn: real := 10.0
  const HeadRollBad: real := 20.0
  const HunchWarn: real := 85.0
  const HunchBad: real := 100.0
  const DistWarn: real := 90.0
  const DistBad: real := 110.0

  // Relative-mode thresholds on the deviation from the baseline.
  const TiltDevWarn: real := 5.0
  const TiltDevBad: real := 10.0
  const RollDevWarn: real := 10.0
  const RollDevBad: real := 15.0
  const DistDevWarn: real := 10.0
  const DistDevBad: real := 30.0
  const HunchDevWarn: real := 10.0
  const HunchDevBad: real := 25.0

  /**
   * The angle at the nose between the nose-to-left-shoulder and
   * nose-to-right-shoulder vectors (the hunchback indicator), in degrees.
   * A zero-length vector gives 0; otherwise the cosine is clamped into
   * [-1, 1] before the inverse cosine.
   */
  function NoseShoulderAngle(nose: Point, ls: Point, rs: Point, t: Trig): (angle: real)
    requires TrigLaws(t)
    ensures 0.0 <= angle <= 180.0
    ensures ls == nose || rs == nose ==> angle == 0.0
  {
    var lx, ly := ls.x - nose.x, ls.y - nose.y;
    var rx, ry := rs.x - nose.x, rs.y - nose.y;
    var lenL := t.hypot(lx, ly);
    var lenR := t.hypot(rx, ry);
    var dot := lx * rx + ly * ry;
    if lenL * lenR == 0.0 then 0.0
    else t.acosDeg(ClampUnit(dot / (lenL * lenR)))
  }

  /**
   * `extract_face_shoulder_features(landmarks, img_w, img_h)`: the geometric
   * measurements of one frame, in pixel space.
   */
  function Extract(lm: Pose, imgW: real, imgH: real, t: Trig): (f: FeatureMap)
    requires TrigLaws(t)
    ensures f.Keys == ExtractorKeys
    ensures 0.0 <= f[TiltKey] <= 90.0
    ensures -180.0 <= f[RollRawKey] <= 180.0 && f[RollKey] == Abs(f[RollRawKey])
    ensures 0.0 <= f[EyeDistKey] && f[DistanceKey] == f[EyeDistKey]
    ensures 0.0 <= f[HunchKey] <= 180.0
    ensures var nose := ToPixels(lm.nose, imgW, imgH);
      ToPixels(lm.leftShoulder, imgW, imgH) == nose || ToPixels(lm.rightShoulder, imgW, imgH) == nose
      ==> f[HunchKey] == 0.0
  {
    var ls := ToPixels(lm.leftShoulder, imgW, imgH);
    var rs := ToPixels(lm.rightShoulder, imgW, imgH);
    var le := ToPixels(lm.leftEye, imgW, imgH);
    var re := ToPixels(lm.rightEye, imgW, imgH);
    var nose := ToPixels(lm.nose, imgW, imgH);
    var shoulderTilt := Abs(t.atan2Deg(ls.y - rs.y, Abs(ls.x - rs.x)));
    var rollRaw := t.atan2Deg(le.y - re.y, le.x - re.x);
    var eyeDist := t.hypot(le.x - re.x, le.y - re.y);
    var hunch := NoseShoulderAngle(nose, ls, rs, t);
    map[TiltKey := shoulderTilt, RollKey := Abs(rollRaw), RollRawKey := rollRaw,
        EyeDistKey := eyeDist, DistanceKey := eyeDist, HunchKey := hunch]
  }

  /** The keys `compute` reads from the smoothed features (and from the baseline). */
  predicate HasScoringKeys(f: FeatureMap)
  {
    TiltKey in f && RollKey in f && EyeDistKey in f && HunchKey in f
  }

  /** `if self.baseline:` a baseline that is set and non-empty selects relative mode. */
  predicate Relative(baseline: Option<FeatureMap>)
  {
    baseline.Some? && baseline.value != map[]
  }

  /** In relative mode the baseline must hold the keys the penalties look up. */
  predicate BaselineUsable(baseline: Option<FeatureMap>)
  {
    Relative(baseline) ==> HasScoringKeys(baseline.value)
  }

  /** `_penalty_from_tilt`: 0, 10 or 20 points for shoulder tilt. */
  function PenaltyFromTilt(deg: real, baseline: Option<FeatureMap>): (p: int)
    requires BaselineUsable(baseline)
    ensures p in {0, 10, 20}
    ensures !Relative(baseline) ==> (p == 0 <==> deg < ShoulderWarn) && (p == 20 <==> ShoulderBad <= deg)
    ensures Relative(baseline) ==>
      var dev := Abs(deg - baseline.value[TiltKey]);
      (p == 0 <==> dev < TiltDevWarn) && (p == 20 <==> TiltDevBad <= dev)
  {
    if Relative(baseline) then Tiered(Abs(deg - baseline.value[TiltKey]), TiltDevWarn, TiltDevBad, 10, 20)
    else Tiered(deg, ShoulderWarn, ShoulderBad, 10, 20)
  }

  /** `_penalty_from_roll`: 0, 10 or 20 points for head roll. */
  function PenaltyFromRoll(deg: real, baseline: Option<FeatureMap>): (p: int)
    requires BaselineUsable(baseline)
    ensures p in {0, 10, 20}
    ensures !Relative(baseline) ==> (p == 0 <==> deg < HeadRollWarn) && (p == 20 <==> HeadRollBad <= deg)
    ensures Relative(baseline) ==>
      var dev := Abs(deg - baseline.value[RollKey]);
      (p == 0 <==> dev < RollDevWarn) && (p == 20 <==> RollDevBad <= dev)
  {
    if Relative(baseline) then Tiered(Abs(deg - baseline.value[RollKey]), RollDevWarn, RollDevBad, 10, 20)
    else Tiered(deg, HeadRollWarn, HeadRollBad, 10, 20)
  }

  /** `_penalty_from_distance`: 0, 10 or 20 points for leaning towards the camera. */
  function PenaltyFromDistance(distPx: real, baseline: Option<FeatureMap>): (p: int)
    requires BaselineUsable(baseline)
    ensures p in {0, 10, 20}
    ensures !Relative(baseline) ==> (p == 0 <==> distPx < DistWarn) && (p == 20 <==> DistBad <= distPx)
    ensures Relative(baseline) ==>
      var dev := distPx - baseline.value[EyeDistKey];
      (p == 0 <==> dev < DistDevWarn) && (p == 20 <==> DistDevBad <= dev)
  {
    if Relative(baseline) then Tiered(distPx - baseline.value[EyeDistKey], DistDevWarn, DistDevBad, 10, 20)
    else Tiered(distPx, DistWarn, DistBad, 10, 20)
  }

  /** `_penalty_from_hunch`: 0, 15 or 30 points for slouching. */
  function PenaltyFromHunch(angle: real, baseline: Option<FeatureMap>): (p: int)
    requires BaselineUsable(baseline)
    ensures p in {0, 15, 30}
    ensures !Relative(baseline) ==> (p == 0 <==> angle < HunchWarn) && (p == 30 <==> HunchBad <= angle)
    ensures Relative(baseline) ==>
      var dev := angle - baseline.value[HunchKey];
      (p == 0 <==> dev < HunchDevWarn) && (p == 30 <==> HunchDevBad <= dev)
  {
    if Relative(baseline) then Tiered(angle - baseline.value[HunchKey], HunchDevWarn, HunchDevBad, 15, 30)
    else Tiered(angle, HunchWarn, HunchBad, 15, 30)
  }

  /** The category names, in the order `compute` inserts them. */
  const CategoryNames: seq<string> := ["shoulder_tilt", "head_roll", "head_distance", "hunchback"]

  /** The `penalties` dictionary `compute` builds from the smoothed features. */
  function Penalize(f: FeatureMap, baseline: Option<FeatureMap>): (ps: seq<Penalty>)
    requires HasScoringKeys(f) && BaselineUsable(baseline)
    ensures |ps| == 4
    ensures forall i :: 0 <= i < 4 ==> ps[i].name == CategoryNames[i]
    ensures ps[0].points in {0, 10, 20} && ps[1].points in {0, 10, 20}
    ensures ps[2].points in {0, 10, 20} && ps[3].points in {0, 15, 30}
  {
    [ Penalty("shoulder_tilt", PenaltyFromTilt(f[TiltKey], baseline)),
      Penalty("head_roll", PenaltyFromRoll(f[RollKey], baseline)),
      Penalty("head_distance", PenaltyFromDistance(f[EyeDistKey], baseline)),
      Penalty("hunchback", PenaltyFromHunch(f[HunchKey], baseline)) ]
  }

  /** The dictionary `compute` returns. */
  datatype ScoreResult = ScoreResult(score: int, status: string, penalties: seq<Penalty>, features: FeatureMap)

  /** The penalty points of a result, in insertion order (`penalties.values()`). */
  function Points(ps: seq<Penalty>): (r: seq<int>)
    ensures |r| == |ps| && forall i :: 0 <= i < |ps| ==> r[i] == ps[i].points
  {
    if ps == [] then [] else [ps[0].points] + Points(ps[1..])
  }

  /**
   * The part of `compute` after smoothing: penalties, `max(0, 100 - total)`
   * and the status label.
   */
  function Evaluate(f: FeatureMap, baseline: Option<FeatureMap>): (r: ScoreResult)
    requires HasScoringKeys(f) && BaselineUsable(baseline)
    ensures r.features == f && r.penalties == Penalize(f, baseline)
    ensures r.score == 100 - Total(r.penalties)
    ensures 10 <= r.score <= 100
    ensures r.status == "Good" <==> forall i :: 0 <= i < 4 ==> r.penalties[i].points == 0
    ensures r.status != "Good" ==> r.status == Join(ActiveLabels(r.penalties), ", ")
    ensures forall i :: 0 <= i < 4 ==> (CategoryNames[i] in ActiveLabels(r.penalties) <==> r.penalties[i].points > 0)
  {
    var ps := Penalize(f, baseline);
    var total := Total(ps);
    TotalOfFour(ps);
    StatusGoodIff(ps);
    LabelsOfCategories(ps);
    ScoreResult(if 100 - total > 0 then 100 - total else 0, Status(ps), ps, f)
  }

  /** The four category names differ pairwise. */
  lemma CategoryNamesUnique()
    ensures forall i, j :: 0 <= i < j < 4 ==> CategoryNames[i] != CategoryNames[j]
  {
    var n0, n1, n2, n3 := CategoryNames[0], CategoryNames[1], CategoryNames[2], CategoryNames[3];
    assert n0[0] == 's' && n1[0] == 'h' && n2[0] == 'h' && n3[0] == 'h';
    assert n1[1] == 'e' && n2[1] == 'e' && n3[1] == 'u';
    assert n1[5] == 'r' && n2[5] == 'd';
    assert n0 != n1 && n0 != n2 && n0 != n3;
    assert n1 != n2 && n1 != n3 && n2 != n3;
  }

  /** Entries named after the four categories, in order, have distinct names. */
  lemma CategoryPenaltiesUnique(ps: seq<Penalty>)
    requires |ps| == 4 && forall i :: 0 <= i < 4 ==> ps[i].name == CategoryNames[i]
    ensures UniqueNames(ps)
  {
    CategoryNamesUnique();
  }

  /** With the four distinct category names, a name is listed iff its penalty is positive. */
  lemma LabelsOfCategories(ps: seq<Penalty>)
    requires |ps| == 4 && forall i :: 0 <= i < 4 ==> ps[i].name == CategoryNames[i]
    ensures forall i :: 0 <= i < 4 ==> (CategoryNames[i] in ActiveLabels(ps) <==> ps[i].points > 0)
  {
    CategoryPenaltiesUnique(ps);
    ActiveLabelsOfEntry(ps, 0);
    ActiveLabelsOfEntry(ps, 1);
    ActiveLabelsOfEntry(ps, 2);
    ActiveLabelsOfEntry(ps, 3);
  }

  /**
   * Relative mode, tilt and roll: only the size of the deviation from the
   * baseline matters, so leaning either way by the same amount costs the same.
   */
  lemma RelativeTiltRollSymmetric(b: FeatureMap, dev: real)
    requires HasScoringKeys(b)
    ensures PenaltyFromTilt(b[TiltKey] + dev, Some(b)) == PenaltyFromTilt(b[TiltKey] - dev, Some(b))
    ensures PenaltyFromRoll(b[RollKey] + dev, Some(b)) == PenaltyFromRoll(b[RollKey] - dev, Some(b))
  {
  }

  /**
   * Relative mode, distance and hunchback: the deviation is signed, so moving
   * away from the camera or straightening up past the baseline costs nothing.
   */
  lemma RelativeAtOrBelowBaselineFree(b: FeatureMap, dist: real, angle: real)
    requires HasScoringKeys(b)
    ensures dist <= b[EyeDistKey] ==> PenaltyFromDistance(dist, Some(b)) == 0
    ensures angle <= b[HunchKey] ==> PenaltyFromHunch(angle, Some(b)) == 0
  {
  }

  /** Absolute mode: every penalty is non-decreasing in its feature. */
  lemma AbsolutePenaltiesMonotone(baseline: Option<FeatureMap>, x: real, y: real)
    requires !Relative(baseline) && x <= y
    ensures PenaltyFromTilt(x, baseline) <= PenaltyFromTilt(y, baseline)
    ensures PenaltyFromRoll(x, baseline) <= PenaltyFromRoll(y, baseline)
    ensures PenaltyFromDistance(x, baseline) <= PenaltyFromDistance(y, baseline)
    ensures PenaltyFromHunch(x, baseline) <= PenaltyFromHunch(y, baseline)
  {
  }

  /** Sitting exactly as during calibration scores 100 with status "Good". */
  lemma AtBaselinePerfect(b: FeatureMap)
    requires HasScoringKeys(b)
    ensures Evaluate(b, Some(b)).score == 100
    ensures Evaluate(b, Some(b)).status == "Good"
  {
    assert TiltKey in b;
    assert Relative(Some(b));
    var ps := Evaluate(b, Some(b)).penalties;
    assert forall i :: 0 <= i < 4 ==> ps[i].points == 0;
    TotalOfFour(ps);
  }

  /** Every feature under its warning threshold: score 100, status "Good". */
  lemma AbsoluteAllClear(f: FeatureMap)
    requires HasScoringKeys(f)
    requires f[TiltKey] < ShoulderWarn && f[RollKey] < HeadRollWarn
    requires f[EyeDistKey] < DistWarn && f[HunchKey] < HunchWarn
    ensures Evaluate(f, None).score == 100 && Evaluate(f, None).status == "Good"
  {
    var ps := Evaluate(f, None).penalties;
    assert forall i :: 0 <= i < 4 ==> ps[i].points == 0;
    TotalOfFour(ps);
  }

  /**
   * Every feature at its bad threshold: 90 points lost and all four names
   * listed, in insertion order.
   */
  lemma AbsoluteAllBad(f: FeatureMap)
    requires HasScoringKeys(f)
    requires ShoulderBad <= f[TiltKey] && HeadRollBad <= f[RollKey]
    requires DistBad <= f[EyeDistKey] && HunchBad <= f[HunchKey]
    ensures Evaluate(f, None).score == 10
    ensures Evaluate(f, None).status == Join(CategoryNames, ", ")
  {
    var ps := Evaluate(f, None).penalties;
    TotalOfFour(ps);
    assert forall i :: 0 <= i < 4 ==> ps[i].points > 0;
    AllActive(ps);
    var labels := ActiveLabels(ps);
    assert forall i :: 0 <= i < 4 ==> labels[i] == CategoryNames[i];
    assert labels == CategoryNames;
  }

  /** When every entry has a positive penalty, every name is listed, in order. */
  lemma {:induction false} AllActive(ps: seq<Penalty>)
    requires forall i :: 0 <= i < |ps| ==> ps[i].points > 0
    ensures |ActiveLabels(ps)| == |ps|
    ensures forall i :: 0 <= i < |ps| ==> ActiveLabels(ps)[i] == ps[i].name
  {
    if ps != [] {
      AllActive(ps[1..]);
      assert ActiveLabels(ps) == [ps[0].name] + ActiveLabels(ps[1..]);
    }
  }

  /** The posture scorer: smoothing state and optional baseline. */
  class PostureScore {
    /** The previous smoothed vector (`self.history`). */
    var history: Option<FeatureMap>
    /** The calibrated neutral posture (`self.baseline`). */
    var baseline: Option<FeatureMap>

    constructor ()
      ensures history == None && baseline == None
    {
      history := None;
      baseline := None;
    }

    /** `set_baseline`: installs (or replaces) the baseline. */
    method SetBaseline(features: FeatureMap)
      modifies this
      ensures baseline == Some(features) && history == old(history)
    {
      baseline := Some(features);
    }

    /** `smooth_features`: returns the smoothed vector and stores it. */
    method SmoothFeatures(incoming: FeatureMap) returns (r: FeatureMap)
      modifies this
      ensures r == Smoothed(old(history), incoming)
      ensures history == Some(r) && baseline == old(baseline)
    {
      r := SmoothStep(history, incoming);
      history := Some(r);
    }

    /** `compute`: smooths the features, then scores the smoothed vector. */
    method Compute(features: FeatureMap) returns (r: ScoreResult)
      requires HasScoringKeys(features) && BaselineUsable(baseline)
      modifies this
      ensures r == Evaluate(Smoothed(old(history), features), old(baseline))
      ensures history == Some(r.features) && baseline == old(baseline)
    {
      var f := SmoothFeatures(features);
      r := Evaluate(f, baseline);
    }
  }
}
