/**
 * The exponential moving average both posture scorers apply to feature
 * vectors before scoring them (`smooth_features` in Codes/posture_score.py
 * and in posture_score.py, which are the same code).
 */
module Smoothing {
  import opened Common

  /** A feature vector: feature name to measurement, as the Python dicts. */
  type FeatureMap = map<string, real>

  /** One key's blend, `ALPHA * v + (1.0 - ALPHA) * prev` with `ALPHA = 0.4`. */
  function Blend(v: real, prev: real): (r: real)
    ensures MinReal(v, prev) <= r <= MaxReal(v, prev)
    ensures r - prev == 0.4 * (v - prev)
    ensures r == prev <==> v == prev
  {
    0.4 * v + (1.0 - 0.4) * prev
  }

  /**
   * The vector `smooth_features` returns given the stored history: the input
   * itself on the first call, otherwise each key of the input blended with the
   * stored value, a key missing from the history counting as the new value.
   */
  function Smoothed(prev: Option<FeatureMap>, incoming: FeatureMap): (r: FeatureMap)
    ensures r.Keys == incoming.Keys
    ensures prev.None? ==> r == incoming
    ensures prev.Some? ==> forall k :: k in incoming ==>
      r[k] == Blend(incoming[k], if k in prev.value then prev.value[k] else incoming[k])
    ensures prev.Some? ==> forall k :: k in incoming && k !in prev.value ==> r[k] == incoming[k]
  {
    match prev
    case None => incoming
    case Some(h) => map k | k in incoming :: Blend(incoming[k], if k in h then h[k] else incoming[k])
  }

  /**
   * The loop of `smooth_features`: walks the keys of the incoming vector and
   * builds the smoothed dictionary one key at a time.
   */
  method SmoothStep(prev: Option<FeatureMap>, incoming: FeatureMap) returns (r: FeatureMap)
    ensures r == Smoothed(prev, incoming)
  {
    if prev.None? {
      return incoming;
    }
    var h := prev.value;
    var smoothed: FeatureMap := map[];
    var todo := incoming.Keys;
    while todo != {}
      invariant todo <= incoming.Keys
      invariant smoothed.Keys == incoming.Keys - todo
      invariant forall k :: k in smoothed ==>
        smoothed[k] == Blend(incoming[k], if k in h then h[k] else incoming[k])
      decreases |todo|
    {
      var k :| k in todo;
      var v := incoming[k];
      var before := if k in h then h[k] else v;
      smoothed := smoothed[k := Blend(v, before)];
      todo := todo - {k};
    }
    return smoothed;
  }

  /** Each smoothed value lies between the stored value and the new reading. */
  lemma SmoothedBetween(h: FeatureMap, incoming: FeatureMap, k: string)
    requires k in incoming && k in h
    ensures MinReal(h[k], incoming[k]) <= Smoothed(Some(h), incoming)[k] <= MaxReal(h[k], incoming[k])
  {
  }

  /** Feeding the stored vector again returns it unchanged: a fixed point. */
  lemma SmoothedFixedPoint(h: FeatureMap)
    ensures Smoothed(Some(h), h) == h
  {
    var r := Smoothed(Some(h), h);
    assert forall k :: k in h ==> r[k] == h[k];
  }

  /**
   * What is left of an initial deviation `d` after `n` blends towards a
   * constant: `0.6^n * d`, written one factor of `0.6` per call.
   */
  function Remaining(d: real, n: nat): real
  {
    if n == 0 then d else 0.6 * Remaining(d, n - 1)
  }

  /** The stored history after `n` further calls with the same vector `c`. */
  function Fed(h: FeatureMap, c: FeatureMap, n: nat): (r: FeatureMap)
    ensures n > 0 ==> r.Keys == c.Keys
  {
    if n == 0 then h else Smoothed(Some(Fed(h, c, n - 1)), c)
  }

  /**
   * Feeding a constant vector converges geometrically: after `n` calls the
   * distance of each key from the constant is `0.6^n` times the initial one.
   */
  lemma {:induction false} ConstantInputConverges(h: FeatureMap, c: FeatureMap, n: nat, k: string)
    requires k in h && k in c
    ensures k in Fed(h, c, n)
    ensures Fed(h, c, n)[k] - c[k] == Remaining(h[k] - c[k], n)
  {
    if n > 0 {
      ConstantInputConverges(h, c, n - 1, k);
      var x := FedStep(h, c, n, k);
    }
  }

  /** One more call with `c` blends each key of `c` with the stored value. */
  lemma FedStep(h: FeatureMap, c: FeatureMap, n: nat, k: string) returns (x: real)
    requires n > 0 && k in c && k in Fed(h, c, n - 1)
    ensures k in Fed(h, c, n) && x == Fed(h, c, n)[k]
    ensures x - c[k] == 0.6 * (Fed(h, c, n - 1)[k] - c[k])
  {
    x := Fed(h, c, n)[k];
  }

  /** The remaining deviation keeps its sign and never grows. */
  lemma {:induction false} RemainingShrinks(d: real, n: nat)
    ensures 0.0 <= d ==> 0.0 <= Remaining(d, n) <= d
    ensures d <= 0.0 ==> d <= Remaining(d, n) <= 0.0
    ensures n > 0 && d != 0.0 ==> Abs(Remaining(d, n)) < Abs(d)
  {
    if n > 0 {
      RemainingShrinks(d, n - 1);
    }
  }

  /** Corollary: the distance to the constant never grows while it is fed. */
  lemma ConstantInputApproaches(h: FeatureMap, c: FeatureMap, n: nat, k: string)
    requires k in h && k in c
    ensures k in Fed(h, c, n)
    ensures Abs(Fed(h, c, n)[k] - c[k]) <= Abs(h[k] - c[k])
    ensures n > 0 && h[k] != c[k] ==> Abs(Fed(h, c, n)[k] - c[k]) < Abs(h[k] - c[k])
  {
    ConstantInputConverges(h, c, n, k);
    RemainingShrinks(h[k] - c[k], n);
  }
}
