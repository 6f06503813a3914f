/**
 * `assign_class`: the severity class of one rolling value against its year's
 * threshold table, found by a first-match scan with a strict `<`.
 */
module Classify {
  import opened Wrappers
  import opened YearBand

  /** The class given to a value that passes every threshold. */
  const TopClass: real := 10.0

  /**
   * The position of the first threshold that `v` is strictly below, or `|ts|`
   * when `v` is at or above every threshold.
   */
  function FirstAbove(v: real, ts: seq<(real, real)>): (i: nat)
    ensures i <= |ts|
    ensures forall j :: 0 <= j < i ==> ts[j].0 <= v
    ensures i < |ts| ==> v < ts[i].0
  {
    if |ts| == 0 then 0
    else if v < ts[0].0 then 0
    else 1 + FirstAbove(v, ts[1..])
  }

  /** The class the scan settles on: 0 when undefined, else the first match's level, else 10. */
  function ClassOf(val: Option<real>, ts: seq<(real, real)>): real
  {
    match val
    case None => 0.0
    case Some(v) =>
      var i := FirstAbove(v, ts);
      if i < |ts| then ts[i].1 else TopClass
  }

  /**
   * `assign_class`: scans the thresholds in order and returns the level of the first
   * one the value is strictly below; 10 when none is; 0 for an undefined value.
   */
  method AssignClass(val: Option<real>, levels: seq<(real, real)>) returns (c: real)
    ensures val.None? ==> c == 0.0
    ensures c == ClassOf(val, levels)
  {
    if val.None? {
      return 0.0;
    }
    var v := val.value;
    var i := 0;
    while i < |levels|
      invariant 0 <= i <= |levels|
      invariant forall j :: 0 <= j < i ==> levels[j].0 <= v
    {
      var (th, lvl) := levels[i];
      if v < th {
        return lvl;
      }
      i := i + 1;
    }
    return TopClass;
  }

  /** A class is one of 0, 0.5, ..., 10. */
  predicate IsHalfStep(c: real)
  {
    0.0 <= c <= 10.0 && (2.0 * c).Floor as real == 2.0 * c
  }

  /** Against a year's table the class is half the first matching position, capped at 10. */
  lemma ClassByPosition(v: real, score: real)
    ensures var i := FirstAbove(v, Thresholds(score));
            ClassOf(Some(v), Thresholds(score)) == (if i < 20 then i else 20) as real / 2.0
  {
  }

  /** Every class drawn from a year's table is one of the band levels 0, 0.5, ..., 10. */
  lemma ClassIsHalfStep(val: Option<real>, score: real)
    ensures IsHalfStep(ClassOf(val, Thresholds(score)))
  {
  }

  /**
   * Because entry 0 is (0, 0) and the test is strict, class 0 is given exactly to
   * undefined values and to negative ones.
   */
  lemma ClassZeroIff(val: Option<real>, score: real)
    ensures ClassOf(val, Thresholds(score)) == 0.0 <==> val.None? || val.value < 0.0
  {
  }

  /** A larger value never gets a smaller class, whatever the year's score. */
  lemma ClassMonotone(v: real, w: real, score: real)
    requires v <= w
    ensures ClassOf(Some(v), Thresholds(score)) <= ClassOf(Some(w), Thresholds(score))
  {
  }

  /**
   * With a score of at least one the bands are in order: a value in
   * [threshold k, threshold k+1) gets level (k+1)/2.
   */
  lemma ClassInBand(v: real, score: real, k: nat)
    requires score >= 1.0 && k < 20
    requires Thresholds(score)[k].0 <= v < Thresholds(score)[k + 1].0
    ensures ClassOf(Some(v), Thresholds(score)) == (k + 1) as real / 2.0
  {
    var ts := Thresholds(score);
    ThresholdsAscending(score);
    assert forall j :: 0 <= j <= k ==> ts[j].0 <= v;
    ClassByPosition(v, score);
  }

  /**
   * A value equal to a threshold does not take that threshold's level: with a
   * score above one it takes the next level up.
   */
  lemma ClassAtThreshold(score: real, k: nat)
    requires score > 1.0 && k < 20
    ensures ClassOf(Some(Thresholds(score)[k].0), Thresholds(score)) == (k + 1) as real / 2.0
    ensures ClassOf(Some(Thresholds(score)[k].0), Thresholds(score)) != Thresholds(score)[k].1
  {
    var ts := Thresholds(score);
    if k == 0 {
      PowAscending(score, 0, 1);
    } else {
      PowStrictlyAscending(score, k, k + 1);
    }
    ClassInBand(ts[k].0, score, k);
  }

  /**
   * At the top of the table the strict test has no next level: with a score of at
   * least one, a value equal to the last threshold passes every threshold and gets
   * 10, which is also the last threshold's own level.
   */
  lemma ClassAtTopThreshold(score: real)
    requires score >= 1.0
    ensures ClassOf(Some(Thresholds(score)[20].0), Thresholds(score)) == TopClass
    ensures ClassOf(Some(Thresholds(score)[20].0), Thresholds(score)) == Thresholds(score)[20].1
  {
    var ts := Thresholds(score);
    ThresholdsAscending(score);
    assert forall j :: 0 <= j < 21 ==> ts[j].0 <= ts[20].0;
    ClassByPosition(ts[20].0, score);
  }

  /**
   * With a score of at most one (a spread of at most one) only three classes occur:
   * 0 below zero, 0.5 below the score, and 10 from the score upwards.
   */
  lemma LowScoreClasses(v: real, score: real)
    requires 0.0 <= score <= 1.0
    ensures ClassOf(Some(v), Thresholds(score)) ==
              if v < 0.0 then 0.0 else if v < score then 0.5 else TopClass
  {
    var ts := Thresholds(score);
    ThresholdsDescending(score);
    ClassByPosition(v, score);
    assert ts[1].0 == Pow(score, 1) == score;
    assert forall j :: 1 <= j < 21 ==> ts[j].0 <= ts[1].0;
  }
}
