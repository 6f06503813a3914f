/**
 * The per-year band of a terrorism index: the spread of the rolling values of one
 * year, and the table of 21 (threshold, level) pairs built from that year's score.
 */
module YearBand {
  import opened Wrappers

  /** The defined values of one year's rolling column; undefined ones are skipped. */
  function Defined(col: seq<Option<real>>): (d: seq<real>)
    ensures |d| <= |col|
    ensures forall i :: 0 <= i < |col| && col[i].Some? ==> col[i].value in d
    ensures forall x :: x in d ==> Some(x) in col
    ensures |d| == 0 <==> forall i :: 0 <= i < |col| ==> col[i].None?
  {
    if |col| == 0 then []
    else
      var rest := Defined(col[1..]);
      assert forall i :: 1 <= i < |col| ==> col[i] == col[1..][i - 1];
      match col[0]
      case None => rest
      case Some(x) => [x] + rest
  }

  /** The largest value, as pandas' `max` over one year. */
  function Max(xs: seq<real>): (m: real)
    requires |xs| > 0
    ensures m in xs
    ensures forall x :: x in xs ==> x <= m
  {
    if |xs| == 1 then xs[0]
    else
      var t := Max(xs[1..]);
      assert forall x :: x in xs ==> x == xs[0] || x in xs[1..];
      if xs[0] >= t then xs[0] else t
  }

  /** The smallest value, as pandas' `min` over one year. */
  function Min(xs: seq<real>): (m: real)
    requires |xs| > 0
    ensures m in xs
    ensures forall x :: x in xs ==> m <= x
  {
    if |xs| == 1 then xs[0]
    else
      var t := Min(xs[1..]);
      assert forall x :: x in xs ==> x == xs[0] || x in xs[1..];
      if xs[0] <= t then xs[0] else t
  }

  /**
   * `range_per_year`: twice the distance between the largest and the smallest value.
   * It is never negative, and it is zero exactly when all the values are equal.
   */
  function Spread(xs: seq<real>): (r: real)
    requires |xs| > 0
    ensures r >= 0.0
    ensures r == 0.0 <==> forall x, y :: x in xs && y in xs ==> x == y
  {
    2.0 * (Max(xs) - Min(xs))
  }

  /**
   * The spread of one year's rolling values, skipping undefined ones; undefined
   * exactly when no value of that year is defined.
   */
  function YearSpread(col: seq<Option<real>>): (r: Option<real>)
    ensures r.None? <==> forall i :: 0 <= i < |col| ==> col[i].None?
    ensures r.Some? ==> r.value >= 0.0
    ensures r.Some? && r.value == 0.0 <==>
              r.Some? && forall i, j :: 0 <= i < |col| && 0 <= j < |col| && col[i].Some? && col[j].Some? ==> col[i] == col[j]
  {
    var d := Defined(col);
    if |d| == 0 then None else Some(Spread(d))
  }

  /** `score ** k` for a whole exponent `k`. */
  function Pow(b: real, k: nat): real
  {
    if k == 0 then 1.0 else b * Pow(b, k - 1)
  }

  /** The root taken of the spread: `score_per_year = range_per_year ** (1/20)`. */
  const Root: nat := 20

  /** `score` is the non-negative `Root`-th root of `range`. */
  predicate IsRootOf(score: real, range: real)
  {
    score >= 0.0 && Pow(score, Root) == range
  }

  lemma {:induction false} PowNonNegative(b: real, k: nat)
    requires b >= 0.0
    ensures Pow(b, k) >= 0.0
  {
    if k > 0 {
      PowNonNegative(b, k - 1);
    }
  }

  /** For a base of at least one, powers grow with the exponent. */
  lemma {:induction false} PowAscending(b: real, i: nat, j: nat)
    requires b >= 1.0 && i <= j
    ensures 1.0 <= Pow(b, i) <= Pow(b, j)
  {
    if i < j {
      PowAscending(b, i, j - 1);
      var p := Pow(b, j - 1);
      assert Pow(b, j) == b * p;
      assert b * p - p == (b - 1.0) * p;
    } else if i > 0 {
      PowAscending(b, 0, i);
    }
  }

  /** For a base above one, powers grow strictly with the exponent. */
  lemma {:induction false} PowStrictlyAscending(b: real, i: nat, j: nat)
    requires b > 1.0 && i < j
    ensures Pow(b, i) < Pow(b, j)
  {
    PowAscending(b, i, j - 1);
    var p := Pow(b, j - 1);
    assert Pow(b, j) == b * p;
    assert b * p - p == (b - 1.0) * p;
  }

  /** For a base between zero and one, powers shrink as the exponent grows. */
  lemma {:induction false} PowDescending(b: real, i: nat, j: nat)
    requires 0.0 <= b <= 1.0 && i <= j
    ensures 0.0 <= Pow(b, j) <= Pow(b, i) <= 1.0
  {
    if i < j {
      PowDescending(b, i, j - 1);
      var p := Pow(b, j - 1);
      assert Pow(b, j) == b * p;
      assert p - b * p == (1.0 - b) * p;
      PowNonNegative(b, j);
    } else if i > 0 {
      PowDescending(b, 0, i);
    }
  }

  /** For a base below one, every positive power stays below one. */
  lemma {:induction false} PowBelowOne(b: real, k: nat)
    requires 0.0 <= b < 1.0 && k > 0
    ensures Pow(b, k) < 1.0
  {
    PowDescending(b, 1, k);
  }

  /** A power is zero exactly when the base is zero. */
  lemma {:induction false} PowZeroIff(b: real, k: nat)
    requires k > 0
    ensures Pow(b, k) == 0.0 <==> b == 0.0
  {
    if k > 1 {
      PowZeroIff(b, k - 1);
    }
  }

  /** A year whose spread is zero has score zero. */
  lemma RootOfZero(score: real)
    requires IsRootOf(score, 0.0)
    ensures score == 0.0
  {
    PowZeroIff(score, Root);
  }

  /** The score is below one exactly when the spread is below one. */
  lemma RootBelowOne(score: real, range: real)
    requires IsRootOf(score, range)
    ensures score < 1.0 <==> range < 1.0
  {
    if score < 1.0 {
      PowBelowOne(score, Root);
    } else {
      PowAscending(score, 0, Root);
    }
  }

  /** `bands`: the 21 pairs (exponent k, level k/2) for k = 0..20. */
  const Bands: seq<(nat, real)> := seq(21, k requires 0 <= k < 21 => (k as nat, k as real / 2.0))

  /**
   * `calc_scores` as a value: each band raised to the year's score, then entry 0
   * replaced by (0, 0).
   */
  function Thresholds(score: real): (ts: seq<(real, real)>)
    ensures |ts| == 21
    ensures ts[0] == (0.0, 0.0)
    ensures forall k :: 1 <= k < 21 ==> ts[k] == (Pow(score, k), k as real / 2.0)
  {
    var raised := seq(|Bands|, i requires 0 <= i < |Bands| => (Pow(score, Bands[i].0), Bands[i].1));
    raised[0 := (0.0, 0.0)]
  }

  /**
   * `calc_scores`: builds the list of raised bands one by one, then overwrites its
   * first entry.
   */
  method CalcScores(score: real) returns (tmp: seq<(real, real)>)
    ensures tmp == Thresholds(score)
  {
    tmp := [];
    var i := 0;
    while i < |Bands|
      invariant 0 <= i <= |Bands|
      invariant |tmp| == i
      invariant forall k :: 0 <= k < i ==> tmp[k] == (Pow(score, Bands[k].0), Bands[k].1)
    {
      tmp := tmp + [(Pow(score, Bands[i].0), Bands[i].1)];
      i := i + 1;
    }
    tmp := tmp[0 := (0.0, 0.0)];
  }

  /** The levels run 0, 0.5, ..., 10 in strictly increasing order. */
  lemma LevelsAscending(score: real)
    ensures forall k :: 0 <= k < 21 ==> Thresholds(score)[k].1 == k as real / 2.0
    ensures forall i, j :: 0 <= i < j < 21 ==> Thresholds(score)[i].1 < Thresholds(score)[j].1
  {
  }

  /** With a score of at least one the thresholds never decrease. */
  lemma ThresholdsAscending(score: real)
    requires score >= 1.0
    ensures forall i, j :: 0 <= i <= j < 21 ==> Thresholds(score)[i].0 <= Thresholds(score)[j].0
  {
    var ts := Thresholds(score);
    forall i, j | 0 <= i <= j < 21 ensures ts[i].0 <= ts[j].0 {
      PowAscending(score, i, j);
    }
  }

  /**
   * With a score below one the thresholds after the first never increase: the
   * bands are in the reverse of their intended order.
   */
  lemma ThresholdsDescending(score: real)
    requires 0.0 <= score <= 1.0
    ensures forall i, j :: 1 <= i <= j < 21 ==> Thresholds(score)[j].0 <= Thresholds(score)[i].0
  {
    var ts := Thresholds(score);
    forall i, j | 1 <= i <= j < 21 ensures ts[j].0 <= ts[i].0 {
      PowDescending(score, i, j);
    }
  }
}
