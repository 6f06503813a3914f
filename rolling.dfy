/**
 * The rolling weighted terrorism index of one country: a trailing window of five
 * yearly values, reduced by a dot product with fixed weights (oldest year first).
 */
module Rolling {
  import opened Wrappers

  /** The window weights, oldest year first; the most recent year weighs heaviest. */
  const Weights: seq<real> := [0.03, 0.06, 0.13, 0.26, 0.52]

  /** The window length of `rolling(5)`; pandas' default `min_periods` equals it. */
  const WindowSize: nat := 5

  function Sum(ws: seq<real>): real
  {
    if |ws| == 0 then 0.0 else ws[0] + Sum(ws[1..])
  }

  function Dot(xs: seq<real>, ws: seq<real>): real
    requires |xs| == |ws|
  {
    if |xs| == 0 then 0.0 else xs[0] * ws[0] + Dot(xs[1..], ws[1..])
  }

  /** A full window of defined values ends at position `i`. */
  predicate FullWindow(s: seq<Option<real>>, i: nat)
  {
    WindowSize - 1 <= i < |s| && forall k :: i + 1 - WindowSize <= k <= i ==> s[k].Some?
  }

  /** The values of the full window ending at position `i`, oldest first. */
  function Window(s: seq<Option<real>>, i: nat): seq<real>
    requires FullWindow(s, i)
  {
    seq(WindowSize, k requires 0 <= k < WindowSize => s[i + 1 - WindowSize + k].value)
  }

  /**
   * The value the rolling window gives at position `i` of one country's series:
   * undefined while fewer than five years are available, undefined when any value
   * in the window is undefined, and otherwise the weighted dot product.
   */
  function WindowAt(s: seq<Option<real>>, i: nat): Option<real>
    requires i < |s|
  {
    if FullWindow(s, i) then Some(Dot(Window(s, i), Weights)) else None
  }

  /**
   * `rolling_weight`: the rolling weighted index of one country's yearly series,
   * one entry per year, aligned with the input.
   */
  function RollingWeight(s: seq<Option<real>>): (r: seq<Option<real>>)
    ensures |r| == |s|
    ensures forall i :: 0 <= i < |s| ==> r[i] == WindowAt(s, i)
    ensures forall i :: 0 <= i < |s| && i < WindowSize - 1 ==> r[i] == None
  {
    if |s| == 0 then []
    else
      var front := s[..|s| - 1];
      var r := RollingWeight(front) + [WindowAt(s, |s| - 1)];
      assert forall i :: 0 <= i < |front| ==> WindowAt(front, i) == WindowAt(s, i) by {
        forall i | 0 <= i < |front| ensures WindowAt(front, i) == WindowAt(s, i) {
          if FullWindow(s, i) {
            assert Window(front, i) == Window(s, i);
          }
        }
      }
      r
  }

  /** The rolling value is defined exactly when a full window of defined values ends at `i`. */
  lemma RollingDefinedIff(s: seq<Option<real>>, i: nat)
    requires i < |s|
    ensures RollingWeight(s)[i].Some? <==>
              WindowSize - 1 <= i && forall k :: i + 1 - WindowSize <= k <= i ==> s[k].Some?
  {
  }

  /** The dot product with `Weights`, written out term by term. */
  lemma DotWeights(xs: seq<real>)
    requires |xs| == 5
    ensures Dot(xs, Weights) == 0.03 * xs[0] + 0.06 * xs[1] + 0.13 * xs[2] + 0.26 * xs[3] + 0.52 * xs[4]
  {
    assert Weights[1..] == [0.06, 0.13, 0.26, 0.52];
    assert Weights[2..] == [0.13, 0.26, 0.52];
    assert Weights[3..] == [0.26, 0.52];
    assert Weights[4..] == [0.52];
    assert Dot(xs[4..], Weights[4..]) == xs[4] * 0.52;
    assert Dot(xs[3..], Weights[3..]) == xs[3] * 0.26 + Dot(xs[4..], Weights[4..]);
    assert Dot(xs[2..], Weights[2..]) == xs[2] * 0.13 + Dot(xs[3..], Weights[3..]);
    assert Dot(xs[1..], Weights[1..]) == xs[1] * 0.06 + Dot(xs[2..], Weights[2..]);
  }

  /** The rolling value at a full window is the dot product of that window with the weights. */
  lemma RollingAtFullWindow(s: seq<Option<real>>, i: nat)
    requires FullWindow(s, i)
    ensures RollingWeight(s)[i] == Some(Dot(Window(s, i), Weights))
  {
  }

  /** A full window `[v0..v4]` yields `0.03*v0 + 0.06*v1 + 0.13*v2 + 0.26*v3 + 0.52*v4`. */
  lemma WindowFormula(s: seq<Option<real>>, i: nat)
    requires FullWindow(s, i)
    ensures RollingWeight(s)[i] == Some(0.03 * s[i - 4].value + 0.06 * s[i - 3].value
                                      + 0.13 * s[i - 2].value + 0.26 * s[i - 1].value
                                      + 0.52 * s[i].value)
  {
    var xs := Window(s, i);
    RollingAtFullWindow(s, i);
    DotWeights(xs);
    assert xs[0] == s[i - 4].value && xs[1] == s[i - 3].value && xs[2] == s[i - 2].value;
    assert xs[3] == s[i - 1].value && xs[4] == s[i].value;
  }

  /** The five weights sum to one, so the rolling value is a weighted average. */
  lemma WeightsSumToOne()
    ensures Sum(Weights) == 1.0
  {
  }

  /**
   * The rolling value of a full window lies between the smallest and the largest
   * value in it: it never leaves the range of the raw index.
   */
  lemma RollingWithinWindow(s: seq<Option<real>>, i: nat, lo: real, hi: real)
    requires WindowSize - 1 <= i < |s|
    requires forall k :: i + 1 - WindowSize <= k <= i ==> s[k].Some? && lo <= s[k].value <= hi
    ensures RollingWeight(s)[i].Some?
    ensures lo <= RollingWeight(s)[i].value <= hi
  {
    WindowFormula(s, i);
  }

  /** A window of equal values `v` yields `v`. */
  lemma ConstantWindow(s: seq<Option<real>>, i: nat, v: real)
    requires WindowSize - 1 <= i < |s|
    requires forall k :: i + 1 - WindowSize <= k <= i ==> s[k] == Some(v)
    ensures RollingWeight(s)[i] == Some(v)
  {
    RollingWithinWindow(s, i, v, v);
  }
}
