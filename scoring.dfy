/**
 * The scoring pass over the whole terrorism table: the rolling index per country,
 * the threshold table per year, and for each country-year the absolute terrorism
 * score and its impact label. The table is a grid of countries (rows) by years
 * (columns); the score of each year is given.
 */
module Scoring {
  import opened Wrappers
  import opened Rolling
  import opened YearBand
  import opened Classify
  import opened Labels

  /** The two columns written for each country-year. */
  datatype Scored = Scored(score: real, impact: Impact)

  predicate Rectangular<T>(grid: seq<seq<T>>, years: nat)
  {
    forall c :: 0 <= c < |grid| ==> |grid[c]| == years
  }

  /**
   * One country-year: `absolute_terrorism_score` from the year's thresholds and
   * `absolute_terrorism_impact` from that score.
   */
  function ScoreCell(rolled: Option<real>, score: real): (r: Scored)
    ensures IsHalfStep(r.score)
    ensures r.impact == ImpactOf(r.score)
    ensures rolled.None? ==> r == Scored(0.0, NoImpact)
    ensures r.score == 0.0 <==> rolled.None? || rolled.value < 0.0
    ensures r.impact == NoImpact <==> rolled.None? || rolled.value < 0.0
  {
    var ts := Thresholds(score);
    ClassIsHalfStep(rolled, score);
    ClassZeroIff(rolled, score);
    var c := ClassOf(rolled, ts);
    Scored(c, ImpactOf(c))
  }

  /** The rolling values of every country in year `j`. */
  function RolledColumn(index: seq<seq<Option<real>>>, j: nat): (col: seq<Option<real>>)
    requires forall c :: 0 <= c < |index| ==> j < |index[c]|
    ensures |col| == |index|
  {
    seq(|index|, c requires 0 <= c < |index| => RollingWeight(index[c])[j])
  }

  /**
   * The module-level scoring pass: for each country its rolling index, and for each
   * year the thresholds of that year's score applied to every country's value.
   */
  function ScoreTable(index: seq<seq<Option<real>>>, yearScore: seq<real>): (t: seq<seq<Scored>>)
    requires Rectangular(index, |yearScore|)
    ensures |t| == |index| && Rectangular(t, |yearScore|)
    ensures forall c, j :: 0 <= c < |t| && 0 <= j < |yearScore| && j < WindowSize - 1 ==>
              t[c][j] == Scored(0.0, NoImpact)
    ensures forall c, j :: 0 <= c < |t| && 0 <= j < |yearScore| ==>
              IsHalfStep(t[c][j].score) && t[c][j].impact == ImpactOf(t[c][j].score)
  {
    seq(|index|, c requires 0 <= c < |index| =>
      var rolled := RollingWeight(index[c]);
      seq(|yearScore|, j requires 0 <= j < |yearScore| => ScoreCell(rolled[j], yearScore[j])))
  }

  /**
   * Within one year, a country with a larger rolling value never gets a lower
   * score or a lower impact tier than another.
   */
  lemma ScoreTableMonotone(index: seq<seq<Option<real>>>, yearScore: seq<real>, c: nat, d: nat, j: nat)
    requires Rectangular(index, |yearScore|)
    requires c < |index| && d < |index| && j < |yearScore|
    requires RollingWeight(index[c])[j].Some? && RollingWeight(index[d])[j].Some?
    requires RollingWeight(index[c])[j].value <= RollingWeight(index[d])[j].value
    ensures ScoreTable(index, yearScore)[c][j].score <= ScoreTable(index, yearScore)[d][j].score
    ensures ScoreTable(index, yearScore)[c][j].impact.Rank() <= ScoreTable(index, yearScore)[d][j].impact.Rank()
  {
  }

  /**
   * A country-year without a full window of defined raw values scores 0 with no
   * impact: in particular every country with fewer than five years of history.
   */
  lemma ShortHistoryScoresZero(index: seq<seq<Option<real>>>, yearScore: seq<real>, c: nat, j: nat)
    requires Rectangular(index, |yearScore|)
    requires c < |index| && j < |yearScore|
    requires !FullWindow(index[c], j)
    ensures ScoreTable(index, yearScore)[c][j] == Scored(0.0, NoImpact)
  {
  }

  /** In one year's column of rolling values, equal defined values score 10 when non-negative. */
  lemma UniformColumnScoresTop(col: seq<Option<real>>, spread: real, score: real, k: nat)
    requires k < |col| && col[k].Some? && col[k].value >= 0.0
    requires forall i :: 0 <= i < |col| && col[i].Some? ==> col[i] == col[k]
    requires YearSpread(col) == Some(spread) && IsRootOf(score, spread)
    ensures ScoreCell(col[k], score) == Scored(TopClass, VeryHigh)
  {
    assert spread == 0.0;
    RootOfZero(score);
    LowScoreClasses(col[k].value, 0.0);
  }

  /**
   * A year whose defined rolling values are all equal has spread 0, hence score 0,
   * hence thresholds that are all 0: each of its non-negative defined values falls
   * through to class 10, `very_high`.
   */
  lemma UniformYearScoresTop(index: seq<seq<Option<real>>>, yearScore: seq<real>, spread: real, c: nat, j: nat)
    requires Rectangular(index, |yearScore|)
    requires c < |index| && j < |yearScore|
    requires RollingWeight(index[c])[j].Some? && RollingWeight(index[c])[j].value >= 0.0
    requires forall d :: 0 <= d < |index| && RollingWeight(index[d])[j].Some? ==>
               RollingWeight(index[d])[j] == RollingWeight(index[c])[j]
    requires YearSpread(RolledColumn(index, j)) == Some(spread) && IsRootOf(yearScore[j], spread)
    ensures ScoreTable(index, yearScore)[c][j] == Scored(TopClass, VeryHigh)
  {
    var col := RolledColumn(index, j);
    UniformColumnScoresTop(col, spread, yearScore[j], c);
  }
}
