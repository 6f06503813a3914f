/**
 * The qualitative labels: the impact tier of a class score, the regime type of a
 * polity score and the fragmentation category of a fragmentation code.
 */
module Labels {
  import opened Wrappers

  /** The six impact tiers of `calc_abs_impact_level_new`, lowest first. */
  datatype Impact = NoImpact | VeryLow | Low | Medium | High | VeryHigh
  {
    function Label(): string
    {
      match this
      case NoImpact => "no_impact"
      case VeryLow => "very_low"
      case Low => "low"
      case Medium => "medium"
      case High => "high"
      case VeryHigh => "very_high"
    }

    /** Position of the tier from `no_impact` (0) to `very_high` (5). */
    function Rank(): nat
    {
      match this
      case NoImpact => 0
      case VeryLow => 1
      case Low => 2
      case Medium => 3
      case High => 4
      case VeryHigh => 5
    }
  }

  /**
   * `calc_abs_impact_level_new`: the tier of a class score. Each tier is a
   * half-open interval of scores; zero and below have no impact.
   */
  function ImpactOf(x: real): (r: Impact)
    ensures r == NoImpact <==> x <= 0.0
    ensures r == VeryLow <==> 0.0 < x < 2.0
    ensures r == Low <==> 2.0 <= x < 4.0
    ensures r == Medium <==> 4.0 <= x < 6.0
    ensures r == High <==> 6.0 <= x < 8.0
    ensures r == VeryHigh <==> 8.0 <= x
  {
    if x >= 8.0 then VeryHigh
    else if x >= 6.0 then High
    else if x >= 4.0 then Medium
    else if x >= 2.0 then Low
    else if x > 0.0 then VeryLow
    else NoImpact
  }

  /** A higher score never gets a lower tier. */
  lemma ImpactMonotone(x: real, y: real)
    requires x <= y
    ensures ImpactOf(x).Rank() <= ImpactOf(y).Rank()
  {
  }

  /** The six labels are distinct strings, so no two tiers are confused downstream. */
  lemma ImpactLabelsDistinct(a: Impact, b: Impact)
    requires a != b
    ensures a.Label() != b.Label()
  {
  }

  /**
   * The regime types of `categorical_govern`, in the order of the ordered category
   * list the loader declares: Democracy, Anocracy, Autocracy, Transitioning.
   */
  datatype Regime = Democracy | Anocracy | Autocracy | Transitioning
  {
    function Label(): string
    {
      match this
      case Democracy => "Democracy"
      case Anocracy => "Anocracy"
      case Autocracy => "Autocracy"
      case Transitioning => "Transitioning"
    }

    function Rank(): nat
    {
      match this
      case Democracy => 0
      case Anocracy => 1
      case Autocracy => 2
      case Transitioning => 3
    }
  }

  /**
   * `categorical_govern`: the regime type of a polity score. An undefined score
   * fails every comparison and so is `Transitioning`, like the scores below -10
   * and those strictly between -6 and -5.
   */
  function GovernType(polity: Option<real>): (r: Regime)
    ensures r == Autocracy <==> polity.Some? && -10.0 <= polity.value <= -6.0
    ensures r == Anocracy <==> polity.Some? && -5.0 <= polity.value <= 5.0
    ensures r == Democracy <==> polity.Some? && polity.value > 5.0
    ensures r == Transitioning <==>
              polity.None? || polity.value < -10.0 || -6.0 < polity.value < -5.0
  {
    match polity
    case None => Transitioning
    case Some(p) =>
      if -6.0 >= p >= -10.0 then Autocracy
      else if 5.0 >= p >= -5.0 then Anocracy
      else if p > 5.0 then Democracy
      else Transitioning
  }

  /** Every whole polity score from -10 upwards is given a regime, never `Transitioning`. */
  lemma WholePolityHasRegime(p: int)
    requires p >= -10
    ensures GovernType(Some(p as real)) != Transitioning
  {
  }

  /**
   * Over whole scores from -10 upwards, a higher polity score never moves down the
   * category order: the more democratic, the earlier the category.
   */
  lemma GovernOrder(p: int, q: int)
    requires -10 <= p <= q
    ensures GovernType(Some(q as real)).Rank() <= GovernType(Some(p as real)).Rank()
  {
  }

  /**
   * The fragmentation categories of `categorical_fragment`, in the order of the
   * ordered category list the loader declares.
   */
  datatype Fragmentation = NoFragmentation | Slight | Moderate | Serious
  {
    function Label(): string
    {
      match this
      case NoFragmentation => "No Fragmentation (0%)"
      case Slight => "Slight Fragmentation (<10%)"
      case Moderate => "Moderate Fragmentation (10-25%)"
      case Serious => "Serious Fragmentation (25-50%)"
    }

    function Rank(): nat
    {
      match this
      case NoFragmentation => 0
      case Slight => 1
      case Moderate => 2
      case Serious => 3
    }
  }

  /**
   * `categorical_fragment`: codes 1, 2 and 3 name their categories; every other
   * code, and an undefined one, is `No Fragmentation (0%)`.
   */
  function FragmentType(fragment: Option<real>): (r: Fragmentation)
    ensures r == Slight <==> fragment == Some(1.0)
    ensures r == Moderate <==> fragment == Some(2.0)
    ensures r == Serious <==> fragment == Some(3.0)
    ensures r == NoFragmentation <==> fragment !in {Some(1.0), Some(2.0), Some(3.0)}
  {
    match fragment
    case None => NoFragmentation
    case Some(f) =>
      if f == 1.0 then Slight
      else if f == 2.0 then Moderate
      else if f == 3.0 then Serious
      else NoFragmentation
  }

  /** For the codes 0 to 3 the category's position in the ordered list is the code itself. */
  lemma FragmentRankIsCode(f: int)
    requires 0 <= f <= 3
    ensures FragmentType(Some(f as real)).Rank() == f
  {
  }
}
