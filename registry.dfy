/** The indicator categories and their weights (src/indicators/registry.rs). */
module Registry {
  import Config

  datatype IndicatorCategory = Momentum | Trend | Volatility | Volume | Perp

  /** The share of a category in a combined score. */
  function CategoryWeight(category: IndicatorCategory): (r: real)
    ensures 0.0 < r < 1.0
  {
    match category
    case Momentum => 0.25
    case Trend => 0.30
    case Volatility => 0.15
    case Volume => 0.15
    case Perp => 0.15
  }

  /** The categories, in declaration order. */
  function AllCategories(): (r: seq<IndicatorCategory>)
    ensures |r| == 5
    ensures forall i, j :: 0 <= i < j < |r| ==> r[i] != r[j]
  {
    [Momentum, Trend, Volatility, Volume, Perp]
  }

  /** The weights of a list of categories, added up. */
  function WeightSum(categories: seq<IndicatorCategory>): (r: real)
    ensures r >= 0.0
    ensures |categories| > 0 ==> r > 0.0
  {
    if |categories| == 0 then 0.0
    else WeightSum(categories[..|categories| - 1]) + CategoryWeight(categories[|categories| - 1])
  }

  /** The weights of all categories add up to one. */
  lemma WeightsSumToOne()
    ensures WeightSum(AllCategories()) == 1.0
  {
    var all := AllCategories();
    assert all[..1] == [Momentum] && WeightSum(all[..1]) == 0.25;
    assert all[..2][..1] == all[..1] && WeightSum(all[..2]) == 0.55;
    assert all[..3][..2] == all[..2] && WeightSum(all[..3]) == 0.70;
    assert all[..4][..3] == all[..3] && WeightSum(all[..4]) == 0.85;
    assert all[..4] == all[..|all| - 1];
  }

  /** Every category is listed. */
  lemma EveryCategoryListed(c: IndicatorCategory)
    ensures c in AllCategories()
  {
    var all := AllCategories();
    match c
    case Momentum => assert all[0] == c;
    case Trend => assert all[1] == c;
    case Volatility => assert all[2] == c;
    case Volume => assert all[3] == c;
    case Perp => assert all[4] == c;
  }

  /** Trend weighs most, then momentum; the other three weigh the same. */
  lemma WeightOrder(c: IndicatorCategory)
    ensures CategoryWeight(c) <= CategoryWeight(Trend)
    ensures c != Trend ==> CategoryWeight(c) <= CategoryWeight(Momentum)
    ensures c != Trend && c != Momentum ==> CategoryWeight(c) == 0.15
  {
  }

  /** The registry's weights are the default category weights of the configuration. */
  lemma WeightsMatchConfigDefaults()
    ensures var w := Config.DefaultCategoryWeights();
      && CategoryWeight(Momentum) == w.momentum && CategoryWeight(Trend) == w.trend
      && CategoryWeight(Volatility) == w.volatility && CategoryWeight(Volume) == w.volume
      && CategoryWeight(Perp) == w.perp
  {
  }
}
