/** The settings the signal generator reads, with their defaults (src/config/mod.rs). */
module Config {

  datatype CategoryWeights = CategoryWeights(momentum: real, trend: real, volatility: real, volume: real, perp: real)

  datatype Config = Config(
    defaultSlPct: real,
    defaultTpPct: real,
    rsiOverbought: real,
    rsiOversold: real,
    minConfidence: real,
    macdScale: real,
    histScale: real,
    categoryWeights: CategoryWeights)

  /** The default weights: momentum 0.25, trend 0.30, and 0.15 for each of the other three. */
  function DefaultCategoryWeights(): (w: CategoryWeights)
    ensures w.momentum + w.trend + w.volatility + w.volume + w.perp == 1.0
  {
    CategoryWeights(0.25, 0.30, 0.15, 0.15, 0.15)
  }

  /** The default settings: 2% stop loss, 4% take profit, MACD scale 50 and histogram scale 25. */
  function DefaultConfig(): (c: Config)
    ensures c.macdScale > 0.0 && c.histScale > 0.0
    ensures c.defaultSlPct < c.defaultTpPct
    ensures c.categoryWeights == DefaultCategoryWeights()
  {
    Config(0.02, 0.04, 70.0, 30.0, 0.5, 50.0, 25.0, DefaultCategoryWeights())
  }

  /** Settings from their seven scalars; the category weights take their defaults. */
  function NewConfig(defaultSlPct: real, defaultTpPct: real, rsiOverbought: real, rsiOversold: real,
                     minConfidence: real, macdScale: real, histScale: real): (c: Config)
    ensures c.categoryWeights == DefaultCategoryWeights()
    ensures c.(categoryWeights := DefaultCategoryWeights()) == c
    ensures c.defaultSlPct == defaultSlPct && c.defaultTpPct == defaultTpPct
    ensures c.rsiOverbought == rsiOverbought && c.rsiOversold == rsiOversold && c.minConfidence == minConfidence
    ensures c.macdScale == macdScale && c.histScale == histScale
  {
    Config(defaultSlPct, defaultTpPct, rsiOverbought, rsiOversold, minConfidence, macdScale, histScale, DefaultCategoryWeights())
  }
}
