/** The strategy selector of internal/strategy/ai.go: equal base weights for
    the four strategies, additive adjustments for each dimension of the
    market regime, normalisation by the total, and the choice of the
    heaviest strategy per symbol.

    Go keys the weights by the strategies' identifier strings; here they are
    keyed by `StrategyType`, whose `Name()` is that string. */
module StrategySelection {
  import opened Outcomes
  import opened MarketIndicators
  import opened MarketAnalysis
  import opened Strategy

  type Weights = map<StrategyType, real>

  const AllStrategies: set<StrategyType> := {MarketMaking, Momentum, MeanReversion, VolatilityBreakout}

  /** The four strategies in the order the weights are written. */
  const StrategyOrder: seq<StrategyType> := [MarketMaking, Momentum, MeanReversion, VolatilityBreakout]

  // ---------------------------------------------------------------------------
  // The delta table

  /** The adjustment for the volatility dimension. */
  function VolatilityDelta(volatility: string, s: StrategyType): real {
    if volatility == "high_volatility" then
      match s
      case VolatilityBreakout => 0.3
      case MarketMaking => -0.1
      case Momentum => 0.1
      case MeanReversion => -0.3
    else if volatility == "low_volatility" then
      match s
      case MeanReversion => 0.3
      case MarketMaking => 0.1
      case Momentum => -0.1
      case VolatilityBreakout => -0.3
    else 0.0
  }

  /** The adjustment for the trend dimension. */
  function TrendDelta(trend: string, s: StrategyType): real {
    if trend == "trending_up" || trend == "trending_down" then
      match s
      case Momentum => 0.4
      case MarketMaking => -0.2
      case MeanReversion => -0.2
      case VolatilityBreakout => 0.0
    else if trend == "ranging" then
      match s
      case MeanReversion => 0.4
      case MarketMaking => 0.1
      case Momentum => -0.3
      case VolatilityBreakout => -0.2
    else 0.0
  }

  /** The adjustment for the volume dimension. */
  function VolumeDelta(volume: string, s: StrategyType): real {
    if volume == "high_volume" then
      match s
      case Momentum => 0.2
      case VolatilityBreakout => 0.2
      case MarketMaking => -0.2
      case MeanReversion => -0.2
    else if volume == "low_volume" then
      match s
      case MarketMaking => 0.3
      case MeanReversion => 0.1
      case Momentum => -0.2
      case VolatilityBreakout => -0.2
    else 0.0
  }

  /** The weights before normalisation: 0.25 plus the three adjustments. */
  function Raw(regime: MarketRegime): (w: Weights)
    ensures w.Keys == AllStrategies
  {
    map s | s in AllStrategies ::
      0.25 + VolatilityDelta(regime.volatility, s) + TrendDelta(regime.trend, s) + VolumeDelta(regime.volume, s)
  }

  function Total(w: Weights): real
    requires AllStrategies <= w.Keys
  {
    w[MarketMaking] + w[Momentum] + w[MeanReversion] + w[VolatilityBreakout]
  }

  /** Division by the total, applied only when the total is positive. */
  function Normalize(w: Weights): (n: Weights)
    requires AllStrategies <= w.Keys
    ensures n.Keys == w.Keys
    ensures Total(w) > 0.0 ==> forall s :: s in n ==> n[s] == w[s] / Total(w)
    ensures Total(w) <= 0.0 ==> n == w
  {
    if Total(w) > 0.0 then map s | s in w :: w[s] / Total(w) else w
  }

  /** Every regime dimension's four adjustments cancel out, so the raw total is
      exactly 1. */
  lemma RawTotalIsOne(regime: MarketRegime)
    ensures Total(Raw(regime)) == 1.0
  {
    var w := Raw(regime);
    var v := regime.volatility;
    var t := regime.trend;
    var u := regime.volume;
    assert VolatilityDelta(v, MarketMaking) + VolatilityDelta(v, Momentum) + VolatilityDelta(v, MeanReversion)
           + VolatilityDelta(v, VolatilityBreakout) == 0.0;
    assert TrendDelta(t, MarketMaking) + TrendDelta(t, Momentum) + TrendDelta(t, MeanReversion)
           + TrendDelta(t, VolatilityBreakout) == 0.0;
    assert VolumeDelta(u, MarketMaking) + VolumeDelta(u, Momentum) + VolumeDelta(u, MeanReversion)
           + VolumeDelta(u, VolatilityBreakout) == 0.0;
  }

  /** Hence normalisation leaves the raw weights as they are. */
  lemma NormalizationIsIdentity(regime: MarketRegime)
    ensures Normalize(Raw(regime)) == Raw(regime)
  {
    RawTotalIsOne(regime);
    var w := Raw(regime);
    forall s | s in w
      ensures Normalize(w)[s] == w[s]
    {
    }
  }

  /** Weights with a positive total sum to 1 after normalisation. */
  lemma NormalizedSumsToOne(w: Weights)
    requires AllStrategies <= w.Keys && Total(w) > 0.0
    ensures Total(Normalize(w)) == 1.0
  {
    var t := Total(w);
    var n := Normalize(w);
    var a, b, c, d := w[MarketMaking], w[Momentum], w[MeanReversion], w[VolatilityBreakout];
    assert n[MarketMaking] == a / t && n[Momentum] == b / t;
    assert n[MeanReversion] == c / t && n[VolatilityBreakout] == d / t;
    assert a / t + b / t == (a + b) / t;
    assert (a + b) / t + c / t == (a + b + c) / t;
    assert (a + b + c) / t + d / t == t / t;
    assert Total(n) == t / t;
    assert t / t == 1.0;
  }

  /** Regime strings that match no case leave every weight at 0.25, the
      "medium_volatility" and "normal_volume" strings the analyzer produces
      among them. */
  lemma UnmatchedRegimeKeepsBaseWeights(regime: MarketRegime)
    requires regime.volatility != "high_volatility" && regime.volatility != "low_volatility"
    requires regime.trend != "trending_up" && regime.trend != "trending_down" && regime.trend != "ranging"
    requires regime.volume != "high_volume" && regime.volume != "low_volume"
    ensures forall s :: s in Raw(regime) ==> Raw(regime)[s] == 0.25
  {
  }

  /** Weights are not floored at 0: a quiet ranging market gives the
      volatility breakout a weight of -0.45. */
  lemma WeightsCanBeNegative()
    ensures Raw(MarketRegime("low_volatility", "ranging", "low_volume"))[VolatilityBreakout] == -0.45
  {
  }

  /** Since the weights sum to 1, one of them is always positive. */
  lemma SomeWeightPositive(regime: MarketRegime)
    ensures exists s :: s in Raw(regime) && Raw(regime)[s] > 0.0
  {
    RawTotalIsOne(regime);
    var w := Raw(regime);
    if w[MarketMaking] <= 0.0 && w[Momentum] <= 0.0 && w[MeanReversion] <= 0.0 {
      assert w[VolatilityBreakout] > 0.0;
    }
  }

  // ---------------------------------------------------------------------------
  // Scores

  /** CalculateVolatilityScore. */
  function VolatilityScore(regime: MarketRegime): (r: real)
    ensures r == 0.9 <==> regime.volatility == "high_volatility"
    ensures r == 0.3 <==> regime.volatility == "low_volatility"
    ensures r == 0.6 || r == 0.9 || r == 0.3
  {
    if regime.volatility == "high_volatility" then 0.9
    else if regime.volatility == "low_volatility" then 0.3
    else 0.6
  }

  /** CalculateTrendScore. */
  function TrendScore(regime: MarketRegime): (r: real)
    ensures r == 0.9 <==> regime.trend == "trending_up" || regime.trend == "trending_down"
    ensures r == 0.3 <==> regime.trend == "ranging"
    ensures r == 0.6 || r == 0.9 || r == 0.3
  {
    if regime.trend == "trending_up" || regime.trend == "trending_down" then 0.9
    else if regime.trend == "ranging" then 0.3
    else 0.6
  }

  /** CalculateVolumeScore. */
  function VolumeScore(regime: MarketRegime): (r: real)
    ensures r == 0.9 <==> regime.volume == "high_volume"
    ensures r == 0.3 <==> regime.volume == "low_volume"
    ensures r == 0.6 || r == 0.9 || r == 0.3
  {
    if regime.volume == "high_volume" then 0.9
    else if regime.volume == "low_volume" then 0.3
    else 0.6
  }

  /** A score is the middle value exactly when the dimension's weights are
      not adjusted. */
  lemma MiddleScoreMeansNoAdjustment(regime: MarketRegime, s: StrategyType)
    ensures VolatilityScore(regime) == 0.6 ==> VolatilityDelta(regime.volatility, s) == 0.0
    ensures TrendScore(regime) == 0.6 ==> TrendDelta(regime.trend, s) == 0.0
    ensures VolumeScore(regime) == 0.6 ==> VolumeDelta(regime.volume, s) == 0.0
  {
  }

  // ---------------------------------------------------------------------------
  // Computing the weights

  /** The volatility switch of calculateStrategyWeights. */
  method AdjustForVolatility(w0: Weights, volatility: string) returns (w: Weights)
    requires w0.Keys == AllStrategies
    ensures w.Keys == AllStrategies
    ensures forall s :: s in AllStrategies ==> w[s] == w0[s] + VolatilityDelta(volatility, s)
  {
    w := w0;
    if volatility == "high_volatility" {
      w := w[VolatilityBreakout := w[VolatilityBreakout] + 0.3];
      w := w[MarketMaking := w[MarketMaking] - 0.1];
      w := w[Momentum := w[Momentum] + 0.1];
      w := w[MeanReversion := w[MeanReversion] - 0.3];
    } else if volatility == "low_volatility" {
      w := w[MeanReversion := w[MeanReversion] + 0.3];
      w := w[MarketMaking := w[MarketMaking] + 0.1];
      w := w[Momentum := w[Momentum] - 0.1];
      w := w[VolatilityBreakout := w[VolatilityBreakout] - 0.3];
    }
  }

  /** The trend switch of calculateStrategyWeights. */
  method AdjustForTrend(w0: Weights, trend: string) returns (w: Weights)
    requires w0.Keys == AllStrategies
    ensures w.Keys == AllStrategies
    ensures forall s :: s in AllStrategies ==> w[s] == w0[s] + TrendDelta(trend, s)
  {
    w := w0;
    if trend == "trending_up" || trend == "trending_down" {
      w := w[Momentum := w[Momentum] + 0.4];
      w := w[MarketMaking := w[MarketMaking] - 0.2];
      w := w[MeanReversion := w[MeanReversion] - 0.2];
    } else if trend == "ranging" {
      w := w[MeanReversion := w[MeanReversion] + 0.4];
      w := w[MarketMaking := w[MarketMaking] + 0.1];
      w := w[Momentum := w[Momentum] - 0.3];
      w := w[VolatilityBreakout := w[VolatilityBreakout] - 0.2];
    }
  }

  /** The volume switch of calculateStrategyWeights. */
  method AdjustForVolume(w0: Weights, volume: string) returns (w: Weights)
    requires w0.Keys == AllStrategies
    ensures w.Keys == AllStrategies
    ensures forall s :: s in AllStrategies ==> w[s] == w0[s] + VolumeDelta(volume, s)
  {
    w := w0;
    if volume == "high_volume" {
      w := w[Momentum := w[Momentum] + 0.2];
      w := w[VolatilityBreakout := w[VolatilityBreakout] + 0.2];
      w := w[MarketMaking := w[MarketMaking] - 0.2];
      w := w[MeanReversion := w[MeanReversion] - 0.2];
    } else if volume == "low_volume" {
      w := w[MarketMaking := w[MarketMaking] + 0.3];
      w := w[MeanReversion := w[MeanReversion] + 0.1];
      w := w[Momentum := w[Momentum] - 0.2];
      w := w[VolatilityBreakout := w[VolatilityBreakout] - 0.2];
    }
  }

  /** calculateStrategyWeights: base weights, the three switch statements
      adding to the map, a summing loop and a normalising loop. */
  method CalculateStrategyWeights(regime: MarketRegime) returns (weights: Weights)
    ensures weights == Normalize(Raw(regime))
    ensures weights == Raw(regime)
  {
    weights := map[MarketMaking := 0.25, Momentum := 0.25, MeanReversion := 0.25, VolatilityBreakout := 0.25];

    weights := AdjustForVolatility(weights, regime.volatility);
    weights := AdjustForTrend(weights, regime.trend);
    weights := AdjustForVolume(weights, regime.volume);
    forall s | s in AllStrategies
      ensures weights[s] == Raw(regime)[s]
    {
    }
    assert weights == Raw(regime);

    var total := SumWeights(weights);
    RawTotalIsOne(regime);
    NormalizationIsIdentity(regime);
    if total > 0.0 {
      weights := DivideWeights(weights, total);
    }
  }

  /** The summing loop of calculateStrategyWeights. */
  method SumWeights(w: Weights) returns (total: real)
    requires AllStrategies <= w.Keys
    ensures total == Total(w)
  {
    total := 0.0;
    var i := 0;
    while i < |StrategyOrder|
      invariant 0 <= i <= |StrategyOrder|
      invariant total == SumPrefix(w, i)
    {
      total := total + w[StrategyOrder[i]];
      i := i + 1;
    }
    assert SumPrefix(w, 1) == w[MarketMaking];
    assert SumPrefix(w, 2) == w[MarketMaking] + w[Momentum];
    assert SumPrefix(w, 3) == w[MarketMaking] + w[Momentum] + w[MeanReversion];
  }

  /** The normalising loop of calculateStrategyWeights. */
  method DivideWeights(w: Weights, total: real) returns (n: Weights)
    requires w.Keys == AllStrategies && total != 0.0
    ensures n == map s | s in w :: w[s] / total
  {
    n := w;
    var j := 0;
    while j < |StrategyOrder|
      invariant 0 <= j <= |StrategyOrder|
      invariant n.Keys == AllStrategies
      invariant forall k :: 0 <= k < j ==> n[StrategyOrder[k]] == w[StrategyOrder[k]] / total
      invariant forall k :: j <= k < |StrategyOrder| ==> n[StrategyOrder[k]] == w[StrategyOrder[k]]
    {
      var s := StrategyOrder[j];
      n := n[s := n[s] / total];
      j := j + 1;
    }
    forall s | s in AllStrategies
      ensures n[s] == w[s] / total
    {
      assert s == StrategyOrder[0] || s == StrategyOrder[1] || s == StrategyOrder[2] || s == StrategyOrder[3];
    }
  }

  lemma EveryStrategyListed(s: StrategyType)
    ensures s in AllStrategies
  {
    match s
    case MarketMaking =>
    case Momentum =>
    case MeanReversion =>
    case VolatilityBreakout =>
  }

  /** The sum of the first i weights in StrategyOrder. */
  function SumPrefix(w: Weights, i: nat): real
    requires AllStrategies <= w.Keys && i <= |StrategyOrder|
  {
    if i == 0 then 0.0 else SumPrefix(w, i - 1) + w[StrategyOrder[i - 1]]
  }

  // ---------------------------------------------------------------------------
  // The selector

  class StrategyAI {
    const analyzer: MarketAnalyzer
    var strategyWeights: map<string, Weights>

    /** NewStrategyAI over the shared analyzer. */
    constructor(sharedAnalyzer: MarketAnalyzer)
      ensures analyzer == sharedAnalyzer && strategyWeights == map[]
    {
      analyzer := sharedAnalyzer;
      strategyWeights := map[];
    }

    /** GetStrategyWeights: an empty table for a symbol never selected. */
    function GetStrategyWeights(symbol: string): (w: Weights)
      reads this
      ensures symbol !in strategyWeights ==> w == map[]
      ensures symbol in strategyWeights ==> w == strategyWeights[symbol]
    {
      if symbol in strategyWeights then strategyWeights[symbol] else map[]
    }

    /** SelectStrategy: records the symbol's weights for the analyzer's
        current regime and returns a strategy of largest positive weight
        (market making when none is positive); ties follow map order. */
    method SelectStrategy(symbol: string) returns (best: StrategyType)
      modifies this
      ensures strategyWeights == old(strategyWeights)[symbol := Raw(analyzer.GetMarketRegime(symbol))]
      ensures var w := Raw(analyzer.GetMarketRegime(symbol));
              best in w && w[best] > 0.0 && forall s :: s in w ==> w[s] <= w[best]
    {
      var regime := analyzer.GetMarketRegime(symbol);
      var weights := CalculateStrategyWeights(regime);
      var row := CopyWeights(if symbol in strategyWeights then strategyWeights[symbol] else map[], weights);
      strategyWeights := strategyWeights[symbol := row];
      var highest;
      best, highest := HighestWeight(weights);
      SomeWeightPositive(regime);
    }
  }

  /** The symbol's row with every weight of `weights` written into it; the
      row never holds a key outside the four strategies, so it ends equal to
      `weights`. */
  method CopyWeights(row0: Weights, weights: Weights) returns (row: Weights)
    requires weights.Keys == AllStrategies
    ensures row == weights
  {
    row := row0;
    var pending := weights.Keys;
    while pending != {}
      invariant pending <= weights.Keys
      invariant forall s :: s in weights && s !in pending ==> s in row && row[s] == weights[s]
      decreases |pending|
    {
      var s :| s in pending;
      row := row[s := weights[s]];
      pending := pending - {s};
    }
    forall s | s in row
      ensures s in weights
    {
      EveryStrategyListed(s);
    }
  }

  /** The selection loop: the first strictly larger weight wins, starting
      from market making at 0. */
  method HighestWeight(weights: Weights) returns (best: StrategyType, highest: real)
    ensures highest >= 0.0
    ensures highest > 0.0 ==> best in weights && weights[best] == highest
    ensures highest == 0.0 ==> best == MarketMaking
    ensures forall s :: s in weights ==> weights[s] <= highest
  {
    best := MarketMaking;
    highest := 0.0;
    var remaining := weights.Keys;
    while remaining != {}
      invariant remaining <= weights.Keys
      invariant highest >= 0.0
      invariant highest > 0.0 ==> best in weights && weights[best] == highest
      invariant highest == 0.0 ==> best == MarketMaking
      invariant forall s :: s in weights && s !in remaining ==> weights[s] <= highest
      decreases |remaining|
    {
      var s :| s in remaining;
      if weights[s] > highest {
        highest := weights[s];
        best := s;
      }
      remaining := remaining - {s};
    }
  }
}
