/** The mean-reversion strategy of internal/strategy/mean_reversion.go:
    Bollinger bands over the last 20 closes, widened by 2 times the
    VARIANCE (the source never takes the square root), combined with the
    shared RSI. */
module MeanReversionStrategy {
  import opened Outcomes
  import opened Bybit
  import opened Strategy

  const BollingerPeriod: int := 20
  const BollingerStd: real := 2.0
  const RsiOverbought: real := 70.0
  const RsiOversold: real := 30.0

  /** Sum of squared deviations from m of the closes of klines[lo..hi]. */
  function SqDevSum(k: seq<Kline>, lo: int, hi: int, m: real): real
    requires 0 <= lo <= hi <= |k|
    decreases hi - lo
  {
    if lo == hi then 0.0
    else SqDevSum(k, lo, hi - 1, m) + (k[hi - 1].close - m) * (k[hi - 1].close - m)
  }

  lemma {:induction false} SqDevSumNonNegative(k: seq<Kline>, lo: int, hi: int, m: real)
    requires 0 <= lo <= hi <= |k|
    ensures SqDevSum(k, lo, hi, m) >= 0.0
    decreases hi - lo
  {
    if lo < hi {
      SqDevSumNonNegative(k, lo, hi - 1, m);
    }
  }

  /** (middle, upper, lower): all zero below BollingerPeriod klines. */
  function Bands(k: seq<Kline>): (real, real, real) {
    if |k| < BollingerPeriod then (0.0, 0.0, 0.0)
    else
      var n := |k|;
      var middle := SumCloses(k, n - BollingerPeriod, n) / BollingerPeriod as real;
      var variance := SqDevSum(k, n - BollingerPeriod, n, middle) / BollingerPeriod as real;
      (middle, middle + BollingerStd * variance, middle - BollingerStd * variance)
  }

  /** The bands are ordered and symmetric around the middle band. */
  lemma BandsOrdered(k: seq<Kline>)
    ensures Bands(k).2 <= Bands(k).0 <= Bands(k).1
    ensures Bands(k).1 - Bands(k).0 == Bands(k).0 - Bands(k).2
  {
    if |k| >= BollingerPeriod {
      var n := |k|;
      var middle := SumCloses(k, n - BollingerPeriod, n) / BollingerPeriod as real;
      SqDevSumNonNegative(k, n - BollingerPeriod, n, middle);
    }
  }

  lemma {:induction false} SqDevSumConstant(k: seq<Kline>, lo: int, hi: int, c: real)
    requires 0 <= lo <= hi <= |k|
    requires forall i :: lo <= i < hi ==> k[i].close == c
    ensures SqDevSum(k, lo, hi, c) == 0.0
    decreases hi - lo
  {
    if lo < hi {
      SqDevSumConstant(k, lo, hi - 1, c);
    }
  }

  /** On a flat window (every close equal to c) all three bands are c. */
  lemma FlatWindowCollapses(k: seq<Kline>, c: real)
    requires |k| >= BollingerPeriod
    requires forall i :: |k| - BollingerPeriod <= i < |k| ==> k[i].close == c
    ensures Bands(k) == (c, c, c)
  {
    var n := |k|;
    MeanWithinBounds(k, n - BollingerPeriod, n, c, c);
    SqDevSumConstant(k, n - BollingerPeriod, n, c);
  }

  /** The first loop of calculateBollingerBands: the closes from `start`
      on, and their sum. */
  method CollectCloses(k: seq<Kline>, start: nat) returns (sum: real, prices: seq<real>)
    requires start <= |k|
    ensures sum == SumCloses(k, start, |k|)
    ensures |prices| == |k| - start
    ensures forall j :: 0 <= j < |prices| ==> prices[j] == k[start + j].close
  {
    sum := 0.0;
    prices := [];
    var i := start;
    while i < |k|
      invariant start <= i <= |k|
      invariant sum == SumCloses(k, start, i)
      invariant |prices| == i - start
      invariant forall j :: 0 <= j < |prices| ==> prices[j] == k[start + j].close
    {
      sum := sum + k[i].close;
      prices := prices + [k[i].close];
      i := i + 1;
    }
  }

  /** The second loop: the squared deviations of the collected closes from
      `middle`. */
  method SquaredDeviations(k: seq<Kline>, start: nat, prices: seq<real>, middle: real) returns (varianceSum: real)
    requires start + |prices| <= |k|
    requires forall j :: 0 <= j < |prices| ==> prices[j] == k[start + j].close
    ensures varianceSum == SqDevSum(k, start, start + |prices|, middle)
  {
    varianceSum := 0.0;
    var j := 0;
    while j < |prices|
      invariant 0 <= j <= |prices|
      invariant varianceSum == SqDevSum(k, start, start + j, middle)
    {
      var diff := prices[j] - middle;
      assert SqDevSum(k, start, start + j + 1, middle) == SqDevSum(k, start, start + j, middle) + diff * diff;
      varianceSum := varianceSum + diff * diff;
      j := j + 1;
    }
  }

  /** calculateBollingerBands: one loop collects the window's closes and
      their sum, a second accumulates the squared deviations. */
  method CalculateBollingerBands(k: seq<Kline>) returns (middle: real, upper: real, lower: real)
    ensures (middle, upper, lower) == Bands(k)
    ensures lower <= middle <= upper
  {
    if |k| < BollingerPeriod {
      return 0.0, 0.0, 0.0;
    }
    var start := |k| - BollingerPeriod;
    var sum, prices := CollectCloses(k, start);
    middle := sum / BollingerPeriod as real;
    var varianceSum := SquaredDeviations(k, start, prices, middle);
    var stdDev := varianceSum / BollingerPeriod as real;
    upper := middle + BollingerStd * stdDev;
    lower := middle - BollingerStd * stdDev;
    BandsOrdered(k);
  }

  predicate BuyCondition(k: seq<Kline>)
    requires |k| > 0 && |k| != RsiPeriod
  {
    k[|k| - 1].close < Bands(k).2 && Rsi(k) < RsiOversold
  }

  predicate SellCondition(k: seq<Kline>)
    requires |k| > 0 && |k| != RsiPeriod
  {
    k[|k| - 1].close > Bands(k).1 && Rsi(k) > RsiOverbought
  }

  /** The strength of a firing signal divides by the band it crossed; the
      source divides by zero (yielding an infinite strength) when that band is
      0, which happens whenever fewer than BollingerPeriod klines are present. */
  predicate StrengthDefined(k: seq<Kline>)
    requires |k| > 0 && |k| != RsiPeriod
  {
    && (BuyCondition(k) ==> Bands(k).2 != 0.0)
    && (SellCondition(k) ==> Bands(k).1 != 0.0)
  }

  /** A buy and a sell can never fire together, because the lower band is
      not above the upper one. */
  lemma BuySellExclusive(k: seq<Kline>)
    requires |k| > 0 && |k| != RsiPeriod
    ensures !(BuyCondition(k) && SellCondition(k))
  {
    BandsOrdered(k);
  }

  /** Analyze: buy below the lower band when oversold, sell above the upper
      band when overbought, otherwise hold with strength 0.5. */
  method Analyze(data: MarketData) returns (sig: TradeSignal)
    requires |data.klines| != RsiPeriod
    requires |data.klines| > 0 ==> StrengthDefined(data.klines)
    ensures sig.symbol == data.symbol
    ensures |data.klines| == 0 ==> sig == TradeSignal(data.symbol, Hold, 0.0)
    ensures |data.klines| > 0 ==>
      var k := data.klines;
      var price := k[|k| - 1].close;
      && (sig.action == Buy <==> BuyCondition(k))
      && (sig.action == Sell <==> SellCondition(k))
      && (sig.action == Buy ==> sig.strength == (Bands(k).2 - price) / Bands(k).2)
      && (sig.action == Sell ==> sig.strength == (price - Bands(k).1) / Bands(k).1)
      && (sig.action == Hold ==> sig.strength == 0.5)
      && sig.action != PlaceOrders
  {
    var k := data.klines;
    if |k| == 0 {
      return TradeSignal(data.symbol, Hold, 0.0);
    }
    var middle, upper, lower := CalculateBollingerBands(k);
    var rsi := CalculateRsi(k);
    var price := k[|k| - 1].close;
    var action := Hold;
    var strength := 0.5;
    if price < lower && rsi < RsiOversold {
      action := Buy;
      strength := (lower - price) / lower;
    }
    if price > upper && rsi > RsiOverbought {
      action := Sell;
      strength := (price - upper) / upper;
    }
    BuySellExclusive(k);
    sig := TradeSignal(data.symbol, action, strength);
  }

  /** Execute never fails; it acts on every signal other than HOLD. */
  function Execute(sig: TradeSignal): (e: Execution)
    ensures e.err == None
    ensures e.placed <==> sig.action != Hold
  {
    Execution(None, sig.action != Hold)
  }
}
