/** The momentum strategy of internal/strategy/momentum.go: RSI below 30
    with MACD above its signal line buys, RSI above 70 with MACD below it
    sells. The "EMA" of the source is the simple mean of the last `period`
    closes and the MACD signal line is 0.9 times the MACD. */
module MomentumStrategy {
  import opened Outcomes
  import opened Bybit
  import opened Strategy

  const RsiOverbought: real := 70.0
  const RsiOversold: real := 30.0
  const MacdFast: int := 12
  const MacdSlow: int := 26

  /** The source's EMA: 0 below `period` klines, otherwise the mean of the
      last `period` closes. */
  function Ema(k: seq<Kline>, period: int): real
    requires period > 0
  {
    if |k| < period then 0.0
    else SumCloses(k, |k| - period, |k|) / period as real
  }

  /** calculateEMA: a summing loop over the window. */
  method CalculateEma(k: seq<Kline>, period: int) returns (ema: real)
    requires period > 0
    ensures ema == Ema(k, period)
  {
    if |k| < period {
      return 0.0;
    }
    var sum := 0.0;
    var i := |k| - period;
    while i < |k|
      invariant |k| - period <= i <= |k|
      invariant sum == SumCloses(k, |k| - period, i)
    {
      sum := sum + k[i].close;
      i := i + 1;
    }
    ema := sum / period as real;
  }

  /** The EMA of a window whose closes all lie in [low, high] lies there too. */
  lemma EmaWithinWindow(k: seq<Kline>, period: int, low: real, high: real)
    requires 0 < period <= |k|
    requires forall i :: |k| - period <= i < |k| ==> low <= k[i].close <= high
    ensures low <= Ema(k, period) <= high
  {
    MeanWithinBounds(k, |k| - period, |k|, low, high);
  }

  /** The MACD line and its approximated signal line; (0, 0) below MacdSlow
      klines. */
  function Macd(k: seq<Kline>): (real, real) {
    if |k| < MacdSlow then (0.0, 0.0)
    else
      var macd := Ema(k, MacdFast) - Ema(k, MacdSlow);
      (macd, macd * 0.9)
  }

  /** calculateMACD. */
  method CalculateMacd(k: seq<Kline>) returns (macd: real, signal: real)
    ensures (macd, signal) == Macd(k)
    ensures macd > signal <==> macd > 0.0
    ensures macd < signal <==> macd < 0.0
  {
    if |k| < MacdSlow {
      return 0.0, 0.0;
    }
    var fast := CalculateEma(k, MacdFast);
    var slow := CalculateEma(k, MacdSlow);
    macd := fast - slow;
    signal := macd * 0.9;
  }

  /** Analyze: an empty series holds with strength 0; otherwise buy on an
      oversold RSI with a rising MACD, sell on an overbought RSI with a
      falling MACD (a sell overrides a buy), else hold with strength 0.5. */
  method Analyze(data: MarketData) returns (sig: TradeSignal)
    requires |data.klines| != RsiPeriod
    ensures sig.symbol == data.symbol
    ensures |data.klines| == 0 ==> sig == TradeSignal(data.symbol, Hold, 0.0)
    ensures |data.klines| > 0 ==>
      var rsi := Rsi(data.klines);
      var macd := Macd(data.klines).0;
      && (sig.action == Buy <==> rsi < RsiOversold && macd > 0.0)
      && (sig.action == Sell <==> rsi > RsiOverbought && macd < 0.0)
      && (sig.action == Buy ==> sig.strength == (RsiOversold - rsi) / RsiOversold)
      && (sig.action == Sell ==> sig.strength == (rsi - RsiOverbought) / (100.0 - RsiOverbought))
      && (sig.action == Hold ==> sig.strength == 0.5)
      && sig.action != PlaceOrders
    ensures sig.action != Hold ==> 0.0 < sig.strength <= 1.0
  {
    if |data.klines| == 0 {
      return TradeSignal(data.symbol, Hold, 0.0);
    }
    var rsi := CalculateRsi(data.klines);
    var macd, signal := CalculateMacd(data.klines);
    var action := Hold;
    var strength := 0.5;
    if rsi < RsiOversold && macd > signal {
      action := Buy;
      strength := (RsiOversold - rsi) / RsiOversold;
    }
    if rsi > RsiOverbought && macd < signal {
      action := Sell;
      strength := (rsi - RsiOverbought) / (100.0 - RsiOverbought);
    }
    sig := TradeSignal(data.symbol, action, strength);
  }

  /** Execute never fails; it acts on every signal other than HOLD. */
  function Execute(sig: TradeSignal): (e: Execution)
    ensures e.err == None
    ensures e.placed <==> sig.action != Hold
  {
    Execution(None, sig.action != Hold)
  }
}
