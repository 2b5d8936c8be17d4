/** Shared vocabulary of the strategy package (internal/strategy/strategy.go and
    the strategy identifiers of internal/strategy/ai.go), plus the window
    statistics the four strategies compute over the most recent klines. The
    Go `Strategy` interface is not reproduced as a trait: each strategy is a
    module with its own Analyze and Execute. */
module Strategy {
  import opened Outcomes
  import opened Bybit

  datatype StrategyType = MarketMaking | Momentum | MeanReversion | VolatilityBreakout
  {
    /** The identifier string the Go code uses for the strategy. */
    function Name(): string {
      match this
      case MarketMaking => "market_making"
      case Momentum => "momentum"
      case MeanReversion => "mean_reversion"
      case VolatilityBreakout => "volatility_breakout"
    }
  }

  /** What a strategy's Execute does: the error it returns and whether it
      would go on to place orders (print its execution line). */
  datatype Execution = Execution(err: Option<string>, placed: bool)

  // ---------------------------------------------------------------------------
  // Window sums

  /** Sum of the closes of klines[lo..hi]. */
  function SumCloses(k: seq<Kline>, lo: int, hi: int): real
    requires 0 <= lo <= hi <= |k|
    decreases hi - lo
  {
    if lo == hi then 0.0 else SumCloses(k, lo, hi - 1) + k[hi - 1].close
  }

  /** Sum of the volumes of klines[lo..hi]. */
  function SumVolumes(k: seq<Kline>, lo: int, hi: int): real
    requires 0 <= lo <= hi <= |k|
    decreases hi - lo
  {
    if lo == hi then 0.0 else SumVolumes(k, lo, hi - 1) + k[hi - 1].volume
  }

  /** Closes within [low, high] give a sum within [n*low, n*high]. */
  lemma {:induction false} SumClosesBounds(k: seq<Kline>, lo: int, hi: int, low: real, high: real)
    requires 0 <= lo <= hi <= |k|
    requires forall i :: lo <= i < hi ==> low <= k[i].close <= high
    ensures (hi - lo) as real * low <= SumCloses(k, lo, hi) <= (hi - lo) as real * high
    decreases hi - lo
  {
    if lo < hi {
      SumClosesBounds(k, lo, hi - 1, low, high);
      var m := (hi - 1 - lo) as real;
      assert (hi - lo) as real * low == m * low + low;
      assert (hi - lo) as real * high == m * high + high;
    }
  }

  /** The mean of a non-empty window of closes lies between its smallest and
      its largest close. */
  lemma MeanWithinBounds(k: seq<Kline>, lo: int, hi: int, low: real, high: real)
    requires 0 <= lo < hi <= |k|
    requires forall i :: lo <= i < hi ==> low <= k[i].close <= high
    ensures low <= SumCloses(k, lo, hi) / (hi - lo) as real <= high
  {
    SumClosesBounds(k, lo, hi, low, high);
    var n := (hi - lo) as real;
    var s := SumCloses(k, lo, hi);
    assert n * low <= s <= n * high;
    assert s / n * n == s;
  }

  // ---------------------------------------------------------------------------
  // RSI as both momentum.go and mean_reversion.go compute it

  const RsiPeriod: int := 14

  /** Close-to-close change at kline i. */
  function Change(k: seq<Kline>, i: int): real
    requires 1 <= i < |k|
  {
    k[i].close - k[i - 1].close
  }

  /** Sum of the positive changes at indices lo..hi-1. */
  function Gains(k: seq<Kline>, lo: int, hi: int): real
    requires 1 <= lo <= hi <= |k|
    decreases hi - lo
  {
    if lo == hi then 0.0
    else Gains(k, lo, hi - 1) + (if Change(k, hi - 1) > 0.0 then Change(k, hi - 1) else 0.0)
  }

  /** Sum of the magnitudes of the non-positive changes at indices lo..hi-1. */
  function Losses(k: seq<Kline>, lo: int, hi: int): real
    requires 1 <= lo <= hi <= |k|
    decreases hi - lo
  {
    if lo == hi then 0.0
    else Losses(k, lo, hi - 1) + (if Change(k, hi - 1) > 0.0 then 0.0 else -Change(k, hi - 1))
  }

  lemma {:induction false} GainsLossesNonNegative(k: seq<Kline>, lo: int, hi: int)
    requires 1 <= lo <= hi <= |k|
    ensures Gains(k, lo, hi) >= 0.0 && Losses(k, lo, hi) >= 0.0
    decreases hi - lo
  {
    if lo < hi {
      GainsLossesNonNegative(k, lo, hi - 1);
    }
  }

  /** RSI from summed gains and losses: neutral 50 when nothing moved; when
      there are gains but no losses Go divides by zero and the float result is
      100 (100 - 100/(1 + Inf)); otherwise 100 - 100/(1 + gains/losses). */
  function RsiFrom(gains: real, losses: real): (rsi: real)
    requires gains >= 0.0 && losses >= 0.0
    ensures 0.0 <= rsi <= 100.0
    ensures losses > 0.0 ==> rsi < 100.0
    ensures gains == 0.0 && losses > 0.0 ==> rsi == 0.0
    ensures gains + losses == 0.0 ==> rsi == 50.0
    ensures gains > 0.0 && losses == 0.0 ==> rsi == 100.0
  {
    if gains + losses == 0.0 then 50.0
    else if losses == 0.0 then 100.0
    else
      var rs := gains / losses;
      assert rs >= 0.0;
      assert 100.0 / (1.0 + rs) * (1.0 + rs) == 100.0;
      100.0 - 100.0 / (1.0 + rs)
  }

  /** The RSI of the kline series as the strategies define it: 50 below
      RsiPeriod klines, otherwise from the changes at indices n-14 .. n-2 (the
      newest change is not included). */
  function Rsi(k: seq<Kline>): (rsi: real)
    requires |k| != RsiPeriod
    ensures 0.0 <= rsi <= 100.0
  {
    if |k| < RsiPeriod then 50.0
    else
      GainsLossesNonNegative(k, |k| - RsiPeriod, |k| - 1);
      RsiFrom(Gains(k, |k| - RsiPeriod, |k| - 1), Losses(k, |k| - RsiPeriod, |k| - 1))
  }

  /** calculateRSI: an index loop accumulating gains and losses over the
      window. With exactly RsiPeriod klines the Go loop reads Kline[-1] and
      panics, hence the precondition. */
  method CalculateRsi(k: seq<Kline>) returns (rsi: real)
    requires |k| != RsiPeriod
    ensures rsi == Rsi(k)
    ensures |k| < RsiPeriod ==> rsi == 50.0
    ensures 0.0 <= rsi <= 100.0
  {
    if |k| < RsiPeriod {
      return 50.0;
    }
    var gains := 0.0;
    var losses := 0.0;
    var i := |k| - RsiPeriod;
    while i < |k| - 1
      invariant |k| - RsiPeriod <= i <= |k| - 1
      invariant gains == Gains(k, |k| - RsiPeriod, i)
      invariant losses == Losses(k, |k| - RsiPeriod, i)
    {
      var change := k[i].close - k[i - 1].close;
      if change > 0.0 {
        gains := gains + change;
      } else {
        losses := losses - change;
      }
      i := i + 1;
    }
    GainsLossesNonNegative(k, |k| - RsiPeriod, |k| - 1);
    if gains + losses == 0.0 {
      return 50.0;
    }
    rsi := RsiFrom(gains, losses);
  }
}
