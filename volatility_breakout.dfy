/** The volatility-breakout strategy of
    internal/strategy/volatility_breakout.go: a Donchian channel over the
    last 20 klines, widened on each side by half the range times 2, and a
    volume confirmation of 1.5 times the 20-kline average volume. */
module VolatilityBreakoutStrategy {
  import opened Outcomes
  import opened Bybit
  import opened Strategy

  const Period: int := 20
  const Multiplier: real := 2.0
  const MinVolumeRatio: real := 1.5

  /** Highest high of klines[lo..hi]. */
  function HighestHigh(k: seq<Kline>, lo: int, hi: int): real
    requires 0 <= lo < hi <= |k|
    decreases hi - lo
  {
    if hi - 1 == lo then k[lo].high
    else
      var m := HighestHigh(k, lo, hi - 1);
      if k[hi - 1].high > m then k[hi - 1].high else m
  }

  /** Lowest low of klines[lo..hi]. */
  function LowestLow(k: seq<Kline>, lo: int, hi: int): real
    requires 0 <= lo < hi <= |k|
    decreases hi - lo
  {
    if hi - 1 == lo then k[lo].low
    else
      var m := LowestLow(k, lo, hi - 1);
      if k[hi - 1].low < m then k[hi - 1].low else m
  }

  /** HighestHigh is an upper bound of the window's highs that one of them
      attains; LowestLow likewise for the lows. */
  lemma {:induction false} ExtremesOfWindow(k: seq<Kline>, lo: int, hi: int)
    requires 0 <= lo < hi <= |k|
    ensures forall i :: lo <= i < hi ==> k[i].high <= HighestHigh(k, lo, hi)
    ensures forall i :: lo <= i < hi ==> LowestLow(k, lo, hi) <= k[i].low
    ensures exists i :: lo <= i < hi && k[i].high == HighestHigh(k, lo, hi)
    ensures exists i :: lo <= i < hi && k[i].low == LowestLow(k, lo, hi)
    decreases hi - lo
  {
    if hi - 1 > lo {
      ExtremesOfWindow(k, lo, hi - 1);
      if k[hi - 1].high <= HighestHigh(k, lo, hi - 1) {
        var j :| lo <= j < hi - 1 && k[j].high == HighestHigh(k, lo, hi - 1);
        assert k[j].high == HighestHigh(k, lo, hi);
      }
      if k[hi - 1].low >= LowestLow(k, lo, hi - 1) {
        var j :| lo <= j < hi - 1 && k[j].low == LowestLow(k, lo, hi - 1);
        assert k[j].low == LowestLow(k, lo, hi);
      }
    } else {
      assert k[lo].high == HighestHigh(k, lo, hi);
      assert k[lo].low == LowestLow(k, lo, hi);
    }
  }

  /** (upper, lower) channel; (0, 0) below Period klines. */
  function Channel(k: seq<Kline>): (real, real) {
    if |k| < Period then (0.0, 0.0)
    else
      var hh := HighestHigh(k, |k| - Period, |k|);
      var ll := LowestLow(k, |k| - Period, |k|);
      var expanded := (hh - ll) * Multiplier;
      (hh + expanded / 2.0, ll - expanded / 2.0)
  }

  /** On klines whose low never exceeds their high, the channel is ordered
      and encloses every high and low of its window: it is the extreme range
      widened by the range itself on each side. */
  lemma ChannelOrdered(k: seq<Kline>)
    requires |k| >= Period
    requires forall i :: |k| - Period <= i < |k| ==> k[i].low <= k[i].high
    ensures Channel(k).1 <= Channel(k).0
    ensures forall i :: |k| - Period <= i < |k| ==> Channel(k).1 <= k[i].low && k[i].high <= Channel(k).0
    ensures var hh := HighestHigh(k, |k| - Period, |k|);
            var ll := LowestLow(k, |k| - Period, |k|);
            Channel(k).0 - hh == hh - ll && ll - Channel(k).1 == hh - ll
  {
    ExtremesOfWindow(k, |k| - Period, |k|);
    var hh := HighestHigh(k, |k| - Period, |k|);
    var ll := LowestLow(k, |k| - Period, |k|);
    assert ll <= k[|k| - 1].low <= k[|k| - 1].high <= hh;
  }

  /** calculateVolatilityChannel: the extremes start at the window's first
      kline and a loop over the whole window raises and lowers them. */
  method CalculateVolatilityChannel(k: seq<Kline>) returns (upper: real, lower: real)
    ensures (upper, lower) == Channel(k)
  {
    if |k| < Period {
      return 0.0, 0.0;
    }
    var start := |k| - Period;
    var highest := k[start].high;
    var lowest := k[start].low;
    var i := start;
    while i < |k|
      invariant start <= i <= |k|
      invariant highest == HighestHigh(k, start, if i == start then start + 1 else i)
      invariant lowest == LowestLow(k, start, if i == start then start + 1 else i)
    {
      var high := k[i].high;
      var low := k[i].low;
      if high > highest {
        highest := high;
      }
      if low < lowest {
        lowest := low;
      }
      i := i + 1;
    }
    var expanded := (highest - lowest) * Multiplier;
    upper := highest + expanded / 2.0;
    lower := lowest - expanded / 2.0;
  }

  /** The mean volume of the last Period klines; 0 below Period klines. */
  function AverageVolume(k: seq<Kline>): real {
    if |k| < Period then 0.0
    else SumVolumes(k, |k| - Period, |k|) / Period as real
  }

  /** calculateAverageVolume: a summing loop over the window. */
  method CalculateAverageVolume(k: seq<Kline>) returns (avg: real)
    ensures avg == AverageVolume(k)
  {
    if |k| < Period {
      return 0.0;
    }
    var sum := 0.0;
    var i := |k| - Period;
    while i < |k|
      invariant |k| - Period <= i <= |k|
      invariant sum == SumVolumes(k, |k| - Period, i)
    {
      sum := sum + k[i].volume;
      i := i + 1;
    }
    avg := sum / Period as real;
  }

  predicate VolumeConfirmed(k: seq<Kline>)
    requires |k| >= 1
  {
    k[|k| - 1].volume > AverageVolume(k) * MinVolumeRatio
  }

  predicate BuyCondition(k: seq<Kline>)
    requires |k| >= 2
  {
    var upper := Channel(k).0;
    k[|k| - 1].close > upper && k[|k| - 2].close <= upper && VolumeConfirmed(k)
  }

  predicate SellCondition(k: seq<Kline>)
    requires |k| >= 2
  {
    var lower := Channel(k).1;
    k[|k| - 1].close < lower && k[|k| - 2].close >= lower && VolumeConfirmed(k)
  }

  /** The strength of a firing signal divides by the channel edge it
      crossed; the source divides by zero when that edge is 0. */
  predicate StrengthDefined(k: seq<Kline>)
    requires |k| >= 2
  {
    && (BuyCondition(k) ==> Channel(k).0 != 0.0)
    && (SellCondition(k) ==> Channel(k).1 != 0.0)
  }

  /** The channel window includes the newest kline, so when that kline is
      well formed (low <= close <= high) and the last two closes are positive,
      neither breakout can fire: with Period klines or more the close lies
      inside the channel, and with fewer the channel is (0, 0). */
  lemma NoBreakoutOnWellFormedData(k: seq<Kline>)
    requires |k| >= 2
    requires k[|k| - 1].low <= k[|k| - 1].close <= k[|k| - 1].high
    requires k[|k| - 1].close > 0.0 && k[|k| - 2].close > 0.0
    ensures !BuyCondition(k) && !SellCondition(k)
  {
    if |k| >= Period {
      ExtremesOfWindow(k, |k| - Period, |k|);
    }
  }

  /** Analyze: an empty series holds with strength 0; otherwise buy when the
      close crosses above the channel with confirming volume, sell when it
      crosses below (a sell overrides a buy), else hold with strength 0.5.
      A single kline makes the source read Kline[-1] and panic. */
  method Analyze(data: MarketData) returns (sig: TradeSignal)
    requires |data.klines| != 1
    requires |data.klines| >= 2 ==> StrengthDefined(data.klines)
    ensures sig.symbol == data.symbol
    ensures |data.klines| == 0 ==> sig == TradeSignal(data.symbol, Hold, 0.0)
    ensures |data.klines| >= 2 ==>
      var k := data.klines;
      var close := k[|k| - 1].close;
      var (upper, lower) := Channel(k);
      && (sig.action == Sell <==> SellCondition(k))
      && (sig.action == Buy <==> BuyCondition(k) && !SellCondition(k))
      && (sig.action == Buy ==> sig.strength == (close - upper) / upper)
      && (sig.action == Sell ==> sig.strength == (lower - close) / lower)
      && (sig.action == Hold ==> sig.strength == 0.5)
      && sig.action != PlaceOrders
  {
    var k := data.klines;
    if |k| == 0 {
      return TradeSignal(data.symbol, Hold, 0.0);
    }
    var upper, lower := CalculateVolatilityChannel(k);
    var currentClose := k[|k| - 1].close;
    var previousClose := k[|k| - 2].close;
    var currentVolume := k[|k| - 1].volume;
    var averageVolume := CalculateAverageVolume(k);
    var action := Hold;
    var strength := 0.5;
    if currentClose > upper && previousClose <= upper && currentVolume > averageVolume * MinVolumeRatio {
      action := Buy;
      strength := (currentClose - upper) / upper;
    }
    if currentClose < lower && previousClose >= lower && currentVolume > averageVolume * MinVolumeRatio {
      action := Sell;
      strength := (lower - currentClose) / lower;
    }
    sig := TradeSignal(data.symbol, action, strength);
  }

  /** Execute never fails; it acts on every signal other than HOLD. */
  function Execute(sig: TradeSignal): (e: Execution)
    ensures e.err == None
    ensures e.placed <==> sig.action != Hold
  {
    Execution(None, sig.action != Hold)
  }
}
