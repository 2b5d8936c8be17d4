/** The portfolio manager of internal/portfolio/manager.go: the traded symbols
    with equal base allocations, allocation factors from performance and
    volatility, a smoothed performance table, and an append-only trade log
    with the counters and drawdown derived from it.

    The exchange call behind UpdateTopCoins is an input (`fetched`); the
    analyzer whose volatility table the allocation reads is the one the bot
    shares with its other components. */
module PortfolioManagement {
  import opened Outcomes
  import opened Configuration
  import opened MarketIndicators
  import opened MarketAnalysis

  /** TradeLogEntry; the wall-clock timestamp is an input. */
  datatype TradeLogEntry = TradeLogEntry(
    timestamp: int,
    symbol: string,
    action: string,
    quantity: real,
    price: real,
    strategy: string,
    confidence: real,
    reason: string,
    pnl: real,
    cumulativePnl: real
  )

  /** PerformanceMetrics without the Sharpe and Sortino ratios. */
  datatype PerformanceMetrics = PerformanceMetrics(
    totalTrades: int,
    winningTrades: int,
    losingTrades: int,
    winRate: real,
    totalPnl: real,
    averagePnl: real,
    maxDrawdown: real
  )

  const ZeroMetrics := PerformanceMetrics(0, 0, 0, 0.0, 0.0, 0.0, 0.0)

  // ---------------------------------------------------------------------------
  // Allocation factors

  function Clamp(x: real, lo: real, hi: real): (r: real)
    requires lo <= hi
    ensures lo <= r <= hi
    ensures lo <= x <= hi ==> r == x
    ensures x < lo ==> r == lo
    ensures x > hi ==> r == hi
  {
    if x < lo then lo else if x > hi then hi else x
  }

  /** The performance factor of GetPerformanceBasedAllocation: one plus the
      performance percentage, kept within [0.1, 2.0]. */
  function PerformanceFactor(performance: real): (f: real)
    ensures f == Clamp(1.0 + performance / 100.0, 0.1, 2.0)
  {
    var factor :=
      if performance > 0.0 then 1.0 + performance / 100.0
      else if performance < 0.0 then
        var g := 1.0 + performance / 100.0;
        if g < 0.1 then 0.1 else g
      else 1.0;
    if factor < 0.1 then 0.1 else if factor > 2.0 then 2.0 else factor
  }

  /** The volatility factor of GetVolatilityAdjustedAllocation for a positive
      recent volatility: 1/(1 + 100 v), at least 0.1; the upper clamp at 2.0
      never applies. */
  function VolatilityFactor(v: real): (f: real)
    requires v > 0.0
    ensures f == Max(0.1, 1.0 / (1.0 + v * 100.0))
    ensures 0.1 <= f < 1.0
  {
    var factor := 1.0 / (1.0 + v * 100.0);
    assert factor < 1.0;
    if factor < 0.1 then 0.1 else if factor > 2.0 then 2.0 else factor
  }

  lemma ScaleBetween(b: real, f: real, lo: real, hi: real)
    requires lo <= f <= hi
    ensures b >= 0.0 ==> b * lo <= b * f <= b * hi
  {
  }

  /** GetPerformanceBasedAllocation on values: the base when there is no
      performance entry, else the base scaled by the performance factor. */
  function PerformanceAllocation(base: real, performance: Option<real>): (a: real)
    ensures base >= 0.0 ==> base * 0.1 <= a <= base * 2.0
    ensures performance.None? ==> a == base
  {
    if performance.None? then base
    else
      var f := PerformanceFactor(performance.value);
      ScaleBetween(base, f, 0.1, 2.0);
      base * f
  }

  /** GetVolatilityAdjustedAllocation on values: the base unless a positive
      recent volatility is recorded, which scales it down. */
  function VolatilityAllocation(base: real, volatility: Option<VolatilityData>): (a: real)
    ensures base >= 0.0 ==> base * 0.1 <= a <= base
    ensures volatility.None? || volatility.value.recent <= 0.0 ==> a == base
  {
    if volatility.None? then base
    else
      var v := volatility.value.recent;
      if v > 0.0 then
        var f := VolatilityFactor(v);
        ScaleBetween(base, f, 0.1, 1.0);
        base * f
      else base
  }

  /** With a performance entry the base is scaled by one plus the
      performance percentage, clamped to [0.1, 2.0]. */
  lemma PerformanceAllocationClamped(base: real, performance: real)
    ensures PerformanceAllocation(base, Some(performance)) == base * Clamp(1.0 + performance / 100.0, 0.1, 2.0)
  {
    assert PerformanceAllocation(base, Some(performance)) == base * PerformanceFactor(performance);
  }

  /** With a positive recent volatility the base is scaled by 1/(1 + 100 v),
      but never below a tenth. */
  lemma VolatilityAllocationScaled(base: real, d: VolatilityData)
    requires d.recent > 0.0
    ensures VolatilityAllocation(base, Some(d)) == base * Max(0.1, 1.0 / (1.0 + d.recent * 100.0))
  {
    assert VolatilityAllocation(base, Some(d)) == base * VolatilityFactor(d.recent);
  }

  /** UpdatePerformance's smoothing: the first sample as it is, later ones
      as 0.8 new + 0.2 old, which lies between the two. */
  function Smoothed(previous: Option<real>, sample: real): (p: real)
    ensures previous.None? ==> p == sample
    ensures previous.Some? ==> Min(sample, previous.value) <= p <= Max(sample, previous.value)
    ensures previous.Some? && previous.value == sample ==> p == sample
  {
    if previous.None? then sample else sample * 0.8 + previous.value * 0.2
  }

  /** The profit of closing a position: (exit - entry) * quantity for a long,
      the reverse for a short. */
  function TradePnl(entryPrice: real, exitPrice: real, quantity: real, isLong: bool): (pnl: real)
    ensures quantity > 0.0 ==> (pnl > 0.0 <==> (if isLong then exitPrice > entryPrice else exitPrice < entryPrice))
  {
    if isLong then (exitPrice - entryPrice) * quantity else (entryPrice - exitPrice) * quantity
  }

  /** Closing a long and a short over the same prices gives opposite PnLs. */
  lemma LongShortOpposite(entryPrice: real, exitPrice: real, quantity: real)
    ensures TradePnl(entryPrice, exitPrice, quantity, true) == -TradePnl(entryPrice, exitPrice, quantity, false)
  {
  }

  // ---------------------------------------------------------------------------
  // Trade log queries

  /** The index of the newest entry for `symbol`. */
  function LastIndexOf(log: seq<TradeLogEntry>, symbol: string): (r: Option<nat>)
    ensures r.Some? ==> r.value < |log| && log[r.value].symbol == symbol
    ensures r.Some? ==> forall j :: r.value < j < |log| ==> log[j].symbol != symbol
    ensures r.None? ==> forall j :: 0 <= j < |log| ==> log[j].symbol != symbol
    decreases |log|
  {
    if |log| == 0 then None
    else if log[|log| - 1].symbol == symbol then Some(|log| - 1)
    else LastIndexOf(log[..|log| - 1], symbol)
  }

  /** GetTradeLogForSymbol: the symbol's entries, in log order. */
  function ForSymbol(log: seq<TradeLogEntry>, symbol: string): (r: seq<TradeLogEntry>)
    ensures |r| <= |log|
    ensures forall e :: e in r ==> e in log && e.symbol == symbol
    ensures forall e :: e in log && e.symbol == symbol ==> e in r
    decreases |log|
  {
    if |log| == 0 then []
    else
      var rest := ForSymbol(log[..|log| - 1], symbol);
      var last := log[|log| - 1];
      assert log == log[..|log| - 1] + [last];
      if last.symbol == symbol then rest + [last] else rest
  }

  /** GetRecentTrades: the whole log when it holds at most `count` entries,
      else its last `count`; a negative count makes the slice panic. */
  function RecentTrades(log: seq<TradeLogEntry>, count: int): (r: seq<TradeLogEntry>)
    requires count >= 0
    ensures |r| == if |log| <= count then |log| else count
    ensures r == log[|log| - |r|..]
  {
    if |log| <= count then log else log[|log| - count..]
  }

  // ---------------------------------------------------------------------------
  // The performance scan

  /** Cumulative PnL of the first i entries. */
  function Cum(log: seq<TradeLogEntry>, i: nat): real
    requires i <= |log|
  {
    if i == 0 then 0.0 else Cum(log, i - 1) + log[i - 1].pnl
  }

  /** The running peak of the cumulative PnL, starting at 0. */
  function Peak(log: seq<TradeLogEntry>, i: nat): real
    requires i <= |log|
  {
    if i == 0 then 0.0 else Max(Peak(log, i - 1), Cum(log, i))
  }

  /** The largest drop of the cumulative PnL below its running peak. */
  function MaxDrawdownUpTo(log: seq<TradeLogEntry>, i: nat): real
    requires i <= |log|
  {
    if i == 0 then 0.0 else Max(MaxDrawdownUpTo(log, i - 1), Peak(log, i) - Cum(log, i))
  }

  function Wins(log: seq<TradeLogEntry>, i: nat): int
    requires i <= |log|
  {
    if i == 0 then 0 else Wins(log, i - 1) + (if log[i - 1].pnl > 0.0 then 1 else 0)
  }

  function Losses(log: seq<TradeLogEntry>, i: nat): int
    requires i <= |log|
  {
    if i == 0 then 0 else Losses(log, i - 1) + (if log[i - 1].pnl < 0.0 then 1 else 0)
  }

  /** The peak is the largest cumulative PnL seen so far (0 included). */
  lemma {:induction false} PeakIsRunningMax(log: seq<TradeLogEntry>, i: nat)
    requires i <= |log|
    ensures forall j :: 0 <= j <= i ==> Cum(log, j) <= Peak(log, i)
    ensures exists j :: 0 <= j <= i && Peak(log, i) == Cum(log, j)
  {
    if i == 0 {
      assert Peak(log, 0) == Cum(log, 0);
    } else {
      PeakIsRunningMax(log, i - 1);
      if Cum(log, i) <= Peak(log, i - 1) {
        var j :| 0 <= j <= i - 1 && Peak(log, i - 1) == Cum(log, j);
        assert Peak(log, i) == Cum(log, j);
      } else {
        assert Peak(log, i) == Cum(log, i);
      }
    }
  }

  /** The maximum drawdown is the largest fall of the cumulative PnL from any
      earlier point (the start included) to any later one. */
  lemma {:induction false} DrawdownIsLargestDrop(log: seq<TradeLogEntry>, i: nat)
    requires i <= |log|
    ensures forall j, k :: 0 <= j <= k <= i ==> Cum(log, j) - Cum(log, k) <= MaxDrawdownUpTo(log, i)
    ensures exists j, k :: 0 <= j <= k <= i && MaxDrawdownUpTo(log, i) == Cum(log, j) - Cum(log, k)
  {
    if i == 0 {
      assert MaxDrawdownUpTo(log, 0) == Cum(log, 0) - Cum(log, 0);
    } else {
      DrawdownIsLargestDrop(log, i - 1);
      PeakIsRunningMax(log, i);
      forall j, k | 0 <= j <= k <= i
        ensures Cum(log, j) - Cum(log, k) <= MaxDrawdownUpTo(log, i)
      {
        if k == i {
          assert Cum(log, j) <= Peak(log, i);
        }
      }
      if Peak(log, i) - Cum(log, i) <= MaxDrawdownUpTo(log, i - 1) {
        var j, k :| 0 <= j <= k <= i - 1 && MaxDrawdownUpTo(log, i - 1) == Cum(log, j) - Cum(log, k);
        assert MaxDrawdownUpTo(log, i) == Cum(log, j) - Cum(log, k);
      } else {
        var j :| 0 <= j <= i && Peak(log, i) == Cum(log, j);
        assert MaxDrawdownUpTo(log, i) == Cum(log, j) - Cum(log, i);
      }
    }
  }

  /** A zero PnL is neither a win nor a loss in the scan. */
  lemma {:induction false} WinsAndLossesDisjoint(log: seq<TradeLogEntry>, i: nat)
    requires i <= |log|
    ensures 0 <= Wins(log, i) && 0 <= Losses(log, i)
    ensures Wins(log, i) + Losses(log, i) + |set j | 0 <= j < i && log[j].pnl == 0.0| == i
  {
    if i > 0 {
      WinsAndLossesDisjoint(log, i - 1);
      var zeros := set j | 0 <= j < i && log[j].pnl == 0.0;
      var before := set j | 0 <= j < i - 1 && log[j].pnl == 0.0;
      if log[i - 1].pnl == 0.0 {
        assert zeros == before + {i - 1};
      } else {
        assert zeros == before;
      }
    }
  }

  /** What CalculatePerformanceMetrics derives from a non-empty log. */
  function ScanMetrics(log: seq<TradeLogEntry>): (m: PerformanceMetrics)
    requires |log| > 0
    ensures m.totalTrades == |log|
    ensures m.maxDrawdown >= 0.0
    ensures m.totalPnl == Cum(log, |log|)
    ensures m.winRate == m.winningTrades as real / |log| as real
  {
    DrawdownIsLargestDrop(log, |log|);
    assert Cum(log, 0) - Cum(log, 0) <= MaxDrawdownUpTo(log, |log|);
    var n := |log| as real;
    PerformanceMetrics(|log|, Wins(log, |log|), Losses(log, |log|), Wins(log, |log|) as real / n,
                       Cum(log, |log|), Cum(log, |log|) / n, MaxDrawdownUpTo(log, |log|))
  }

  /** UpdateTradePnL's bookkeeping: one more trade, counted as a win for a
      positive PnL and as a loss otherwise (a zero PnL included), with the
      rates recomputed. */
  function RecordTrade(m: PerformanceMetrics, pnl: real): (r: PerformanceMetrics)
    ensures r.totalTrades == m.totalTrades + 1 && r.totalPnl == m.totalPnl + pnl
    ensures r.winningTrades + r.losingTrades == m.winningTrades + m.losingTrades + 1
    ensures r.winningTrades == m.winningTrades + 1 <==> pnl > 0.0
    ensures r.maxDrawdown == m.maxDrawdown
    ensures r.totalTrades > 0 ==> r.winRate == r.winningTrades as real / r.totalTrades as real
    ensures r.totalTrades > 0 ==> r.averagePnl == r.totalPnl / r.totalTrades as real
  {
    var total := m.totalTrades + 1;
    var winning := if pnl > 0.0 then m.winningTrades + 1 else m.winningTrades;
    var losing := if pnl > 0.0 then m.losingTrades else m.losingTrades + 1;
    var totalPnl := m.totalPnl + pnl;
    if total > 0 then
      PerformanceMetrics(total, winning, losing, winning as real / total as real, totalPnl, totalPnl / total as real, m.maxDrawdown)
    else
      PerformanceMetrics(total, winning, losing, m.winRate, totalPnl, m.averagePnl, m.maxDrawdown)
  }

  /** The two counters disagree on a break-even trade: UpdateTradePnL counts
      it as a loss, the scan of CalculatePerformanceMetrics as neither. */
  lemma BreakEvenCountedDifferently(m: PerformanceMetrics, e: TradeLogEntry)
    requires e.pnl == 0.0
    ensures RecordTrade(m, e.pnl).losingTrades == m.losingTrades + 1
    ensures ScanMetrics([e]).losingTrades == 0 && ScanMetrics([e]).winningTrades == 0
  {
    assert Losses([e], 1) == Losses([e], 0) + 0;
    assert Wins([e], 1) == Wins([e], 0) + 0;
  }

  /** The equal split of UpdateTopCoins, summed in symbol order. */
  function SumOver(alloc: map<string, real>, symbols: seq<string>): real
    requires forall s :: s in symbols ==> s in alloc
  {
    if |symbols| == 0 then 0.0 else SumOver(alloc, symbols[..|symbols| - 1]) + alloc[symbols[|symbols| - 1]]
  }

  /** Allocations of 1/N to each of N symbols add up to 1. */
  lemma EqualSplitSumsToOne(alloc: map<string, real>, symbols: seq<string>)
    requires |symbols| > 0
    requires forall s :: s in symbols ==> s in alloc && alloc[s] == 1.0 / |symbols| as real
    ensures SumOver(alloc, symbols) == 1.0
  {
    EqualSplitPrefix(alloc, symbols, |symbols|);
    assert symbols[..|symbols|] == symbols;
    var n := |symbols| as real;
    assert n * (1.0 / n) == 1.0;
  }

  lemma {:induction false} EqualSplitPrefix(alloc: map<string, real>, symbols: seq<string>, i: nat)
    requires 0 < |symbols| && i <= |symbols|
    requires forall s :: s in symbols ==> s in alloc && alloc[s] == 1.0 / |symbols| as real
    ensures SumOver(alloc, symbols[..i]) == i as real * (1.0 / |symbols| as real)
  {
    if i > 0 {
      EqualSplitPrefix(alloc, symbols, i - 1);
      assert symbols[..i][..i - 1] == symbols[..i - 1];
      assert symbols[..i][i - 1] == symbols[i - 1];
    }
  }

  // ---------------------------------------------------------------------------
  // The manager

  class PortfolioManager {
    const config: Config
    const analyzer: MarketAnalyzer
    var symbols: seq<string>
    var allocations: map<string, real>
    var performance: map<string, real>
    var tradeLog: seq<TradeLogEntry>
    var metrics: PerformanceMetrics

    /** NewPortfolioManager, with the shared analyzer attached. */
    constructor(cfg: Config, sharedAnalyzer: MarketAnalyzer)
      ensures config == cfg && analyzer == sharedAnalyzer
      ensures symbols == [] && allocations == map[] && performance == map[]
      ensures tradeLog == [] && metrics == ZeroMetrics
    {
      config := cfg;
      analyzer := sharedAnalyzer;
      symbols := [];
      allocations := map[];
      performance := map[];
      tradeLog := [];
      metrics := ZeroMetrics;
    }

    /** UpdateTopCoins: on a fetch error nothing changes; otherwise the
        symbols are replaced and each gets an equal share of 1. */
    method UpdateTopCoins(fetched: Result<seq<string>, string>) returns (err: Option<string>)
      modifies this
      ensures fetched.Err? ==> err == Some(fetched.error) && symbols == old(symbols) && allocations == old(allocations)
      ensures fetched.Ok? ==> err.None? && symbols == fetched.value
      ensures fetched.Ok? ==> (forall s :: s in allocations <==> s in fetched.value)
      ensures fetched.Ok? ==> forall s :: s in allocations ==> allocations[s] == 1.0 / |fetched.value| as real
      ensures performance == old(performance) && tradeLog == old(tradeLog) && metrics == old(metrics)
    {
      if fetched.Err? {
        return Some(fetched.error);
      }
      symbols := fetched.value;
      allocations := map[];
      var allocation := if |symbols| == 0 then 0.0 else 1.0 / |symbols| as real;
      var i := 0;
      while i < |symbols|
        invariant 0 <= i <= |symbols| && symbols == fetched.value
        invariant forall s :: s in allocations <==> s in symbols[..i]
        invariant forall s :: s in allocations ==> allocations[s] == allocation
        invariant performance == old(performance) && tradeLog == old(tradeLog) && metrics == old(metrics)
      {
        assert symbols[..i + 1] == symbols[..i] + [symbols[i]];
        allocations := allocations[symbols[i] := allocation];
        i := i + 1;
      }
      assert symbols[..i] == symbols;
      return None;
    }

    function GetAllocation(symbol: string): real
      reads this
    {
      if symbol in allocations then allocations[symbol] else 0.0
    }

    /** GetPerformanceBasedAllocation. */
    function GetPerformanceBasedAllocation(symbol: string): real
      reads this
    {
      PerformanceAllocation(GetAllocation(symbol), if symbol in performance then Some(performance[symbol]) else None)
    }

    /** GetVolatilityAdjustedAllocation, reading the shared analyzer. */
    function GetVolatilityAdjustedAllocation(symbol: string): real
      reads this, analyzer
    {
      VolatilityAllocation(GetAllocation(symbol),
        if symbol in analyzer.volatilityTracker then Some(analyzer.volatilityTracker[symbol]) else None)
    }

    /** GetOptimalAllocation: the mean of the two adjusted allocations. */
    function GetOptimalAllocation(symbol: string): (a: real)
      reads this, analyzer
      ensures GetAllocation(symbol) >= 0.0 ==> GetAllocation(symbol) * 0.1 <= a <= GetAllocation(symbol) * 1.5
    {
      var base := GetAllocation(symbol);
      var p := GetPerformanceBasedAllocation(symbol);
      var v := GetVolatilityAdjustedAllocation(symbol);
      assert base >= 0.0 ==> base * 0.1 <= p <= base * 2.0 && base * 0.1 <= v <= base;
      (p + v) / 2.0
    }

    /** UpdatePerformance: the symbol's entry is smoothed in; no other entry
        changes. */
    method UpdatePerformance(symbol: string, sample: real)
      modifies this
      ensures performance == old(performance)[symbol := Smoothed(if symbol in old(performance) then Some(old(performance)[symbol]) else None, sample)]
      ensures symbols == old(symbols) && allocations == old(allocations)
      ensures tradeLog == old(tradeLog) && metrics == old(metrics)
    {
      if symbol !in performance {
        performance := performance[symbol := sample];
      } else {
        performance := performance[symbol := sample * 0.8 + performance[symbol] * 0.2];
      }
    }

    /** LogTrade: one entry appended, with no PnL yet. */
    method LogTrade(timestamp: int, symbol: string, action: string, quantity: real, price: real,
                    strategy: string, confidence: real, reason: string)
      modifies this
      ensures tradeLog == old(tradeLog) + [TradeLogEntry(timestamp, symbol, action, quantity, price, strategy, confidence, reason, 0.0, 0.0)]
      ensures symbols == old(symbols) && allocations == old(allocations)
      ensures performance == old(performance) && metrics == old(metrics)
    {
      var entry := TradeLogEntry(timestamp, symbol, action, quantity, price, strategy, confidence, reason, 0.0, 0.0);
      tradeLog := tradeLog + [entry];
    }

    /** UpdateTradePnL: the newest entry for the symbol (if any) gets the PnL
        and the running total; the counters record one more trade. */
    method UpdateTradePnL(symbol: string, entryPrice: real, exitPrice: real, quantity: real, isLong: bool)
      modifies this
      ensures var pnl := TradePnl(entryPrice, exitPrice, quantity, isLong);
              var idx := LastIndexOf(old(tradeLog), symbol);
              tradeLog == (if idx.None? then old(tradeLog)
                           else old(tradeLog)[idx.value := old(tradeLog)[idx.value].(pnl := pnl, cumulativePnl := old(metrics).totalPnl + pnl)])
      ensures metrics == RecordTrade(old(metrics), TradePnl(entryPrice, exitPrice, quantity, isLong))
      ensures symbols == old(symbols) && allocations == old(allocations) && performance == old(performance)
    {
      var pnl := 0.0;
      if isLong {
        pnl := (exitPrice - entryPrice) * quantity;
      } else {
        pnl := (entryPrice - exitPrice) * quantity;
      }
      var i := |tradeLog| - 1;
      while i >= 0
        invariant -1 <= i < |tradeLog| && tradeLog == old(tradeLog)
        invariant forall j :: i < j < |tradeLog| ==> tradeLog[j].symbol != symbol
        invariant LastIndexOf(tradeLog, symbol) == LastIndexOf(tradeLog[..i + 1], symbol)
        decreases i
      {
        if tradeLog[i].symbol == symbol {
          tradeLog := tradeLog[i := tradeLog[i].(pnl := pnl, cumulativePnl := metrics.totalPnl + pnl)];
          break;
        }
        assert tradeLog[..i + 1][..i] == tradeLog[..i];
        i := i - 1;
      }
      metrics := RecordTrade(metrics, pnl);
    }

    /** GetTradeLogForSymbol: a filtering loop over the log. */
    method GetTradeLogForSymbol(symbol: string) returns (trades: seq<TradeLogEntry>)
      ensures trades == ForSymbol(tradeLog, symbol)
    {
      trades := [];
      var i := 0;
      while i < |tradeLog|
        invariant 0 <= i <= |tradeLog|
        invariant trades == ForSymbol(tradeLog[..i], symbol)
      {
        assert tradeLog[..i + 1][..i] == tradeLog[..i];
        if tradeLog[i].symbol == symbol {
          trades := trades + [tradeLog[i]];
        }
        i := i + 1;
      }
      assert tradeLog[..i] == tradeLog;
    }

    /** CalculatePerformanceMetrics: the stored metrics for an empty log;
        otherwise one scan of the log, whose result is stored. */
    method CalculatePerformanceMetrics() returns (m: PerformanceMetrics)
      modifies this
      ensures |tradeLog| == 0 ==> m == old(metrics)
      ensures |tradeLog| > 0 ==> m == ScanMetrics(tradeLog)
      ensures metrics == m
      ensures symbols == old(symbols) && allocations == old(allocations)
      ensures performance == old(performance) && tradeLog == old(tradeLog)
    {
      if |tradeLog| == 0 {
        return metrics;
      }
      var winning := 0;
      var losing := 0;
      var totalPnl := 0.0;
      var maxDrawdown := 0.0;
      var cumulative := 0.0;
      var peak := 0.0;
      var i := 0;
      while i < |tradeLog|
        invariant 0 <= i <= |tradeLog|
        invariant cumulative == Cum(tradeLog, i) && totalPnl == Cum(tradeLog, i)
        invariant peak == Peak(tradeLog, i) && maxDrawdown == MaxDrawdownUpTo(tradeLog, i)
        invariant winning == Wins(tradeLog, i) && losing == Losses(tradeLog, i)
      {
        var trade := tradeLog[i];
        totalPnl := totalPnl + trade.pnl;
        cumulative := cumulative + trade.pnl;
        if cumulative > peak {
          peak := cumulative;
        }
        var drawdown := peak - cumulative;
        if drawdown > maxDrawdown {
          maxDrawdown := drawdown;
        }
        if trade.pnl > 0.0 {
          winning := winning + 1;
        } else if trade.pnl < 0.0 {
          losing := losing + 1;
        }
        i := i + 1;
      }
      var n := |tradeLog| as real;
      m := PerformanceMetrics(|tradeLog|, winning, losing, winning as real / n, totalPnl, totalPnl / n, maxDrawdown);
      metrics := m;
    }

    /** The per-symbol loop of RebalancePortfolio: each symbol's target value
        is the capital times its optimal allocation. */
    method TargetValues() returns (targets: seq<real>)
      ensures |targets| == |symbols|
      ensures forall i :: 0 <= i < |targets| ==> targets[i] == config.totalCapital * GetOptimalAllocation(symbols[i])
    {
      targets := [];
      var i := 0;
      while i < |symbols|
        invariant 0 <= i <= |symbols|
        invariant |targets| == i
        invariant forall j :: 0 <= j < i ==> targets[j] == config.totalCapital * GetOptimalAllocation(symbols[j])
      {
        var allocation := GetOptimalAllocation(symbols[i]);
        targets := targets + [config.totalCapital * allocation];
        i := i + 1;
      }
    }

    /** RebalancePortfolio: refreshes the symbols (failing as UpdateTopCoins
        fails) and reports each symbol's target value, the capital times its
        optimal allocation. */
    method RebalancePortfolio(fetched: Result<seq<string>, string>) returns (err: Option<string>, targets: seq<real>)
      modifies this
      ensures fetched.Err? ==> err.Some? && symbols == old(symbols) && allocations == old(allocations)
      ensures fetched.Ok? ==> err.None? && symbols == fetched.value
      ensures fetched.Ok? ==> |targets| == |symbols|
      ensures fetched.Ok? ==> forall i :: 0 <= i < |targets| ==> targets[i] == config.totalCapital * GetOptimalAllocation(symbols[i])
      ensures performance == old(performance) && tradeLog == old(tradeLog) && metrics == old(metrics)
    {
      targets := [];
      var e := UpdateTopCoins(fetched);
      if e.Some? {
        return Some(e.value), [];
      }
      targets := TargetValues();
      return None, targets;
    }
  }
}
