/** The sample backtest of internal/backtest/backtester.go: a loop that steps
    one day at a time from the start date up to (not including) the end date
    and, on every day of the month divisible by 5, records the same winning
    BTCUSDT trade until 50 trades have been recorded.

    Times are integers in nanoseconds; the calendar's day-of-month of a time
    is the parameter `dayOf`. */
module Backtesting {
  import opened Outcomes
  import opened Bybit

  /** 24 hours in nanoseconds. */
  const Day: int := 86_400_000_000_000

  const MaxTrades: nat := 50

  /** The profit of every sample trade (1000) net of its commission (10). */
  const NetPerTrade: real := 990.0

  datatype TradeRecord = TradeRecord(
    timestamp: int, symbol: string, action: string, quantity: real,
    entryPrice: real, exitPrice: real, pnl: real, commission: real)

  datatype EquityPoint = EquityPoint(timestamp: int, equity: real)

  /** TotalReturn and WinRate are None where Go's float division would give
      NaN or an infinity (zero initial capital, no trade). */
  datatype BacktestResult = BacktestResult(
    strategyName: string, startDate: int, endDate: int,
    initialCapital: real, finalCapital: real, totalReturn: Option<real>,
    totalTrades: int, winningTrades: int, losingTrades: int,
    winRate: Option<real>, maxDrawdown: real, sharpeRatio: real, sortinoRatio: real,
    tradeHistory: seq<TradeRecord>, equityCurve: seq<EquityPoint>)

  /** The trade the loop records at time t. */
  function SampleTrade(t: int): TradeRecord {
    TradeRecord(t, "BTCUSDT", "BUY", 0.1, 50000.0, 51000.0, 1000.0, 10.0)
  }

  /** Reference definition: the times at which trades are recorded, walking
      day by day from `current` while before `end`, with `budget` trades
      still allowed. */
  function TradeTimes(current: int, end: int, dayOf: int -> int, budget: nat): seq<int>
    decreases end - current
  {
    if current >= end then []
    else if budget > 0 && dayOf(current) % 5 == 0 then [current] + TradeTimes(current + Day, end, dayOf, budget - 1)
    else TradeTimes(current + Day, end, dayOf, budget)
  }

  /** A time visited by the walk: a whole number of days after `start` and
      before `end`. */
  predicate Visited(start: int, end: int, t: int) {
    start <= t < end && (t - start) % Day == 0
  }

  /** What the walk records: at most `budget` trades, each on a visited day
      whose day of the month is divisible by 5, in strictly increasing order. */
  lemma {:induction false} TradeTimesShape(current: int, end: int, dayOf: int -> int, budget: nat)
    ensures |TradeTimes(current, end, dayOf, budget)| <= budget
    ensures forall i :: 0 <= i < |TradeTimes(current, end, dayOf, budget)| ==>
              Visited(current, end, TradeTimes(current, end, dayOf, budget)[i])
              && dayOf(TradeTimes(current, end, dayOf, budget)[i]) % 5 == 0
    ensures forall i, j :: 0 <= i < j < |TradeTimes(current, end, dayOf, budget)| ==>
              TradeTimes(current, end, dayOf, budget)[i] < TradeTimes(current, end, dayOf, budget)[j]
    decreases end - current
  {
    if current < end {
      var rest := TradeTimes(current + Day, end, dayOf, if budget > 0 && dayOf(current) % 5 == 0 then budget - 1 else budget);
      TradeTimesShape(current + Day, end, dayOf, if budget > 0 && dayOf(current) % 5 == 0 then budget - 1 else budget);
      forall i | 0 <= i < |rest|
        ensures Visited(current, end, rest[i])
      {
        assert Visited(current + Day, end, rest[i]);
        assert (rest[i] - current) % Day == ((rest[i] - (current + Day)) + Day) % Day;
      }
    }
  }

  /** While fewer than `budget` trades are recorded, every visited day whose
      day of the month is divisible by 5 gets one: no qualifying day is
      skipped before the cap is reached. */
  lemma {:induction false} TradeTimesComplete(current: int, end: int, dayOf: int -> int, budget: nat, t: int)
    requires |TradeTimes(current, end, dayOf, budget)| < budget
    requires Visited(current, end, t) && dayOf(t) % 5 == 0
    ensures t in TradeTimes(current, end, dayOf, budget)
    decreases end - current
  {
    if t != current {
      assert t - current >= Day by {
        assert (t - current) % Day == 0 && t - current > 0;
      }
      assert (t - (current + Day)) % Day == 0 by {
        assert (t - (current + Day)) % Day == ((t - current) - Day) % Day;
      }
      if budget > 0 && dayOf(current) % 5 == 0 {
        TradeTimesComplete(current + Day, end, dayOf, budget - 1, t);
      } else {
        TradeTimesComplete(current + Day, end, dayOf, budget, t);
      }
    }
  }

  function Times(history: seq<TradeRecord>): (ts: seq<int>)
    ensures |ts| == |history|
    ensures forall i :: 0 <= i < |history| ==> ts[i] == history[i].timestamp
  {
    if history == [] then [] else Times(history[..|history| - 1]) + [history[|history| - 1].timestamp]
  }

  /** The equity values along a curve never decrease. */
  predicate NonDecreasing(curve: seq<EquityPoint>) {
    forall i, j :: 0 <= i < j < |curve| ==> curve[i].equity <= curve[j].equity
  }

  /** A curve that starts at the initial capital, gains NetPerTrade per
      point and repeats its last value never decreases. */
  lemma CurveNonDecreasing(curve: seq<EquityPoint>, initial: real, trades: nat)
    requires |curve| == trades + 2
    requires forall i :: 0 <= i <= trades ==> curve[i].equity == initial + NetPerTrade * i as real
    requires curve[trades + 1].equity == initial + NetPerTrade * trades as real
    ensures NonDecreasing(curve)
  {
    forall i, j | 0 <= i < j < |curve|
      ensures curve[i].equity <= curve[j].equity
    {
      var k := if j == trades + 1 then trades else j;
      assert curve[i].equity == initial + 990.0 * i as real;
      assert curve[j].equity == initial + 990.0 * k as real;
    }
  }

  /** The day loop of Backtester.Run, with the state it leaves behind. */
  method SimulateDays(initialCapital: real, startDate: int, endDate: int, dayOf: int -> int)
    returns (history: seq<TradeRecord>, totalTrades: int, winningTrades: int, curve: seq<EquityPoint>, equity: real)
    ensures Times(history) == TradeTimes(startDate, endDate, dayOf, MaxTrades)
    ensures totalTrades == winningTrades == |history| <= MaxTrades
    ensures forall i :: 0 <= i < |history| ==> history[i] == SampleTrade(history[i].timestamp)
    ensures equity == initialCapital + NetPerTrade * totalTrades as real
    ensures |curve| == totalTrades + 1
    ensures curve[0] == EquityPoint(startDate, initialCapital)
    ensures forall i :: 1 <= i <= totalTrades ==>
              curve[i] == EquityPoint(history[i - 1].timestamp, initialCapital + NetPerTrade * i as real)
  {
    history := [];
    curve := [EquityPoint(startDate, initialCapital)];
    totalTrades := 0;
    winningTrades := 0;
    equity := initialCapital;
    var currentTime := startDate;

    while currentTime < endDate
      invariant totalTrades == winningTrades == |history| <= MaxTrades
      invariant Times(history) + TradeTimes(currentTime, endDate, dayOf, MaxTrades - totalTrades)
                == TradeTimes(startDate, endDate, dayOf, MaxTrades)
      invariant forall i :: 0 <= i < |history| ==> history[i] == SampleTrade(history[i].timestamp)
      invariant equity == initialCapital + NetPerTrade * totalTrades as real
      invariant |curve| == totalTrades + 1
      invariant curve[0] == EquityPoint(startDate, initialCapital)
      invariant forall i :: 1 <= i <= totalTrades ==>
                  curve[i] == EquityPoint(history[i - 1].timestamp, initialCapital + NetPerTrade * i as real)
      decreases endDate - currentTime
    {
      if totalTrades < MaxTrades && dayOf(currentTime) % 5 == 0 {
        var trade := SampleTrade(currentTime);
        history := history + [trade];
        totalTrades := totalTrades + 1;
        winningTrades := winningTrades + 1;
        equity := equity + (trade.pnl - trade.commission);
        curve := curve + [EquityPoint(currentTime, equity)];
      }
      currentTime := currentTime + Day;
    }
  }

  datatype Backtester = Backtester(data: map<string, seq<Kline>>) {

    /** Run: the loop over days and the final figures. */
    method Run(initialCapital: real, startDate: int, endDate: int, dayOf: int -> int) returns (result: BacktestResult)
      ensures Times(result.tradeHistory) == TradeTimes(startDate, endDate, dayOf, MaxTrades)
      ensures forall i :: 0 <= i < |result.tradeHistory| ==>
                result.tradeHistory[i] == SampleTrade(result.tradeHistory[i].timestamp)
      ensures result.totalTrades == result.winningTrades == |result.tradeHistory| <= MaxTrades
      ensures result.losingTrades == 0
      ensures result.initialCapital == initialCapital
      ensures result.finalCapital == initialCapital + NetPerTrade * result.totalTrades as real
      ensures |result.equityCurve| == result.totalTrades + 2
      ensures result.equityCurve[0] == EquityPoint(startDate, initialCapital)
      ensures result.equityCurve[|result.equityCurve| - 1] == EquityPoint(endDate, result.finalCapital)
      ensures forall i :: 1 <= i <= result.totalTrades ==>
                result.equityCurve[i] == EquityPoint(result.tradeHistory[i - 1].timestamp, initialCapital + NetPerTrade * i as real)
      ensures NonDecreasing(result.equityCurve)
      ensures result.totalReturn == if initialCapital == 0.0 then None
                                    else Some(NetPerTrade * result.totalTrades as real / initialCapital * 100.0)
      ensures result.winRate == if result.totalTrades == 0 then None else Some(100.0)
      ensures startDate >= endDate ==> result.totalTrades == 0
    {
      var history, totalTrades, winningTrades, curve, equity := SimulateDays(initialCapital, startDate, endDate, dayOf);
      assert equity - initialCapital == NetPerTrade * totalTrades as real;
      var totalReturn := if initialCapital == 0.0 then None else Some((equity - initialCapital) / initialCapital * 100.0);
      var winRate := if totalTrades == 0 then None else Some(winningTrades as real / totalTrades as real * 100.0);
      assert totalTrades != 0 ==> winningTrades as real / totalTrades as real == 1.0;
      curve := curve + [EquityPoint(endDate, equity)];
      result := BacktestResult("Backtest Strategy", startDate, endDate, initialCapital, equity, totalReturn,
                               totalTrades, winningTrades, 0, winRate, 5.0, 1.5, 2.1, history, curve);
      assert Times(history) == TradeTimes(startDate, endDate, dayOf, MaxTrades);
      CurveNonDecreasing(curve, initialCapital, totalTrades);
    }
  }
}
