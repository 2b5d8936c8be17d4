/** The orchestrator of cmd/bot/main.go: the bot that owns one instance of
    each component, the manual override commands, the ticker loop that runs a
    trading cycle only while the bot is running, and the ten steps of a
    trading cycle with the failures that end it and those that only skip a
    symbol.

    Everything the cycle gets from outside (the exchange's answers, the clock,
    the selected strategy's analysis) is a field of `CycleInputs`; the
    notifications the bot sends are recorded in `alerts`. */
module TradingBots {
  import opened Outcomes
  import opened Configuration
  import opened Bybit
  import opened Strategy
  import CB = CircuitBreakers
  import MI = MarketIndicators
  import MA = MarketAnalysis
  import AI = StrategySelection
  import RM = RiskManagement
  import PM = PortfolioManagement

  /** The breaker of NewTradingBot: 10 seconds (in nanoseconds), 5 failures. */
  const BreakerTimeout: int := 10_000_000_000
  const BreakerThreshold: int := 5

  /** A notification the bot sends. */
  datatype Alert =
    | EmergencyStopAlert(message: string)
    | TradeAlert(symbol: string, action: SignalAction, quantity: real, price: real, strategy: string, confidence: real)

  /** The action text a trade signal carries. */
  function ActionText(a: SignalAction): string {
    match a
    case Buy => "BUY"
    case Sell => "SELL"
    case Hold => "HOLD"
    case PlaceOrders => "PLACE_ORDERS"
  }

  // ---------------------------------------------------------------------------
  // Manual override commands

  /** The commands that decide whether the bot runs. */
  predicate Decisive(command: string) {
    command == "start" || command == "stop" || command == "emergency_stop"
  }

  /** The running flag after one command. */
  function AfterCommand(running: bool, command: string): bool {
    if command == "start" then true
    else if command == "stop" || command == "emergency_stop" then false
    else running
  }

  /** The running flag after a series of commands, in arrival order. */
  function RunningAfter(running: bool, commands: seq<string>): bool
    decreases |commands|
  {
    if commands == [] then running else RunningAfter(AfterCommand(running, commands[0]), commands[1..])
  }

  /** The alerts a series of commands sends: one per emergency stop. */
  function CommandAlerts(commands: seq<string>): seq<Alert>
    decreases |commands|
  {
    if commands == [] then []
    else (if commands[0] == "emergency_stop" then [EmergencyStopAlert("Manual emergency stop triggered")] else [])
         + CommandAlerts(commands[1..])
  }

  /** With no start, stop or emergency stop among the commands, the flag
      is unchanged. */
  lemma {:induction false} OtherCommandsKeepFlag(running: bool, commands: seq<string>)
    requires forall i :: 0 <= i < |commands| ==> !Decisive(commands[i])
    ensures RunningAfter(running, commands) == running
    decreases |commands|
  {
    if commands != [] {
      assert !Decisive(commands[0]);
      assert forall i :: 0 <= i < |commands[1..]| ==> commands[1..][i] == commands[i + 1];
      OtherCommandsKeepFlag(running, commands[1..]);
    }
  }

  /** The last start, stop or emergency stop decides: the flag ends true
      exactly when it is "start". */
  lemma {:induction false} LastDecisiveCommandWins(running: bool, commands: seq<string>, i: nat)
    requires i < |commands| && Decisive(commands[i])
    requires forall j :: i < j < |commands| ==> !Decisive(commands[j])
    ensures RunningAfter(running, commands) == (commands[i] == "start")
    decreases i
  {
    var rest := commands[1..];
    assert forall j :: 0 <= j < |rest| ==> rest[j] == commands[j + 1];
    if i == 0 {
      OtherCommandsKeepFlag(AfterCommand(running, commands[0]), rest);
    } else {
      LastDecisiveCommandWins(AfterCommand(running, commands[0]), rest, i - 1);
    }
  }

  /** How many times a command occurs in a series. */
  function Occurrences(commands: seq<string>, command: string): nat
    decreases |commands|
  {
    if commands == [] then 0
    else (if commands[0] == command then 1 else 0) + Occurrences(commands[1..], command)
  }

  /** Every emergency stop sends exactly one alert, and no other command
      sends any. */
  lemma {:induction false} OneAlertPerEmergencyStop(commands: seq<string>)
    ensures |CommandAlerts(commands)| == Occurrences(commands, "emergency_stop")
    ensures forall a :: a in CommandAlerts(commands) ==> a == EmergencyStopAlert("Manual emergency stop triggered")
    decreases |commands|
  {
    if commands != [] {
      OneAlertPerEmergencyStop(commands[1..]);
    }
  }

  // ---------------------------------------------------------------------------
  // One cycle's view of the world

  /** What a trading cycle learns from outside: the clock (one reading for the
      whole cycle), the market data answer per symbol and the analysis each
      strategy implementation gives for a symbol's data. The square root is
      the one the correlation step uses. */
  datatype CycleInputs = CycleInputs(
    now: int,
    fetch: string -> Result<MarketData, string>,
    analyze: (StrategyType, MarketData) -> TradeSignal,
    sqrt: real -> real)

  /** The portfolio manager always asks the client for six coins, and the
      client answers with its fixed list without an error. */
  const CoinLimit := 6
  const TopCoinsAnswer: Result<seq<string>, string> := Ok(GetTopCoins(CoinLimit))

  /** Market data the volatility analysis accepts: it indexes out of range
      on 2 to 9 candles. */
  predicate Analyzable(d: MarketData) {
    |d.klines| < 2 || |d.klines| >= 10
  }

  /** Market data on which strategy `st`'s Analyze panics: momentum and
      mean reversion read the kline before the first one on exactly
      `RsiPeriod` klines, volatility breakout reads the second-to-last kline
      of a one-kline series. */
  predicate AnalyzePanics(st: StrategyType, d: MarketData) {
    match st
    case Momentum => |d.klines| == RsiPeriod
    case MeanReversion => |d.klines| == RsiPeriod
    case VolatilityBreakout => |d.klines| == 1
    case MarketMaking => false
  }

  /** Every strategy the selector may pick for the regime of `d` accepts `d`. */
  ghost predicate AcceptedBySelection(d: MarketData) {
    Analyzable(d) ==>
      forall st :: Heaviest(AI.Raw(MI.RegimeOf(MI.Volatility(d), MI.Trend(d), MI.Volume(d))), st) ==>
        !AnalyzePanics(st, d)
  }

  /** Inputs on which the Go code does not panic: neither the analyzer nor
      the selected strategy's analysis of any fetched data. */
  ghost predicate Admissible(w: CycleInputs) {
    && MI.PositiveRoot(w.sqrt)
    && (forall s :: w.fetch(s).Ok? ==> Analyzable(w.fetch(s).value))
    && (forall s :: w.fetch(s).Ok? ==> AcceptedBySelection(w.fetch(s).value))
  }

  /** Which call through the breaker ended the cycle, with the breaker's error. */
  datatype CycleError = TopCoinsFailed(cause: CB.CallError) | RebalanceFailed(cause: CB.CallError)

  /** The cycle's error when the top-coin update through the breaker fails. */
  function TopCoinsError(e: Option<CB.CallError>): (err: Option<CycleError>)
    ensures err.Some? <==> e.Some?
  {
    if e.Some? then Some(TopCoinsFailed(e.value)) else None
  }

  /** What a cycle did, for the contracts: the symbols it worked on, the
      market data it obtained, the strategies chosen, the performance samples
      recorded, the trade alerts sent, whether the market-data failures
      opened the breaker, and whether the risk manager asked to stop. */
  datatype CycleReport = CycleReport(
    symbols: seq<string>, data: map<string, MarketData>, selections: map<string, StrategyType>,
    samples: map<string, real>, tradeAlerts: seq<Alert>, openedByFetches: bool, stop: bool)

  const NothingDone := CycleReport([], map[], map[], map[], [], false, false)

  function LastClose(d: MarketData): real
    requires |d.klines| > 0
  {
    d.klines[|d.klines| - 1].close
  }

  /** The fnErr a breaker call sees when the wrapped call returns `r`. */
  function ErrorOf<T>(r: Result<T, string>): Option<string> {
    if r.Err? then Some(r.error) else None
  }

  /** The current prices: the last close of each symbol whose data has
      candles. */
  ghost predicate PricesFrom(data: map<string, MarketData>, prices: map<string, real>) {
    && (forall s :: s in prices <==> s in data && |data[s].klines| > 0)
    && (forall s :: s in prices ==> prices[s] == LastClose(data[s]))
  }

  lemma PricesExtend(data: map<string, MarketData>, prices: map<string, real>, symbol: string, d: MarketData)
    requires PricesFrom(data, prices)
    requires symbol in data ==> data[symbol] == d
    ensures |d.klines| > 0 ==> PricesFrom(data[symbol := d], prices[symbol := LastClose(d)])
    ensures |d.klines| == 0 ==> PricesFrom(data[symbol := d], prices)
  {
  }

  /** `st` is a strategy of largest weight, and that weight is positive. */
  predicate Heaviest(w: AI.Weights, st: StrategyType) {
    st in w && w[st] > 0.0 && forall t :: t in w ==> w[t] <= w[st]
  }

  /** The symbols among the first `i` of `symbols`. */
  ghost function Prefix(symbols: seq<string>, i: nat): set<string>
    requires i <= |symbols|
  {
    if i == 0 then {} else Prefix(symbols, i - 1) + {symbols[i - 1]}
  }

  lemma {:induction false} PrefixAll(symbols: seq<string>)
    ensures forall s :: s in Prefix(symbols, |symbols|) <==> s in symbols
  {
    if symbols != [] {
      var init := symbols[..|symbols| - 1];
      PrefixAll(init);
      PrefixAgree(init, symbols, |symbols| - 1);
      assert symbols == init + [symbols[|symbols| - 1]];
    }
  }

  /** Prefix depends only on the first `i` symbols. */
  lemma {:induction false} PrefixAgree(a: seq<string>, b: seq<string>, i: nat)
    requires i <= |a| && i <= |b| && forall k :: 0 <= k < i ==> a[k] == b[k]
    ensures Prefix(a, i) == Prefix(b, i)
  {
    if i > 0 {
      PrefixAgree(a, b, i - 1);
    }
  }

  /** The weight table after the first `i` symbols had their row of `raw`
      written over `weights0`, one after the other. */
  ghost function Overwritten(weights0: map<string, AI.Weights>, raw: map<string, AI.Weights>, symbols: seq<string>, i: nat)
    : map<string, AI.Weights>
    requires i <= |symbols|
  {
    if i == 0 then weights0
    else
      var w := Overwritten(weights0, raw, symbols, i - 1);
      if symbols[i - 1] in raw then w[symbols[i - 1] := raw[symbols[i - 1]]] else w
  }

  /** The rows written are those of `raw`; every other row is untouched. */
  lemma {:induction false} OverwrittenRows(weights0: map<string, AI.Weights>, raw: map<string, AI.Weights>,
                                           symbols: seq<string>, i: nat)
    requires i <= |symbols|
    ensures forall s :: s in Prefix(symbols, i) && s in raw ==>
              s in Overwritten(weights0, raw, symbols, i) && Overwritten(weights0, raw, symbols, i)[s] == raw[s]
    ensures forall s :: s !in Prefix(symbols, i) ==>
              (s in Overwritten(weights0, raw, symbols, i) <==> s in weights0)
              && (s in weights0 ==> Overwritten(weights0, raw, symbols, i)[s] == weights0[s])
  {
    if i > 0 {
      OverwrittenRows(weights0, raw, symbols, i - 1);
    }
  }

  /** Midway through step 6: the first `i` symbols have their selection, the
      heaviest strategy of their weights in `raw`, and the weight table has
      their rows written. */
  ghost predicate SelectedUpTo(raw: map<string, AI.Weights>, symbols: seq<string>, i: nat,
                               selections: map<string, StrategyType>,
                               weights0: map<string, AI.Weights>, weights: map<string, AI.Weights>) {
    && i <= |symbols|
    && selections.Keys == Prefix(symbols, i)
    && (forall s :: s in selections ==> s in raw && Heaviest(raw[s], selections[s]))
    && weights == Overwritten(weights0, raw, symbols, i)
  }

  lemma SelectedStep(raw: map<string, AI.Weights>, symbols: seq<string>, i: nat, selections: map<string, StrategyType>,
                     weights0: map<string, AI.Weights>, weights: map<string, AI.Weights>, best: StrategyType)
    requires i < |symbols| && SelectedUpTo(raw, symbols, i, selections, weights0, weights)
    requires symbols[i] in raw && Heaviest(raw[symbols[i]], best)
    ensures SelectedUpTo(raw, symbols, i + 1, selections[symbols[i] := best], weights0, weights[symbols[i] := raw[symbols[i]]])
  {
  }

  /** The analyzer's tables, as values. */
  datatype Trackers = Trackers(volatility: map<string, MI.VolatilityData>, trend: map<string, MI.TrendData>,
                               volume: map<string, MI.VolumeProfile>)

  /** The tables of `analyzer` are `t`. */
  ghost predicate Tracks(analyzer: MA.MarketAnalyzer, t: Trackers)
    reads analyzer
  {
    && analyzer.volatilityTracker == t.volatility && analyzer.trendIndicator == t.trend
    && analyzer.volumeAnalysis == t.volume
  }

  /** The regime GetMarketRegime reports for `s` over the tables `t`. */
  function RegimeIn(t: Trackers, s: string): MI.MarketRegime {
    if s in t.volatility && s in t.trend && s in t.volume then MI.RegimeOf(t.volatility[s], t.trend[s], t.volume[s])
    else MI.UnknownRegime
  }

  /** `raw` holds, for every symbol, the weights of its regime in `t`. */
  ghost predicate RawWeights(t: Trackers, symbols: seq<string>, raw: map<string, AI.Weights>) {
    forall k :: 0 <= k < |symbols| ==> symbols[k] in raw && raw[symbols[k]] == AI.Raw(RegimeIn(t, symbols[k]))
  }

  /** Once every symbol is selected: the selections cover exactly the
      symbols, each the heaviest of its raw weights, and the table holds the
      raw rows of the symbols and the old rows of every other key. */
  lemma SelectedAll(raw: map<string, AI.Weights>, symbols: seq<string>, selections: map<string, StrategyType>,
                    weights0: map<string, AI.Weights>, weights: map<string, AI.Weights>)
    requires SelectedUpTo(raw, symbols, |symbols|, selections, weights0, weights)
    ensures forall s :: s in selections <==> s in symbols
    ensures forall s :: s in selections ==> s in raw && Heaviest(raw[s], selections[s])
    ensures forall s :: s in symbols && s in raw ==> s in weights && weights[s] == raw[s]
    ensures forall s :: s !in symbols ==>
              (s in weights <==> s in weights0) && (s in weights ==> weights[s] == weights0[s])
  {
    PrefixAll(symbols);
    OverwrittenRows(weights0, raw, symbols, |symbols|);
  }

  /** GetMarketRegime is RegimeIn over the analyzer's tables. */
  lemma RegimesTracked(analyzer: MA.MarketAnalyzer, t: Trackers)
    requires Tracks(analyzer, t)
    ensures forall s :: analyzer.GetMarketRegime(s) == RegimeIn(t, s)
  {
  }

  /** SelectStrategy for the next symbol, `symbols[i]`, whose weights are
      recorded in `raw`. */
  method SelectNext(ai: AI.StrategyAI, symbols: seq<string>, ghost t: Trackers, ghost raw: map<string, AI.Weights>, i: nat,
                    selections: map<string, StrategyType>, ghost weights0: map<string, AI.Weights>)
    returns (selections': map<string, StrategyType>)
    requires i < |symbols| && Tracks(ai.analyzer, t) && RawWeights(t, symbols, raw)
    requires SelectedUpTo(raw, symbols, i, selections, weights0, ai.strategyWeights)
    modifies ai
    ensures SelectedUpTo(raw, symbols, i + 1, selections', weights0, ai.strategyWeights)
  {
    var symbol := symbols[i];
    assert ai.analyzer.GetMarketRegime(symbol) == RegimeIn(t, symbol);
    ghost var w := raw[symbol];
    var selected := ai.SelectStrategy(symbol);
    SelectedStep(raw, symbols, i, selections, weights0, old(ai.strategyWeights), selected);
    selections' := selections[symbol := selected];
  }

  /** The loop of step 6: SelectStrategy for each symbol in turn. */
  method SelectAll(ai: AI.StrategyAI, symbols: seq<string>, ghost t: Trackers, ghost raw: map<string, AI.Weights>)
    returns (selections: map<string, StrategyType>)
    requires Tracks(ai.analyzer, t) && RawWeights(t, symbols, raw)
    modifies ai
    ensures SelectedUpTo(raw, symbols, |symbols|, selections, old(ai.strategyWeights), ai.strategyWeights)
  {
    selections := map[];
    var i := 0;
    while i < |symbols|
      invariant Tracks(ai.analyzer, t)
      invariant SelectedUpTo(raw, symbols, i, selections, old(ai.strategyWeights), ai.strategyWeights)
    {
      selections := SelectNext(ai, symbols, t, raw, i, selections, old(ai.strategyWeights));
      i := i + 1;
    }
  }

  /** Every symbol with analysable data got the heaviest strategy for the
      regime of that data. */
  ghost predicate SelectedFor(data: map<string, MarketData>, selections: map<string, StrategyType>) {
    forall s :: s in data && Analyzable(data[s]) ==>
      s in selections
      && Heaviest(AI.Raw(MI.RegimeOf(MI.Volatility(data[s]), MI.Trend(data[s]), MI.Volume(data[s]))), selections[s])
  }

  /** `after` is `before` with each sample folded into its symbol's smoothed
      performance, and nothing else changed. */
  ghost predicate Folded(before: map<string, real>, after: map<string, real>, samples: map<string, real>) {
    && (forall s :: s in samples ==>
          s in after && after[s] == PM.Smoothed(if s in before then Some(before[s]) else None, samples[s]))
    && (forall s :: s !in samples ==> (s in after <==> s in before) && (s in after ==> after[s] == before[s]))
  }

  /** What a cycle that got its top coins did: it worked on those symbols,
      kept the data of the fetches that succeeded (all of them unless the
      failures opened the breaker, which takes at least one failure),
      selected a strategy per symbol, the heaviest for each fetched symbol's
      regime, and executed the selections on the symbols with data. */
  ghost predicate CycleRan(w: CycleInputs, report: CycleReport) {
    && (forall s :: s in report.data ==> s in report.symbols && w.fetch(s) == Ok(report.data[s]))
    && (!report.openedByFetches ==> forall s :: s in report.symbols && w.fetch(s).Ok? ==> s in report.data)
    && (report.openedByFetches ==> exists s :: s in report.symbols && w.fetch(s).Err?)
    && (forall s :: s in report.selections <==> s in report.symbols)
    && SelectedFor(report.data, report.selections)
    && Executed(w, report.data, report.selections, WithData(report.symbols, report.data), report.samples, report.tradeAlerts)
  }

  /** On admissible inputs the strategy a cycle selects for each fetched
      symbol accepts that symbol's data, so step 7 never reaches a
      strategy's panic. */
  lemma SelectionAvoidsPanics(w: CycleInputs, report: CycleReport)
    requires Admissible(w) && CycleRan(w, report)
    ensures forall s :: s in report.data ==>
              s in report.selections && !AnalyzePanics(report.selections[s], report.data[s])
  {
  }

  /** What the trading loop waits for: a tick of the ticker with that
      cycle's inputs, a manual override command, or a shutdown (context
      cancelled, interrupt signal or stop channel). */
  datatype LoopEvent = TickEvent(inputs: CycleInputs) | CommandEvent(command: string) | Shutdown

  ghost predicate AllAdmissible(events: seq<LoopEvent>) {
    forall e :: e in events && e.TickEvent? ==> Admissible(e.inputs)
  }

  /** The commands the loop handles: those before the first shutdown. */
  function LoopCommands(events: seq<LoopEvent>): seq<string>
    decreases |events|
  {
    if events == [] then []
    else match events[0]
      case Shutdown => []
      case CommandEvent(command) => [command] + LoopCommands(events[1..])
      case TickEvent(_) => LoopCommands(events[1..])
  }

  /** The ticks before the first shutdown that find the bot running, the
      flag following the commands as they arrive. */
  function CyclesRun(running: bool, events: seq<LoopEvent>): nat
    decreases |events|
  {
    if events == [] then 0
    else match events[0]
      case Shutdown => 0
      case CommandEvent(command) => CyclesRun(AfterCommand(running, command), events[1..])
      case TickEvent(_) => (if running then 1 else 0) + CyclesRun(running, events[1..])
  }

  /** The running flag after one event. */
  function FlagAfter(running: bool, e: LoopEvent): bool {
    if e.CommandEvent? then AfterCommand(running, e.command) else running
  }

  lemma UnfoldEvent(running: bool, events: seq<LoopEvent>)
    requires events != [] && !events[0].Shutdown?
    ensures RunningAfter(running, LoopCommands(events))
            == RunningAfter(FlagAfter(running, events[0]), LoopCommands(events[1..]))
    ensures CyclesRun(running, events)
            == (if events[0].TickEvent? && running then 1 else 0) + CyclesRun(FlagAfter(running, events[0]), events[1..])
  {
    if events[0].CommandEvent? {
      assert ([events[0].command] + LoopCommands(events[1..]))[1..] == LoopCommands(events[1..]);
    }
  }

  /** The loop's step over the `i`th event, a tick or a command. */
  lemma UnfoldEventAt(running: bool, events: seq<LoopEvent>, i: nat)
    requires i < |events| && !events[i].Shutdown? && AllAdmissible(events)
    ensures events[i].TickEvent? ==> Admissible(events[i].inputs)
    ensures RunningAfter(running, LoopCommands(events[i..]))
            == RunningAfter(FlagAfter(running, events[i]), LoopCommands(events[i + 1..]))
    ensures CyclesRun(running, events[i..])
            == (if events[i].TickEvent? && running then 1 else 0) + CyclesRun(FlagAfter(running, events[i]), events[i + 1..])
  {
    assert events[i] in events;
    UnfoldEvent(running, events[i..]);
    assert events[i..][1..] == events[i + 1..];
  }

  /** An empty risk table never asks to stop trading when the limits are
      not negative: drawdown and exposure are both 0. */
  lemma EmptyBookNeverStops(cfg: Config, ps: map<string, RM.PositionRisk>)
    requires ps.Keys == {} && cfg.maxDrawdown >= 0.0 && cfg.totalCapital >= 0.0
    ensures !RM.StopCondition(cfg, ps)
  {
    assert RM.Total(ps, RM.CostOf) == 0.0;
    assert RM.Total(ps, RM.ExposureOf) == 0.0;
  }

  /** A stopped bot that is never sent "start" runs no cycle after the
      initial one, however many ticks arrive. */
  lemma {:induction false} StoppedBotStaysIdle(events: seq<LoopEvent>)
    requires forall e :: e in events ==> e != CommandEvent("start")
    ensures CyclesRun(false, events) == 0
    ensures !RunningAfter(false, LoopCommands(events))
    decreases |events|
  {
    if events != [] {
      assert events[0] in events;
      assert forall e :: e in events[1..] ==> e in events;
      StoppedBotStaysIdle(events[1..]);
      match events[0]
      case Shutdown =>
      case TickEvent(_) =>
      case CommandEvent(command) =>
        assert ([command] + LoopCommands(events[1..]))[1..] == LoopCommands(events[1..]);
    }
  }

  /** The symbols of `symbols` that have market data, in order. */
  function WithData(symbols: seq<string>, data: map<string, MarketData>): (r: seq<string>)
    ensures forall s :: s in r <==> s in symbols && s in data
    decreases |symbols|
  {
    if symbols == [] then []
    else
      var last := symbols[|symbols| - 1];
      assert forall s :: s in symbols <==> s in symbols[..|symbols| - 1] || s == last;
      WithData(symbols[..|symbols| - 1], data) + (if last in data then [last] else [])
  }

  /** The symbols a series of notifications sends trade alerts for. */
  function AlertedSymbols(sent: seq<Alert>): (r: set<string>)
    ensures forall s :: s in r <==> exists a :: a in sent && a.TradeAlert? && a.symbol == s
    decreases |sent|
  {
    if sent == [] then {}
    else
      var last := sent[|sent| - 1];
      assert forall a :: a in sent <==> a in sent[..|sent| - 1] || a == last;
      AlertedSymbols(sent[..|sent| - 1]) + (if last.TradeAlert? then {last.symbol} else {})
  }

  /** The price a trade is logged and alerted at: the last candle's close,
      or 0 without candles. */
  function LastPrice(d: MarketData): real {
    if |d.klines| > 0 then d.klines[|d.klines| - 1].close else 0.0
  }

  /** The quantity that buys `target` worth at the last price, or 0 when that
      price is 0. */
  function TradeQuantity(target: real, d: MarketData): real {
    var price := LastPrice(d);
    if price != 0.0 then target / price else 0.0
  }

  /** `a` is the trade alert for `symbol` traded with `selected` on signal
      `sig`, at the last price of `d`. */
  predicate Follows(a: Alert, symbol: string, selected: StrategyType, sig: TradeSignal, d: MarketData) {
    && a.TradeAlert? && a.symbol == symbol && a.action == sig.action && a.action != Hold
    && a.strategy == selected.Name() && a.confidence == sig.strength && a.price == LastPrice(d)
  }

  /** Step 7's outcome over the processed symbols: a sample of strength
      times 100 per symbol, and a trade alert exactly for the symbols whose
      signal is not HOLD, each following that signal. */
  ghost predicate Executed(w: CycleInputs, data: map<string, MarketData>, selections: map<string, StrategyType>,
                           processed: seq<string>, samples: map<string, real>, sent: seq<Alert>)
  {
    SampledAll(w, data, selections, processed, samples) && AlertedAll(w, data, selections, processed, sent)
  }

  /** A sample of strength times 100 for each processed symbol. */
  ghost predicate SampledAll(w: CycleInputs, data: map<string, MarketData>, selections: map<string, StrategyType>,
                             processed: seq<string>, samples: map<string, real>)
  {
    && (forall s :: s in samples <==> s in processed)
    && (forall s :: s in samples ==>
          s in data && s in selections && samples[s] == w.analyze(selections[s], data[s]).strength * 100.0)
  }

  /** A trade alert exactly for the processed symbols whose signal is not
      HOLD, each following that signal. */
  ghost predicate AlertedAll(w: CycleInputs, data: map<string, MarketData>, selections: map<string, StrategyType>,
                             processed: seq<string>, sent: seq<Alert>)
  {
    && (forall a :: a in sent ==>
          a.TradeAlert? && a.symbol in data && a.symbol in selections
          && Follows(a, a.symbol, selections[a.symbol], w.analyze(selections[a.symbol], data[a.symbol]), data[a.symbol]))
    && (forall s :: s in AlertedSymbols(sent) <==>
          s in processed && s in data && s in selections && w.analyze(selections[s], data[s]).action != Hold)
  }

  lemma ExecutedExtend(w: CycleInputs, data: map<string, MarketData>, selections: map<string, StrategyType>,
                       processed: seq<string>, samples: map<string, real>, sent: seq<Alert>,
                       symbol: string, sample: real, one: seq<Alert>)
    requires Executed(w, data, selections, processed, samples, sent)
    requires symbol in data && symbol in selections
    requires sample == w.analyze(selections[symbol], data[symbol]).strength * 100.0
    requires w.analyze(selections[symbol], data[symbol]).action == Hold ==> one == []
    requires w.analyze(selections[symbol], data[symbol]).action != Hold ==>
               |one| == 1 && Follows(one[0], symbol, selections[symbol], w.analyze(selections[symbol], data[symbol]), data[symbol])
    ensures Executed(w, data, selections, processed + [symbol], samples[symbol := sample], sent + one)
  {
    SampledExtend(w, data, selections, processed, samples, symbol, sample);
    AlertedExtend(w, data, selections, processed, sent, symbol, one);
  }

  lemma SampledExtend(w: CycleInputs, data: map<string, MarketData>, selections: map<string, StrategyType>,
                      processed: seq<string>, samples: map<string, real>, symbol: string, sample: real)
    requires SampledAll(w, data, selections, processed, samples)
    requires symbol in data && symbol in selections
    requires sample == w.analyze(selections[symbol], data[symbol]).strength * 100.0
    ensures SampledAll(w, data, selections, processed + [symbol], samples[symbol := sample])
  {
  }

  lemma AlertedExtend(w: CycleInputs, data: map<string, MarketData>, selections: map<string, StrategyType>,
                      processed: seq<string>, sent: seq<Alert>, symbol: string, one: seq<Alert>)
    requires AlertedAll(w, data, selections, processed, sent)
    requires symbol in data && symbol in selections
    requires w.analyze(selections[symbol], data[symbol]).action == Hold ==> one == []
    requires w.analyze(selections[symbol], data[symbol]).action != Hold ==>
               |one| == 1 && Follows(one[0], symbol, selections[symbol], w.analyze(selections[symbol], data[symbol]), data[symbol])
    ensures AlertedAll(w, data, selections, processed + [symbol], sent + one)
  {
    assert forall a :: a in sent + one <==> a in sent || a in one;
    if one != [] {
      assert one == [one[0]];
    }
  }

  /** The trade log grew by one entry per processed symbol, in order. */
  ghost predicate Logged(before: seq<PM.TradeLogEntry>, after: seq<PM.TradeLogEntry>, processed: seq<string>) {
    && |after| == |before| + |processed|
    && after[..|before|] == before
    && forall k :: 0 <= k < |processed| ==> after[|before| + k].symbol == processed[k]
  }

  lemma LoggedExtend(before: seq<PM.TradeLogEntry>, mid: seq<PM.TradeLogEntry>, after: seq<PM.TradeLogEntry>,
                     processed: seq<string>, symbol: string)
    requires Logged(before, mid, processed)
    requires |after| == |mid| + 1 && after[..|mid|] == mid && after[|mid|].symbol == symbol
    ensures Logged(before, after, processed + [symbol])
  {
    assert after[..|before|] == mid[..|before|];
    forall k | 0 <= k < |processed| + 1
      ensures after[|before| + k].symbol == (processed + [symbol])[k]
    {
      if k < |processed| {
        assert after[|before| + k] == mid[|before| + k];
      }
    }
  }

  /** The three tracker tables hold the summaries of `d` under `symbol`. */
  ghost predicate Summarised(vt: map<string, MI.VolatilityData>, ti: map<string, MI.TrendData>,
                             va: map<string, MI.VolumeProfile>, symbol: string, d: MarketData)
  {
    Analyzable(d) ==>
      && symbol in vt && vt[symbol] == MI.Volatility(d)
      && symbol in ti && ti[symbol] == MI.Trend(d)
      && symbol in va && va[symbol] == MI.Volume(d)
  }

  ghost predicate SummariesOf(vt: map<string, MI.VolatilityData>, ti: map<string, MI.TrendData>,
                              va: map<string, MI.VolumeProfile>, data: map<string, MarketData>)
  {
    forall s :: s in data ==> Summarised(vt, ti, va, s, data[s])
  }

  /** Analysing one more symbol keeps the summaries of the others. */
  lemma SummariesExtend(vt: map<string, MI.VolatilityData>, ti: map<string, MI.TrendData>,
                        va: map<string, MI.VolumeProfile>, data: map<string, MarketData>, symbol: string, d: MarketData)
    requires SummariesOf(vt, ti, va, data) && Analyzable(d)
    ensures SummariesOf(vt[symbol := MI.Volatility(d)], ti[symbol := MI.Trend(d)], va[symbol := MI.Volume(d)],
                        data[symbol := d])
  {
    var data' := data[symbol := d];
    forall s | s in data'
      ensures Summarised(vt[symbol := MI.Volatility(d)], ti[symbol := MI.Trend(d)], va[symbol := MI.Volume(d)], s, data'[s])
    {
      if s != symbol {
        assert Summarised(vt, ti, va, s, data[s]);
      }
    }
  }

  /** Summaries held by the analyzer give its regime. */
  lemma RegimeOfSummarised(a: MA.MarketAnalyzer, symbol: string, d: MarketData)
    requires Analyzable(d) && Summarised(a.volatilityTracker, a.trendIndicator, a.volumeAnalysis, symbol, d)
    ensures a.GetMarketRegime(symbol) == MI.RegimeOf(MI.Volatility(d), MI.Trend(d), MI.Volume(d))
  {
  }

  // ---------------------------------------------------------------------------
  // The bot

  class TradingBot {
    const config: Config
    const analyzer: MA.MarketAnalyzer
    const portfolio: PM.PortfolioManager
    const strategyAI: AI.StrategyAI
    const riskManager: RM.RiskManager
    const breaker: CB.CircuitBreaker
    var isRunning: bool
    var alerts: seq<Alert>

    /** The wiring NewTradingBot sets up, and the breaker's fixed parameters;
        a breaker is half-open only inside a Call. */
    ghost predicate Valid()
      reads this, breaker
    {
      && portfolio.analyzer == analyzer && strategyAI.analyzer == analyzer
      && portfolio.config == config && riskManager.config == config
      && breaker.timeout == BreakerTimeout && breaker.failureThreshold == BreakerThreshold
      && breaker.state != CB.HalfOpen
    }

    /** NewTradingBot: fresh components sharing one analyzer, a closed
        breaker, running from the start. */
    constructor(cfg: Config)
      ensures Valid() && isRunning && alerts == []
      ensures config == cfg
      ensures breaker.Fields() == CB.NewBreaker(BreakerTimeout, BreakerThreshold)
      ensures portfolio.symbols == [] && portfolio.tradeLog == [] && riskManager.positions == map[]
      ensures strategyAI.strategyWeights == map[]
    {
      config := cfg;
      var a := new MA.MarketAnalyzer();
      analyzer := a;
      portfolio := new PM.PortfolioManager(cfg, a);
      strategyAI := new AI.StrategyAI(a);
      riskManager := new RM.RiskManager(cfg);
      breaker := new CB.CircuitBreaker(BreakerTimeout, BreakerThreshold);
      isRunning := true;
      alerts := [];
    }

    /** handleOverrideCommands, one command: start, stop and emergency stop
        set the flag (the last also sends an alert); rebalance and unknown
        commands change nothing. */
    method HandleCommand(command: string)
      modifies this
      ensures isRunning == AfterCommand(old(isRunning), command)
      ensures alerts == old(alerts) + CommandAlerts([command])
    {
      if command == "start" {
        isRunning := true;
      } else if command == "stop" {
        isRunning := false;
      } else if command == "rebalance" {
      } else if command == "emergency_stop" {
        isRunning := false;
        alerts := alerts + [EmergencyStopAlert("Manual emergency stop triggered")];
      }
      assert CommandAlerts([command]) == (if command == "emergency_stop" then [EmergencyStopAlert("Manual emergency stop triggered")] else []) + CommandAlerts([]);
    }

    /** handleOverrideCommands: the commands of the override channel in order. */
    method HandleOverrideCommands(commands: seq<string>)
      modifies this
      ensures isRunning == RunningAfter(old(isRunning), commands)
      ensures alerts == old(alerts) + CommandAlerts(commands)
    {
      var i := 0;
      while i < |commands|
        invariant 0 <= i <= |commands|
        invariant RunningAfter(isRunning, commands[i..]) == RunningAfter(old(isRunning), commands)
        invariant alerts + CommandAlerts(commands[i..]) == old(alerts) + CommandAlerts(commands)
      {
        assert commands[i..][1..] == commands[i + 1..];
        HandleCommand(commands[i]);
        i := i + 1;
      }
    }

    /** An open breaker that will keep failing fast at this cycle's clock. */
    ghost predicate OpenUntil(now: int)
      reads breaker
    {
      breaker.state == CB.Open ==> now - breaker.lastFailure <= breaker.timeout
    }

    /** The analyzer holds the summaries of every symbol's data. */
    ghost predicate RegimesFrom(data: map<string, MarketData>)
      reads analyzer
    {
      SummariesOf(analyzer.volatilityTracker, analyzer.trendIndicator, analyzer.volumeAnalysis, data)
    }

    /** Step 2 for one symbol: GetMarketData through the breaker and, on
        success, the analysis of the data. */
    method FetchSymbol(w: CycleInputs, symbol: string) returns (d: Option<MarketData>)
      requires Valid() && Admissible(w) && OpenUntil(w.now)
      modifies breaker, analyzer
      ensures Valid() && OpenUntil(w.now)
      ensures d.Some? ==> w.fetch(symbol) == Ok(d.value)
      ensures breaker.state == CB.Closed ==> old(breaker.state) == CB.Closed && (w.fetch(symbol).Ok? ==> d.Some?)
      ensures old(breaker.state) == CB.Closed && w.fetch(symbol).Ok? ==> breaker.state == CB.Closed
      ensures d.None? ==> unchanged(analyzer)
      ensures d.Some? ==> analyzer.volatilityTracker == old(analyzer.volatilityTracker)[symbol := MI.Volatility(d.value)]
      ensures d.Some? ==> analyzer.trendIndicator == old(analyzer.trendIndicator)[symbol := MI.Trend(d.value)]
      ensures d.Some? ==> analyzer.volumeAnalysis == old(analyzer.volumeAnalysis)[symbol := MI.Volume(d.value)]
      ensures analyzer.correlationMatrix == old(analyzer.correlationMatrix)
    {
      var fetched := w.fetch(symbol);
      var err, invoked := breaker.Call(w.now, ErrorOf(fetched));
      if err.Some? {
        return None;
      }
      d := Some(fetched.value);
      var _ := analyzer.AnalyzeMarketConditions(symbol, fetched.value);
    }

    /** Step 2: each symbol's market data through the breaker; a failure skips
        the symbol, a success records the data, its last close and the
        analyzer's regime for it. */
    method FetchMarketData(w: CycleInputs) returns (data: map<string, MarketData>, prices: map<string, real>)
      requires Valid() && Admissible(w) && breaker.state == CB.Closed
      modifies breaker, analyzer
      ensures Valid() && OpenUntil(w.now)
      ensures forall s :: s in data ==> s in portfolio.symbols && w.fetch(s) == Ok(data[s])
      ensures breaker.state == CB.Closed ==> forall s :: s in portfolio.symbols && w.fetch(s).Ok? ==> s in data
      ensures (forall s :: s in portfolio.symbols ==> w.fetch(s).Ok?) ==> breaker.state == CB.Closed
      ensures PricesFrom(data, prices)
      ensures RegimesFrom(data)
      ensures analyzer.correlationMatrix == old(analyzer.correlationMatrix)
    {
      data := map[];
      prices := map[];
      var symbols := portfolio.symbols;
      var i := 0;
      while i < |symbols|
        invariant 0 <= i <= |symbols|
        invariant Valid() && OpenUntil(w.now)
        invariant forall s :: s in data ==> s in symbols && w.fetch(s) == Ok(data[s])
        invariant breaker.state == CB.Closed ==> forall j :: 0 <= j < i && w.fetch(symbols[j]).Ok? ==> symbols[j] in data
        invariant (forall j :: 0 <= j < i ==> w.fetch(symbols[j]).Ok?) ==> breaker.state == CB.Closed
        invariant PricesFrom(data, prices)
        invariant RegimesFrom(data)
        invariant analyzer.correlationMatrix == old(analyzer.correlationMatrix)
      {
        var symbol := symbols[i];
        label Before:
        var d := FetchSymbol(w, symbol);
        if d.Some? {
          SummariesExtend(old@Before(analyzer.volatilityTracker), old@Before(analyzer.trendIndicator),
                          old@Before(analyzer.volumeAnalysis), data, symbol, d.value);
          PricesExtend(data, prices, symbol, d.value);
          data := data[symbol := d.value];
          if |d.value.klines| > 0 {
            prices := prices[symbol := d.value.klines[|d.value.klines| - 1].close];
          }
        }
        i := i + 1;
      }
    }

    /** Step 6: SelectStrategy for every symbol, each the heaviest strategy
        for the analyzer's regime of the symbol. */
    method SelectStrategies(symbols: seq<string>) returns (selections: map<string, StrategyType>)
      requires Valid()
      modifies strategyAI
      ensures forall s :: s in selections <==> s in symbols
      ensures forall s :: s in selections ==> Heaviest(AI.Raw(analyzer.GetMarketRegime(s)), selections[s])
      ensures forall s :: s in symbols ==>
                s in strategyAI.strategyWeights && strategyAI.strategyWeights[s] == AI.Raw(analyzer.GetMarketRegime(s))
      ensures forall s :: s !in symbols ==>
                (s in strategyAI.strategyWeights <==> s in old(strategyAI.strategyWeights))
                && (s in strategyAI.strategyWeights ==> strategyAI.strategyWeights[s] == old(strategyAI.strategyWeights)[s])
    {
      ghost var t := Trackers(analyzer.volatilityTracker, analyzer.trendIndicator, analyzer.volumeAnalysis);
      ghost var raw := map s | s in symbols :: AI.Raw(RegimeIn(t, s));
      selections := SelectAll(strategyAI, symbols, t, raw);
      SelectedAll(raw, symbols, selections, old(strategyAI.strategyWeights), strategyAI.strategyWeights);
      RegimesTracked(analyzer, t);
    }

    /** Step 7 for one symbol with market data: the selected strategy's
        signal, the trade logged at the last close, an alert unless the signal
        is HOLD, and the performance sample (strength times 100). */
    method ExecuteOne(w: CycleInputs, symbol: string, d: MarketData, selected: StrategyType)
      returns (sample: real, sent: seq<Alert>)
      modifies this, portfolio
      ensures sample == w.analyze(selected, d).strength * 100.0
      ensures w.analyze(selected, d).action == Hold ==> sent == []
      ensures w.analyze(selected, d).action != Hold ==>
                (|sent| == 1 && Follows(sent[0], symbol, selected, w.analyze(selected, d), d)
                 && sent[0].quantity == TradeQuantity(config.totalCapital * old(portfolio.GetOptimalAllocation(symbol)), d))
      ensures alerts == old(alerts) + sent && isRunning == old(isRunning)
      ensures |portfolio.tradeLog| == |old(portfolio.tradeLog)| + 1
      ensures portfolio.tradeLog[..|old(portfolio.tradeLog)|] == old(portfolio.tradeLog)
      ensures var e := portfolio.tradeLog[|old(portfolio.tradeLog)|];
              && e.timestamp == w.now && e.symbol == symbol && e.strategy == selected.Name()
              && e.action == ActionText(w.analyze(selected, d).action) && e.confidence == w.analyze(selected, d).strength
              && e.price == LastPrice(d)
              && e.quantity == TradeQuantity(config.totalCapital * old(portfolio.GetOptimalAllocation(symbol)), d)
      ensures portfolio.symbols == old(portfolio.symbols) && portfolio.allocations == old(portfolio.allocations)
      ensures portfolio.performance == old(portfolio.performance) && portfolio.metrics == old(portfolio.metrics)
    {
      var sig := w.analyze(selected, d);
      var quantity := 0.0;
      var price := 0.0;
      if |d.klines| > 0 {
        price := d.klines[|d.klines| - 1].close;
        var allocation := portfolio.GetOptimalAllocation(symbol);
        var targetValue := config.totalCapital * allocation;
        quantity := if price != 0.0 then targetValue / price else 0.0;
      }
      portfolio.LogTrade(w.now, symbol, ActionText(sig.action), quantity, price, selected.Name(), sig.strength, "");
      sent := [];
      if sig.action != Hold {
        sent := [TradeAlert(symbol, sig.action, quantity, price, selected.Name(), sig.strength)];
        alerts := alerts + sent;
      }
      sample := sig.strength * 100.0;
    }

    /** One iteration of step 7's loop. */
    method ExecuteStep(w: CycleInputs, data: map<string, MarketData>, selections: map<string, StrategyType>,
                       symbol: string, processed: seq<string>, samples: map<string, real>, sent: seq<Alert>,
                       ghost alerts0: seq<Alert>, ghost log0: seq<PM.TradeLogEntry>)
      returns (processed': seq<string>, samples': map<string, real>, sent': seq<Alert>)
      requires symbol in selections
      requires Executed(w, data, selections, processed, samples, sent)
      requires alerts == alerts0 + sent && Logged(log0, portfolio.tradeLog, processed)
      modifies this, portfolio
      ensures processed' == processed + if symbol in data then [symbol] else []
      ensures Executed(w, data, selections, processed', samples', sent')
      ensures alerts == alerts0 + sent' && isRunning == old(isRunning)
      ensures Logged(log0, portfolio.tradeLog, processed')
      ensures portfolio.symbols == old(portfolio.symbols) && portfolio.allocations == old(portfolio.allocations)
      ensures portfolio.performance == old(portfolio.performance) && portfolio.metrics == old(portfolio.metrics)
    {
      processed', samples', sent' := processed, samples, sent;
      if symbol in data {
        ghost var log := portfolio.tradeLog;
        var sample, one := ExecuteOne(w, symbol, data[symbol], selections[symbol]);
        ExecutedExtend(w, data, selections, processed, samples, sent, symbol, sample, one);
        LoggedExtend(log0, log, portfolio.tradeLog, processed, symbol);
        samples' := samples[symbol := sample];
        sent' := sent + one;
        processed' := processed + [symbol];
      }
    }

    /** Step 7: every symbol with market data, in order, is analysed with its
        selected strategy, logged, alerted unless HOLD, and sampled; symbols
        without data are skipped. */
    method ExecuteStrategies(w: CycleInputs, symbols: seq<string>, data: map<string, MarketData>,
                             selections: map<string, StrategyType>)
      returns (samples: map<string, real>, sent: seq<Alert>, processed: seq<string>)
      requires forall s :: s in symbols ==> s in selections
      modifies this, portfolio
      ensures processed == WithData(symbols, data)
      ensures Executed(w, data, selections, processed, samples, sent)
      ensures alerts == old(alerts) + sent && isRunning == old(isRunning)
      ensures Logged(old(portfolio.tradeLog), portfolio.tradeLog, processed)
      ensures portfolio.symbols == old(portfolio.symbols) && portfolio.allocations == old(portfolio.allocations)
      ensures portfolio.performance == old(portfolio.performance) && portfolio.metrics == old(portfolio.metrics)
    {
      samples := map[];
      sent := [];
      processed := [];
      var i := 0;
      while i < |symbols|
        invariant 0 <= i <= |symbols|
        invariant processed == WithData(symbols[..i], data)
        invariant Executed(w, data, selections, processed, samples, sent)
        invariant alerts == old(alerts) + sent && isRunning == old(isRunning)
        invariant Logged(old(portfolio.tradeLog), portfolio.tradeLog, processed)
        invariant portfolio.symbols == old(portfolio.symbols) && portfolio.allocations == old(portfolio.allocations)
        invariant portfolio.performance == old(portfolio.performance) && portfolio.metrics == old(portfolio.metrics)
      {
        assert symbols[..i + 1][..i] == symbols[..i];
        processed, samples, sent := ExecuteStep(w, data, selections, symbols[i], processed, samples, sent,
                                                old(alerts), old(portfolio.tradeLog));
        i := i + 1;
      }
      assert symbols[..i] == symbols;
    }

    /** Step 8: each sample folded into the portfolio's performance, in map
        order (the samples are for distinct symbols, so the order does not
        matter). */
    method UpdatePerformances(samples: map<string, real>)
      modifies portfolio
      ensures Folded(old(portfolio.performance), portfolio.performance, samples)
      ensures portfolio.symbols == old(portfolio.symbols) && portfolio.allocations == old(portfolio.allocations)
      ensures portfolio.tradeLog == old(portfolio.tradeLog) && portfolio.metrics == old(portfolio.metrics)
    {
      var rest := samples.Keys;
      while rest != {}
        invariant rest <= samples.Keys
        invariant Folded(old(portfolio.performance), portfolio.performance, samples - rest)
        invariant forall s :: s in rest ==>
                    (s in portfolio.performance <==> s in old(portfolio.performance))
                    && (s in portfolio.performance ==> portfolio.performance[s] == old(portfolio.performance)[s])
        invariant portfolio.symbols == old(portfolio.symbols) && portfolio.allocations == old(portfolio.allocations)
        invariant portfolio.tradeLog == old(portfolio.tradeLog) && portfolio.metrics == old(portfolio.metrics)
        decreases |rest|
      {
        var symbol :| symbol in rest;
        portfolio.UpdatePerformance(symbol, samples[symbol]);
        rest := rest - {symbol};
      }
      assert samples - rest == samples;
    }

    /** Step 1: UpdateTopCoins through the (closed) breaker. */
    method TopCoinsStep(w: CycleInputs) returns (err: Option<CycleError>)
      requires Valid() && breaker.state == CB.Closed
      modifies breaker, portfolio
      ensures Valid() && OpenUntil(w.now)
      ensures err.None? && breaker.state == CB.Closed && portfolio.symbols == TopCoins
      ensures portfolio.performance == old(portfolio.performance) && portfolio.tradeLog == old(portfolio.tradeLog)
      ensures portfolio.metrics == old(portfolio.metrics)
    {
      var e, invoked := breaker.Call(w.now, ErrorOf(TopCoinsAnswer));
      if invoked {
        var _ := portfolio.UpdateTopCoins(TopCoinsAnswer);
      }
      err := TopCoinsError(e);
    }

    /** Steps 3 to 5: the correlation matrix, then the stop-loss and
        take-profit check and the drawdown check (whose actions are only
        logged). */
    method RiskSteps(w: CycleInputs, prices: map<string, real>)
      requires MI.PositiveRoot(w.sqrt)
      modifies analyzer, riskManager
      ensures analyzer.volatilityTracker == old(analyzer.volatilityTracker)
      ensures analyzer.trendIndicator == old(analyzer.trendIndicator)
      ensures analyzer.volumeAnalysis == old(analyzer.volumeAnalysis)
      ensures analyzer.priceHistory == old(analyzer.priceHistory)
      ensures MA.IsCorrelationMatrix(analyzer.correlationMatrix, analyzer.priceHistory, w.sqrt)
      ensures riskManager.positions.Keys == old(riskManager.positions).Keys
      ensures forall s :: s in riskManager.positions ==>
                riskManager.positions[s] == RM.AfterCheck(riskManager.config, prices, s, old(riskManager.positions)[s])
    {
      var _ := analyzer.CalculateCorrelations(w.sqrt);
      var _ := riskManager.CheckStopLossTakeProfit(prices);
      var _ := riskManager.CheckSymbolDrawdown();
    }

    /** Step 6 on the cycle's data: the analyzer holds each fetched
        symbol's summaries, so its selection is the heaviest strategy for the
        regime of that data. */
    method SelectionStep(data: map<string, MarketData>) returns (selections: map<string, StrategyType>)
      requires Valid() && RegimesFrom(data)
      requires forall s :: s in data ==> s in portfolio.symbols
      modifies strategyAI
      ensures forall s :: s in selections <==> s in portfolio.symbols
      ensures SelectedFor(data, selections)
    {
      selections := SelectStrategies(portfolio.symbols);
      forall s | s in data && Analyzable(data[s])
        ensures s in selections
        ensures Heaviest(AI.Raw(MI.RegimeOf(MI.Volatility(data[s]), MI.Trend(data[s]), MI.Volume(data[s]))), selections[s])
      {
        RegimeOfSummarised(analyzer, s, data[s]);
      }
    }

    /** Steps 7 and 8: execution and the performance update. */
    method ExecutionSteps(w: CycleInputs, data: map<string, MarketData>, selections: map<string, StrategyType>)
      returns (samples: map<string, real>, sent: seq<Alert>)
      requires forall s :: s in portfolio.symbols ==> s in selections
      modifies this, portfolio
      ensures isRunning == old(isRunning)
      ensures Executed(w, data, selections, WithData(portfolio.symbols, data), samples, sent)
      ensures alerts == old(alerts) + sent
      ensures Logged(old(portfolio.tradeLog), portfolio.tradeLog, WithData(portfolio.symbols, data))
      ensures Folded(old(portfolio.performance), portfolio.performance, samples)
      ensures portfolio.symbols == old(portfolio.symbols) && portfolio.allocations == old(portfolio.allocations)
      ensures portfolio.metrics == old(portfolio.metrics)
    {
      var processed;
      samples, sent, processed := ExecuteStrategies(w, portfolio.symbols, data, selections);
      UpdatePerformances(samples);
    }

    /** Step 9: RebalancePortfolio through the breaker; an open breaker
        fails fast without calling it. */
    method RebalanceStep(w: CycleInputs) returns (err: Option<CycleError>)
      requires Valid() && OpenUntil(w.now)
      modifies breaker, portfolio
      ensures Valid()
      ensures old(breaker.state) == CB.Open ==>
                err == Some(RebalanceFailed(CB.CircuitOpen)) && unchanged(portfolio)
      ensures old(breaker.state) == CB.Closed ==> err.None? && portfolio.symbols == TopCoins
      ensures portfolio.performance == old(portfolio.performance) && portfolio.tradeLog == old(portfolio.tradeLog)
      ensures portfolio.metrics == old(portfolio.metrics)
    {
      var e, invoked := breaker.Call(w.now, ErrorOf(TopCoinsAnswer));
      if invoked {
        var _, _ := portfolio.RebalancePortfolio(TopCoinsAnswer);
      }
      err := if e.Some? then Some(RebalanceFailed(e.value)) else None;
    }

    /** Step 10: the risk metrics and performance metrics, and the emergency
        alert when the risk manager says to stop. */
    method ReportStep() returns (stop: bool)
      modifies this, portfolio
      ensures stop <==> RM.StopCondition(riskManager.config, riskManager.positions)
      ensures alerts == old(alerts) + (if stop then [EmergencyStopAlert("Risk limits exceeded")] else [])
      ensures isRunning == old(isRunning)
      ensures |portfolio.tradeLog| > 0 ==> portfolio.metrics == PM.ScanMetrics(portfolio.tradeLog)
      ensures |portfolio.tradeLog| == 0 ==> portfolio.metrics == old(portfolio.metrics)
      ensures portfolio.symbols == old(portfolio.symbols) && portfolio.allocations == old(portfolio.allocations)
      ensures portfolio.performance == old(portfolio.performance) && portfolio.tradeLog == old(portfolio.tradeLog)
    {
      var _ := riskManager.CalculateRiskMetrics();
      var _ := portfolio.CalculatePerformanceMetrics();
      stop := riskManager.ShouldStopTrading();
      if stop {
        alerts := alerts + [EmergencyStopAlert("Risk limits exceeded")];
      }
    }

    /** Steps 2 to 10, once the top coins are in place with the breaker
        closed. */
    method CycleSteps(w: CycleInputs) returns (err: Option<CycleError>, report: CycleReport)
      requires Valid() && Admissible(w) && breaker.state == CB.Closed
      modifies this, breaker, analyzer, portfolio, strategyAI, riskManager
      ensures Valid() && isRunning == old(isRunning)
      ensures riskManager.positions.Keys == old(riskManager.positions).Keys
      ensures report.symbols == old(portfolio.symbols)
      ensures CycleRan(w, report)
      ensures Logged(old(portfolio.tradeLog), portfolio.tradeLog, WithData(report.symbols, report.data))
      ensures Folded(old(portfolio.performance), portfolio.performance, report.samples)
      ensures err.None? <==> !report.openedByFetches
      ensures err.Some? ==>
                && err == Some(RebalanceFailed(CB.CircuitOpen))
                && alerts == old(alerts) + report.tradeAlerts && !report.stop
      ensures err.None? ==>
                && portfolio.symbols == TopCoins
                && (report.stop <==> RM.StopCondition(riskManager.config, riskManager.positions))
                && alerts == old(alerts) + report.tradeAlerts
                             + (if report.stop then [EmergencyStopAlert("Risk limits exceeded")] else [])
    {
      report := MarketSteps(w);
      err := RebalanceStep(w);
      if err.None? {
        var stop := ReportStep();
        report := report.(stop := stop);
      }
    }

    /** Steps 2 to 7: market data, risk checks, strategy selection and
        execution; the report's `openedByFetches` is whether the fetches left
        the breaker open. */
    method MarketSteps(w: CycleInputs) returns (report: CycleReport)
      requires Valid() && Admissible(w) && breaker.state == CB.Closed
      modifies this, breaker, analyzer, portfolio, strategyAI, riskManager
      ensures Valid() && isRunning == old(isRunning) && OpenUntil(w.now)
      ensures report.openedByFetches <==> breaker.state == CB.Open
      ensures riskManager.positions.Keys == old(riskManager.positions).Keys
      ensures report.symbols == old(portfolio.symbols) && !report.stop
      ensures CycleRan(w, report)
      ensures Logged(old(portfolio.tradeLog), portfolio.tradeLog, WithData(report.symbols, report.data))
      ensures Folded(old(portfolio.performance), portfolio.performance, report.samples)
      ensures alerts == old(alerts) + report.tradeAlerts
      ensures portfolio.symbols == old(portfolio.symbols)
    {
      var symbols := portfolio.symbols;
      var data, prices := FetchMarketData(w);
      var tripped := breaker.state == CB.Open;
      RiskSteps(w, prices);
      var selections := SelectionStep(data);
      var samples, sent := ExecutionSteps(w, data, selections);
      report := CycleReport(symbols, data, selections, samples, sent, tripped, false);
    }

    /** runTradingCycle: skipped while the breaker is open; a failure of the
        top-coin update or of the rebalancing ends the cycle with an error,
        a failed market-data fetch only skips its symbol. */
    method RunTradingCycle(w: CycleInputs) returns (err: Option<CycleError>, report: CycleReport)
      requires Valid() && Admissible(w)
      modifies this, breaker, analyzer, portfolio, strategyAI, riskManager
      ensures Valid() && isRunning == old(isRunning)
      ensures riskManager.positions.Keys == old(riskManager.positions).Keys
      ensures old(breaker.state) == CB.Open ==>
                err.None? && report == NothingDone && unchanged(this, breaker, analyzer, portfolio, strategyAI, riskManager)
      ensures old(breaker.state) == CB.Closed ==>
                && report.symbols == TopCoins
                && CycleRan(w, report)
                && (forall s :: s in report.data ==> !AnalyzePanics(report.selections[s], report.data[s]))
                && Logged(old(portfolio.tradeLog), portfolio.tradeLog, WithData(report.symbols, report.data))
                && Folded(old(portfolio.performance), portfolio.performance, report.samples)
                && (err.None? <==> !report.openedByFetches)
      ensures old(breaker.state) == CB.Closed && err.Some? ==>
                && err == Some(RebalanceFailed(CB.CircuitOpen))
                && alerts == old(alerts) + report.tradeAlerts
      ensures old(breaker.state) == CB.Closed && err.None? ==>
                && portfolio.symbols == TopCoins
                && (report.stop <==> RM.StopCondition(riskManager.config, riskManager.positions))
                && alerts == old(alerts) + report.tradeAlerts
                             + (if report.stop then [EmergencyStopAlert("Risk limits exceeded")] else [])
      // nothing in the bot records a position, so from an empty risk table
      // the risk-limit alert is never sent
      ensures (old(riskManager.positions) == map[] && riskManager.config.maxDrawdown >= 0.0
               && riskManager.config.totalCapital >= 0.0) ==> riskManager.positions == map[] && !report.stop
    {
      report := NothingDone;
      if breaker.State() == CB.Open {
        return None, report;
      }
      err := TopCoinsStep(w);
      if err.Some? {
        return;
      }
      err, report := CycleSteps(w);
      SelectionAvoidsPanics(w, report);
      if riskManager.positions.Keys == {} && riskManager.config.maxDrawdown >= 0.0 && riskManager.config.totalCapital >= 0.0 {
        EmptyBookNeverStops(riskManager.config, riskManager.positions);
      }
    }

    /** One tick of the ticker: a cycle runs only while the bot is running;
        a cycle's error is only logged. */
    method Tick(w: CycleInputs) returns (ran: bool)
      requires Valid() && Admissible(w)
      modifies this, breaker, analyzer, portfolio, strategyAI, riskManager
      ensures Valid() && isRunning == old(isRunning)
      ensures ran == old(isRunning)
      ensures !ran ==> unchanged(this, breaker, analyzer, portfolio, strategyAI, riskManager)
    {
      ran := isRunning;
      if ran {
        var _, _ := RunTradingCycle(w);
      }
    }

    /** One event of the loop other than a shutdown. */
    method HandleEvent(e: LoopEvent) returns (ran: bool)
      requires Valid() && !e.Shutdown? && (e.TickEvent? ==> Admissible(e.inputs))
      modifies this, breaker, analyzer, portfolio, strategyAI, riskManager
      ensures Valid()
      ensures isRunning == FlagAfter(old(isRunning), e)
      ensures ran == (e.TickEvent? && old(isRunning))
    {
      ran := false;
      match e
      case TickEvent(w) =>
        ran := Tick(w);
      case CommandEvent(command) =>
        HandleCommand(command);
    }

    /** The cycle tradingLoop runs before its first tick, whatever the running
        flag says. */
    method InitialCycle(initial: CycleInputs)
      requires Valid() && Admissible(initial)
      modifies this, breaker, analyzer, portfolio, strategyAI, riskManager
      ensures Valid() && isRunning == old(isRunning)
    {
      var _, _ := RunTradingCycle(initial);
    }

    /** tradingLoop: the initial cycle, which runs whatever the running flag
        says, then the events in order until the first shutdown. */
    method TradingLoop(initial: CycleInputs, events: seq<LoopEvent>) returns (cycles: nat)
      requires Valid() && Admissible(initial) && AllAdmissible(events)
      modifies this, breaker, analyzer, portfolio, strategyAI, riskManager
      ensures Valid()
      ensures isRunning == RunningAfter(old(isRunning), LoopCommands(events))
      ensures cycles == 1 + CyclesRun(old(isRunning), events)
    {
      InitialCycle(initial);
      cycles := 1;
      var i := 0;
      while i < |events| && !events[i].Shutdown?
        invariant 0 <= i <= |events|
        invariant Valid()
        invariant RunningAfter(isRunning, LoopCommands(events[i..])) == RunningAfter(old(isRunning), LoopCommands(events))
        invariant cycles + CyclesRun(isRunning, events[i..]) == 1 + CyclesRun(old(isRunning), events)
      {
        UnfoldEventAt(isRunning, events, i);
        var ran := HandleEvent(events[i]);
        if ran {
          cycles := cycles + 1;
        }
        i := i + 1;
      }
    }

    /** Run: the portfolio is first filled with the top coins (outside the
        breaker; the client's fixed answer never fails, so Run always goes
        on to the trading loop). */
    method Run(initial: CycleInputs, events: seq<LoopEvent>)
      returns (err: Option<string>, cycles: nat)
      requires Valid() && Admissible(initial) && AllAdmissible(events)
      modifies this, breaker, analyzer, portfolio, strategyAI, riskManager
      ensures Valid()
      ensures err.None? && isRunning == RunningAfter(old(isRunning), LoopCommands(events))
                && cycles == 1 + CyclesRun(old(isRunning), events)
    {
      err := portfolio.UpdateTopCoins(TopCoinsAnswer);
      cycles := 0;
      if err.None? {
        cycles := TradingLoop(initial, events);
      }
    }
  }
}
