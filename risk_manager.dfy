/** The risk manager of internal/risk/manager.go: a table of per-symbol
    position risk records, rewritten in place as positions are updated and
    prices arrive, and the read-only limit checks over that table.

    Go ranges over the table in an unspecified order; the loops here take
    the keys in an arbitrary order (`:|`), so sums are stated as the
    order-independent `Total` and action lists up to order. */
module RiskManagement {
  import opened Outcomes
  import opened Configuration
  import opened Bybit

  /** PositionRisk: what the manager records for one symbol. */
  datatype PositionRisk = PositionRisk(
    symbol: string,
    currentSize: real,
    entryPrice: real,
    currentPrice: real,
    unrealizedPnl: real,
    maxDrawdown: real,
    correlationRisk: real,
    stopLossLevel: real,
    takeProfitLevel: real,
    peakValue: real,
    trailingStopLevel: real,
    isTrailingStopSet: bool
  )

  datatype RiskMetrics = RiskMetrics(totalExposure: real, portfolioDrawdown: real, volatility: real, correlationRisk: real)

  /** The refusals of CheckPositionRisk and CheckPortfolioRisk. */
  datatype RiskError =
    | PositionLimitExceeded
    | CapitalExceeded
    | DrawdownExceeded
    | ExposureExceeded

  datatype ExitKind = TrailingStop | StopLoss | TakeProfit

  /** One close instruction of CheckStopLossTakeProfit. */
  datatype ExitAction = ExitAction(kind: ExitKind, symbol: string, price: real, level: real)

  /** One flag of CheckSymbolDrawdown. */
  datatype DrawdownAlert = DrawdownAlert(symbol: string, drawdown: real)

  // ---------------------------------------------------------------------------
  // Sums over the position table

  /** The sum of f over the table's records, in no particular order. */
  ghost function Total(ps: map<string, PositionRisk>, f: PositionRisk -> real): real
    decreases |ps.Keys|
  {
    if ps.Keys == {} then 0.0
    else
      var k :| k in ps;
      assert (ps - {k}).Keys == ps.Keys - {k};
      f(ps[k]) + Total(ps - {k}, f)
  }

  /** Total does not depend on which key is taken first. */
  lemma {:induction false} TotalRemove(ps: map<string, PositionRisk>, f: PositionRisk -> real, k: string)
    requires k in ps
    ensures Total(ps, f) == f(ps[k]) + Total(ps - {k}, f)
    decreases |ps.Keys|
  {
    var j :| j in ps && Total(ps, f) == f(ps[j]) + Total(ps - {j}, f);
    if j != k {
      var pj, pk := ps - {j}, ps - {k};
      var both := pj - {k};
      assert pj.Keys == ps.Keys - {j} && pk.Keys == ps.Keys - {k};
      assert pk - {j} == both;
      TotalRemove(pj, f, k);
      TotalRemove(pk, f, j);
      assert Total(ps, f) == f(ps[j]) + (f(ps[k]) + Total(both, f));
      assert Total(pk, f) == f(ps[j]) + Total(both, f);
    }
  }

  /** A table of records on which f is never negative has a non-negative
      total. */
  lemma {:induction false} TotalNonNegative(ps: map<string, PositionRisk>, f: PositionRisk -> real)
    requires forall s :: s in ps ==> f(ps[s]) >= 0.0
    ensures Total(ps, f) >= 0.0
    decreases |ps.Keys|
  {
    if ps.Keys != {} {
      var k :| k in ps;
      TotalRemove(ps, f, k);
      assert (ps - {k}).Keys == ps.Keys - {k};
      TotalNonNegative(ps - {k}, f);
    }
  }

  function ExposureOf(p: PositionRisk): real { p.currentSize * p.currentPrice }
  function PnlOf(p: PositionRisk): real { p.unrealizedPnl }
  function CostOf(p: PositionRisk): real { p.currentSize * p.entryPrice }

  /** GetTotalExposure: the sum of size times current price. */
  ghost function Exposure(ps: map<string, PositionRisk>): real {
    Total(ps, ExposureOf)
  }

  /** CalculatePortfolioDrawdown: total unrealised PnL over total cost, 0
      when the cost is 0. */
  ghost function PortfolioDrawdown(ps: map<string, PositionRisk>): real {
    var cost := Total(ps, CostOf);
    if cost == 0.0 then 0.0 else Total(ps, PnlOf) / cost
  }

  /** Every position's volatility proxy is 2%, so the mean is 2% for a
      non-empty table. */
  function PortfolioVolatility(ps: map<string, PositionRisk>): real {
    if |ps| == 0 then 0.0 else 0.02
  }

  /** CalculateCorrelationRisk: a fixed 0.3 once two positions are held. */
  function CorrelationRisk(ps: map<string, PositionRisk>): real {
    if |ps| <= 1 then 0.0 else 0.3
  }

  ghost function Metrics(ps: map<string, PositionRisk>): RiskMetrics {
    RiskMetrics(Exposure(ps), PortfolioDrawdown(ps), PortfolioVolatility(ps), CorrelationRisk(ps))
  }

  /** ShouldStopTrading's condition: drawdown beyond twice the limit or
      exposure beyond one and a half times the capital. */
  ghost predicate StopCondition(cfg: Config, ps: map<string, PositionRisk>) {
    PortfolioDrawdown(ps) > cfg.maxDrawdown * 2.0 || Exposure(ps) > cfg.totalCapital * 1.5
  }

  /** A portfolio that passes CheckPortfolioRisk never triggers the stop,
      as long as the limits themselves are not negative. */
  lemma PortfolioWithinLimitsKeepsTrading(cfg: Config, ps: map<string, PositionRisk>)
    requires cfg.maxDrawdown >= 0.0 && cfg.totalCapital >= 0.0
    requires PortfolioDrawdown(ps) <= cfg.maxDrawdown && Exposure(ps) <= cfg.totalCapital
    ensures !StopCondition(cfg, ps)
  {
  }

  /** With long positions at non-negative prices the exposure is never
      negative. */
  lemma ExposureNonNegative(ps: map<string, PositionRisk>)
    requires forall s :: s in ps ==> ps[s].currentSize >= 0.0 && ps[s].currentPrice >= 0.0
    ensures Exposure(ps) >= 0.0
  {
    TotalNonNegative(ps, ExposureOf);
  }

  // ---------------------------------------------------------------------------
  // Position updates

  function StopFactor(cfg: Config): real { 1.0 - cfg.stopLossPercent / 100.0 }
  function ProfitFactor(cfg: Config): real { 1.0 + cfg.takeProfitPercent / 100.0 }

  /** The record UpdatePosition stores for `symbol`, given what the table
      held before (None for a new symbol): fresh levels from the average
      price, the peak raised to the current value when that is higher, and
      on a new peak an active trailing stop reset from the average price. */
  function UpdatedRisk(cfg: Config, existing: Option<PositionRisk>, symbol: string, position: Position): (r: PositionRisk)
    ensures r.symbol == symbol && r.currentSize == position.size
    ensures r.entryPrice == position.avgPrice && r.currentPrice == position.avgPrice
    ensures r.unrealizedPnl == position.unrealisedPnl && r.maxDrawdown == 0.0 && r.correlationRisk == 0.0
    ensures r.stopLossLevel == position.avgPrice * StopFactor(cfg)
    ensures r.takeProfitLevel == position.avgPrice * ProfitFactor(cfg)
    ensures existing.None? ==>
              r.peakValue == position.size * position.avgPrice + position.unrealisedPnl
              && r.trailingStopLevel == 0.0 && !r.isTrailingStopSet
    ensures existing.Some? ==>
              r.peakValue == Max(existing.value.peakValue, position.size * position.avgPrice + position.unrealisedPnl)
              && r.isTrailingStopSet == existing.value.isTrailingStopSet
    ensures existing.Some? && r.trailingStopLevel != existing.value.trailingStopLevel ==>
              existing.value.isTrailingStopSet && r.trailingStopLevel == r.stopLossLevel
              && r.peakValue > existing.value.peakValue
  {
    var peak0 := if existing.Some? then existing.value.peakValue else 0.0;
    var trailing0 := if existing.Some? then existing.value.trailingStopLevel else 0.0;
    var isSet := existing.Some? && existing.value.isTrailingStopSet;
    var currentValue := position.size * position.avgPrice + position.unrealisedPnl;
    var newPeak := existing.None? || currentValue > peak0;
    var peak := if newPeak then currentValue else peak0;
    var trailing := if newPeak && existing.Some? && isSet then position.avgPrice * StopFactor(cfg) else trailing0;
    PositionRisk(symbol, position.size, position.avgPrice, position.avgPrice, position.unrealisedPnl, 0.0, 0.0,
                 position.avgPrice * StopFactor(cfg), position.avgPrice * ProfitFactor(cfg),
                 peak, trailing, isSet)
  }

  /** UpdatePosition never lowers a recorded peak, but the trailing-stop reset
      on a new peak follows the average price and can lower an active
      trailing stop: whenever the reset level is below the old one. */
  lemma UpdateLowersTrailingStop(cfg: Config, e: PositionRisk, symbol: string, position: Position)
    requires e.isTrailingStopSet
    requires position.size * position.avgPrice + position.unrealisedPnl > e.peakValue
    requires position.avgPrice * StopFactor(cfg) < e.trailingStopLevel
    ensures UpdatedRisk(cfg, Some(e), symbol, position).peakValue > e.peakValue
    ensures UpdatedRisk(cfg, Some(e), symbol, position).trailingStopLevel < e.trailingStopLevel
  {
    var r := UpdatedRisk(cfg, Some(e), symbol, position);
    assert r.trailingStopLevel == r.stopLossLevel;
  }

  // ---------------------------------------------------------------------------
  // Stop-loss, take-profit and trailing stop

  /** The outcome of checking one position against its price. */
  datatype Checked = Checked(pos: PositionRisk, action: Option<ExitAction>)

  /** One iteration of CheckStopLossTakeProfit for a symbol with a price:
      the current price is recorded; a long position exits on the first of
      trailing stop, stop-loss, take-profit that is hit; failing all three,
      an active trailing stop is ratcheted up when the price passes the
      peak. */
  function CheckOne(cfg: Config, symbol: string, pos: PositionRisk, price: real): (c: Checked)
    ensures c.pos.(trailingStopLevel := pos.trailingStopLevel, peakValue := pos.peakValue) == pos.(currentPrice := price)
    ensures c.action.Some? ==> c.action.value.symbol == symbol && c.action.value.price == price
    ensures pos.currentSize <= 0.0 ==> c == Checked(pos.(currentPrice := price), None)
    ensures c.action == Some(ExitAction(TrailingStop, symbol, price, pos.trailingStopLevel)) <==>
              pos.currentSize > 0.0 && pos.isTrailingStopSet && price <= pos.trailingStopLevel
    ensures (c.action.Some? && c.action.value.kind == StopLoss) <==>
              pos.currentSize > 0.0 && !(pos.isTrailingStopSet && price <= pos.trailingStopLevel)
              && price <= pos.stopLossLevel
    ensures (c.action.Some? && c.action.value.kind == TakeProfit) <==>
              pos.currentSize > 0.0 && !(pos.isTrailingStopSet && price <= pos.trailingStopLevel)
              && price > pos.stopLossLevel && price >= pos.takeProfitLevel
    ensures c.pos.trailingStopLevel >= pos.trailingStopLevel
    ensures c.pos.trailingStopLevel != pos.trailingStopLevel ==>
              c.action.None? && pos.isTrailingStopSet && price > pos.peakValue
              && c.pos.trailingStopLevel == price * StopFactor(cfg) && c.pos.peakValue == price
    ensures c.pos.peakValue != pos.peakValue ==> c.pos.trailingStopLevel > pos.trailingStopLevel
  {
    var p := pos.(currentPrice := price);
    if p.currentSize <= 0.0 then Checked(p, None)
    else if p.isTrailingStopSet && price <= p.trailingStopLevel then
      Checked(p, Some(ExitAction(TrailingStop, symbol, price, p.trailingStopLevel)))
    else if price <= p.stopLossLevel then
      Checked(p, Some(ExitAction(StopLoss, symbol, price, p.stopLossLevel)))
    else if price >= p.takeProfitLevel then
      Checked(p, Some(ExitAction(TakeProfit, symbol, price, p.takeProfitLevel)))
    else if p.isTrailingStopSet && price > p.peakValue then
      var newTrailing := price * StopFactor(cfg);
      if newTrailing > p.trailingStopLevel then Checked(p.(trailingStopLevel := newTrailing, peakValue := price), None)
      else Checked(p, None)
    else Checked(p, None)
  }

  /** The record CheckStopLossTakeProfit leaves for a symbol: untouched
      without a price, else CheckOne's. */
  function AfterCheck(cfg: Config, prices: map<string, real>, s: string, pos: PositionRisk): PositionRisk {
    if s in prices then CheckOne(cfg, s, pos, prices[s]).pos else pos
  }

  /** The exit CheckStopLossTakeProfit reports for a symbol, if any. */
  function ExitOf(cfg: Config, prices: map<string, real>, s: string, pos: PositionRisk): Option<ExitAction> {
    if s in prices then CheckOne(cfg, s, pos, prices[s]).action else None
  }

  /** Midway through CheckStopLossTakeProfit: the symbols in `done` hold
      their checked record, the others their original one. */
  ghost predicate TableChecked(cfg: Config, prices: map<string, real>, ps: map<string, PositionRisk>, done: set<string>,
                               table: map<string, PositionRisk>) {
    && table.Keys == ps.Keys
    && forall s :: s in table ==> table[s] == (if s in done then AfterCheck(cfg, prices, s, ps[s]) else ps[s])
  }

  lemma TableStep(cfg: Config, prices: map<string, real>, ps: map<string, PositionRisk>, done: set<string>,
                  table: map<string, PositionRisk>, k: string)
    requires k in ps && k !in done && TableChecked(cfg, prices, ps, done, table)
    ensures table[k] == ps[k]
    ensures TableChecked(cfg, prices, ps, done + {k}, table[k := AfterCheck(cfg, prices, k, table[k])])
  {
  }

  /** The exits CheckStopLossTakeProfit reports for the symbols in `keys`. */
  ghost function ExitsAmong(cfg: Config, ps: map<string, PositionRisk>, prices: map<string, real>, keys: set<string>): set<ExitAction> {
    set s | s in keys && s in ps && s in prices && CheckOne(cfg, s, ps[s], prices[s]).action.Some?
      :: CheckOne(cfg, s, ps[s], prices[s]).action.value
  }

  lemma ExitsAmongAdd(cfg: Config, ps: map<string, PositionRisk>, prices: map<string, real>, keys: set<string>, k: string)
    requires k in ps
    ensures k in prices && CheckOne(cfg, k, ps[k], prices[k]).action.Some? ==>
              ExitsAmong(cfg, ps, prices, keys + {k}) == ExitsAmong(cfg, ps, prices, keys) + {CheckOne(cfg, k, ps[k], prices[k]).action.value}
    ensures !(k in prices && CheckOne(cfg, k, ps[k], prices[k]).action.Some?) ==>
              ExitsAmong(cfg, ps, prices, keys + {k}) == ExitsAmong(cfg, ps, prices, keys)
  {
  }

  /** `actions` lists, without repeating a symbol, exactly the exits of the
      symbols in `keys`. */
  ghost predicate ActionsFor(cfg: Config, ps: map<string, PositionRisk>, prices: map<string, real>, keys: set<string>,
                             actions: seq<ExitAction>) {
    && (forall a :: a in actions <==> a in ExitsAmong(cfg, ps, prices, keys))
    && (forall i :: 0 <= i < |actions| ==> actions[i].symbol in keys)
    && (forall i, j :: 0 <= i < j < |actions| ==> actions[i].symbol != actions[j].symbol)
  }

  /** Checking one more symbol extends the list by its exit, if any. */
  lemma ActionsStep(cfg: Config, ps: map<string, PositionRisk>, prices: map<string, real>, keys: set<string>,
                    actions: seq<ExitAction>, k: string, step: Option<ExitAction>)
    requires k in ps && k !in keys && ActionsFor(cfg, ps, prices, keys, actions)
    requires step == (if k in prices then CheckOne(cfg, k, ps[k], prices[k]).action else None)
    ensures ActionsFor(cfg, ps, prices, keys + {k}, if step.Some? then actions + [step.value] else actions)
  {
    ExitsAmongAdd(cfg, ps, prices, keys, k);
  }

  /** Midway through CheckStopLossTakeProfit: the symbols of `ps` are split
      into the checked ones and the `rest`, and the table and the exits so far
      are those of the checked ones. */
  ghost predicate Checking(cfg: Config, prices: map<string, real>, ps: map<string, PositionRisk>, rest: set<string>,
                           table: map<string, PositionRisk>, actions: seq<ExitAction>) {
    && rest <= ps.Keys
    && TableChecked(cfg, prices, ps, ps.Keys - rest, table)
    && ActionsFor(cfg, ps, prices, ps.Keys - rest, actions)
  }

  /** One symbol of CheckStopLossTakeProfit: its record is checked and its
      exit, if any, appended. */
  method CheckStep(cfg: Config, prices: map<string, real>, ps: map<string, PositionRisk>, rest: set<string>,
                   table: map<string, PositionRisk>, actions: seq<ExitAction>, s: string)
    returns (rest': set<string>, table': map<string, PositionRisk>, actions': seq<ExitAction>)
    requires s in rest && Checking(cfg, prices, ps, rest, table, actions)
    ensures Checking(cfg, prices, ps, rest', table', actions') && |rest'| < |rest|
  {
    ghost var done := ps.Keys - rest;
    TableStep(cfg, prices, ps, done, table, s);
    var step := ExitOf(cfg, prices, s, table[s]);
    ActionsStep(cfg, ps, prices, done, actions, s, step);
    table' := table[s := AfterCheck(cfg, prices, s, table[s])];
    actions' := if step.Some? then actions + [step.value] else actions;
    rest' := rest - {s};
    assert ps.Keys - rest' == done + {s};
  }

  /** The loop of CheckStopLossTakeProfit over the records `ps`. */
  method CheckAll(cfg: Config, prices: map<string, real>, ps: map<string, PositionRisk>)
    returns (actions: seq<ExitAction>, table: map<string, PositionRisk>)
    ensures TableChecked(cfg, prices, ps, ps.Keys, table)
    ensures ActionsFor(cfg, ps, prices, ps.Keys, actions)
  {
    table := ps;
    actions := [];
    var rest := ps.Keys;
    assert ps.Keys - rest == {};
    while rest != {}
      invariant Checking(cfg, prices, ps, rest, table, actions)
      decreases |rest|
    {
      var s :| s in rest;
      rest, table, actions := CheckStep(cfg, prices, ps, rest, table, actions, s);
    }
    assert ps.Keys - rest == ps.Keys;
  }

  // ---------------------------------------------------------------------------
  // Drawdown per symbol

  function SymbolDrawdown(p: PositionRisk): real
    requires p.peakValue > 0.0
  {
    (p.peakValue - (p.currentSize * p.currentPrice + p.unrealizedPnl)) / p.peakValue
  }

  /** The flags CheckSymbolDrawdown raises for the symbols in `keys`. */
  ghost function DrawdownAlertsAmong(cfg: Config, ps: map<string, PositionRisk>, keys: set<string>): set<DrawdownAlert> {
    set s | s in keys && s in ps && ps[s].peakValue > 0.0 && SymbolDrawdown(ps[s]) > cfg.maxDrawdown
      :: DrawdownAlert(s, SymbolDrawdown(ps[s]))
  }

  lemma DrawdownAlertsAdd(cfg: Config, ps: map<string, PositionRisk>, keys: set<string>, k: string)
    requires k in ps
    ensures ps[k].peakValue > 0.0 && SymbolDrawdown(ps[k]) > cfg.maxDrawdown ==>
              DrawdownAlertsAmong(cfg, ps, keys + {k}) == DrawdownAlertsAmong(cfg, ps, keys) + {DrawdownAlert(k, SymbolDrawdown(ps[k]))}
    ensures !(ps[k].peakValue > 0.0 && SymbolDrawdown(ps[k]) > cfg.maxDrawdown) ==>
              DrawdownAlertsAmong(cfg, ps, keys + {k}) == DrawdownAlertsAmong(cfg, ps, keys)
  {
  }

  /** `alerts` flags exactly the symbols of `done` that exceed the limit,
      each once. */
  ghost predicate AlertsCover(cfg: Config, ps: map<string, PositionRisk>, done: set<string>, alerts: seq<DrawdownAlert>) {
    && (forall a :: a in alerts <==> a in DrawdownAlertsAmong(cfg, ps, done))
    && (forall i :: 0 <= i < |alerts| ==> alerts[i].symbol in done)
    && (forall i, j :: 0 <= i < j < |alerts| ==> alerts[i].symbol != alerts[j].symbol)
  }

  lemma DrawdownStep(cfg: Config, ps: map<string, PositionRisk>, done: set<string>, alerts: seq<DrawdownAlert>, k: string)
    requires k in ps && k !in done && AlertsCover(cfg, ps, done, alerts)
    ensures ps[k].peakValue > 0.0 && SymbolDrawdown(ps[k]) > cfg.maxDrawdown ==>
              AlertsCover(cfg, ps, done + {k}, alerts + [DrawdownAlert(k, SymbolDrawdown(ps[k]))])
    ensures !(ps[k].peakValue > 0.0 && SymbolDrawdown(ps[k]) > cfg.maxDrawdown) ==>
              AlertsCover(cfg, ps, done + {k}, alerts)
  {
    DrawdownAlertsAdd(cfg, ps, done, k);
  }

  /** A position whose current value is at or above its peak is never
      flagged, whatever the (non-negative) limit. */
  lemma AtPeakNotFlagged(cfg: Config, ps: map<string, PositionRisk>, s: string)
    requires s in ps && ps[s].peakValue > 0.0 && cfg.maxDrawdown >= 0.0
    requires ps[s].currentSize * ps[s].currentPrice + ps[s].unrealizedPnl >= ps[s].peakValue
    ensures forall a :: a in DrawdownAlertsAmong(cfg, ps, ps.Keys) ==> a.symbol != s
  {
    var p := ps[s];
    var v := p.currentSize * p.currentPrice + p.unrealizedPnl;
    assert p.peakValue - v <= 0.0;
    assert SymbolDrawdown(p) <= 0.0;
  }

  // ---------------------------------------------------------------------------
  // The manager

  class RiskManager {
    const config: Config
    var positions: map<string, PositionRisk>

    /** NewRiskManager: an empty table. */
    constructor(cfg: Config)
      ensures config == cfg && positions == map[]
    {
      config := cfg;
      positions := map[];
    }

    /** GetTotalExposure: the exposure loop over the table. */
    method GetTotalExposure() returns (total: real)
      ensures total == Exposure(positions)
    {
      total := 0.0;
      var rest := positions;
      while rest.Keys != {}
        invariant total + Total(rest, ExposureOf) == Total(positions, ExposureOf)
        decreases |rest.Keys|
      {
        var s :| s in rest;
        TotalRemove(rest, ExposureOf, s);
        assert (rest - {s}).Keys == rest.Keys - {s};
        total := total + rest[s].currentSize * rest[s].currentPrice;
        rest := rest - {s};
      }
    }

    /** CalculatePortfolioDrawdown: PnL and cost summed in one loop. */
    method CalculatePortfolioDrawdown() returns (drawdown: real)
      ensures drawdown == PortfolioDrawdown(positions)
    {
      var totalPnl := 0.0;
      var totalValue := 0.0;
      var rest := positions;
      while rest.Keys != {}
        invariant totalPnl + Total(rest, PnlOf) == Total(positions, PnlOf)
        invariant totalValue + Total(rest, CostOf) == Total(positions, CostOf)
        decreases |rest.Keys|
      {
        var s :| s in rest;
        TotalRemove(rest, PnlOf, s);
        TotalRemove(rest, CostOf, s);
        assert (rest - {s}).Keys == rest.Keys - {s};
        totalPnl := totalPnl + rest[s].unrealizedPnl;
        totalValue := totalValue + rest[s].currentSize * rest[s].entryPrice;
        rest := rest - {s};
      }
      if totalValue == 0.0 {
        return 0.0;
      }
      drawdown := totalPnl / totalValue;
    }

    /** CalculatePortfolioVolatility: the mean of a 2% proxy per position. */
    method CalculatePortfolioVolatility() returns (volatility: real)
      ensures volatility == PortfolioVolatility(positions)
      ensures 0.0 <= volatility <= 0.02
    {
      var totalVolatility := 0.0;
      var count := 0;
      var rest := positions.Keys;
      while rest != {}
        invariant rest <= positions.Keys
        invariant count == |positions.Keys| - |rest|
        invariant totalVolatility == 0.02 * count as real
        decreases |rest|
      {
        var s :| s in rest;
        totalVolatility := totalVolatility + 0.02;
        count := count + 1;
        rest := rest - {s};
      }
      assert count == |positions.Keys| == |positions|;
      if count == 0 {
        return 0.0;
      }
      volatility := totalVolatility / count as real;
      assert volatility == 0.02;
    }

    /** CalculateRiskMetrics. */
    method CalculateRiskMetrics() returns (m: RiskMetrics)
      ensures m == Metrics(positions)
    {
      var exposure := GetTotalExposure();
      var drawdown := CalculatePortfolioDrawdown();
      var volatility := CalculatePortfolioVolatility();
      m := RiskMetrics(exposure, drawdown, volatility, CorrelationRisk(positions));
    }

    /** CheckPositionRisk: the per-coin limit first, then the capital. */
    method CheckPositionRisk(symbol: string, orderSize: real, price: real) returns (err: Option<RiskError>)
      ensures err == Some(PositionLimitExceeded) <==> orderSize > config.maxPositionPerCoin
      ensures err == Some(CapitalExceeded) <==>
                orderSize <= config.maxPositionPerCoin && Exposure(positions) + orderSize * price > config.totalCapital
      ensures err.None? <==>
                orderSize <= config.maxPositionPerCoin && Exposure(positions) + orderSize * price <= config.totalCapital
    {
      if orderSize > config.maxPositionPerCoin {
        return Some(PositionLimitExceeded);
      }
      var currentExposure := GetTotalExposure();
      var newExposure := currentExposure + orderSize * price;
      if newExposure > config.totalCapital {
        return Some(CapitalExceeded);
      }
      return None;
    }

    /** CheckPortfolioRisk: the drawdown limit first, then the capital. */
    method CheckPortfolioRisk() returns (err: Option<RiskError>)
      ensures err == Some(DrawdownExceeded) <==> PortfolioDrawdown(positions) > config.maxDrawdown
      ensures err == Some(ExposureExceeded) <==>
                PortfolioDrawdown(positions) <= config.maxDrawdown && Exposure(positions) > config.totalCapital
      ensures err.None? <==>
                PortfolioDrawdown(positions) <= config.maxDrawdown && Exposure(positions) <= config.totalCapital
    {
      var metrics := CalculateRiskMetrics();
      if metrics.portfolioDrawdown > config.maxDrawdown {
        return Some(DrawdownExceeded);
      }
      if metrics.totalExposure > config.totalCapital {
        return Some(ExposureExceeded);
      }
      return None;
    }

    /** UpdatePosition: the symbol's record is replaced by UpdatedRisk; no
        other symbol changes. */
    method UpdatePosition(symbol: string, position: Position)
      modifies this
      ensures positions == old(positions)[symbol := UpdatedRisk(config, if symbol in old(positions) then Some(old(positions)[symbol]) else None, symbol, position)]
    {
      var existing := if symbol in positions then Some(positions[symbol]) else None;
      positions := positions[symbol := UpdatedRisk(config, existing, symbol, position)];
    }

    /** SetTrailingStop: ignored for an unknown symbol; otherwise the trailing
        stop is activated at the stop-loss distance below the price. */
    method SetTrailingStop(symbol: string, currentPrice: real)
      modifies this
      ensures symbol !in old(positions) ==> positions == old(positions)
      ensures symbol in old(positions) ==>
                positions == old(positions)[symbol := old(positions)[symbol].(
                  trailingStopLevel := currentPrice * StopFactor(config), isTrailingStopSet := true)]
    {
      if symbol !in positions {
        return;
      }
      var pos := positions[symbol];
      pos := pos.(trailingStopLevel := currentPrice * StopFactor(config), isTrailingStopSet := true);
      positions := positions[symbol := pos];
    }

    /** CheckStopLossTakeProfit: every priced record is replaced by CheckOne's,
        and the exits are reported, one per symbol, in map order. */
    method CheckStopLossTakeProfit(currentPrices: map<string, real>) returns (actions: seq<ExitAction>)
      modifies this
      ensures positions.Keys == old(positions).Keys
      ensures forall s :: s in positions ==> positions[s] == AfterCheck(config, currentPrices, s, old(positions)[s])
      ensures ActionsFor(config, old(positions), currentPrices, old(positions).Keys, actions)
    {
      actions, positions := CheckAll(config, currentPrices, positions);
    }

    /** CheckSymbolDrawdown: a flag for each symbol whose drawdown from its
        peak exceeds the limit, in map order. */
    method CheckSymbolDrawdown() returns (alerts: seq<DrawdownAlert>)
      ensures forall a :: a in alerts <==> a in DrawdownAlertsAmong(config, positions, positions.Keys)
      ensures forall i, j :: 0 <= i < j < |alerts| ==> alerts[i].symbol != alerts[j].symbol
    {
      alerts := [];
      var rest := positions.Keys;
      ghost var done: set<string> := {};
      while rest != {}
        invariant done + rest == positions.Keys && done !! rest
        invariant AlertsCover(config, positions, done, alerts)
        decreases |rest|
      {
        var s :| s in rest;
        var pos := positions[s];
        DrawdownStep(config, positions, done, alerts, s);
        if pos.peakValue > 0.0 {
          var currentValue := pos.currentSize * pos.currentPrice + pos.unrealizedPnl;
          var drawdown := (pos.peakValue - currentValue) / pos.peakValue;
          assert drawdown == SymbolDrawdown(positions[s]);
          if drawdown > config.maxDrawdown {
            alerts := alerts + [DrawdownAlert(s, drawdown)];
          }
        }
        rest := rest - {s};
        done := done + {s};
      }
      assert done == positions.Keys;
    }

    /** ShouldStopTrading. */
    method ShouldStopTrading() returns (stop: bool)
      ensures stop <==> StopCondition(config, positions)
    {
      var metrics := CalculateRiskMetrics();
      if metrics.portfolioDrawdown > config.maxDrawdown * 2.0 {
        return true;
      }
      if metrics.totalExposure > config.totalCapital * 1.5 {
        return true;
      }
      return false;
    }
  }
}
