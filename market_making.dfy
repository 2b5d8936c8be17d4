/** The market-making strategy of internal/strategy/market_making.go, a
    simplified Avellaneda-Stoikov model: the optimal spread is
    gamma * sigma^2 around the last close, and orders are placed only when
    that spread exceeds 0.01. */
module MarketMakingStrategy {
  import opened Outcomes
  import opened Bybit
  import opened Strategy

  datatype Parameters = Parameters(gamma: real, k: real, sigma: real, tickSize: real)

  /** The parameters NewMarketMakingStrategy installs. */
  const Defaults: Parameters := Parameters(0.1, 1.5, 0.02, 0.1)

  /** Minimum spread worth quoting. */
  const MinProfitableSpread: real := 0.01

  function OptimalSpread(p: Parameters): (spread: real)
    ensures spread == p.gamma * p.sigma * p.sigma
    ensures p.gamma >= 0.0 ==> spread >= 0.0
  {
    p.gamma * p.sigma * p.sigma
  }

  /** Bid and ask around the mid price, half a spread on each side. */
  function Quote(p: Parameters, mid: real): (quote: (real, real))
    ensures quote.1 - quote.0 == OptimalSpread(p)
    ensures quote.0 + quote.1 == 2.0 * mid
    ensures OptimalSpread(p) >= 0.0 ==> quote.0 <= mid <= quote.1
  {
    var half := OptimalSpread(p) / 2.0;
    (mid - half, mid + half)
  }

  /** Analyze: an empty series holds with strength 0; otherwise the signal
      is PLACE_ORDERS exactly when the spread is profitable, and its strength
      is 1 - spread in either case. */
  function Analyze(p: Parameters, data: MarketData): (sig: TradeSignal)
    ensures sig.symbol == data.symbol
    ensures sig.strength == if |data.klines| == 0 then 0.0 else 1.0 - OptimalSpread(p)
    ensures sig.action == PlaceOrders || sig.action == Hold
    ensures sig.action == PlaceOrders <==> |data.klines| > 0 && OptimalSpread(p) > MinProfitableSpread
    ensures sig.action == PlaceOrders ==> sig.strength < 1.0 - MinProfitableSpread
    ensures |data.klines| > 0 && sig.action == Hold && p.gamma >= 0.0 ==>
      1.0 - MinProfitableSpread <= sig.strength <= 1.0
  {
    if |data.klines| == 0 then TradeSignal(data.symbol, Hold, 0.0)
    else
      var spread := OptimalSpread(p);
      TradeSignal(data.symbol, if spread > MinProfitableSpread then PlaceOrders else Hold, 1.0 - spread)
  }

  /** With the default parameters the spread is 0.00004, so the strategy
      never places orders and every non-empty signal has strength 0.99996. */
  lemma DefaultsNeverPlaceOrders(data: MarketData)
    ensures Analyze(Defaults, data).action == Hold
    ensures |data.klines| > 0 ==> Analyze(Defaults, data).strength == 0.99996
  {
    assert OptimalSpread(Defaults) == 0.00004;
  }

  /** Execute never fails; it acts only on PLACE_ORDERS. */
  function Execute(sig: TradeSignal): (e: Execution)
    ensures e.err == None
    ensures e.placed <==> sig.action == PlaceOrders
  {
    Execution(None, sig.action == PlaceOrders)
  }
}
