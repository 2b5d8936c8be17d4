/** Exchange-facing types (internal/bybit/models.go) and the pure parts of the
    exchange client (internal/bybit/client.go): the fixed top-coin list, the
    mapping of an order onto a spot order request, the base/quote split of a
    symbol and the positions built from wallet balances. Decimal amounts are
    reals; network calls are not modelled, their answers are inputs. */
module Bybit {
  import opened Outcomes

  datatype Kline = Kline(open: real, high: real, low: real, close: real, volume: real, timestamp: int)

  datatype MarketData = MarketData(symbol: string, timestamp: int, klines: seq<Kline>)

  datatype Order = Order(symbol: string, side: string, orderType: string, quantity: real, price: real)

  datatype Position = Position(symbol: string, side: string, size: real, avgPrice: real, unrealisedPnl: real)

  /** The action field of a trade signal ("BUY", "SELL", "HOLD", "PLACE_ORDERS"). */
  datatype SignalAction = Buy | Sell | Hold | PlaceOrders

  /** A strategy's verdict. The free-text reason is not modelled. */
  datatype TradeSignal = TradeSignal(symbol: string, action: SignalAction, strength: real)

  /** One coin of the spot wallet, as the wallet-balance call reports it. */
  datatype Balance = Balance(coin: string, free: real, locked: real)

  // ---------------------------------------------------------------------------
  // Top coins

  const TopCoins: seq<string> := ["BTCUSDT", "ETHUSDT", "SOLUSDT", "XRPUSDT", "ADAUSDT", "DOGEUSDT"]

  /** The first `limit` of the six fixed symbols, or all six. The client never
      reports an error here; a negative limit makes the slice panic. */
  function GetTopCoins(limit: int): (coins: seq<string>)
    requires 0 <= limit
    ensures |coins| == if limit < 6 then limit else 6
    ensures coins <= TopCoins
    ensures forall i, j :: 0 <= i < j < |coins| ==> coins[i] != coins[j]
  {
    if limit < |TopCoins| then TopCoins[..limit] else TopCoins
  }

  // ---------------------------------------------------------------------------
  // Orders

  datatype Side = BuySide | SellSide

  datatype SpotOrderType = MarketOrder | LimitOrder

  datatype SpotOrderRequest = SpotOrderRequest(symbol: string, qty: real, side: Side, orderType: SpotOrderType, price: Option<real>)

  /** The request PlaceOrder sends: "BUY" is a buy and every other side a sell;
      "MARKET" is a market order and every other type a limit order; a price is
      attached only when the type is exactly "LIMIT". */
  function BuildOrderRequest(order: Order): (req: SpotOrderRequest)
    ensures req.symbol == order.symbol && req.qty == order.quantity
    ensures req.side == BuySide <==> order.side == "BUY"
    ensures req.orderType == MarketOrder <==> order.orderType == "MARKET"
    ensures req.price.Some? <==> order.orderType == "LIMIT"
    ensures req.price.Some? ==> req.orderType == LimitOrder && req.price.value == order.price
    ensures order.orderType != "MARKET" && order.orderType != "LIMIT" ==> req.orderType == LimitOrder && req.price == None
  {
    var side := if order.side == "BUY" then BuySide else SellSide;
    var orderType := if order.orderType == "MARKET" then MarketOrder else LimitOrder;
    var price := if order.orderType == "LIMIT" then Some(order.price) else None;
    SpotOrderRequest(order.symbol, order.quantity, side, orderType, price)
  }

  // ---------------------------------------------------------------------------
  // Positions from wallet balances

  predicate HasUsdtSuffix(symbol: string) {
    |symbol| > 5 && symbol[|symbol| - 4..] == "USDT"
  }

  /** Base and quote currency of a symbol: a symbol longer than five characters
      ending in "USDT" is split off its suffix, anything else is taken as BTC. */
  function SplitSymbol(symbol: string): (parts: (string, string))
    ensures parts.1 == "USDT"
    ensures HasUsdtSuffix(symbol) ==> parts.0 + "USDT" == symbol && |parts.0| >= 2
    ensures !HasUsdtSuffix(symbol) ==> parts.0 == "BTC"
  {
    if HasUsdtSuffix(symbol) then (symbol[..|symbol| - 4], "USDT") else ("BTC", "USDT")
  }

  /** The positions one balance contributes: LONG when its coin is the base,
      CASH when it is the quote, both when base and quote coincide. */
  function BalancePositions(symbol: string, base: string, quote: string, b: Balance): seq<Position> {
    (if b.coin == base then [Position(symbol, "LONG", b.free + b.locked, 0.0, 0.0)] else [])
    + (if b.coin == quote then [Position(symbol, "CASH", b.free + b.locked, 0.0, 0.0)] else [])
  }

  /** The positions of a balance list, in list order. */
  function PositionsFrom(symbol: string, base: string, quote: string, balances: seq<Balance>): seq<Position>
  {
    if balances == [] then []
    else PositionsFrom(symbol, base, quote, balances[..|balances| - 1])
         + BalancePositions(symbol, base, quote, balances[|balances| - 1])
  }

  function CountCoin(balances: seq<Balance>, coin: string): nat {
    if balances == [] then 0
    else CountCoin(balances[..|balances| - 1], coin) + (if balances[|balances| - 1].coin == coin then 1 else 0)
  }

  /** Exactly one LONG position per base balance and one CASH position per
      quote balance, all for the requested symbol, at zero price and PnL. */
  lemma {:induction false} PositionsFromShape(symbol: string, base: string, quote: string, balances: seq<Balance>)
    ensures var ps := PositionsFrom(symbol, base, quote, balances);
      && |ps| == CountCoin(balances, base) + CountCoin(balances, quote)
      && forall p :: p in ps ==> p.symbol == symbol && p.avgPrice == 0.0 && p.unrealisedPnl == 0.0
                                 && (p.side == "LONG" || p.side == "CASH")
  {
    if balances != [] {
      PositionsFromShape(symbol, base, quote, balances[..|balances| - 1]);
    }
  }

  /** GetPositions: the wallet call's failure is returned as an error; otherwise
      every balance is scanned in order and contributes its positions. */
  method GetPositions(symbol: string, wallet: Result<seq<Balance>, string>) returns (r: Result<seq<Position>, string>)
    ensures wallet.Err? <==> r.Err?
    ensures wallet.Ok? ==> r == Ok(PositionsFrom(symbol, SplitSymbol(symbol).0, SplitSymbol(symbol).1, wallet.value))
  {
    if wallet.Err? {
      return Err("failed to get account info: " + wallet.error);
    }
    var (base, quote) := SplitSymbol(symbol);
    var balances := wallet.value;
    var positions: seq<Position> := [];
    var i := 0;
    while i < |balances|
      invariant 0 <= i <= |balances|
      invariant positions == PositionsFrom(symbol, base, quote, balances[..i])
    {
      var b := balances[i];
      if b.coin == base {
        positions := positions + [Position(symbol, "LONG", b.free + b.locked, 0.0, 0.0)];
      }
      if b.coin == quote {
        positions := positions + [Position(symbol, "CASH", b.free + b.locked, 0.0, 0.0)];
      }
      assert balances[..i + 1][..i] == balances[..i];
      i := i + 1;
    }
    assert balances[..i] == balances;
    r := Ok(positions);
  }
}
