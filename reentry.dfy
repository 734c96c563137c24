/** The re-entry decision: `monitor_position_and_reenter` (main.py:169-229) and
    `reEnterTrade` (main.py:34-91). */
module Reentry {
  import opened Wrappers
  import opened Domain
  import opened Exchange
  import opened Naming
  import opened PrecisionMath

  /** `fromPercnt` (main.py:184). */
  const ReentryFraction: real := 0.2

  /** `exchange.markets[symbol]['precision']`: tick size of the price and step size of the amount. */
  datatype MarketPrecision = MarketPrecision(price: real, amount: real)

  /** How far `monitor_position_and_reenter` gets before fetching open orders. */
  datatype Screening =
    | NoMarket          // `exchange.markets[symbol]` raises KeyError, caught: nothing happens
    | InvalidPrecision  // `math.log10` of a tick or step size <= 0 raises, uncaught
    | MissingPrice      // liquidation, entry or mark price is 0 or missing: return
    | DegenerateRange   // entry == liquidation: the `closeness` division raises, uncaught
    | Proceed

  function Screen(markets: map<string, MarketPrecision>, symbol: string, pos: Position): (s: Screening)
    ensures s == Proceed <==>
              symbol in markets && markets[symbol].price > 0.0 && markets[symbol].amount > 0.0
              && pos.liquidationPrice != 0.0 && pos.entryPrice != 0.0 && pos.markPrice != 0.0
              && pos.entryPrice != pos.liquidationPrice
    ensures s == NoMarket <==> symbol !in markets
    ensures Raises(s) <==>
              symbol in markets
              && (|| markets[symbol].price <= 0.0
                  || markets[symbol].amount <= 0.0
                  || (pos.liquidationPrice != 0.0 && pos.entryPrice != 0.0 && pos.markPrice != 0.0
                      && pos.entryPrice == pos.liquidationPrice))
  {
    if symbol !in markets then NoMarket
    else if markets[symbol].price <= 0.0 || markets[symbol].amount <= 0.0 then InvalidPrecision
    else if pos.liquidationPrice == 0.0 || pos.entryPrice == 0.0 || pos.markPrice == 0.0 then MissingPrice
    else if Abs(pos.entryPrice - pos.liquidationPrice) == 0.0 then DegenerateRange
    else Proceed
  }

  /** The screenings that raise an exception out of `monitor_position_and_reenter`. */
  predicate Raises(s: Screening) {
    s == InvalidPrecision || s == DegenerateRange
  }

  /** `side_str` of the dedup check: 'buy' for a long, 'sell' for anything else. */
  function DedupSide(side: PosSide): (r: OrderSide)
    ensures r == Buy <==> side == Long
  {
    if side == Long then Buy else Sell
  }

  /** `order_side` of the re-entry order: 'sell' for a short, 'buy' for anything else. */
  function EntrySide(side: PosSide): (r: OrderSide)
    ensures r == Sell <==> side == Short
  {
    if side == Short then Sell else Buy
  }

  /** A limit order on the position's own side is already open. */
  predicate HasSameSideLimit(orders: seq<Order>, side: PosSide) {
    exists o :: o in orders && o.orderType == LimitType && o.side == DedupSide(side)
  }

  /** `round_to_sig_figs(2 * notional / mark_price, amount_sig_digits)`. */
  function EntryAmount(f: FloatOps, pos: Position, prec: MarketPrecision): (r: real)
    requires pos.markPrice != 0.0
    ensures pos.notional == 0.0 ==> r == 0.0
  {
    RoundToSigFigs(f, pos.notional * 2.0 / pos.markPrice, CountSigDigits(f, prec.amount))
  }

  /** `calculateLiquidationTargPrice(entry_price, liquidation_price, fromPercnt, price_sig_digits)`:
      the entry price lands in the `_liqprice` parameter and the liquidation price in `_entryprice`. */
  function EntryPrice(f: FloatOps, pos: Position, prec: MarketPrecision): real {
    CalculateLiquidationTargPrice(f, pos.entryPrice, pos.liquidationPrice, ReentryFraction,
                                  CountSigDigits(f, prec.price))
  }

  /** The retry with `posSide`, issued only when the error was the position-mode error. */
  function RetryCalls(o: Oracle, k: nat, symbol: string, orderType: string, side: OrderSide,
                      price: real, amount: real): seq<Call>
  {
    if o.reply(k).PosModeErr? then [EntryOrder(symbol, orderType, side, amount, price, Some(HedgeFor(side)))]
    else []
  }

  /** The calls of `reEnterTrade` started as request n. The balance fetch and the first create
      share one handler: whichever fails first decides whether the retry happens. Symbols without
      ':USDT' get no call; otherwise the balance is fetched first; at most two creates follow,
      for exactly the requested symbol, type, side, price and amount; the plain create goes out
      once the balance is in; the `posSide` retry comes last and follows the position-mode
      error and nothing else, so a pilot-contract or any other error ends the attempt. */
  function ReentryCalls(o: Oracle, n: nat, symbol: string, orderType: string, side: OrderSide,
                        price: real, amount: real): (r: seq<Call>)
    ensures r == [] <==> !Contains(symbol, SettleMarker)
    ensures r != [] ==> r[0] == BalanceQuery && |r| <= 3
    ensures forall c :: c in r ==>
              || c == BalanceQuery
              || (c.EntryOrder? && c.symbol == symbol && c.orderType == orderType && c.side == side
                  && c.price == price && c.amount == amount)
    ensures r != [] && o.reply(n).Ok? ==> |r| >= 2 && r[1] == EntryOrder(symbol, orderType, side, amount, price, None)
    ensures forall i :: 0 <= i < |r| && r[i].EntryOrder? && r[i].posSide.Some? ==>
              i == |r| - 1 && r[i].posSide == Some(HedgeFor(side))
    ensures r != [] ==>
              (EntryOrder(symbol, orderType, side, amount, price, Some(HedgeFor(side))) in r <==>
                 o.reply(n).PosModeErr? || (o.reply(n).Ok? && o.reply(n + 1).PosModeErr?))
    ensures r != [] && (o.reply(n).PilotErr? || o.reply(n).OtherErr?) ==> r == [BalanceQuery]
  {
    if !Contains(symbol, SettleMarker) then []
    else if o.reply(n).Ok? then
      [BalanceQuery, EntryOrder(symbol, orderType, side, amount, price, None)]
      + (if o.reply(n + 1).Ok? then [] else RetryCalls(o, n + 1, symbol, orderType, side, price, amount))
    else
      [BalanceQuery] + RetryCalls(o, n, symbol, orderType, side, price, amount)
  }

  /** The calls of `monitor_position_and_reenter(exchange, symbol, position)` started as request n. */
  function MonitorCalls(o: Oracle, n: nat, f: FloatOps, markets: map<string, MarketPrecision>,
                        symbol: string, pos: Position): (r: seq<Call>)
    ensures Screen(markets, symbol, pos) != Proceed <==> r == []
    ensures r != [] ==> r[0] == OpenOrdersQuery(symbol)
    ensures forall c :: c in r ==>
              c == OpenOrdersQuery(symbol) || c == BalanceQuery || (c.EntryOrder? && c.symbol == symbol)
  {
    if Screen(markets, symbol, pos) != Proceed then []
    else
      [OpenOrdersQuery(symbol)]
      + match o.orders(n)
        case None => []
        case Some(orders) =>
          if HasSameSideLimit(orders, pos.side) then []
          else ReentryCalls(o, n + 1, symbol, LimitType, EntrySide(pos.side),
                            EntryPrice(f, pos, markets[symbol]), EntryAmount(f, pos, markets[symbol]))
  }

  /** An order is placed exactly when the screening passes, the open orders were fetched, no
      same-side limit order is open, the symbol is a ':USDT' contract and the balance fetch did
      not fail with an error other than the position-mode one. Every placed order is a limit
      order on EntrySide at EntryPrice for EntryAmount. */
  lemma {:induction false} MonitorPlacesOrderIff(o: Oracle, n: nat, f: FloatOps,
                                                 markets: map<string, MarketPrecision>,
                                                 symbol: string, pos: Position)
    ensures var r := MonitorCalls(o, n, f, markets, symbol, pos);
            (exists c :: c in r && c.Creates()) <==>
              && Screen(markets, symbol, pos) == Proceed
              && o.orders(n).Some? && !HasSameSideLimit(o.orders(n).value, pos.side)
              && Contains(symbol, SettleMarker)
              && (o.reply(n + 1).Ok? || o.reply(n + 1).PosModeErr?)
    ensures var r := MonitorCalls(o, n, f, markets, symbol, pos);
            forall c :: c in r && c.Creates() ==>
              && Screen(markets, symbol, pos) == Proceed
              && c == EntryOrder(symbol, LimitType, EntrySide(pos.side),
                                 EntryAmount(f, pos, markets[symbol]), EntryPrice(f, pos, markets[symbol]),
                                 c.posSide)
  {
    var r := MonitorCalls(o, n, f, markets, symbol, pos);
    if Screen(markets, symbol, pos) == Proceed && o.orders(n).Some? && !HasSameSideLimit(o.orders(n).value, pos.side) {
      var price := EntryPrice(f, pos, markets[symbol]);
      var amount := EntryAmount(f, pos, markets[symbol]);
      var side := EntrySide(pos.side);
      var rc := ReentryCalls(o, n + 1, symbol, LimitType, side, price, amount);
      assert r == [OpenOrdersQuery(symbol)] + rc;
      if Contains(symbol, SettleMarker) && o.reply(n + 1).Ok? {
        assert rc[1] in r;
      } else if Contains(symbol, SettleMarker) && o.reply(n + 1).PosModeErr? {
        assert rc == [BalanceQuery, EntryOrder(symbol, LimitType, side, amount, price, Some(HedgeFor(side)))];
        assert rc[1] in r;
      } else if Contains(symbol, SettleMarker) {
        assert rc == [BalanceQuery];
      }
    }
  }

  /** An open limit order on the dedup side ends the check right after the open-orders fetch. */
  lemma SameSideLimitBlocksEntry(o: Oracle, n: nat, f: FloatOps, markets: map<string, MarketPrecision>,
                                 symbol: string, pos: Position, order: Order)
    requires Screen(markets, symbol, pos) == Proceed && o.orders(n).Some?
    requires order in o.orders(n).value && order.orderType == LimitType && order.side == DedupSide(pos.side)
    ensures MonitorCalls(o, n, f, markets, symbol, pos) == [OpenOrdersQuery(symbol)]
  {
  }

  /** The dedup side and the order side agree exactly for long and short positions. */
  lemma SideMapping(side: PosSide)
    ensures side == Long ==> DedupSide(side) == Buy && EntrySide(side) == Buy
    ensures side == Short ==> DedupSide(side) == Sell && EntrySide(side) == Sell
    ensures DedupSide(side) == EntrySide(side) <==> side != OtherSide
  {
  }

  /** Before rounding, the re-entry price is `liq + (entry - liq) * 0.2`: a fifth of the way
      from the liquidation price back towards entry, equivalently four fifths of the way from
      entry towards liquidation, and strictly between the two. */
  lemma ReentryPriceBetween(pos: Position)
    requires pos.entryPrice != pos.liquidationPrice
    ensures var t := TargetPrice(pos.entryPrice, pos.liquidationPrice, ReentryFraction);
            && t == pos.liquidationPrice + (pos.entryPrice - pos.liquidationPrice) * 0.2
            && t == pos.entryPrice + (pos.liquidationPrice - pos.entryPrice) * 0.8
            && (pos.liquidationPrice < pos.entryPrice ==> pos.liquidationPrice < t < pos.entryPrice)
            && (pos.entryPrice < pos.liquidationPrice ==> pos.entryPrice < t < pos.liquidationPrice)
  {
    TargetBetween(pos.entryPrice, pos.liquidationPrice, ReentryFraction);
    TargetFromOtherEnd(pos.entryPrice, pos.liquidationPrice, ReentryFraction);
  }

  /** `reEnterTrade(exchange, symbol, order_side, order_price, order_amount, order_type)`.
      The free USDT balance it reads and the estimated cost it computes are never used. */
  method ReEnterTrade(ex: Gateway, symbol: string, orderSide: OrderSide, orderPrice: real,
                      orderAmount: real, orderType: string)
    modifies ex
    ensures ex.trace == old(ex.trace)
                        + ReentryCalls(ex.oracle, |old(ex.trace)|, symbol, orderType, orderSide, orderPrice, orderAmount)
  {
    if !Contains(symbol, SettleMarker) {
      return;
    }
    var failure: Reply;
    var balance := ex.FetchBalance();
    if balance.Ok? {
      failure := ex.CreateEntryOrder(symbol, orderType, orderSide, orderAmount, orderPrice, None);
      if failure.Ok? {
        return;
      }
    } else {
      failure := balance;
    }
    if failure.PilotErr? {
      return;
    }
    if failure.PosModeErr? {
      var _ := ex.CreateEntryOrder(symbol, orderType, orderSide, orderAmount, orderPrice,
                                   Some(HedgeFor(orderSide)));
    }
  }

  /** `monitor_position_and_reenter(exchange, symbol, position)`; `raised` says whether it ends
      with an exception its handlers do not catch. */
  method MonitorPositionAndReenter(ex: Gateway, f: FloatOps, markets: map<string, MarketPrecision>,
                                   symbol: string, pos: Position)
    returns (raised: bool)
    modifies ex
    ensures raised == Raises(Screen(markets, symbol, pos))
    ensures ex.trace == old(ex.trace) + MonitorCalls(ex.oracle, |old(ex.trace)|, f, markets, symbol, pos)
  {
    var screening := Screen(markets, symbol, pos);
    raised := Raises(screening);
    if screening != Proceed {
      return;
    }
    var prec := markets[symbol];
    var openOrders := ex.FetchOpenOrders(symbol);
    if openOrders.None? {
      return;
    }
    if HasSameSideLimit(openOrders.value, pos.side) {
      return;
    }
    var orderSide := EntrySide(pos.side);
    var orderAmount := EntryAmount(f, pos, prec);
    var triggerPrice := EntryPrice(f, pos, prec);
    ReEnterTrade(ex, symbol, orderSide, triggerPrice, orderAmount, LimitType);
  }
}
