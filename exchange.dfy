/** The exchange as the core sees it: every request is recorded in a trace, and the
    answer to the n-th request comes from an oracle indexed by n. */
module Exchange {
  import opened Wrappers
  import opened Domain

  /** The answer to a cancel, create or balance request, classified the way the error
      handlers of main.py classify exception messages. */
  datatype Reply =
    | Ok(id: string)    // the request succeeded; for a create, the new order's id
    | PosModeErr        // message contains 'TE_ERR_INCONSISTENT_POS_MODE'
    | PilotErr          // message contains 'Pilot contract is not allowed here'
    | OtherErr          // any other exchange or network error

  /** One request sent to the exchange. */
  datatype Call =
    | PositionsQuery(symbols: set<string>)
    | OpenOrdersQuery(symbol: string)
    | BalanceQuery
    | Cancel(id: string, symbol: string, posSide: Option<HedgeSide>)
    | StopOrder(symbol: string, side: OrderSide, amount: real, stopPrice: real, hedged: bool)
    | EntryOrder(symbol: string, orderType: string, side: OrderSide, amount: real, price: real,
                 posSide: Option<HedgeSide>)
  {
    /** A request that changes the exchange's order book. */
    predicate Mutating() { Cancel? || StopOrder? || EntryOrder? }

    /** A request that creates an order. */
    predicate Creates() { StopOrder? || EntryOrder? }
  }

  /** What the exchange answers to the n-th request of the trace. A failed fetch is None. */
  datatype Oracle = Oracle(
    reply: nat -> Reply,
    positions: nat -> Option<seq<Position>>,
    orders: nat -> Option<seq<Order>>)

  /** The order type of the re-entry orders and of the orders the sweep reconciles
      (main.py:202, 213, 482). */
  const LimitType: string := "limit"

  /** The `posSide` sent for an order side: 'Long' for a buy, 'Short' for anything else
      (main.py:74, 142, 156). */
  function HedgeFor(side: OrderSide): (h: HedgeSide)
    ensures h == HedgeLong <==> side == Buy
  {
    if side == Buy then HedgeLong else HedgeShort
  }

  /** The calls of the cancel-with-retry pattern: cancel without `posSide`, and only when
      that fails with the position-mode error, cancel again with `posSide`. */
  function CancelCalls(o: Oracle, n: nat, id: string, symbol: string, hedge: HedgeSide): (r: seq<Call>)
    ensures 1 <= |r| <= 2
    ensures |r| == 2 <==> o.reply(n).PosModeErr?
    ensures r[0] == Cancel(id, symbol, None)
    ensures |r| == 2 ==> r[1] == Cancel(id, symbol, Some(hedge))
    ensures forall c :: c in r ==> c.Cancel? && !c.Creates() && c.id == id && c.symbol == symbol
  {
    [Cancel(id, symbol, None)] + (if o.reply(n).PosModeErr? then [Cancel(id, symbol, Some(hedge))] else [])
  }

  /** The retry cancel was issued and failed too. */
  predicate RetryFailed(o: Oracle, n: nat) {
    o.reply(n).PosModeErr? && !o.reply(n + 1).Ok?
  }

  class Gateway {
    const oracle: Oracle
    var trace: seq<Call>

    constructor (oracle: Oracle)
      ensures this.oracle == oracle && trace == []
    {
      this.oracle := oracle;
      trace := [];
    }

    method FetchPositions(symbols: set<string>) returns (r: Option<seq<Position>>)
      modifies this
      ensures trace == old(trace) + [PositionsQuery(symbols)]
      ensures r == oracle.positions(|old(trace)|)
    {
      r := oracle.positions(|trace|);
      trace := trace + [PositionsQuery(symbols)];
    }

    method FetchOpenOrders(symbol: string) returns (r: Option<seq<Order>>)
      modifies this
      ensures trace == old(trace) + [OpenOrdersQuery(symbol)]
      ensures r == oracle.orders(|old(trace)|)
    {
      r := oracle.orders(|trace|);
      trace := trace + [OpenOrdersQuery(symbol)];
    }

    method FetchBalance() returns (r: Reply)
      modifies this
      ensures trace == old(trace) + [BalanceQuery]
      ensures r == oracle.reply(|old(trace)|)
    {
      r := oracle.reply(|trace|);
      trace := trace + [BalanceQuery];
    }

    method CancelOrder(id: string, symbol: string, posSide: Option<HedgeSide>) returns (r: Reply)
      modifies this
      ensures trace == old(trace) + [Cancel(id, symbol, posSide)]
      ensures r == oracle.reply(|old(trace)|)
    {
      r := oracle.reply(|trace|);
      trace := trace + [Cancel(id, symbol, posSide)];
    }

    method CreateStopOrder(symbol: string, side: OrderSide, amount: real, stopPrice: real, hedged: bool)
      returns (r: Reply)
      modifies this
      ensures trace == old(trace) + [StopOrder(symbol, side, amount, stopPrice, hedged)]
      ensures r == oracle.reply(|old(trace)|)
    {
      r := oracle.reply(|trace|);
      trace := trace + [StopOrder(symbol, side, amount, stopPrice, hedged)];
    }

    method CreateEntryOrder(symbol: string, orderType: string, side: OrderSide, amount: real, price: real,
                            posSide: Option<HedgeSide>)
      returns (r: Reply)
      modifies this
      ensures trace == old(trace) + [EntryOrder(symbol, orderType, side, amount, price, posSide)]
      ensures r == oracle.reply(|old(trace)|)
    {
      r := oracle.reply(|trace|);
      trace := trace + [EntryOrder(symbol, orderType, side, amount, price, posSide)];
    }

    /** Cancel `id`; on the position-mode error retry once with `posSide`. Reports whether
        the retry was issued and failed (callers differ on what that failure does). */
    method CancelWithRetry(id: string, symbol: string, hedge: HedgeSide) returns (retryFailed: bool)
      modifies this
      ensures trace == old(trace) + CancelCalls(oracle, |old(trace)|, id, symbol, hedge)
      ensures retryFailed == RetryFailed(oracle, |old(trace)|)
    {
      var r := CancelOrder(id, symbol, None);
      retryFailed := false;
      if r.PosModeErr? {
        var r2 := CancelOrder(id, symbol, Some(hedge));
        retryFailed := !r2.Ok?;
      }
    }
  }
}
