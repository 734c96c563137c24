/** Position and order snapshots as the exchange reports them (main.py reads them as dicts). */
module Domain {

  /** A position's `side` after `.lower()`: 'long', 'short' or anything else. */
  datatype PosSide = Long | Short | OtherSide

  /** An order's `side` after `.lower()`: 'buy', 'sell' or anything else. */
  datatype OrderSide = Buy | Sell | OtherOrderSide

  /** The `posSide` parameter sent in hedge mode: 'Long' or 'Short'. */
  datatype HedgeSide = HedgeLong | HedgeShort

  /** One position snapshot. A field the exchange leaves out (None) reads as 0.0, as
      `float(p.get(...) or 0)` does; `leverage` keeps the raw value (see LeverageOf). */
  datatype Position = Position(
    symbol: string,
    side: PosSide,
    entryPrice: real,
    markPrice: real,
    liquidationPrice: real,
    contracts: real,
    size: real,
    leverage: real,
    notional: real,
    realizedPnl: real)

  /** One open order: its id, its `type` ('limit', 'stop', ...) and its side. */
  datatype Order = Order(id: string, orderType: string, side: OrderSide)
}
