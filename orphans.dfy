/** `cancel_orphan_orders` (main.py:101-166): cancel the orders of a given type that have no
    position behind them or sit on the wrong side of the position. */
module Orphans {
  import opened Wrappers
  import opened Domain
  import opened Exchange

  /** One entry of `positions_map`. */
  datatype PosInfo = PosInfo(hasPosition: bool, side: PosSide)

  /** `float(p.get('contracts') or p.get('size') or 0)`: size stands in for missing or zero contracts. */
  function ContractsOrSize(p: Position): (r: real)
    ensures r > 0.0 <==> p.contracts > 0.0 || (p.contracts == 0.0 && p.size > 0.0)
  {
    if p.contracts != 0.0 then p.contracts else p.size
  }

  function InfoOf(p: Position): PosInfo {
    PosInfo(ContractsOrSize(p) > 0.0, p.side)
  }

  /** `positions_map` after the loop of main.py:107-114: each position overwrites the entry
      of its symbol. */
  function PositionsMap(ps: seq<Position>): (r: map<string, PosInfo>)
    decreases |ps|
  {
    if ps == [] then map[] else PositionsMap(ps[..|ps| - 1])[ps[|ps| - 1].symbol := InfoOf(ps[|ps| - 1])]
  }

  /** A symbol has an entry iff some position carries it, and the entry is the one of the LAST
      position with that symbol. */
  lemma LastPositionWins(ps: seq<Position>, s: string)
    ensures s in PositionsMap(ps) <==> exists i :: 0 <= i < |ps| && ps[i].symbol == s
    ensures forall k :: 0 <= k < |ps| && ps[k].symbol == s && (forall j :: k < j < |ps| ==> ps[j].symbol != s)
                        ==> PositionsMap(ps)[s] == InfoOf(ps[k])
  {
    PositionsMapKeys(ps, s);
    forall k | 0 <= k < |ps| && ps[k].symbol == s && (forall j :: k < j < |ps| ==> ps[j].symbol != s)
      ensures PositionsMap(ps)[s] == InfoOf(ps[k])
    {
      PositionsMapLast(ps, s, k);
    }
  }

  /** The symbols of the map are those of the positions. */
  lemma {:induction false} PositionsMapKeys(ps: seq<Position>, s: string)
    ensures s in PositionsMap(ps) <==> exists i :: 0 <= i < |ps| && ps[i].symbol == s
    decreases |ps|
  {
    if ps != [] {
      var init := ps[..|ps| - 1];
      PositionsMapKeys(init, s);
      if ps[|ps| - 1].symbol == s {
        assert ps[|ps| - 1].symbol == s;
      } else if exists i :: 0 <= i < |ps| && ps[i].symbol == s {
        var i :| 0 <= i < |ps| && ps[i].symbol == s;
        assert init[i] == ps[i];
      } else {
        forall i | 0 <= i < |init|
          ensures init[i].symbol != s
        {
          assert init[i] == ps[i];
        }
      }
    }
  }

  /** The entry of a symbol is that of its last position. */
  lemma {:induction false} PositionsMapLast(ps: seq<Position>, s: string, k: nat)
    requires k < |ps| && ps[k].symbol == s && forall j :: k < j < |ps| ==> ps[j].symbol != s
    ensures s in PositionsMap(ps) && PositionsMap(ps)[s] == InfoOf(ps[k])
    decreases |ps|
  {
    var last := |ps| - 1;
    if k < last {
      var init := ps[..last];
      assert init[k] == ps[k];
      forall j | k < j < |init|
        ensures init[j].symbol != s
      {
        assert init[j] == ps[j];
      }
      PositionsMapLast(init, s, k);
      assert ps[last].symbol != s;
    }
  }

  /** The loop that fills `positions_map` (main.py:107-114). */
  method BuildPositionsMap(ps: seq<Position>) returns (m: map<string, PosInfo>)
    ensures m == PositionsMap(ps)
  {
    m := map[];
    for i := 0 to |ps|
      invariant m == PositionsMap(ps[..i])
    {
      assert ps[..i + 1][..i] == ps[..i];
      m := m[ps[i].symbol := InfoOf(ps[i])];
    }
    assert ps[..|ps|] == ps;
  }

  /** `positions_map.get(symbol, {'has_position': False, ...})`. */
  function Lookup(pm: map<string, PosInfo>, symbol: string): Option<PosInfo> {
    if symbol in pm then Some(pm[symbol]) else None
  }

  predicate HasPosition(info: Option<PosInfo>) {
    info.Some? && info.value.hasPosition
  }

  /** The classification of main.py:130-150. */
  predicate ShouldCancel(order: Order, orderType: string, info: Option<PosInfo>) {
    order.orderType == orderType
    && (!HasPosition(info)
        || (order.side == Buy && info.value.side != Long)
        || (order.side == Sell && info.value.side != Short))
  }

  /** The cancels issued while walking one symbol's orders. A retry cancel that fails raises
      out of the walk, so the remaining orders of that symbol are left alone. */
  function OrderWalk(o: Oracle, n: nat, symbol: string, orders: seq<Order>, info: Option<PosInfo>,
                     orderType: string): seq<Call>
    decreases |orders|
  {
    if orders == [] then []
    else if !ShouldCancel(orders[0], orderType, info) then OrderWalk(o, n, symbol, orders[1..], info, orderType)
    else
      var c := CancelCalls(o, n, orders[0].id, symbol, HedgeFor(orders[0].side));
      if RetryFailed(o, n) then c
      else c + OrderWalk(o, n + |c|, symbol, orders[1..], info, orderType)
  }

  /** The calls for one symbol: fetch its open orders (a failed fetch is caught), then walk them. */
  function SymbolCalls(o: Oracle, n: nat, symbol: string, pm: map<string, PosInfo>, orderType: string): (r: seq<Call>)
    ensures |r| >= 1 && r[0] == OpenOrdersQuery(symbol)
    ensures o.orders(n).None? ==> r == [OpenOrdersQuery(symbol)]
  {
    [OpenOrdersQuery(symbol)]
    + match o.orders(n)
      case None => []
      case Some(os) => OrderWalk(o, n + 1, symbol, os, Lookup(pm, symbol), orderType)
  }

  /** The calls of a walk over symbols in order, where `step(k, s)` gives the calls for symbol
      `s` started as request k. */
  function WalkBy(step: (nat, string) -> seq<Call>, n: nat, symbols: seq<string>): seq<Call>
    decreases |symbols|
  {
    if symbols == [] then []
    else
      var c := step(n, symbols[0]);
      c + WalkBy(step, n + |c|, symbols[1..])
  }

  /** SymbolCalls as a step of WalkBy. */
  function SymbolStep(o: Oracle, pm: map<string, PosInfo>, orderType: string): (nat, string) -> seq<Call> {
    (k: nat, s: string) => SymbolCalls(o, k, s, pm, orderType)
  }

  /** The calls for the symbols in order. */
  function SymbolsWalk(o: Oracle, n: nat, symbols: seq<string>, pm: map<string, PosInfo>, orderType: string)
    : seq<Call>
  {
    WalkBy(SymbolStep(o, pm, orderType), n, symbols)
  }

  function Elements(symbols: seq<string>): set<string> {
    set s | s in symbols
  }

  /** Every call of `cancel_orphan_orders(exchange, symbols, order_type)`: one position fetch;
      if it fails, nothing else. */
  function OrphanCalls(o: Oracle, n: nat, symbols: seq<string>, orderType: string): (r: seq<Call>)
    ensures |r| >= 1 && r[0] == PositionsQuery(Elements(symbols))
    ensures o.positions(n).None? ==> r == [PositionsQuery(Elements(symbols))]
  {
    [PositionsQuery(Elements(symbols))]
    + match o.positions(n)
      case None => []
      case Some(ps) => SymbolsWalk(o, n + 1, symbols, PositionsMap(ps), orderType)
  }

  /** The orders of one symbol that the classification marks for cancelling, in order. */
  function Flagged(orders: seq<Order>, orderType: string, info: Option<PosInfo>): seq<Order>
  {
    if orders == [] then []
    else (if ShouldCancel(orders[0], orderType, info) then [orders[0]] else [])
         + Flagged(orders[1..], orderType, info)
  }

  /** A plain cancel (no `posSide`) of each order. */
  function PlainCancels(symbol: string, orders: seq<Order>): seq<Call>
  {
    if orders == [] then [] else [Cancel(orders[0].id, symbol, None)] + PlainCancels(symbol, orders[1..])
  }

  /** Each order cancelled with the retry pattern, in order: the plain cancel, then the
      `posSide` cancel after a position-mode error. */
  function RetryingCancels(o: Oracle, n: nat, symbol: string, orders: seq<Order>): seq<Call>
    decreases |orders|
  {
    if orders == [] then []
    else
      var c := CancelCalls(o, n, orders[0].id, symbol, HedgeFor(orders[0].side));
      c + RetryingCancels(o, n + |c|, symbol, orders[1..])
  }

  /** Under the retry pattern every order gets its plain cancel. */
  lemma {:induction false} RetryingCancelsCover(o: Oracle, n: nat, symbol: string, orders: seq<Order>)
    ensures forall x :: x in orders ==> Cancel(x.id, symbol, None) in RetryingCancels(o, n, symbol, orders)
    decreases |orders|
  {
    if orders != [] {
      var c := CancelCalls(o, n, orders[0].id, symbol, HedgeFor(orders[0].side));
      var tail := orders[1..];
      var rest := RetryingCancels(o, n + |c|, symbol, tail);
      RetryingCancelsCover(o, n + |c|, symbol, tail);
      assert orders == [orders[0]] + tail;
      forall x | x in orders
        ensures Cancel(x.id, symbol, None) in c + rest
      {
        if x == orders[0] {
          assert c[0] == Cancel(x.id, symbol, None);
        } else {
          assert x in tail;
        }
      }
    }
  }

  /** Under the retry pattern every call cancels one of the orders, for the symbol. */
  lemma {:induction false} RetryingCancelsOnlyOrders(o: Oracle, n: nat, symbol: string, orders: seq<Order>)
    ensures forall c :: c in RetryingCancels(o, n, symbol, orders) ==>
              c.Cancel? && c.symbol == symbol && exists x :: x in orders && x.id == c.id
    decreases |orders|
  {
    if orders != [] {
      var c := CancelCalls(o, n, orders[0].id, symbol, HedgeFor(orders[0].side));
      var tail := orders[1..];
      var rest := RetryingCancels(o, n + |c|, symbol, tail);
      RetryingCancelsOnlyOrders(o, n + |c|, symbol, tail);
      forall d: Call | d in c + rest
        ensures d.Cancel? && d.symbol == symbol && exists x :: x in orders && x.id == d.id
      {
        if d in c {
          assert orders[0] in orders;
        } else {
          var x :| x in tail && x.id == d.id;
          assert x in orders;
        }
      }
    }
  }

  /** The four rules of the classification. */
  lemma ClassificationRules(order: Order, orderType: string, info: Option<PosInfo>)
    ensures order.orderType != orderType ==> !ShouldCancel(order, orderType, info)
    ensures order.orderType == orderType && !HasPosition(info) ==> ShouldCancel(order, orderType, info)
    ensures order.orderType == orderType && HasPosition(info) && order.side == Buy ==>
              (ShouldCancel(order, orderType, info) <==> info.value.side != Long)
    ensures order.orderType == orderType && HasPosition(info) && order.side == Sell ==>
              (ShouldCancel(order, orderType, info) <==> info.value.side != Short)
    ensures order.side == OtherOrderSide && HasPosition(info) ==> !ShouldCancel(order, orderType, info)
  {
  }

  /** Walking a symbol's orders only ever cancels, and only orders the classification flags. */
  lemma {:induction false} WalkCancelsOnlyFlagged(o: Oracle, n: nat, symbol: string, orders: seq<Order>,
                                                  info: Option<PosInfo>, orderType: string)
    ensures forall c :: c in OrderWalk(o, n, symbol, orders, info, orderType) ==>
              c.Cancel? && c.symbol == symbol
              && exists k :: 0 <= k < |orders| && orders[k].id == c.id && ShouldCancel(orders[k], orderType, info)
    decreases |orders|
  {
    if orders != [] {
      var c := CancelCalls(o, n, orders[0].id, symbol, HedgeFor(orders[0].side));
      var m := if ShouldCancel(orders[0], orderType, info) then n + |c| else n;
      WalkCancelsOnlyFlagged(o, m, symbol, orders[1..], info, orderType);
      forall x | x in OrderWalk(o, m, symbol, orders[1..], info, orderType)
        ensures exists k :: 0 <= k < |orders| && orders[k].id == x.id && ShouldCancel(orders[k], orderType, info)
      {
        var k :| 0 <= k < |orders[1..]| && orders[1..][k].id == x.id && ShouldCancel(orders[1..][k], orderType, info);
        assert orders[k + 1] == orders[1..][k];
      }
    }
  }

  /** The walk cancels every flagged order, in order, with the retry pattern, as long as no
      retry cancel fails: the plain cancel, and the `posSide` cancel after a position-mode error.
      So every flagged order gets a plain cancel, and (with WalkCancelsOnlyFlagged) nothing else
      is cancelled. */
  lemma WalkCancelsAllFlagged(o: Oracle, n: nat, symbol: string, orders: seq<Order>,
                              info: Option<PosInfo>, orderType: string)
    requires forall k: nat :: n <= k ==> !RetryFailed(o, k)
    ensures OrderWalk(o, n, symbol, orders, info, orderType)
            == RetryingCancels(o, n, symbol, Flagged(orders, orderType, info))
    ensures forall x :: x in Flagged(orders, orderType, info) ==>
              Cancel(x.id, symbol, None) in OrderWalk(o, n, symbol, orders, info, orderType)
  {
    WalkIsRetryingCancels(o, n, symbol, orders, info, orderType);
    RetryingCancelsCover(o, n, symbol, Flagged(orders, orderType, info));
  }

  /** The walk without a failed retry is the retry pattern over the flagged orders. */
  lemma {:induction false} WalkIsRetryingCancels(o: Oracle, n: nat, symbol: string, orders: seq<Order>,
                                                 info: Option<PosInfo>, orderType: string)
    requires forall k: nat :: n <= k ==> !RetryFailed(o, k)
    ensures OrderWalk(o, n, symbol, orders, info, orderType)
            == RetryingCancels(o, n, symbol, Flagged(orders, orderType, info))
    decreases |orders|
  {
    if orders != [] {
      var x := orders[0];
      var tail := orders[1..];
      var rest := Flagged(tail, orderType, info);
      if ShouldCancel(x, orderType, info) {
        var c := CancelCalls(o, n, x.id, symbol, HedgeFor(x.side));
        WalkIsRetryingCancels(o, n + |c|, symbol, tail, info, orderType);
        assert !RetryFailed(o, n);
        assert OrderWalk(o, n, symbol, orders, info, orderType) == c + OrderWalk(o, n + |c|, symbol, tail, info, orderType);
        assert Flagged(orders, orderType, info) == [x] + rest;
        RetryingCancelsCons(o, n, symbol, x, rest);
      } else {
        WalkIsRetryingCancels(o, n, symbol, tail, info, orderType);
        assert OrderWalk(o, n, symbol, orders, info, orderType) == OrderWalk(o, n, symbol, tail, info, orderType);
        assert Flagged(orders, orderType, info) == rest;
      }
    }
  }

  /** Cancelling a first order and then the rest. */
  lemma RetryingCancelsCons(o: Oracle, n: nat, symbol: string, x: Order, rest: seq<Order>)
    ensures var c := CancelCalls(o, n, x.id, symbol, HedgeFor(x.side));
            RetryingCancels(o, n, symbol, [x] + rest) == c + RetryingCancels(o, n + |c|, symbol, rest)
  {
    assert ([x] + rest)[0] == x && ([x] + rest)[1..] == rest;
  }

  /** Without any position-mode error (a one-way account) the retry pattern is one plain
      cancel per order. */
  lemma {:induction false} RetryingCancelsPlain(o: Oracle, n: nat, symbol: string, orders: seq<Order>)
    requires forall k: nat :: n <= k ==> !o.reply(k).PosModeErr?
    ensures RetryingCancels(o, n, symbol, orders) == PlainCancels(symbol, orders)
    decreases |orders|
  {
    if orders != [] {
      RetryingCancelsPlain(o, n + 1, symbol, orders[1..]);
    }
  }

  /** The two worked examples on a one-way account: with no position both limit orders are
      cancelled; under a short position only the buy-side one is. */
  lemma ReconcilerExamples(o: Oracle, n: nat, symbol: string, buy: Order, sell: Order)
    requires buy.orderType == "limit" && buy.side == Buy && sell.orderType == "limit" && sell.side == Sell
    requires forall k: nat :: n <= k ==> !o.reply(k).PosModeErr?
    ensures OrderWalk(o, n, symbol, [buy, sell], None, "limit")
            == [Cancel(buy.id, symbol, None), Cancel(sell.id, symbol, None)]
    ensures OrderWalk(o, n, symbol, [buy, sell], Some(PosInfo(true, Short)), "limit")
            == [Cancel(buy.id, symbol, None)]
  {
    var orders := [buy, sell];
    assert orders[1..] == [sell] && [sell][1..] == [];
    var short := Some(PosInfo(true, Short));
    assert Flagged([sell], "limit", None) == [sell];
    assert Flagged(orders, "limit", None) == [buy, sell];
    assert Flagged([sell], "limit", short) == [];
    assert Flagged(orders, "limit", short) == [buy];
    assert PlainCancels(symbol, [sell]) == [Cancel(sell.id, symbol, None)];
    WalkCancelsAllFlagged(o, n, symbol, orders, None, "limit");
    WalkCancelsAllFlagged(o, n, symbol, orders, short, "limit");
    RetryingCancelsPlain(o, n, symbol, [buy, sell]);
    RetryingCancelsPlain(o, n, symbol, [buy]);
  }

  /** The first worked example on a hedge-mode account, where every plain cancel fails with the
      position-mode error and every `posSide` retry succeeds: both orders are still cancelled,
      each by its retry with the order's own `posSide`. */
  lemma HedgeModeExample(o: Oracle, n: nat, symbol: string, buy: Order, sell: Order)
    requires buy.orderType == "limit" && buy.side == Buy && sell.orderType == "limit" && sell.side == Sell
    requires o.reply(n).PosModeErr? && o.reply(n + 1).Ok? && o.reply(n + 2).PosModeErr? && o.reply(n + 3).Ok?
    ensures OrderWalk(o, n, symbol, [buy, sell], None, "limit")
            == [Cancel(buy.id, symbol, None), Cancel(buy.id, symbol, Some(HedgeLong)),
                Cancel(sell.id, symbol, None), Cancel(sell.id, symbol, Some(HedgeShort))]
  {
    assert [buy, sell][1..] == [sell] && [sell][1..] == [];
    assert CancelCalls(o, n, buy.id, symbol, HedgeLong)
           == [Cancel(buy.id, symbol, None), Cancel(buy.id, symbol, Some(HedgeLong))];
    assert CancelCalls(o, n + 2, sell.id, symbol, HedgeShort)
           == [Cancel(sell.id, symbol, None), Cancel(sell.id, symbol, Some(HedgeShort))];
    assert OrderWalk(o, n + 2, symbol, [sell], None, "limit") == CancelCalls(o, n + 2, sell.id, symbol, HedgeShort);
  }

  /** A failed retry abandons the rest of the symbol: with two flagged orders, the second is
      never cancelled. */
  lemma AbandonedAfterFailedRetry(o: Oracle, n: nat, symbol: string, a: Order, b: Order,
                                  info: Option<PosInfo>, orderType: string)
    requires ShouldCancel(a, orderType, info) && ShouldCancel(b, orderType, info)
    requires RetryFailed(o, n)
    ensures forall c :: c in OrderWalk(o, n, symbol, [a, b], info, orderType) ==> c.id == a.id
  {
    assert OrderWalk(o, n, symbol, [a, b], info, orderType) == CancelCalls(o, n, a.id, symbol, HedgeFor(a.side));
  }

  /** The calls for a list of symbols are fetches and cancels of those symbols, never creates. */
  lemma {:induction false} SymbolsWalkOnlyCancels(o: Oracle, n: nat, symbols: seq<string>,
                                                  pm: map<string, PosInfo>, orderType: string)
    ensures forall c :: c in SymbolsWalk(o, n, symbols, pm, orderType) ==>
              (c.OpenOrdersQuery? && c.symbol in symbols) || (c.Cancel? && c.symbol in symbols)
    decreases |symbols|
  {
    if symbols != [] {
      var s := symbols[0];
      var c := SymbolCalls(o, n, s, pm, orderType);
      if o.orders(n).Some? {
        WalkCancelsOnlyFlagged(o, n + 1, s, o.orders(n).value, Lookup(pm, s), orderType);
      }
      SymbolsWalkOnlyCancels(o, n + |c|, symbols[1..], pm, orderType);
    }
  }

  /** If fetching positions fails, nothing is cancelled; otherwise only orders of the given
      symbols are cancelled, and no order is ever created. */
  lemma OrphanCallsOnlyCancel(o: Oracle, n: nat, symbols: seq<string>, orderType: string)
    ensures o.positions(n).None? ==> OrphanCalls(o, n, symbols, orderType) == [PositionsQuery(Elements(symbols))]
    ensures forall c :: c in OrphanCalls(o, n, symbols, orderType) ==>
              !c.Creates() && (c.Cancel? ==> c.symbol in symbols)
  {
    if o.positions(n).Some? {
      SymbolsWalkOnlyCancels(o, n + 1, symbols, PositionsMap(o.positions(n).value), orderType);
    }
  }

  /** One step of the walk over the orders from index j on. */
  lemma OrderWalkUnfold(o: Oracle, n: nat, symbol: string, orders: seq<Order>, j: nat, info: Option<PosInfo>,
                        orderType: string)
    requires j < |orders|
    ensures var c := CancelCalls(o, n, orders[j].id, symbol, HedgeFor(orders[j].side));
            var rest := OrderWalk(o, n + |c|, symbol, orders[j + 1..], info, orderType);
            OrderWalk(o, n, symbol, orders[j..], info, orderType)
            == if !ShouldCancel(orders[j], orderType, info) then OrderWalk(o, n, symbol, orders[j + 1..], info, orderType)
               else if RetryFailed(o, n) then c
               else c + rest
  {
    assert orders[j..][0] == orders[j] && orders[j..][1..] == orders[j + 1..];
  }

  /** Cancel the flagged orders of one symbol (the body of the `try` of main.py:120-163). */
  method CancelSymbolOrphans(ex: Gateway, symbol: string, positionsMap: map<string, PosInfo>, orderType: string)
    modifies ex
    ensures ex.trace == old(ex.trace) + SymbolCalls(ex.oracle, |old(ex.trace)|, symbol, positionsMap, orderType)
  {
    var fetched := ex.FetchOpenOrders(symbol);
    if fetched.None? || fetched.value == [] {
      return;
    }
    var orders := fetched.value;
    var info := Lookup(positionsMap, symbol);
    var hasPosition := info.Some? && info.value.hasPosition;
    ghost var target := old(ex.trace) + SymbolCalls(ex.oracle, |old(ex.trace)|, symbol, positionsMap, orderType);
    var j := 0;
    while j < |orders|
      invariant 0 <= j <= |orders|
      invariant ex.trace + OrderWalk(ex.oracle, |ex.trace|, symbol, orders[j..], info, orderType) == target
    {
      var order := orders[j];
      OrderWalkUnfold(ex.oracle, |ex.trace|, symbol, orders, j, info, orderType);
      if order.orderType == orderType {
        if !hasPosition
           || (order.side == Buy && info.value.side != Long)
           || (order.side == Sell && info.value.side != Short) {
          var retryFailed := ex.CancelWithRetry(order.id, symbol, HedgeFor(order.side));
          if retryFailed {
            return;
          }
        }
      }
      j := j + 1;
    }
  }

  /** A walk over a list extended by one symbol is the walk over the list followed by that
      symbol's calls. */
  lemma {:induction false} WalkBySnoc(step: (nat, string) -> seq<Call>, n: nat, symbols: seq<string>, s: string)
    ensures var w := WalkBy(step, n, symbols);
            WalkBy(step, n, symbols + [s]) == w + step(n + |w|, s)
    decreases |symbols|
  {
    if symbols == [] {
      assert [s][1..] == [];
    } else {
      var c := step(n, symbols[0]);
      assert (symbols + [s])[0] == symbols[0] && (symbols + [s])[1..] == symbols[1..] + [s];
      WalkBySnoc(step, n + |c|, symbols[1..], s);
    }
  }

  /** `step` gives the calls of SymbolCalls; the trigger keeps the step from being unfolded
      where only the walk's shape matters. */
  ghost predicate ActsAsSymbolStep(step: (nat, string) -> seq<Call>, o: Oracle, pm: map<string, PosInfo>,
                                   orderType: string)
  {
    forall k: nat, s: string {:trigger SymbolCalls(o, k, s, pm, orderType)} ::
      step(k, s) == SymbolCalls(o, k, s, pm, orderType)
  }

  /** The loop `for symbol in all_symbols` of main.py:119-163. */
  method CancelEachSymbol(ex: Gateway, symbols: seq<string>, positionsMap: map<string, PosInfo>, orderType: string,
                          ghost step: (nat, string) -> seq<Call>)
    requires ActsAsSymbolStep(step, ex.oracle, positionsMap, orderType)
    modifies ex
    ensures ex.trace == old(ex.trace) + WalkBy(step, |old(ex.trace)|, symbols)
  {
    ghost var start := ex.trace;
    for i := 0 to |symbols|
      invariant ex.trace == start + WalkBy(step, |start|, symbols[..i])
    {
      ghost var walked := WalkBy(step, |start|, symbols[..i]);
      ghost var c := step(|ex.trace|, symbols[i]);
      WalkBySnoc(step, |start|, symbols[..i], symbols[i]);
      assert symbols[..i + 1] == symbols[..i] + [symbols[i]];
      CancelSymbolOrphans(ex, symbols[i], positionsMap, orderType);
      assert ex.trace == start + walked + c;
      assert start + walked + c == start + (walked + c);
    }
    assert symbols[..|symbols|] == symbols;
  }

  /** `cancel_orphan_orders(exchange, all_symbols, order_type)`. */
  method CancelOrphanOrders(ex: Gateway, symbols: seq<string>, orderType: string)
    modifies ex
    ensures ex.trace == old(ex.trace) + OrphanCalls(ex.oracle, |old(ex.trace)|, symbols, orderType)
  {
    var fetched := ex.FetchPositions(Elements(symbols));
    if fetched.None? {
      return;
    }
    var positionsMap := BuildPositionsMap(fetched.value);
    CancelEachSymbol(ex, symbols, positionsMap, orderType, SymbolStep(ex.oracle, positionsMap, orderType));
  }
}
