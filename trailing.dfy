/** `trailing_stop_logic` (main.py:291-437): the per-(symbol, side) ratchet that flattens,
    tightens or holds the protective stop of one position. */
module TrailingStop {
  import opened Wrappers
  import opened Domain
  import opened Exchange
  import opened TrailingStore

  /** Initial values when no trailing file exists yet (main.py:303-306). */
  const InitialThreshold: real := 0.10
  const InitialProfitTargetDistance: real := 0.06

  /** Combined PnL at or below this flattens the position's trailing state (main.py:328). */
  const FlatPnl: real := 0.001

  const DefaultRecord: TrailingRecord :=
    TrailingRecord(InitialThreshold, InitialProfitTargetDistance, None, None, false)

  /** `load_trailing_data(...) or {defaults}`. */
  function Effective(loaded: Option<TrailingRecord>): (r: TrailingRecord)
    ensures loaded.Some? ==> r == loaded.value
    ensures loaded.None? ==> r.threshold == 0.10 && r.profitTargetDistance == 0.06 && r.orderId == None
  {
    if loaded.Some? then loaded.value else DefaultRecord
  }

  /** `if order_id:` — a stored id that is present and non-empty. */
  predicate HasOrderId(id: Option<string>) {
    id.Some? && id.value != ""
  }

  /** The guard of main.py:299: known entry and mark price, side long or short, contracts > 0. */
  predicate Eligible(pos: Position) {
    pos.entryPrice != 0.0 && pos.markPrice != 0.0 && (pos.side.Long? || pos.side.Short?) && pos.contracts > 0.0
  }

  /** `float(position.get("leverage") or 1)`: a missing or zero leverage reads as 1. */
  function LeverageOf(pos: Position): (l: real)
    ensures l != 0.0
  {
    if pos.leverage == 0.0 then 1.0 else pos.leverage
  }

  /** Fractional price move in the position's favour. */
  function PriceChange(pos: Position): real
    requires pos.entryPrice != 0.0
  {
    if pos.side == Long then (pos.markPrice - pos.entryPrice) / pos.entryPrice
    else (pos.entryPrice - pos.markPrice) / pos.entryPrice
  }

  /** `profit_distance`: the leveraged price move. */
  function ProfitDistance(pos: Position): real
    requires pos.entryPrice != 0.0
  {
    PriceChange(pos) * LeverageOf(pos)
  }

  function UnrealizedPnl(pos: Position): real {
    if pos.side == Long then (pos.markPrice - pos.entryPrice) * pos.contracts
    else (pos.entryPrice - pos.markPrice) * pos.contracts
  }

  /** `addUnreRea`: unrealized plus realized PnL. */
  function CombinedPnl(pos: Position): (r: real)
    ensures pos.markPrice == pos.entryPrice ==> r == pos.realizedPnl
    ensures pos.contracts > 0.0 && pos.side == Long && pos.markPrice > pos.entryPrice ==> r > pos.realizedPnl
    ensures pos.contracts > 0.0 && pos.side != Long && pos.markPrice < pos.entryPrice ==> r > pos.realizedPnl
  {
    UnrealizedPnl(pos) + pos.realizedPnl
  }

  /** `new_stop_price`: `profit_target_distance / leverage` above entry for a long, below for a short. */
  function NewStopPrice(pos: Position, profitTargetDistance: real): real {
    if pos.side == Long then pos.entryPrice * (1.0 + profitTargetDistance / LeverageOf(pos))
    else pos.entryPrice * (1.0 - profitTargetDistance / LeverageOf(pos))
  }

  /** The check of main.py:355: a long's stop must lie strictly above entry, a short's strictly below. */
  predicate StopLocksProfit(pos: Position, stop: real) {
    !((pos.side == Long && stop <= pos.entryPrice) || (pos.side == Short && stop >= pos.entryPrice))
  }

  /** What one call does with one position. */
  datatype Action =
    | Skip                      // invalid or missing data: nothing happens
    | Flatten                   // cancel the tracked stop (if any) and delete the state
    | Hold                      // profit below the threshold: nothing happens
    | Reject(stopPrice: real)   // the new stop would not lock in profit: nothing happens
    | Tighten(stopPrice: real)  // replace the stop and widen the ratchet

  /** The decision of `trailing_stop_logic` for a position and its (possibly default) state. */
  function Decide(pos: Position, rec: TrailingRecord): (a: Action)
    ensures a.Skip? <==> !Eligible(pos)
    ensures a.Flatten? <==> Eligible(pos) && CombinedPnl(pos) <= FlatPnl
    ensures a.Hold? <==> Eligible(pos) && CombinedPnl(pos) > FlatPnl && ProfitDistance(pos) < rec.threshold
    ensures (a.Reject? || a.Tighten?) ==>
              Eligible(pos) && CombinedPnl(pos) > FlatPnl && ProfitDistance(pos) >= rec.threshold
              && a.stopPrice == NewStopPrice(pos, rec.profitTargetDistance)
    ensures a.Tighten? ==> (pos.side == Long && a.stopPrice > pos.entryPrice)
                           || (pos.side == Short && a.stopPrice < pos.entryPrice)
    ensures a.Reject? ==> !StopLocksProfit(pos, a.stopPrice)
  {
    if !Eligible(pos) then Skip
    else if CombinedPnl(pos) <= FlatPnl then Flatten
    else if ProfitDistance(pos) < rec.threshold then Hold
    else
      var stop := NewStopPrice(pos, rec.profitTargetDistance);
      if StopLocksProfit(pos, stop) then Tighten(stop) else Reject(stop)
  }

  /** The record saved after a successful tighten: the new order id, and BOTH `threshold` and
      `profit_target_distance` widened by `breath_threshold` (main.py:433-436). */
  function Ratchet(rec: TrailingRecord, newId: string, breath: real): (r: TrailingRecord)
    ensures r.orderId == Some(newId) && r.orderUpdated
    ensures r.threshold - rec.threshold == breath
    ensures r.profitTargetDistance - rec.profitTargetDistance == breath
    ensures r.sideTag == rec.sideTag
  {
    rec.(orderId := Some(newId),
         profitTargetDistance := rec.profitTargetDistance + breath,
         threshold := rec.threshold + breath,
         orderUpdated := true)
  }

  /** The record after a run of successful tightens with the given new order ids. */
  function RatchetSeries(rec: TrailingRecord, ids: seq<string>, breath: real): TrailingRecord
    decreases |ids|
  {
    if ids == [] then rec else RatchetSeries(Ratchet(rec, ids[0], breath), ids[1..], breath)
  }

  /** Successive tightens move both fields by exactly one breath each, so with a non-negative
      breath neither ever decreases until the state is deleted. */
  lemma {:induction false} RatchetSeriesWidens(rec: TrailingRecord, ids: seq<string>, breath: real)
    ensures RatchetSeries(rec, ids, breath).threshold == rec.threshold + (|ids| as real) * breath
    ensures RatchetSeries(rec, ids, breath).profitTargetDistance
            == rec.profitTargetDistance + (|ids| as real) * breath
    ensures breath >= 0.0 ==> RatchetSeries(rec, ids, breath).threshold >= rec.threshold
                              && RatchetSeries(rec, ids, breath).profitTargetDistance >= rec.profitTargetDistance
    ensures ids != [] ==> RatchetSeries(rec, ids, breath).orderId == Some(ids[|ids| - 1])
    decreases |ids|
  {
    if ids != [] {
      var next := Ratchet(rec, ids[0], breath);
      RatchetSeriesWidens(next, ids[1..], breath);
      var k := (|ids| - 1) as real;
      assert (|ids| as real) * breath == breath + k * breath;
      if breath >= 0.0 {
        assert k * breath >= 0.0;
      }
      if |ids| > 1 {
        assert ids[1..][|ids[1..]| - 1] == ids[|ids| - 1];
      }
    }
  }

  /** With a positive entry, leverage and target distance the new stop always locks in profit,
      so Reject needs a non-positive entry, leverage or target distance. */
  lemma StopLocksProfitForPositiveInputs(pos: Position, ptd: real)
    requires pos.side.Long? || pos.side.Short?
    requires pos.entryPrice > 0.0 && pos.leverage > 0.0 && ptd > 0.0
    ensures StopLocksProfit(pos, NewStopPrice(pos, ptd))
  {
    var q := ptd / LeverageOf(pos);
    assert q > 0.0;
    assert pos.entryPrice * q > 0.0;
    assert pos.entryPrice * (1.0 + q) == pos.entryPrice + pos.entryPrice * q;
    assert pos.entryPrice * (1.0 - q) == pos.entryPrice - pos.entryPrice * q;
  }

  /** The worked example: entry 100, leverage 10, mark 101.1 on a long with default state
      moves the stop to 100.6 and saves threshold 0.20 and distance 0.16. */
  lemma TightenExample(pos: Position, newId: string)
    requires pos.side == Long && pos.entryPrice == 100.0 && pos.markPrice == 101.1
    requires pos.leverage == 10.0 && pos.contracts == 1.0 && pos.realizedPnl == 0.0
    ensures Decide(pos, DefaultRecord) == Tighten(100.6)
    ensures Ratchet(DefaultRecord, newId, 0.10).threshold == 0.20
    ensures Ratchet(DefaultRecord, newId, 0.10).profitTargetDistance == 0.16
  {
    assert CombinedPnl(pos) == 1.1;
    assert PriceChange(pos) == 0.011;
    assert ProfitDistance(pos) == 0.11;
  }

  /** Which side closes the position: 'sell' for a long, 'buy' otherwise. */
  function CloseSide(side: PosSide): OrderSide {
    if side == Long then Sell else Buy
  }

  /** 'Long' for a long position, 'Short' otherwise. */
  function HedgeOf(side: PosSide): HedgeSide {
    if side == Long then HedgeLong else HedgeShort
  }

  /** Cancel of the tracked stop, attempted only when an order id is stored. */
  function StopCancelCalls(o: Oracle, n: nat, id: Option<string>, symbol: string, hedge: HedgeSide): (r: seq<Call>)
    ensures |r| > 0 <==> HasOrderId(id)
    ensures forall c :: c in r ==> c.Cancel? && !c.Creates()
    ensures HasOrderId(id) && !o.reply(n).PosModeErr? ==> r == [Cancel(id.value, symbol, None)]
  {
    if HasOrderId(id) then CancelCalls(o, n, id.value, symbol, hedge) else []
  }

  /** The stop creation: hedge-mode parameters first, one-way parameters only if that failed. */
  function StopCreateCalls(o: Oracle, m: nat, pos: Position, stop: real): (r: seq<Call>)
    ensures 1 <= |r| <= 2 && (|r| == 2 <==> !o.reply(m).Ok?)
    ensures forall i :: 0 <= i < |r| ==>
              r[i] == StopOrder(pos.symbol, CloseSide(pos.side), pos.contracts, stop, i == 0)
  {
    [StopOrder(pos.symbol, CloseSide(pos.side), pos.contracts, stop, true)]
    + (if o.reply(m).Ok? then [] else [StopOrder(pos.symbol, CloseSide(pos.side), pos.contracts, stop, false)])
  }

  /** The id of the stop that the creation placed, if either attempt succeeded. */
  function PlacedStop(o: Oracle, m: nat): (r: Option<string>)
    ensures r.Some? <==> o.reply(m).Ok? || o.reply(m + 1).Ok?
    ensures o.reply(m).Ok? ==> r == Some(o.reply(m).id)
  {
    if o.reply(m).Ok? then Some(o.reply(m).id)
    else if o.reply(m + 1).Ok? then Some(o.reply(m + 1).id)
    else None
  }

  /** Every request of one `trailing_stop_logic` call started as request n, for the stored or
      default state `rec`: the cancel of the tracked stop on a flatten; that cancel and the
      stop creation on a tighten; nothing otherwise. All of them are cancels or stop orders
      of the position's own symbol. */
  function TrailingCalls(o: Oracle, n: nat, pos: Position, rec: TrailingRecord): (r: seq<Call>)
    ensures forall c :: c in r ==> (c.Cancel? || c.StopOrder?) && c.symbol == pos.symbol
  {
    match Decide(pos, rec)
    case Flatten => StopCancelCalls(o, n, rec.orderId, pos.symbol, HedgeOf(pos.side))
    case Tighten(stop) =>
      var cancels := StopCancelCalls(o, n, rec.orderId, pos.symbol, HedgeOf(pos.side));
      cancels + StopCreateCalls(o, n + |cancels|, pos, stop)
    case _ => []
  }

  /** The trailing files after one `trailing_stop_logic` call started as request n: a flatten
      deletes the symbol's file in both subfolders; a tighten whose stop was placed saves the
      ratchet in the side's subfolder; nothing else changes. Files of other symbols are never
      touched. */
  function TrailingFiles(o: Oracle, n: nat, files: map<Key, TrailingRecord>, pos: Position, breath: real)
    : (r: map<Key, TrailingRecord>)
    ensures forall k: Key :: k.1 != FileNameFor(pos.symbol) ==> (k in r <==> k in files)
    ensures forall k: Key :: k.1 != FileNameFor(pos.symbol) && k in r ==> r[k] == files[k]
  {
    var rec := Effective(Stored(files, pos.symbol, pos.side));
    match Decide(pos, rec)
    case Flatten => files - {(BuyFolder, FileNameFor(pos.symbol)), (SellFolder, FileNameFor(pos.symbol))}
    case Tighten(_) =>
      var m := n + |StopCancelCalls(o, n, rec.orderId, pos.symbol, HedgeOf(pos.side))|;
      (match PlacedStop(o, m)
       case None => files
       case Some(id) => files[KeyFor(pos.symbol, pos.side) := Ratchet(rec, id, breath).(sideTag := Some(SubfolderFor(pos.side)))])
    case _ => files
  }

  /** The per-action outcome that TrailingStopLogic ensures, gathered into TrailingCalls and
      TrailingFiles. */
  lemma TrailingOutcome(o: Oracle, trace0: seq<Call>, trace1: seq<Call>, files0: map<Key, TrailingRecord>,
                        files1: map<Key, TrailingRecord>, pos: Position, breath: real, action: Action)
    requires action == Decide(pos, Effective(Stored(files0, pos.symbol, pos.side)))
    requires !action.Flatten? && !action.Tighten? ==> files1 == files0 && trace1 == trace0
    requires action.Flatten? ==>
               var rec := Effective(Stored(files0, pos.symbol, pos.side));
               && files1 == files0 - {(BuyFolder, FileNameFor(pos.symbol)), (SellFolder, FileNameFor(pos.symbol))}
               && trace1 == trace0 + StopCancelCalls(o, |trace0|, rec.orderId, pos.symbol, HedgeOf(pos.side))
    requires action.Tighten? ==>
               var rec := Effective(Stored(files0, pos.symbol, pos.side));
               var cancels := StopCancelCalls(o, |trace0|, rec.orderId, pos.symbol, HedgeOf(pos.side));
               var m := |trace0| + |cancels|;
               && trace1 == trace0 + cancels + StopCreateCalls(o, m, pos, action.stopPrice)
               && files1 == match PlacedStop(o, m)
                            case None => files0
                            case Some(id) => files0[KeyFor(pos.symbol, pos.side) :=
                              Ratchet(rec, id, breath).(sideTag := Some(SubfolderFor(pos.side)))]
    ensures trace1 == trace0 + TrailingCalls(o, |trace0|, pos, Effective(Stored(files0, pos.symbol, pos.side)))
    ensures files1 == TrailingFiles(o, |trace0|, files0, pos, breath)
  {
  }

  /** The stop creation of main.py:381-429: the hedge-mode create, then, only if it failed, the
      one-way create. Returns the id of the order placed, if either succeeded. */
  method PlaceStop(ex: Gateway, pos: Position, stop: real) returns (placed: Option<string>)
    modifies ex
    ensures ex.trace == old(ex.trace) + StopCreateCalls(ex.oracle, |old(ex.trace)|, pos, stop)
    ensures placed == PlacedStop(ex.oracle, |old(ex.trace)|)
  {
    var created := false;
    var newId := "";
    var r := ex.CreateStopOrder(pos.symbol, CloseSide(pos.side), pos.contracts, stop, true);
    if r.Ok? {
      created := true;
      newId := r.id;
    }
    if !created {
      var r2 := ex.CreateStopOrder(pos.symbol, CloseSide(pos.side), pos.contracts, stop, false);
      if !r2.Ok? {
        return None;
      }
      created := true;
      newId := r2.id;
    }
    return Some(newId);
  }

  /** `trailing_stop_logic(exchange, position, breath_stop, breath_threshold)`. `breathStop` is
      accepted and, as in the source, never used. */
  method TrailingStopLogic(store: Store, ex: Gateway, pos: Position, breathStop: real, breathThreshold: real)
    returns (action: Action)
    modifies store, ex
    ensures action == Decide(pos, Effective(old(store.Load(pos.symbol, pos.side))))
    ensures old(ex.trace) <= ex.trace
    ensures !action.Flatten? && !action.Tighten? ==>
              store.files == old(store.files) && ex.trace == old(ex.trace)
    ensures action.Flatten? ==>
              var rec := Effective(old(store.Load(pos.symbol, pos.side)));
              && store.files == old(store.files) - {(BuyFolder, FileNameFor(pos.symbol)), (SellFolder, FileNameFor(pos.symbol))}
              && ex.trace == old(ex.trace)
                             + StopCancelCalls(ex.oracle, |old(ex.trace)|, rec.orderId, pos.symbol, HedgeOf(pos.side))
    ensures action.Tighten? ==>
              var rec := Effective(old(store.Load(pos.symbol, pos.side)));
              var cancels := StopCancelCalls(ex.oracle, |old(ex.trace)|, rec.orderId, pos.symbol, HedgeOf(pos.side));
              var m := |old(ex.trace)| + |cancels|;
              && ex.trace == old(ex.trace) + cancels + StopCreateCalls(ex.oracle, m, pos, action.stopPrice)
              && store.files == match PlacedStop(ex.oracle, m)
                                case None => old(store.files)
                                case Some(id) => old(store.files)[KeyFor(pos.symbol, pos.side) :=
                                  Ratchet(rec, id, breathThreshold).(sideTag := Some(SubfolderFor(pos.side)))]
  {
    if !Eligible(pos) {
      return Skip;
    }
    var data := Effective(store.Load(pos.symbol, pos.side));
    var threshold := data.threshold;
    var profitTargetDistance := data.profitTargetDistance;
    var orderId := data.orderId;

    var change := PriceChange(pos);
    var profitDistance := change * LeverageOf(pos);
    var combined := UnrealizedPnl(pos) + pos.realizedPnl;

    if combined <= FlatPnl {
      if HasOrderId(orderId) {
        var _ := ex.CancelWithRetry(orderId.value, pos.symbol, HedgeOf(pos.side));
      }
      var _ := store.Delete(pos.symbol);
      return Flatten;
    }

    if profitDistance >= threshold {
      var newStop := NewStopPrice(pos, profitTargetDistance);
      if (pos.side == Long && newStop <= pos.entryPrice) || (pos.side == Short && newStop >= pos.entryPrice) {
        return Reject(newStop);
      }
      if HasOrderId(orderId) {
        var _ := ex.CancelWithRetry(orderId.value, pos.symbol, HedgeOf(pos.side));
      }
      var placed := PlaceStop(ex, pos, newStop);
      if placed.Some? {
        store.Save(pos.symbol, Ratchet(data, placed.value, breathThreshold), pos.side);
      }
      return Tighten(newStop);
    }
    return Hold;
  }
}
