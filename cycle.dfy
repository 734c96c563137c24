/** One polling cycle, `main_job` (main.py:510-535), and `get_position` (main.py:94-99). */
module Cycle {
  import opened Wrappers
  import opened Domain
  import opened Exchange
  import opened Naming
  import opened PrecisionMath
  import opened TrailingStore
  import opened TrailingStop
  import opened Reentry
  import opened Orphans
  import opened Cleanup

  /** `breath_stop` and `breath_threshold` as `main_job` passes them (main.py:523). */
  const CycleBreath: real := 0.10

  /** The first position with contracts > 0, if any. */
  function FirstOpen(ps: seq<Position>): (r: Option<Position>)
    ensures r.None? <==> forall p :: p in ps ==> p.contracts <= 0.0
    ensures r.Some? ==> exists i :: 0 <= i < |ps| && ps[i] == r.value && r.value.contracts > 0.0
                                    && forall j :: 0 <= j < i ==> ps[j].contracts <= 0.0
  {
    if ps == [] then None
    else if ps[0].contracts > 0.0 then Some(ps[0])
    else
      var rest := FirstOpen(ps[1..]);
      assert forall p :: p in ps[1..] ==> p in ps;
      assert rest.Some? ==> (exists i :: 1 <= i < |ps| && ps[i] == rest.value && rest.value.contracts > 0.0
                                         && forall j :: 0 <= j < i ==> ps[j].contracts <= 0.0);
      rest
  }

  /** `get_position(exchange, symbol)`. `fetched` is false when the position fetch fails, where
      the source lets the exception escape. */
  method GetPosition(ex: Gateway, symbol: string) returns (fetched: bool, r: Option<Position>)
    modifies ex
    ensures ex.trace == old(ex.trace) + [PositionsQuery({symbol})]
    ensures fetched == ex.oracle.positions(|old(ex.trace)|).Some?
    ensures fetched ==> r == FirstOpen(ex.oracle.positions(|old(ex.trace)|).value)
  {
    var positions := ex.FetchPositions({symbol});
    r := None;
    fetched := positions.Some?;
    if !fetched {
      return;
    }
    var ps := positions.value;
    var i := 0;
    while i < |ps|
      invariant 0 <= i <= |ps|
      invariant FirstOpen(ps[i..]) == FirstOpen(ps)
    {
      if ps[i].contracts > 0.0 {
        assert ps[i..][0] == ps[i];
        return true, Some(ps[i]);
      }
      assert ps[i..][1..] == ps[i + 1..];
      i := i + 1;
    }
    assert ps[i..] == [];
  }

  /** `all_symbols`: the market symbols that contain ':USDT'. */
  function UsdtSymbols(markets: map<string, MarketPrecision>): (r: set<string>)
    ensures forall s :: s in r <==> s in markets && Contains(s, SettleMarker)
  {
    set s | s in markets && Contains(s, SettleMarker)
  }

  /** Every request for one position of the loop of main.py:522-526, started as request n, given
      the requests `trailing` of its trailing-stop logic: those first, then the re-entry check. */
  function PositionCalls(o: Oracle, n: nat, f: FloatOps, markets: map<string, MarketPrecision>, pos: Position,
                         trailing: seq<Call>): seq<Call>
  {
    trailing + OpenReentryCalls(o, n + |trailing|, f, markets, pos)
  }

  /** The trailing requests followed by the re-entry requests are PositionCalls. */
  lemma PositionCallsAppended(o: Oracle, f: FloatOps, markets: map<string, MarketPrecision>, pos: Position,
                              trailing: seq<Call>, trace0: seq<Call>, trace1: seq<Call>, trace2: seq<Call>)
    requires trace1 == trace0 + trailing
    requires trace2 == trace1 + OpenReentryCalls(o, |trace1|, f, markets, pos)
    ensures trace2 == trace0 + PositionCalls(o, |trace0|, f, markets, pos, trailing)
  {
    var r := OpenReentryCalls(o, |trace1|, f, markets, pos);
    assert trace0 + trailing + r == trace0 + (trailing + r);
  }

  /** The requests of the re-entry check of main.py:525-526, started as request n: none for a
      position without contracts. */
  function OpenReentryCalls(o: Oracle, n: nat, f: FloatOps, markets: map<string, MarketPrecision>,
                            pos: Position): seq<Call>
  {
    if pos.contracts > 0.0 then MonitorCalls(o, n, f, markets, pos.symbol, pos) else []
  }

  /** The re-entry check of this position runs and raises, which ends the cycle. */
  predicate RaisesAt(markets: map<string, MarketPrecision>, pos: Position) {
    pos.contracts > 0.0 && Raises(Screen(markets, pos.symbol, pos))
  }

  /** How far the loop over the positions gets: its requests, the trailing files after it, and
      the symbol whose re-entry check raised, if one did. */
  datatype Progress = Progress(calls: seq<Call>, files: map<Key, TrailingRecord>, raised: Option<string>)

  /** What the handling of one position does: its requests, the trailing files after it, and
      whether its re-entry check raised. */
  datatype Step = Step(calls: seq<Call>, files: map<Key, TrailingRecord>, raises: bool)

  /** The handling of position `p` started as request k on the files `fs`: its trailing-stop
      logic, then its re-entry check. `WalkPositions(CycleStep(o, f, markets), n, files, ps)` is
      the loop `for pos in positionst` of main.py:522-526 started as request n: each position in
      snapshot order, each one's trailing logic seeing the files the previous ones left, stopping
      after the first position whose re-entry check raises. */
  function CycleStep(o: Oracle, f: FloatOps, markets: map<string, MarketPrecision>)
    : (nat, map<Key, TrailingRecord>, Position) -> Step
  {
    (k: nat, fs: map<Key, TrailingRecord>, p: Position) =>
      Step(PositionCalls(o, k, f, markets, p, TrailingCalls(o, k, p, Effective(Stored(fs, p.symbol, p.side)))),
           TrailingFiles(o, k, fs, p, CycleBreath), RaisesAt(markets, p))
  }

  /** A loop over positions in order, each step seeing the files the previous ones left, that
      stops after the first step that raises. */
  function WalkPositions(step: (nat, map<Key, TrailingRecord>, Position) -> Step, n: nat,
                         files: map<Key, TrailingRecord>, ps: seq<Position>): Progress
    decreases |ps|
  {
    if ps == [] then Progress([], files, None)
    else
      var st := step(n, files, ps[0]);
      if st.raises then Progress(st.calls, st.files, Some(ps[0].symbol))
      else
        var rest := WalkPositions(step, n + |st.calls|, st.files, ps[1..]);
        Progress(st.calls + rest.calls, rest.files, rest.raised)
  }

  /** A walk whose steps raise according to the position alone ends early exactly when some
      position raises, and then at the first one. */
  lemma {:induction false} WalkStopsAtFirstRaising(step: (nat, map<Key, TrailingRecord>, Position) -> Step,
                                                   raises: Position -> bool, n: nat,
                                                   files: map<Key, TrailingRecord>, ps: seq<Position>)
    requires forall k, fs, p :: step(k, fs, p).raises == raises(p)
    ensures var w := WalkPositions(step, n, files, ps);
            && (w.raised.None? <==> forall i :: 0 <= i < |ps| ==> !raises(ps[i]))
            && (w.raised.Some? ==>
                  exists i :: 0 <= i < |ps| && raises(ps[i]) && ps[i].symbol == w.raised.value
                              && forall j :: 0 <= j < i ==> !raises(ps[j]))
    decreases |ps|
  {
    if ps != [] {
      var st := step(n, files, ps[0]);
      assert st.raises == raises(ps[0]);
      if st.raises {
        assert WalkPositions(step, n, files, ps).raised == Some(ps[0].symbol);
      } else {
        var tail := ps[1..];
        WalkStopsAtFirstRaising(step, raises, n + |st.calls|, st.files, tail);
        var w := WalkPositions(step, n + |st.calls|, st.files, tail);
        assert WalkPositions(step, n, files, ps).raised == w.raised;
        assert forall i :: 0 < i < |ps| ==> ps[i] == tail[i - 1];
        if w.raised.Some? {
          var i :| 0 <= i < |tail| && raises(tail[i]) && tail[i].symbol == w.raised.value
                   && forall j :: 0 <= j < i ==> !raises(tail[j]);
          assert ps[i + 1] == tail[i];
          forall j | 0 < j < i + 1
            ensures !raises(ps[j])
          {
            assert ps[j] == tail[j - 1];
          }
        }
      }
    }
  }

  /** The loop ends early exactly when some position's re-entry check raises, and then at the
      first one. */
  lemma WalkStopsAtFirstRaise(o: Oracle, n: nat, files: map<Key, TrailingRecord>, f: FloatOps,
                              markets: map<string, MarketPrecision>, ps: seq<Position>)
    ensures var w := WalkPositions(CycleStep(o, f, markets), n, files, ps);
            && (w.raised.None? <==> forall i :: 0 <= i < |ps| ==> !RaisesAt(markets, ps[i]))
            && (w.raised.Some? ==>
                  exists i :: 0 <= i < |ps| && RaisesAt(markets, ps[i]) && ps[i].symbol == w.raised.value
                              && forall j :: 0 <= j < i ==> !RaisesAt(markets, ps[j]))
  {
    var raises := (p: Position) => RaisesAt(markets, p);
    forall k: nat, fs: map<Key, TrailingRecord>, p: Position
      ensures CycleStep(o, f, markets)(k, fs, p).raises == raises(p)
    {
    }
    WalkStopsAtFirstRaising(CycleStep(o, f, markets), raises, n, files, ps);
  }

  /** Positions without contracts neither send a request nor change a trailing file: the
      trailing logic skips them and the re-entry check is not reached. */
  lemma {:induction false} ClosedPositionsAreQuiet(o: Oracle, n: nat, files: map<Key, TrailingRecord>, f: FloatOps,
                                                   markets: map<string, MarketPrecision>, ps: seq<Position>)
    requires forall i :: 0 <= i < |ps| ==> ps[i].contracts <= 0.0
    ensures WalkPositions(CycleStep(o, f, markets), n, files, ps) == Progress([], files, None)
    decreases |ps|
  {
    if ps != [] {
      assert Decide(ps[0], Effective(Stored(files, ps[0].symbol, ps[0].side))) == Skip;
      assert CycleStep(o, f, markets)(n, files, ps[0]) == Step([], files, false);
      ClosedPositionsAreQuiet(o, n, files, f, markets, ps[1..]);
    }
  }

  /** `trailing_stop_logic(exchange, pos, 0.10, 0.10)` as the loop calls it, its outcome
      stated by TrailingCalls and TrailingFiles. */
  method TrailPosition(store: Store, ex: Gateway, pos: Position) returns (action: Action)
    modifies store, ex
    ensures action == Decide(pos, Effective(Stored(old(store.files), pos.symbol, pos.side)))
    ensures ex.trace == old(ex.trace)
                        + TrailingCalls(ex.oracle, |old(ex.trace)|, pos, Effective(Stored(old(store.files), pos.symbol, pos.side)))
    ensures store.files == TrailingFiles(ex.oracle, |old(ex.trace)|, old(store.files), pos, CycleBreath)
  {
    ghost var trace0 := ex.trace;
    ghost var files0 := store.files;
    action := TrailingStopLogic(store, ex, pos, CycleBreath, CycleBreath);
    TrailingOutcome(ex.oracle, trace0, ex.trace, files0, store.files, pos, CycleBreath, action);
  }

  /** `if pos.get('contracts', 0) > 0: monitor_position_and_reenter(exchange, symbol, pos)`. */
  method ReenterIfOpen(ex: Gateway, f: FloatOps, markets: map<string, MarketPrecision>, pos: Position)
    returns (raised: bool)
    modifies ex
    ensures ex.trace == old(ex.trace) + OpenReentryCalls(ex.oracle, |old(ex.trace)|, f, markets, pos)
    ensures raised == RaisesAt(markets, pos)
  {
    raised := false;
    if pos.contracts > 0.0 {
      raised := MonitorPositionAndReenter(ex, f, markets, pos.symbol, pos);
    }
  }

  /** The body of `for pos in positionst` (main.py:522-526): the trailing-stop logic, then the
      re-entry check for a position with contracts > 0. `raised` says whether the check raised. */
  method HandlePosition(store: Store, ex: Gateway, f: FloatOps, markets: map<string, MarketPrecision>,
                        pos: Position)
    returns (action: Action, raised: bool)
    modifies store, ex
    ensures action == Decide(pos, Effective(Stored(old(store.files), pos.symbol, pos.side)))
    ensures ex.trace == old(ex.trace)
                        + PositionCalls(ex.oracle, |old(ex.trace)|, f, markets, pos,
                                        TrailingCalls(ex.oracle, |old(ex.trace)|, pos, Effective(Stored(old(store.files), pos.symbol, pos.side))))
    ensures store.files == TrailingFiles(ex.oracle, |old(ex.trace)|, old(store.files), pos, CycleBreath)
    ensures raised == RaisesAt(markets, pos)
  {
    ghost var trace0, files0 := ex.trace, store.files;
    action := TrailPosition(store, ex, pos);
    ghost var trace1 := ex.trace;
    raised := ReenterIfOpen(ex, f, markets, pos);
    PositionCallsAppended(ex.oracle, f, markets, pos,
                          TrailingCalls(ex.oracle, |trace0|, pos, Effective(Stored(files0, pos.symbol, pos.side))),
                          trace0, trace1, ex.trace);
  }

  /** `step` does what CycleStep does, at every request index, on all files and positions. */
  ghost predicate ActsAsCycleStep(step: (nat, map<Key, TrailingRecord>, Position) -> Step, o: Oracle, f: FloatOps,
                                  markets: map<string, MarketPrecision>)
  {
    forall k: nat, fs: map<Key, TrailingRecord>, p: Position {:trigger CycleStep(o, f, markets)(k, fs, p)} ::
      step(k, fs, p) == CycleStep(o, f, markets)(k, fs, p)
  }

  /** HandlePosition, stated as one step of the loop. */
  method StepPosition(store: Store, ex: Gateway, f: FloatOps, markets: map<string, MarketPrecision>,
                      ghost step: (nat, map<Key, TrailingRecord>, Position) -> Step, pos: Position)
    returns (raised: bool)
    requires ActsAsCycleStep(step, ex.oracle, f, markets)
    modifies store, ex
    ensures var st := step(|old(ex.trace)|, old(store.files), pos);
            ex.trace == old(ex.trace) + st.calls && store.files == st.files && raised == st.raises
  {
    ghost var n := |ex.trace|;
    ghost var files := store.files;
    var _, r := HandlePosition(store, ex, f, markets, pos);
    raised := r;
    assert step(n, files, pos) == CycleStep(ex.oracle, f, markets)(n, files, pos);
  }

  /** A walk over positions extended by one more position, when the walk so far did not stop. */
  lemma {:induction false} WalkPositionsSnoc(step: (nat, map<Key, TrailingRecord>, Position) -> Step, n: nat,
                                             files: map<Key, TrailingRecord>, ps: seq<Position>, p: Position)
    requires WalkPositions(step, n, files, ps).raised.None?
    ensures var w := WalkPositions(step, n, files, ps);
            var st := step(n + |w.calls|, w.files, p);
            WalkPositions(step, n, files, ps + [p])
            == Progress(w.calls + st.calls, st.files, if st.raises then Some(p.symbol) else None)
    decreases |ps|
  {
    if ps == [] {
      assert [p][1..] == [];
    } else {
      var st0 := step(n, files, ps[0]);
      assert (ps + [p])[0] == ps[0] && (ps + [p])[1..] == ps[1..] + [p];
      WalkPositionsSnoc(step, n + |st0.calls|, st0.files, ps[1..], p);
      var w1 := WalkPositions(step, n + |st0.calls|, st0.files, ps[1..]);
      var st := step(n + |st0.calls| + |w1.calls|, w1.files, p);
      assert st0.calls + (w1.calls + st.calls) == (st0.calls + w1.calls) + st.calls;
    }
  }

  /** Once a prefix of the positions stops the walk, the rest is never reached. */
  lemma {:induction false} WalkPositionsStopped(step: (nat, map<Key, TrailingRecord>, Position) -> Step, n: nat,
                                                files: map<Key, TrailingRecord>, ps: seq<Position>, j: nat)
    requires j <= |ps| && WalkPositions(step, n, files, ps[..j]).raised.Some?
    ensures WalkPositions(step, n, files, ps) == WalkPositions(step, n, files, ps[..j])
    decreases j
  {
    var st0 := step(n, files, ps[0]);
    assert ps[..j][0] == ps[0];
    if !st0.raises {
      assert ps[..j][1..] == ps[1..][..j - 1];
      WalkPositionsStopped(step, n + |st0.calls|, st0.files, ps[1..], j - 1);
    }
  }

  /** The loop `for pos in positionst` of main.py:522-526. Returns the symbol whose re-entry
      check raised, if one did. */
  method HandlePositions(store: Store, ex: Gateway, f: FloatOps, markets: map<string, MarketPrecision>,
                         ghost step: (nat, map<Key, TrailingRecord>, Position) -> Step, ps: seq<Position>)
    returns (raisedAt: Option<string>)
    requires ActsAsCycleStep(step, ex.oracle, f, markets)
    modifies store, ex
    ensures var w := WalkPositions(step, |old(ex.trace)|, old(store.files), ps);
            ex.trace == old(ex.trace) + w.calls && store.files == w.files && raisedAt == w.raised
  {
    ghost var start := ex.trace;
    ghost var files0 := store.files;
    for i := 0 to |ps|
      invariant WalkPositions(step, |start|, files0, ps[..i]).raised.None?
      invariant ex.trace == start + WalkPositions(step, |start|, files0, ps[..i]).calls
      invariant store.files == WalkPositions(step, |start|, files0, ps[..i]).files
    {
      ghost var w := WalkPositions(step, |start|, files0, ps[..i]);
      WalkPositionsSnoc(step, |start|, files0, ps[..i], ps[i]);
      assert ps[..i + 1] == ps[..i] + [ps[i]];
      var raised := StepPosition(store, ex, f, markets, step, ps[i]);
      assert start + w.calls + ex.trace[|start| + |w.calls|..] == start + (w.calls + ex.trace[|start| + |w.calls|..]);
      if raised {
        WalkPositionsStopped(step, |start|, files0, ps, i + 1);
        return Some(ps[i].symbol);
      }
    }
    assert ps[..|ps|] == ps;
    return None;
  }

  /** How a cycle ends. */
  datatype CycleOutcome =
    | PositionsUnavailable                    // the position snapshot fetch raised
    | BalanceUnavailable                      // the balance fetch raised
    | MonitorRaised(symbol: string)           // the re-entry check of this symbol raised
    | Completed(sweep: Option<seq<Position>>, swept: seq<string>)
                                              // the sweep ran: its own snapshot, if it got one, and
                                              // the symbols it handed to orphan cancellation

  /** What `cleanup_closed_trailing_files` does when it starts as request |mid| on `files`,
      ending with `trace` and `after` (the contract of CleanupClosedTrailingFiles). */
  ghost predicate SweepOutcome(o: Oracle, mid: seq<Call>, files: map<Key, TrailingRecord>, symbols: set<string>,
                         outcome: CycleOutcome, trace: seq<Call>, after: map<Key, TrailingRecord>)
  {
    && outcome.Completed?
    && outcome.sweep == o.positions(|mid|)
    && (outcome.sweep.None? ==>
          after == files && outcome.swept == [] && trace == mid + [PositionsQuery(symbols)])
    && (outcome.sweep.Some? ==>
          var active := ActiveKeys(outcome.sweep.value);
          && after == KeepActive(files, active)
          && (forall s :: s in outcome.swept <==> s in StaleSymbols(files, active))
          && trace == mid + [PositionsQuery(symbols)]
                      + (if outcome.swept == [] then [] else OrphanCalls(o, |mid| + 1, outcome.swept, LimitType)))
  }

  /** The part of `main_job()` after the balance fetch: the loop over the positions of the
      snapshot `ps`, then, unless a re-entry check raised, the sweep. */
  method ProcessSnapshot(store: Store, ex: Gateway, f: FloatOps, markets: map<string, MarketPrecision>,
                         ghost step: (nat, map<Key, TrailingRecord>, Position) -> Step,
                         symbols: set<string>, ps: seq<Position>, ghost trace0: seq<Call>,
                         ghost files0: map<Key, TrailingRecord>)
    returns (outcome: CycleOutcome)
    requires ActsAsCycleStep(step, ex.oracle, f, markets)
    requires ex.trace == trace0 + [PositionsQuery(symbols), BalanceQuery] && store.files == files0
    modifies store, ex
    ensures var w := WalkPositions(step, |trace0| + 2, files0, ps);
            var mid := trace0 + [PositionsQuery(symbols), BalanceQuery] + w.calls;
            && (outcome.MonitorRaised? <==> w.raised.Some?)
            && (w.raised.Some? ==>
                  outcome == MonitorRaised(w.raised.value) && ex.trace == mid && store.files == w.files)
            && (w.raised.None? ==> SweepOutcome(ex.oracle, mid, w.files, symbols, outcome, ex.trace, store.files))
    ensures trace0 + [PositionsQuery(symbols), BalanceQuery] <= ex.trace
    ensures outcome.Completed? && outcome.sweep.Some? ==>
              forall k :: k in store.files ==> k in ActiveKeys(outcome.sweep.value)
  {
    var raisedAt := HandlePositions(store, ex, f, markets, step, ps);
    if raisedAt.Some? {
      return MonitorRaised(raisedAt.value);
    }
    var sweep, swept := CleanupClosedTrailingFiles(store, ex, symbols);
    outcome := Completed(sweep, swept);
  }

  /** A trace that extends `trace0 + [first, second]` extends `trace0`, and `first` follows it. */
  lemma ExtendsPast(trace0: seq<Call>, first: Call, second: Call, trace: seq<Call>)
    requires trace0 + [first, second] <= trace
    ensures trace0 <= trace && |trace| > |trace0| && trace[|trace0|] == first
  {
    assert trace[|trace0|] == (trace0 + [first, second])[|trace0|];
  }

  /** `main_job()` with the markets `load_markets` returned: the position snapshot, the balance,
      the loop over the positions in snapshot order, then the sweep. An exception anywhere ends
      the cycle. */
  method RunCycle(store: Store, ex: Gateway, f: FloatOps, markets: map<string, MarketPrecision>)
    returns (outcome: CycleOutcome)
    modifies store, ex
    ensures old(ex.trace) <= ex.trace
    ensures |ex.trace| > |old(ex.trace)| && ex.trace[|old(ex.trace)|] == PositionsQuery(UsdtSymbols(markets))
    ensures outcome == PositionsUnavailable <==> ex.oracle.positions(|old(ex.trace)|).None?
    ensures outcome == BalanceUnavailable <==>
              ex.oracle.positions(|old(ex.trace)|).Some? && !ex.oracle.reply(|old(ex.trace)| + 1).Ok?
    ensures outcome == PositionsUnavailable ==>
              ex.trace == old(ex.trace) + [PositionsQuery(UsdtSymbols(markets))]
              && store.files == old(store.files)
    ensures outcome == BalanceUnavailable ==>
              ex.trace == old(ex.trace) + [PositionsQuery(UsdtSymbols(markets)), BalanceQuery]
              && store.files == old(store.files)
    ensures ex.oracle.positions(|old(ex.trace)|).Some? && ex.oracle.reply(|old(ex.trace)| + 1).Ok? ==>
              var w := WalkPositions(CycleStep(ex.oracle, f, markets), |old(ex.trace)| + 2, old(store.files),
                                     ex.oracle.positions(|old(ex.trace)|).value);
              var mid := old(ex.trace) + [PositionsQuery(UsdtSymbols(markets)), BalanceQuery] + w.calls;
              && (outcome.MonitorRaised? <==> w.raised.Some?)
              && (w.raised.Some? ==>
                    outcome == MonitorRaised(w.raised.value) && ex.trace == mid && store.files == w.files)
              && (w.raised.None? ==>
                    SweepOutcome(ex.oracle, mid, w.files, UsdtSymbols(markets), outcome, ex.trace, store.files))
    ensures outcome.Completed? && outcome.sweep.Some? ==>
              forall k :: k in store.files ==> k in ActiveKeys(outcome.sweep.value)
  {
    var symbols := UsdtSymbols(markets);
    var positions := ex.FetchPositions(symbols);
    if positions.None? {
      return PositionsUnavailable;
    }
    var balance := ex.FetchBalance();
    if !balance.Ok? {
      return BalanceUnavailable;
    }
    outcome := ProcessSnapshot(store, ex, f, markets, CycleStep(ex.oracle, f, markets), symbols, positions.value,
                               old(ex.trace), old(store.files));
    ExtendsPast(old(ex.trace), PositionsQuery(symbols), BalanceQuery, ex.trace);
  }
}
