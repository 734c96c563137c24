# Phemex trailing-stop and re-entry risk manager: a Dafny model

`main.py` is a polling risk manager for leveraged USDT-settled futures on Phemex. It is driven through the ccxt library. Every cycle (`main_job`) does the following:

- It loads the markets, fetches all positions and the balance.
- For each position, it runs the **trailing-stop ratchet** (`trailing_stop_logic`). For a position with contracts, it then runs the **re-entry check** (`monitor_position_and_reenter` / `reEnterTrade`).
- At the end, it runs the **stale-state sweep** (`cleanup_closed_trailing_files`). The sweep deletes the trailing files of closed positions and hands their symbols to the **orphan-order reconciler** (`cancel_orphan_orders`).

The ratchet keeps one JSON file per (side folder, symbol) under `trailProfit/{buy,sell}/`. Each file holds a threshold, a profit-target distance and the id of the protective stop order.

This project models that core as written, in Dafny:

- **The exchange** is the class `Exchange.Gateway`. Its `trace` records every request in order. The answer to the n-th request is read from an `Oracle` at index n. Each answer is `Ok(id)`, the position-mode error, the pilot-contract error or any other error, the way the source's handlers classify exception messages. A failed fetch is `None`.
- **The trailing files** are the class `TrailingStore.Store`. Its map is keyed by (subfolder, filename).
- **Floating-point primitives** are passed in as a `FloatOps` value. These are `log10` followed by `round` or `floor`, and `round(x, n)`.
- **Step-by-step procedures** are methods with loops and `modifies` clauses:
  - the ratchet;
  - the delete over both folders;
  - the build of the positions map;
  - the nested walks of the reconciler;
  - the folder sweep;
  - the re-entry attempt;
  - the loop over the positions and the cycle around it.

  Each method's postcondition equates the new trace and the new store with a specification function of the old state and the oracle (`Decide`, `Ratchet`, `TrailingCalls`, `TrailingFiles`, `OrphanCalls`, `KeepActive`, `ReentryCalls`, `MonitorCalls`, `WalkPositions`, ...). The lemmas are proved about those functions.
- **The loop over the positions** is `Cycle.WalkPositions(Cycle.CycleStep(...))`. For each position in snapshot order it gives the requests of the trailing-stop logic (`TrailingCalls`), then those of the re-entry check (`MonitorCalls`, only for contracts > 0). Each position's trailing logic sees the files the previous positions left (`TrailingFiles`). The walk stops after the first position whose re-entry check raises. `Cycle.RunCycle` states its whole trace as the two fetches, this walk, then the sweep.

Behaviour of `main.py` that the model keeps as written:

- `delete_trailing_data` removes the symbol's file from both the `buy` and the `sell` folder, whatever the side of the position.
- A failed cancel does not stop a tighten. Once the new stop is created, the stored order id is overwritten, whether or not the old stop was cancelled. On a flatten the record is deleted either way.
- `breath_stop` is never used. Both `threshold` and `profit_target_distance` grow by `breath_threshold`.
- In `positions_map`, the last position seen for a symbol wins.
- The retry cancel of the reconciler has no `try` of its own. When it fails, the rest of that symbol's orders are abandoned.
- The call at main.py:215 passes the entry price as `_liqprice` and the liquidation price as `_entryprice`. The re-entry price is therefore `liq + (entry - liq) * 0.2`: 20 % of the way from liquidation back towards entry, which is 80 % of the way from entry towards liquidation (`Reentry.ReentryPriceBetween`).
- For a side other than long or short, the dedup side ('sell') and the order side ('buy') disagree.
- The 80 % closeness value is informational. It never gates the order.
- A cycle ends early when the snapshot or the balance fetch fails. Two more things raise out of `monitor_position_and_reenter` and end the whole cycle before the sweep: a market tick or step size of 0 or less (the `log10` domain error) and a position whose entry equals its liquidation price (the `closeness` division). The model has both (`Reentry.Screen`, `Cycle.RunCycle`).
- Orphan cancellation runs only from the sweep, on the symbols whose files were deleted. The per-cycle call at main.py:528-529 is commented out.

## Model

| member | source | states |
|---|---|---|
| Exchange.HedgeFor | main.py:142 | the `posSide` of a retry is 'Long' exactly for a buy order and 'Short' otherwise |
| Exchange.CancelCalls | main.py:138-147 | a cancel is sent without `posSide`; a second cancel with `posSide` follows exactly when the first failed with the position-mode error; every call is a cancel of the same id and symbol |
| Exchange.Gateway.FetchPositions | main.py:106 | the request is appended to the trace and answered by the oracle at its index |
| Exchange.Gateway.FetchOpenOrders | main.py:121 | the request is appended to the trace and answered by the oracle at its index (also the fetch at main.py:199) |
| Exchange.Gateway.FetchBalance | main.py:42 | the request is appended to the trace and answered by the oracle at its index |
| Exchange.Gateway.CancelOrder | main.py:139-158 | each `cancel_order` request is appended to the trace, with or without `posSide`, and answered by the oracle at its index |
| Exchange.Gateway.CreateStopOrder | main.py:384-401 | the request is appended to the trace and answered by the oracle at its index |
| Exchange.Gateway.CreateEntryOrder | main.py:52-61 | the request is appended to the trace and answered by the oracle at its index |
| Exchange.Gateway.CancelWithRetry | main.py:138-147 | the trace grows by exactly CancelCalls, and it reports whether the retry was sent and failed |
| Naming.ReplaceChar | main.py:241 | `str.replace` of one character: same length, every occurrence replaced, everything else kept |
| Naming.SafeFilename | main.py:240-241 | the result has the symbol's length, contains no '/' and no ':', and maps both to '_' position by position |
| Naming.RemoveAll | main.py:441 | removing every occurrence of a non-empty pattern never lengthens the string |
| Naming.RemoveAllNoMatch | main.py:441 | a string that does not contain the pattern is left unchanged |
| Naming.SplitOn | main.py:441 | `split` yields one more part than there are separators, and no part contains the separator |
| Naming.SplitJoin | main.py:441 | joining the parts of a split with the separator gives back the string |
| Naming.FilenameToSymbol | main.py:439-446 | None exactly when the name without ".json" has fewer than two '_', that is fewer than three parts; a result has no '_' and ends in ":USDT" |
| Naming.FilenameRoundTrip | main.py:439-446 | for a symbol `B/Q:USDT` whose parts contain no '_', '/', ':' or ".json", parsing the file name of the symbol gives the symbol back |
| PrecisionMath.CountSigDigits | main.py:18-23 | never negative, and exactly 1 for a precision of 1 or more |
| PrecisionMath.RoundToSigFigs | main.py:25-28 | zero rounds to zero |
| PrecisionMath.TargetPrice | main.py:32 | a fraction 0 gives the second price, a fraction 1 the first, and equal prices give that price |
| PrecisionMath.CalculateLiquidationTargPrice | main.py:31-32 | with a fraction of 0 or 1 the result is the second or the first price, rounded |
| PrecisionMath.TargetBetween | main.py:31-32 | for a fraction in [0, 1] the target lies between the two prices, strictly when the fraction is in (0, 1) and the prices differ |
| PrecisionMath.TargetFromOtherEnd | main.py:31-32 | going a fraction p from one price towards the other is going 1 - p from the other end |
| TrailingStore.SubfolderFor | main.py:245 | the 'buy' folder exactly for a long position, 'sell' for every other side |
| TrailingStore.KeyFor | main.py:244-246 | the file is the symbol's safe name plus ".json", in the 'buy' folder exactly for a long position |
| TrailingStore.Store.Load | main.py:243-250 | the record of the side's subfolder exactly when that file exists |
| TrailingStore.Store.Save | main.py:253-259 | only the side's file changes, and it now holds the record stamped with its subfolder |
| TrailingStore.Store.Delete | main.py:262-273 | the symbol's file is removed from both subfolders and nothing else changes; it reports whether either existed |
| TrailingStop.Effective | main.py:303-306 | a stored record is used as it is; without one the threshold is 0.10, the target distance 0.06 and no order id is tracked |
| TrailingStop.LeverageOf | main.py:296 | a missing or zero leverage reads as 1, so the leverage is never 0 |
| TrailingStop.CombinedPnl | main.py:316-318 | at the entry price it is the realized PnL; a price move in the position's favour with contracts > 0 raises it above the realized PnL |
| TrailingStop.Decide | main.py:299-357 | Skip iff the position is ineligible (main.py:299: no entry or mark price, side not long or short, or no contracts); Flatten iff eligible with combined PnL at most 0.001; Hold iff above that and below the threshold; otherwise the stop is `entry * (1 +/- ptd / leverage)`, Tighten only when it lies strictly beyond entry on the profit side |
| TrailingStop.Ratchet | main.py:431-437 | the saved record has the new order id and both threshold and profit-target distance exactly one breath higher |
| TrailingStop.RatchetSeriesWidens | main.py:431-437 | over successive tightens both fields grow by exactly one breath each, never decrease for a non-negative breath, and the last order id is kept |
| TrailingStop.StopLocksProfitForPositiveInputs | main.py:353-357 | with positive entry, leverage and target distance the new stop price always lies beyond entry on the profit side |
| TrailingStop.TightenExample | main.py:351-357 | entry 100, leverage 10, mark 101.1, long, default state: stop 100.6, saved threshold 0.20 and distance 0.16 |
| TrailingStop.StopCancelCalls | main.py:329-345 | a cancel is attempted iff an order id is stored; only cancels; exactly one plain cancel unless the position-mode error triggers the retry |
| TrailingStop.StopCreateCalls | main.py:381-429 | the hedge-mode create always, the one-way create iff it failed, both for the closing side, the contracts and the stop price |
| TrailingStop.PlacedStop | main.py:381-429 | a stop is placed iff one of the two creates succeeded, and it is the hedge-mode one when that succeeded |
| TrailingStop.PlaceStop | main.py:381-429 | the trace grows by exactly StopCreateCalls, and the result is PlacedStop |
| TrailingStop.TrailingCalls | main.py:328-429 | every request of one call is a cancel or a stop order of the position's own symbol |
| TrailingStop.TrailingFiles | main.py:328-437 | the files of every other symbol are untouched: the same names exist, with the same records |
| TrailingStop.TrailingOutcome | main.py:328-437 | the per-action outcome of TrailingStopLogic is exactly TrailingCalls for the trace and TrailingFiles for the store |
| TrailingStop.TrailingStopLogic | main.py:291-437 | the action is Decide of the stored or default state; Skip, Hold and Reject change neither the trace nor the store; Flatten cancels the stored stop and deletes both files; Tighten cancels, creates and, when a create succeeded, saves the Ratchet |
| Orphans.ContractsOrSize | main.py:109 | the position counts as open iff its contracts are positive, or its contracts are 0 or missing and its size is positive |
| Orphans.LastPositionWins | main.py:107-114 | a symbol is in the positions map iff some position carries it, and its entry is that of the last such position |
| Orphans.PositionsMapKeys | main.py:107-114 | a symbol is in the positions map iff some position carries it |
| Orphans.PositionsMapLast | main.py:107-114 | the entry of a symbol is that of the last position carrying it |
| Orphans.BuildPositionsMap | main.py:107-114 | the loop builds exactly PositionsMap of the snapshot |
| Orphans.ClassificationRules | main.py:130-150 | the classification ShouldCancel: other order types are never cancelled; with no position every order of the type is; with a position a buy is cancelled iff the side is not long and a sell iff it is not short |
| Orphans.SymbolCalls | main.py:120-123 | the symbol's open orders are fetched first; a failed fetch ends that symbol's calls |
| Orphans.OrphanCalls | main.py:103-117 | the position fetch comes first; a failed fetch ends the reconciler |
| Orphans.WalkCancelsOnlyFlagged | main.py:129-160 | walking a symbol's orders (OrderWalk) only cancels orders of that symbol that the classification flags |
| Orphans.RetryingCancelsCover | main.py:138-147 | under the retry pattern every order gets its plain cancel |
| Orphans.RetryingCancelsOnlyOrders | main.py:138-147 | under the retry pattern every call is a cancel, for the symbol, of one of the orders |
| Orphans.WalkIsRetryingCancels | main.py:129-160 | without a failed retry the walk is the retry pattern over the flagged orders, in order |
| Orphans.WalkCancelsAllFlagged | main.py:129-160 | when no retry fails, the walk is exactly the concatenation of CancelCalls over the flagged orders, in order, and each flagged order gets its plain cancel |
| Orphans.RetryingCancelsPlain | main.py:138-147 | without position-mode errors the retry pattern is one plain cancel per order |
| Orphans.ReconcilerExamples | main.py:129-160 | on a one-way account, two limit orders with no position are both cancelled; under a short position only the buy order is |
| Orphans.HedgeModeExample | main.py:129-160 | on a hedge-mode account each of two limit orders is cancelled twice: first plainly, then with 'Long' for the buy and 'Short' for the sell |
| Orphans.AbandonedAfterFailedRetry | main.py:138-147 | after a failed retry cancel the symbol's remaining flagged orders are not cancelled |
| Orphans.SymbolsWalkOnlyCancels | main.py:119-163 | the per-symbol calls are order fetches and cancels of the listed symbols only |
| Orphans.OrphanCallsOnlyCancel | main.py:101-166 | a failed position fetch issues no cancel; no order is ever created; cancels only touch the listed symbols |
| Orphans.CancelSymbolOrphans | main.py:120-163 | the trace grows by exactly SymbolCalls |
| Orphans.CancelEachSymbol | main.py:119-163 | the trace grows by exactly the walk over the symbols, in order |
| Orphans.CancelOrphanOrders | main.py:101-166 | the trace grows by exactly OrphanCalls |
| Cleanup.ActiveKeysSound | main.py:456-460 | every active file belongs to a position with contracts: a 'buy' file to a long one, a 'sell' file to a short one |
| Cleanup.OpenPositionKeepsFile | main.py:456-460 | the file of an open long or short position survives the sweep |
| Cleanup.StaleSymbolsAreContracts | main.py:472-474 | every symbol handed on has no '_' and ends in ":USDT" |
| Cleanup.KeepActive | main.py:464-473 | a file survives iff it was stored and is active, with its record unchanged |
| Cleanup.SweepIsIdempotent | main.py:449-484 | a second sweep against the same positions deletes nothing and collects no symbol |
| Cleanup.SetToSeq | main.py:482 | `list(set)`: the same elements, each once |
| Cleanup.SweepFolder | main.py:464-473 | after one folder's pass a file remains iff it is in another folder or active |
| Cleanup.TwoPassesSweepAll | main.py:464-474 | the buy pass then the sell pass keep exactly the active files and collect exactly the stale files' symbols |
| Cleanup.SweepOneFolder | main.py:464-474 | the store becomes SweepFolder and the collected symbols are those parsed from the deleted names |
| Cleanup.CleanupClosedTrailingFiles | main.py:449-484 | a failed fetch changes nothing; otherwise exactly the active files are kept, the symbols handed on are exactly the stale ones, each once, and orphan cancellation of limit orders runs on them only when there is one |
| Reentry.Screen | main.py:171-191 | the check proceeds iff the market is known, both precisions are positive, the three prices are non-zero and entry differs from liquidation; it stops quietly iff the market is unknown; it raises iff the market is known and a precision is not positive or, with all three prices present, entry equals liquidation |
| Reentry.DedupSide | main.py:200 | the dedup side is 'buy' exactly for a long position |
| Reentry.EntrySide | main.py:209 | the order side is 'sell' exactly for a short position |
| Reentry.SameSideLimitBlocksEntry | main.py:200-206 | an open limit order on the dedup side ends the check right after the open-orders fetch |
| Reentry.EntryAmount | main.py:211-213 | a zero notional gives a zero amount |
| Reentry.ReentryCalls | main.py:34-91 | nothing for a symbol without ":USDT"; otherwise the balance query, the plain create once the balance is in, and the `posSide` retry as the last call iff the position-mode error occurred; pilot-contract and other errors end the attempt |
| Reentry.MonitorCalls | main.py:169-217 | no request iff the screening does not pass; otherwise the open-orders fetch comes first, and every request is that fetch, the balance query or an entry order for the symbol |
| Reentry.MonitorPlacesOrderIff | main.py:169-217 | an order is placed iff the screening passes, the open orders were fetched, no same-side limit is open, the symbol is a ":USDT" contract and the balance fetch did not fail with another error; each order is a limit on the entry side at the computed price and amount |
| Reentry.SideMapping | main.py:200-209 | long maps to buy and short to sell on both sides; the dedup and order sides agree iff the side is long or short |
| Reentry.ReentryPriceBetween | main.py:215 | before rounding, the price of EntryPrice is `liq + (entry - liq) * 0.2`, equally `entry + (liq - entry) * 0.8`, strictly between the two |
| Reentry.ReEnterTrade | main.py:34-91 | the trace grows by exactly ReentryCalls |
| Reentry.MonitorPositionAndReenter | main.py:169-229 | the trace grows by exactly MonitorCalls, and it reports whether the check raised |
| Cycle.FirstOpen | main.py:96-99 | None iff no position has contracts; otherwise the first one that does |
| Cycle.GetPosition | main.py:94-99 | one position fetch for the symbol, and the result is FirstOpen of the snapshot |
| Cycle.UsdtSymbols | main.py:516 | exactly the market symbols containing ":USDT" |
| Cycle.WalkStopsAtFirstRaising | main.py:521-526 | a loop over positions whose steps raise by the position alone ends early iff some position raises, and then at the first one |
| Cycle.WalkStopsAtFirstRaise | main.py:521-526 | the loop over the positions ends early iff some position with contracts fails the re-entry screening with a raise, and then at the first one |
| Cycle.ClosedPositionsAreQuiet | main.py:521-526 | positions without contracts send no request and change no file |
| Cycle.TrailPosition | main.py:523 | the action is Decide of the stored or default state; the trace grows by exactly TrailingCalls and the files become TrailingFiles |
| Cycle.ReenterIfOpen | main.py:525-526 | the trace grows by MonitorCalls for a position with contracts and by nothing otherwise; it reports whether the check raised |
| Cycle.HandlePosition | main.py:522-526 | the trace grows by exactly the position's TrailingCalls followed by its re-entry requests (MonitorCalls when contracts > 0); the files become TrailingFiles; it raises iff the position has contracts and its re-entry screening raises |
| Cycle.StepPosition | main.py:522-526 | HandlePosition is one step of WalkPositions: its requests, files and raise |
| Cycle.HandlePositions | main.py:521-526 | the trace grows by exactly WalkPositions over the snapshot, the files become the walk's files, and it reports the symbol at which the walk stopped |
| Cycle.ProcessSnapshot | main.py:521-531 | after the two fetches: the per-position walk; if it stopped, nothing else; otherwise the sweep, with its whole trace and the files after it |
| Cycle.RunCycle | main.py:510-535 | the positions query comes first; a failed position or balance fetch ends the cycle with no other request and the store unchanged; otherwise the trace is the two fetches, then the per-position segments of WalkPositions in snapshot order, then the sweep, which runs iff no re-entry check raised; after a completed sweep only active files remain |

## Left out

- The ccxt library, the network and the exchange's answers are left out. They are the oracle. Classifying an exception by the text of its message is folded into the `Reply` constructors.
- File-system I/O and JSON are left out. The folders are one map. The `os.makedirs` calls and a `FileNotFoundError` on a missing folder cannot happen in the model.
- The floating-point primitives of `count_sig_digits` and `round_to_sig_figs` are left out. They are the `FloatOps` parameter.
- IEEE 754 double arithmetic is left out. Prices, PnL, thresholds and target distances are exact reals. So the comparisons at main.py:328, 351 and 355 can come out differently from the program's. Two examples:
  - After two tightens with a breath of 0.10 the program's threshold is 0.1 + 0.1 + 0.1 = 0.30000000000000004. With entry 100, mark 103, leverage 10 and one long contract the profit distance is 0.3, so the program holds while the model tightens.
  - With entry 100 and mark 100.001 on one contract, the program's PnL is 0.0010000000000047748 and does not flatten, while the model's PnL is exactly 0.001 and flattens.
- PrecisionMath.CountSigDigits, PrecisionMath.RoundToSigFigs: only the precision-of-1-or-more case and the zero case are stated. The rest depends on the opaque primitives.
- The `closeness` value and its prints are left out. It never gates anything. Only the division by zero it raises is modelled, as `DegenerateRange`.
- The split between ccxt's `ExchangeError` (caught by `monitor_position_and_reenter`) and `NetworkError` (not caught) is left out. A failed open-orders fetch there is treated as caught.
- A `None` side or precision, and other raw-dict type errors, are left out. Sides arrive already lower-cased as `PosSide` and `OrderSide`. So the raw order side that main.py:202 compares without `lower()` is modelled as already parsed.
- `load_markets` is left out. The markets map is an input to `Cycle.RunCycle`. A failure of `load_markets` is not modelled.
- The balance that `reEnterTrade` and `main_job` read, and the estimated cost, are left out. Both are computed and never used.
- `order_price = mark_price` (main.py:210) is left out. It is never used.
- `reset_trailing_data` is left out. It is never called, and its paths do not match the saved layout.
- The threading helpers, the queue, the scheduler loop, `create_exchange`, dotenv credential loading and `time.sleep` are left out. They are process plumbing with no effect on the decisions.
- Cycle.GetPosition: a failed fetch, which raises out of `get_position` in the source, is reported as `fetched == false`.
