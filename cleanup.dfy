/** `cleanup_closed_trailing_files` (main.py:449-484): delete the trailing files of positions
    that are no longer open, then cancel leftover limit orders of exactly those symbols. */
module Cleanup {
  import opened Wrappers
  import opened Domain
  import opened Exchange
  import opened Naming
  import opened TrailingStore
  import opened Orphans

  /** The `active` set of main.py:456-460: the file of every position with contracts > 0 and
      side long or short. */
  function ActiveKeys(ps: seq<Position>): (r: set<Key>)
  {
    set p | p in ps && p.contracts > 0.0 && (p.side.Long? || p.side.Short?) :: KeyFor(p.symbol, p.side)
  }

  /** The files that survive the sweep: exactly the stored ones that are active, unchanged. */
  function KeepActive(files: map<Key, TrailingRecord>, active: set<Key>): (r: map<Key, TrailingRecord>)
    ensures forall k :: k in r <==> k in files && k in active
    ensures forall k :: k in r ==> r[k] == files[k]
  {
    map k | k in files && k in active :: files[k]
  }

  /** The symbols recovered from the names of all stale files. */
  function StaleSymbols(files: map<Key, TrailingRecord>, active: set<Key>): (r: set<string>)
  {
    set k | k in files && k !in active && FilenameToSymbol(k.1).Some? :: FilenameToSymbol(k.1).value
  }

  /** Every active file belongs to a position with contracts: a 'buy' file to a long one and a
      'sell' file to a short one. */
  lemma ActiveKeysSound(ps: seq<Position>, k: Key)
    requires k in ActiveKeys(ps)
    ensures exists p :: p in ps && p.contracts > 0.0 && k.1 == FileNameFor(p.symbol)
                        && (k.0 == BuyFolder ==> p.side == Long) && (k.0 == SellFolder ==> p.side == Short)
  {
    var p :| p in ps && p.contracts > 0.0 && (p.side.Long? || p.side.Short?) && k == KeyFor(p.symbol, p.side);
    assert p.side == Long || p.side == Short;
  }

  /** Every symbol handed to orphan cancellation has the form of a ':USDT' contract with no '_'. */
  lemma StaleSymbolsAreContracts(files: map<Key, TrailingRecord>, active: set<Key>, s: string)
    requires s in StaleSymbols(files, active)
    ensures '_' !in s && |s| >= 5 && s[|s| - 5..] == SettleMarker
  {
    var k :| k in files && k !in active && FilenameToSymbol(k.1).Some? && FilenameToSymbol(k.1).value == s;
  }

  /** Every open long or short position keeps its file through the sweep. */
  lemma OpenPositionKeepsFile(ps: seq<Position>, files: map<Key, TrailingRecord>, i: nat)
    requires i < |ps| && ps[i].contracts > 0.0 && (ps[i].side.Long? || ps[i].side.Short?)
    requires KeyFor(ps[i].symbol, ps[i].side) in files
    ensures KeyFor(ps[i].symbol, ps[i].side) in KeepActive(files, ActiveKeys(ps))
  {
    assert ps[i] in ps;
  }

  /** A second sweep against the same positions finds nothing stale: it deletes nothing and
      triggers no orphan cancellation. */
  lemma SweepIsIdempotent(files: map<Key, TrailingRecord>, active: set<Key>)
    ensures KeepActive(KeepActive(files, active), active) == KeepActive(files, active)
    ensures StaleSymbols(KeepActive(files, active), active) == {}
  {
  }

  /** `list(deleted_symbols)`: the set's elements, each once, in some order. */
  method SetToSeq(s: set<string>) returns (r: seq<string>)
    ensures forall x :: x in r <==> x in s
    ensures forall i, j :: 0 <= i < j < |r| ==> r[i] != r[j]
  {
    r := [];
    var rest := s;
    while rest != {}
      invariant forall x :: x in s <==> x in r || x in rest
      invariant forall x :: x in rest ==> x !in r
      invariant forall i, j :: 0 <= i < j < |r| ==> r[i] != r[j]
      decreases rest
    {
      var x :| x in rest;
      r := r + [x];
      rest := rest - {x};
    }
  }

  /** The store after one folder's pass: the folder's stale files are gone, the rest is kept. */
  function SweepFolder(files: map<Key, TrailingRecord>, active: set<Key>, sub: Subfolder): (r: map<Key, TrailingRecord>)
    ensures forall k :: k in r <==> k in files && (k.0 != sub || k in active)
  {
    map k | k in files && (k.0 != sub || k in active) :: files[k]
  }

  /** The names of one folder's stale files. */
  function StaleNames(files: map<Key, TrailingRecord>, active: set<Key>, sub: Subfolder): set<string> {
    set k | k in files && k.0 == sub && k !in active :: k.1
  }

  /** The symbols that a set of file names parse to. */
  function SymbolsOf(names: set<string>): set<string> {
    set f | f in names && FilenameToSymbol(f).Some? :: FilenameToSymbol(f).value
  }

  /** Adding one name adds its symbol, if it parses. */
  lemma SymbolsOfAdd(names: set<string>, f: string)
    ensures SymbolsOf(names + {f})
            == SymbolsOf(names) + (if FilenameToSymbol(f).Some? then {FilenameToSymbol(f).value} else {})
  {
  }

  /** Sweeping the buy folder and then the sell folder keeps exactly the active files, and the
      symbols collected on the way are exactly the stale ones. */
  lemma TwoPassesSweepAll(files: map<Key, TrailingRecord>, active: set<Key>)
    ensures SweepFolder(SweepFolder(files, active, BuyFolder), active, SellFolder) == KeepActive(files, active)
    ensures SymbolsOf(StaleNames(files, active, BuyFolder))
            + SymbolsOf(StaleNames(SweepFolder(files, active, BuyFolder), active, SellFolder))
            == StaleSymbols(files, active)
  {
    var mid := SweepFolder(files, active, BuyFolder);
    assert StaleNames(mid, active, SellFolder) == StaleNames(files, active, SellFolder);
    forall s | s in StaleSymbols(files, active)
      ensures s in SymbolsOf(StaleNames(files, active, BuyFolder)) + SymbolsOf(StaleNames(files, active, SellFolder))
    {
      var k :| k in files && k !in active && FilenameToSymbol(k.1).Some?
               && FilenameToSymbol(k.1).value == s;
      assert k.1 in StaleNames(files, active, k.0);
    }
  }

  /** One iteration of `for side in ["buy", "sell"]` of main.py:464-477: list the folder and
      remove every file whose key is not active, collecting the symbols its name parses to. */
  method SweepOneFolder(store: Store, active: set<Key>, sub: Subfolder) returns (deleted: set<string>)
    modifies store
    ensures store.files == SweepFolder(old(store.files), active, sub)
    ensures deleted == SymbolsOf(StaleNames(old(store.files), active, sub))
  {
    ghost var files0 := store.files;
    var names := set k | k in store.files && k.0 == sub :: k.1;
    ghost var listed := names;
    ghost var removed: set<string> := {};
    deleted := {};
    while names != {}
      invariant names <= listed
      invariant forall f :: f in listed <==> (sub, f) in files0
      invariant forall k :: k in store.files <==>
                  k in files0 && !(k.0 == sub && k.1 !in names && k !in active)
      invariant forall k :: k in store.files ==> store.files[k] == files0[k]
      invariant forall f :: f in removed <==> f in listed && f !in names && (sub, f) !in active
      invariant deleted == SymbolsOf(removed)
      decreases names
    {
      var f :| f in names;
      names := names - {f};
      if (sub, f) !in active {
        store.files := store.files - {(sub, f)};
        SymbolsOfAdd(removed, f);
        removed := removed + {f};
        var symbolName := FilenameToSymbol(f);
        if symbolName.Some? {
          deleted := deleted + {symbolName.value};
        }
      }
    }
    assert removed == StaleNames(files0, active, sub);
  }

  /** `cleanup_closed_trailing_files(exchange, symbols)`. Returns the position snapshot it
      fetched and the symbol list it handed to orphan cancellation. */
  method CleanupClosedTrailingFiles(store: Store, ex: Gateway, symbols: set<string>)
    returns (snapshot: Option<seq<Position>>, swept: seq<string>)
    modifies store, ex
    ensures snapshot == ex.oracle.positions(|old(ex.trace)|)
    ensures snapshot.None? ==>
              store.files == old(store.files) && swept == [] && ex.trace == old(ex.trace) + [PositionsQuery(symbols)]
    ensures snapshot.Some? ==>
              var active := ActiveKeys(snapshot.value);
              && store.files == KeepActive(old(store.files), active)
              && (forall s :: s in swept <==> s in StaleSymbols(old(store.files), active))
              && (forall i, j :: 0 <= i < j < |swept| ==> swept[i] != swept[j])
              && ex.trace == old(ex.trace) + [PositionsQuery(symbols)]
                             + (if swept == [] then [] else OrphanCalls(ex.oracle, |old(ex.trace)| + 1, swept, LimitType))
  {
    snapshot := ex.FetchPositions(symbols);
    swept := [];
    if snapshot.None? {
      return;
    }
    var active := ActiveKeys(snapshot.value);
    ghost var files0 := store.files;
    var fromBuy := SweepOneFolder(store, active, BuyFolder);
    var fromSell := SweepOneFolder(store, active, SellFolder);
    TwoPassesSweepAll(files0, active);
    swept := SetToSeq(fromBuy + fromSell);
    if swept != [] {
      CancelOrphanOrders(ex, swept, LimitType);
    }
  }
}
