/** The per-(subfolder, file) trailing state: `load_trailing_data`, `save_trailing_data` and
    `delete_trailing_data` (main.py:243-273), with the folder tree `trailProfit/{buy,sell}/`
    modelled as one map. */
module TrailingStore {
  import opened Wrappers
  import opened Domain
  import Naming

  /** The two subfolders 'buy' and 'sell'. */
  datatype Subfolder = BuyFolder | SellFolder

  /** One file `trailProfit/<subfolder>/<filename>`. */
  type Key = (Subfolder, string)

  /** The JSON record of one trailing file. `sideTag` and `orderUpdated` are written by the
      tighten path and never read back. */
  datatype TrailingRecord = TrailingRecord(
    threshold: real,
    profitTargetDistance: real,
    orderId: Option<string>,
    sideTag: Option<Subfolder>,
    orderUpdated: bool)

  /** 'buy' for a long position, 'sell' for every other side. */
  function SubfolderFor(side: PosSide): (r: Subfolder)
    ensures r == BuyFolder <==> side == Long
  {
    if side == Long then BuyFolder else SellFolder
  }

  function FileNameFor(symbol: string): string {
    Naming.SafeFilename(symbol) + Naming.JsonSuffix
  }

  function KeyFor(symbol: string, side: PosSide): (k: Key)
    ensures k.1 == FileNameFor(symbol)
    ensures k.0 == BuyFolder <==> side == Long
  {
    (SubfolderFor(side), FileNameFor(symbol))
  }

  /** The record stored under the side's subfolder, if that file exists. */
  function Stored(files: map<Key, TrailingRecord>, symbol: string, side: PosSide): Option<TrailingRecord> {
    var k := KeyFor(symbol, side);
    if k in files then Some(files[k]) else None
  }

  class Store {
    var files: map<Key, TrailingRecord>

    constructor ()
      ensures files == map[]
    {
      files := map[];
    }

    /** `load_trailing_data`: the record in the side's subfolder, if the file exists. */
    function Load(symbol: string, side: PosSide): (r: Option<TrailingRecord>)
      reads this
      ensures r.Some? <==> KeyFor(symbol, side) in files
      ensures r.Some? ==> r.value == files[KeyFor(symbol, side)]
    {
      Stored(files, symbol, side)
    }

    /** `save_trailing_data`: stamps the record with its subfolder and overwrites the one
        file of that side; no other file changes. */
    method Save(symbol: string, data: TrailingRecord, side: PosSide)
      modifies this
      ensures files == old(files)[KeyFor(symbol, side) := data.(sideTag := Some(SubfolderFor(side)))]
      ensures Load(symbol, side) == Some(data.(sideTag := Some(SubfolderFor(side))))
    {
      files := files[KeyFor(symbol, side) := data.(sideTag := Some(SubfolderFor(side)))];
    }

    /** `delete_trailing_data`: removes the symbol's file from BOTH subfolders, whatever the
        position's side, and reports whether any file existed. */
    method Delete(symbol: string) returns (deleted: bool)
      modifies this
      ensures files == old(files) - {(BuyFolder, FileNameFor(symbol)), (SellFolder, FileNameFor(symbol))}
      ensures deleted <==> (BuyFolder, FileNameFor(symbol)) in old(files) || (SellFolder, FileNameFor(symbol)) in old(files)
      ensures Load(symbol, Long) == None && Load(symbol, Short) == None
    {
      var filename := FileNameFor(symbol);
      var folders := [BuyFolder, SellFolder];
      deleted := false;
      for i := 0 to |folders|
        invariant forall k :: k in files <==> k in old(files) && !(k.1 == filename && k.0 in folders[..i])
        invariant forall k :: k in files ==> files[k] == old(files)[k]
        invariant deleted <==> exists j :: 0 <= j < i && (folders[j], filename) in old(files)
      {
        var k := (folders[i], filename);
        if k in files {
          files := files - {k};
          deleted := true;
        }
      }
      assert folders[..2] == folders;
    }
  }
}
