/** Trailing-file names: `safe_filename` and `filename_to_symbol` (main.py:240-241, 439-446),
    with the Python string operations they use (`str.replace`, `str.split`). */
module Naming {
  import opened Wrappers

  const JsonSuffix: string := ".json"
  const SettleMarker: string := ":USDT"

  /** `t` occurs somewhere in `s` (Python's `t in s`). */
  predicate Contains(s: string, t: string)
    decreases |s|
  {
    t <= s || (|s| > 0 && Contains(s[1..], t))
  }

  /** `s.replace(from, to)` for one-character arguments. */
  function ReplaceChar(s: string, from: char, to: char): (r: string)
    ensures |r| == |s|
    ensures forall i :: 0 <= i < |s| ==> r[i] == if s[i] == from then to else s[i]
  {
    if s == [] then [] else [if s[0] == from then to else s[0]] + ReplaceChar(s[1..], from, to)
  }

  /** `symbol.replace('/', '_').replace(':', '_')`: every '/' and ':' becomes '_', nothing else moves. */
  function SafeFilename(symbol: string): (r: string)
    ensures |r| == |symbol|
    ensures '/' !in r && ':' !in r
    ensures forall i :: 0 <= i < |symbol| ==>
              r[i] == if symbol[i] == '/' || symbol[i] == ':' then '_' else symbol[i]
  {
    ReplaceChar(ReplaceChar(symbol, '/', '_'), ':', '_')
  }

  /** `s.replace(pat, "")`: Python scans left to right and removes non-overlapping matches. */
  function RemoveAll(s: string, pat: string): (r: string)
    requires pat != []
    ensures |r| <= |s|
    decreases |s|
  {
    if s == [] then []
    else if pat <= s then RemoveAll(s[|pat|..], pat)
    else [s[0]] + RemoveAll(s[1..], pat)
  }

  /** Where `pat` does not occur, nothing is removed. */
  lemma {:induction false} RemoveAllNoMatch(s: string, pat: string)
    requires pat != [] && !Contains(s, pat)
    ensures RemoveAll(s, pat) == s
    decreases |s|
  {
    if s != [] {
      RemoveAllNoMatch(s[1..], pat);
    }
  }

  /** Number of occurrences of `c` in `s`. */
  function Count(s: string, c: char): nat
  {
    if s == [] then 0 else (if s[0] == c then 1 else 0) + Count(s[1..], c)
  }

  /** `s.split(sep)` for a one-character separator: one part more than there are separators,
      and no part contains the separator. */
  function SplitOn(s: string, sep: char): (parts: seq<string>)
    ensures |parts| == Count(s, sep) + 1
    ensures forall i :: 0 <= i < |parts| ==> sep !in parts[i]
  {
    if s == [] then [[]]
    else
      var rest := SplitOn(s[1..], sep);
      if s[0] == sep then [[]] + rest
      else [[s[0]] + rest[0]] + rest[1..]
  }

  /** `sep.join(parts)`. */
  function JoinWith(parts: seq<string>, sep: char): string
    requires |parts| >= 1
  {
    if |parts| == 1 then parts[0] else parts[0] + [sep] + JoinWith(parts[1..], sep)
  }

  /** Splitting loses nothing: joining the parts back gives the original string. */
  lemma {:induction false} SplitJoin(s: string, sep: char)
    ensures JoinWith(SplitOn(s, sep), sep) == s
  {
    if s != [] {
      var rest := SplitOn(s[1..], sep);
      SplitJoin(s[1..], sep);
      if s[0] == sep {
        assert SplitOn(s, sep) == [[]] + rest;
      } else if |rest| == 1 {
        assert SplitOn(s, sep) == [[s[0]] + rest[0]];
      } else {
        var parts := SplitOn(s, sep);
        assert parts[1..] == rest[1..];
        assert JoinWith(rest, sep) == rest[0] + [sep] + JoinWith(rest[1..], sep);
      }
    }
  }

  /** `filename_to_symbol`: strip every ".json", split on '_', and rebuild
      `parts[0]/parts[1]:USDT`; fewer than three parts give None. */
  function FilenameToSymbol(filename: string): (r: Option<string>)
    ensures r.None? <==> Count(RemoveAll(filename, JsonSuffix), '_') < 2
    ensures r.Some? ==> '_' !in r.value && |r.value| >= 5 && r.value[|r.value| - 5..] == SettleMarker
  {
    var parts := SplitOn(RemoveAll(filename, JsonSuffix), '_');
    if |parts| < 3 then None
    else
      var sym := parts[0] + "/" + parts[1] + SettleMarker;
      assert sym[|sym| - 5..] == SettleMarker;
      Some(sym)
  }

  /** A match of `pat` cannot run across a character that `pat` does not contain, so the
      removal works on the two sides of such a character independently. */
  lemma {:induction false} RemoveAllSplits(x: string, y: string, pat: string)
    requires pat != [] && |y| > 0 && y[0] !in pat
    ensures RemoveAll(x + y, pat) == RemoveAll(x, pat) + RemoveAll(y, pat)
    decreases |x|
  {
    if x == [] {
      assert x + y == y;
    } else if pat <= x + y {
      assert (x + y)[|x|] == y[0];
      assert pat <= x;
      assert (x + y)[|pat|..] == x[|pat|..] + y;
      RemoveAllSplits(x[|pat|..], y, pat);
    } else {
      assert (x + y)[1..] == x[1..] + y;
      RemoveAllSplits(x[1..], y, pat);
    }
  }

  /** Splitting at the first separator. */
  lemma {:induction false} SplitAtFirst(x: string, y: string, sep: char)
    requires sep !in x
    ensures SplitOn(x + [sep] + y, sep) == [x] + SplitOn(y, sep)
    decreases |x|
  {
    if x == [] {
      assert x + [sep] + y == [sep] + y;
      assert ([sep] + y)[1..] == y;
    } else {
      assert (x + [sep] + y)[1..] == x[1..] + [sep] + y;
      SplitAtFirst(x[1..], y, sep);
      assert [x[0]] + x[1..] == x;
    }
  }

  /** A string without the separator splits into itself alone. */
  lemma {:induction false} SplitWithoutSeparator(y: string, sep: char)
    requires sep !in y
    ensures SplitOn(y, sep) == [y]
  {
    if y != [] {
      SplitWithoutSeparator(y[1..], sep);
      assert [y[0]] + y[1..] == y;
    }
  }

  /** A base or quote asset name that `filename_to_symbol` can recover: no '_', '/', ':'
      and no ".json" inside. */
  predicate RecoverablePart(s: string) {
    NoSeparators(s) && !Contains(s, JsonSuffix)
  }

  /** No character that `safe_filename` rewrites or `split('_')` cuts at. */
  predicate NoSeparators(s: string) {
    '_' !in s && '/' !in s && ':' !in s
  }

  /** `safe_filename("B/Q:USDT") == "B_Q_USDT"` when B and Q hold no '/' or ':'. */
  lemma SafeFilenameOfSymbol(base: string, quote: string)
    requires NoSeparators(base) && NoSeparators(quote)
    ensures SafeFilename(base + "/" + quote + SettleMarker) == base + "_" + quote + "_USDT"
  {
    var symbol := base + "/" + quote + SettleMarker;
    var safe := base + "_" + quote + "_USDT";
    forall i | 0 <= i < |symbol|
      ensures SafeFilename(symbol)[i] == safe[i]
    {
      if i < |base| {
        assert symbol[i] == base[i] && safe[i] == base[i];
      } else if i == |base| {
      } else if i < |base| + 1 + |quote| {
        assert symbol[i] == quote[i - |base| - 1] && safe[i] == quote[i - |base| - 1];
      }
    }
  }

  /** Removing ".json" from the fixed tail "_USDT.json" leaves "_USDT". */
  lemma StripJsonOfTail()
    ensures RemoveAll("_USDT" + JsonSuffix, JsonSuffix) == "_USDT"
  {
    assert RemoveAll(".json", JsonSuffix) == [];
    assert RemoveAll("T.json", JsonSuffix) == "T";
    assert RemoveAll("DT.json", JsonSuffix) == "DT";
    assert RemoveAll("SDT.json", JsonSuffix) == "SDT";
    assert RemoveAll("USDT.json", JsonSuffix) == "USDT";
    assert "_USDT" + JsonSuffix == "_USDT.json";
  }

  /** A leading '_' is never part of a ".json" match. */
  lemma StripJsonAfterUnderscore(x: string)
    ensures RemoveAll("_" + x, JsonSuffix) == "_" + RemoveAll(x, JsonSuffix)
  {
    assert ("_" + x)[1..] == x;
    assert ("_" + x)[0] != JsonSuffix[0];
  }

  /** Removing ".json" from "Q_USDT.json" leaves "Q_USDT". */
  lemma StripJsonOfQuoteTail(quote: string)
    requires !Contains(quote, JsonSuffix)
    ensures RemoveAll(quote + ("_USDT" + JsonSuffix), JsonSuffix) == quote + "_USDT"
  {
    RemoveAllNoMatch(quote, JsonSuffix);
    StripJsonOfTail();
    RemoveAllSplits(quote, "_USDT" + JsonSuffix, JsonSuffix);
  }

  /** A prefix without ".json" that is followed by '_' comes through unchanged. */
  lemma StripJsonKeepsPrefix(base: string, mid: string)
    requires !Contains(base, JsonSuffix) && |mid| > 0 && mid[0] == '_'
    ensures RemoveAll(base + mid, JsonSuffix) == base + RemoveAll(mid, JsonSuffix)
  {
    RemoveAllNoMatch(base, JsonSuffix);
    RemoveAllSplits(base, mid, JsonSuffix);
  }

  /** Removing ".json" from "B_Q_USDT.json" leaves "B_Q_USDT". */
  lemma StripJsonOfSafeName(base: string, quote: string)
    requires !Contains(base, JsonSuffix) && !Contains(quote, JsonSuffix)
    ensures RemoveAll(base + "_" + quote + "_USDT" + JsonSuffix, JsonSuffix) == base + "_" + quote + "_USDT"
  {
    var qt := quote + ("_USDT" + JsonSuffix);
    StripJsonOfQuoteTail(quote);
    StripJsonAfterUnderscore(qt);
    var mid := "_" + qt;
    StripJsonKeepsPrefix(base, mid);
    SafeNameShape(base, quote);
  }

  /** How "B_Q_USDT.json" is put together, regrouped for the lemmas above. */
  lemma SafeNameShape(base: string, quote: string)
    ensures base + "_" + quote + "_USDT" + JsonSuffix == base + ("_" + (quote + ("_USDT" + JsonSuffix)))
  {
  }

  /** "B_Q_USDT" splits on '_' into B, Q and "USDT". */
  lemma SplitSafeName(base: string, quote: string)
    requires '_' !in base && '_' !in quote
    ensures SplitOn(base + "_" + quote + "_USDT", '_') == [base, quote, "USDT"]
  {
    SplitWithoutSeparator("USDT", '_');
    SplitAtFirst(quote, "USDT", '_');
    assert quote + "_USDT" == quote + ['_'] + "USDT";
    SplitAtFirst(base, quote + "_USDT", '_');
    assert base + "_" + quote + "_USDT" == base + ['_'] + (quote + "_USDT");
  }

  /** The file name of a USDT-settled symbol `B/Q:USDT` maps back to the symbol. */
  lemma FilenameRoundTrip(base: string, quote: string)
    requires RecoverablePart(base) && RecoverablePart(quote)
    ensures FilenameToSymbol(SafeFilename(base + "/" + quote + SettleMarker) + JsonSuffix)
            == Some(base + "/" + quote + SettleMarker)
  {
    SafeFilenameOfSymbol(base, quote);
    StripJsonOfSafeName(base, quote);
    SplitSafeName(base, quote);
  }
}
