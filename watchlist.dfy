/** The watchlist: today's top gainers and most active symbols merged with a
    fixed list of favourites, or a fixed fallback list when the screener
    cannot be read. */
module Watchlist {

  type Symbol = string

  datatype Option<T> = None | Some(value: T)

  /** What the market screener returned: its gainers and most-active tables,
      in the order it listed them. */
  datatype Screen = Screen(gainers: seq<Symbol>, mostActive: seq<Symbol>)

  const GainersTaken: nat := 10
  const MostActiveTaken: nat := 5

  const Favorites: seq<Symbol> := ["SOXL", "SOXS", "TQQQ", "SQQQ", "NVDA", "TSLA", "MSTR", "COIN"]

  /** Used when the screener fails. */
  const Fallback: seq<Symbol> := ["SOXL", "NVDA", "TQQQ", "TSLA", "MSTR", "COIN", "SOXS"]

  predicate NoDuplicates<T(==)>(s: seq<T>)
  {
    forall i, j :: 0 <= i < j < |s| ==> s[i] != s[j]
  }

  /** `head(n)`: the first n entries, or all of them when there are fewer. */
  function Head(s: seq<Symbol>, n: nat): (r: seq<Symbol>)
    ensures |r| == if |s| <= n then |s| else n
    ensures r == s[..|r|]
  {
    if |s| <= n then s else s[..n]
  }

  /** `list(set(s))`: every entry of s exactly once. Python's set fixes no
      order; this one keeps first occurrences. */
  function Distinct(s: seq<Symbol>): (r: seq<Symbol>)
    ensures NoDuplicates(r)
    ensures forall x :: x in r <==> x in s
    ensures |r| <= |s|
  {
    if s == [] then []
    else
      var rest := Distinct(s[..|s| - 1]);
      var x := s[|s| - 1];
      if x in rest then rest else rest + [x]
  }

  /** get_hot_symbols: the screener's first 10 gainers and first 5 most-active
      symbols together with the favourites, without duplicates; the fallback
      list when the screener (None) could not be read. */
  function HotSymbols(screen: Option<Screen>): (r: seq<Symbol>)
    ensures NoDuplicates(r)
    ensures screen.None? ==> r == Fallback
    ensures screen.Some? ==> forall s :: s in r <==>
      s in Head(screen.value.gainers, GainersTaken)
      || s in Head(screen.value.mostActive, MostActiveTaken)
      || s in Favorites
    ensures |r| <= GainersTaken + MostActiveTaken + |Favorites|
  {
    match screen
    case None => Fallback
    case Some(sc) =>
      Distinct(Head(sc.gainers, GainersTaken) + Head(sc.mostActive, MostActiveTaken) + Favorites)
  }

  /** The fallback is the favourites without SQQQ, so whatever the screener
      does, every fallback symbol is scanned. */
  lemma FallbackAlwaysScanned(screen: Option<Screen>)
    ensures forall s :: s in Fallback ==> s in HotSymbols(screen)
    ensures forall s :: s in Fallback <==> s in Favorites && s != "SQQQ"
  {
  }
}
