/** Looking up the broker's instrument token for each sector index
    (main.py, the `sector_tokens` loop). */
module Instruments {
  import opened Wrappers
  import opened Rows

  /** One entry of the broker's instrument list, reduced to the fields the
      lookup reads. */
  datatype Instrument = Instrument(token: int, tradingSymbol: string, segment: string)

  /** The segment that sector indices are listed under. */
  const IndexSegment: string := "INDICES"

  /** The sectors the analysis covers and their index trading symbols, in the
      order the source's dict lists them. */
  const SectorSymbols: seq<(string, string)> := [
    ("Bank", "NIFTY BANK"),
    ("IT", "NIFTY IT"),
    ("Pharma", "NIFTY PHARMA"),
    ("FMCG", "NIFTY FMCG"),
    ("Auto", "NIFTY AUTO")
  ]

  /** The generator's filter: the symbol matches and the entry is an index. */
  predicate Matches(item: Instrument, symbol: string) {
    item.tradingSymbol == symbol && item.segment == IndexSegment
  }

  /** `i` is the position of the first instrument matching `symbol`. */
  predicate FirstMatch(instruments: seq<Instrument>, symbol: string, i: int) {
    && 0 <= i < |instruments|
    && Matches(instruments[i], symbol)
    && forall j :: 0 <= j < i ==> !Matches(instruments[j], symbol)
  }

  /** `next((...), None)`: the token of the first matching instrument, if any. */
  function FindToken(instruments: seq<Instrument>, symbol: string): (r: Option<int>)
    ensures r.None? <==> forall i :: 0 <= i < |instruments| ==> !Matches(instruments[i], symbol)
    ensures r.Some? ==> exists i :: FirstMatch(instruments, symbol, i) && r.value == instruments[i].token
  {
    if instruments == [] then None
    else if Matches(instruments[0], symbol) then Some(instruments[0].token)
    else
      var r := FindToken(instruments[1..], symbol);
      assert forall i :: 1 <= i < |instruments| ==> instruments[i] == instruments[1..][i - 1];
      if r.Some? then
        var i :| FirstMatch(instruments[1..], symbol, i) && r.value == instruments[1..][i].token;
        assert FirstMatch(instruments, symbol, i + 1);
        r
      else r
  }

  /** Python's `if token:`: a missing token and the token 0 are both falsy. */
  predicate Truthy(token: Option<int>) {
    token.Some? && token.value != 0
  }

  /** The `sector_tokens` table built from the first `|sectors|` entries of
      the sector dict: sectors whose token is truthy, in dict order. */
  function TokenTable(sectors: seq<(string, string)>, instruments: seq<Instrument>): seq<(string, int)> {
    if sectors == [] then []
    else
      var n := |sectors| - 1;
      var token := FindToken(instruments, sectors[n].1);
      TokenTable(sectors[..n], instruments) + (if Truthy(token) then [(sectors[n].0, token.value)] else [])
  }

  /** The loop over the sector dict filling `sector_tokens`. */
  method LookupSectorTokens(sectors: seq<(string, string)>, instruments: seq<Instrument>)
    returns (sectorTokens: seq<(string, int)>)
    ensures sectorTokens == TokenTable(sectors, instruments)
  {
    sectorTokens := [];
    var i := 0;
    while i < |sectors|
      invariant 0 <= i <= |sectors|
      invariant sectorTokens == TokenTable(sectors[..i], instruments)
    {
      var sector, symbol := sectors[i].0, sectors[i].1;
      var token := FindToken(instruments, symbol);
      if token.Some? && token.value != 0 {
        sectorTokens := sectorTokens + [(sector, token.value)];
      }
      assert sectors[..i + 1][..i] == sectors[..i];
      i := i + 1;
    }
    assert sectors[..i] == sectors;
  }

  /** Sector entry `i` yields the table row `(sector, t)`. */
  predicate Yields(sectors: seq<(string, string)>, instruments: seq<Instrument>, i: int, sector: string, t: int) {
    0 <= i < |sectors| && sectors[i].0 == sector && FindToken(instruments, sectors[i].1) == Some(t) && t != 0
  }

  /** A row `(sector, t)` is in the token table exactly when some listed
      sector of that name has an index instrument whose first match carries
      the non-zero token `t`. */
  lemma {:induction false} TokenTableMembership(sectors: seq<(string, string)>, instruments: seq<Instrument>, sector: string, t: int)
    ensures (sector, t) in TokenTable(sectors, instruments) <==>
      exists i :: Yields(sectors, instruments, i, sector, t)
  {
    if sectors != [] {
      var n := |sectors| - 1;
      var init := sectors[..n];
      TokenTableMembership(init, instruments, sector, t);
      assert forall i :: 0 <= i < n ==> (Yields(init, instruments, i, sector, t) <==> Yields(sectors, instruments, i, sector, t));
      if (sector, t) in TokenTable(sectors, instruments) && (sector, t) !in TokenTable(init, instruments) {
        assert Yields(sectors, instruments, n, sector, t);
      }
    }
  }

  /** The table is no longer than the sector dict and only names listed sectors. */
  lemma {:induction false} TokenTableKeysAreSectors(sectors: seq<(string, string)>, instruments: seq<Instrument>)
    ensures |TokenTable(sectors, instruments)| <= |sectors|
    ensures forall e :: e in TokenTable(sectors, instruments) ==>
      exists i :: 0 <= i < |sectors| && sectors[i].0 == e.0
  {
    if sectors != [] {
      var n := |sectors| - 1;
      TokenTableKeysAreSectors(sectors[..n], instruments);
      forall e | e in TokenTable(sectors, instruments)
        ensures exists i :: 0 <= i < |sectors| && sectors[i].0 == e.0
      {
        if e in TokenTable(sectors[..n], instruments) {
          var i :| 0 <= i < n && sectors[..n][i].0 == e.0;
          assert sectors[i] == sectors[..n][i];
        } else {
          assert sectors[n].0 == e.0;
        }
      }
    }
  }

  /** A sector dict with distinct names yields a token table with distinct
      names: each sector contributes at most one row. */
  lemma {:induction false} TokenTableDistinct(sectors: seq<(string, string)>, instruments: seq<Instrument>)
    requires DistinctKeys(sectors)
    ensures DistinctKeys(TokenTable(sectors, instruments))
  {
    if sectors != [] {
      var n := |sectors| - 1;
      var init := sectors[..n];
      TokenTableDistinct(init, instruments);
      TokenTableKeysAreSectors(init, instruments);
      var head := TokenTable(init, instruments);
      forall k | 0 <= k < |head|
        ensures head[k].0 != sectors[n].0
      {
        assert head[k] in head;
        var i :| 0 <= i < n && init[i].0 == head[k].0;
        assert init[i] == sectors[i];
      }
    }
  }

  /** The five analysed sectors have distinct names. */
  lemma SectorSymbolsDistinct()
    ensures DistinctKeys(SectorSymbols)
  {
  }

  /** The table built from the analysed sectors has one row per sector at
      most, as `sector_tokens[sector] = token` gives. */
  lemma SectorTokensDistinct(instruments: seq<Instrument>)
    ensures DistinctKeys(TokenTable(SectorSymbols, instruments))
  {
    SectorSymbolsDistinct();
    TokenTableDistinct(SectorSymbols, instruments);
  }
}
