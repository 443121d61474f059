/** The markets table of components/MarketsPage.tsx: search, the
    gainers/losers filter, sorting, and the market statistics. */
module MarketsPage {
  import opened Common
  import opened Market
  import opened CoinSort

  datatype FilterBy = All | Gainers | Losers

  /** The predicate of `cryptocurrencies.filter(...)`. */
  predicate Keep(c: Coin, query: string, filter: FilterBy) {
    match filter
    case Gainers => MatchesQuery(c, query) && IsGainer(c)
    case Losers => MatchesQuery(c, query) && IsLoser(c)
    case All => MatchesQuery(c, query)
  }

  function Keeps(query: string, filter: FilterBy): Coin -> bool {
    c => Keep(c, query, filter)
  }

  /** `filteredCryptos`: the matching coins, sorted by the chosen column. */
  function FilteredCryptos(feed: seq<Coin>, query: string, filter: FilterBy, st: SortState): (r: seq<Coin>)
    ensures Sorted(r, st.field, st.order)
    // a permutation of the matching coins of the feed
    ensures multiset(r) == multiset(Filter(feed, Keeps(query, filter)))
    ensures forall c :: c in r ==> c in feed && MatchesQuery(c, query)
    ensures forall c :: c in r && filter == Gainers ==> c.priceChangePercentage24h > 0.0
    ensures forall c :: c in r && filter == Losers ==> c.priceChangePercentage24h < 0.0
    ensures forall c :: c in feed && Keep(c, query, filter) ==> c in r
  {
    var kept := Filter(feed, Keeps(query, filter));
    var r := Sort(kept, st.field, st.order);
    assert forall c :: c in r <==> c in kept by {
      forall c ensures c in r <==> c in kept {
        assert c in r <==> c in multiset(r);
      }
    }
    forall c | c in feed && Keep(c, query, filter) ensures c in kept {
      var i :| 0 <= i < |feed| && feed[i] == c;
    }
    r
  }

  /** A coin whose 24h change is exactly 0 is neither a gainer nor a loser. */
  lemma FlatCoinInNeither(feed: seq<Coin>, query: string, st: SortState, c: Coin)
    requires c.priceChangePercentage24h == 0.0
    ensures c !in FilteredCryptos(feed, query, Gainers, st)
    ensures c !in FilteredCryptos(feed, query, Losers, st)
  {
  }

  /** An empty query with the `all` filter shows the whole feed, reordered. */
  lemma EmptyQueryShowsAll(feed: seq<Coin>, st: SortState)
    ensures multiset(FilteredCryptos(feed, "", All, st)) == multiset(feed)
  {
    forall c | c in feed ensures Keeps("", All)(c) {
      EmptyQueryMatches(c);
    }
    FilterKeepsAll(feed, Keeps("", All));
  }

  datatype MarketStats = MarketStats(totalMarketCap: real, totalVolume: real, gainers: nat, losers: nat)

  function StatsOf(feed: seq<Coin>): (r: MarketStats)
    ensures r.gainers + r.losers <= |feed|
    ensures r.gainers == 0 <==> forall c :: c in feed ==> !IsGainer(c)
    ensures r.losers == 0 <==> forall c :: c in feed ==> !IsLoser(c)
    ensures |feed| == 0 ==> r.totalMarketCap == 0.0 && r.totalVolume == 0.0
  {
    FilterDisjointLength(feed, IsGainer, IsLoser);
    FilterNoneEmpty(feed, IsGainer);
    FilterNoneEmpty(feed, IsLoser);
    MarketStats(Market.TotalMarketCap(feed), Market.TotalVolume(feed), |Filter(feed, IsGainer)|, |Filter(feed, IsLoser)|)
  }

  /** One more coin in the snapshot adds its market cap and volume to the
      totals and counts it as a gainer or a loser by the sign of its change;
      with the empty snapshot's zeros this fixes the statistics of every snapshot. */
  lemma StatsOfAppend(feed: seq<Coin>, c: Coin)
    ensures var before := StatsOf(feed);
      var after := StatsOf(feed + [c]);
      && after.totalMarketCap == before.totalMarketCap + c.marketCap
      && after.totalVolume == before.totalVolume + c.totalVolume
      && after.gainers == before.gainers + (if c.priceChangePercentage24h > 0.0 then 1 else 0)
      && after.losers == before.losers + (if c.priceChangePercentage24h < 0.0 then 1 else 0)
  {
    SumOfAppend(feed, [c], MarketCapOf);
    SumOfAppend(feed, [c], VolumeOf);
    FilterAppend(feed, c, IsGainer);
    FilterAppend(feed, c, IsLoser);
  }
}
