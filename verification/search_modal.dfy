/** The search dialog of components/SearchModal.tsx: the first ten coins
    matching the query, click to watch. */
module SearchModal {
  import opened Common
  import opened Market
  import Watchlist

  const MaxResults: nat := 10

  function Matches(query: string): Coin -> bool {
    c => MatchesQuery(c, query)
  }

  /** `filteredCryptos` after the effect ran for `query`. */
  function Results(feed: seq<Coin>, query: string): (r: seq<Coin>)
    ensures |r| <= MaxResults
    ensures forall c :: c in r ==> c in feed && MatchesQuery(c, query)
    ensures IsSubsequence(r, feed)
    // the FIRST matches, as many as fit
    ensures r <= Filter(feed, Matches(query))
    ensures |r| == MaxResults || r == Filter(feed, Matches(query))
  {
    var all := Filter(feed, Matches(query));
    var r := if query == "" then Take(feed, MaxResults) else Take(all, MaxResults);
    assert r == Take(all, MaxResults) by {
      if query == "" {
        EmptyQueryMatchesAll(feed);
      }
    }
    PrefixIsSubsequence(r, all);
    SubsequenceTrans(r, all, feed);
    assert forall c :: c in r ==> c in all;
    r
  }

  lemma EmptyQueryMatchesAll(feed: seq<Coin>)
    ensures Filter(feed, Matches("")) == feed
  {
    forall c | c in feed ensures Matches("")(c) {
      EmptyQueryMatches(c);
    }
    FilterKeepsAll(feed, Matches(""));
  }

  /** The empty query shows the first ten coins of the feed, in feed order. */
  lemma EmptyQueryFirstTen(feed: seq<Coin>)
    ensures Results(feed, "") == Take(feed, MaxResults)
  {
  }

  /** The "In Watchlist" badge of a result. */
  predicate InWatchlistBadge(watchlist: seq<string>, c: Coin) {
    c.id in watchlist
  }

  /** Clicking a result watches the coin (its badge appears); a second click
      changes nothing. */
  lemma ClickResult(watchlist: seq<string>, c: Coin)
    ensures InWatchlistBadge(Watchlist.Add(watchlist, c.id), c)
    ensures Watchlist.Add(Watchlist.Add(watchlist, c.id), c.id) == Watchlist.Add(watchlist, c.id)
  {
  }
}
