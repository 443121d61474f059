/** The dashboard card of components/WatchlistWidget.tsx: the watched coins
    of the current feed, at most eight. */
module WatchlistWidget {
  import opened Common
  import opened Market
  import Watchlist

  const MaxShown: nat := 8

  function Watched(watchlist: seq<string>): Coin -> bool {
    (c: Coin) => c.id in watchlist
  }

  /** `watchlistCryptos`: feed coins whose id is watched, in FEED order. */
  function Shown(feed: seq<Coin>, watchlist: seq<string>): (r: seq<Coin>)
    ensures |r| <= MaxShown
    ensures forall c :: c in r ==> c in feed && c.id in watchlist
    ensures IsSubsequence(r, Filter(feed, Watched(watchlist)))
    ensures r <= Filter(feed, Watched(watchlist))
    ensures |Filter(feed, Watched(watchlist))| <= MaxShown ==> r == Filter(feed, Watched(watchlist))
    // the FIRST eight when more are watched
    ensures |r| == MaxShown || r == Filter(feed, Watched(watchlist))
  {
    var all := Filter(feed, Watched(watchlist));
    PrefixIsSubsequence(Take(all, MaxShown), all);
    Take(all, MaxShown)
  }

  /** The "No cryptocurrencies in watchlist" state appears exactly when no
      watched coin is in the feed (ids missing from the feed do not count). */
  lemma EmptyStateIff(feed: seq<Coin>, watchlist: seq<string>)
    ensures |Shown(feed, watchlist)| == 0 <==> forall c :: c in feed ==> c.id !in watchlist
  {
    FilterNoneEmpty(feed, Watched(watchlist));
  }

  /** The remove button of a card unwatches that coin, so it disappears. */
  lemma RemoveButton(feed: seq<Coin>, watchlist: seq<string>, c: Coin)
    ensures c !in Shown(feed, Watchlist.Remove(watchlist, c.id))
  {
  }
}
