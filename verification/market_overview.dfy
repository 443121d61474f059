/** The dashboard's market table of components/MarketOverview.tsx: the top
    20 coins of a sorted copy of the feed. */
module MarketOverview {
  import opened Common
  import opened Market
  import opened CoinSort
  import Watchlist

  const Rows: nat := 20

  /** The columns this table can sort by (no volume column). */
  predicate OverviewField(f: SortField) {
    f != TotalVolume
  }

  /** `sortedCryptos`: a sorted copy of the feed, cut to its first 20 rows. */
  function SortedCryptos(feed: seq<Coin>, st: SortState): (r: seq<Coin>)
    requires OverviewField(st.field)
    ensures |r| == if |feed| < Rows then |feed| else Rows
    ensures Sorted(r, st.field, st.order)
    ensures multiset(r) <= multiset(feed)
    // no coin left out ranks ahead of a coin shown
    ensures forall x, y :: x in multiset(feed) - multiset(r) && y in r ==> Before(y, x, st.field, st.order)
  {
    var full := Sort(feed, st.field, st.order);
    var r := Take(full, Rows);
    var rest := full[|r|..];
    assert full == r + rest;
    assert multiset(full) == multiset(r) + multiset(rest);
    forall x, y | x in multiset(feed) - multiset(r) && y in r ensures Before(y, x, st.field, st.order) {
      assert x in multiset(rest);
      var j :| 0 <= j < |rest| && rest[j] == x;
      var i :| 0 <= i < |r| && r[i] == y;
      assert full[i] == y && full[|r| + j] == x;
    }
    r
  }

  /** `handleSort` of this table keeps to its three columns. */
  lemma HandleSortStaysInOverview(st: SortState, field: SortField)
    requires OverviewField(field)
    ensures OverviewField(HandleSort(st, field).field)
  {
  }

  /** The "+" button of a row: shown only for coins not yet watched. */
  predicate ShowAddButton(watchlist: seq<string>, id: string) {
    id !in watchlist
  }

  /** Pressing "+" adds the coin, after which its button is gone. */
  lemma AddButtonDisappears(watchlist: seq<string>, id: string)
    ensures !ShowAddButton(Watchlist.Add(watchlist, id), id)
  {
  }
}
