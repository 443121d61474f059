/** The market snapshot: the instruments the price feed delivers and the
    lookups and predicates every view shares (contexts/CryptoContext.tsx). */
module Market {
  import opened Common
  import Text

  /** One instrument of the feed; only the fields the core reads are kept. */
  datatype Coin = Coin(
    id: string,
    symbol: string,
    name: string,
    currentPrice: real,
    marketCap: real,
    marketCapRank: int,
    totalVolume: real,
    priceChangePercentage24h: real)

  /** The snapshot holds a coin with this id. */
  ghost predicate Listed(feed: seq<Coin>, id: string) {
    exists i :: 0 <= i < |feed| && feed[i].id == id
  }

  /** `getCryptocurrencyById` / `cryptocurrencies.find(c => c.id === id)`:
      the FIRST coin with that id, if any. */
  function FindCoin(feed: seq<Coin>, id: string): (r: Option<Coin>)
    ensures r.None? <==> !Listed(feed, id)
    ensures r.Some? ==> exists i :: 0 <= i < |feed| && feed[i] == r.value && r.value.id == id
                          && forall j :: 0 <= j < i ==> feed[j].id != id
    decreases |feed|
  {
    if |feed| == 0 then None
    else if feed[0].id == id then Some(feed[0])
    else
      var r := FindCoin(feed[1..], id);
      assert Listed(feed, id) ==> Listed(feed[1..], id) by {
        if Listed(feed, id) {
          var i :| 0 <= i < |feed| && feed[i].id == id;
          assert feed[1..][i - 1].id == id;
        }
      }
      assert r.Some? ==> exists i :: 0 <= i < |feed| && feed[i] == r.value && forall j :: 0 <= j < i ==> feed[j].id != id by {
        if r.Some? {
          var k :| 0 <= k < |feed[1..]| && feed[1..][k] == r.value && forall j :: 0 <= j < k ==> feed[1..][j].id != id;
          assert feed[k + 1] == r.value;
          assert forall j :: 0 <= j < k + 1 ==> feed[j].id != id by {
            forall j | 0 <= j < k + 1 ensures feed[j].id != id {
              if j > 0 { assert feed[j] == feed[1..][j - 1]; }
            }
          }
        }
      }
      r
  }

  /** The coin's lower-cased name or symbol contains the lower-cased query
      (MarketsPage, SearchModal). */
  predicate MatchesQuery(c: Coin, query: string) {
    var q := Text.ToLower(query);
    Text.Contains(Text.ToLower(c.name), q) || Text.Contains(Text.ToLower(c.symbol), q)
  }

  /** An empty query matches every coin. */
  lemma EmptyQueryMatches(c: Coin)
    ensures MatchesQuery(c, "")
  {
    Text.EmptyOccursEverywhere(Text.ToLower(c.name));
  }

  function MarketCapOf(c: Coin): real { c.marketCap }

  function VolumeOf(c: Coin): real { c.totalVolume }

  predicate IsGainer(c: Coin) { c.priceChangePercentage24h > 0.0 }

  predicate IsLoser(c: Coin) { c.priceChangePercentage24h < 0.0 }

  function TotalMarketCap(feed: seq<Coin>): real { SumOf(feed, MarketCapOf) }

  function TotalVolume(feed: seq<Coin>): real { SumOf(feed, VolumeOf) }
}
