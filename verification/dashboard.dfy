/** The four stat cards of components/Dashboard.tsx. */
module Dashboard {
  import opened Common
  import opened Market
  import Portfolio
  import PortfolioSummary

  datatype Stats = Stats(
    totalMarketCap: real,
    totalVolume24h: real,
    /** `None` for the literal "$0" shown without a user. */
    portfolioShown: Option<real>,
    changePrefix: string,
    changeMagnitude: real,
    portfolioPositive: bool,
    activeCoins: nat)

  function StatsOf(feed: seq<Coin>, ps: seq<Portfolio.Position>, signedIn: bool): (r: Stats)
    ensures |feed| == 0 ==> r.totalMarketCap == 0.0 && r.totalVolume24h == 0.0
    ensures r.activeCoins == |feed|
    // the value card hides the holdings when nobody is signed in
    ensures !signedIn ==> r.portfolioShown.None?
    ensures signedIn ==> r.portfolioShown == Some(PortfolioSummary.Summarize(ps).totalValue)
    // the change text is "+$|pl|" or "-$|pl|" and its sign is the card's colour
    ensures var pl := PortfolioSummary.Summarize(ps).totalProfitLoss;
      && (r.portfolioPositive <==> pl >= 0.0)
      && (r.changePrefix == "+$" <==> pl >= 0.0)
      && (r.changePrefix == "-$" <==> pl < 0.0)
      && r.changeMagnitude >= 0.0
      && (if r.changePrefix == "+$" then r.changeMagnitude else -r.changeMagnitude) == pl
  {
    var summary := PortfolioSummary.Summarize(ps);
    var pl := summary.totalProfitLoss;
    Stats(
      TotalMarketCap(feed),
      TotalVolume(feed),
      if signedIn then Some(summary.totalValue) else None,
      if pl >= 0.0 then "+$" else "-$",
      if pl >= 0.0 then pl else -pl,
      pl >= 0.0,
      |feed|)
  }

  /** One more coin adds its market cap and volume to the totals and one to
      the coin count, and leaves the portfolio card alone; with the empty
      snapshot's zeros this fixes the market cards for every snapshot. */
  lemma StatsOfAppend(feed: seq<Coin>, c: Coin, ps: seq<Portfolio.Position>, signedIn: bool)
    ensures var before := StatsOf(feed, ps, signedIn);
      var after := StatsOf(feed + [c], ps, signedIn);
      && after.totalMarketCap == before.totalMarketCap + c.marketCap
      && after.totalVolume24h == before.totalVolume24h + c.totalVolume
      && after.activeCoins == before.activeCoins + 1
      && after.(totalMarketCap := 0.0, totalVolume24h := 0.0, activeCoins := 0)
         == before.(totalMarketCap := 0.0, totalVolume24h := 0.0, activeCoins := 0)
  {
    SumOfAppend(feed, [c], MarketCapOf);
    SumOfAppend(feed, [c], VolumeOf);
  }

  /** A feed of non-negative market caps and volumes has non-negative totals. */
  lemma TotalsNonNegative(feed: seq<Coin>, ps: seq<Portfolio.Position>, signedIn: bool)
    requires forall c :: c in feed ==> c.marketCap >= 0.0 && c.totalVolume >= 0.0
    ensures StatsOf(feed, ps, signedIn).totalMarketCap >= 0.0
    ensures StatsOf(feed, ps, signedIn).totalVolume24h >= 0.0
  {
    SumOfNonNegative(feed, MarketCapOf);
    SumOfNonNegative(feed, VolumeOf);
  }
}
