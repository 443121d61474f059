/** The aggregates of components/PortfolioSummary.tsx: total value, total
    profit/loss, total invested and the return percentage, with its
    division-by-zero guard, and the Profit/Loss headline. */
module PortfolioSummary {
  import opened Common
  import opened Portfolio

  function TotalValueOf(p: Position): real { p.totalValue }

  function ProfitLossOf(p: Position): real { p.profitLoss }

  /** What was paid for a position: amount times cost basis. */
  function InvestedOf(p: Position): real { p.amount * p.averagePrice }

  datatype Summary = Summary(totalValue: real, totalProfitLoss: real, totalInvested: real, returnPercentage: real)

  function Summarize(ps: seq<Position>): (r: Summary)
    ensures |ps| == 0 ==> r == Summary(0.0, 0.0, 0.0, 0.0)
    // the return is the profit relative to the investment, and 0 without investment
    ensures r.totalInvested > 0.0 ==> r.returnPercentage * r.totalInvested == r.totalProfitLoss * 100.0
    ensures r.totalInvested <= 0.0 ==> r.returnPercentage == 0.0
  {
    var value := SumOf(ps, TotalValueOf);
    var pl := SumOf(ps, ProfitLossOf);
    var invested := SumOf(ps, InvestedOf);
    Summary(value, pl, invested, if invested > 0.0 then pl / invested * 100.0 else 0.0)
  }

  /** The totals grow by exactly the new position's contribution. */
  lemma {:induction false} SummarizeAppend(ps: seq<Position>, p: Position)
    ensures Summarize(ps + [p]).totalValue == Summarize(ps).totalValue + p.totalValue
    ensures Summarize(ps + [p]).totalProfitLoss == Summarize(ps).totalProfitLoss + p.profitLoss
    ensures Summarize(ps + [p]).totalInvested == Summarize(ps).totalInvested + p.amount * p.averagePrice
  {
    SumOfAppend(ps, [p], TotalValueOf);
    SumOfAppend(ps, [p], ProfitLossOf);
    SumOfAppend(ps, [p], InvestedOf);
  }

  /** When every position's profit/loss is its value minus its cost, the
      totals obey the same equation. */
  lemma ProfitIsValueMinusInvested(ps: seq<Position>)
    requires forall i :: 0 <= i < |ps| ==> ps[i].profitLoss == ps[i].totalValue - ps[i].amount * ps[i].averagePrice
    ensures Summarize(ps).totalProfitLoss == Summarize(ps).totalValue - Summarize(ps).totalInvested
  {
    SumOfDifference(ps, ProfitLossOf, TotalValueOf, InvestedOf);
  }

  /** A non-empty well-formed portfolio has a positive investment, so its
      return percentage is the quotient and not the guard value. */
  lemma WellFormedHasInvestment(ps: seq<Position>)
    requires WellFormed(ps) && |ps| > 0
    ensures Summarize(ps).totalInvested > 0.0
  {
    forall x | x in ps ensures InvestedOf(x) >= 0.0 {
      var i :| 0 <= i < |ps| && ps[i] == x;
    }
    SumOfPositive(ps, InvestedOf);
    assert ps[0] in ps && InvestedOf(ps[0]) > 0.0;
  }

  datatype PnLLabel = Profit | Loss

  /** The profit/loss card: a label and the magnitude shown next to it. */
  datatype Headline = Headline(kind: PnLLabel, magnitude: real)

  function HeadlineOf(totalProfitLoss: real): (r: Headline)
    ensures r.kind == Profit <==> totalProfitLoss >= 0.0
    ensures r.magnitude >= 0.0
    ensures (if r.kind == Profit then r.magnitude else -r.magnitude) == totalProfitLoss
  {
    if totalProfitLoss >= 0.0 then Headline(Profit, totalProfitLoss) else Headline(Loss, -totalProfitLoss)
  }
}
