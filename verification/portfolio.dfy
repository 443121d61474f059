/** The simulated holdings of contexts/CryptoContext.tsx: buying merges into
    a position with a weighted-average cost basis, removal deletes a position,
    and every new price snapshot revalues the derived fields. */
module Portfolio {
  import opened Common
  import opened Market

  /** The `Portfolio` record. The last four fields are derived from the
      amount, the average price and the current price. */
  datatype Position = Position(
    id: string,
    symbol: string,
    name: string,
    amount: real,
    averagePrice: real,
    currentPrice: real,
    totalValue: real,
    profitLoss: real,
    profitLossPercentage: real)

  /** The derived fields agree with amount, average price and current price. */
  predicate Valued(p: Position) {
    && p.averagePrice != 0.0
    && p.totalValue == p.amount * p.currentPrice
    && p.profitLoss == p.totalValue - p.amount * p.averagePrice
    && p.profitLossPercentage == (p.currentPrice - p.averagePrice) / p.averagePrice * 100.0
  }

  /** At most one position per coin id. */
  predicate UniqueIds(ps: seq<Position>) {
    forall i, j :: 0 <= i < j < |ps| ==> ps[i].id != ps[j].id
  }

  ghost predicate Holds(ps: seq<Position>, id: string) {
    exists i :: 0 <= i < |ps| && ps[i].id == id
  }

  /** The invariant every reachable portfolio keeps: one position per id,
      positive amount and cost basis, consistent derived fields. */
  predicate WellFormed(ps: seq<Position>) {
    && UniqueIds(ps)
    && forall i :: 0 <= i < |ps| ==> ps[i].amount > 0.0 && ps[i].averagePrice > 0.0 && Valued(ps[i])
  }

  /** `portfolio.find(item => item.id === id)`: the first position with the id. */
  function FindPosition(ps: seq<Position>, id: string): (r: Option<Position>)
    ensures r.None? <==> !Holds(ps, id)
    ensures r.Some? ==> r.value in ps && r.value.id == id
    // the FIRST position with the id
    ensures r.Some? ==> exists i :: 0 <= i < |ps| && ps[i] == r.value && forall j :: 0 <= j < i ==> ps[j].id != id
    decreases |ps|
  {
    if |ps| == 0 then None
    else if ps[0].id == id then Some(ps[0])
    else
      var r := FindPosition(ps[1..], id);
      assert Holds(ps, id) ==> Holds(ps[1..], id) by {
        if Holds(ps, id) {
          var i :| 0 <= i < |ps| && ps[i].id == id;
          assert ps[1..][i - 1].id == id;
        }
      }
      assert r.Some? ==> exists i :: 0 <= i < |ps| && ps[i] == r.value && forall j :: 0 <= j < i ==> ps[j].id != id by {
        if r.Some? {
          var k :| 0 <= k < |ps[1..]| && ps[1..][k] == r.value && forall j :: 0 <= j < k ==> ps[1..][j].id != id;
          assert ps[k + 1] == r.value;
          forall j | 0 <= j < k + 1 ensures ps[j].id != id {
            if j > 0 { assert ps[j] == ps[1..][j - 1]; }
          }
        }
      }
      r
  }

  /** The position `p` holding `amount` at cost basis `avg`, with the four
      derived fields computed at `price`. */
  function Priced(p: Position, amount: real, avg: real, price: real): (r: Position)
    requires avg != 0.0
    ensures Valued(r)
    ensures r.id == p.id && r.symbol == p.symbol && r.name == p.name
    ensures r.amount == amount && r.averagePrice == avg && r.currentPrice == price
  {
    p.(amount := amount, averagePrice := avg, currentPrice := price,
       totalValue := amount * price,
       profitLoss := amount * price - amount * avg,
       profitLossPercentage := (price - avg) / avg * 100.0)
  }

  /** The cost basis after adding `amount` bought at `price` to `oldAmount`
      held at `oldAvg`. */
  function WeightedAverage(oldAmount: real, oldAvg: real, amount: real, price: real): (r: real)
    requires oldAmount >= 0.0 && oldAvg > 0.0 && amount > 0.0 && price > 0.0
    ensures r * (oldAmount + amount) == oldAmount * oldAvg + amount * price
    ensures r > 0.0
  {
    assert oldAmount * oldAvg >= 0.0;
    assert amount * price > 0.0;
    (oldAmount * oldAvg + amount * price) / (oldAmount + amount)
  }

  /** The new cost basis lies between the old one and the purchase price. */
  lemma WeightedAverageBetween(oldAmount: real, oldAvg: real, amount: real, price: real)
    requires oldAmount >= 0.0 && oldAvg > 0.0 && amount > 0.0 && price > 0.0
    ensures var r := WeightedAverage(oldAmount, oldAvg, amount, price);
      (oldAvg <= price ==> oldAvg <= r <= price) && (price <= oldAvg ==> price <= r <= oldAvg)
  {
    var r := WeightedAverage(oldAmount, oldAvg, amount, price);
    var t := oldAmount + amount;
    assert r * t == oldAmount * oldAvg + amount * price;
    if oldAvg <= price {
      assert oldAmount * oldAvg + amount * price >= t * oldAvg;
      assert oldAmount * oldAvg + amount * price <= t * price;
    } else {
      assert oldAmount * oldAvg + amount * price <= t * oldAvg;
      assert oldAmount * oldAvg + amount * price >= t * price;
    }
  }

  /** The `portfolio.map(...)` of a merge: every position with the id is
      replaced by the merged one, every other position is kept. */
  function MergeAll(ps: seq<Position>, id: string, amount: real, avg: real, price: real): (r: seq<Position>)
    requires avg != 0.0
    ensures |r| == |ps|
    ensures forall i :: 0 <= i < |ps| && ps[i].id != id ==> r[i] == ps[i]
    ensures forall i :: 0 <= i < |ps| && ps[i].id == id ==>
      r[i].id == id && r[i].symbol == ps[i].symbol && r[i].name == ps[i].name &&
      r[i].amount == amount && r[i].averagePrice == avg && r[i].currentPrice == price && Valued(r[i])
    decreases |ps|
  {
    if |ps| == 0 then []
    else
      var head := if ps[0].id == id then Priced(ps[0], amount, avg, price) else ps[0];
      [head] + MergeAll(ps[1..], id, amount, avg, price)
  }

  /** A buy may be merged: every position of that coin has a non-negative
      amount and a positive cost basis, so the new average is well defined. */
  predicate Mergeable(ps: seq<Position>, id: string) {
    forall i :: 0 <= i < |ps| && ps[i].id == id ==> ps[i].amount >= 0.0 && ps[i].averagePrice > 0.0
  }

  /** Every position has a non-negative amount and a positive cost basis:
      any coin may be bought (weaker than `WellFormed`). */
  predicate CostBasisPositive(ps: seq<Position>) {
    forall i :: 0 <= i < |ps| ==> ps[i].amount >= 0.0 && ps[i].averagePrice > 0.0
  }

  /** `addToPortfolio(crypto, amount, price)`. */
  function Buy(ps: seq<Position>, coin: Coin, amount: real, price: real): (r: seq<Position>)
    requires amount > 0.0 && price > 0.0
    requires Mergeable(ps, coin.id)
    // a first purchase appends exactly one position
    ensures !Holds(ps, coin.id) ==>
      && |r| == |ps| + 1 && r[..|ps|] == ps
      && r[|ps|].id == coin.id && r[|ps|].symbol == coin.symbol && r[|ps|].name == coin.name
      && r[|ps|].amount == amount && r[|ps|].averagePrice == price
      && r[|ps|].currentPrice == coin.currentPrice && Valued(r[|ps|])
    // a further purchase merges into the existing position, nothing else changes
    ensures Holds(ps, coin.id) ==>
      && |r| == |ps|
      && var prev := FindPosition(ps, coin.id).value;
      forall i :: 0 <= i < |ps| ==>
        if ps[i].id != coin.id then r[i] == ps[i]
        else
          && r[i].id == ps[i].id && r[i].symbol == ps[i].symbol && r[i].name == ps[i].name
          && r[i].amount == prev.amount + amount
          && r[i].averagePrice == WeightedAverage(prev.amount, prev.averagePrice, amount, price)
          && r[i].currentPrice == coin.currentPrice && Valued(r[i])
  {
    match FindPosition(ps, coin.id)
    case None =>
      var blank := Position(coin.id, coin.symbol, coin.name, 0.0, price, 0.0, 0.0, 0.0, 0.0);
      ps + [Priced(blank, amount, price, coin.currentPrice)]
    case Some(prev) =>
      var total := prev.amount + amount;
      var avg := WeightedAverage(prev.amount, prev.averagePrice, amount, price);
      MergeAll(ps, coin.id, total, avg, coin.currentPrice)
  }

  /** Buying keeps every reachable portfolio well formed. */
  lemma BuyKeepsWellFormed(ps: seq<Position>, coin: Coin, amount: real, price: real)
    requires amount > 0.0 && price > 0.0
    requires WellFormed(ps)
    ensures Mergeable(ps, coin.id)
    ensures WellFormed(Buy(ps, coin, amount, price))
  {
    var r := Buy(ps, coin, amount, price);
    if !Holds(ps, coin.id) {
      forall i, j | 0 <= i < j < |r| ensures r[i].id != r[j].id {
        if j == |ps| {
          assert r[i] == ps[i];
        } else {
          assert r[i] == ps[i] && r[j] == ps[j];
        }
      }
    } else {
      var prev := FindPosition(ps, coin.id).value;
      assert prev.amount > 0.0;
      forall i | 0 <= i < |r| ensures r[i].amount > 0.0 && r[i].averagePrice > 0.0 {
        if ps[i].id == coin.id {
          assert r[i].averagePrice * r[i].amount > 0.0;
        }
      }
    }
  }

  /** The predicate of `portfolio.filter(item => item.id !== id)`. */
  function Keeps(id: string): Position -> bool {
    (p: Position) => p.id != id
  }

  /** `removeFromPortfolio(id)`: exactly the positions of that coin go, the
      others stay in order. */
  function Remove(ps: seq<Position>, id: string): (r: seq<Position>)
    ensures !Holds(r, id)
    ensures forall p :: p in ps && p.id != id ==> p in r
    ensures forall p :: p in r ==> p in ps
    ensures IsSubsequence(r, ps)
    // every other position keeps all its copies
    ensures forall p: Position :: p.id != id ==> multiset(r)[p] == multiset(ps)[p]
  {
    var r := Filter(ps, Keeps(id));
    forall p: Position | p.id != id ensures multiset(r)[p] == multiset(ps)[p] {
      if p in ps {
        var i :| 0 <= i < |ps| && ps[i] == p;
      }
    }
    forall p | p in ps && p.id != id ensures p in r {
      var i :| 0 <= i < |ps| && ps[i] == p;
    }
    r
  }

  /** Prepending a sound position whose coin is not yet held keeps a
      portfolio well formed. */
  lemma ConsWellFormed(p: Position, rest: seq<Position>)
    requires WellFormed(rest)
    requires p.amount > 0.0 && p.averagePrice > 0.0 && Valued(p)
    requires forall q :: q in rest ==> q.id != p.id
    ensures WellFormed([p] + rest)
  {
    var r := [p] + rest;
    forall i, j | 0 <= i < j < |r| ensures r[i].id != r[j].id {
      assert r[j] == rest[j - 1];
      if i > 0 {
        assert r[i] == rest[i - 1];
      } else {
        assert rest[j - 1] in rest;
      }
    }
    forall i | 0 <= i < |r| ensures r[i].amount > 0.0 && r[i].averagePrice > 0.0 && Valued(r[i]) {
      if i > 0 {
        assert r[i] == rest[i - 1];
      }
    }
  }

  /** Removing keeps a portfolio well formed. */
  lemma {:induction false} RemoveKeepsWellFormed(ps: seq<Position>, id: string)
    requires WellFormed(ps)
    ensures WellFormed(Remove(ps, id))
    decreases |ps|
  {
    if |ps| > 0 {
      assert WellFormed(ps[1..]);
      RemoveKeepsWellFormed(ps[1..], id);
      var rest := Remove(ps[1..], id);
      assert Remove(ps, id) == Filter(ps, Keeps(id));
      assert ps == [ps[0]] + ps[1..];
      if ps[0].id != id {
        assert Remove(ps, id) == [ps[0]] + rest;
        forall p | p in rest ensures p.id != ps[0].id {
          var j :| 0 <= j < |ps[1..]| && ps[1..][j] == p;
          assert ps[j + 1] == p;
        }
        ConsWellFormed(ps[0], rest);
      } else {
        assert Remove(ps, id) == rest;
      }
    }
  }

  /** Positions of coins present in the snapshot can be revalued: their cost
      basis is non-zero (the division by it is defined). */
  ghost predicate Revaluable(ps: seq<Position>, feed: seq<Coin>) {
    forall i :: 0 <= i < |ps| && Listed(feed, ps[i].id) ==> ps[i].averagePrice != 0.0
  }

  /** One step of `updatePortfolio`: the position revalued at its coin's
      first price in the snapshot, or unchanged when the coin is absent. */
  function RevalueOne(p: Position, feed: seq<Coin>): (r: Position)
    requires Listed(feed, p.id) ==> p.averagePrice != 0.0
    ensures r.id == p.id && r.symbol == p.symbol && r.name == p.name
    ensures r.amount == p.amount && r.averagePrice == p.averagePrice
    ensures FindCoin(feed, p.id).None? ==> r == p
    ensures FindCoin(feed, p.id).Some? ==> r.currentPrice == FindCoin(feed, p.id).value.currentPrice && Valued(r)
  {
    match FindCoin(feed, p.id)
    case None => p
    case Some(c) => Priced(p, p.amount, p.averagePrice, c.currentPrice)
  }

  /** `updatePortfolio` over the snapshot `feed`. */
  function Revalue(ps: seq<Position>, feed: seq<Coin>): (r: seq<Position>)
    requires Revaluable(ps, feed)
    ensures |r| == |ps|
    ensures forall i :: 0 <= i < |ps| ==>
      && r[i].id == ps[i].id && r[i].symbol == ps[i].symbol && r[i].name == ps[i].name
      && r[i].amount == ps[i].amount && r[i].averagePrice == ps[i].averagePrice
    ensures forall i :: 0 <= i < |ps| ==>
      match FindCoin(feed, ps[i].id)
      case None => r[i] == ps[i]
      case Some(c) => r[i].currentPrice == c.currentPrice && Valued(r[i])
    decreases |ps|
  {
    if |ps| == 0 then []
    else
      assert Revaluable(ps[1..], feed) by {
        forall i | 0 <= i < |ps[1..]| && Listed(feed, ps[1..][i].id) ensures ps[1..][i].averagePrice != 0.0 {
          assert ps[1..][i] == ps[i + 1];
        }
      }
      [RevalueOne(ps[0], feed)] + Revalue(ps[1..], feed)
  }

  /** A second revaluation with the same snapshot changes nothing. */
  lemma {:induction false} RevalueIdempotent(ps: seq<Position>, feed: seq<Coin>)
    requires Revaluable(ps, feed)
    ensures Revaluable(Revalue(ps, feed), feed)
    ensures Revalue(Revalue(ps, feed), feed) == Revalue(ps, feed)
    decreases |ps|
  {
    var r := Revalue(ps, feed);
    assert Revaluable(r, feed);
    if |ps| > 0 {
      assert Revaluable(ps[1..], feed) by {
        forall i | 0 <= i < |ps[1..]| && Listed(feed, ps[1..][i].id) ensures ps[1..][i].averagePrice != 0.0 {
          assert ps[1..][i] == ps[i + 1];
        }
      }
      RevalueIdempotent(ps[1..], feed);
      assert r[1..] == Revalue(ps[1..], feed);
      assert RevalueOne(r[0], feed) == r[0];
    }
  }

  /** Revaluation keeps a portfolio well formed. */
  lemma RevalueKeepsWellFormed(ps: seq<Position>, feed: seq<Coin>)
    requires WellFormed(ps)
    ensures Revaluable(ps, feed)
    ensures WellFormed(Revalue(ps, feed))
  {
    var r := Revalue(ps, feed);
    forall i | 0 <= i < |r| ensures Valued(r[i]) {
      match FindCoin(feed, ps[i].id)
      case None =>
      case Some(c) =>
    }
  }

  /** 1 unit at 100 then 1 unit at 200 of the same coin: 2 units at 150. */
  lemma WeightedAverageExample(coin: Coin)
    ensures var once := Buy([], coin, 1.0, 100.0);
      && |once| == 1 && once[0].amount == 1.0 && once[0].averagePrice == 100.0
      && var twice := Buy(once, coin, 1.0, 200.0);
      |twice| == 1 && twice[0].amount == 2.0 && twice[0].averagePrice == 150.0
  {
    var once := Buy([], coin, 1.0, 100.0);
    assert !Holds([], coin.id);
    assert Holds(once, coin.id) by { assert once[0].id == coin.id; }
    var twice := Buy(once, coin, 1.0, 200.0);
    assert twice[0].averagePrice * 2.0 == 300.0;
  }

  /** Buy 0.5 ETH at 2000, then the feed reports 2500: value 1250, profit
      250, return 25%. */
  lemma FirstBuyThenRevalueExample(eth: Coin, later: Coin)
    requires later.id == eth.id && later.currentPrice == 2500.0
    ensures var ps := Revalue(Buy([], eth, 0.5, 2000.0), [later]);
      && |ps| == 1 && ps[0].amount == 0.5 && ps[0].averagePrice == 2000.0
      && ps[0].totalValue == 1250.0 && ps[0].profitLoss == 250.0 && ps[0].profitLossPercentage == 25.0
  {
    var bought := Buy([], eth, 0.5, 2000.0);
    assert !Holds([], eth.id);
    assert Listed([later], eth.id) by { assert [later][0].id == eth.id; }
    assert FindCoin([later], bought[0].id) == Some(later);
  }
}
