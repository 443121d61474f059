/** Price alerts of components/AlertsPage.tsx: a per-alert Active/Inactive
    state machine evaluated against every price snapshot, plus the create,
    toggle and delete actions. */
module Alerts {
  import opened Common
  import opened Market

  datatype Condition = Above | Below

  /** The `PriceAlert` record; `currentPrice` is the last price seen for the coin. */
  datatype Alert = Alert(
    id: string,
    cryptoId: string,
    cryptoName: string,
    cryptoSymbol: string,
    targetPrice: real,
    currentPrice: real,
    condition: Condition,
    isActive: bool,
    createdAt: string)

  /** The price has reached the target in the alert's direction. */
  predicate ConditionMet(a: Alert, price: real) {
    || (a.condition == Above && price >= a.targetPrice)
    || (a.condition == Below && price <= a.targetPrice)
  }

  /** `shouldTrigger`: only an active alert fires. */
  predicate ShouldTrigger(a: Alert, price: real) {
    a.isActive && ConditionMet(a, price)
  }

  /** The fields an evaluation pass never touches. */
  predicate SameIdentity(a: Alert, b: Alert) {
    && a.id == b.id && a.cryptoId == b.cryptoId && a.cryptoName == b.cryptoName
    && a.cryptoSymbol == b.cryptoSymbol && a.targetPrice == b.targetPrice
    && a.condition == b.condition && a.createdAt == b.createdAt
  }

  /** One alert of the evaluation pass. */
  function EvaluateOne(a: Alert, feed: seq<Coin>): (r: Alert)
    ensures SameIdentity(r, a)
    ensures FindCoin(feed, a.cryptoId).None? ==> r == a
    ensures FindCoin(feed, a.cryptoId).Some? ==>
      var price := FindCoin(feed, a.cryptoId).value.currentPrice;
      r.currentPrice == price && (r.isActive <==> a.isActive && !ConditionMet(a, price))
  {
    match FindCoin(feed, a.cryptoId)
    case None => a
    case Some(c) =>
      if ShouldTrigger(a, c.currentPrice) then a.(isActive := false, currentPrice := c.currentPrice)
      else a.(currentPrice := c.currentPrice)
  }

  /** The `alerts.map(...)` of the evaluation effect. */
  function Evaluate(alerts: seq<Alert>, feed: seq<Coin>): (r: seq<Alert>)
    ensures |r| == |alerts|
    ensures forall i :: 0 <= i < |alerts| ==> SameIdentity(r[i], alerts[i])
    // an alert for a coin missing from the snapshot is left as it is
    ensures forall i :: 0 <= i < |alerts| && !Listed(feed, alerts[i].cryptoId) ==> r[i] == alerts[i]
    // an alert for a listed coin sees the new price and goes off exactly when it triggers
    ensures forall i :: 0 <= i < |alerts| && Listed(feed, alerts[i].cryptoId) ==>
      var price := FindCoin(feed, alerts[i].cryptoId).value.currentPrice;
      r[i].currentPrice == price && (r[i].isActive <==> alerts[i].isActive && !ConditionMet(alerts[i], price))
    // evaluation never re-activates an alert
    ensures forall i :: 0 <= i < |alerts| && r[i].isActive ==> alerts[i].isActive
    decreases |alerts|
  {
    if |alerts| == 0 then []
    else [EvaluateOne(alerts[0], feed)] + Evaluate(alerts[1..], feed)
  }

  /** A second pass over the same snapshot changes nothing. */
  lemma {:induction false} EvaluateIdempotent(alerts: seq<Alert>, feed: seq<Coin>)
    ensures Evaluate(Evaluate(alerts, feed), feed) == Evaluate(alerts, feed)
    decreases |alerts|
  {
    if |alerts| > 0 {
      EvaluateIdempotent(alerts[1..], feed);
      var a := EvaluateOne(alerts[0], feed);
      assert EvaluateOne(a, feed) == a;
    }
  }

  /** The alerts that fire (and are announced) in a pass over `feed`. */
  function Fired(alerts: seq<Alert>, feed: seq<Coin>): (r: seq<Alert>)
    ensures forall i :: 0 <= i < |r| ==>
      r[i] in alerts && r[i].isActive && Listed(feed, r[i].cryptoId)
      && ConditionMet(r[i], FindCoin(feed, r[i].cryptoId).value.currentPrice)
    ensures IsSubsequence(r, alerts)
    // every alert that fires is announced
    ensures forall i ::
      (&& 0 <= i < |alerts| && alerts[i].isActive && Listed(feed, alerts[i].cryptoId)
       && ConditionMet(alerts[i], FindCoin(feed, alerts[i].cryptoId).value.currentPrice))
      ==> alerts[i] in r
    // one announcement per firing element, copies included
    ensures forall i ::
      (&& 0 <= i < |alerts| && alerts[i].isActive && Listed(feed, alerts[i].cryptoId)
       && ConditionMet(alerts[i], FindCoin(feed, alerts[i].cryptoId).value.currentPrice))
      ==> multiset(r)[alerts[i]] == multiset(alerts)[alerts[i]]
  {
    Filter(alerts, (a: Alert) =>
      FindCoin(feed, a.cryptoId).Some? && ShouldTrigger(a, FindCoin(feed, a.cryptoId).value.currentPrice))
  }

  /** No alert fires twice: after one pass, the same snapshot fires nothing. */
  lemma NoRefire(alerts: seq<Alert>, feed: seq<Coin>)
    ensures |Fired(Evaluate(alerts, feed), feed)| == 0
  {
  }

  /** What the evaluation effect does: `Some(updated)` when it saves a changed
      list, `None` when it saves nothing. */
  function CheckAlerts(alerts: seq<Alert>, feed: seq<Coin>): (r: Option<seq<Alert>>)
    ensures |alerts| == 0 || |feed| == 0 ==> r.None?
    // a save carries the evaluated list, and happens exactly when evaluation changed something
    ensures r.Some? ==> r.value == Evaluate(alerts, feed) && r.value != alerts
    ensures |alerts| > 0 && |feed| > 0 && Evaluate(alerts, feed) != alerts ==> r.Some?
  {
    if |alerts| > 0 && |feed| > 0 then
      var updated := Evaluate(alerts, feed);
      if updated != alerts then Some(updated) else None
    else None
  }

  /** The effect re-runs after its own save and then saves nothing: the
      reactive loop stops after at most one write. */
  lemma CheckAlertsSettles(alerts: seq<Alert>, feed: seq<Coin>)
    ensures CheckAlerts(alerts, feed).Some? ==> CheckAlerts(CheckAlerts(alerts, feed).value, feed).None?
  {
    EvaluateIdempotent(alerts, feed);
  }

  /** The warning triangle of an alert card: its stored price meets the condition. */
  predicate IndicatorShown(a: Alert) {
    ConditionMet(a, a.currentPrice)
  }

  /** After a pass, an alert for a listed coin shows the triangle exactly when
      the snapshot price meets its condition, and then it is inactive. */
  lemma IndicatorAfterEvaluate(alerts: seq<Alert>, feed: seq<Coin>, i: int)
    requires 0 <= i < |alerts| && Listed(feed, alerts[i].cryptoId)
    ensures var r := Evaluate(alerts, feed);
      (IndicatorShown(r[i]) <==> ConditionMet(alerts[i], FindCoin(feed, alerts[i].cryptoId).value.currentPrice))
      && (IndicatorShown(r[i]) ==> !r[i].isActive)
  {
  }

  datatype AlertError = SignInRequired | MissingFields

  /** `createAlert`: needs a user, a coin of the snapshot and a non-empty
      target field; the target's sign is not checked. `target` is `None` for
      an empty field. */
  function Create(alerts: seq<Alert>, signedIn: bool, feed: seq<Coin>, selectedId: string,
                  target: Option<real>, condition: Condition, newId: string, createdAt: string)
    : (r: Result<seq<Alert>, AlertError>)
    ensures !signedIn <==> r == Failure(SignInRequired)
    ensures r == Failure(MissingFields) <==> signedIn && (!Listed(feed, selectedId) || target.None?)
    ensures r.Success? ==>
      && |r.value| == |alerts| + 1 && r.value[..|alerts|] == alerts
      && var a := r.value[|alerts|];
      var c := FindCoin(feed, selectedId).value;
      && a.id == newId && a.cryptoId == selectedId && a.cryptoName == c.name && a.cryptoSymbol == c.symbol
      && a.targetPrice == target.value && a.currentPrice == c.currentPrice
      && a.condition == condition && a.isActive && a.createdAt == createdAt
  {
    if !signedIn then Failure(SignInRequired)
    else
      match FindCoin(feed, selectedId)
      case None => Failure(MissingFields)
      case Some(c) =>
        if target.None? then Failure(MissingFields)
        else
          var a := Alert(newId, c.id, c.name, c.symbol, target.value, c.currentPrice, condition, true, createdAt);
          Success(alerts + [a])
  }

  /** A target of zero or below is accepted. */
  lemma CreateAcceptsNonPositiveTarget(alerts: seq<Alert>, c: Coin, t: real)
    requires t <= 0.0
    ensures Create(alerts, true, [c], c.id, Some(t), Above, "a1", "now").Success?
  {
    assert Listed([c], c.id) by { assert [c][0].id == c.id; }
  }

  /** `toggleAlert`: flips `isActive` of the alerts with that id only. */
  function Toggle(alerts: seq<Alert>, id: string): (r: seq<Alert>)
    ensures |r| == |alerts|
    ensures forall i :: 0 <= i < |alerts| ==>
      && SameIdentity(r[i], alerts[i]) && r[i].currentPrice == alerts[i].currentPrice
      && (r[i].isActive <==> (if alerts[i].id == id then !alerts[i].isActive else alerts[i].isActive))
    decreases |alerts|
  {
    if |alerts| == 0 then []
    else
      var head := if alerts[0].id == id then alerts[0].(isActive := !alerts[0].isActive) else alerts[0];
      [head] + Toggle(alerts[1..], id)
  }

  /** Toggling twice restores the list. */
  lemma ToggleTwice(alerts: seq<Alert>, id: string)
    ensures Toggle(Toggle(alerts, id), id) == alerts
  {
    var r := Toggle(Toggle(alerts, id), id);
    assert forall i :: 0 <= i < |alerts| ==> r[i] == alerts[i];
  }

  /** `deleteAlert`: exactly the alerts with that id go, the rest keep their order. */
  function Delete(alerts: seq<Alert>, id: string): (r: seq<Alert>)
    ensures forall a :: a in r ==> a in alerts && a.id != id
    ensures forall a :: a in alerts && a.id != id ==> a in r
    ensures IsSubsequence(r, alerts)
    // every other alert keeps all its copies
    ensures forall a: Alert :: a.id != id ==> multiset(r)[a] == multiset(alerts)[a]
  {
    var r := Filter(alerts, (a: Alert) => a.id != id);
    forall a: Alert | a.id != id ensures multiset(r)[a] == multiset(alerts)[a] {
      if a in alerts {
        var i :| 0 <= i < |alerts| && alerts[i] == a;
      }
    }
    forall a | a in alerts && a.id != id ensures a in r {
      var i :| 0 <= i < |alerts| && alerts[i] == a;
    }
    r
  }

  function BitcoinAt(price: real): Coin {
    Coin("bitcoin", "btc", "Bitcoin", price, 0.0, 1, 0.0, 0.0)
  }

  /** An `above 100` alert watching prices 90, 95, 105, 110 goes off once,
      at 105, and stays off at 110. */
  lemma AboveScenario(a: Alert)
    requires a.cryptoId == "bitcoin" && a.condition == Above && a.targetPrice == 100.0 && a.isActive
    ensures var s1 := Evaluate([a], [BitcoinAt(90.0)]);
      var s2 := Evaluate(s1, [BitcoinAt(95.0)]);
      var s3 := Evaluate(s2, [BitcoinAt(105.0)]);
      var s4 := Evaluate(s3, [BitcoinAt(110.0)]);
      && s1[0].isActive && s2[0].isActive && !s3[0].isActive && !s4[0].isActive
      && |Fired([a], [BitcoinAt(90.0)])| == 0 && |Fired(s1, [BitcoinAt(95.0)])| == 0
      && |Fired(s2, [BitcoinAt(105.0)])| == 1 && |Fired(s3, [BitcoinAt(110.0)])| == 0
      && s4[0].currentPrice == 110.0
  {
    forall p: real ensures FindCoin([BitcoinAt(p)], "bitcoin") == Some(BitcoinAt(p)) {
      assert [BitcoinAt(p)][0].id == "bitcoin";
    }
  }

  /** Create a BTC alert above 50000 at 48000; a refresh at 51000 turns it
      off, records 51000 and keeps the target. */
  lemma BitcoinScenario(alerts: seq<Alert>)
    requires forall a :: a in alerts ==> a.cryptoId != "bitcoin"
    ensures var created := Create(alerts, true, [BitcoinAt(48000.0)], "bitcoin", Some(50000.0), Above, "a1", "t0");
      && created.Success?
      && var after := Evaluate(created.value, [BitcoinAt(51000.0)]);
      var a := after[|alerts|];
      && created.value[|alerts|].isActive && created.value[|alerts|].currentPrice == 48000.0
      && !a.isActive && a.currentPrice == 51000.0 && a.targetPrice == 50000.0
  {
    forall p: real ensures FindCoin([BitcoinAt(p)], "bitcoin") == Some(BitcoinAt(p)) {
      assert [BitcoinAt(p)][0].id == "bitcoin";
    }
    var created := Create(alerts, true, [BitcoinAt(48000.0)], "bitcoin", Some(50000.0), Above, "a1", "t0");
    assert Listed([BitcoinAt(51000.0)], "bitcoin") by { assert [BitcoinAt(51000.0)][0].id == "bitcoin"; }
    assert created.value[|alerts|].cryptoId == "bitcoin";
  }
}
