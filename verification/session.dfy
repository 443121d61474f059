/** The application state of one browser session: the contexts of
    contexts/CryptoContext.tsx and contexts/AuthContext.tsx, the alert list of
    components/AlertsPage.tsx (while that page is open), and the persisted
    copies in the key-value store. Each React effect is an explicit call:
    a completed fetch is `Refresh`, the alert check is `AlertEffect`. */
module Session {
  import opened Common
  import opened Market
  import Watchlist
  import Portfolio
  import Alerts
  import Auth
  import TradingWidget

  /** A value of the store, already deserialised. */
  datatype Stored =
    | UserRecord(user: Auth.User)
    | IdList(ids: seq<string>)
    | Positions(positions: seq<Portfolio.Position>)
    | AlertList(alerts: seq<Alerts.Alert>)

  type Store = map<string, Stored>

  const UserKey: string := "cryptotracker_user"
  const WatchlistKey: string := "cryptotracker_watchlist"
  const PortfolioKey: string := "cryptotracker_portfolio"

  /** Alerts are stored per user; watchlist and portfolio are not. */
  function AlertsKey(userId: string): string {
    "cryptotracker_alerts_" + userId
  }

  /** No per-user alert key coincides with one of the three global keys. */
  lemma AlertsKeyDistinct(userId: string)
    ensures AlertsKey(userId) != UserKey
    ensures AlertsKey(userId) != WatchlistKey
    ensures AlertsKey(userId) != PortfolioKey
  {
    assert AlertsKey(userId)[14] == 'a';
    assert UserKey[14] == 'u' && WatchlistKey[14] == 'w' && PortfolioKey[14] == 'p';
  }

  /** `AlertsKeyDistinct` for every user id at once. */
  lemma AlertsKeysDistinct()
    ensures forall userId :: AlertsKey(userId) != UserKey && AlertsKey(userId) != WatchlistKey
                             && AlertsKey(userId) != PortfolioKey
  {
    forall userId ensures AlertsKey(userId) != UserKey && AlertsKey(userId) != WatchlistKey
                          && AlertsKey(userId) != PortfolioKey {
      AlertsKeyDistinct(userId);
    }
  }

  datatype State = State(
    user: Option<Auth.User>,
    feed: seq<Coin>,
    watchlist: seq<string>,
    portfolio: seq<Portfolio.Position>,
    alerts: seq<Alerts.Alert>,
    store: Store)

  /** What every action keeps: the portfolio invariant. */
  predicate Inv(s: State) {
    Portfolio.WellFormed(s.portfolio)
  }

  /** `addToWatchlist`: a new id is appended and the list written back. */
  function AddToWatchlist(s: State, id: string): (r: State)
    ensures id in s.watchlist ==> r == s
    ensures id !in s.watchlist ==>
      && r.watchlist == s.watchlist + [id]
      && r.store == s.store[WatchlistKey := IdList(r.watchlist)]
      && r == s.(watchlist := r.watchlist, store := r.store)
  {
    if id in s.watchlist then s
    else
      var w := Watchlist.Add(s.watchlist, id);
      s.(watchlist := w, store := s.store[WatchlistKey := IdList(w)])
  }

  /** `removeFromWatchlist`: the filtered list is written back even when
      nothing was removed. */
  function RemoveFromWatchlist(s: State, id: string): (r: State)
    ensures id !in r.watchlist
    ensures forall x :: x != id ==> (x in r.watchlist <==> x in s.watchlist)
    ensures r.watchlist == Watchlist.Remove(s.watchlist, id)
    ensures r.store == s.store[WatchlistKey := IdList(r.watchlist)]
    ensures r == s.(watchlist := r.watchlist, store := r.store)
  {
    var w := Watchlist.Remove(s.watchlist, id);
    s.(watchlist := w, store := s.store[WatchlistKey := IdList(w)])
  }

  /** Submitting the trade form. Only a valid buy touches the portfolio and
      the store. */
  function Trade(s: State, selectedId: string, amount: Option<real>, price: Option<real>,
                 kind: TradingWidget.TradeType): (r: State)
    requires Portfolio.CostBasisPositive(s.portfolio)
    ensures var v := TradingWidget.Validate(s.user.Some?, s.feed, selectedId, amount, price, kind);
      if v.Success? && kind == TradingWidget.BuyOrder then
        && r.portfolio == Portfolio.Buy(s.portfolio, v.value.coin, v.value.amount, v.value.price)
        && r.store == s.store[PortfolioKey := Positions(r.portfolio)]
        && r == s.(portfolio := r.portfolio, store := r.store)
      else r == s
  {
    var v := TradingWidget.Validate(s.user.Some?, s.feed, selectedId, amount, price, kind);
    if v.Success? && kind == TradingWidget.BuyOrder then
      var ps := TradingWidget.HandleTrade(s.portfolio, s.user.Some?, s.feed, selectedId, amount, price, kind);
      s.(portfolio := ps, store := s.store[PortfolioKey := Positions(ps)])
    else s
  }

  /** `removeFromPortfolio`. */
  function RemovePosition(s: State, id: string): (r: State)
    ensures !Portfolio.Holds(r.portfolio, id)
    ensures r.portfolio == Portfolio.Remove(s.portfolio, id)
    ensures r.store == s.store[PortfolioKey := Positions(r.portfolio)]
    ensures r == s.(portfolio := r.portfolio, store := r.store)
  {
    var ps := Portfolio.Remove(s.portfolio, id);
    s.(portfolio := ps, store := s.store[PortfolioKey := Positions(ps)])
  }

  /** `updatePortfolio` as run by the effect on a new snapshot: an empty
      portfolio is neither revalued nor written. */
  function PortfolioEffect(s: State): (r: State)
    requires Portfolio.Revaluable(s.portfolio, s.feed)
    ensures |s.portfolio| == 0 ==> r == s
    ensures |s.portfolio| > 0 ==>
      && r.portfolio == Portfolio.Revalue(s.portfolio, s.feed)
      && r.store == s.store[PortfolioKey := Positions(r.portfolio)]
      && r == s.(portfolio := r.portfolio, store := r.store)
  {
    if |s.portfolio| > 0 then
      var ps := Portfolio.Revalue(s.portfolio, s.feed);
      s.(portfolio := ps, store := s.store[PortfolioKey := Positions(ps)])
    else s
  }

  /** `saveAlerts`: without a user nothing at all happens. */
  function SaveAlerts(s: State, alerts: seq<Alerts.Alert>): (r: State)
    ensures s.user.None? ==> r == s
    ensures s.user.Some? ==>
      && r.alerts == alerts
      && r.store == s.store[AlertsKey(s.user.value.id) := AlertList(alerts)]
      && r == s.(alerts := r.alerts, store := r.store)
  {
    match s.user
    case None => s
    case Some(u) => s.(alerts := alerts, store := s.store[AlertsKey(u.id) := AlertList(alerts)])
  }

  /** The alert-check effect, run whenever the snapshot or the alert list changes. */
  function AlertEffect(s: State): (r: State)
    ensures r.user == s.user && r.feed == s.feed && r.watchlist == s.watchlist && r.portfolio == s.portfolio
    ensures s.user.Some? && |s.alerts| > 0 && |s.feed| > 0 ==> r.alerts == Alerts.Evaluate(s.alerts, s.feed)
    ensures s.user.None? || |s.alerts| == 0 || |s.feed| == 0 ==> r == s
    // a changed list is saved under the user's key; an unchanged one writes nothing
    ensures s.user.Some? && r.alerts != s.alerts ==> r.store == s.store[AlertsKey(s.user.value.id) := AlertList(r.alerts)]
    ensures r.alerts == s.alerts ==> r.store == s.store
  {
    match Alerts.CheckAlerts(s.alerts, s.feed)
    case None => s
    case Some(updated) => SaveAlerts(s, updated)
  }

  /** Once the effect has run, running it again changes nothing: the
      effect-triggers-effect loop stops. */
  lemma AlertEffectSettles(s: State)
    ensures AlertEffect(AlertEffect(s)) == AlertEffect(s)
  {
    Alerts.CheckAlertsSettles(s.alerts, s.feed);
    Alerts.EvaluateIdempotent(s.alerts, s.feed);
  }

  /** A completed fetch: `Some(snapshot)` on success, `None` on failure. A
      success replaces the snapshot whole, then revalues the portfolio and
      checks the alerts; a failure changes nothing. */
  function Refresh(s: State, fetched: Option<seq<Coin>>): (r: State)
    requires fetched.Some? ==> Portfolio.Revaluable(s.portfolio, fetched.value)
    ensures fetched.None? ==> r == s
    ensures fetched.Some? ==>
      && r.feed == fetched.value && r.user == s.user && r.watchlist == s.watchlist
      && (|s.portfolio| > 0 ==> r.portfolio == Portfolio.Revalue(s.portfolio, fetched.value)
                                && PortfolioKey in r.store && r.store[PortfolioKey] == Positions(r.portfolio))
      && (|s.portfolio| == 0 ==> r.portfolio == s.portfolio)
      && (s.user.Some? && |s.alerts| > 0 && |fetched.value| > 0 ==> r.alerts == Alerts.Evaluate(s.alerts, fetched.value))
      && (s.user.None? ==> r.alerts == s.alerts)
      && (s.user.Some? && (|s.alerts| == 0 || |fetched.value| == 0) ==> r.alerts == s.alerts)
      && (s.user.Some? && r.alerts != s.alerts ==>
            AlertsKey(s.user.value.id) in r.store && r.store[AlertsKey(s.user.value.id)] == AlertList(r.alerts))
    // only the portfolio key and the user's alert key may be written
    ensures fetched.Some? ==> forall k :: k != PortfolioKey && (s.user.None? || k != AlertsKey(s.user.value.id)) ==>
      (k in r.store <==> k in s.store) && (k in s.store ==> r.store[k] == s.store[k])
    // an empty portfolio is not written, nor are alerts the pass leaves unchanged
    ensures fetched.Some? && |s.portfolio| == 0 ==>
      (PortfolioKey in r.store <==> PortfolioKey in s.store)
      && (PortfolioKey in s.store ==> r.store[PortfolioKey] == s.store[PortfolioKey])
    ensures fetched.Some? && s.user.Some? && r.alerts == s.alerts ==>
      (AlertsKey(s.user.value.id) in r.store <==> AlertsKey(s.user.value.id) in s.store)
      && (AlertsKey(s.user.value.id) in s.store ==> r.store[AlertsKey(s.user.value.id)] == s.store[AlertsKey(s.user.value.id)])
  {
    match fetched
    case None => s
    case Some(f) =>
      AlertsKeysDistinct();
      AlertEffect(PortfolioEffect(s.(feed := f)))
  }

  /** A refresh keeps the portfolio invariant. */
  lemma RefreshKeepsInv(s: State, f: seq<Coin>)
    requires Inv(s)
    ensures Portfolio.Revaluable(s.portfolio, f)
    ensures Inv(Refresh(s, Some(f)))
  {
    Portfolio.RevalueKeepsWellFormed(s.portfolio, f);
  }

  /** A second delivery of the same snapshot changes nothing. */
  lemma RefreshIdempotent(s: State, f: seq<Coin>)
    requires Inv(s)
    ensures Portfolio.Revaluable(s.portfolio, f)
    ensures Portfolio.Revaluable(Refresh(s, Some(f)).portfolio, f)
    ensures Refresh(Refresh(s, Some(f)), Some(f)) == Refresh(s, Some(f))
  {
    Portfolio.RevalueKeepsWellFormed(s.portfolio, f);
    var r := Refresh(s, Some(f));
    Portfolio.RevalueIdempotent(s.portfolio, f);
    var p := PortfolioEffect(s.(feed := f));
    assert PortfolioEffect(r.(feed := f)) == r;
    AlertEffectSettles(p);
  }

  /** Trading keeps the portfolio invariant. */
  lemma TradeKeepsInv(s: State, selectedId: string, amount: Option<real>, price: Option<real>,
                      kind: TradingWidget.TradeType)
    requires Inv(s)
    ensures Portfolio.CostBasisPositive(s.portfolio)
    ensures Inv(Trade(s, selectedId, amount, price, kind))
  {
    var v := TradingWidget.Validate(s.user.Some?, s.feed, selectedId, amount, price, kind);
    if v.Success? && kind == TradingWidget.BuyOrder {
      Portfolio.BuyKeepsWellFormed(s.portfolio, v.value.coin, v.value.amount, v.value.price);
    }
  }

  /** Removing a position keeps the portfolio invariant. */
  lemma RemovePositionKeepsInv(s: State, id: string)
    requires Inv(s)
    ensures Inv(RemovePosition(s, id))
  {
    Portfolio.RemoveKeepsWellFormed(s.portfolio, id);
  }

  /** A user action on the alert list: `saveAlerts`, then the alert effect
      that the changed list sets off. The stored copy always ends equal to
      the list shown. */
  function Commit(s: State, alerts: seq<Alerts.Alert>): (r: State)
    ensures s.user.None? ==> r == s
    ensures s.user.Some? && |alerts| > 0 && |s.feed| > 0 ==> r.alerts == Alerts.Evaluate(alerts, s.feed)
    ensures s.user.Some? && (|alerts| == 0 || |s.feed| == 0) ==> r.alerts == alerts
    ensures s.user.Some? ==> r.store == s.store[AlertsKey(s.user.value.id) := AlertList(r.alerts)]
    ensures r.user == s.user && r.feed == s.feed && r.watchlist == s.watchlist && r.portfolio == s.portfolio
  {
    AlertEffect(SaveAlerts(s, alerts))
  }

  /** `createAlert`, then the alert effect (which fires the new alert at once
      when the snapshot price already meets its condition). */
  function CreateAlert(s: State, selectedId: string, target: Option<real>, condition: Alerts.Condition,
                       newId: string, createdAt: string): (r: State)
    ensures var c := Alerts.Create(s.alerts, s.user.Some?, s.feed, selectedId, target, condition, newId, createdAt);
      if c.Failure? then r == s
      else
        && s.user.Some?
        && r.alerts == Alerts.Evaluate(c.value, s.feed)
        && r.store == s.store[AlertsKey(s.user.value.id) := AlertList(r.alerts)]
    ensures r.user == s.user && r.feed == s.feed && r.watchlist == s.watchlist && r.portfolio == s.portfolio
  {
    match Alerts.Create(s.alerts, s.user.Some?, s.feed, selectedId, target, condition, newId, createdAt)
    case Failure(_) => s
    case Success(alerts) =>
      assert |s.feed| > 0;
      Commit(s, alerts)
  }

  /** `toggleAlert`, then the alert effect. */
  function ToggleAlert(s: State, alertId: string): (r: State)
    ensures s.user.None? ==> r == s
    ensures s.user.Some? ==>
      && r.alerts == (if |s.alerts| > 0 && |s.feed| > 0 then Alerts.Evaluate(Alerts.Toggle(s.alerts, alertId), s.feed)
                      else Alerts.Toggle(s.alerts, alertId))
      && r.store == s.store[AlertsKey(s.user.value.id) := AlertList(r.alerts)]
    ensures r.user == s.user && r.feed == s.feed && r.watchlist == s.watchlist && r.portfolio == s.portfolio
  {
    Commit(s, Alerts.Toggle(s.alerts, alertId))
  }

  /** Re-activating an alert whose condition holds at the snapshot price makes
      it fire again at once: it ends inactive with that price recorded. */
  lemma ReactivationRefires(s: State, i: int)
    requires s.user.Some? && 0 <= i < |s.alerts| && !s.alerts[i].isActive
    requires Listed(s.feed, s.alerts[i].cryptoId)
    requires Alerts.ConditionMet(s.alerts[i], FindCoin(s.feed, s.alerts[i].cryptoId).value.currentPrice)
    ensures var r := ToggleAlert(s, s.alerts[i].id);
      |r.alerts| == |s.alerts| && !r.alerts[i].isActive
      && r.alerts[i].currentPrice == FindCoin(s.feed, s.alerts[i].cryptoId).value.currentPrice
  {
    var t := Alerts.Toggle(s.alerts, s.alerts[i].id);
    assert t[i].isActive && t[i].cryptoId == s.alerts[i].cryptoId;
    assert |s.feed| > 0;
  }

  /** Evaluation keeps every alert's id, so an id absent before stays absent. */
  lemma EvaluateKeepsAbsentId(alerts: seq<Alerts.Alert>, feed: seq<Coin>, id: string)
    requires forall a :: a in alerts ==> a.id != id
    ensures forall a :: a in Alerts.Evaluate(alerts, feed) ==> a.id != id
  {
    var e := Alerts.Evaluate(alerts, feed);
    forall a | a in e ensures a.id != id {
      var k :| 0 <= k < |e| && e[k] == a;
      assert Alerts.SameIdentity(e[k], alerts[k]);
      assert alerts[k] in alerts;
    }
  }

  /** `deleteAlert`, then the alert effect. */
  function DeleteAlert(s: State, alertId: string): (r: State)
    ensures s.user.None? ==> r == s
    ensures forall a :: a in r.alerts ==> a.id != alertId || s.user.None?
    ensures s.user.Some? ==>
      r.alerts == (var d := Alerts.Delete(s.alerts, alertId);
                   if |d| > 0 && |s.feed| > 0 then Alerts.Evaluate(d, s.feed) else d)
    ensures s.user.Some? ==> r.store == s.store[AlertsKey(s.user.value.id) := AlertList(r.alerts)]
    ensures r.user == s.user && r.feed == s.feed && r.watchlist == s.watchlist && r.portfolio == s.portfolio
  {
    var d := Alerts.Delete(s.alerts, alertId);
    EvaluateKeepsAbsentId(d, s.feed, alertId);
    Commit(s, d)
  }

  /** The alert list of a user who signs in is read from the store (the load
      effect); a missing entry leaves the list as it was. */
  function LoadAlerts(s: State): (r: State)
    ensures r == s.(alerts := r.alerts)
    ensures s.user.Some? && AlertsKey(s.user.value.id) in s.store && s.store[AlertsKey(s.user.value.id)].AlertList? ==>
      r.alerts == s.store[AlertsKey(s.user.value.id)].alerts
    ensures s.user.None? || AlertsKey(s.user.value.id) !in s.store ==> r == s
  {
    match s.user
    case None => s
    case Some(u) =>
      var key := AlertsKey(u.id);
      if key in s.store && s.store[key].AlertList? then s.(alerts := s.store[key].alerts) else s
  }

  /** `signIn`: on success the user is set and stored; a rejection changes nothing. */
  function SignIn(s: State, email: string, password: string, newId: string, now: string): (r: State)
    ensures Auth.SignIn(email, password, newId, now).Failure? ==> r == s
    ensures Auth.SignIn(email, password, newId, now).Success? ==>
      && r.user == Some(Auth.SignIn(email, password, newId, now).value)
      && r.store == s.store[UserKey := UserRecord(r.user.value)]
      && r == s.(user := r.user, store := r.store)
  {
    match Auth.SignIn(email, password, newId, now)
    case Failure(_) => s
    case Success(u) => s.(user := Some(u), store := s.store[UserKey := UserRecord(u)])
  }

  /** `signUp`: as `signIn`, with the display name as given. */
  function SignUp(s: State, email: string, password: string, displayName: string, newId: string, now: string)
    : (r: State)
    ensures Auth.SignUp(email, password, displayName, newId, now).Failure? ==> r == s
    ensures Auth.SignUp(email, password, displayName, newId, now).Success? ==>
      && r.user.Some? && r.user.value.displayName == displayName && r.user.value.email == email
      && r.store == s.store[UserKey := UserRecord(r.user.value)]
      && r == s.(user := r.user, store := r.store)
    // the new account: the generated id and date, no photo
    ensures Auth.SignUp(email, password, displayName, newId, now).Success? ==>
      r.user == Some(Auth.User(newId, email, displayName, None, now))
  {
    match Auth.SignUp(email, password, displayName, newId, now)
    case Failure(_) => s
    case Success(u) => s.(user := Some(u), store := s.store[UserKey := UserRecord(u)])
  }

  /** `signOut`: the user, watchlist and portfolio keys are removed and the
      user cleared. Per-user alert keys stay, and the in-memory watchlist,
      portfolio and snapshot are left as they are. */
  function SignOut(s: State): (r: State)
    ensures r.user.None?
    ensures UserKey !in r.store && WatchlistKey !in r.store && PortfolioKey !in r.store
    ensures forall k :: k in s.store && k != UserKey && k != WatchlistKey && k != PortfolioKey ==>
      k in r.store && r.store[k] == s.store[k]
    ensures forall k :: k in r.store ==> k in s.store
    ensures r.feed == s.feed && r.watchlist == s.watchlist && r.portfolio == s.portfolio && r.alerts == s.alerts
  {
    s.(user := None, store := s.store - {UserKey, WatchlistKey, PortfolioKey})
  }

  /** Signing out keeps every user's stored alerts. */
  lemma SignOutKeepsAlerts(s: State, userId: string)
    requires AlertsKey(userId) in s.store
    ensures AlertsKey(userId) in SignOut(s).store
    ensures SignOut(s).store[AlertsKey(userId)] == s.store[AlertsKey(userId)]
  {
    AlertsKeyDistinct(userId);
  }

  /** `updateProfile`: the merged user is stored; without a user nothing happens. */
  function UpdateProfile(s: State, data: Auth.ProfileUpdate): (r: State)
    ensures s.user.None? ==> r == s
    ensures s.user.Some? ==>
      && r.user == Auth.UpdateProfile(s.user, data)
      && r.store == s.store[UserKey := UserRecord(r.user.value)]
      && r == s.(user := r.user, store := r.store)
  {
    match Auth.UpdateProfile(s.user, data)
    case None => s
    case Some(u) => s.(user := Some(u), store := s.store[UserKey := UserRecord(u)])
  }
}
