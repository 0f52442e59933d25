/**
 * Price alerts (components/crypto/PriceAlerts.tsx): the rule that fires an alert against the
 * current prices, the rewrite of a fired alert, and the add and delete operations on the
 * user's alerts collection (keyed by document id). Failed database writes are arguments.
 */
module PriceAlerts {
  import opened Options
  import opened CryptoTypes

  /** The condition of the alert effect: active, priced, and the price at or past the target. */
  predicate ShouldTrigger(alert: PriceAlert, cryptoData: seq<CryptoAsset>) {
    && alert.isActive
    && Find(cryptoData, alert.assetId).Some?
    && var price := Find(cryptoData, alert.assetId).value.currentPrice;
       || (alert.condition == Above && price >= alert.targetPrice)
       || (alert.condition == Below && price <= alert.targetPrice)
  }

  /** `{...alert, isActive: false, triggeredAt: now}`. */
  function Triggered(alert: PriceAlert, now: string): (r: PriceAlert)
    ensures !r.isActive && r.triggeredAt == Some(now)
    ensures r.(isActive := alert.isActive, triggeredAt := alert.triggeredAt) == alert
  {
    alert.(isActive := false, triggeredAt := Some(now))
  }

  /** Both comparisons include the target: an alert fires when the price equals it. */
  lemma {:induction false} TriggerAtTarget(alert: PriceAlert, cryptoData: seq<CryptoAsset>)
    requires alert.isActive
    requires Find(cryptoData, alert.assetId).Some?
    requires Find(cryptoData, alert.assetId).value.currentPrice == alert.targetPrice
    ensures ShouldTrigger(alert, cryptoData)
  {
  }

  /** A fired alert is inactive, so it never fires again, whatever the prices do. */
  lemma {:induction false} TriggeredNeverFiresAgain(alert: PriceAlert, now: string, cryptoData: seq<CryptoAsset>)
    ensures !ShouldTrigger(Triggered(alert, now), cryptoData)
  {
  }

  /** An alert whose asset has no price entry never fires. */
  lemma {:induction false} UnpricedNeverFires(alert: PriceAlert, cryptoData: seq<CryptoAsset>)
    requires forall k :: 0 <= k < |cryptoData| ==> cryptoData[k].id != alert.assetId
    ensures !ShouldTrigger(alert, cryptoData)
  {
  }

  /**
   * The collection after the alert effect has walked `list`: each alert of the list that should
   * fire, and whose write does not fail, is written back fired.
   */
  function ApplyTriggers(alerts: map<string, PriceAlert>, list: seq<PriceAlert>, cryptoData: seq<CryptoAsset>,
                         now: string, failing: set<string>): map<string, PriceAlert>
  {
    if list == [] then alerts
    else
      var before := ApplyTriggers(alerts, list[..|list| - 1], cryptoData, now, failing);
      var a := list[|list| - 1];
      if ShouldTrigger(a, cryptoData) && a.id !in failing then before[a.id := Triggered(a, now)] else before
  }

  /** An alert that is not in the walked list keeps its document. */
  lemma {:induction false} ApplyTriggersLeavesOthers(alerts: map<string, PriceAlert>, list: seq<PriceAlert>,
                                                     cryptoData: seq<CryptoAsset>, now: string, failing: set<string>, id: string)
    requires forall k :: 0 <= k < |list| ==> list[k].id != id
    ensures var after := ApplyTriggers(alerts, list, cryptoData, now, failing);
            (id in after <==> id in alerts) && (id in alerts ==> after[id] == alerts[id])
  {
    if list != [] {
      ApplyTriggersLeavesOthers(alerts, list[..|list| - 1], cryptoData, now, failing, id);
    }
  }

  /** An alert of the list that should fire, with its write succeeding, ends up fired. */
  lemma {:induction false} ApplyTriggersFires(alerts: map<string, PriceAlert>, list: seq<PriceAlert>,
                                              cryptoData: seq<CryptoAsset>, now: string, failing: set<string>, k: int)
    requires 0 <= k < |list|
    requires forall i, j :: 0 <= i < j < |list| ==> list[i].id != list[j].id
    requires ShouldTrigger(list[k], cryptoData) && list[k].id !in failing
    ensures var after := ApplyTriggers(alerts, list, cryptoData, now, failing);
            list[k].id in after && after[list[k].id] == Triggered(list[k], now) && !after[list[k].id].isActive
  {
    var init := list[..|list| - 1];
    if k < |list| - 1 {
      ApplyTriggersFires(alerts, init, cryptoData, now, failing, k);
    }
  }

  /**
   * An alert of the list that should not fire, or whose write fails, keeps its document (or
   * stays absent).
   */
  lemma {:induction false} ApplyTriggersKeepsQuiet(alerts: map<string, PriceAlert>, list: seq<PriceAlert>,
                                                   cryptoData: seq<CryptoAsset>, now: string, failing: set<string>, k: int)
    requires 0 <= k < |list|
    requires forall i, j :: 0 <= i < j < |list| ==> list[i].id != list[j].id
    requires !(ShouldTrigger(list[k], cryptoData) && list[k].id !in failing)
    ensures var after := ApplyTriggers(alerts, list, cryptoData, now, failing);
            var id := list[k].id;
            (id in after <==> id in alerts) && (id in alerts ==> after[id] == alerts[id])
  {
    var init := list[..|list| - 1];
    if k < |list| - 1 {
      ApplyTriggersKeepsQuiet(alerts, init, cryptoData, now, failing, k);
    } else {
      ApplyTriggersLeavesOthers(alerts, init, cryptoData, now, failing, list[k].id);
    }
  }

  /** The state of the add-alert form. */
  datatype AlertForm = AlertForm(assetId: string, targetPrice: string, condition: Condition)

  const EmptyForm: AlertForm := AlertForm("", "", Above)

  class AlertBoard {
    const userId: Option<string>
    /** The `users/{userId}/alerts` collection. */
    var alerts: map<string, PriceAlert>
    var form: AlertForm
    var showAddForm: bool

    constructor (userId: Option<string>, alerts: map<string, PriceAlert>)
      ensures this.userId == userId && this.alerts == alerts
      ensures form == EmptyForm && !showAddForm
    {
      this.userId := userId;
      this.alerts := alerts;
      form := EmptyForm;
      showAddForm := false;
    }

    predicate SignedIn()
      reads this
    {
      userId.Some? && userId.value != ""
    }

    /**
     * The alert effect: for each alert of the list the subscription delivered, fires it when it
     * should. `failing` holds the ids whose write fails; `now` is the time written as `triggeredAt`.
     */
    method CheckAlerts(list: seq<PriceAlert>, cryptoData: seq<CryptoAsset>, now: string, failing: set<string>)
      modifies this
      ensures SignedIn() ==> alerts == ApplyTriggers(old(alerts), list, cryptoData, now, failing)
      ensures !SignedIn() ==> alerts == old(alerts)
      ensures form == old(form) && showAddForm == old(showAddForm)
    {
      var i := 0;
      while i < |list|
        invariant 0 <= i <= |list|
        invariant SignedIn() ==> alerts == ApplyTriggers(old(alerts), list[..i], cryptoData, now, failing)
        invariant !SignedIn() ==> alerts == old(alerts)
        invariant form == old(form) && showAddForm == old(showAddForm)
      {
        var alert := list[i];
        assert list[..i + 1][..i] == list[..i];
        if ShouldTrigger(alert, cryptoData) {
          TriggerAlert(alert, now, alert.id in failing);
        }
        i := i + 1;
      }
      assert list[..i] == list;
    }

    /** `triggerAlert(alert, asset)`: overwrites the alert's document with the fired record. */
    method TriggerAlert(alert: PriceAlert, now: string, fails: bool)
      modifies this
      ensures SignedIn() && !fails ==> alerts == old(alerts)[alert.id := Triggered(alert, now)]
      ensures !SignedIn() || fails ==> alerts == old(alerts)
      ensures form == old(form) && showAddForm == old(showAddForm)
    {
      if SignedIn() && !fails {
        alerts := alerts[alert.id := Triggered(alert, now)];
      }
    }

    /**
     * `addAlert()`: `parsedPrice` is `parseFloat` of the typed target, `newId` the id the
     * database assigns and `now` the creation time.
     */
    method AddAlert(cryptoData: seq<CryptoAsset>, parsedPrice: real, newId: string, now: string, fails: bool)
      requires newId !in alerts
      modifies this
      ensures var ok := SignedIn() && old(form).assetId != "" && old(form).targetPrice != ""
                        && Find(cryptoData, old(form).assetId).Some? && !fails;
              && (ok ==> alerts == old(alerts)[newId := PriceAlert(newId, old(form).assetId,
                                                                     Find(cryptoData, old(form).assetId).value.symbol,
                                                                     parsedPrice, old(form).condition, true, now, None)])
              && (ok ==> form == EmptyForm && !showAddForm)
              && (!ok ==> alerts == old(alerts) && form == old(form) && showAddForm == old(showAddForm))
    {
      if !SignedIn() || form.assetId == "" || form.targetPrice == "" {
        return;
      }
      var asset := Find(cryptoData, form.assetId);
      if asset.None? || fails {
        return;
      }
      alerts := alerts[newId := PriceAlert(newId, form.assetId, asset.value.symbol, parsedPrice, form.condition, true, now, None)];
      form := EmptyForm;
      showAddForm := false;
    }

    /** `deleteAlert(alertId)`: deletes that alert's document only. */
    method DeleteAlert(alertId: string, fails: bool)
      modifies this
      ensures SignedIn() && !fails ==> alerts == old(alerts) - {alertId}
      ensures !SignedIn() || fails ==> alerts == old(alerts)
      ensures form == old(form) && showAddForm == old(showAddForm)
    {
      if SignedIn() && !fails {
        alerts := alerts - {alertId};
      }
    }
  }
}
