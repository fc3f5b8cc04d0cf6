/** The anomaly list as the driver app shows it. The driver dashboard
    (driver-app/src/app/driver-dashboard/driver-dashboard.page.ts) and the
    alerts page (driver-app/src/app/alerts/alerts.page.ts) both turn the back
    end's anomalies into unread local alerts in the same way. */
module DriverAlerts {
  import opened Common
  import opened FuelService

  /** An anomaly as the back end sends it; a missing description or refuel
      date is "". Fields the pages never read are left out. */
  datatype AnomalyItem = AnomalyItem(description: string, refuelDate: string)

  /** `text.split('T')[0]`: the date part of an ISO timestamp. */
  function DatePart(text: string): (r: string)
    ensures r == Split(text, 'T')[0]
  {
    BeforeFirst(text, 'T')
  }

  /** A date sent as `day + 'T…'` comes back unchanged. */
  lemma DatePartOfStamp(day: string, time: string)
    requires 'T' !in day
    ensures DatePart(day + "T" + time) == day
  {
    var s := day + "T" + time;
    assert s[..|day|] == day;
    BeforeFirstAt(s, 'T', |day|);
  }

  /** The `filter` step: a present item with a non-empty description. A null
      item is `None`. */
  predicate Shown(item: Option<AnomalyItem>) {
    item.Some? && item.value.description != ""
  }

  /** The `map` step; `today` stands for the date part of `new Date().toISOString()`. */
  function ToAlert(item: AnomalyItem, today: string): LocalAlert {
    LocalAlert(item.description, if item.refuelDate != "" then DatePart(item.refuelDate) else today, false)
  }

  function AnomalyAlerts(data: seq<Option<AnomalyItem>>, today: string): seq<LocalAlert>
    decreases |data|
  {
    if data == [] then []
    else (if Shown(data[0]) then [ToAlert(data[0].value, today)] else []) + AnomalyAlerts(data[1..], today)
  }

  /** The alerts are the shown items mapped by `ToAlert`, in order, one each. */
  lemma {:induction false} AnomalyAlertsMap(data: seq<Option<AnomalyItem>>, today: string)
    ensures var shown := Filter(data, Shown);
      var r := AnomalyAlerts(data, today);
      && |r| == |shown|
      && (forall i :: 0 <= i < |r| ==> Shown(shown[i]) && r[i] == ToAlert(shown[i].value, today))
    decreases |data|
  {
    if data != [] {
      var rest := AnomalyAlerts(data[1..], today);
      var shownRest := Filter(data[1..], Shown);
      AnomalyAlertsMap(data[1..], today);
      assert data == [data[0]] + data[1..];
      FilterCons(data[0], data[1..], Shown);
      if Shown(data[0]) {
        var r := [ToAlert(data[0].value, today)] + rest;
        var shown := [data[0]] + shownRest;
        forall i | 0 <= i < |r| ensures Shown(shown[i]) && r[i] == ToAlert(shown[i].value, today) {
          if i > 0 {
            assert r[i] == rest[i - 1] && shown[i] == shownRest[i - 1];
          }
        }
      } else {
        assert [] + rest == rest;
      }
    }
  }

  /** The alerts are the shown items, in order, one each: the description is
      the message, the date is the refuel date's date part or else today, and
      every alert starts unread. */
  lemma {:induction false} AnomalyAlertsAreFilterMap(data: seq<Option<AnomalyItem>>, today: string)
    ensures var shown := Filter(data, Shown);
      var r := AnomalyAlerts(data, today);
      && |r| == |shown|
      && (forall i :: 0 <= i < |r| ==> Shown(shown[i]) && r[i] == ToAlert(shown[i].value, today))
      && (forall i :: 0 <= i < |r| ==> !r[i].read && r[i].message != "")
      && (forall i :: 0 <= i < |r| ==>
            r[i].date == (if shown[i].value.refuelDate != "" then Split(shown[i].value.refuelDate, 'T')[0] else today))
  {
    AnomalyAlertsMap(data, today);
  }

  /** No anomaly with a description means no alert. */
  lemma {:induction false} NoDescriptionNoAlert(data: seq<Option<AnomalyItem>>, today: string)
    requires forall i :: 0 <= i < |data| ==> !Shown(data[i])
    ensures AnomalyAlerts(data, today) == []
    decreases |data|
  {
    if data != [] {
      NoDescriptionNoAlert(data[1..], today);
    }
  }
}
