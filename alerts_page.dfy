/** The driver app's alerts page (driver-app/src/app/alerts/alerts.page.ts):
    the back end's anomalies as unread alerts. */
module AlertsPage {
  import opened Common
  import opened FuelService
  import opened DriverAlerts

  class AlertsPage {
    var alerts: seq<LocalAlert>

    constructor()
      ensures alerts == []
    {
      alerts := [];
    }

    /** The callback of `loadAlerts`; `today` is the current date part. */
    method OnAlertsLoaded(data: seq<Option<AnomalyItem>>, today: string)
      modifies this`alerts
      ensures alerts == AnomalyAlerts(data, today)
      ensures forall i :: 0 <= i < |alerts| ==> !alerts[i].read
    {
      AnomalyAlertsAreFilterMap(data, today);
      alerts := AnomalyAlerts(data, today);
    }

    /** `markAlertAsRead` on the alert at `index`. */
    method MarkAlertAsRead(index: nat)
      requires index < |alerts|
      modifies this`alerts
      ensures alerts == MarkRead(old(alerts), index)
      ensures alerts[index].read && |alerts| == |old(alerts)|
    {
      alerts := MarkRead(alerts, index);
    }
  }
}
