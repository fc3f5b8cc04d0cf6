/** The driver app's dashboard page
    (driver-app/src/app/driver-dashboard/driver-dashboard.page.ts): a form that
    registers a refuelling for the driver's vehicle, a form that reports an
    anomaly, the last month's refuellings and the anomaly alerts. */
module DriverDashboard {
  import opened Common
  import opened Http
  import opened FuelService
  import opened DriverAlerts

  /** A refuelling as the back end returns it; the fields the page ignores are left out. */
  datatype FuelDto = FuelDto(id: int, quantity: real, refuelDate: string)

  datatype ConsumptionRecord = ConsumptionRecord(id: int, quantity: real, date: string)

  /** The body of the registration request; `vehicleId` is sent as `vehicle.id`. */
  datatype FuelRequest = FuelRequest(quantity: real, refuelDate: string, vehicleId: int)

  /** The body of the anomaly report. */
  datatype AnomalyReport = AnomalyReport(description: string, kind: string, quantity: real,
                                         vehicleId: int, refuelDate: string)

  const DefaultAnomalyType: string := "Panne"
  /** The time of day appended to the chosen date. */
  const Noon: string := "T12:00:00"
  const QuantityNotice: string := "Veuillez entrer une quantité valide supérieure à 0 !"
  const DescriptionNotice: string := "Veuillez décrire l'anomalie !"

  function ToRecord(d: FuelDto): ConsumptionRecord {
    ConsumptionRecord(d.id, d.quantity, DatePart(d.refuelDate))
  }

  function Records(data: seq<FuelDto>): (r: seq<ConsumptionRecord>)
    ensures |r| == |data|
    ensures forall i :: 0 <= i < |data| ==> r[i].id == data[i].id && r[i].quantity == data[i].quantity
    ensures forall i :: 0 <= i < |data| ==> r[i].date == Split(data[i].refuelDate, 'T')[0]
  {
    seq(|data|, i requires 0 <= i < |data| => ToRecord(data[i]))
  }

  /** The notice an error raises: the body's message, else the error's own. */
  function ErrorNotice(e: HttpError): (r: string)
    ensures r == "Erreur : " + BodyMessage(e.body) || r == "Erreur : " + e.message
    ensures BodyMessage(e.body) != "" ==> r == "Erreur : " + BodyMessage(e.body)
  {
    "Erreur : " + OrElse(BodyMessage(e.body), e.message)
  }

  function HasRecordId(id: int): ConsumptionRecord -> bool {
    (r: ConsumptionRecord) => r.id == id
  }

  /** The success callback of `deleteRecord`: `splice(index, 1)` when found. */
  function RemoveFirst(s: seq<ConsumptionRecord>, id: int): seq<ConsumptionRecord> {
    var k := FirstIndex(s, HasRecordId(id));
    if k == -1 then s else s[..k] + s[k + 1..]
  }

  /** Only the first record with the id goes; the others keep their order; an
      unknown id changes nothing. */
  lemma RemoveFirstSpec(s: seq<ConsumptionRecord>, id: int)
    ensures var r := RemoveFirst(s, id);
      && ((forall j :: 0 <= j < |s| ==> s[j].id != id) ==> r == s)
      && (forall k :: 0 <= k < |s| && s[k].id == id && (forall j :: 0 <= j < k ==> s[j].id != id) ==>
            (|r| == |s| - 1 && r == s[..k] + s[k + 1..] && multiset(r) + multiset{s[k]} == multiset(s)))
  {
    var k := FirstIndex(s, HasRecordId(id));
    if k >= 0 {
      assert s == s[..k] + [s[k]] + s[k + 1..];
      forall k' | 0 <= k' < |s| && s[k'].id == id && (forall j :: 0 <= j < k' ==> s[j].id != id)
        ensures k' == k
      {
      }
    }
  }

  /** The date sent with a registration is the date part of the stamp. */
  lemma NoonStampDate(day: string)
    requires 'T' !in day
    ensures DatePart(day + Noon) == day
  {
    assert day + Noon == day + "T" + "12:00:00";
    DatePartOfStamp(day, "12:00:00");
  }

  class DriverDashboardPage {
    var fuelQuantity: real
    var fuelDate: string
    var isSuccess: bool
    var anomalyMessage: string
    var anomalyType: string
    var anomalySuccess: bool
    var alerts: seq<LocalAlert>
    var consumptionHistory: seq<ConsumptionRecord>
    var vehicleId: int
    /** The browser `alert` pop-ups raised so far. */
    var notices: seq<string>

    /** `today` is the date part of the current ISO date. */
    constructor(today: string)
      ensures fuelQuantity == 0.0 && fuelDate == today && !isSuccess
      ensures anomalyMessage == "" && anomalyType == DefaultAnomalyType && !anomalySuccess
      ensures alerts == [] && consumptionHistory == [] && vehicleId == 1 && notices == []
    {
      fuelQuantity, fuelDate, isSuccess := 0.0, today, false;
      anomalyMessage, anomalyType, anomalySuccess := "", DefaultAnomalyType, false;
      alerts, consumptionHistory, vehicleId, notices := [], [], 1, [];
    }

    /** `recordFuelConsumption`: a valid form with a positive quantity sends the
        quantity, the date at noon and the vehicle; anything else only raises a notice. */
    method RecordFuelConsumption(formValid: bool) returns (req: Option<FuelRequest>)
      modifies this`notices
      ensures formValid && fuelQuantity > 0.0 ==>
        (req == Some(FuelRequest(fuelQuantity, fuelDate + Noon, vehicleId)) && notices == old(notices))
      ensures !(formValid && fuelQuantity > 0.0) ==> req == None && notices == old(notices) + [QuantityNotice]
    {
      if formValid && fuelQuantity > 0.0 {
        req := Some(FuelRequest(fuelQuantity, fuelDate + Noon, vehicleId));
      } else {
        notices := notices + [QuantityNotice];
        req := None;
      }
    }

    /** The success callback: the new record goes first, dated by the response's
        date part, the quantity is set to 0 and the anomalies are reloaded. When
        the back end echoes the date that was sent, the record carries the chosen
        day. */
    method OnFuelRecorded(response: FuelDto) returns (reloadAnomalies: bool)
      modifies this`consumptionHistory, this`isSuccess, this`fuelQuantity
      ensures reloadAnomalies
      ensures consumptionHistory == [ToRecord(response)] + old(consumptionHistory)
      ensures |consumptionHistory| == |old(consumptionHistory)| + 1
      ensures isSuccess && fuelQuantity == 0.0
      ensures 'T' !in fuelDate && response.refuelDate == fuelDate + Noon ==> consumptionHistory[0].date == fuelDate
    {
      if 'T' !in fuelDate {
        NoonStampDate(fuelDate);
      }
      consumptionHistory := [ToRecord(response)] + consumptionHistory;
      isSuccess := true;
      fuelQuantity := 0.0;
      reloadAnomalies := true;
    }

    /** The error callback of the three requests. */
    method OnRequestFailed(e: HttpError)
      modifies this`notices
      ensures notices == old(notices) + [ErrorNotice(e)]
    {
      notices := notices + [ErrorNotice(e)];
    }

    /** The timer three seconds after a registration. */
    method ClearSuccess()
      modifies this`isSuccess
      ensures !isSuccess
    {
      isSuccess := false;
    }

    /** `reportAnomaly`: a valid form with a description sends it; anything else
        only raises a notice. */
    method ReportAnomaly(formValid: bool) returns (req: Option<AnomalyReport>)
      modifies this`notices
      ensures formValid && anomalyMessage != "" ==>
        (req == Some(AnomalyReport(anomalyMessage, anomalyType, fuelQuantity, vehicleId, fuelDate + Noon))
         && notices == old(notices))
      ensures !(formValid && anomalyMessage != "") ==> req == None && notices == old(notices) + [DescriptionNotice]
    {
      if formValid && anomalyMessage != "" {
        req := Some(AnomalyReport(anomalyMessage, anomalyType, fuelQuantity, vehicleId, fuelDate + Noon));
      } else {
        notices := notices + [DescriptionNotice];
        req := None;
      }
    }

    /** The success callback of the report: the description is emptied, the
        type set back to its default and the anomalies are reloaded. */
    method OnAnomalyReported() returns (reloadAnomalies: bool)
      modifies this`anomalySuccess, this`anomalyMessage, this`anomalyType
      ensures reloadAnomalies
      ensures anomalySuccess && anomalyMessage == "" && anomalyType == DefaultAnomalyType
    {
      anomalySuccess, anomalyMessage, anomalyType := true, "", DefaultAnomalyType;
      reloadAnomalies := true;
    }

    method ClearAnomalySuccess()
      modifies this`anomalySuccess
      ensures !anomalySuccess
    {
      anomalySuccess := false;
    }

    /** `markAlertAsRead` on the alert at `index`; any other alert is unchanged. */
    method MarkAlertAsRead(index: nat)
      requires index < |alerts|
      modifies this`alerts
      ensures alerts == MarkRead(old(alerts), index)
      ensures alerts[index].read && |alerts| == |old(alerts)|
    {
      alerts := MarkRead(alerts, index);
    }

    /** The success callback of `deleteRecord`. */
    method OnRecordDeleted(id: int)
      modifies this`consumptionHistory
      ensures consumptionHistory == RemoveFirst(old(consumptionHistory), id)
      ensures (forall j :: 0 <= j < |old(consumptionHistory)| ==> old(consumptionHistory)[j].id != id) ==>
        consumptionHistory == old(consumptionHistory)
    {
      RemoveFirstSpec(consumptionHistory, id);
      consumptionHistory := RemoveFirst(consumptionHistory, id);
    }

    /** The callback of `loadConsumptionHistory`. */
    method OnHistoryLoaded(data: seq<FuelDto>)
      modifies this`consumptionHistory
      ensures consumptionHistory == Records(data)
    {
      consumptionHistory := Records(data);
    }

    /** The callback of `loadAnomalies`; `today` is the current date part. */
    method OnAnomaliesLoaded(data: seq<Option<AnomalyItem>>, today: string)
      modifies this`alerts
      ensures alerts == AnomalyAlerts(data, today)
    {
      alerts := AnomalyAlerts(data, today);
    }
  }
}
