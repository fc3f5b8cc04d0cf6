/** The administrator's dashboard (src/app/dashboard/dashboard.component.ts):
    client and vehicle totals, the chart of vehicles per fuel type, the PDF
    export and Python prediction guards, and the parsing of the alert strings
    the manager's dashboard sends. The current date is a parameter. */
module Dashboard {
  import opened Common
  import opened Numbers
  import opened AdminModels
  import ManagerDashboard

  // ---------------------------------------------------------------------------
  // updateVehiclesByFuelType

  /** The number of vehicles whose fuel type is exactly `t`. */
  function CountFuel(vehicles: seq<Vehicle>, t: string): nat {
    if vehicles == [] then 0
    else CountFuel(vehicles[..|vehicles| - 1], t) + (if vehicles[|vehicles| - 1].fuelType == t then 1 else 0)
  }

  /** The number of vehicles with one of the four known fuel types. */
  function CountKnown(vehicles: seq<Vehicle>): nat {
    if vehicles == [] then 0
    else CountKnown(vehicles[..|vehicles| - 1]) + (if IsFuelType(vehicles[|vehicles| - 1].fuelType) then 1 else 0)
  }

  datatype ChartEntry = ChartEntry(name: string, value: nat)

  /** The chart's four bars add up to the vehicles of a known type, so a vehicle
      of another or no type adds nothing, and there are at most as many as vehicles. */
  lemma {:induction false} ChartTotal(vehicles: seq<Vehicle>)
    ensures CountFuel(vehicles, "Essence") + CountFuel(vehicles, "Diesel")
      + CountFuel(vehicles, "Électrique") + CountFuel(vehicles, "Hybride") == CountKnown(vehicles)
    ensures CountKnown(vehicles) <= |vehicles|
  {
    if vehicles != [] {
      ChartTotal(vehicles[..|vehicles| - 1]);
    }
  }

  // ---------------------------------------------------------------------------
  // loadDashboardData

  /** `clients.slice(0, 5)`: the first five clients, or all of them when fewer. */
  function RecentClients(clients: seq<Client>): (r: seq<Client>)
    ensures r <= clients
    ensures |clients| >= 5 ==> |r| == 5
    ensures |clients| < 5 ==> r == clients
  {
    if |clients| <= 5 then clients else clients[..5]
  }

  // ---------------------------------------------------------------------------
  // subscribeToAlerts

  /** An anomaly as the dashboard lists it (the parsed quantity is not modelled). */
  datatype Anomaly = Anomaly(
    fuelConsumptionId: int,
    vehicleId: int,
    fuelType: string,
    description: string,
    refuelDate: string,
    odometerReading: int)

  /** Destructuring a split with fewer than three pieces leaves `vehiclePart` or
      `quantityPart` undefined, and calling a string method on it throws. */
  const ParseFailure: string := "TypeError"

  function TypeFromUnit(quantityPart: string): string {
    if Contains(quantityPart, "kWh") then "Électrique" else "Inconnu"
  }

  /** One alert string as the code reads it: the description is the text before
      the first `:`, trimmed; the vehicle id is the first run of digits in the
      second space-separated piece (0 if none); the type depends on whether the
      third piece contains `kWh`. */
  function ParseAlertAsWritten(alert: string, today: string): (r: Result<Anomaly>)
    ensures r.Err? <==> |Split(alert, ' ')| < 3
    ensures r.Ok? ==> (r.value.description == Trim(BeforeFirst(alert, ':'))
      && r.value.vehicleId == FirstNumberOrZero(Split(alert, ' ')[1])
      && (r.value.fuelType == "Électrique" <==> Contains(Split(alert, ' ')[2], "kWh"))
      && r.value.refuelDate == today && r.value.fuelConsumptionId == 0 && r.value.odometerReading == 0)
  {
    var tokens := Split(alert, ' ');
    if |tokens| < 3 then Err(ParseFailure)
    else Ok(Anomaly(0, FirstNumberOrZero(tokens[1]), TypeFromUnit(tokens[2]),
                    Trim(BeforeFirst(alert, ':')), today, 0))
  }

  /** The manager's alert `Consommation anormale pour le véhicule <id> : <q> <unit>`
      read as written: the second and third pieces are the words `anormale` and
      `pour`, so every alert gets vehicle 0 and fuel type `Inconnu`. */
  lemma AsWrittenLosesVehicle(fc: FuelConsumption, numText: real -> string, today: string)
    requires fc.quantity.Some? && ' ' !in numText(fc.quantity.value)
    ensures var r := ParseAlertAsWritten(ManagerDashboard.AlertMessage(fc, numText), today);
      r.Ok? && r.value.vehicleId == 0 && r.value.fuelType == "Inconnu"
  {
    ManagerDashboard.AlertMessageWords(fc, numText);
    var w := Split(ManagerDashboard.AlertMessage(fc, numText), ' ');
    assert w[1] == "anormale" && w[2] == "pour";
    NoDigitsInAnormale();
    NoKWhInPour();
  }

  lemma NoDigitsInAnormale()
    ensures FirstNumberOrZero("anormale") == 0
  {
    assert AllNonDigits("anormale");
  }

  lemma NoKWhInPour()
    ensures !Contains("pour", "kWh")
  {
    assert "pour"[1..] == "our" && "our"[1..] == "ur" && "ur"[1..] == "r" && "r"[1..] == [];
    assert !Contains([], "kWh");
    assert !Contains("r", "kWh");
    assert !Contains("ur", "kWh");
    assert !StartsWith("our", "kWh") by {
      assert "our"[..3][0] == 'o';
    }
    assert !StartsWith("pour", "kWh") by {
      assert "pour"[..3][0] == 'p';
    }
  }

  /** The reading the manager's message format calls for: the vehicle id is the
      piece four from the end (just before the `:`) and the unit the last piece. */
  function ParseAlert(alert: string, today: string): (r: Result<Anomaly>)
    ensures r.Err? <==> |Split(alert, ' ')| < 4
  {
    var tokens := Split(alert, ' ');
    if |tokens| < 4 then Err(ParseFailure)
    else Ok(Anomaly(0, FirstNumberOrZero(tokens[|tokens| - 4]),
                    if tokens[|tokens| - 1] == "kWh" then "Électrique" else "Inconnu",
                    Trim(BeforeFirst(alert, ':')), today, 0))
  }

  /** Read this way, a manager's alert gives back the vehicle id and tells
      electric vehicles apart. */
  lemma ParseAlertRecovers(fc: FuelConsumption, numText: real -> string, today: string)
    requires fc.quantity.Some? && ' ' !in numText(fc.quantity.value)
    ensures var r := ParseAlert(ManagerDashboard.AlertMessage(fc, numText), today);
      && r.Ok?
      && (fc.vehicleId.Some? && fc.vehicleId.value >= 0 ==> r.value.vehicleId == fc.vehicleId.value)
      && (r.value.fuelType == "Électrique" <==> fc.fuelType == "Électrique")
  {
    ManagerDashboard.AlertMessageWords(fc, numText);
    if fc.vehicleId.Some? && fc.vehicleId.value >= 0 {
      FirstDigitRunOfNumber(fc.vehicleId.value);
      assert ManagerDashboard.IdText(fc.vehicleId) == NatToString(fc.vehicleId.value);
    }
  }

  /** The `map` over the received alerts with the parser `parse`: one throw
      aborts the whole update, with the error of the first alert that fails. */
  function ParseEach(alerts: seq<string>, parse: string -> Result<Anomaly>): (r: Result<seq<Anomaly>>)
    ensures r.Err? ==> exists i :: (0 <= i < |alerts| && parse(alerts[i]) == Err(r.message)
      && forall j :: 0 <= j < i ==> parse(alerts[j]).Ok?)
  {
    if alerts == [] then Ok([])
    else match (parse(alerts[0]), ParseEach(alerts[1..], parse))
      case (Ok(a), Ok(rest)) => Ok([a] + rest)
      case (Err(e), _) => Err(e)
      case (_, Err(e)) =>
        assert forall j :: 0 < j < |alerts| ==> alerts[j] == alerts[1..][j - 1];
        Err(e)
  }

  /** The batch succeeds exactly when every alert parses, and then gives one
      anomaly per alert, in order. */
  lemma {:induction false} ParseEachOneToOne(alerts: seq<string>, parse: string -> Result<Anomaly>)
    ensures ParseEach(alerts, parse).Ok? <==> forall i :: 0 <= i < |alerts| ==> parse(alerts[i]).Ok?
    ensures ParseEach(alerts, parse).Ok? ==>
      && |ParseEach(alerts, parse).value| == |alerts|
      && forall i :: 0 <= i < |alerts| ==> ParseEach(alerts, parse).value[i] == parse(alerts[i]).value
  {
    if alerts != [] {
      ParseEachOneToOne(alerts[1..], parse);
      assert forall i :: 0 < i < |alerts| ==> alerts[i] == alerts[1..][i - 1];
    }
  }

  /** The batch as the page parses it. */
  function ParseAlertsAsWritten(alerts: seq<string>, today: string): (r: Result<seq<Anomaly>>)
    ensures r.Err? ==> exists i :: (0 <= i < |alerts| && ParseAlertAsWritten(alerts[i], today) == Err(r.message)
      && forall j :: 0 <= j < i ==> ParseAlertAsWritten(alerts[j], today).Ok?)
  {
    ParseEach(alerts, (a: string) => ParseAlertAsWritten(a, today))
  }

  /** The batch read with the corrected parser. */
  function ParseAlerts(alerts: seq<string>, today: string): (r: Result<seq<Anomaly>>)
    ensures r.Err? ==> exists i :: (0 <= i < |alerts| && ParseAlert(alerts[i], today) == Err(r.message)
      && forall j :: 0 <= j < i ==> ParseAlert(alerts[j], today).Ok?)
  {
    ParseEach(alerts, (a: string) => ParseAlert(a, today))
  }

  /** As written, a batch parses exactly when every alert has three or more
      pieces, and then gives one anomaly per alert, in order. */
  lemma ParseAlertsAsWrittenOneToOne(alerts: seq<string>, today: string)
    ensures ParseAlertsAsWritten(alerts, today).Ok? <==> forall i :: 0 <= i < |alerts| ==> |Split(alerts[i], ' ')| >= 3
    ensures ParseAlertsAsWritten(alerts, today).Ok? ==>
      && |ParseAlertsAsWritten(alerts, today).value| == |alerts|
      && forall i :: 0 <= i < |alerts| ==> ParseAlertsAsWritten(alerts, today).value[i] == ParseAlertAsWritten(alerts[i], today).value
  {
    ParseEachOneToOne(alerts, (a: string) => ParseAlertAsWritten(a, today));
  }

  /** With the corrected parser, a batch parses exactly when every alert does,
      one anomaly per alert, in order. */
  lemma ParseAlertsOneToOne(alerts: seq<string>, today: string)
    ensures ParseAlerts(alerts, today).Ok? <==> forall i :: 0 <= i < |alerts| ==> ParseAlert(alerts[i], today).Ok?
    ensures ParseAlerts(alerts, today).Ok? ==>
      && |ParseAlerts(alerts, today).value| == |alerts|
      && forall i :: 0 <= i < |alerts| ==> ParseAlerts(alerts, today).value[i] == ParseAlert(alerts[i], today).value
  {
    ParseEachOneToOne(alerts, (a: string) => ParseAlert(a, today));
  }

  /** As written, the batch of alerts the manager's dashboard sends lists every
      anomaly under vehicle 0 with fuel type `Inconnu`. */
  lemma AsWrittenBatchLosesVehicles(s: seq<FuelConsumption>, numText: real -> string, today: string)
    requires forall i :: 0 <= i < |s| && s[i].quantity.Some? ==> ' ' !in numText(s[i].quantity.value)
    ensures var r := ParseAlertsAsWritten(ManagerDashboard.Alerts(s, numText), today);
      && r.Ok? && |r.value| == |Filter(s, ManagerDashboard.IsHigh)|
      && forall k :: 0 <= k < |r.value| ==> r.value[k].vehicleId == 0 && r.value[k].fuelType == "Inconnu"
  {
    var alerts := ManagerDashboard.Alerts(s, numText);
    var high := Filter(s, ManagerDashboard.IsHigh);
    ManagerDashboard.AlertsAreFilterMap(s, numText);
    FilterMembers(s, ManagerDashboard.IsHigh);
    forall k | 0 <= k < |alerts|
      ensures var r := ParseAlertAsWritten(alerts[k], today); r.Ok? && r.value.vehicleId == 0 && r.value.fuelType == "Inconnu"
    {
      assert high[k] in s;
      AsWrittenLosesVehicle(high[k], numText, today);
    }
    ParseAlertsAsWrittenOneToOne(alerts, today);
  }

  // ---------------------------------------------------------------------------
  // The component

  const WaitForData: string := "Veuillez attendre le chargement des données"
  const PdfFile: string := "dashboard-admin-agil-fleet.pdf"
  const InvalidVehicleId: string := "Veuillez entrer un ID de véhicule valide"
  const Forbidden: string := "Accès interdit : vous n'avez pas les permissions nécessaires."
  const NoAnomaly: string := "Aucune anomalie détectée."
  const PythonUnreachable: string := "Impossible de contacter l'IA Python (vérifiez le backend)"
  const PythonConnectionError: string := "Erreur de connexion à l'IA"
  const Resolved: string := "Anomalies résolues avec succès (simulation)"

  datatype PdfOutcome = PdfRefused(message: string) | PdfSaved(fileName: string)

  /** The Python service's answer: an error text (empty when none) and its verdict. */
  datatype PythonResult = PythonResult(error: string, anomalyDetected: bool)

  /** The toast for the Python service's answer about vehicle `id`. */
  function PythonToast(result: PythonResult, id: int): (toast: string)
    ensures result.error != "" ==> toast == "IA Python : " + result.error
    ensures result.error == "" && result.anomalyDetected ==>
      toast == "Anomalie détectée sur le véhicule " + IntToString(id)
    ensures result.error == "" && !result.anomalyDetected ==>
      toast == "Prédiction IA réussie pour le véhicule " + IntToString(id)
  {
    if result.error != "" then "IA Python : " + result.error
    else if result.anomalyDetected then "Anomalie détectée sur le véhicule " + IntToString(id)
    else "Prédiction IA réussie pour le véhicule " + IntToString(id)
  }

  class DashboardPage {
    var totalClients: int
    var totalVehicles: int
    var recentClients: seq<Client>
    var errorMessage: string
    var vehiclesByFuelTypeData: seq<ChartEntry>
    var anomalies: seq<Anomaly>
    var totalConsumption: int
    var selectedVehicleId: int
    var pythonPrediction: Option<PythonResult>
    var isLoadingPython: bool
    /** How many times the admin signalled the anomalies resolved. */
    var resolvedSignals: nat

    constructor()
      ensures totalClients == 0 && totalVehicles == 0 && recentClients == [] && errorMessage == ""
      ensures vehiclesByFuelTypeData == [] && anomalies == [] && totalConsumption == 0
      ensures selectedVehicleId == 1 && pythonPrediction == None && !isLoadingPython && resolvedSignals == 0
    {
      totalClients, totalVehicles, recentClients, errorMessage := 0, 0, [], "";
      vehiclesByFuelTypeData, anomalies, totalConsumption := [], [], 0;
      selectedVehicleId, pythonPrediction, isLoadingPython, resolvedSignals := 1, None, false, 0;
    }

    method OnClientsLoaded(clients: seq<Client>)
      modifies this`totalClients, this`recentClients, this`errorMessage
      ensures totalClients == |clients| && recentClients == RecentClients(clients) && errorMessage == ""
    {
      totalClients, recentClients, errorMessage := |clients|, RecentClients(clients), "";
    }

    /** `updateVehiclesByFuelType`: one bar per known type, in the fixed order,
        counting the vehicles of exactly that type. */
    method UpdateVehiclesByFuelType(vehicles: seq<Vehicle>)
      modifies this`vehiclesByFuelTypeData
      ensures vehiclesByFuelTypeData == [
        ChartEntry("Essence", CountFuel(vehicles, "Essence")),
        ChartEntry("Diesel", CountFuel(vehicles, "Diesel")),
        ChartEntry("Électrique", CountFuel(vehicles, "Électrique")),
        ChartEntry("Hybride", CountFuel(vehicles, "Hybride"))]
    {
      var counts: map<string, nat> := map["Essence" := 0, "Diesel" := 0, "Électrique" := 0, "Hybride" := 0];
      var i := 0;
      while i < |vehicles|
        invariant 0 <= i <= |vehicles|
        invariant "Essence" in counts && "Diesel" in counts && "Électrique" in counts && "Hybride" in counts
        invariant "" !in counts
        invariant forall t :: t in counts ==> counts[t] == CountFuel(vehicles[..i], t)
      {
        assert vehicles[..i + 1][..i] == vehicles[..i];
        var t := vehicles[i].fuelType;
        assert forall u :: CountFuel(vehicles[..i + 1], u) == CountFuel(vehicles[..i], u) + (if t == u then 1 else 0);
        if t != "" && t in counts {
          counts := counts[t := counts[t] + 1];
        }
        i := i + 1;
      }
      assert vehicles[..i] == vehicles;
      vehiclesByFuelTypeData := [
        ChartEntry("Essence", counts["Essence"]),
        ChartEntry("Diesel", counts["Diesel"]),
        ChartEntry("Électrique", counts["Électrique"]),
        ChartEntry("Hybride", counts["Hybride"])];
    }

    method OnVehicleStatsLoaded(vehicles: seq<Vehicle>)
      modifies this`totalVehicles, this`errorMessage, this`vehiclesByFuelTypeData
      ensures totalVehicles == |vehicles| && errorMessage == ""
      ensures vehiclesByFuelTypeData == [
        ChartEntry("Essence", CountFuel(vehicles, "Essence")),
        ChartEntry("Diesel", CountFuel(vehicles, "Diesel")),
        ChartEntry("Électrique", CountFuel(vehicles, "Électrique")),
        ChartEntry("Hybride", CountFuel(vehicles, "Hybride"))]
    {
      totalVehicles, errorMessage := |vehicles|, "";
      UpdateVehiclesByFuelType(vehicles);
    }

    /** `loadStatistics`: a fixed, simulated total. */
    method LoadStatistics()
      modifies this`totalConsumption
      ensures totalConsumption == 1000
    {
      totalConsumption := 1000;
    }

    /** `exportPDF`: refused until both totals are loaded. */
    method ExportPdf() returns (r: PdfOutcome)
      ensures r.PdfRefused? <==> totalClients == 0 || totalVehicles == 0
      ensures r.PdfRefused? ==> r.message == WaitForData
      ensures r.PdfSaved? ==> r.fileName == PdfFile
    {
      if totalClients == 0 || totalVehicles == 0 {
        return PdfRefused(WaitForData);
      }
      r := PdfSaved(PdfFile);
    }

    /** `subscribeToAlerts`: the alerts parsed as the code reads them replace
        the list, unless one of them throws; the count is announced. */
    method OnAlerts(alerts: seq<string>, today: string) returns (toast: string)
      modifies this`anomalies
      ensures ParseAlertsAsWritten(alerts, today).Ok? ==> anomalies == ParseAlertsAsWritten(alerts, today).value
      ensures ParseAlertsAsWritten(alerts, today).Err? ==> anomalies == old(anomalies) && toast == ""
      ensures ParseAlertsAsWritten(alerts, today).Ok? && anomalies == [] ==> toast == NoAnomaly
      ensures ParseAlertsAsWritten(alerts, today).Ok? && anomalies != [] ==>
        toast == IntToString(|anomalies|) + " anomalie(s) détectée(s) par le manager"
    {
      var parsed := ParseAlertsAsWritten(alerts, today);
      if parsed.Err? {
        return "";
      }
      anomalies := parsed.value;
      if |anomalies| > 0 {
        toast := IntToString(|anomalies|) + " anomalie(s) détectée(s) par le manager";
      } else {
        toast := NoAnomaly;
      }
    }

    /** `resolveAnomalies`: the admin clears the list and tells the manager. */
    method ResolveAnomalies() returns (toast: string)
      modifies this`anomalies, this`resolvedSignals
      ensures anomalies == [] && resolvedSignals == old(resolvedSignals) + 1 && toast == Resolved
    {
      anomalies, resolvedSignals := [], resolvedSignals + 1;
      toast := Resolved;
    }

    /** `launchPythonPrediction`: an id that is not positive is refused and
        nothing is asked; otherwise the request for that id starts loading. */
    method LaunchPythonPrediction() returns (request: Option<int>, toast: string)
      modifies this`isLoadingPython, this`pythonPrediction
      ensures selectedVehicleId <= 0 ==> (request == None && toast == InvalidVehicleId
        && isLoadingPython == old(isLoadingPython) && pythonPrediction == old(pythonPrediction))
      ensures selectedVehicleId > 0 ==> (request == Some(selectedVehicleId) && toast == ""
        && isLoadingPython && pythonPrediction == None)
    {
      if selectedVehicleId <= 0 {
        return None, InvalidVehicleId;
      }
      isLoadingPython, pythonPrediction := true, None;
      request, toast := Some(selectedVehicleId), "";
    }

    method OnPythonResult(result: PythonResult) returns (toast: string)
      modifies this`isLoadingPython, this`pythonPrediction
      ensures pythonPrediction == Some(result) && !isLoadingPython
      ensures result.error != "" ==> toast == "IA Python : " + result.error
      ensures result.error == "" && result.anomalyDetected ==>
        toast == "Anomalie détectée sur le véhicule " + IntToString(selectedVehicleId)
      ensures result.error == "" && !result.anomalyDetected ==>
        toast == "Prédiction IA réussie pour le véhicule " + IntToString(selectedVehicleId)
    {
      pythonPrediction, isLoadingPython := Some(result), false;
      toast := PythonToast(result, selectedVehicleId);
    }

    method OnPythonError() returns (toast: string)
      modifies this`isLoadingPython, this`pythonPrediction
      ensures !isLoadingPython && pythonPrediction == Some(PythonResult(PythonUnreachable, false))
      ensures toast == PythonConnectionError
    {
      isLoadingPython, pythonPrediction := false, Some(PythonResult(PythonUnreachable, false));
      toast := PythonConnectionError;
    }

    /** `handleError`: keeps the error's message (or the default) and shows it,
        except that a 403 shows the fixed "forbidden" text. */
    method HandleError(status: int, message: string, default: string) returns (toast: string)
      modifies this`errorMessage
      ensures errorMessage == OrElse(message, default)
      ensures status == 403 ==> toast == Forbidden
      ensures status != 403 ==> toast == errorMessage
    {
      errorMessage := OrElse(message, default);
      toast := if status == 403 then Forbidden else errorMessage;
    }
  }
}
