/** The manager's refuelling page
    (src/app/fuel-consumptions/fuel-consumptions.component.ts): a filtered
    list of refuellings, a form that adds or updates one, and two prediction
    requests. */
module FuelConsumptions {
  import opened Common
  import opened Numbers
  import opened Http
  import opened AdminModels
  import Dashboard

  /** The filter inputs; an empty one is not sent. */
  datatype Filters = Filters(vehicleId: string, fuelType: string, startDate: string, endDate: string)

  /** The body of an add or update; the vehicle is sent as `vehicle.id`. */
  datatype FuelBody = FuelBody(quantity: real, cost: real, refuelDate: string, odometerReading: int, vehicleId: int)

  const InitialRecord: FuelConsumption := FuelConsumption(Some(0), Some(0.0), Some(0.0), "", Some(0), Some(0), "")
  const NoFilters: Filters := Filters("", "", "", "")

  const AccessDenied: string := "Accès interdit : vous devez être manager."
  const LoadFailed: string := "Erreur lors du chargement des ravitaillements"
  const AddInvalid: string := "Veuillez sélectionner un véhicule et entrer une quantité valide"
  const UpdateInvalid: string := "Veuillez remplir tous les champs valides"
  const Added: string := "Ravitaillement ajouté avec succès"
  const Modified: string := "Ravitaillement modifié avec succès"
  const Removed: string := "Ravitaillement supprimé avec succès"
  const RemoveFailed: string := "Erreur lors de la suppression"
  const PredictionInvalid: string := "Veuillez sélectionner un type de carburant et entrer une distance valide."
  const PythonConnection: string := "Erreur de connexion à l'IA"

  /** The guard shared by add and update: no vehicle, or a missing or negative
      quantity. A quantity of 0 passes. */
  predicate FormRejected(f: FuelConsumption) {
    !TruthyInt(f.vehicleId) || f.quantity.None? || f.quantity.value < 0.0
  }

  /** The request body: a falsy cost or odometer is sent as 0 and an empty date
      as `now`. `iso` stands for `new Date(text).toISOString()`. */
  function RequestBody(f: FuelConsumption, iso: string -> string, now: string): (b: FuelBody)
    requires !FormRejected(f)
    ensures b.quantity == f.quantity.value && b.quantity >= 0.0
    ensures b.vehicleId == f.vehicleId.value && b.vehicleId != 0
    ensures b.cost == (if f.cost.Some? then f.cost.value else 0.0)
    ensures b.odometerReading == (if f.odometerReading.Some? then f.odometerReading.value else 0)
    ensures b.refuelDate == (if f.refuelDate == "" then now else iso(f.refuelDate))
  {
    FuelBody(f.quantity.value, RealOrZero(f.cost), if f.refuelDate != "" then iso(f.refuelDate) else now,
             IntOrZero(f.odometerReading), f.vehicleId.value)
  }

  const AddFailedPrefix: string := "Erreur lors de l'ajout : "
  const UpdateFailedPrefix: string := "Erreur lors de la modification : "

  /** The toast of a failed add or update: the body as the text a template
      gives it, else the error's message. */
  function ChangeFailed(wasUpdate: bool, e: HttpError): (r: string)
    ensures var prefix := if wasUpdate then UpdateFailedPrefix else AddFailedPrefix;
      && (e.body.TextBody? && e.body.text != "" ==> r == prefix + e.body.text)
      && (e.body.ObjectBody? ==> r == prefix + "[object Object]")
      && (!(e.body.TextBody? && e.body.text != "") && !e.body.ObjectBody? ==> r == prefix + e.message)
  {
    (if wasUpdate then UpdateFailedPrefix else AddFailedPrefix) + OrElse(BodyInterpolated(e.body), e.message)
  }

  const PredictFailedPrefix: string := "Erreur lors de la prédiction : "

  /** `${err.status}`: the status's decimal text; an error without a status
      prints `undefined`. */
  function StatusText(status: Option<int>): string {
    if status.Some? then IntToString(status.value) else "undefined"
  }

  /** The toast of a failed prediction: the status and its text, then the body
      as a template gives it, else the error's message. */
  function PredictFailed(e: HttpError, statusText: string): (r: string)
    ensures var head := PredictFailedPrefix + StatusText(e.status) + " - " + statusText + ". Détails : ";
      && (e.body.TextBody? && e.body.text != "" ==> r == head + e.body.text)
      && (e.body.ObjectBody? ==> r == head + "[object Object]")
      && (!(e.body.TextBody? && e.body.text != "") && !e.body.ObjectBody? ==> r == head + e.message)
  {
    PredictFailedPrefix + StatusText(e.status) + " - " + statusText + ". Détails : "
      + OrElse(BodyInterpolated(e.body), e.message)
  }

  function SameConsumptionId(id: Option<int>): FuelConsumption -> bool {
    (f: FuelConsumption) => f.id == id
  }

  class FuelConsumptionsPage {
    var fuelConsumptions: seq<FuelConsumption>
    var vehicles: seq<Vehicle>
    /** `null` is "". */
    var errorMessage: string
    var filters: Filters
    var newFuelConsumption: FuelConsumption
    var isEditing: bool
    var editingId: Option<int>
    var predictedConsumption: Option<real>
    var distanceKm: real
    var selectedVehicleId: int
    var pythonPrediction: Option<Dashboard.PythonResult>
    var isLoadingPython: bool

    constructor()
      ensures fuelConsumptions == [] && vehicles == [] && errorMessage == "" && filters == NoFilters
      ensures newFuelConsumption == InitialRecord && !isEditing && editingId == None
      ensures predictedConsumption == None && distanceKm == 0.0 && selectedVehicleId == 1
      ensures pythonPrediction == None && !isLoadingPython
    {
      fuelConsumptions, vehicles, errorMessage, filters := [], [], "", NoFilters;
      newFuelConsumption, isEditing, editingId := InitialRecord, false, None;
      predictedConsumption, distanceKm, selectedVehicleId := None, 0.0, 1;
      pythonPrediction, isLoadingPython := None, false;
    }

    /** `ngOnInit`: only a logged-in manager loads the page; anyone else is sent
        to the login page, a logged-in non-manager with a toast. */
    method OnInit(loggedIn: bool, role: Option<string>) returns (load: bool, route: string, toast: string)
      ensures load <==> loggedIn && role == Some("MANAGER")
      ensures !load ==> route == "/login"
      ensures load ==> route == "" && toast == ""
      ensures toast == (if loggedIn && role != Some("MANAGER") then AccessDenied else "")
    {
      if !loggedIn {
        return false, "/login", "";
      }
      if role != Some("MANAGER") {
        return false, "/login", AccessDenied;
      }
      load, route, toast := true, "", "";
    }

    /** `loadFuelConsumptions`: the query holds exactly the non-empty filters,
        dates converted to ISO text. */
    method QueryParams(iso: string -> string) returns (params: map<string, string>)
      ensures params.Keys <= {"vehicleId", "fuelType", "startDate", "endDate"}
      ensures ("vehicleId" in params <==> filters.vehicleId != "")
        && ("vehicleId" in params ==> params["vehicleId"] == filters.vehicleId)
      ensures ("fuelType" in params <==> filters.fuelType != "")
        && ("fuelType" in params ==> params["fuelType"] == filters.fuelType)
      ensures ("startDate" in params <==> filters.startDate != "")
        && ("startDate" in params ==> params["startDate"] == iso(filters.startDate))
      ensures ("endDate" in params <==> filters.endDate != "")
        && ("endDate" in params ==> params["endDate"] == iso(filters.endDate))
    {
      params := map[];
      if filters.vehicleId != "" {
        params := params["vehicleId" := filters.vehicleId];
      }
      if filters.fuelType != "" {
        params := params["fuelType" := filters.fuelType];
      }
      if filters.startDate != "" {
        params := params["startDate" := iso(filters.startDate)];
      }
      if filters.endDate != "" {
        params := params["endDate" := iso(filters.endDate)];
      }
    }

    method OnConsumptionsLoaded(data: seq<FuelConsumption>)
      modifies this`fuelConsumptions, this`errorMessage
      ensures fuelConsumptions == data && errorMessage == ""
    {
      fuelConsumptions, errorMessage := data, "";
    }

    method OnConsumptionsFailed(e: HttpError) returns (toast: string)
      modifies this`errorMessage
      ensures errorMessage == OrElse(e.message, LoadFailed) && toast == errorMessage
    {
      errorMessage := OrElse(e.message, LoadFailed);
      toast := errorMessage;
    }

    method OnVehiclesLoaded(data: seq<Vehicle>)
      modifies this`vehicles
      ensures vehicles == data
    {
      vehicles := data;
    }

    /** A failed vehicle load leaves the list empty. */
    method OnVehiclesFailed()
      modifies this`vehicles
      ensures vehicles == []
    {
      vehicles := [];
    }

    /** `deleteFuelConsumption`: a falsy id or an unconfirmed deletion sends nothing. */
    method DeleteRequest(id: Option<int>, confirmed: bool) returns (req: Option<int>)
      ensures req.Some? <==> TruthyInt(id) && confirmed
      ensures req.Some? ==> req.value == id.value
    {
      if !TruthyInt(id) || !confirmed {
        return None;
      }
      req := Some(id.value);
    }

    /** `addFuelConsumption`: a rejected form shows a toast and sends nothing. */
    method AddRequest(iso: string -> string, now: string) returns (req: Option<FuelBody>, toast: string)
      ensures FormRejected(newFuelConsumption) ==> req == None && toast == AddInvalid
      ensures !FormRejected(newFuelConsumption) ==> req == Some(RequestBody(newFuelConsumption, iso, now)) && toast == ""
    {
      if FormRejected(newFuelConsumption) {
        return None, AddInvalid;
      }
      req, toast := Some(RequestBody(newFuelConsumption, iso, now)), "";
    }

    /** `updateFuelConsumption`: also needs the id under edit. */
    method UpdateRequest(iso: string -> string, now: string) returns (req: Option<(int, FuelBody)>, toast: string)
      ensures !TruthyInt(editingId) || FormRejected(newFuelConsumption) ==> req == None && toast == UpdateInvalid
      ensures TruthyInt(editingId) && !FormRejected(newFuelConsumption) ==>
        req == Some((editingId.value, RequestBody(newFuelConsumption, iso, now))) && toast == ""
    {
      if !TruthyInt(editingId) || FormRejected(newFuelConsumption) {
        return None, UpdateInvalid;
      }
      req, toast := Some((editingId.value, RequestBody(newFuelConsumption, iso, now))), "";
    }

    /** `editFuelConsumption`: the first refuelling with a truthy id is edited;
        a falsy or unknown id changes nothing. */
    method EditFuelConsumption(id: Option<int>)
      modifies this`newFuelConsumption, this`isEditing, this`editingId
      ensures var k := FirstIndex(fuelConsumptions, SameConsumptionId(id));
        if TruthyInt(id) && k >= 0 then
          newFuelConsumption == fuelConsumptions[k] && isEditing && editingId == id
        else
          newFuelConsumption == old(newFuelConsumption) && isEditing == old(isEditing) && editingId == old(editingId)
    {
      if !TruthyInt(id) {
        return;
      }
      var k := FirstIndex(fuelConsumptions, SameConsumptionId(id));
      if k >= 0 {
        newFuelConsumption := fuelConsumptions[k];
        isEditing := true;
        editingId := id;
      }
    }

    /** `resetForm`: back to the initial record, not editing; its vehicle id 0
        is refused until a vehicle is chosen. */
    method ResetForm()
      modifies this`newFuelConsumption, this`isEditing, this`editingId
      ensures newFuelConsumption == InitialRecord && !isEditing && editingId == None
      ensures FormRejected(newFuelConsumption)
    {
      newFuelConsumption, isEditing, editingId := InitialRecord, false, None;
    }

    /** The success callback of an add or an update: the form is reset and the
        list is reloaded. */
    method OnSaved(wasUpdate: bool) returns (toast: string, reload: bool)
      modifies this`newFuelConsumption, this`isEditing, this`editingId
      ensures newFuelConsumption == InitialRecord && !isEditing && editingId == None
      ensures toast == (if wasUpdate then Modified else Added) && reload
    {
      ResetForm();
      toast, reload := if wasUpdate then Modified else Added, true;
    }

    /** The error callback of an add or an update: the form is kept. */
    method OnSaveFailed(wasUpdate: bool, e: HttpError) returns (toast: string)
      ensures toast == ChangeFailed(wasUpdate, e)
    {
      toast := ChangeFailed(wasUpdate, e);
    }

    /** The callbacks of a deletion: only a success reloads the list. */
    method OnDeleteAnswered(succeeded: bool) returns (toast: string, reload: bool)
      ensures reload == succeeded
      ensures toast == (if succeeded then Removed else RemoveFailed)
    {
      toast, reload := if succeeded then Removed else RemoveFailed, succeeded;
    }

    /** `predictConsumption`: no fuel type, or a distance that is not positive,
        is refused and nothing is asked. */
    method PredictRequest() returns (req: Option<(string, real)>, toast: string)
      ensures newFuelConsumption.fuelType == "" || distanceKm <= 0.0 ==> req == None && toast == PredictionInvalid
      ensures !(newFuelConsumption.fuelType == "" || distanceKm <= 0.0) ==>
        req == Some((newFuelConsumption.fuelType, distanceKm)) && toast == ""
    {
      if newFuelConsumption.fuelType == "" || distanceKm <= 0.0 {
        return None, PredictionInvalid;
      }
      req, toast := Some((newFuelConsumption.fuelType, distanceKm)), "";
    }

    /** The prediction's answer, shown with `kWh` for electric vehicles and
        `litres` otherwise; `numText` stands for the number's text. */
    method OnPrediction(data: real, numText: real -> string) returns (toast: string)
      modifies this`predictedConsumption
      ensures predictedConsumption == Some(data)
      ensures toast == "Prédiction réussie ! Consommation estimée : " + numText(data) + " "
        + (if newFuelConsumption.fuelType == "Électrique" then "kWh" else "litres")
    {
      predictedConsumption := Some(data);
      toast := "Prédiction réussie ! Consommation estimée : " + numText(data) + " "
        + (if newFuelConsumption.fuelType == "Électrique" then "kWh" else "litres");
    }

    /** The prediction failed: only a toast; `statusText` is the response's
        status text. */
    method OnPredictionError(e: HttpError, statusText: string) returns (toast: string)
      ensures toast == PredictFailed(e, statusText)
    {
      toast := PredictFailed(e, statusText);
    }

    /** `launchPythonPrediction`: an id that is not positive is refused. */
    method LaunchPythonPrediction() returns (req: Option<int>, toast: string)
      modifies this`isLoadingPython, this`pythonPrediction
      ensures selectedVehicleId <= 0 ==> (req == None && toast == Dashboard.InvalidVehicleId
        && isLoadingPython == old(isLoadingPython) && pythonPrediction == old(pythonPrediction))
      ensures selectedVehicleId > 0 ==> (req == Some(selectedVehicleId) && toast == ""
        && isLoadingPython && pythonPrediction == None)
    {
      if selectedVehicleId <= 0 {
        return None, Dashboard.InvalidVehicleId;
      }
      isLoadingPython, pythonPrediction := true, None;
      req, toast := Some(selectedVehicleId), "";
    }

    method OnPythonResult(result: Dashboard.PythonResult) returns (toast: string)
      modifies this`isLoadingPython, this`pythonPrediction
      ensures pythonPrediction == Some(result) && !isLoadingPython
      ensures toast == Dashboard.PythonToast(result, selectedVehicleId)
    {
      pythonPrediction, isLoadingPython := Some(result), false;
      toast := Dashboard.PythonToast(result, selectedVehicleId);
    }

    method OnPythonError() returns (toast: string)
      modifies this`isLoadingPython, this`pythonPrediction
      ensures !isLoadingPython && pythonPrediction == Some(Dashboard.PythonResult(Dashboard.PythonUnreachable, false))
      ensures toast == PythonConnection
    {
      isLoadingPython := false;
      pythonPrediction := Some(Dashboard.PythonResult(Dashboard.PythonUnreachable, false));
      toast := PythonConnection;
    }
  }
}
