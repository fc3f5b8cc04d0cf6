/** The driver app's refuelling form
    (driver-app/src/app/fuel-log/fuel-log.component.ts): it registers a
    refuelling for the selected vehicle through the fuel service and, once the
    registration succeeded, adds a confirmation alert. */
module FuelLog {
  import opened Common
  import opened Http
  import opened FuelService

  const VehiclesError: string := "Erreur: impossible de charger les véhicules"
  const InvalidInput: string := "Véhicule ou quantité invalide !"
  const Saved: string := "Enregistré avec succès !"
  const Confirmation: string := "Ravitaillement enregistré avec succès !"
  const DefaultDetail: string := "Données invalides"
  /** The time of day appended to the chosen date. */
  const DayStart: string := "T00:00:00.000"

  /** The notice of a failed registration: the body's message, else the fixed detail. */
  function SaveErrorMessage(e: HttpError): (r: string)
    ensures BodyMessage(e.body) != "" ==> r == "Erreur : " + BodyMessage(e.body)
    ensures BodyMessage(e.body) == "" ==> r == "Erreur : " + DefaultDetail
  {
    "Erreur : " + OrElse(BodyMessage(e.body), DefaultDetail)
  }

  class FuelLogComponent {
    var quantity: real
    var refuelDate: string
    /** The cost and odometer inputs; `None` is a cleared input. */
    var cost: Option<real>
    var odometer: Option<int>
    var message: string
    var isSuccess: bool
    var vehicles: seq<Vehicle>
    var selectedVehicleId: Option<int>

    /** `today` is the date part of the current ISO date. */
    constructor(today: string)
      ensures quantity == 0.0 && refuelDate == today && cost == Some(0.0) && odometer == Some(0)
      ensures message == "" && !isSuccess && vehicles == [] && selectedVehicleId == None
    {
      quantity, refuelDate, cost, odometer := 0.0, today, Some(0.0), Some(0);
      message, isSuccess, vehicles, selectedVehicleId := "", false, [], None;
    }

    /** The callback of `loadVehicles`: the first vehicle becomes the selection. */
    method OnVehiclesLoaded(data: seq<Vehicle>)
      modifies this`vehicles, this`selectedVehicleId
      ensures vehicles == data
      ensures data != [] ==> selectedVehicleId == Some(data[0].id)
      ensures data == [] ==> selectedVehicleId == old(selectedVehicleId)
    {
      vehicles := data;
      if |data| > 0 {
        selectedVehicleId := Some(data[0].id);
      }
    }

    method OnVehiclesFailed()
      modifies this`message
      ensures message == VehiclesError
    {
      message := VehiclesError;
    }

    /** `saveFuel`: no quantity or no vehicle is refused with a message; otherwise
        the entry is dated at midnight of the chosen day, with a cleared cost or
        odometer sent as 0. */
    method SaveFuel() returns (entry: Option<FuelEntry>)
      modifies this`message
      ensures quantity <= 0.0 || !TruthyInt(selectedVehicleId) ==> entry == None && message == InvalidInput
      ensures !(quantity <= 0.0 || !TruthyInt(selectedVehicleId)) ==>
        (entry.Some? && message == old(message)
         && entry.value == FuelEntry(None, quantity, refuelDate + DayStart, Some(RealOrZero(cost)),
                                     Some(IntOrZero(odometer)), selectedVehicleId.value, None))
      ensures entry.Some? ==> entry.value.quantity > 0.0 && entry.value.vehicleId != 0
    {
      if quantity <= 0.0 || !TruthyInt(selectedVehicleId) {
        message := InvalidInput;
        return None;
      }
      var isoDate := refuelDate + DayStart;
      entry := Some(FuelEntry(None, quantity, isoDate, Some(RealOrZero(cost)), Some(IntOrZero(odometer)),
                              selectedVehicleId.value, None));
    }

    /** `resetForm`: quantity, cost and odometer go back to 0. */
    method ResetForm()
      modifies this`quantity, this`cost, this`odometer
      ensures quantity == 0.0 && cost == Some(0.0) && odometer == Some(0)
    {
      quantity, cost, odometer := 0.0, Some(0.0), Some(0);
    }

    /** The success callback: the form is reset and the confirmation alert,
        dated `today`, goes first in the alert store. */
    method OnSaved(store: AlertStore, today: string)
      requires store.Valid()
      modifies this`isSuccess, this`message, this`quantity, this`cost, this`odometer, store
      ensures store.Valid()
      ensures store.alerts == [LocalAlert(Confirmation, today, false)] + old(store.alerts)
      ensures isSuccess && message == Saved
      ensures quantity == 0.0 && cost == Some(0.0) && odometer == Some(0)
    {
      isSuccess := true;
      message := Saved;
      ResetForm();
      store.AddAlert(Confirmation, today);
    }

    /** The error callback: no alert is added. */
    method OnSaveFailed(e: HttpError)
      modifies this`message
      ensures message == SaveErrorMessage(e)
    {
      message := SaveErrorMessage(e);
    }

    /** The timer three seconds after a reset. */
    method ClearMessage()
      modifies this`isSuccess, this`message
      ensures !isSuccess && message == ""
    {
      isSuccess, message := false, "";
    }
  }
}
