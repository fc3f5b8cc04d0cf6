/** The console's driver management page
    (src/app/driver-management/driver-management.component.ts): adding a
    driver account, editing and deleting drivers, and naming each driver's
    vehicle by its plate. */
module DriverManagement {
  import opened Common
  import opened Http
  import opened AdminModels

  /** The back end's answer to a creation: the driver and the account made for it. */
  datatype DriverResponse = DriverResponse(driver: Driver, username: string, password: string)

  /** The requests whose errors the page reports, each with its own texts. */
  datatype Operation = LoadDrivers | LoadVehicles | AddDriver | UpdateDriver | DeleteDriver

  const FillFields: string := "Veuillez remplir tous les champs requis."
  const ShortPassword: string := "Le mot de passe doit contenir au moins 6 caractères."
  const Updated: string := "Conducteur mis à jour avec succès."
  const Deleted: string := "Conducteur supprimé avec succès."
  const NotAssigned: string := "Non assigné"
  const MinPasswordLength: nat := 6

  const EmptyDriverRequest: DriverRequest := DriverRequest("", "", "", "", None, "")

  /** The text of a 404, and the fallback when the error has no message. */
  function NotFoundText(op: Operation): (r: string)
    ensures r != ""
  {
    match op
    case LoadDrivers => "Aucune donnée de conducteurs trouvée (vérifiez le backend)"
    case LoadVehicles => "Aucune donnée de véhicules trouvée (vérifiez le backend)"
    case _ => "Endpoint non trouvé (vérifiez le backend)"
  }

  function FallbackText(op: Operation): (r: string)
    ensures r != ""
  {
    match op
    case LoadDrivers => "Erreur lors du chargement des conducteurs"
    case LoadVehicles => "Erreur lors du chargement des véhicules"
    case AddDriver => "Erreur lors de l'ajout du conducteur"
    case UpdateDriver => "Erreur lors de la mise à jour du conducteur"
    case DeleteDriver => "Erreur lors de la suppression du conducteur"
  }

  /** A 404 gets the fixed text; any other error its own message, else the fallback. */
  function OperationError(op: Operation, e: HttpError): (r: string)
    ensures r != ""
    ensures e.status == Some(404) ==> r == NotFoundText(op)
    ensures e.status != Some(404) && e.message != "" ==> r == e.message
    ensures e.status != Some(404) && e.message == "" ==> r == FallbackText(op)
  {
    if e.status == Some(404) then NotFoundText(op) else OrElse(e.message, FallbackText(op))
  }

  /** The success toast of a creation. */
  function CreatedMessage(r: DriverResponse): string {
    "Cher " + r.driver.firstName + ", votre compte a été créé. Nom d'utilisateur : " + r.username
    + ", Mot de passe : " + r.password + ". Téléchargez l'application mobile pour vous connecter."
  }

  /** The password rule: present and at least six characters once trimmed. */
  predicate PasswordAccepted(p: string) {
    p != "" && |Trim(p)| >= MinPasswordLength
  }

  function SameDriverId(id: Option<int>): Driver -> bool {
    (d: Driver) => d.id == id
  }

  function OtherDriverId(id: int): Driver -> bool {
    (d: Driver) => d.id != Some(id)
  }

  function SameVehicleId(id: int): Vehicle -> bool {
    (v: Vehicle) => v.id == Some(id)
  }

  /** `getVehiclePlate`: the plate of the first vehicle with the id; an
      undefined or unknown id is not assigned. */
  function VehiclePlate(vehicles: seq<Vehicle>, vehicleId: Option<int>): (r: string)
    ensures vehicleId.None? ==> r == NotAssigned
    ensures vehicleId.Some? && (forall j :: 0 <= j < |vehicles| ==> vehicles[j].id != Some(vehicleId.value)) ==>
      r == NotAssigned
    ensures forall k :: (0 <= k < |vehicles| && vehicleId.Some? && vehicles[k].id == vehicleId
                         && (forall j :: 0 <= j < k ==> vehicles[j].id != vehicleId)) ==> r == vehicles[k].licensePlate
  {
    if vehicleId.None? then NotAssigned
    else
      var k := FirstIndex(vehicles, SameVehicleId(vehicleId.value));
      if k == -1 then NotAssigned else vehicles[k].licensePlate
  }

  class DriverManagementPage {
    var drivers: seq<Driver>
    var vehicles: seq<Vehicle>
    /** `null` is "". */
    var errorMessage: string
    var newDriver: DriverRequest
    var editingDriver: Option<Driver>
    var toasts: seq<string>

    constructor()
      ensures drivers == [] && vehicles == [] && errorMessage == "" && newDriver == EmptyDriverRequest
      ensures editingDriver == None && toasts == []
    {
      drivers, vehicles, errorMessage, newDriver := [], [], "", EmptyDriverRequest;
      editingDriver, toasts := None, [];
    }

    method OnDriversLoaded(loaded: seq<Driver>)
      modifies this`drivers
      ensures drivers == loaded
    {
      drivers := loaded;
    }

    method OnVehiclesLoaded(loaded: seq<Vehicle>)
      modifies this`vehicles
      ensures vehicles == loaded
    {
      vehicles := loaded;
    }

    /** Every error callback: the message is kept and shown. */
    method OnRequestFailed(op: Operation, e: HttpError)
      modifies this`errorMessage, this`toasts
      ensures errorMessage == OperationError(op, e) && toasts == old(toasts) + [errorMessage]
    {
      errorMessage := OperationError(op, e);
      toasts := toasts + [errorMessage];
    }

    /** `addDriver`: an invalid form or a weak password is refused with a toast
        and nothing is sent; otherwise the new driver's request is sent. */
    method AddDriverRequest(formValid: bool) returns (req: Option<DriverRequest>)
      modifies this`toasts
      ensures !formValid ==> req == None && toasts == old(toasts) + [FillFields]
      ensures formValid && !PasswordAccepted(newDriver.password) ==>
        req == None && toasts == old(toasts) + [ShortPassword]
      ensures formValid && PasswordAccepted(newDriver.password) ==> req == Some(newDriver) && toasts == old(toasts)
    {
      if !formValid {
        toasts := toasts + [FillFields];
        return None;
      }
      if newDriver.password == "" || |Trim(newDriver.password)| < MinPasswordLength {
        toasts := toasts + [ShortPassword];
        return None;
      }
      req := Some(newDriver);
    }

    /** The success callback: the driver goes at the end and `newDriver` becomes
        the empty request. */
    method OnDriverAdded(response: DriverResponse)
      modifies this`drivers, this`newDriver, this`toasts
      ensures drivers == old(drivers) + [response.driver]
      ensures newDriver == EmptyDriverRequest
      ensures toasts == old(toasts) + [CreatedMessage(response)]
    {
      drivers := drivers + [response.driver];
      newDriver := EmptyDriverRequest;
      toasts := toasts + [CreatedMessage(response)];
    }

    /** `editDriver`: a copy of the driver is edited. */
    method EditDriver(d: Driver)
      modifies this`editingDriver
      ensures editingDriver == Some(d)
    {
      editingDriver := Some(d);
    }

    /** `updateDriver`: only a driver under edit with a truthy id is sent. */
    method UpdateDriverRequest() returns (req: Option<(int, Driver)>)
      ensures editingDriver.Some? && TruthyInt(editingDriver.value.id) ==>
        req == Some((editingDriver.value.id.value, editingDriver.value))
      ensures !(editingDriver.Some? && TruthyInt(editingDriver.value.id)) ==> req == None
    {
      if editingDriver.Some? && TruthyInt(editingDriver.value.id) {
        req := Some((editingDriver.value.id.value, editingDriver.value));
      } else {
        req := None;
      }
    }

    /** The success callback: the first driver with the answer's id is replaced
        and the edit ends; when none has it, nothing changes. */
    method OnDriverUpdated(updated: Driver)
      modifies this`drivers, this`editingDriver, this`toasts
      ensures var k := FirstIndex(old(drivers), SameDriverId(updated.id));
        && (k >= 0 ==> drivers == old(drivers)[k := updated] && editingDriver == None && toasts == old(toasts) + [Updated])
        && (k == -1 ==> drivers == old(drivers) && editingDriver == old(editingDriver) && toasts == old(toasts))
      ensures |drivers| == |old(drivers)|
      ensures forall j :: 0 <= j < |drivers| && old(drivers)[j].id != updated.id ==> drivers[j] == old(drivers)[j]
    {
      var index := FirstIndex(drivers, SameDriverId(updated.id));
      if index != -1 {
        drivers := drivers[index := updated];
        editingDriver := None;
        toasts := toasts + [Updated];
      }
    }

    /** `deleteDriver`: nothing is sent unless the user confirms. */
    method DeleteDriverRequest(id: int, confirmed: bool) returns (req: Option<int>)
      ensures req == (if confirmed then Some(id) else None)
    {
      req := if confirmed then Some(id) else None;
    }

    /** The success callback: every driver with the id goes, the others keep their order. */
    method OnDriverDeleted(id: int)
      modifies this`drivers, this`toasts
      ensures drivers == Filter(old(drivers), OtherDriverId(id))
      ensures forall j :: 0 <= j < |drivers| ==> drivers[j].id != Some(id)
      ensures forall j :: 0 <= j < |old(drivers)| && old(drivers)[j].id != Some(id) ==> old(drivers)[j] in drivers
      ensures toasts == old(toasts) + [Deleted]
    {
      FilterMembers(drivers, OtherDriverId(id));
      drivers := Filter(drivers, OtherDriverId(id));
      toasts := toasts + [Deleted];
    }

    function GetVehiclePlate(vehicleId: Option<int>): string
      reads this
    {
      VehiclePlate(vehicles, vehicleId)
    }
  }
}
