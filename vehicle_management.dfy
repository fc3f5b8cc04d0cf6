/** The vehicle management page of the console
    (src/app/vehicle-management/vehicle-management.component.ts): a form with
    per-field rules, and a searchable, sortable view of the vehicle list. */
module VehicleManagement {
  import opened Common
  import opened Numbers
  import opened Sorting
  import opened AdminModels

  const PlateError: string := "La plaque d'immatriculation doit contenir au moins 3 caractères."
  const BrandError: string := "La marque doit contenir au moins 2 caractères."
  const ModelError: string := "Le modèle doit contenir au moins 2 caractères."
  const FuelTypeError: string := "Le type de carburant doit être Essence, Diesel, Électrique ou Hybride."
  const ClientError: string := "Veuillez sélectionner un client valide."

  function YearError(currentYear: int): string {
    "L'année doit être entre 1900 et " + IntToString(currentYear) + "."
  }

  /** The keys of `formErrors`. */
  datatype Field = LicensePlate | Brand | Model | FuelType | Year | ClientField

  /** The key text the template reads. */
  function FieldName(f: Field): string {
    match f
    case LicensePlate => "licensePlate"
    case Brand => "brand"
    case Model => "model"
    case FuelType => "fuelType"
    case Year => "year"
    case ClientField => "client"
  }

  /** The form's rules, applied in turn. */
  function VehicleFormErrors(v: Vehicle, clientId: Option<int>, currentYear: int): map<Field, string> {
    var e1 := AddIf(map[], |v.licensePlate| < 3, LicensePlate, PlateError);
    var e2 := AddIf(e1, |v.brand| < 2, Brand, BrandError);
    var e3 := AddIf(e2, |v.model| < 2, Model, ModelError);
    var e4 := AddIf(e3, !IsFuelType(v.fuelType), FuelType, FuelTypeError);
    var e5 := AddIf(e4, v.year == 0 || v.year < 1900 || v.year > currentYear, Year, YearError(currentYear));
    AddIf(e5, !(clientId.Some? && clientId.value > 0), ClientField, ClientError)
  }

  /** Each rule that fails sets exactly its own key, and the form is valid
      exactly when every rule holds. */
  lemma VehicleFormRules(v: Vehicle, clientId: Option<int>, currentYear: int)
    ensures var r := VehicleFormErrors(v, clientId, currentYear);
      && (LicensePlate in r <==> |v.licensePlate| < 3)
      && (Brand in r <==> |v.brand| < 2)
      && (Model in r <==> |v.model| < 2)
      && (FuelType in r <==> !IsFuelType(v.fuelType))
      && (Year in r <==> (v.year == 0 || v.year < 1900 || v.year > currentYear))
      && (ClientField in r <==> !(clientId.Some? && clientId.value > 0))
      && (r == map[] <==> (|v.licensePlate| >= 3 && |v.brand| >= 2 && |v.model| >= 2
           && IsFuelType(v.fuelType) && v.year != 0 && 1900 <= v.year <= currentYear
           && clientId.Some? && clientId.value > 0))
  {
    var r := VehicleFormErrors(v, clientId, currentYear);
    if r == map[] {
      assert LicensePlate !in r && Brand !in r && Model !in r;
      assert FuelType !in r && Year !in r && ClientField !in r;
    }
  }

  /** One rule: its message under its key when it fails. */
  function AddIf(errors: map<Field, string>, fails: bool, f: Field, message: string): map<Field, string> {
    if fails then errors[f := message] else errors
  }

  /** Whether a vehicle is kept by the search for `query` (already lower-cased). */
  predicate VehicleMatches(v: Vehicle, query: string) {
    Contains(Lower(v.licensePlate), query) || Contains(Lower(v.brand), query)
    || Contains(Lower(v.model), query) || Contains(Lower(v.fuelType), query)
  }

  function PlateKey(v: Vehicle): string {
    Lower(v.licensePlate)
  }

  /** The visible list: the search, then the sort on the lower-cased plate. */
  function VehicleView(vehicles: seq<Vehicle>, query: string, order: SortOrder): seq<Vehicle> {
    var found := if query != "" then Filter(vehicles, (v: Vehicle) => VehicleMatches(v, Lower(query))) else vehicles;
    if order == Unsorted then found else SortBy(found, ByKey(PlateKey, order == Desc))
  }

  /** With no query and no order the view is the whole list, in its order. */
  lemma ViewUnfiltered(vehicles: seq<Vehicle>)
    ensures VehicleView(vehicles, "", Unsorted) == vehicles
  {
  }

  /** Every shown vehicle matches the query, every matching vehicle is shown, and
      without an order they keep the list's order. */
  lemma ViewMatches(vehicles: seq<Vehicle>, query: string, order: SortOrder)
    requires query != ""
    ensures var r := VehicleView(vehicles, query, order);
      && (forall i :: 0 <= i < |r| ==> VehicleMatches(r[i], Lower(query)))
      && (forall i :: 0 <= i < |vehicles| && VehicleMatches(vehicles[i], Lower(query)) ==> vehicles[i] in r)
      && (order == Unsorted ==> r == Filter(vehicles, (v: Vehicle) => VehicleMatches(v, Lower(query))))
  {
    var p := (v: Vehicle) => VehicleMatches(v, Lower(query));
    var found := Filter(vehicles, p);
    FilterMembers(vehicles, p);
    var r := VehicleView(vehicles, query, order);
    assert multiset(r) == multiset(found);
    forall i | 0 <= i < |r| ensures VehicleMatches(r[i], Lower(query)) {
      assert r[i] in multiset(found);
    }
    forall i | 0 <= i < |vehicles| && p(vehicles[i]) ensures vehicles[i] in r {
      assert vehicles[i] in multiset(found);
    }
  }

  /** With an order, the view is a permutation of the search result, ordered by
      lower-cased plate, with vehicles of equal plates in the list's order. */
  lemma ViewSorted(vehicles: seq<Vehicle>, query: string, order: SortOrder, plate: string)
    requires order != Unsorted
    ensures var found := VehicleView(vehicles, query, Unsorted);
      var r := VehicleView(vehicles, query, order);
      && multiset(r) == multiset(found)
      && (forall i, j :: 0 <= i < j < |r| ==>
            if order == Asc then LexLe(PlateKey(r[i]), PlateKey(r[j])) else LexLe(PlateKey(r[j]), PlateKey(r[i])))
      && Filter(r, HasKey(PlateKey, plate)) == Filter(found, HasKey(PlateKey, plate))
  {
    var found := VehicleView(vehicles, query, Unsorted);
    SortByKeyProperties(found, PlateKey, order == Desc, plate);
  }

  const EmptyVehicle: Vehicle := Vehicle(None, "", "", "", "", 0, None)

  /** What submitting the form asks of the vehicle service. */
  datatype VehiclePayload = VehiclePayload(
    id: Option<int>, licensePlate: string, brand: string, model: string,
    fuelType: string, year: int, clientId: int)

  /** The toast of a form that failed a rule. */
  const FixFormToast: string := "Veuillez corriger les erreurs dans le formulaire."

  datatype VehicleRequest =
    | NoRequest
    | CreateVehicle(payload: VehiclePayload)
    | UpdateVehicle(id: Option<int>, payload: VehiclePayload)

  class VehicleManagementPage {
    var vehicles: seq<Vehicle>
    var filteredVehicles: seq<Vehicle>
    var selectedVehicle: Vehicle
    var selectedClientId: Option<int>
    var isEditing: bool
    var searchQuery: string
    var sortOrder: SortOrder
    var formErrors: map<Field, string>
    var errorMessage: Option<string>

    constructor()
      ensures vehicles == [] && filteredVehicles == [] && selectedVehicle == EmptyVehicle
      ensures selectedClientId == None && !isEditing && searchQuery == "" && sortOrder == Unsorted
      ensures formErrors == map[] && errorMessage == None
    {
      vehicles, filteredVehicles := [], [];
      selectedVehicle, selectedClientId, isEditing := EmptyVehicle, None, false;
      searchQuery, sortOrder := "", Unsorted;
      formErrors, errorMessage := map[], None;
    }

    /** `validateForm`: the errors become those of the form's rules; valid when
        no rule failed. */
    method ValidateForm(currentYear: int) returns (ok: bool, toast: Option<string>)
      modifies this`formErrors
      ensures formErrors == VehicleFormErrors(selectedVehicle, selectedClientId, currentYear)
      ensures ok <==> formErrors == map[]
      ensures toast == if ok then None else Some(FixFormToast)
    {
      formErrors := VehicleFormErrors(selectedVehicle, selectedClientId, currentYear);
      ok := formErrors == map[];
      toast := if ok then None else Some(FixFormToast);
    }

    /** `createOrUpdateVehicle`: a valid form becomes a create or (when editing) an
        update request carrying the selected client's id. */
    method CreateOrUpdateVehicle(currentYear: int) returns (req: VehicleRequest, toast: Option<string>)
      modifies this`formErrors
      ensures formErrors == VehicleFormErrors(selectedVehicle, selectedClientId, currentYear)
      ensures req == NoRequest <==> formErrors != map[]
      ensures toast == if req == NoRequest then Some(FixFormToast) else None
      ensures req != NoRequest ==> selectedClientId.Some? && req.payload == VehiclePayload(
        if isEditing then selectedVehicle.id else None, selectedVehicle.licensePlate, selectedVehicle.brand,
        selectedVehicle.model, selectedVehicle.fuelType, selectedVehicle.year, selectedClientId.value)
      ensures req != NoRequest ==> IsFuelType(selectedVehicle.fuelType)
      ensures req != NoRequest ==>
        && selectedClientId.Some? && selectedClientId.value > 0
        && req.payload.clientId == selectedClientId.value
        && req.payload.licensePlate == selectedVehicle.licensePlate
      ensures req.UpdateVehicle? <==> req != NoRequest && isEditing
      ensures req.UpdateVehicle? ==> req.id == selectedVehicle.id && req.payload.id == selectedVehicle.id
    {
      var ok;
      ok, toast := ValidateForm(currentYear);
      VehicleFormRules(selectedVehicle, selectedClientId, currentYear);
      if !ok {
        return NoRequest, toast;
      }
      var v := selectedVehicle;
      var payload := VehiclePayload(None, v.licensePlate, v.brand, v.model, v.fuelType, v.year, selectedClientId.value);
      if isEditing {
        req := UpdateVehicle(v.id, payload.(id := v.id));
      } else {
        req := CreateVehicle(payload);
      }
    }

    /** The load callback shows the whole list. */
    method OnVehiclesLoaded(loaded: seq<Vehicle>)
      modifies this`vehicles, this`filteredVehicles, this`errorMessage
      ensures vehicles == loaded && filteredVehicles == loaded && errorMessage == None
    {
      vehicles, filteredVehicles, errorMessage := loaded, loaded, None;
    }

    /** `applyFiltersAndSearch`: recomputes the view; the vehicle list itself is untouched. */
    method ApplyFiltersAndSearch()
      modifies this`filteredVehicles
      ensures filteredVehicles == VehicleView(vehicles, searchQuery, sortOrder)
    {
      var result := vehicles;
      if searchQuery != "" {
        var query := Lower(searchQuery);
        result := Filter(result, (v: Vehicle) => VehicleMatches(v, query));
      }
      if sortOrder != Unsorted {
        result := SortBy(result, ByKey(PlateKey, sortOrder == Desc));
      }
      filteredVehicles := result;
    }

    method SortVehicles(order: SortOrder)
      requires order != Unsorted
      modifies this`sortOrder, this`filteredVehicles
      ensures sortOrder == order
      ensures filteredVehicles == VehicleView(vehicles, searchQuery, order)
    {
      sortOrder := order;
      ApplyFiltersAndSearch();
    }

    /** `resetFilters`: afterwards the whole list is shown, in its order. */
    method ResetFilters()
      modifies this`searchQuery, this`sortOrder, this`filteredVehicles
      ensures searchQuery == "" && sortOrder == Unsorted
      ensures filteredVehicles == vehicles
    {
      searchQuery, sortOrder := "", Unsorted;
      ApplyFiltersAndSearch();
      ViewUnfiltered(vehicles);
    }

    /** `selectVehicle`: edits a copy of the vehicle, with its client's id. */
    method SelectVehicle(v: Vehicle)
      modifies this`selectedVehicle, this`selectedClientId, this`isEditing, this`formErrors, this`errorMessage
      ensures selectedVehicle == v && isEditing && formErrors == map[] && errorMessage == None
      ensures selectedClientId == if v.client.Some? then v.client.value.id else None
    {
      selectedVehicle := v;
      selectedClientId := if v.client.Some? then v.client.value.id else None;
      isEditing, formErrors, errorMessage := true, map[], None;
    }

    method ResetForm()
      modifies this`selectedVehicle, this`selectedClientId, this`isEditing, this`formErrors, this`errorMessage
      ensures selectedVehicle == EmptyVehicle && selectedClientId == None && !isEditing
      ensures formErrors == map[] && errorMessage == None
    {
      selectedVehicle, selectedClientId := EmptyVehicle, None;
      isEditing, formErrors, errorMessage := false, map[], None;
    }
  }

  /** The empty form fails every rule. */
  lemma EmptyFormFailsAll(currentYear: int)
    ensures VehicleFormErrors(EmptyVehicle, None, currentYear).Keys
         == {LicensePlate, Brand, Model, FuelType, Year, ClientField}
  {
  }
}
