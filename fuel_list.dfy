/** The driver app's refuelling list
    (driver-app/src/app/fuel-list/fuel-list.component.ts): every refuelling,
    each named after its vehicle when the vehicle is known. */
module FuelList {
  import opened Common
  import opened Numbers
  import opened FuelService

  /** An entry with its `displayName`; every field of the entry is kept. */
  datatype ListedEntry = ListedEntry(entry: FuelEntry, displayName: string)

  const UnknownPrefix: string := "Véhicule #"

  /** The `forEach` of `set`: `m` after setting each vehicle under its id, in order. */
  function Registered(m: map<int, Vehicle>, vehicles: seq<Vehicle>): map<int, Vehicle>
    decreases |vehicles|
  {
    if vehicles == [] then m
    else
      var v := vehicles[|vehicles| - 1];
      Registered(m, vehicles[..|vehicles| - 1])[v.id := v]
  }

  /** Every vehicle that no later vehicle shares an id with is the one the map holds. */
  lemma {:induction false} RegisteredLast(m: map<int, Vehicle>, vehicles: seq<Vehicle>)
    ensures forall j :: 0 <= j < |vehicles| && (forall k :: j < k < |vehicles| ==> vehicles[k].id != vehicles[j].id) ==>
      vehicles[j].id in Registered(m, vehicles) && Registered(m, vehicles)[vehicles[j].id] == vehicles[j]
    decreases |vehicles|
  {
    if vehicles != [] {
      var n := |vehicles| - 1;
      var init := vehicles[..n];
      RegisteredLast(m, init);
      forall j | 0 <= j < n && (forall k :: j < k < |vehicles| ==> vehicles[k].id != vehicles[j].id)
        ensures vehicles[j].id in Registered(m, init) && Registered(m, init)[vehicles[j].id] == vehicles[j]
      {
        assert init[j] == vehicles[j];
        forall k | j < k < n ensures init[k].id != init[j].id {
          assert init[k] == vehicles[k];
        }
      }
    }
  }

  /** The map's ids are the old ones and the vehicles' ones. */
  lemma {:induction false} RegisteredKeys(m: map<int, Vehicle>, vehicles: seq<Vehicle>)
    ensures forall id :: id in Registered(m, vehicles) <==>
      (id in m || exists j :: 0 <= j < |vehicles| && vehicles[j].id == id)
    decreases |vehicles|
  {
    if vehicles != [] {
      var n := |vehicles| - 1;
      var init := vehicles[..n];
      RegisteredKeys(m, init);
      assert forall j :: 0 <= j < n ==> init[j] == vehicles[j];
    }
  }

  /** An id no vehicle has keeps what the map held before. */
  lemma {:induction false} RegisteredUntouched(m: map<int, Vehicle>, vehicles: seq<Vehicle>, id: int)
    requires id in m && forall j :: 0 <= j < |vehicles| ==> vehicles[j].id != id
    ensures id in Registered(m, vehicles) && Registered(m, vehicles)[id] == m[id]
    decreases |vehicles|
  {
    if vehicles != [] {
      var n := |vehicles| - 1;
      var init := vehicles[..n];
      forall j | 0 <= j < n ensures init[j].id != id {
        assert init[j] == vehicles[j];
      }
      RegisteredUntouched(m, init, id);
      assert vehicles[n].id != id;
    }
  }

  /** The name shown for one entry. */
  function DisplayName(e: FuelEntry, vehiclesMap: map<int, Vehicle>): string {
    if e.vehicleId in vehiclesMap then
      var v := vehiclesMap[e.vehicleId];
      v.licensePlate + " (" + v.brand + " " + v.model + ")"
    else UnknownPrefix + IntToString(e.vehicleId)
  }

  /** A known vehicle is named by its plate first; for unknown ones the name
      keeps the id apart, so two unknown ids never share a name. */
  lemma DisplayNameSpec(e: FuelEntry, f: FuelEntry, vehiclesMap: map<int, Vehicle>)
    ensures e.vehicleId in vehiclesMap ==>
      DisplayName(e, vehiclesMap)[..|vehiclesMap[e.vehicleId].licensePlate|] == vehiclesMap[e.vehicleId].licensePlate
    ensures e.vehicleId !in vehiclesMap ==> DisplayName(e, vehiclesMap)[..|UnknownPrefix|] == UnknownPrefix
    ensures e.vehicleId !in vehiclesMap && f.vehicleId !in vehiclesMap && e.vehicleId != f.vehicleId ==>
      DisplayName(e, vehiclesMap) != DisplayName(f, vehiclesMap)
  {
    if e.vehicleId !in vehiclesMap && f.vehicleId !in vehiclesMap && DisplayName(e, vehiclesMap) == DisplayName(f, vehiclesMap) {
      var a := IntToString(e.vehicleId);
      var b := IntToString(f.vehicleId);
      assert (UnknownPrefix + a)[|UnknownPrefix|..] == a;
      assert (UnknownPrefix + b)[|UnknownPrefix|..] == b;
      IntToStringInjective(e.vehicleId, f.vehicleId);
    }
  }

  function Listed(entries: seq<FuelEntry>, vehiclesMap: map<int, Vehicle>): (r: seq<ListedEntry>)
    ensures |r| == |entries|
    ensures forall i :: 0 <= i < |entries| ==> r[i].entry == entries[i]
  {
    seq(|entries|, i requires 0 <= i < |entries| => ListedEntry(entries[i], DisplayName(entries[i], vehiclesMap)))
  }

  class FuelListComponent {
    var fuelEntries: seq<ListedEntry>
    var loading: bool
    var vehiclesMap: map<int, Vehicle>

    constructor()
      ensures fuelEntries == [] && loading && vehiclesMap == map[]
    {
      fuelEntries, loading, vehiclesMap := [], true, map[];
    }

    method LoadData()
      modifies this`loading
      ensures loading
    {
      loading := true;
    }

    /** The vehicles' callback: each vehicle is set under its id (the map is
        never cleared), then the entries are requested. */
    method OnVehiclesLoaded(vehicles: seq<Vehicle>) returns (loadEntries: bool)
      modifies this`vehiclesMap
      ensures vehiclesMap == Registered(old(vehiclesMap), vehicles)
      ensures loadEntries
    {
      var i := 0;
      while i < |vehicles|
        invariant 0 <= i <= |vehicles|
        invariant vehiclesMap == Registered(old(vehiclesMap), vehicles[..i])
      {
        assert vehicles[..i + 1][..i] == vehicles[..i];
        vehiclesMap := vehiclesMap[vehicles[i].id := vehicles[i]];
        i := i + 1;
      }
      assert vehicles[..i] == vehicles;
      loadEntries := true;
    }

    /** A vehicle-load error ends the loading; no entries are requested. */
    method OnVehiclesFailed() returns (loadEntries: bool)
      modifies this`loading
      ensures !loading && !loadEntries
    {
      loading := false;
      loadEntries := false;
    }

    method OnEntriesLoaded(entries: seq<FuelEntry>)
      modifies this`fuelEntries, this`loading
      ensures fuelEntries == Listed(entries, vehiclesMap) && !loading
    {
      fuelEntries := Listed(entries, vehiclesMap);
      loading := false;
    }

    method OnEntriesFailed()
      modifies this`loading
      ensures !loading
    {
      loading := false;
    }
  }
}
