/** The console's statistics page (src/app/stats/stats.component.ts): the
    average consumption of each vehicle as chart bars, and the global totals. */
module Stats {
  import opened Common
  import opened Numbers

  /** One item of the per-vehicle answer; a missing field is `None`. */
  datatype VehicleStat = VehicleStat(vehicleId: Option<int>, avgConsumption: Option<real>)

  /** The global answer, kept as received. */
  datatype GlobalStats = GlobalStats(totalConsumption: Option<real>)

  /** A bar of the chart. */
  datatype ChartPoint = ChartPoint(name: string, value: real)

  const UnknownVehicle: string := "Inconnu"
  const VehicleStatsFailed: string := "Erreur lors du chargement des statistiques par véhicule"
  const GlobalStatsFailed: string := "Erreur lors du chargement des statistiques globales"

  /** The bar of one item: named by the vehicle id's text, or "Inconnu" for a
      falsy id; a falsy average is 0. */
  function Bar(item: VehicleStat): ChartPoint {
    ChartPoint(if TruthyInt(item.vehicleId) then IntToString(item.vehicleId.value) else UnknownVehicle,
               RealOrZero(item.avgConsumption))
  }

  function Bars(data: seq<VehicleStat>): (r: seq<ChartPoint>)
    ensures |r| == |data|
    ensures forall i :: 0 <= i < |data| ==> r[i] == Bar(data[i])
  {
    seq(|data|, i requires 0 <= i < |data| => Bar(data[i]))
  }

  /** A vehicle's bar never reads "Inconnu", and two vehicles with different
      ids get different bars' names: "Inconnu" names exactly the items
      without an id. */
  lemma BarNames(a: VehicleStat, b: VehicleStat)
    ensures Bar(a).name == UnknownVehicle <==> !TruthyInt(a.vehicleId)
    ensures TruthyInt(a.vehicleId) && TruthyInt(b.vehicleId) && a.vehicleId != b.vehicleId ==>
      Bar(a).name != Bar(b).name
  {
    if TruthyInt(a.vehicleId) {
      var t := IntToString(a.vehicleId.value);
      assert t[0] == '-' || IsDigit(t[0]);
      assert UnknownVehicle[0] == 'I';
    }
    if TruthyInt(a.vehicleId) && TruthyInt(b.vehicleId) && Bar(a).name == Bar(b).name {
      IntToStringInjective(a.vehicleId.value, b.vehicleId.value);
    }
  }

  class StatsComponent {
    var stats: Option<GlobalStats>
    var chartData: seq<ChartPoint>
    var loading: bool
    /** `null` is "". */
    var error: string

    constructor()
      ensures stats == None && chartData == [] && loading && error == ""
    {
      stats, chartData, loading, error := None, [], true, "";
    }

    /** The per-vehicle answer: one bar per item, in order. */
    method OnVehicleStatsLoaded(data: seq<VehicleStat>)
      modifies this`chartData, this`loading
      ensures chartData == Bars(data) && !loading
    {
      chartData := Bars(data);
      loading := false;
    }

    method OnGlobalStatsLoaded(data: GlobalStats)
      modifies this`stats, this`loading
      ensures stats == Some(data) && !loading
    {
      stats := Some(data);
      loading := false;
    }

    /** Either request's error: its fixed message is kept and shown; the other
        request's data are kept. */
    method OnStatsFailed(global: bool) returns (toast: string)
      modifies this`error, this`loading
      ensures error == (if global then GlobalStatsFailed else VehicleStatsFailed)
      ensures !loading && toast == error
    {
      error := if global then GlobalStatsFailed else VehicleStatsFailed;
      loading := false;
      toast := error;
    }
  }
}
