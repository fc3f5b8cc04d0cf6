/** The manager's dashboard (src/app/manager-dashboard/manager-dashboard.component.ts):
    totals over the refuellings, threshold alerts sent to the admin, the most
    common fuel type behind a consumption prediction, and the alert panel toggle.

    JavaScript's rendering of a number in a template string is a parameter
    `numText` of the operations that build messages. */
module ManagerDashboard {
  import opened Common
  import opened Numbers
  import opened AdminModels

  // ---------------------------------------------------------------------------
  // calculateStats

  function QuantityOrZero(fc: FuelConsumption): real {
    RealOrZero(fc.quantity)
  }

  function CostOrZero(fc: FuelConsumption): real {
    RealOrZero(fc.cost)
  }

  /** `s.reduce((sum, fc) => sum + f(fc), 0)`, folding from the left. */
  function SumOf(s: seq<FuelConsumption>, f: FuelConsumption -> real): real {
    if s == [] then 0.0 else SumOf(s[..|s| - 1], f) + f(s[|s| - 1])
  }

  /** The sum of a concatenation is the sum of the parts. */
  lemma {:induction false} SumOfAppend(a: seq<FuelConsumption>, b: seq<FuelConsumption>, f: FuelConsumption -> real)
    ensures SumOf(a + b, f) == SumOf(a, f) + SumOf(b, f)
  {
    if b != [] {
      assert (a + b)[..|a + b| - 1] == a + b[..|b| - 1];
      SumOfAppend(a, b[..|b| - 1], f);
    } else {
      assert a + b == a;
    }
  }

  /** When every term lies in `[lo, hi]`, the sum lies in `[n * lo, n * hi]`. */
  lemma {:induction false} SumOfBounds(s: seq<FuelConsumption>, f: FuelConsumption -> real, lo: real, hi: real)
    requires forall i :: 0 <= i < |s| ==> lo <= f(s[i]) <= hi
    ensures (|s| as real) * lo <= SumOf(s, f) <= (|s| as real) * hi
  {
    if s != [] {
      var p := s[..|s| - 1];
      assert forall i :: 0 <= i < |p| ==> p[i] == s[i];
      SumOfBounds(p, f, lo, hi);
      assert (|s| as real) * lo == (|p| as real) * lo + lo;
      assert (|s| as real) * hi == (|p| as real) * hi + hi;
    }
  }

  /** The average cost: the cost sum over the list length (missing costs count
      as 0); it lies between the smallest and the largest cost. */
  function AverageCost(s: seq<FuelConsumption>): (r: real)
    requires s != []
  {
    SumOf(s, CostOrZero) / (|s| as real)
  }

  lemma AverageCostBounds(s: seq<FuelConsumption>, lo: real, hi: real)
    requires s != []
    requires forall i :: 0 <= i < |s| ==> lo <= CostOrZero(s[i]) <= hi
    ensures lo <= AverageCost(s) <= hi
  {
    SumOfBounds(s, CostOrZero, lo, hi);
    QuotientBounds(SumOf(s, CostOrZero), |s| as real, lo, hi);
  }

  /** A sum between `n * lo` and `n * hi` has its quotient by `n` between `lo` and `hi`. */
  lemma QuotientBounds(sum: real, n: real, lo: real, hi: real)
    requires n > 0.0 && n * lo <= sum <= n * hi
    ensures lo <= sum / n <= hi
  {
    var q := sum / n;
    assert q * n == sum;
    assert (q - lo) * n == sum - n * lo;
    assert (hi - q) * n == n * hi - sum;
  }

  // ---------------------------------------------------------------------------
  // checkAlerts

  const AlertThreshold: real := 100.0

  /** `fc.quantity && fc.quantity > threshold`. */
  predicate IsHigh(fc: FuelConsumption) {
    fc.quantity.Some? && fc.quantity.value > AlertThreshold
  }

  /** The unit after the quantity. */
  function Unit(fuelType: string): string {
    if fuelType == "Électrique" then "kWh" else "litres"
  }

  /** `${fc.vehicleId}`: a missing id prints as `undefined`. */
  function IdText(id: Option<int>): string {
    if id.Some? then IntToString(id.value) else "undefined"
  }

  function AlertWords(fc: FuelConsumption, numText: real -> string): seq<string>
    requires fc.quantity.Some?
  {
    ["Consommation", "anormale", "pour", "le", "véhicule", IdText(fc.vehicleId), ":",
     numText(fc.quantity.value), Unit(fc.fuelType)]
  }

  function AlertMessage(fc: FuelConsumption, numText: real -> string): string
    requires fc.quantity.Some?
  {
    Join(AlertWords(fc, numText), ' ')
  }

  /** The alert messages, one per high consumption, in list order. */
  function Alerts(s: seq<FuelConsumption>, numText: real -> string): seq<string> {
    if s == [] then []
    else (if IsHigh(s[0]) then [AlertMessage(s[0], numText)] else []) + Alerts(s[1..], numText)
  }

  /** The alerts are the `filter` of the high consumptions followed by the `map`
      to their messages. */
  lemma {:induction false} AlertsAreFilterMap(s: seq<FuelConsumption>, numText: real -> string)
    ensures var high := Filter(s, IsHigh);
      && |Alerts(s, numText)| == |high|
      && forall i :: 0 <= i < |high| ==> IsHigh(high[i]) && Alerts(s, numText)[i] == AlertMessage(high[i], numText)
  {
    if s != [] {
      var rest := Alerts(s[1..], numText);
      var highRest := Filter(s[1..], IsHigh);
      AlertsAreFilterMap(s[1..], numText);
      assert [s[0]] + s[1..] == s;
      FilterCons(s[0], s[1..], IsHigh);
      if IsHigh(s[0]) {
        var r := [AlertMessage(s[0], numText)] + rest;
        var high := [s[0]] + highRest;
        forall i | 0 <= i < |high| ensures IsHigh(high[i]) && r[i] == AlertMessage(high[i], numText) {
          if i > 0 {
            assert r[i] == rest[i - 1] && high[i] == highRest[i - 1];
          }
        }
      } else {
        assert [] + rest == rest;
      }
    }
  }

  /** No alert is raised exactly when no consumption exceeds the threshold. */
  lemma {:induction false} AlertsEmptyIff(s: seq<FuelConsumption>, numText: real -> string)
    ensures Alerts(s, numText) == [] <==> forall i :: 0 <= i < |s| ==> !IsHigh(s[i])
  {
    if s != [] {
      AlertsEmptyIff(s[1..], numText);
      if !IsHigh(s[0]) {
        forall i | 0 <= i < |s| && i > 0 ensures !IsHigh(s[i]) <==> !IsHigh(s[1..][i - 1]) {
        }
      }
    }
  }

  /** Read back word by word, an alert gives the vehicle id, the quantity, and
      `kWh` exactly for electric vehicles. */
  lemma AlertMessageWords(fc: FuelConsumption, numText: real -> string)
    requires fc.quantity.Some? && ' ' !in numText(fc.quantity.value)
    ensures var w := Split(AlertMessage(fc, numText), ' ');
      && w == AlertWords(fc, numText)
      && |w| == 9
      && w[5] == IdText(fc.vehicleId)
      && w[7] == numText(fc.quantity.value)
      && (w[8] == "kWh" <==> fc.fuelType == "Électrique")
  {
    AlertWordsUnspaced(fc, numText);
    SplitJoin(AlertWords(fc, numText), ' ');
    UnitIsKwh(fc.fuelType);
  }

  /** No word of an alert holds a space. */
  lemma AlertWordsUnspaced(fc: FuelConsumption, numText: real -> string)
    requires fc.quantity.Some? && ' ' !in numText(fc.quantity.value)
    ensures forall k :: 0 <= k < |AlertWords(fc, numText)| ==> ' ' !in AlertWords(fc, numText)[k]
  {
    var words := AlertWords(fc, numText);
    assert ' ' !in IdText(fc.vehicleId);
    forall k | 0 <= k < |words| ensures ' ' !in words[k] {
    }
  }

  /** The unit is `kWh` for electric vehicles only. */
  lemma UnitIsKwh(fuelType: string)
    ensures Unit(fuelType) == "kWh" <==> fuelType == "Électrique"
  {
    assert "litres" != "kWh" by {
      assert "litres"[0] != "kWh"[0];
    }
  }

  // ---------------------------------------------------------------------------
  // predictConsumption: the most common fuel type

  /** The key a refuelling is counted under (`fc.fuelType || ''`). */
  function TypeKey(fc: FuelConsumption): string {
    fc.fuelType
  }

  /** The number of refuellings counted under `k`. */
  function CountType(s: seq<FuelConsumption>, k: string): nat {
    if s == [] then 0 else CountType(s[..|s| - 1], k) + (if TypeKey(s[|s| - 1]) == k then 1 else 0)
  }

  /** The keys of the count dictionary in insertion order (first occurrence). */
  function TypeKeys(s: seq<FuelConsumption>): seq<string> {
    if s == [] then []
    else
      var p := TypeKeys(s[..|s| - 1]);
      if TypeKey(s[|s| - 1]) in p then p else p + [TypeKey(s[|s| - 1])]
  }

  predicate Distinct(keys: seq<string>) {
    forall i, j :: 0 <= i < j < |keys| ==> keys[i] != keys[j]
  }

  /** The dictionary has one entry per type that occurs, and only those. */
  lemma {:induction false} TypeKeysExact(s: seq<FuelConsumption>)
    ensures Distinct(TypeKeys(s))
    ensures forall k :: k in TypeKeys(s) <==> CountType(s, k) > 0
  {
    if s != [] {
      TypeKeysExact(s[..|s| - 1]);
    }
  }

  /** The `reduce` over the list: the count dictionary, with its insertion order. */
  method CountByType(s: seq<FuelConsumption>) returns (keys: seq<string>, counts: map<string, nat>)
    ensures keys == TypeKeys(s)
    ensures forall k :: k in counts <==> k in keys
    ensures forall k :: k in counts ==> counts[k] == CountType(s, k)
  {
    keys, counts := [], map[];
    var i := 0;
    while i < |s|
      invariant 0 <= i <= |s|
      invariant keys == TypeKeys(s[..i])
      invariant forall k :: k in counts <==> k in keys
      invariant forall k :: k in counts ==> counts[k] == CountType(s[..i], k)
    {
      assert s[..i + 1][..i] == s[..i];
      TypeKeysExact(s[..i]);
      var k := TypeKey(s[i]);
      var old_count := if k in counts then counts[k] else 0;
      if k !in counts {
        keys := keys + [k];
      }
      counts := counts[k := old_count + 1];
      i := i + 1;
    }
    assert s[..i] == s;
  }

  /** The `reduce` over the entries from `['', 0]`, replacing the accumulator
      unless it is strictly greater: the last entry of highest count. */
  method LastMaximum(keys: seq<string>, counts: map<string, nat>) returns (best: string, ghost w: int)
    requires forall m :: 0 <= m < |keys| ==> keys[m] in counts
    ensures keys == [] ==> best == "" && w == -1
    ensures keys != [] ==> (0 <= w < |keys| && best == keys[w]
      && (forall m :: 0 <= m < |keys| ==> counts[keys[m]] <= counts[best])
      && (forall m :: w < m < |keys| ==> counts[keys[m]] < counts[best]))
  {
    best, w := "", -1;
    var bestCount := 0;
    var j := 0;
    while j < |keys|
      invariant 0 <= j <= |keys|
      invariant -1 <= w < j
      invariant w == -1 <==> j == 0
      invariant w == -1 ==> best == "" && bestCount == 0
      invariant w >= 0 ==> best == keys[w] && bestCount == counts[keys[w]]
      invariant forall m :: 0 <= m < j ==> counts[keys[m]] <= bestCount
      invariant forall m :: w < m < j ==> counts[keys[m]] < bestCount
    {
      var c := counts[keys[j]];
      if !(bestCount > c) {
        best, bestCount, w := keys[j], c, j;
      }
      j := j + 1;
    }
  }

  /** The fuel type is that of a key of highest count, the last such key in key
      order, with `''` read as `Essence`. */
  ghost predicate MostCommon(s: seq<FuelConsumption>, fuelType: string) {
    exists w :: 0 <= w < |TypeKeys(s)| && fuelType == OrElse(TypeKeys(s)[w], "Essence")
      && (forall k :: CountType(s, k) <= CountType(s, TypeKeys(s)[w]))
      && (forall m :: w < m < |TypeKeys(s)| ==> CountType(s, TypeKeys(s)[m]) < CountType(s, TypeKeys(s)[w]))
  }

  /** `mostCommonFuelType`: the type of highest count, the one counted last among
      equals, and `Essence` for an empty list or when that type is `''`. */
  method MostCommonFuelType(s: seq<FuelConsumption>) returns (fuelType: string)
    ensures s == [] ==> fuelType == "Essence"
    ensures s != [] ==> MostCommon(s, fuelType)
  {
    var keys, counts := CountByType(s);
    var best;
    ghost var w;
    best, w := LastMaximum(keys, counts);
    fuelType := OrElse(best, "Essence");
    TypeKeysExact(s);
    if s != [] {
      assert keys != [];
      MaxOverAllTypes(s, keys, w);
    }
  }

  lemma MaxOverAllTypes(s: seq<FuelConsumption>, keys: seq<string>, w: int)
    requires keys == TypeKeys(s) && 0 <= w < |keys|
    requires forall k :: k in keys <==> CountType(s, k) > 0
    requires forall m :: 0 <= m < |keys| ==> CountType(s, keys[m]) <= CountType(s, keys[w])
    ensures forall k :: CountType(s, k) <= CountType(s, keys[w])
  {
    forall k ensures CountType(s, k) <= CountType(s, keys[w]) {
      if CountType(s, k) > 0 {
        var m :| 0 <= m < |keys| && keys[m] == k;
      }
    }
  }

  // ---------------------------------------------------------------------------
  // The component

  const DistanceError: string := "Veuillez entrer une distance valide."

  const ResolvedByAdmin: string := "Les anomalies ont été résolues par l'admin."
  const PredictionErrorPrefix: string := "Erreur lors de la prédiction : "

  /** The success toast of a prediction: the amount, its unit, then the distance. */
  function PredictionToast(amount: string, fuelType: string, distance: string): (t: string)
    ensures |t| > 16 && t[..13] == "Prédiction : " && t[|t| - 3..] == " km"
  {
    "Prédiction : " + amount + " " + Unit(fuelType) + " pour " + distance + " km"
  }

  datatype Prediction = Rejected(message: string) | Request(fuelType: string, distanceKm: real)

  class ManagerDashboardPage {
    var vehicles: seq<Vehicle>
    var fuelConsumptions: seq<FuelConsumption>
    var errorMessage: string
    var totalVehicles: int
    var totalConsumption: real
    var averageCost: real
    var alerts: seq<string>
    /** The batches handed to the alert service, oldest first. */
    var sentAlerts: seq<seq<string>>
    var predictedConsumption: Option<real>
    var distanceKm: real
    var showAlerts: bool

    constructor()
      ensures vehicles == [] && fuelConsumptions == [] && errorMessage == ""
      ensures totalVehicles == 0 && totalConsumption == 0.0 && averageCost == 0.0
      ensures alerts == [] && sentAlerts == [] && predictedConsumption == None
      ensures distanceKm == 0.0 && !showAlerts
    {
      vehicles, fuelConsumptions, errorMessage := [], [], "";
      totalVehicles, totalConsumption, averageCost := 0, 0.0, 0.0;
      alerts, sentAlerts, predictedConsumption := [], [], None;
      distanceKm, showAlerts := 0.0, false;
    }

    method OnVehiclesLoaded(loaded: seq<Vehicle>)
      modifies this`vehicles, this`totalVehicles
      ensures vehicles == loaded && totalVehicles == |loaded|
    {
      vehicles, totalVehicles := loaded, |loaded|;
    }

    /** A failed load shows and toasts the error's message, or the default one
        when it has none. */
    method OnLoadError(message: string, default: string) returns (toast: string)
      modifies this`errorMessage
      ensures errorMessage == OrElse(message, default) && toast == errorMessage
      ensures message != "" ==> toast == message
    {
      errorMessage := OrElse(message, default);
      toast := errorMessage;
    }

    /** `calculateStats`: on an empty list the totals are left as they were. */
    method CalculateStats()
      modifies this`totalConsumption, this`averageCost
      ensures fuelConsumptions == [] ==> totalConsumption == old(totalConsumption) && averageCost == old(averageCost)
      ensures fuelConsumptions != [] ==>
        totalConsumption == SumOf(fuelConsumptions, QuantityOrZero) && averageCost == AverageCost(fuelConsumptions)
    {
      if |fuelConsumptions| > 0 {
        totalConsumption := SumOf(fuelConsumptions, QuantityOrZero);
        averageCost := AverageCost(fuelConsumptions);
      }
    }

    /** `checkAlerts`: the alerts are recomputed, each is toasted as a warning,
        and they are handed to the alert service only when there is at least one. */
    method CheckAlerts(numText: real -> string) returns (warnings: seq<string>)
      modifies this`alerts, this`sentAlerts
      ensures alerts == Alerts(fuelConsumptions, numText) && warnings == alerts
      ensures sentAlerts == if alerts == [] then old(sentAlerts) else old(sentAlerts) + [alerts]
    {
      alerts := Alerts(fuelConsumptions, numText);
      warnings := alerts;
      if |alerts| > 0 {
        sentAlerts := sentAlerts + [alerts];
      }
    }

    /** The admin resolved the anomalies: the list is emptied and a success toasted. */
    method OnResolved() returns (toast: string)
      modifies this`alerts
      ensures alerts == [] && toast == ResolvedByAdmin
    {
      alerts, toast := [], ResolvedByAdmin;
    }

    method OnConsumptionsLoaded(loaded: seq<FuelConsumption>, numText: real -> string) returns (warnings: seq<string>)
      modifies this`fuelConsumptions, this`totalConsumption, this`averageCost, this`alerts, this`sentAlerts
      ensures fuelConsumptions == loaded && warnings == alerts
      ensures loaded != [] ==> totalConsumption == SumOf(loaded, QuantityOrZero) && averageCost == AverageCost(loaded)
      ensures loaded == [] ==> totalConsumption == old(totalConsumption) && averageCost == old(averageCost)
      ensures alerts == Alerts(loaded, numText)
      ensures sentAlerts == if alerts == [] then old(sentAlerts) else old(sentAlerts) + [alerts]
    {
      fuelConsumptions := loaded;
      CalculateStats();
      warnings := CheckAlerts(numText);
    }

    /** `predictConsumption`: a distance that is not positive is refused, with
        the rejection's message toasted, and no prediction is asked for; otherwise
        the most common fuel type is sent. */
    method PredictConsumption() returns (p: Prediction)
      ensures distanceKm <= 0.0 ==> p == Rejected(DistanceError)
      ensures distanceKm > 0.0 ==> p.Request? && p.distanceKm == distanceKm
      ensures p.Request? && fuelConsumptions == [] ==> p.fuelType == "Essence"
      ensures p.Request? && fuelConsumptions != [] ==> MostCommon(fuelConsumptions, p.fuelType)
    {
      if distanceKm <= 0.0 {
        return Rejected(DistanceError);
      }
      var t := MostCommonFuelType(fuelConsumptions);
      p := Request(t, distanceKm);
    }

    /** The prediction arrived: it is kept, and toasted with the request's unit
        and distance. */
    method OnPrediction(data: real, fuelType: string, numText: real -> string) returns (toast: string)
      modifies this`predictedConsumption
      ensures predictedConsumption == Some(data)
      ensures toast == PredictionToast(numText(data), fuelType, numText(distanceKm))
    {
      predictedConsumption := Some(data);
      toast := PredictionToast(numText(data), fuelType, numText(distanceKm));
    }

    /** The prediction failed: only a toast with the error's message. */
    method OnPredictionError(message: string) returns (toast: string)
      ensures toast == PredictionErrorPrefix + message
    {
      toast := PredictionErrorPrefix + message;
    }

    /** `toggleAlerts`: two toggles restore the panel. */
    method ToggleAlerts()
      modifies this`showAlerts
      ensures showAlerts == !old(showAlerts)
    {
      showAlerts := !showAlerts;
    }
  }
}
