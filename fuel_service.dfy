/** The driver app's fuel service (driver-app/src/app/services/fuel.ts):
    after a refuelling is registered it compares the new odometer reading with
    the previous refuelling of the same vehicle and raises local alerts, which
    it keeps newest first and persists as one list under one storage key. */
module FuelService {
  import opened Common
  import opened Numbers
  import opened Sorting

  /** A refuelling as the back end sends it. Odometer readings are whole
      kilometres; `refuelDate` is the ISO text the back end stores. */
  datatype FuelEntry = FuelEntry(
    id: Option<int>,
    quantity: real,
    refuelDate: string,
    cost: Option<real>,
    odometerReading: Option<int>,
    vehicleId: int,
    fuelType: Option<string>)

  datatype Vehicle = Vehicle(id: int, licensePlate: string, brand: string, model: string, fuelType: string)

  datatype LocalAlert = LocalAlert(message: string, date: string, read: bool)

  /** The key under which the alert list is stored. */
  const StorageKey: string := "agilfleet-alerts"

  /** The highest rate, in litres per 100 km, that raises no alert. */
  const MaxRate: real := 20.0

  // ---------------------------------------------------------------------------
  // Anomaly detection

  /** Only a present, positive reading is checked at all. */
  predicate ShouldCheck(newEntry: FuelEntry) {
    newEntry.odometerReading.Some? && newEntry.odometerReading.value > 0
  }

  /** The history entries that can serve as "previous": same vehicle, truthy reading. */
  predicate IsCandidate(newEntry: FuelEntry, e: FuelEntry) {
    e.vehicleId == newEntry.vehicleId && TruthyInt(e.odometerReading)
  }

  /** The sort comparator: `a` may come first when it is not older than `b`
      (`timeOf` stands for `new Date(text).getTime()`). */
  function NewerFirst(timeOf: string -> int): (FuelEntry, FuelEntry) -> bool {
    (a: FuelEntry, b: FuelEntry) => timeOf(a.refuelDate) >= timeOf(b.refuelDate)
  }

  /** The entries refuelled at time `t`. */
  function SameTime(timeOf: string -> int, t: int): FuelEntry -> bool {
    (e: FuelEntry) => timeOf(e.refuelDate) == t
  }

  /** The candidates, newest first (a stable sort on the refuel time). */
  function Candidates(newEntry: FuelEntry, entries: seq<FuelEntry>, timeOf: string -> int): (r: seq<FuelEntry>)
    ensures |r| <= |entries|
  {
    SortBy(Filter(entries, (e: FuelEntry) => IsCandidate(newEntry, e)), NewerFirst(timeOf))
  }

  /** Index 1 of the sorted candidates, when there are two or more. */
  function Previous(newEntry: FuelEntry, entries: seq<FuelEntry>, timeOf: string -> int): Option<FuelEntry> {
    var c := Candidates(newEntry, entries, timeOf);
    if |c| >= 2 then Some(c[1]) else None
  }

  datatype Anomaly =
    | OdometerDecrease(current: int, previous: int)
    | HighConsumption(rate: real)

  /** The alert text of an anomaly, its words joined by single spaces;
      `fixed1` is `Number.prototype.toFixed(1)`. */
  function Message(a: Anomaly, fixed1: real -> string): string {
    match a
    case OdometerDecrease(cur, prev) =>
      Join(["Odomètre", "décroissant", ":", IntToString(cur), "<", IntToString(prev)], ' ')
    case HighConsumption(rate) =>
      Join(["Consommation", "anormale", ":", fixed1(rate), "L/100km"], ' ')
  }

  /** The regression check against the previous reading. */
  function RegressionCheck(cur: int, prev: Option<FuelEntry>): seq<Anomaly> {
    if prev.Some? && prev.value.odometerReading.Some? && cur < prev.value.odometerReading.value
    then [OdometerDecrease(cur, prev.value.odometerReading.value)]
    else []
  }

  /** The consumption-rate check: litres per 100 km over the distance driven. */
  function ConsumptionCheck(quantity: real, cur: int, prev: Option<FuelEntry>): seq<Anomaly> {
    if prev.Some? && TruthyInt(prev.value.odometerReading) then
      var km := cur - prev.value.odometerReading.value;
      if km > 0 && (quantity / km as real) * 100.0 > MaxRate
      then [HighConsumption((quantity / km as real) * 100.0)]
      else []
    else []
  }

  /** `checkAnomalies`: the anomalies, in the order their alerts are added. */
  function CheckAnomalies(newEntry: FuelEntry, entries: seq<FuelEntry>, timeOf: string -> int): (r: seq<Anomaly>)
    ensures !ShouldCheck(newEntry) ==> r == []
  {
    if !ShouldCheck(newEntry) then []
    else
      var prev := Previous(newEntry, entries, timeOf);
      var cur := newEntry.odometerReading.value;
      RegressionCheck(cur, prev) + ConsumptionCheck(newEntry.quantity, cur, prev)
  }

  /** The rate test `(q / km) * 100 > 20` is the division-free `q * 100 > 20 * km`. */
  lemma RateExceedsIff(q: real, km: real)
    requires km > 0.0
    ensures (q / km) * 100.0 > MaxRate <==> q * 100.0 > MaxRate * km
  {
    var r := q / km;
    assert r * km == q;
    assert (r * 100.0 - MaxRate) * km == q * 100.0 - MaxRate * km;
    if r * 100.0 - MaxRate > 0.0 {
      assert (r * 100.0 - MaxRate) * km > 0.0;
    } else {
      assert (r * 100.0 - MaxRate) * km <= 0.0;
    }
  }

  /** Every candidate is of the same vehicle with a truthy reading; the candidates
      are newest first and are exactly the matching history entries, reordered.
      Entries refuelled at the same time keep their history order, which decides
      which of them is the previous entry. */
  lemma CandidatesProperties(newEntry: FuelEntry, entries: seq<FuelEntry>, timeOf: string -> int)
    ensures var c := Candidates(newEntry, entries, timeOf);
      && (forall i :: 0 <= i < |c| ==> IsCandidate(newEntry, c[i]))
      && (forall i :: 0 <= i < |c| - 1 ==> timeOf(c[i].refuelDate) >= timeOf(c[i + 1].refuelDate))
      && multiset(c) == multiset(Filter(entries, (e: FuelEntry) => IsCandidate(newEntry, e)))
      && (forall t :: Filter(c, SameTime(timeOf, t))
            == Filter(Filter(entries, (e: FuelEntry) => IsCandidate(newEntry, e)), SameTime(timeOf, t)))
  {
    var p := (e: FuelEntry) => IsCandidate(newEntry, e);
    var f := Filter(entries, p);
    var c := Candidates(newEntry, entries, timeOf);
    FilterMembers(entries, p);
    forall i | 0 <= i < |c| ensures IsCandidate(newEntry, c[i]) {
      assert c[i] in multiset(f);
    }
    var le := NewerFirst(timeOf);
    assert Total(le) by {
      forall x: FuelEntry, y: FuelEntry ensures le(x, y) || le(y, x) {
      }
    }
    SortBySorted(f, le);
    forall t ensures Filter(c, SameTime(timeOf, t)) == Filter(f, SameTime(timeOf, t)) {
      SortByStable(f, le, SameTime(timeOf, t));
    }
  }

  /** The two alerts exclude each other: a decrease needs km < 0, the rate alert km > 0. */
  lemma AtMostOneAnomaly(newEntry: FuelEntry, entries: seq<FuelEntry>, timeOf: string -> int)
    ensures |CheckAnomalies(newEntry, entries, timeOf)| <= 1
  {
  }

  /** A decrease alert is raised exactly when there is a previous reading above the
      new one, and it carries both readings. */
  lemma DecreaseIff(newEntry: FuelEntry, entries: seq<FuelEntry>, timeOf: string -> int)
    ensures var r := CheckAnomalies(newEntry, entries, timeOf);
      var prev := Previous(newEntry, entries, timeOf);
      (|r| == 1 && r[0].OdometerDecrease?)
        <==> (ShouldCheck(newEntry) && prev.Some? && prev.value.odometerReading.Some?
              && newEntry.odometerReading.value < prev.value.odometerReading.value)
    ensures var r := CheckAnomalies(newEntry, entries, timeOf);
      var prev := Previous(newEntry, entries, timeOf);
      |r| == 1 && r[0].OdometerDecrease? ==>
        r[0] == OdometerDecrease(newEntry.odometerReading.value, prev.value.odometerReading.value)
  {
    AtMostOneAnomaly(newEntry, entries, timeOf);
  }

  /** A rate alert is raised exactly when the distance since the previous reading is
      positive and more than 20 litres per 100 km were used (strictly). */
  lemma HighConsumptionIff(newEntry: FuelEntry, entries: seq<FuelEntry>, timeOf: string -> int)
    ensures var r := CheckAnomalies(newEntry, entries, timeOf);
      var prev := Previous(newEntry, entries, timeOf);
      (|r| == 1 && r[0].HighConsumption?)
        <==> (ShouldCheck(newEntry) && prev.Some? && TruthyInt(prev.value.odometerReading)
              && var km := newEntry.odometerReading.value - prev.value.odometerReading.value;
                 km > 0 && newEntry.quantity * 100.0 > MaxRate * km as real)
  {
    var prev := Previous(newEntry, entries, timeOf);
    if ShouldCheck(newEntry) && prev.Some? && TruthyInt(prev.value.odometerReading) {
      var km := newEntry.odometerReading.value - prev.value.odometerReading.value;
      if km > 0 {
        RateExceedsIff(newEntry.quantity, km as real);
      }
    }
  }

  /** The decrease message splits into words that give back both readings. */
  lemma DecreaseMessageWords(cur: int, prev: int, fixed1: real -> string)
    ensures Split(Message(OdometerDecrease(cur, prev), fixed1), ' ')
         == ["Odomètre", "décroissant", ":", IntToString(cur), "<", IntToString(prev)]
  {
    var words := ["Odomètre", "décroissant", ":", IntToString(cur), "<", IntToString(prev)];
    assert forall i :: 0 <= i < |words| ==> ' ' !in words[i];
    SplitJoin(words, ' ');
  }

  /** Different readings give different decrease messages. */
  lemma DecreaseMessageInjective(c1: int, p1: int, c2: int, p2: int, fixed1: real -> string)
    requires Message(OdometerDecrease(c1, p1), fixed1) == Message(OdometerDecrease(c2, p2), fixed1)
    ensures c1 == c2 && p1 == p2
  {
    DecreaseMessageWords(c1, p1, fixed1);
    DecreaseMessageWords(c2, p2, fixed1);
    IntToStringInjective(c1, c2);
    IntToStringInjective(p1, p2);
  }

  // ---------------------------------------------------------------------------
  // The alert list

  /** `markAsRead` on values: entry `i` marked read. */
  function MarkRead(alerts: seq<LocalAlert>, i: nat): (r: seq<LocalAlert>)
    requires i < |alerts|
    ensures |r| == |alerts| && r[i].read
    ensures r[i].message == alerts[i].message && r[i].date == alerts[i].date
    ensures forall j :: 0 <= j < |alerts| && j != i ==> r[j] == alerts[j]
  {
    alerts[i := alerts[i].(read := true)]
  }

  /** Marking the same alert twice is the same as marking it once. */
  lemma MarkReadIdempotent(alerts: seq<LocalAlert>, i: nat)
    requires i < |alerts|
    ensures MarkRead(MarkRead(alerts, i), i) == MarkRead(alerts, i)
  {
  }

  /** The alert service: the published alert list and the browser's storage. */
  class AlertStore {
    var alerts: seq<LocalAlert>
    var storage: map<string, seq<LocalAlert>>

    /** The stored list is the published one; with no stored list, none was published. */
    ghost predicate Valid()
      reads this
    {
      (StorageKey in storage ==> storage[StorageKey] == alerts)
      && (StorageKey !in storage ==> alerts == [])
    }

    /** Construction restores the stored list, if there is one. */
    constructor(stored: map<string, seq<LocalAlert>>)
      ensures Valid() && storage == stored
      ensures alerts == if StorageKey in stored then stored[StorageKey] else []
    {
      storage := stored;
      alerts := if StorageKey in stored then stored[StorageKey] else [];
    }

    /** Prepends one unread alert dated `today` and stores the list. */
    method AddAlert(message: string, today: string)
      requires Valid()
      modifies this
      ensures Valid()
      ensures alerts == [LocalAlert(message, today, false)] + old(alerts)
      ensures storage == old(storage)[StorageKey := alerts]
    {
      alerts := [LocalAlert(message, today, false)] + alerts;
      storage := storage[StorageKey := alerts];
    }

    /** Marks alert `index` read and stores the list; an index with no alert
        changes nothing and stores nothing. */
    method MarkAsRead(index: int)
      requires Valid()
      modifies this
      ensures Valid()
      ensures 0 <= index < |old(alerts)| ==>
        alerts == MarkRead(old(alerts), index) && storage == old(storage)[StorageKey := alerts]
      ensures !(0 <= index < |old(alerts)|) ==> alerts == old(alerts) && storage == old(storage)
    {
      if 0 <= index < |alerts| {
        alerts := MarkRead(alerts, index);
        storage := storage[StorageKey := alerts];
      }
    }

    /** The check that follows a successful registration: `fetched` is the
        history the service fetches, `today` the current date. */
    method CheckAnomaliesAfterSave(newEntry: FuelEntry, fetched: seq<FuelEntry>, timeOf: string -> int,
                                   fixed1: real -> string, today: string)
      requires Valid()
      modifies this
      ensures Valid()
      ensures alerts == Alerts(CheckAnomalies(newEntry, fetched, timeOf), fixed1, today) + old(alerts)
      ensures storage == if CheckAnomalies(newEntry, fetched, timeOf) == [] then old(storage)
                         else old(storage)[StorageKey := alerts]
      ensures !ShouldCheck(newEntry) ==> alerts == old(alerts) && storage == old(storage)
    {
      if !ShouldCheck(newEntry) {
        return;
      }
      var prev := Previous(newEntry, fetched, timeOf);
      var cur := newEntry.odometerReading.value;
      var decrease := RegressionCheck(cur, prev);
      var before := alerts;
      if decrease != [] {
        AddAlert(Message(decrease[0], fixed1), today);
        AlertsSingle(decrease, fixed1, today);
      }
      var middle := alerts;
      assert middle == Alerts(decrease, fixed1, today) + before;
      var rate := ConsumptionCheck(newEntry.quantity, cur, prev);
      if rate != [] {
        AddAlert(Message(rate[0], fixed1), today);
        AlertsSingle(rate, fixed1, today);
      }
      assert alerts == Alerts(rate, fixed1, today) + middle;
      AlertsAppend(decrease, rate, fixed1, today);
      assert CheckAnomalies(newEntry, fetched, timeOf) == decrease + rate;
    }

    /** `saveFuel`: the check runs only after the registration succeeded. */
    method SaveFuel(entry: FuelEntry, registered: bool, fetched: seq<FuelEntry>, timeOf: string -> int,
                    fixed1: real -> string, today: string)
      requires Valid()
      modifies this
      ensures Valid()
      ensures registered ==> alerts == Alerts(CheckAnomalies(entry, fetched, timeOf), fixed1, today) + old(alerts)
      ensures registered ==> storage == if CheckAnomalies(entry, fetched, timeOf) == [] then old(storage)
                                        else old(storage)[StorageKey := alerts]
      ensures !registered ==> alerts == old(alerts) && storage == old(storage)
    {
      if registered {
        CheckAnomaliesAfterSave(entry, fetched, timeOf, fixed1, today);
      }
    }
  }

  /** The unread alerts for a list of anomalies, newest (last added) first. */
  function Alerts(anomalies: seq<Anomaly>, fixed1: real -> string, today: string): (r: seq<LocalAlert>)
    ensures |r| == |anomalies|
    ensures forall i :: 0 <= i < |r| ==> !r[i].read && r[i].date == today
  {
    if anomalies == [] then []
    else Alerts(anomalies[1..], fixed1, today) + [LocalAlert(Message(anomalies[0], fixed1), today, false)]
  }

  /** The alerts of two lists of anomalies: the later list's alerts come first. */
  lemma {:induction false} AlertsAppend(a: seq<Anomaly>, b: seq<Anomaly>, fixed1: real -> string, today: string)
    ensures Alerts(a + b, fixed1, today) == Alerts(b, fixed1, today) + Alerts(a, fixed1, today)
    decreases |a|
  {
    if a == [] {
      assert a + b == b;
    } else {
      assert (a + b)[1..] == a[1..] + b;
      AlertsAppend(a[1..], b, fixed1, today);
    }
  }

  /** A single anomaly gives a single alert. */
  lemma AlertsSingle(a: seq<Anomaly>, fixed1: real -> string, today: string)
    requires |a| == 1
    ensures Alerts(a, fixed1, today) == [LocalAlert(Message(a[0], fixed1), today, false)]
  {
    assert a[1..] == [];
  }
}
