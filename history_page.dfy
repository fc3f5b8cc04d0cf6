/** The driver app's history page (driver-app/src/app/history/history.page.ts):
    the vehicle's refuellings loaded twenty at a time, each page appended to
    the ones already shown. */
module HistoryPage {
  import opened Common
  import opened DriverAlerts

  /** A refuelling as the back end returns it; a missing cost is `None`. */
  datatype FuelRecord = FuelRecord(id: int, quantity: real, cost: Option<real>, refuelDate: string)

  datatype HistoryItem = HistoryItem(date: string, quantity: real, cost: real, id: int)

  /** The query of one page. */
  datatype PageRequest = PageRequest(vehicleId: int, page: int, size: nat)

  const PageSize: nat := 20

  /** `cost || 0`: a missing or zero cost is 0. */
  function ToItem(r: FuelRecord): HistoryItem {
    HistoryItem(DatePart(r.refuelDate), r.quantity, RealOrZero(r.cost), r.id)
  }

  function Items(data: seq<FuelRecord>): (r: seq<HistoryItem>)
    ensures |r| == |data|
    ensures forall i :: 0 <= i < |data| ==> r[i].id == data[i].id && r[i].quantity == data[i].quantity
    ensures forall i :: 0 <= i < |data| ==> r[i].cost == (if data[i].cost.Some? then data[i].cost.value else 0.0)
    ensures forall i :: 0 <= i < |data| ==> r[i].date == Split(data[i].refuelDate, 'T')[0]
  {
    seq(|data|, i requires 0 <= i < |data| => ToItem(data[i]))
  }

  function OtherThan(id: int): HistoryItem -> bool {
    (h: HistoryItem) => h.id != id
  }

  /** The `filter` of `deleteRecord`. */
  function Without(history: seq<HistoryItem>, id: int): seq<HistoryItem> {
    Filter(history, OtherThan(id))
  }

  /** No item with the id is left, every other item is, and their order is
      kept: what stands before any cut of the history stays before what stands
      after it. Removing a further id afterwards is the same as removing it first. */
  lemma WithoutSpec(history: seq<HistoryItem>, id: int, other: int)
    ensures var r := Without(history, id);
      && (forall i :: 0 <= i < |r| ==> r[i].id != id && r[i] in history)
      && (forall i :: 0 <= i < |history| && history[i].id != id ==> history[i] in r)
      && (forall k :: 0 <= k <= |history| ==> r == Without(history[..k], id) + Without(history[k..], id))
      && Without(r, other) == Without(Without(history, other), id)
  {
    FilterMembers(history, OtherThan(id));
    forall k | 0 <= k <= |history|
      ensures Without(history, id) == Without(history[..k], id) + Without(history[k..], id)
    {
      assert history == history[..k] + history[k..];
      FilterAppend(history[..k], history[k..], OtherThan(id));
    }
    WithoutCommutes(history, id, other);
  }

  lemma {:induction false} WithoutCommutes(history: seq<HistoryItem>, id: int, other: int)
    ensures Without(Without(history, id), other) == Without(Without(history, other), id)
    decreases |history|
  {
    if history != [] {
      var h := history[0];
      var t := history[1..];
      assert history == [h] + t;
      WithoutCommutes(t, id, other);
      FilterCons(h, t, OtherThan(id));
      FilterCons(h, t, OtherThan(other));
      assert OtherThan(id)(h) == (h.id != id) && OtherThan(other)(h) == (h.id != other);
      FilterCons(h, Without(t, id), OtherThan(other));
      FilterCons(h, Without(t, other), OtherThan(id));
      if h.id != id && h.id != other {
        assert Without(history, id) == [h] + Without(t, id);
        assert Without(history, other) == [h] + Without(t, other);
      } else if h.id != id {
        assert Without(history, id) == [h] + Without(t, id);
        assert Without(history, other) == Without(t, other);
      } else if h.id != other {
        assert Without(history, id) == Without(t, id);
        assert Without(history, other) == [h] + Without(t, other);
      } else {
        assert Without(history, id) == Without(t, id);
        assert Without(history, other) == Without(t, other);
      }
    }
  }

  class HistoryPage {
    var history: seq<HistoryItem>
    var page: int
    var vehicleId: int

    constructor()
      ensures history == [] && page == 1 && vehicleId == 1
    {
      history, page, vehicleId := [], 1, 1;
    }

    /** `loadHistory`: the query for the current page. */
    method LoadHistory() returns (req: PageRequest)
      ensures req == PageRequest(vehicleId, page, PageSize)
    {
      req := PageRequest(vehicleId, page, PageSize);
    }

    /** The callback of `loadHistory`: the page goes after the items already shown. */
    method OnPageLoaded(data: seq<FuelRecord>)
      modifies this`history
      ensures history == old(history) + Items(data)
      ensures history[..|old(history)|] == old(history) && |history| == |old(history)| + |data|
    {
      history := history + Items(data);
    }

    /** `loadMore`: the next page is requested. */
    method LoadMore() returns (req: PageRequest)
      modifies this`page
      ensures page == old(page) + 1
      ensures req == PageRequest(vehicleId, old(page) + 1, PageSize)
    {
      page := page + 1;
      req := LoadHistory();
    }

    /** The success callback of `deleteRecord`. */
    method OnRecordDeleted(id: int)
      modifies this`history
      ensures history == Without(old(history), id)
      ensures forall i :: 0 <= i < |history| ==> history[i].id != id
      ensures forall i :: 0 <= i < |old(history)| && old(history)[i].id != id ==> old(history)[i] in history
    {
      WithoutSpec(history, id, id);
      history := Without(history, id);
    }
  }
}
