/** components/TrackingPage.tsx: the values the live-tracking page derives
    from its state (status filter, per-status counts, badge styles, what the
    map receives) and the state update of `fetchData`. */
module Tracking {
  import opened Wrappers
  import opened Entities
  import Listing
  import Text
  import MapView

  function StatusOf(l: Location): string { l.status }

  const GRAY_BADGE := "bg-gray-100 text-gray-800"

  /** `getStatusColor`: offline shares the gray style of the default branch. */
  function StatusColor(status: string): (c: string)
    ensures c == GRAY_BADGE <==> status != "available" && status != "on_job" && status != "break"
    ensures status == "available" ==> c == "bg-green-100 text-green-800"
    ensures status == "on_job" ==> c == "bg-blue-100 text-blue-800"
    ensures status == "break" ==> c == "bg-orange-100 text-orange-800"
  {
    match status
    case "available" => "bg-green-100 text-green-800"
    case "on_job" => "bg-blue-100 text-blue-800"
    case "offline" => "bg-gray-100 text-gray-800"
    case "break" => "bg-orange-100 text-orange-800"
    case _ => GRAY_BADGE
  }

  /** `getStatusIcon`: a fixed icon for each of the four statuses, '❓'
      exactly for a status outside them. */
  function StatusIcon(status: string): (icon: string)
    ensures icon == "❓" <==> status !in WORKER_STATUSES
    ensures status == "available" ==> icon == "✅"
    ensures status == "on_job" ==> icon == "🚀"
    ensures status == "offline" ==> icon == "⚫"
    ensures status == "break" ==> icon == "☕"
  {
    match status
    case "available" => "✅"
    case "on_job" => "🚀"
    case "offline" => "⚫"
    case "break" => "☕"
    case _ => "❓"
  }

  /** The four declared statuses get four different icons. */
  lemma StatusIconsDistinct(a: string, b: string)
    requires a in WORKER_STATUSES && b in WORKER_STATUSES && a != b
    ensures StatusIcon(a) != StatusIcon(b)
  {
  }

  /** `filteredLocations`. */
  function FilteredLocations(locs: seq<Location>, filter: string): seq<Location>
  {
    Listing.Filter(locs, StatusOf, filter)
  }

  /** The `stats` object; `break` is spelled `onBreak` here. */
  datatype Stats = Stats(total: nat, available: nat, onJob: nat, offline: nat, onBreak: nat)

  function ComputeStats(locs: seq<Location>): (s: Stats)
    ensures s.total == |locs|
  {
    Stats(|locs|,
      Listing.Count(locs, StatusOf, "available"),
      Listing.Count(locs, StatusOf, "on_job"),
      Listing.Count(locs, StatusOf, "offline"),
      Listing.Count(locs, StatusOf, "break"))
  }

  /** What one render shows: the summary counts, the worker list, and the two
      lists handed to the map. */
  datatype Display = Display(stats: Stats, visible: seq<Location>, mapLocations: seq<Location>,
                             mapWorkOrders: seq<WorkOrder>, activeJobs: nat)

  function Render(locs: seq<Location>, orders: seq<WorkOrder>, filter: string): Display
  {
    var visible := FilteredLocations(locs, filter);
    Display(ComputeStats(locs), visible, visible, orders, |orders|)
  }

  /** The counts are taken over the whole list: changing the filter changes
      the list and the map's workers, never the counts or the map's work
      orders, and the map always gets every work order. */
  lemma FilterOnlyNarrowsWorkers(locs: seq<Location>, orders: seq<WorkOrder>, f1: string, f2: string)
    ensures Render(locs, orders, f1).stats == Render(locs, orders, f2).stats
    ensures Render(locs, orders, f1).mapWorkOrders == orders
    ensures Render(locs, orders, f1).mapLocations == Render(locs, orders, f1).visible
    ensures Render(locs, orders, f1).stats.total == |locs|
  {
  }

  /** For each status filter button, the number of workers listed equals the
      count shown on that button; for 'all' it is the total. */
  lemma ListedMatchesCount(locs: seq<Location>, orders: seq<WorkOrder>, filter: string)
    ensures var d := Render(locs, orders, filter);
      && (filter == Listing.ALL ==> |d.visible| == d.stats.total)
      && (filter == "available" ==> |d.visible| == d.stats.available)
      && (filter == "on_job" ==> |d.visible| == d.stats.onJob)
      && (filter == "offline" ==> |d.visible| == d.stats.offline)
      && (filter == "break" ==> |d.visible| == d.stats.onBreak)
      && (forall k :: 0 <= k < |d.visible| && filter != Listing.ALL ==> d.visible[k].status == filter)
  {
  }

  /** When every status is one of the four declared values the four counts
      add up to the total. */
  lemma StatsAddUp(locs: seq<Location>)
    requires forall l :: l in locs ==> l.status in WORKER_STATUSES
    ensures var s := ComputeStats(locs);
      s.available + s.onJob + s.offline + s.onBreak == s.total
  {
    Listing.CountsPartition(locs, StatusOf, WORKER_STATUSES);
    var v := WORKER_STATUSES;
    assert v[1..] == ["on_job", "offline", "break"];
    assert v[1..][1..] == ["offline", "break"];
    assert v[1..][1..][1..] == ["break"];
    assert v[1..][1..][1..][1..] == [];
    var c := (x: string) => Listing.Count(locs, StatusOf, x);
    assert Listing.SumCounts(locs, StatusOf, v[1..][1..][1..]) == c("break") + 0;
    assert Listing.SumCounts(locs, StatusOf, v[1..][1..]) == c("offline") + c("break");
    assert Listing.SumCounts(locs, StatusOf, v[1..]) == c("on_job") + c("offline") + c("break");
  }

  /** The map's ledger after a rebuild for this render holds one marker per
      listed worker and one per work order. */
  lemma MapShowsListedWorkersAndAllOrders(locs: seq<Location>, orders: seq<WorkOrder>, filter: string, first: nat, click: bool)
    ensures var d := Render(locs, orders, filter);
      |MapView.RebuiltLedger(d.mapLocations, d.mapWorkOrders, first, click, false)|
        == |FilteredLocations(locs, filter)| + |orders|
  {
    var d := Render(locs, orders, filter);
    MapView.RebuiltLedgerShape(d.mapLocations, d.mapWorkOrders, first, click, false);
  }

  /** How the two requests of one refresh ended: the `Promise.all` rejected,
      or both responses arrived and each body parsed (Some) or threw (None). */
  datatype FetchOutcome = NetworkError | Responses(locationsBody: Option<seq<Location>>, workOrdersBody: Option<seq<WorkOrder>>)

  predicate BothParsed(o: FetchOutcome) {
    o.Responses? && o.locationsBody.Some? && o.workOrdersBody.Some?
  }

  class TrackingView {
    var locations: seq<Location>
    var workOrders: seq<WorkOrder>
    var loading: bool
    var filterStatus: string
    /** A copy of the clicked location, kept as it is across refreshes. */
    var selected: Option<Location>

    constructor ()
      ensures locations == [] && workOrders == [] && loading && filterStatus == Listing.ALL && selected == None
    {
      locations, workOrders, loading, filterStatus, selected := [], [], true, Listing.ALL, None;
    }

    function Current(): Display
      reads this
    {
      Render(locations, workOrders, filterStatus)
    }

    /** `fetchData(silent)` up to the await: only a non-silent fetch raises
        `loading`. */
    method BeginFetch(silent: bool)
      modifies this
      ensures loading == (if silent then old(loading) else true)
      ensures locations == old(locations) && workOrders == old(workOrders)
      ensures filterStatus == old(filterStatus) && selected == old(selected)
    {
      if !silent {
        loading := true;
      }
    }

    /** `fetchData(silent)` after the await: both bodies are parsed before
        either list is set, so both lists are replaced or neither is; the
        `finally` lowers `loading` for a non-silent fetch only; the selection
        is not revisited. */
    method CompleteFetch(silent: bool, outcome: FetchOutcome)
      modifies this
      ensures BothParsed(outcome) ==>
        locations == outcome.locationsBody.value && workOrders == outcome.workOrdersBody.value
      ensures !BothParsed(outcome) ==> locations == old(locations) && workOrders == old(workOrders)
      ensures loading == (if silent then old(loading) else false)
      ensures filterStatus == old(filterStatus) && selected == old(selected)
    {
      if outcome.Responses? {
        var locationsData := outcome.locationsBody;
        if locationsData.Some? {
          var workOrdersData := outcome.workOrdersBody;
          if workOrdersData.Some? {
            locations := locationsData.value;
            workOrders := workOrdersData.value;
          }
        }
      }
      if !silent {
        loading := false;
      }
    }

    /** A whole `fetchData` call with no other event in between. */
    method FetchData(silent: bool, outcome: FetchOutcome)
      modifies this
      ensures BothParsed(outcome) ==>
        locations == outcome.locationsBody.value && workOrders == outcome.workOrdersBody.value
      ensures !BothParsed(outcome) ==> locations == old(locations) && workOrders == old(workOrders)
      ensures loading == (if silent then old(loading) else false)
      ensures filterStatus == old(filterStatus) && selected == old(selected)
    {
      BeginFetch(silent);
      CompleteFetch(silent, outcome);
    }

    method SetFilter(filter: string)
      modifies this
      ensures filterStatus == filter
      ensures locations == old(locations) && workOrders == old(workOrders)
      ensures loading == old(loading) && selected == old(selected)
    {
      filterStatus := filter;
    }

    /** A click on a list row or a worker marker, or closing the details. */
    method Select(location: Option<Location>)
      modifies this
      ensures selected == location
      ensures locations == old(locations) && workOrders == old(workOrders)
      ensures loading == old(loading) && filterStatus == old(filterStatus)
    {
      selected := location;
    }
  }
}
