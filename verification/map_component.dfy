/** components/MapComponent.tsx: the map handle, the marker ledger
    (`markersRef.current`) and the two effects that create the map and
    rebuild every marker. Leaflet is replaced by an abstract surface: the set
    of maps and of marker handles currently alive, and the last viewport fit.
    Each rebuild removes every marker and creates them all again; nothing is
    diffed. */
module MapView {
  import opened Wrappers
  import opened Entities
  import Constants
  import Text

  /** Leaflet's order: latitude first. */
  datatype LatLng = LatLng(lat: real, lng: real)

  const DEFAULT_CENTER := LatLng(42.3601, -71.0589)
  const DEFAULT_ZOOM := 12
  const FIT_PADDING := 0.1

  /** `const [lng, lat] = coordinates; L.marker([lat, lng])`. */
  function Position(c: LngLat): (p: LatLng)
    ensures p.lat == c.lat && p.lng == c.lng
  {
    LatLng(c.lat, c.lng)
  }

  /** The worker icon's colour table. It has no default: a status outside the
      four keys looks up `undefined`, modelled as None. (A name the object
      inherits, such as `constructor`, looks up a function instead; as a CSS
      colour that is just as invalid, so nothing visible differs.) */
  function WorkerColor(status: string): (c: Option<string>)
    ensures c.Some? <==> status in WORKER_STATUSES
    ensures status == "available" ==> c == Some("#10b981")
    ensures status == "on_job" ==> c == Some("#3b82f6")
    ensures status == "offline" ==> c == Some("#6b7280")
    ensures status == "break" ==> c == Some("#f59e0b")
  {
    if status == "available" then Some("#10b981")
    else if status == "on_job" then Some("#3b82f6")
    else if status == "offline" then Some("#6b7280")
    else if status == "break" then Some("#f59e0b")
    else None
  }

  /** The work-order icon's colour table, keyed by priority, again with no
      default; an inherited name behaves as for the worker table. */
  function WorkOrderColor(priority: string): (c: Option<string>)
    ensures c.Some? <==> Constants.ParsePriority(priority).Some?
    ensures priority == "critical" ==> c == Some("#ef4444")
    ensures priority == "high" ==> c == Some("#f97316")
    ensures priority == "medium" ==> c == Some("#eab308")
    ensures priority == "low" ==> c == Some("#22c55e")
  {
    if priority == "critical" then Some("#ef4444")
    else if priority == "high" then Some("#f97316")
    else if priority == "medium" then Some("#eab308")
    else if priority == "low" then Some("#22c55e")
    else None
  }

  /** Distinct declared statuses get distinct colours, and so do distinct
      priorities. */
  lemma ColorsTellKeysApart(a: string, b: string)
    ensures WorkerColor(a).Some? && WorkerColor(a) == WorkerColor(b) ==> a == b
    ensures WorkOrderColor(a).Some? && WorkOrderColor(a) == WorkOrderColor(b) ==> a == b
  {
  }

  datatype Icon = WorkerIcon(color: Option<string>) | WorkOrderIcon(color: Option<string>)

  /** The fields a popup shows. `battery` is the battery line, present only
      when `location.battery` is truthy. */
  datatype Popup =
    | WorkerPopup(name: string, statusLabel: string, email: string, battery: Option<real>, lastUpdated: string)
    | WorkOrderPopup(title: string, priority: string, statusLabel: string, address: string)

  /** What a click handler reports to the page's callback. */
  datatype Click = ReportLocation(location: Location) | ReportWorkOrder(order: WorkOrder)

  /** The record a marker was made from. */
  datatype Source = FromLocation(location: Location) | FromWorkOrder(order: WorkOrder)

  /** A marker on the surface: its identity, where it stands, the record it
      was made from, and its click handler if one was attached. Its icon and
      popup are functions of the record. */
  datatype Marker = Marker(handle: nat, position: LatLng, source: Source, onClick: Option<Click>)

  /** `${location.battery ? ... : ''}`: 0 is falsy, so it hides the line. */
  function BatteryLine(battery: Option<real>): (b: Option<real>)
    ensures b.Some? <==> battery.Some? && battery.value != 0.0
    ensures b.Some? ==> b == battery
  {
    if battery.Some? && battery.value != 0.0 then battery else None
  }

  /** `createWorkerIcon(location.status)` or `createWorkOrderIcon(order.priority)`:
      the icon's kind follows the record, and it has a colour exactly when the
      record's status (for a worker) or priority (for an order) is a key of
      the table. */
  function IconOf(m: Marker): (icon: Icon)
    ensures icon.WorkerIcon? <==> m.source.FromLocation?
    ensures m.source.FromLocation? ==> (icon.color.Some? <==> m.source.location.status in WORKER_STATUSES)
    ensures m.source.FromWorkOrder? ==>
      (icon.color.Some? <==> Constants.ParsePriority(m.source.order.priority).Some?)
  {
    match m.source
    case FromLocation(loc) => WorkerIcon(WorkerColor(loc.status))
    case FromWorkOrder(order) => WorkOrderIcon(WorkOrderColor(order.priority))
  }

  /** `status.replace('_', ' ')` as shown in a popup: the same length, a space
      where the first underscore was, every other character kept. */
  ghost predicate ShowsStatus(shown: string, status: string)
  {
    && |shown| == |status|
    && (forall k :: 0 <= k < |status| && k != Text.IndexOf(status, '_') ==> shown[k] == status[k])
    && ('_' in status ==> shown[Text.IndexOf(status, '_')] == ' ')
  }

  /** The fields the popup of a marker shows: a worker's name, status, email,
      battery line and last update, or an order's title, priority, status and
      address, all taken from the marker's own record. */
  function PopupOf(m: Marker): (p: Popup)
    ensures p.WorkerPopup? <==> m.source.FromLocation?
    ensures m.source.FromLocation? ==>
      var loc := m.source.location;
      && p.name == loc.user.name && p.email == loc.user.email && p.lastUpdated == loc.lastUpdated
      && ShowsStatus(p.statusLabel, loc.status)
      && (p.battery.Some? <==> loc.battery.Some? && loc.battery.value != 0.0)
      && (p.battery.Some? ==> p.battery == loc.battery)
    ensures m.source.FromWorkOrder? ==>
      var order := m.source.order;
      && p.title == order.title && p.priority == order.priority && p.address == order.location.address
      && ShowsStatus(p.statusLabel, order.status)
  {
    match m.source
    case FromLocation(loc) =>
      WorkerPopup(loc.user.name, Text.ReplaceFirst(loc.status, '_', ' '), loc.user.email,
                  BatteryLine(loc.battery), loc.lastUpdated)
    case FromWorkOrder(order) =>
      WorkOrderPopup(order.title, order.priority, Text.ReplaceFirst(order.status, '_', ' '), order.location.address)
  }

  function WorkerMarker(loc: Location, handle: nat, clickable: bool): Marker
  {
    Marker(handle, Position(loc.coordinates), FromLocation(loc),
      if clickable then Some(ReportLocation(loc)) else None)
  }

  function WorkOrderMarker(order: WorkOrder, handle: nat, clickable: bool): Marker
  {
    Marker(handle, Position(order.location.coordinates), FromWorkOrder(order),
      if clickable then Some(ReportWorkOrder(order)) else None)
  }

  /** The markers `locations.forEach` creates, handles numbered from `first`. */
  function WorkerMarkers(locs: seq<Location>, first: nat, clickable: bool): (ms: seq<Marker>)
    ensures |ms| == |locs|
    ensures forall i :: 0 <= i < |locs| ==> ms[i] == WorkerMarker(locs[i], first + i, clickable)
    ensures forall i :: 0 <= i < |locs| ==> ms[i].handle == first + i
  {
    seq(|locs|, i requires 0 <= i < |locs| => WorkerMarker(locs[i], first + i, clickable))
  }

  function WorkOrderMarkers(orders: seq<WorkOrder>, first: nat, clickable: bool): (ms: seq<Marker>)
    ensures |ms| == |orders|
    ensures forall i :: 0 <= i < |orders| ==> ms[i] == WorkOrderMarker(orders[i], first + i, clickable)
    ensures forall i :: 0 <= i < |orders| ==> ms[i].handle == first + i
  {
    seq(|orders|, i requires 0 <= i < |orders| => WorkOrderMarker(orders[i], first + i, clickable))
  }

  /** The ledger a rebuild produces: worker markers in input order, then
      work-order markers in input order. */
  function RebuiltLedger(locs: seq<Location>, orders: seq<WorkOrder>, first: nat,
                         onMarkerClick: bool, onWorkOrderClick: bool): seq<Marker>
  {
    WorkerMarkers(locs, first, onMarkerClick) + WorkOrderMarkers(orders, first + |locs|, onWorkOrderClick)
  }

  /** What the rebuilt ledger holds: one marker per input, workers first, each
      at its input's coordinates swapped to [lat, lng], each clickable exactly
      when its callback was supplied, a worker marker's click reporting that
      very location. */
  lemma RebuiltLedgerShape(locs: seq<Location>, orders: seq<WorkOrder>, first: nat,
                           onMarkerClick: bool, onWorkOrderClick: bool)
    ensures var ms := RebuiltLedger(locs, orders, first, onMarkerClick, onWorkOrderClick);
      && |ms| == |locs| + |orders|
      && (forall i :: 0 <= i < |locs| ==>
            && ms[i].position == LatLng(locs[i].coordinates.lat, locs[i].coordinates.lng)
            && IconOf(ms[i]) == WorkerIcon(WorkerColor(locs[i].status))
            && PopupOf(ms[i]).battery == BatteryLine(locs[i].battery)
            && (ms[i].onClick.Some? <==> onMarkerClick)
            && (onMarkerClick ==> ms[i].onClick == Some(ReportLocation(locs[i]))))
      && (forall j :: 0 <= j < |orders| ==>
            && ms[|locs| + j].position == LatLng(orders[j].location.coordinates.lat, orders[j].location.coordinates.lng)
            && IconOf(ms[|locs| + j]) == WorkOrderIcon(WorkOrderColor(orders[j].priority))
            && (ms[|locs| + j].onClick.Some? <==> onWorkOrderClick)
            && (onWorkOrderClick ==> ms[|locs| + j].onClick == Some(ReportWorkOrder(orders[j]))))
  {
    var ws := WorkerMarkers(locs, first, onMarkerClick);
    var os := WorkOrderMarkers(orders, first + |locs|, onWorkOrderClick);
    var ms := ws + os;
    forall j | 0 <= j < |orders|
      ensures ms[|locs| + j] == WorkOrderMarker(orders[j], first + |locs| + j, onWorkOrderClick)
    {
      assert ms[|locs| + j] == os[j];
    }
  }

  function HandleSet(ms: seq<Marker>): set<nat>
  {
    set m | m in ms :: m.handle
  }

  lemma HandleSetSnoc(ms: seq<Marker>, m: Marker)
    ensures HandleSet(ms + [m]) == HandleSet(ms) + {m.handle}
  {
    assert forall x :: x in ms + [m] <==> x in ms || x == m;
  }

  lemma WorkerMarkersSnoc(locs: seq<Location>, i: nat, first: nat, clickable: bool)
    requires i < |locs|
    ensures WorkerMarkers(locs[..i + 1], first, clickable)
         == WorkerMarkers(locs[..i], first, clickable) + [WorkerMarker(locs[i], first + i, clickable)]
  {
  }

  lemma WorkOrderMarkersSnoc(orders: seq<WorkOrder>, i: nat, first: nat, clickable: bool)
    requires i < |orders|
    ensures WorkOrderMarkers(orders[..i + 1], first, clickable)
         == WorkOrderMarkers(orders[..i], first, clickable) + [WorkOrderMarker(orders[i], first + i, clickable)]
  {
  }

  /** Every marker of a rebuilt ledger has a handle numbered from `first` on,
      so none of them is a marker created before the rebuild. */
  lemma RebuiltHandlesFrom(locs: seq<Location>, orders: seq<WorkOrder>, first: nat,
                           onMarkerClick: bool, onWorkOrderClick: bool)
    ensures forall h :: h in HandleSet(RebuiltLedger(locs, orders, first, onMarkerClick, onWorkOrderClick)) ==> first <= h
  {
    var ms := RebuiltLedger(locs, orders, first, onMarkerClick, onWorkOrderClick);
    var ws := WorkerMarkers(locs, first, onMarkerClick);
    var os := WorkOrderMarkers(orders, first + |locs|, onWorkOrderClick);
    assert forall k :: 0 <= k < |ms| ==> first <= ms[k].handle by {
      forall k | 0 <= k < |ms|
        ensures first <= ms[k].handle
      {
        if k < |ws| { assert ms[k] == ws[k]; } else { assert ms[k] == os[k - |ws|]; }
      }
    }
  }

  function Positions(ms: seq<Marker>): (ps: seq<LatLng>)
    ensures |ps| == |ms|
    ensures forall i :: 0 <= i < |ms| ==> ps[i] == ms[i].position
  {
    seq(|ms|, i requires 0 <= i < |ms| => ms[i].position)
  }

  /** A `fitBounds` call: the marker positions it covered and the padding. */
  datatype Fit = Fit(points: seq<LatLng>, padding: real)

  /** A created map: its identity and the view it was opened at. */
  datatype MapInstance = MapInstance(id: nat, center: LatLng, zoom: int)

  class MapComponent {
    /** `mapRef.current`. */
    var mapRef: Option<MapInstance>
    /** `markersRef.current`. */
    var markers: seq<Marker>
    /** The surface: maps and markers currently alive, the last fit, and the
        next unused object identity. */
    var liveMaps: set<nat>
    var liveMarkers: set<nat>
    var lastFit: Option<Fit>
    var nextId: nat

    /** Every live marker is in the ledger and every ledger marker is live,
        so no marker leaks; identities are below `nextId`. */
    ghost predicate Valid()
      reads this
    {
      && liveMarkers == HandleSet(markers)
      && (forall h :: h in liveMarkers ==> h < nextId)
      && (forall m :: m in liveMaps ==> m < nextId)
      && (mapRef.Some? ==> mapRef.value.id in liveMaps)
    }

    constructor ()
      ensures Valid()
      ensures mapRef == None && markers == [] && liveMaps == {} && liveMarkers == {} && lastFit == None
    {
      mapRef, markers, liveMaps, liveMarkers, lastFit, nextId := None, [], {}, {}, None, 0;
    }

    /** The init effect: create a map only when the container exists and no
        map exists yet. */
    method Init(hasContainer: bool, center: LatLng, zoom: int)
      requires Valid()
      modifies this
      ensures Valid()
      ensures markers == old(markers) && liveMarkers == old(liveMarkers) && lastFit == old(lastFit)
      ensures if !hasContainer || old(mapRef).Some? then mapRef == old(mapRef) && liveMaps == old(liveMaps)
              else mapRef == Some(MapInstance(old(nextId), center, zoom)) && liveMaps == old(liveMaps) + {old(nextId)}
      ensures if !hasContainer || old(mapRef).Some? then nextId == old(nextId) else nextId == old(nextId) + 1
      ensures old(nextId) !in old(liveMaps)
    {
      if !hasContainer || mapRef.Some? {
        return;
      }
      mapRef := Some(MapInstance(nextId, center, zoom));
      liveMaps := liveMaps + {nextId};
      nextId := nextId + 1;
    }

    /** The init effect's cleanup: remove the map and reset the handle. */
    method Cleanup()
      requires Valid()
      modifies this
      ensures Valid()
      ensures mapRef == None
      ensures old(mapRef).Some? ==> liveMaps == old(liveMaps) - {old(mapRef).value.id}
      ensures old(mapRef).None? ==> liveMaps == old(liveMaps)
      ensures markers == old(markers) && liveMarkers == old(liveMarkers) && lastFit == old(lastFit)
      ensures nextId == old(nextId)
    {
      if mapRef.Some? {
        liveMaps := liveMaps - {mapRef.value.id};
        mapRef := None;
      }
    }

    /** `markersRef.current.forEach(m => m.remove()); markersRef.current = []`. */
    method ClearMarkers()
      requires Valid()
      modifies this
      ensures Valid()
      ensures markers == [] && liveMarkers == {}
      ensures forall h :: h in HandleSet(old(markers)) ==> h !in liveMarkers
      ensures mapRef == old(mapRef) && liveMaps == old(liveMaps) && lastFit == old(lastFit) && nextId == old(nextId)
    {
      var i := 0;
      while i < |markers|
        invariant 0 <= i <= |markers|
        invariant markers == old(markers) && mapRef == old(mapRef) && liveMaps == old(liveMaps)
        invariant lastFit == old(lastFit) && nextId == old(nextId)
        invariant liveMarkers == old(liveMarkers) - HandleSet(markers[..i])
      {
        assert HandleSet(markers[..i + 1]) == HandleSet(markers[..i]) + {markers[i].handle} by {
          assert markers[..i + 1] == markers[..i] + [markers[i]];
        }
        liveMarkers := liveMarkers - {markers[i].handle};
        i := i + 1;
      }
      assert markers[..i] == markers;
      markers := [];
    }

    /** `L.marker(...).addTo(map)` and `markersRef.current.push(marker)`: the
        marker goes live under the next identity and joins the ledger. */
    method PushMarker(m: Marker)
      requires Valid() && m.handle == nextId
      modifies this
      ensures Valid()
      ensures markers == old(markers) + [m]
      ensures liveMarkers == old(liveMarkers) + {m.handle}
      ensures nextId == old(nextId) + 1
      ensures mapRef == old(mapRef) && liveMaps == old(liveMaps) && lastFit == old(lastFit)
    {
      HandleSetSnoc(markers, m);
      markers := markers + [m];
      liveMarkers := liveMarkers + {nextId};
      nextId := nextId + 1;
    }

    /** `locations.forEach(...)`: one marker per location, appended in order,
        each under a fresh identity. */
    method AddWorkerMarkers(locs: seq<Location>, clickable: bool)
      requires Valid()
      modifies this
      ensures Valid()
      ensures markers == old(markers) + WorkerMarkers(locs, old(nextId), clickable)
      ensures nextId == old(nextId) + |locs|
      ensures mapRef == old(mapRef) && liveMaps == old(liveMaps) && lastFit == old(lastFit)
    {
      var i := 0;
      while i < |locs|
        invariant 0 <= i <= |locs|
        invariant Valid()
        invariant nextId == old(nextId) + i
        invariant markers == old(markers) + WorkerMarkers(locs[..i], old(nextId), clickable)
        invariant mapRef == old(mapRef) && liveMaps == old(liveMaps) && lastFit == old(lastFit)
      {
        WorkerMarkersSnoc(locs, i, old(nextId), clickable);
        PushMarker(WorkerMarker(locs[i], nextId, clickable));
        i := i + 1;
      }
      assert locs[..i] == locs;
    }

    /** `workOrders.forEach(...)`: one marker per work order, appended in
        order, each under a fresh identity. */
    method AddWorkOrderMarkers(orders: seq<WorkOrder>, clickable: bool)
      requires Valid()
      modifies this
      ensures Valid()
      ensures markers == old(markers) + WorkOrderMarkers(orders, old(nextId), clickable)
      ensures nextId == old(nextId) + |orders|
      ensures mapRef == old(mapRef) && liveMaps == old(liveMaps) && lastFit == old(lastFit)
    {
      var i := 0;
      while i < |orders|
        invariant 0 <= i <= |orders|
        invariant Valid()
        invariant nextId == old(nextId) + i
        invariant markers == old(markers) + WorkOrderMarkers(orders[..i], old(nextId), clickable)
        invariant mapRef == old(mapRef) && liveMaps == old(liveMaps) && lastFit == old(lastFit)
      {
        WorkOrderMarkersSnoc(orders, i, old(nextId), clickable);
        PushMarker(WorkOrderMarker(orders[i], nextId, clickable));
        i := i + 1;
      }
      assert orders[..i] == orders;
    }

    /** Lines 79-219 of the marker effect: clear the ledger, then create the
        worker markers and the work-order markers. */
    method RecreateMarkers(locs: seq<Location>, orders: seq<WorkOrder>, onMarkerClick: bool, onWorkOrderClick: bool)
      requires Valid()
      modifies this
      ensures Valid()
      ensures markers == RebuiltLedger(locs, orders, old(nextId), onMarkerClick, onWorkOrderClick)
      ensures forall h :: h in HandleSet(old(markers)) ==> h !in liveMarkers
      ensures mapRef == old(mapRef) && liveMaps == old(liveMaps) && lastFit == old(lastFit)
    {
      ghost var before := HandleSet(markers);
      assert forall h :: h in before ==> h < nextId;
      ClearMarkers();
      var first := nextId;
      AddWorkerMarkers(locs, onMarkerClick);
      assert markers == WorkerMarkers(locs, first, onMarkerClick) by {
        assert [] + WorkerMarkers(locs, first, onMarkerClick) == WorkerMarkers(locs, first, onMarkerClick);
      }
      AddWorkOrderMarkers(orders, onWorkOrderClick);
      RebuiltHandlesFrom(locs, orders, first, onMarkerClick, onWorkOrderClick);
    }

    /** The marker effect. With no map it does nothing. Otherwise it clears the
        ledger, creates the worker markers and then the work-order markers,
        and fits the viewport (padding 0.1) exactly when the ledger is not
        empty. */
    method Rebuild(locs: seq<Location>, orders: seq<WorkOrder>, onMarkerClick: bool, onWorkOrderClick: bool)
      requires Valid()
      modifies this
      ensures Valid()
      ensures old(mapRef).None? ==>
        && markers == old(markers) && liveMarkers == old(liveMarkers) && lastFit == old(lastFit)
        && nextId == old(nextId)
      ensures old(mapRef).Some? ==>
        && markers == RebuiltLedger(locs, orders, old(nextId), onMarkerClick, onWorkOrderClick)
        && liveMarkers == HandleSet(markers)
        && (forall h :: h in HandleSet(old(markers)) ==> h !in liveMarkers)
        && lastFit == (if |markers| > 0 then Some(Fit(Positions(markers), FIT_PADDING)) else old(lastFit))
      ensures mapRef == old(mapRef) && liveMaps == old(liveMaps)
    {
      if mapRef.None? {
        return;
      }
      RecreateMarkers(locs, orders, onMarkerClick, onWorkOrderClick);
      if |markers| > 0 {
        lastFit := Some(Fit(Positions(markers), FIT_PADDING));
      }
    }
  }
}
