/** The listing screen as a state machine. Its four state slots (items, points,
    selectedItems, initialPosition) are fields; the screen's effects and handlers
    are methods that replace them. The outgoing point requests are kept as a log
    of their query parameters, so that "every selection change issues one
    request with these parameters" can be stated; the network itself is not
    modelled, a response only arrives through PointsArrived. */
module PointsScreen {

  import opened Wrappers
  import opened Selection
  import opened PointsView

  /** The navigation parameters handed over by the landing screen. */
  datatype Params = Params(uf: string, city: string)

  /** The query parameters of one `GET points` request. */
  datatype PointsQuery = PointsQuery(city: string, uf: string, items: seq<int>)

  /** A blocking alert with its title and message. */
  datatype Alert = Alert(title: string, message: string)

  /** What the screen draws: the map (when a position is known) and the chips. */
  datatype ScreenView = ScreenView(mapView: Option<MapView>, chips: seq<Chip>)

  /** The status string the location permission request reports on success. */
  const Granted := "granted"

  /** The alert shown when the location permission is refused. */
  const PermissionAlert := Alert("Ooooops...", "Precisamos de sua permissão para obter a localização.")

  /** The parameters of the point request for a given selection: the route's
      city and uf, and the selection itself. */
  function QueryFor(route: Params, selected: seq<int>): (q: PointsQuery)
    ensures q.city == route.city && q.uf == route.uf && q.items == selected
  {
    PointsQuery(route.city, route.uf, selected)
  }

  /** One request was issued on mount and one after every tap, and the k-th
      carries the selection after the first k taps. */
  ghost predicate Logged(route: Params, requests: seq<PointsQuery>, taps: seq<int>)
  {
    && |requests| == |taps| + 1
    && forall k :: 0 <= k < |requests| ==> requests[k] == QueryFor(route, Replay(taps[..k]))
  }

  /** A tap extends the log by the request for the selection after it. */
  lemma {:induction false} LoggedExtend(route: Params, requests: seq<PointsQuery>, taps: seq<int>, id: int)
    requires Logged(route, requests, taps)
    ensures Logged(route, requests + [QueryFor(route, Replay(taps + [id]))], taps + [id])
  {
    var requests', taps' := requests + [QueryFor(route, Replay(taps + [id]))], taps + [id];
    forall k | 0 <= k < |requests'|
      ensures requests'[k] == QueryFor(route, Replay(taps'[..k]))
    {
      if k < |requests| {
        assert taps'[..k] == taps[..k];
      } else {
        assert taps'[..k] == taps';
      }
    }
  }

  class Screen {
    const routeParams: Params
    var items: seq<Item>
    var points: seq<Point>
    var selectedItems: seq<int>
    var initialPosition: Position
    /** The point requests issued so far, oldest first. */
    var requests: seq<PointsQuery>

    /** The chips tapped so far, oldest first. */
    ghost var taps: seq<int>
    /** Whether the location permission has been reported as granted. */
    ghost var granted: bool

    /** The selection is the replay of the taps from the empty selection; one
        request was issued on mount and one after every tap, each carrying the
        selection of its moment; the position leaves the origin only once the
        permission was granted. */
    ghost predicate Valid()
      reads this
    {
      && selectedItems == Replay(taps)
      && Logged(routeParams, requests, taps)
      && (!granted ==> initialPosition == Origin)
    }

    /** The mounted screen: empty slots, the position at [0, 0], and the first
        point request, for the empty selection, issued by the effect on mount. */
    constructor (route: Params)
      ensures Valid()
      ensures routeParams == route
      ensures items == [] && points == [] && selectedItems == []
      ensures initialPosition == Origin
      ensures requests == [QueryFor(route, [])]
      ensures taps == [] && !granted
    {
      routeParams := route;
      items, points, selectedItems := [], [], [];
      initialPosition := Origin;
      requests := [QueryFor(route, [])];
      taps := [];
      granted := false;
    }

    /** handleSelectItem: toggles the id, and the changed selection issues one
        new point request with the route's city and uf and the new selection.
        The fetched points are not touched until a response arrives. */
    method SelectItem(id: int)
      requires Valid()
      modifies this
      ensures Valid()
      ensures selectedItems == Toggle(old(selectedItems), id)
      ensures requests == old(requests) + [QueryFor(routeParams, selectedItems)]
      ensures items == old(items) && points == old(points)
      ensures initialPosition == old(initialPosition)
      ensures taps == old(taps) + [id] && granted == old(granted)
    {
      ReplaySnoc(taps, id);
      LoggedExtend(routeParams, requests, taps, id);
      var next := Toggle(selectedItems, id);
      selectedItems := next;
      taps := taps + [id];
      requests := requests + [QueryFor(routeParams, next)];
    }

    /** The items response arrived: the slot is replaced by it. */
    method ItemsArrived(response: seq<Item>)
      requires Valid()
      modifies this
      ensures Valid()
      ensures items == response
      ensures points == old(points) && selectedItems == old(selectedItems)
      ensures initialPosition == old(initialPosition) && requests == old(requests)
      ensures taps == old(taps) && granted == old(granted)
    {
      items := response;
    }

    /** A points response arrived: the slot is replaced by it, never merged
        with what was there. */
    method PointsArrived(response: seq<Point>)
      requires Valid()
      modifies this
      ensures Valid()
      ensures points == response
      ensures items == old(items) && selectedItems == old(selectedItems)
      ensures initialPosition == old(initialPosition) && requests == old(requests)
      ensures taps == old(taps) && granted == old(granted)
    {
      points := response;
    }

    /** loadPosition: the permission request reported `status`; when it is
        granted, `location` is what the position request resolved to (None when
        it never resolves). A refusal shows the alert and changes nothing; a
        granted permission stores the position once it is known. */
    method PositionLoaded(status: string, location: Option<Position>) returns (alert: Option<Alert>)
      requires Valid()
      modifies this
      ensures Valid()
      ensures alert == (if status != Granted then Some(PermissionAlert) else None)
      ensures initialPosition ==
        (if status == Granted && location.Some? then location.value else old(initialPosition))
      ensures granted == (old(granted) || status == Granted)
      ensures items == old(items) && points == old(points) && selectedItems == old(selectedItems)
      ensures requests == old(requests) && taps == old(taps)
    {
      if status != Granted {
        alert := Some(PermissionAlert);
        return;
      }
      alert := None;
      granted := true;
      if location.Some? {
        initialPosition := location.value;
      }
    }

    /** What the screen draws from its current slots. */
    function View(): (v: ScreenView)
      reads this
      ensures v.mapView.Some? <==> initialPosition.latitude != 0.0
      ensures v.mapView.Some? ==>
        v.mapView.value.center == initialPosition && v.mapView.value.markers == Markers(points)
      ensures |v.chips| == |items|
      ensures forall i :: 0 <= i < |items| ==> (v.chips[i].selected <==> items[i].id in selectedItems)
    {
      ScreenView(RenderMap(initialPosition, points), RenderChips(items, selectedItems))
    }
  }

  /** Tapping the same chip twice restores the selected set, issues exactly two
      point requests (for the selection after each tap), leaves the selection
      free of duplicates and touches no other slot. */
  method TapTwice(screen: Screen, id: int)
    requires screen.Valid()
    modifies screen
    ensures screen.Valid()
    ensures Ids(screen.selectedItems) == Ids(old(screen.selectedItems))
    ensures screen.selectedItems == Toggle(Toggle(old(screen.selectedItems), id), id)
    ensures screen.requests == old(screen.requests)
      + [QueryFor(screen.routeParams, Toggle(old(screen.selectedItems), id))]
      + [QueryFor(screen.routeParams, screen.selectedItems)]
    ensures NoDuplicates(screen.selectedItems)
    ensures screen.points == old(screen.points) && screen.items == old(screen.items)
    ensures screen.initialPosition == old(screen.initialPosition) && screen.granted == old(screen.granted)
  {
    ghost var s0, r0 := screen.selectedItems, screen.requests;
    screen.SelectItem(id);
    ghost var s1, r1 := screen.selectedItems, screen.requests;
    assert r1 == r0 + [QueryFor(screen.routeParams, s1)];
    screen.SelectItem(id);
    assert screen.requests == r1 + [QueryFor(screen.routeParams, screen.selectedItems)];
    ToggleTwiceIds(s0, id);
    assert NoDuplicates(screen.selectedItems) by {
      ReplayNoDuplicates(screen.taps);
    }
  }
}
