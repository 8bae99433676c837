/** The records the listing screen fetches and what it renders from its state:
    the map with one marker per point, shown only once a position is known, and
    the row of category chips, highlighted by the selection. Rendering is a pure
    function of the state slots. */
module PointsView {

  import opened Wrappers
  import Selection

  /** A collectible-item category as the items endpoint returns it. */
  datatype Item = Item(id: int, title: string, imageUrl: string)

  /** A collection point as the filtered points endpoint returns it. Coordinates
      are exact reals standing for the floating-point numbers: nothing here does
      arithmetic on them. */
  datatype Point = Point(id: int, name: string, image: string, imageUrl: string,
                         latitude: real, longitude: real)

  /** The `[latitude, longitude]` pair held in the initialPosition slot. */
  datatype Position = Position(latitude: real, longitude: real)

  /** The slot's value before any position is granted. */
  const Origin := Position(0.0, 0.0)

  /** A map marker: where it stands, what it shows, and the point id that a
      press on it navigates to on the detail screen. */
  datatype Marker = Marker(detailPointId: int, latitude: real, longitude: real,
                           imageUrl: string, title: string)

  /** The map, centred on the initial position, with its markers. */
  datatype MapView = MapView(center: Position, markers: seq<Marker>)

  /** A category chip: the item it toggles, what it shows, and whether it is
      drawn in the selected style. */
  datatype Chip = Chip(itemId: int, title: string, imageUrl: string, selected: bool)

  function MarkerFor(p: Point): (m: Marker)
    ensures m.detailPointId == p.id
    ensures m.latitude == p.latitude && m.longitude == p.longitude
    ensures m.imageUrl == p.imageUrl && m.title == p.name
  {
    Marker(p.id, p.latitude, p.longitude, p.imageUrl, p.name)
  }

  /** The `points.map(...)` inside the map, one marker per point, in order. */
  function Markers(points: seq<Point>): (ms: seq<Marker>)
    ensures |ms| == |points|
    ensures forall i :: 0 <= i < |points| ==> ms[i] == MarkerFor(points[i])
  {
    if points == [] then [] else [MarkerFor(points[0])] + Markers(points[1..])
  }

  /** The map is rendered only when the latitude of the position is non-zero. */
  function RenderMap(position: Position, points: seq<Point>): (r: Option<MapView>)
    ensures r.Some? <==> position.latitude != 0.0
    ensures r.Some? ==> r.value.center == position && r.value.markers == Markers(points)
  {
    if position.latitude != 0.0 then Some(MapView(position, Markers(points))) else None
  }

  /** The `items.map(...)` of the chip row; a chip is highlighted when
      `selectedItems.includes(item.id)`. */
  function RenderChips(items: seq<Item>, selected: seq<int>): (cs: seq<Chip>)
    ensures |cs| == |items|
    ensures forall i :: 0 <= i < |items| ==>
      cs[i].itemId == items[i].id && cs[i].title == items[i].title &&
      cs[i].imageUrl == items[i].imageUrl && (cs[i].selected <==> items[i].id in selected)
  {
    if items == [] then []
    else [Chip(items[0].id, items[0].title, items[0].imageUrl, items[0].id in selected)]
         + RenderChips(items[1..], selected)
  }

  /** The markers lead to exactly the fetched points: each marker's target is a
      fetched point id and each fetched point has a marker. */
  lemma {:induction false} MarkerTargets(points: seq<Point>)
    ensures forall m :: m in Markers(points) ==> exists p :: p in points && m == MarkerFor(p)
    ensures forall p :: p in points ==> MarkerFor(p) in Markers(points)
  {
    if points != [] {
      MarkerTargets(points[1..]);
      assert points == [points[0]] + points[1..];
    }
  }

  /** Markers of a concatenation are the concatenation of the markers: a
      response is rendered in its own order. */
  lemma {:induction false} MarkersConcat(a: seq<Point>, b: seq<Point>)
    ensures Markers(a + b) == Markers(a) + Markers(b)
  {
    if a == [] {
      assert a + b == b;
    } else {
      assert (a + b)[1..] == a[1..] + b;
      MarkersConcat(a[1..], b);
    }
  }

  /** On a position that was never granted the map, and with it every marker,
      stays hidden whatever points were fetched. */
  lemma NoMapAtOrigin(points: seq<Point>)
    ensures RenderMap(Origin, points) == None
  {
  }

  /** A tap on a chip changes the highlight of exactly the chips of that item. */
  lemma ToggleChangesOnlyThatChip(items: seq<Item>, selected: seq<int>, id: int)
    ensures forall i :: 0 <= i < |items| ==>
      ((RenderChips(items, Selection.Toggle(selected, id))[i].selected
        != RenderChips(items, selected)[i].selected) <==> items[i].id == id)
  {
  }
}
