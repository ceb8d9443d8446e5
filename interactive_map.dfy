/**
 * The map view: the zoom scale and its bounds, the category filter on the markers,
 * the conversion of a click on the map surface into percentage coordinates, and the
 * routing of a click to either a marker or the surface.
 */
module InteractiveMap {
  import opened Types
  import opened Seqs
  import Projection
  import LocationStore

  const ZoomStep: real := 0.2
  const MinScale: real := 1.0
  const MaxScale: real := 2.5

  /** `Math.min(prev + 0.2, 2.5)`. */
  function ZoomInScale(s: real): (r: real)
    ensures r <= MaxScale && r <= s + ZoomStep
    ensures r == s + ZoomStep || r == MaxScale
  {
    if s + ZoomStep < MaxScale then s + ZoomStep else MaxScale
  }

  /** `Math.max(prev - 0.2, 1)`. */
  function ZoomOutScale(s: real): (r: real)
    ensures r >= MinScale && r >= s - ZoomStep
    ensures r == s - ZoomStep || r == MinScale
  {
    if s - ZoomStep > MinScale then s - ZoomStep else MinScale
  }

  predicate ScaleInRange(s: real)
  {
    MinScale <= s <= MaxScale
  }

  /** Both buttons keep the scale within [1, 2.5], and each is a no-op at its own bound. */
  lemma ZoomStaysInRange(s: real)
    requires ScaleInRange(s)
    ensures ScaleInRange(ZoomInScale(s)) && ScaleInRange(ZoomOutScale(s))
    ensures ZoomInScale(MaxScale) == MaxScale && ZoomOutScale(MinScale) == MinScale
    ensures ZoomInScale(s) >= s && ZoomOutScale(s) <= s
  {
  }

  /** Away from the bounds, zooming out undoes zooming in and vice versa. */
  lemma ZoomRoundTrip(s: real)
    requires ScaleInRange(s)
    ensures s + ZoomStep <= MaxScale ==> ZoomOutScale(ZoomInScale(s)) == s
    ensures MinScale <= s - ZoomStep ==> ZoomInScale(ZoomOutScale(s)) == s
  {
  }

  /** The map's zoom state. */
  class MapView {
    var scale: real

    ghost predicate Valid()
      reads this
    {
      ScaleInRange(scale)
    }

    constructor ()
      ensures scale == MinScale && Valid()
    {
      scale := MinScale;
    }

    method ZoomIn()
      requires Valid()
      modifies this`scale
      ensures Valid() && scale == ZoomInScale(old(scale))
    {
      ZoomStaysInRange(scale);
      scale := ZoomInScale(scale);
    }

    method ZoomOut()
      requires Valid()
      modifies this`scale
      ensures Valid() && scale == ZoomOutScale(old(scale))
    {
      ZoomStaysInRange(scale);
      scale := ZoomOutScale(scale);
    }
  }

  /** `filteredLocations`: everything with no active category, otherwise that category's records in order. */
  function ByCategory(locations: seq<Location>, active: Option<Category>): (r: seq<Location>)
    ensures active.None? ==> r == locations
    ensures active.Some? ==> forall l :: l in r <==> l in locations && l.category == active.value
    ensures |r| <= |locations|
  {
    if active.None? then locations else Filter(locations, (l: Location) => l.category == active.value)
  }

  /** The category filter keeps the list's order. */
  lemma ByCategoryPreservesOrder(a: seq<Location>, b: seq<Location>, active: Option<Category>)
    ensures ByCategory(a + b, active) == ByCategory(a, active) + ByCategory(b, active)
  {
    if active.Some? {
      FilterAppend(a, b, (l: Location) => l.category == active.value);
    }
  }

  /** What each marker is given: its location, the first matching config, and whether it is the highlighted one. */
  datatype MarkerProps = MarkerProps(location: Location, config: Option<CategoryConfig>, active: bool)

  function Markers(locations: seq<Location>, active: Option<Category>, configs: seq<CategoryConfig>,
                   highlightedId: Option<string>): (r: seq<MarkerProps>)
    ensures var shown := ByCategory(locations, active);
      |r| == |shown| &&
      forall i :: 0 <= i < |shown| ==>
        r[i].location == shown[i] && r[i].config == FindConfig(configs, shown[i].category)
    ensures forall i :: 0 <= i < |r| ==> (r[i].active <==> highlightedId == Some(r[i].location.id))
  {
    var shown := ByCategory(locations, active);
    seq(|shown|, i requires 0 <= i < |shown| =>
      MarkerProps(shown[i], FindConfig(configs, shown[i].category), highlightedId == Some(shown[i].id)))
  }

  /** Fed the guest view, the map draws no PENDING record and nothing outside the active category. */
  lemma GuestMapShowsOnlyApproved(locations: seq<Location>, active: Option<Category>, configs: seq<CategoryConfig>,
                                  highlightedId: Option<string>)
    ensures var r := Markers(LocationStore.Visible(locations, false), active, configs, highlightedId);
      forall i :: 0 <= i < |r| ==>
        r[i].location in locations && r[i].location.status == APPROVED &&
        (active.Some? ==> r[i].location.category == active.value)
  {
    var v := LocationStore.Visible(locations, false);
    var shown := ByCategory(v, active);
    assert forall i :: 0 <= i < |shown| ==> shown[i] in shown;
  }

  /** With no highlighted id no marker is active; with unique ids at most one is. */
  lemma AtMostOneActiveMarker(locations: seq<Location>, active: Option<Category>, configs: seq<CategoryConfig>,
                              highlightedId: Option<string>)
    requires LocationStore.UniqueIds(ByCategory(locations, active))
    ensures var r := Markers(locations, active, configs, highlightedId);
      (highlightedId.None? ==> forall i :: 0 <= i < |r| ==> !r[i].active) &&
      forall i, j :: 0 <= i < |r| && 0 <= j < |r| && r[i].active && r[j].active ==> i == j
  {
    var r := Markers(locations, active, configs, highlightedId);
    var shown := ByCategory(locations, active);
    assert forall i :: 0 <= i < |r| ==> r[i].location == shown[i];
  }

  /** The map element's bounding box on screen. */
  datatype Rect = Rect(left: real, top: real, width: real, height: real)

  /** A box with some width and height (the source divides by both without a guard). */
  predicate Sized(rect: Rect)
  {
    rect.width != 0.0 && rect.height != 0.0
  }

  /** The click position in percent of the box, from its left and top edges. */
  function ClickPoint(rect: Rect, clientX: real, clientY: real): (p: Coords)
    requires Sized(rect)
    ensures rect.left + p.x / 100.0 * rect.width == clientX
    ensures rect.top + p.y / 100.0 * rect.height == clientY
  {
    Coords(Projection.Percent(clientX - rect.left, rect.width), Projection.Percent(clientY - rect.top, rect.height))
  }

  /** A click inside a box of positive size lands within [0, 100] on both axes. */
  lemma ClickInsideInRange(rect: Rect, clientX: real, clientY: real)
    requires 0.0 < rect.width && 0.0 < rect.height
    requires rect.left <= clientX <= rect.left + rect.width && rect.top <= clientY <= rect.top + rect.height
    ensures var p := ClickPoint(rect, clientX, clientY);
      0.0 <= p.x <= 100.0 && 0.0 <= p.y <= 100.0
  {
    Projection.PercentInRange(clientX - rect.left, rect.width);
    Projection.PercentInRange(clientY - rect.top, rect.height);
  }

  /**
   * `handleMapClick`: nothing unless the map is in admin mode, has an `onMapClick`
   * handler and is mounted; then the click point in percent.
   */
  function HandleMapClick(isAdminMode: bool, hasOnMapClick: bool, mapRect: Option<Rect>,
                          clientX: real, clientY: real): (r: Option<Coords>)
    requires mapRect.Some? ==> Sized(mapRect.value)
    ensures r.Some? <==> isAdminMode && hasOnMapClick && mapRect.Some?
    ensures r.Some? ==> mapRect.value.left + r.value.x / 100.0 * mapRect.value.width == clientX &&
                        mapRect.value.top + r.value.y / 100.0 * mapRect.value.height == clientY
  {
    if !isAdminMode || !hasOnMapClick || mapRect.None? then None
    else Some(ClickPoint(mapRect.value, clientX, clientY))
  }

  /** Where a click lands: on a marker, or on the bare map surface. */
  datatype ClickTarget = OnMarker(loc: Location) | OnSurface(clientX: real, clientY: real)

  /** What a click causes: `onMarkerClick`, `onMapClick`, or nothing. */
  datatype ClickEffect = MarkerClicked(loc: Location) | MapClicked(at: Coords) | NoEffect

  /**
   * A marker click calls `onMarkerClick` when there is one and stops the event, so the
   * surface handler never sees it; a surface click goes to `handleMapClick`.
   */
  function DispatchClick(target: ClickTarget, isAdminMode: bool, hasOnMapClick: bool, hasOnMarkerClick: bool,
                         mapRect: Option<Rect>): (e: ClickEffect)
    requires mapRect.Some? ==> Sized(mapRect.value)
    ensures target.OnMarker? ==> !e.MapClicked? && (e.MarkerClicked? <==> hasOnMarkerClick) &&
                                 (e.MarkerClicked? ==> e.loc == target.loc)
    ensures target.OnSurface? ==> (
      !e.MarkerClicked? &&
      (e.MapClicked? <==> isAdminMode && hasOnMapClick && mapRect.Some?) &&
      (e.MapClicked? ==> e.at == ClickPoint(mapRect.value, target.clientX, target.clientY)))
  {
    match target
    case OnMarker(loc) => if hasOnMarkerClick then MarkerClicked(loc) else NoEffect
    case OnSurface(cx, cy) =>
      var r := HandleMapClick(isAdminMode, hasOnMapClick, mapRect, cx, cy);
      if r.Some? then MapClicked(r.value) else NoEffect
  }
}
