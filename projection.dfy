/**
 * The linear projection of a GPS fix onto the map image, in percent of its width
 * (from the left edge) and height (from the top edge), given the geographic box the
 * image covers. The result is not clamped: a fix outside the box lands off the map.
 */
module Projection {
  import opened Types

  datatype LatLng = LatLng(lat: real, lng: real)

  /** The geographic box of the map image: its top-left and bottom-right corners. */
  datatype Bounds = Bounds(topLeft: LatLng, bottomRight: LatLng)

  /** Neither range is zero (the source divides by both without a guard). */
  predicate NonDegenerate(b: Bounds)
  {
    b.topLeft.lat != b.bottomRight.lat && b.bottomRight.lng != b.topLeft.lng
  }

  /** North is up and east is right: latitude falls down the image, longitude grows across it. */
  predicate NorthUp(b: Bounds)
  {
    b.bottomRight.lat < b.topLeft.lat && b.topLeft.lng < b.bottomRight.lng
  }

  /** `v` lies between `a` and `b`, in whichever order they come. */
  predicate Between(v: real, a: real, b: real)
  {
    a <= v <= b || b <= v <= a
  }

  /** The fix lies between the two corners on each axis, whatever way the box is oriented. */
  predicate BetweenCorners(b: Bounds, lat: real, lng: real)
  {
    Between(lat, b.topLeft.lat, b.bottomRight.lat) && Between(lng, b.topLeft.lng, b.bottomRight.lng)
  }

  /** `offset / extent * 100`: the share of the extent the offset covers, in percent. */
  function Percent(offset: real, extent: real): (r: real)
    requires extent != 0.0
    ensures r * extent == offset * 100.0
  {
    offset / extent * 100.0
  }

  /** An offset within a positive extent is a percentage between 0 and 100. */
  lemma PercentInRange(offset: real, extent: real)
    requires 0.0 < extent && 0.0 <= offset <= extent
    ensures 0.0 <= Percent(offset, extent) <= 100.0
  {
    assert offset / extent <= 1.0 by {
      assert offset / extent * extent == offset;
    }
  }

  /** An offset between 0 and the extent, whatever the extent's sign, is a percentage between 0 and 100. */
  lemma PercentInRangeEitherSign(offset: real, extent: real)
    requires extent != 0.0 && Between(offset, 0.0, extent)
    ensures 0.0 <= Percent(offset, extent) <= 100.0
  {
    if extent > 0.0 {
      PercentInRange(offset, extent);
    } else {
      PercentInRange(-offset, -extent);
      assert (-offset) / (-extent) == offset / extent by {
        assert offset / extent * (-extent) == -offset;
      }
    }
  }

  /** Over a positive extent, a larger offset gives a strictly larger percentage. */
  lemma PercentIncreasing(a: real, b: real, extent: real)
    requires 0.0 < extent && a < b
    ensures Percent(a, extent) < Percent(b, extent)
  {
    assert b / extent - a / extent == (b - a) / extent;
    assert (b - a) / extent > 0.0;
  }

  /**
   * `handleRequestUserLocation`'s arithmetic:
   * x = (lng - topLeft.lng) / (bottomRight.lng - topLeft.lng) * 100 and
   * y = (topLeft.lat - lat) / (topLeft.lat - bottomRight.lat) * 100.
   */
  function Project(lat: real, lng: real, b: Bounds): (p: Coords)
    requires NonDegenerate(b)
    ensures p.x * (b.bottomRight.lng - b.topLeft.lng) == (lng - b.topLeft.lng) * 100.0
    ensures p.y * (b.topLeft.lat - b.bottomRight.lat) == (b.topLeft.lat - lat) * 100.0
  {
    var latRange := b.topLeft.lat - b.bottomRight.lat;
    var lngRange := b.bottomRight.lng - b.topLeft.lng;
    Coords(Percent(lng - b.topLeft.lng, lngRange), Percent(b.topLeft.lat - lat, latRange))
  }

  /** The map point back to a geographic position: the inverse linear map. */
  function Unproject(p: Coords, b: Bounds): LatLng
  {
    var latRange := b.topLeft.lat - b.bottomRight.lat;
    var lngRange := b.bottomRight.lng - b.topLeft.lng;
    LatLng(b.topLeft.lat - p.y / 100.0 * latRange, b.topLeft.lng + p.x / 100.0 * lngRange)
  }

  /** The projection loses nothing: unprojecting its result gives back the fix. */
  lemma ProjectInverse(lat: real, lng: real, b: Bounds)
    requires NonDegenerate(b)
    ensures Unproject(Project(lat, lng, b), b) == LatLng(lat, lng)
  {
    var latRange := b.topLeft.lat - b.bottomRight.lat;
    var lngRange := b.bottomRight.lng - b.topLeft.lng;
    assert (lng - b.topLeft.lng) / lngRange * 100.0 / 100.0 * lngRange == lng - b.topLeft.lng;
    assert (b.topLeft.lat - lat) / latRange * 100.0 / 100.0 * latRange == b.topLeft.lat - lat;
  }

  /** The top-left corner lands at (0, 0) and the bottom-right corner at (100, 100). */
  lemma ProjectCorners(b: Bounds)
    requires NonDegenerate(b)
    ensures Project(b.topLeft.lat, b.topLeft.lng, b) == Coords(0.0, 0.0)
    ensures Project(b.bottomRight.lat, b.bottomRight.lng, b) == Coords(100.0, 100.0)
  {
    var latRange := b.topLeft.lat - b.bottomRight.lat;
    var lngRange := b.bottomRight.lng - b.topLeft.lng;
    assert lngRange / lngRange == 1.0;
    assert latRange / latRange == 1.0;
  }

  /** Every fix between the two corners lands on the map, in [0, 100] on both axes, whichever way the box is oriented. */
  lemma ProjectInBox(lat: real, lng: real, b: Bounds)
    requires NonDegenerate(b) && BetweenCorners(b, lat, lng)
    ensures 0.0 <= Project(lat, lng, b).x <= 100.0
    ensures 0.0 <= Project(lat, lng, b).y <= 100.0
  {
    PercentInRangeEitherSign(lng - b.topLeft.lng, b.bottomRight.lng - b.topLeft.lng);
    PercentInRangeEitherSign(b.topLeft.lat - lat, b.topLeft.lat - b.bottomRight.lat);
  }

  /**
   * With north up, x grows strictly with longitude and y grows strictly as latitude
   * falls, so a fix east or south of the box lands beyond 100 and one west or north
   * of it below 0: no clamping.
   */
  lemma ProjectMonotone(lat1: real, lng1: real, lat2: real, lng2: real, b: Bounds)
    requires NonDegenerate(b) && NorthUp(b)
    ensures lng1 < lng2 ==> Project(lat1, lng1, b).x < Project(lat2, lng2, b).x
    ensures lat1 > lat2 ==> Project(lat1, lng1, b).y < Project(lat2, lng2, b).y
  {
    var latRange := b.topLeft.lat - b.bottomRight.lat;
    var lngRange := b.bottomRight.lng - b.topLeft.lng;
    if lng1 < lng2 {
      PercentIncreasing(lng1 - b.topLeft.lng, lng2 - b.topLeft.lng, lngRange);
    }
    if lat1 > lat2 {
      PercentIncreasing(b.topLeft.lat - lat1, b.topLeft.lat - lat2, latRange);
    }
  }

  /** A fix outside the box lands off the map on the matching side. */
  lemma ProjectOutsideBox(lat: real, lng: real, b: Bounds)
    requires NonDegenerate(b) && NorthUp(b)
    ensures lng > b.bottomRight.lng ==> Project(lat, lng, b).x > 100.0
    ensures lng < b.topLeft.lng ==> Project(lat, lng, b).x < 0.0
    ensures lat < b.bottomRight.lat ==> Project(lat, lng, b).y > 100.0
    ensures lat > b.topLeft.lat ==> Project(lat, lng, b).y < 0.0
  {
    ProjectCorners(b);
    ProjectMonotone(lat, lng, b.bottomRight.lat, b.bottomRight.lng, b);
    ProjectMonotone(b.bottomRight.lat, b.bottomRight.lng, lat, lng, b);
    ProjectMonotone(lat, lng, b.topLeft.lat, b.topLeft.lng, b);
    ProjectMonotone(b.topLeft.lat, b.topLeft.lng, lat, lng, b);
  }
}
