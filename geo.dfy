/** Geographic arithmetic of the clustering hook: turning a map region
    (a centre and two spans, which the hook uses as half-spans) into the
    `[west, south, east, north]` box that is handed to the cluster index.
    Numbers are modelled as `real`; IEEE-754 rounding is not modelled. */
module Geo {

  /** A visible map region: its centre and its latitude/longitude spans.
      The hook extends the box by a whole span on each side of the centre.
      A negative longitude span is the wrapped form of a span that crosses
      the antimeridian. */
  datatype Region = Region(
    latitude: real,
    longitude: real,
    latitudeDelta: real,
    longitudeDelta: real)

  /** An axis-aligned box in degrees, in GeoJSON `[west, south, east, north]` order. */
  datatype BoundingBox = BoundingBox(west: real, south: real, east: real, north: real)

  /** The longitude span after unwrapping: a negative span is shifted by one
      full turn. On every span in [-360, 360) the result is the unique
      representative of the span modulo 360 in [0, 360), and a span that is
      already non-negative is left as it is. */
  function NormalizedLongitudeDelta(d: real): (n: real)
    ensures n == d || n == d + 360.0
    ensures d >= 0.0 ==> n == d
    ensures -360.0 <= d < 360.0 ==> 0.0 <= n < 360.0
    ensures d < 0.0 ==> n >= d + 360.0
  {
    if d < 0.0 then d + 360.0 else d
  }

  /** `regionToBoundingBox`: the box centred on the region's centre whose
      half-width is the normalised longitude span and whose half-height is
      the latitude span. No clamping to canonical ranges is done. */
  function RegionToBoundingBox(r: Region): (b: BoundingBox)
    ensures b.west + b.east == 2.0 * r.longitude
    ensures b.south + b.north == 2.0 * r.latitude
    ensures b.east - b.west == 2.0 * NormalizedLongitudeDelta(r.longitudeDelta)
    ensures b.north - b.south == 2.0 * r.latitudeDelta
  {
    var lngD := NormalizedLongitudeDelta(r.longitudeDelta);
    BoundingBox(
      r.longitude - lngD,
      r.latitude - r.latitudeDelta,
      r.longitude + lngD,
      r.latitude + r.latitudeDelta)
  }

  /** The centre and the two spans determine the box: any box with the same
      centre and the same widths as `RegionToBoundingBox(r)` is that box. */
  lemma BoxDeterminedByCentreAndSpans(r: Region, b: BoundingBox)
    requires b.west + b.east == 2.0 * r.longitude
    requires b.south + b.north == 2.0 * r.latitude
    requires b.east - b.west == 2.0 * NormalizedLongitudeDelta(r.longitudeDelta)
    requires b.north - b.south == 2.0 * r.latitudeDelta
    ensures b == RegionToBoundingBox(r)
  {
  }

  /** Orientation of the box: south lies below north exactly when the
      latitude span is non-negative, and west lies left of east exactly when
      the longitude span is at least one full negative turn, so a wrapped
      span in [-360, 0) never yields a negative-width box. */
  lemma BoxOrientation(r: Region)
    ensures RegionToBoundingBox(r).south <= RegionToBoundingBox(r).north <==> r.latitudeDelta >= 0.0
    ensures RegionToBoundingBox(r).west <= RegionToBoundingBox(r).east <==> r.longitudeDelta >= -360.0
  {
  }

  /** A wrapped span and its unwrapped form describe the same box. */
  lemma WrappedSpanSameBox(r: Region)
    requires -360.0 <= r.longitudeDelta < 0.0
    ensures RegionToBoundingBox(r) == RegionToBoundingBox(r.(longitudeDelta := r.longitudeDelta + 360.0))
  {
  }

  /** A region centred at longitude 179 with longitude span -2 crosses the
      antimeridian: the span is unwrapped to 358, giving a box of positive
      width rather than one whose west edge lies east of its east edge. */
  lemma AntimeridianExample()
    ensures RegionToBoundingBox(Region(0.0, 179.0, 1.0, -2.0)) == BoundingBox(-179.0, -1.0, 537.0, 1.0)
    ensures NormalizedLongitudeDelta(-2.0) == 358.0
  {
  }
}
