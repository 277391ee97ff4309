/** The hook's configuration: the optional arguments and their defaults,
    the index configuration derived from them, the zoom at which a region
    is queried, and the identity keys that decide when work is redone. */
module HookOptions {
  import opened Geo

  datatype Option<T> = None | Some(value: T)

  /** The numeric arguments of `useCluster`; an absent optional argument is `None`. */
  datatype Settings = Settings(
    extent: Option<int>,
    minZoom: Option<int>,
    maxZoom: Option<int>,
    radius: Option<real>,
    width: real,
    height: real)

  /** The configuration handed to the cluster index constructor. */
  datatype IndexConfig = IndexConfig(extent: int, minZoom: int, maxZoom: int, radius: real)

  const DefaultExtent: int := 512
  const DefaultMinZoom: int := 1
  const DefaultMaxZoom: int := 16
  /** Fraction of the display width used as the clustering radius by default. */
  const RadiusWidthFraction: real := 0.045

  /** A destructuring default: it applies only when the argument is absent,
      so an explicit 0 is kept. */
  function OrDefault<T>(o: Option<T>, default: T): (v: T)
    ensures o.None? ==> v == default
    ensures o.Some? ==> v == o.value
  {
    match o
    case None => default
    case Some(x) => x
  }

  /** `radius || width * 0.045`: the given radius unless it is absent or
      falsy (zero), otherwise 4.5% of the display width. */
  function EffectiveRadius(radius: Option<real>, width: real): (r: real)
    ensures radius.Some? && radius.value != 0.0 ==> r == radius.value
    ensures radius.None? || radius.value == 0.0 ==> r == width * RadiusWidthFraction
    ensures width != 0.0 ==> r != 0.0
  {
    if radius.Some? && radius.value != 0.0 then radius.value else width * RadiusWidthFraction
  }

  /** The options object built by `createClusterIndex`. */
  function ToIndexConfig(s: Settings): (c: IndexConfig)
    ensures c.extent == (if s.extent.Some? then s.extent.value else 512)
    ensures c.minZoom == (if s.minZoom.Some? then s.minZoom.value else 1)
    ensures c.maxZoom == (if s.maxZoom.Some? then s.maxZoom.value else 16)
    ensures c.radius == EffectiveRadius(s.radius, s.width)
  {
    IndexConfig(
      OrDefault(s.extent, DefaultExtent),
      OrDefault(s.minZoom, DefaultMinZoom),
      OrDefault(s.maxZoom, DefaultMaxZoom),
      EffectiveRadius(s.radius, s.width))
  }

  /** With no optional argument given, the index is configured with extent
      512, zoom levels 1 to 16 and a radius of 4.5% of the width. */
  lemma AllDefaults(width: real, height: real)
    ensures ToIndexConfig(Settings(None, None, None, None, width, height))
         == IndexConfig(512, 1, 16, width * 45.0 / 1000.0)
  {
  }

  /** Zero is treated differently by the two kinds of default: an explicit
      radius of 0 falls back to the width-based radius, while an explicit
      extent or zoom bound of 0 is kept. */
  lemma ZeroRadiusFallsBack(s: Settings)
    requires s.radius == Some(0.0) && s.extent == Some(0) && s.minZoom == Some(0)
    ensures ToIndexConfig(s).radius == s.width * RadiusWidthFraction
    ensures ToIndexConfig(s).extent == 0 && ToIndexConfig(s).minZoom == 0
  {
  }

  /** Longitude spans at or above this value skip the viewport fit. */
  const WorldSpanThreshold: real := 40.0

  /** The zoom passed to the cluster query in `createClusters`: the minimum
      zoom when the region's raw longitude span is at least 40 degrees,
      otherwise the zoom at which the region's box fits a `width` x `height`
      display, as computed by `fit` (the viewport-fit library, not modelled). */
  function QueryZoom(region: Region, minZoom: int, width: real, height: real,
                     fit: (BoundingBox, real, real) -> int): (z: int)
    ensures region.longitudeDelta >= WorldSpanThreshold ==> z == minZoom
    ensures region.longitudeDelta < WorldSpanThreshold ==> z == fit(RegionToBoundingBox(region), width, height)
  {
    if region.longitudeDelta >= WorldSpanThreshold then minZoom
    else fit(RegionToBoundingBox(region), width, height)
  }

  /** On a world-sized span the zoom does not depend on the display size
      nor on the viewport fit. */
  lemma WorldSpanIgnoresDisplay(region: Region, minZoom: int,
                                w1: real, h1: real, fit1: (BoundingBox, real, real) -> int,
                                w2: real, h2: real, fit2: (BoundingBox, real, real) -> int)
    requires region.longitudeDelta >= WorldSpanThreshold
    ensures QueryZoom(region, minZoom, w1, h1, fit1) == QueryZoom(region, minZoom, w2, h2, fit2) == minZoom
  {
  }

  /** The shortcut tests the span as given, before unwrapping: a wrapped span
      of -300, which unwraps to 60 (above the threshold), still goes through
      the viewport fit, and its zoom is whatever the fit says. */
  lemma ShortcutUsesRawSpan(fit: (BoundingBox, real, real) -> int, width: real, height: real)
    ensures NormalizedLongitudeDelta(-300.0) >= WorldSpanThreshold
    ensures QueryZoom(Region(0.0, 0.0, 1.0, -300.0), 1, width, height, fit)
         == fit(BoundingBox(-60.0, -1.0, 60.0, 1.0), width, height)
  {
  }

  /** One entry of a hook dependency list: a number, or `undefined`. */
  datatype Dep = Number(n: real) | Undefined

  /** Default `getItemsId`: the item list is identified by its length only. */
  function DefaultItemsId<T>(items: seq<T>): (key: seq<Dep>)
    ensures key == [Number(|items| as real)]
  {
    [Number(|items| as real)]
  }

  /** Two item lists have the same default key exactly when they have the
      same length: replacing items by as many other items is not seen. */
  lemma DefaultItemsIdSameIffSameLength<T>(a: seq<T>, b: seq<T>)
    ensures DefaultItemsId(a) == DefaultItemsId(b) <==> |a| == |b|
  {
  }

  /** Default `getRegionId`: the four numeric fields of the region, in the
      order latitude, longitude, latitudeDelta, longitudeDelta, each
      `undefined` when there is no region. */
  function DefaultRegionId(region: Option<Region>): (key: seq<Dep>)
    ensures |key| == 4
    ensures region.None? ==> forall i :: 0 <= i < 4 ==> key[i] == Undefined
    ensures region.Some? ==>
      && key[0] == Number(region.value.latitude)
      && key[1] == Number(region.value.longitude)
      && key[2] == Number(region.value.latitudeDelta)
      && key[3] == Number(region.value.longitudeDelta)
  {
    match region
    case None => [Undefined, Undefined, Undefined, Undefined]
    case Some(r) => [Number(r.latitude), Number(r.longitude), Number(r.latitudeDelta), Number(r.longitudeDelta)]
  }

  /** The default region key identifies the region: equal keys mean equal
      regions (or both absent), so every change of a field is seen. */
  lemma DefaultRegionIdInjective(a: Option<Region>, b: Option<Region>)
    ensures DefaultRegionId(a) == DefaultRegionId(b) <==> a == b
  {
  }
}
