# useCluster — a verified model

`useCluster` is a React Native hook that groups map markers into clusters.
The caller gives it a list of items and a map region. The hook builds a
cluster index over the items with the `supercluster` library. It turns the
region into a bounding box and a zoom level, with help from
`@mapbox/geo-viewport`. It then asks the index for the clusters in that box.
It also offers `getCoordinates(clusterId)`, which lists the coordinates of the
items under a cluster.

This project models the hook's own logic and leaves the two libraries
uninterpreted:

- `geo.dfy` (module `Geo`): `regionToBoundingBox`. A negative longitude span
  is unwrapped by adding 360. The box is then centred on the region.
- `hook_options.dfy` (module `HookOptions`): the defaults of the optional
  arguments, and the effective radius `radius || width * 0.045`. It also holds
  the query zoom, which is the minimum zoom once the raw longitude span
  reaches 40 and otherwise comes from the viewport fit. Last, the default
  identity keys `getItemsId` and `getRegionId`.
- `features.dfy` (module `Features`): the GeoJSON point features built from
  the items, and the coordinates read back from a cluster's leaves.
- `session.dfy` (module `Session`): the state kept across renders, as the
  class `ClusterSession`. It holds the index (`clusterIndexRef.current`), the
  cached `clusters` state and the dependency keys the two effects last ran
  with. `Rebuild` and `Query` are the bodies of the two effects. `Render` runs
  them in declaration order, each only when its key changed.
  `CurrentClusters` is `clusters || []`, and `GetCoordinates` is
  `getCoordinates`. A render returns `clusters || []` before its effects
  run, so a freshly computed list shows on the following render, the one
  that `setClusters` causes.

The libraries are a `Library` value of four uninterpreted functions over an
abstract index type: `load`, `getClusters`, `getLeaves` and `viewportZoom`.
Numbers are `real`. Zoom levels and the tile extent are `int`.

The world-span shortcut in `createClusters` tests the raw
`region.longitudeDelta` (src/useCluster.ts:107), not the unwrapped span. A
wrapped span of -300 unwraps to 60, yet still goes through the viewport fit.
The model follows the code. `HookOptions.ShortcutUsesRawSpan` exhibits that
case.

The hook does not validate its configuration. It accepts `minZoom > maxZoom`,
a negative radius and a zero width. The model follows the code and puts no
precondition on these.

A rebuild does not by itself re-run the query. With the default items key
`[items.length]`, replacing the items by as many other items rebuilds nothing.
Later queries then go to the index of the earlier items.
`Session.SameLengthUpdateKeepsIndex` states this.

## Model

| member | source | states |
|---|---|---|
| `Geo.NormalizedLongitudeDelta` | src/useCluster.ts:152-155 | the unwrapped span differs from the given one by 0 or 360, leaves a non-negative span unchanged, and maps every span in [-360, 360) into [0, 360) |
| `Geo.RegionToBoundingBox` | src/useCluster.ts:149-163 | the box is centred on the region's centre, its width is twice the unwrapped longitude span and its height twice the latitude span |
| `Geo.BoxDeterminedByCentreAndSpans` | src/useCluster.ts:157-162 | centre and spans determine the box uniquely, so the contract of `RegionToBoundingBox` characterises it fully |
| `Geo.BoxOrientation` | src/useCluster.ts:152-162 | south <= north exactly when latitudeDelta >= 0; west <= east exactly when longitudeDelta >= -360, so no negative-width box arises after unwrapping |
| `Geo.WrappedSpanSameBox` | src/useCluster.ts:152-162 | a negative span in [-360, 0) and the same span plus 360 give the same box |
| `Geo.AntimeridianExample` | src/useCluster.ts:152-162 | a region at longitude 179 with span -2 unwraps to 358 and gives the box [-179, -1, 537, 1] |
| `HookOptions.OrDefault` | src/useCluster.ts:47-49 | a default applies only to an absent argument; a given value, 0 included, is kept |
| `HookOptions.EffectiveRadius` | src/useCluster.ts:76 | a non-zero radius is used as given; an absent or zero radius becomes 4.5% of the width; the result is non-zero whenever the width is |
| `HookOptions.ToIndexConfig` | src/useCluster.ts:69-77 | the index gets extent 512, minZoom 1 and maxZoom 16 unless given, and the effective radius |
| `HookOptions.AllDefaults` | src/useCluster.ts:47-50 | with no optional argument the configuration is (512, 1, 16, width * 0.045) |
| `HookOptions.ZeroRadiusFallsBack` | src/useCluster.ts:47-76 | an explicit radius 0 falls back to the width-based radius while an explicit extent or minZoom 0 is kept |
| `HookOptions.QueryZoom` | src/useCluster.ts:106-109 | the query zoom is minZoom when the raw longitudeDelta is at least 40, and otherwise the viewport fit of the region's box for the display size |
| `HookOptions.WorldSpanIgnoresDisplay` | src/useCluster.ts:106-108 | for a raw span of at least 40 the zoom is minZoom whatever the width, height or viewport fit |
| `HookOptions.ShortcutUsesRawSpan` | src/useCluster.ts:105-109 | a span of -300 unwraps to 60, at least 40, but its zoom still comes from the viewport fit |
| `HookOptions.DefaultItemsId` | src/useCluster.ts:45 | the default items key is `[items.length]`, the item count alone |
| `HookOptions.DefaultItemsIdSameIffSameLength` | src/useCluster.ts:45 | two item lists have equal default keys exactly when they have the same length |
| `HookOptions.DefaultRegionId` | src/useCluster.ts:38-43 | the default region key is latitude, longitude, latitudeDelta, longitudeDelta in that order, or four `undefined` without a region |
| `HookOptions.DefaultRegionIdInjective` | src/useCluster.ts:38-43 | two regions, or their absence, have equal default keys exactly when they are equal |
| `Features.ItemToFeature` | src/useCluster.ts:80-93 | the feature's position is the item's longitude then latitude; its properties are cluster false, cluster_id -1, point_count 0 and point_count_abbreviated 0; it carries the item unchanged |
| `Features.ToFeatures` | src/useCluster.ts:79-94 | one feature per item, same count, the i-th feature built from the i-th item |
| `Features.FeatureItemsRoundTrip` | src/useCluster.ts:79-94 | reading the items back from the features gives the original list |
| `Features.ToFeaturesAppend` | src/useCluster.ts:79-94 | building features commutes with concatenating item lists |
| `Features.LeafCoordinates` | src/useCluster.ts:120 | one coordinate per leaf, in leaf order, each the leaf item's `coordinate` |
| `Features.LeafCoordinatesOfFeatures` | src/useCluster.ts:79-120 | leaves that are features built by the hook give back the items' own coordinates, and each feature's position holds those two numbers in GeoJSON order |
| `Session.CreateClusters` | src/useCluster.ts:101-111 | the index is queried for the region's box, at minZoom when the raw span is at least 40 and at the viewport-fit zoom otherwise |
| `Session.ClusterSession.constructor` | src/useCluster.ts:36-45 | a new session holds no index, no clusters and no keys; missing key functions are the defaults; the exposed clusters are [] |
| `Session.ClusterSession.CurrentClusters` | src/useCluster.ts:144 | the exposed clusters are the cached list, or [] before any query has run |
| `Session.ClusterSession.GetCoordinates` | src/useCluster.ts:113-121 | [] when no index is held; otherwise one coordinate per leaf of the held index, in leaf order |
| `Session.ClusterSession.Rebuild` | src/useCluster.ts:128-131 | the held index is replaced by the library's index of the items' features, built with the derived configuration; the cached clusters are untouched |
| `Session.ClusterSession.Query` | src/useCluster.ts:133-141 | with an index and a region, the cache becomes that index's answer for the region; otherwise the cache is unchanged |
| `Session.ClusterSession.Render` | src/useCluster.ts:128-146 | the render returns the exposed clusters as they stood before its effects; then a rebuild happens exactly when the items key changed, and a query runs exactly when the combined key changed and a region is given, using the index held after the rebuild |
| `Session.FirstRenderQueriesNewIndex` | src/useCluster.ts:123-146 | the first render with items and a region returns []; the render that `setClusters` causes returns the answer of the index just built from those items, and `getCoordinates` reads that index |
| `Session.NoRegionNoClusters` | src/useCluster.ts:133-144 | without a region no query runs and the exposed clusters stay [] |
| `Session.SameLengthUpdateKeepsIndex` | src/useCluster.ts:128-141 | with the default items key, after a same-length replacement of the items, with any region, the consumer sees the answer of the index of the first items |

## Left out

- The `supercluster` library (src/useCluster.ts:96, 110, 118) is not part of this model: `load`, `getClusters` and `getLeaves` are uninterpreted. Nothing is claimed about merging, centroids, cluster ids, coverage of the points, the default leaf limit of `getLeaves`, or its behaviour on an unknown id.
- `GeoViewport.viewport` (src/useCluster.ts:109) is not part of this model. It is the uninterpreted `viewportZoom`, returning an integer zoom.
- React scheduling is replaced by `Render`, which returns the render's value and then runs the two effects in order within one call.
- Session.ClusterSession.Render: the re-render that `setClusters` causes is not automatic. The caller makes it as a further `Render` call with the same items and region. The list stored by a query is what that call returns, while the render that ran the query returned the previous `clusters || []`.
- `extent`, `minZoom`, `maxZoom` and the cluster id are `int`, and `maxChildren` is a `nat`. The hook accepts any JavaScript number for them, fractional or negative included.
- React compares dependency lists entry by entry with `Object.is`, and compares only the common prefix when lengths differ. The model compares whole key sequences. The two agree for the default keys, whose lengths are fixed.
- The second effect's dependency list also holds `clusterIndexRef.current` as read during render (src/useCluster.ts:138). It is not modelled. In the hook it causes one more identical query on the render after a rebuild.
- The optional arguments, the display size and the key functions are fixed when the session is created. The hook reads them afresh on every render.
- IEEE-754 rounding, NaN and -0 are not modelled, because numbers are `real`. A NaN radius, which is falsy and would fall back to the width-based radius, has no counterpart.
- The example application (examples/expo/App.tsx) is UI with random sample data and is not modelled.
