/** The data exchanged with the cluster index: the caller's items, the
    GeoJSON point features built from them, the results of a cluster query,
    and the coordinates read back from the leaves of a cluster. */
module Features {

  /** A geographic position as the map widget gives it. */
  datatype Coordinate = Coordinate(latitude: real, longitude: real)

  /** A caller's item: its coordinate plus whatever else the caller attached,
      which the hook never looks at. */
  datatype Item<P> = Item(coordinate: Coordinate, data: P)

  /** A GeoJSON position, the pair `[longitude, latitude]`. */
  datatype Position = Position(longitude: real, latitude: real)

  /** The properties of a feature as the hook fills them in. */
  datatype PointProperties<P> = PointProperties(
    cluster: bool,
    clusterId: int,
    pointCount: int,
    pointCountAbbreviated: int,
    item: Item<P>)

  /** A GeoJSON `Feature` whose geometry is a `Point`. */
  datatype PointFeature<P> = PointFeature(coordinates: Position, properties: PointProperties<P>)

  /** One entry of a cluster query's answer: either a single original point
      or an aggregate of several, identified by an id valid only for the
      index that produced it. */
  datatype ClusterResult<P> =
    | Leaf(point: PointFeature<P>)
    | Cluster(clusterId: int, coordinates: Position, pointCount: nat)

  /** The fixed properties every input point carries: not a cluster, no
      cluster id (-1), and a point count of zero. */
  predicate IsLeafProperties<P>(p: PointProperties<P>)
  {
    !p.cluster && p.clusterId == -1 && p.pointCount == 0 && p.pointCountAbbreviated == 0
  }

  /** The feature built for one item in `createClusterIndex`: a point at the
      item's coordinate, in GeoJSON order, that carries the item itself. */
  function ItemToFeature<P>(item: Item<P>): (f: PointFeature<P>)
    ensures f.coordinates.longitude == item.coordinate.longitude
    ensures f.coordinates.latitude == item.coordinate.latitude
    ensures IsLeafProperties(f.properties)
    ensures f.properties.item == item
  {
    PointFeature(
      Position(item.coordinate.longitude, item.coordinate.latitude),
      PointProperties(false, -1, 0, 0, item))
  }

  /** `items.map(...)`: one feature per item, in the items' order. */
  function ToFeatures<P>(items: seq<Item<P>>): (fs: seq<PointFeature<P>>)
    ensures |fs| == |items|
    ensures forall i :: 0 <= i < |items| ==> fs[i] == ItemToFeature(items[i])
  {
    if items == [] then [] else [ItemToFeature(items[0])] + ToFeatures(items[1..])
  }

  /** The items carried by a list of features, in order. */
  function FeatureItems<P>(fs: seq<PointFeature<P>>): (items: seq<Item<P>>)
    ensures |items| == |fs|
    ensures forall i :: 0 <= i < |fs| ==> items[i] == fs[i].properties.item
  {
    if fs == [] then [] else [fs[0].properties.item] + FeatureItems(fs[1..])
  }

  /** Building the features loses nothing: reading the items back from them
      gives the original list, so the construction is injective. */
  lemma FeatureItemsRoundTrip<P>(items: seq<Item<P>>)
    ensures FeatureItems(ToFeatures(items)) == items
  {
  }

  /** Building features commutes with concatenating item lists. */
  lemma ToFeaturesAppend<P>(a: seq<Item<P>>, b: seq<Item<P>>)
    ensures ToFeatures(a + b) == ToFeatures(a) + ToFeatures(b)
  {
  }

  /** `children.map(c => c.properties.item.coordinate)` in `getCoordinates`:
      the coordinate of each leaf's item, in leaf order. */
  function LeafCoordinates<P>(leaves: seq<PointFeature<P>>): (cs: seq<Coordinate>)
    ensures |cs| == |leaves|
    ensures forall i :: 0 <= i < |leaves| ==> cs[i] == leaves[i].properties.item.coordinate
  {
    if leaves == [] then [] else [leaves[0].properties.item.coordinate] + LeafCoordinates(leaves[1..])
  }

  /** The coordinates of the items, in order. */
  function ItemCoordinates<P>(items: seq<Item<P>>): (cs: seq<Coordinate>)
    ensures |cs| == |items|
    ensures forall i :: 0 <= i < |items| ==> cs[i] == items[i].coordinate
  {
    if items == [] then [] else [items[0].coordinate] + ItemCoordinates(items[1..])
  }

  /** Reading coordinates back from features built by the hook returns the
      items' own coordinates, and each feature's GeoJSON position holds the
      same two numbers in swapped order. */
  lemma LeafCoordinatesOfFeatures<P>(items: seq<Item<P>>)
    ensures LeafCoordinates(ToFeatures(items)) == ItemCoordinates(items)
    ensures forall i :: 0 <= i < |items| ==>
      ToFeatures(items)[i].coordinates == Position(LeafCoordinates(ToFeatures(items))[i].longitude,
                                                   LeafCoordinates(ToFeatures(items))[i].latitude)
  {
  }
}
