/** The clustering session kept by `useCluster` across renders: the cluster
    index, rebuilt when the items' identity key changes, and the cached
    cluster list, recomputed when the items' or the region's key changes.
    The clustering library and the viewport-fit library are not modelled:
    they are the uninterpreted functions of a `Library` value. */
module Session {
  import opened Geo
  import opened HookOptions
  import opened Features

  /** The foreign libraries, as opaque functions over an abstract index type `I`.
      `load` builds an index with a configuration from a list of point features,
      `getClusters` answers a query for a box at an integer zoom,
      `getLeaves` returns the points under a cluster id, at most the given
      number when one is given, and `viewportZoom` is the zoom at which a box
      fits a display of the given width and height. */
  datatype Library<!I, !P> = Library(
    load: (IndexConfig, seq<PointFeature<P>>) -> I,
    getClusters: (I, BoundingBox, int) -> seq<ClusterResult<P>>,
    getLeaves: (I, int, Option<nat>) -> seq<PointFeature<P>>,
    viewportZoom: (BoundingBox, real, real) -> int)

  /** `createClusters`: query the index for the region's box at the selected
      zoom; a world-sized raw longitude span queries at the minimum zoom. */
  function CreateClusters<I, P>(lib: Library<I, P>, s: Settings, index: I, region: Region): (cs: seq<ClusterResult<P>>)
    ensures region.longitudeDelta >= WorldSpanThreshold ==>
      cs == lib.getClusters(index, RegionToBoundingBox(region), ToIndexConfig(s).minZoom)
    ensures region.longitudeDelta < WorldSpanThreshold ==>
      cs == lib.getClusters(index, RegionToBoundingBox(region),
                            lib.viewportZoom(RegionToBoundingBox(region), s.width, s.height))
  {
    var zoom := QueryZoom(region, ToIndexConfig(s).minZoom, s.width, s.height, lib.viewportZoom);
    lib.getClusters(index, RegionToBoundingBox(region), zoom)
  }

  class ClusterSession<!I, P> {
    const lib: Library<I, P>
    const settings: Settings
    /** `getItemsId` and `getRegionId`. */
    const itemsId: seq<Item<P>> -> seq<Dep>
    const regionId: Option<Region> -> seq<Dep>

    /** `clusterIndexRef.current`. */
    var index: Option<I>
    /** The `clusters` state; `None` is `undefined`. */
    var clusters: Option<seq<ClusterResult<P>>>
    /** The dependency lists the two effects last ran with; `None` before the first run. */
    var itemsKey: Option<seq<Dep>>
    var queryKey: Option<seq<Dep>>

    /** The items the held index was built from, and the index and region
        of the query whose answer is cached. */
    ghost var loadedItems: seq<Item<P>>
    ghost var lastQuery: Option<(I, Region)>

    /** The held index is the library's index of the features of
        `loadedItems`, recorded under their key; the cached list, when there
        is one, is the answer to a query on some index for some region. */
    ghost predicate Valid()
      reads this
    {
      && (index.Some? ==> index.value == lib.load(ToIndexConfig(settings), ToFeatures(loadedItems)))
      && (itemsKey.Some? ==> index.Some? && itemsKey.value == itemsId(loadedItems))
      && (clusters.Some? <==> lastQuery.Some?)
      && (clusters.Some? ==> clusters.value == CreateClusters(lib, settings, lastQuery.value.0, lastQuery.value.1))
    }

    /** The first render, before either effect has run. A missing key
        function is replaced by the default one. */
    constructor (lib: Library<I, P>, settings: Settings,
                 getItemsId: Option<seq<Item<P>> -> seq<Dep>>,
                 getRegionId: Option<Option<Region> -> seq<Dep>>)
      ensures Valid()
      ensures this.lib == lib && this.settings == settings
      ensures getItemsId.Some? ==> itemsId == getItemsId.value
      ensures getItemsId.None? ==> forall items :: itemsId(items) == DefaultItemsId(items)
      ensures getRegionId.Some? ==> regionId == getRegionId.value
      ensures getRegionId.None? ==> forall r :: regionId(r) == DefaultRegionId(r)
      ensures index == None && clusters == None && itemsKey == None && queryKey == None
      ensures CurrentClusters() == []
    {
      this.lib := lib;
      this.settings := settings;
      var byItems: seq<Item<P>> -> seq<Dep> := if getItemsId.Some? then getItemsId.value else DefaultItemsId<Item<P>>;
      var byRegion: Option<Region> -> seq<Dep> := if getRegionId.Some? then getRegionId.value else DefaultRegionId;
      this.itemsId := byItems;
      this.regionId := byRegion;
      index := None;
      clusters := None;
      itemsKey := None;
      queryKey := None;
      loadedItems := [];
      lastQuery := None;
    }

    /** `clusters || []`: the last computed list, or the empty list before
        any has been computed. */
    function CurrentClusters(): (cs: seq<ClusterResult<P>>)
      reads this
      ensures clusters.Some? ==> cs == clusters.value
      ensures clusters.None? ==> cs == []
    {
      if clusters.Some? then clusters.value else []
    }

    /** `getCoordinates`: the coordinates of the items under a cluster, one per
        leaf the library returns, in leaf order; none when no index is held. */
    function GetCoordinates(clusterId: int, maxChildren: Option<nat>): (cs: seq<Coordinate>)
      reads this
      ensures index.None? ==> cs == []
      ensures index.Some? ==>
        var leaves := lib.getLeaves(index.value, clusterId, maxChildren);
        |cs| == |leaves| && forall i :: 0 <= i < |leaves| ==> cs[i] == leaves[i].properties.item.coordinate
    {
      if index.Some? then LeafCoordinates(lib.getLeaves(index.value, clusterId, maxChildren)) else []
    }

    /** The first effect's body: build a new index from the items' features
        and replace the held one wholesale. The cached clusters are not touched. */
    method Rebuild(items: seq<Item<P>>)
      requires Valid()
      modifies this
      ensures Valid()
      ensures index == Some(lib.load(ToIndexConfig(settings), ToFeatures(items)))
      ensures loadedItems == items && itemsKey == Some(itemsId(items))
      ensures clusters == old(clusters) && queryKey == old(queryKey) && lastQuery == old(lastQuery)
    {
      var features := ToFeatures(items);
      index := Some(lib.load(ToIndexConfig(settings), features));
      loadedItems := items;
      itemsKey := Some(itemsId(items));
    }

    /** The second effect's body: when an index is held and a region is
        given, cache the answer of the query for that region; otherwise
        leave the cached list as it was. */
    method Query(items: seq<Item<P>>, region: Option<Region>)
      requires Valid()
      modifies this
      ensures Valid()
      ensures index == old(index) && loadedItems == old(loadedItems) && itemsKey == old(itemsKey)
      ensures queryKey == Some(itemsId(items) + regionId(region))
      ensures old(index).Some? && region.Some? ==>
        clusters == Some(CreateClusters(lib, settings, old(index).value, region.value))
      ensures old(index).None? || region.None? ==> clusters == old(clusters)
    {
      if index.Some? && region.Some? {
        clusters := Some(CreateClusters(lib, settings, index.value, region.value));
        lastQuery := Some((index.value, region.value));
      }
      queryKey := Some(itemsId(items) + regionId(region));
    }

    /** One render of the hook with the given items and region, followed by
        its effects. The hook's `clusters` is read during the render, before
        any effect runs, so the result is `clusters || []` as it stood when
        the render began. Then the first effect runs when the items' key
        differs from the one it last ran with, and the second when the items'
        and region's keys together differ from theirs. A list the second
        effect stores is seen by the consumer on the next render, the one
        that `setClusters` causes. */
    method Render(items: seq<Item<P>>, region: Option<Region>) returns (result: seq<ClusterResult<P>>)
      requires Valid()
      modifies this
      ensures Valid()
      ensures old(itemsKey) != Some(itemsId(items)) ==>
        index == Some(lib.load(ToIndexConfig(settings), ToFeatures(items))) && loadedItems == items
      ensures old(itemsKey) == Some(itemsId(items)) ==>
        index == old(index) && loadedItems == old(loadedItems)
      ensures index.Some?
      ensures itemsKey == Some(itemsId(items))
      ensures queryKey == Some(itemsId(items) + regionId(region))
      ensures old(queryKey) != queryKey && region.Some? ==>
        clusters == Some(CreateClusters(lib, settings, index.value, region.value))
      ensures old(queryKey) == queryKey || region.None? ==> clusters == old(clusters)
      ensures result == old(CurrentClusters())
    {
      result := CurrentClusters();
      var key := itemsId(items);
      if itemsKey != Some(key) {
        Rebuild(items);
      }
      var deps := key + regionId(region);
      if queryKey != Some(deps) {
        Query(items, region);
      }
    }
  }

  /** First render with both items and a region: that render returns [],
      its effects build the index and query it, and the render that
      `setClusters` causes returns the answer of the index just built from
      those items; expanding a cluster reads the same index. */
  method FirstRenderQueriesNewIndex<I, P>(lib: Library<I, P>, s: Settings,
                                          items: seq<Item<P>>, region: Region, clusterId: int)
    returns (first: seq<ClusterResult<P>>, next: seq<ClusterResult<P>>, coordinates: seq<Coordinate>)
    ensures first == []
    ensures next == CreateClusters(lib, s, lib.load(ToIndexConfig(s), ToFeatures(items)), region)
    ensures coordinates == LeafCoordinates(lib.getLeaves(lib.load(ToIndexConfig(s), ToFeatures(items)), clusterId, None))
  {
    var session := new ClusterSession(lib, s, None, None);
    first := session.Render(items, Some(region));
    next := session.Render(items, Some(region));
    coordinates := session.GetCoordinates(clusterId, None);
  }

  /** Until a region is given no query runs and the hook returns no
      clusters, even though the index has been built. */
  method NoRegionNoClusters<I, P>(lib: Library<I, P>, s: Settings, items: seq<Item<P>>, more: seq<Item<P>>)
    returns (first: seq<ClusterResult<P>>, second: seq<ClusterResult<P>>)
    ensures first == [] && second == []
  {
    var session := new ClusterSession(lib, s, None, None);
    first := session.Render(items, None);
    second := session.Render(more, None);
  }

  /** With the default items key, a same-length replacement of the items,
      with any region, does not rebuild the index: what the consumer sees
      afterwards is the answer of the index of the first items. With an
      unchanged region nothing is recomputed at all. */
  method SameLengthUpdateKeepsIndex<I, P>(lib: Library<I, P>, s: Settings,
                                          items1: seq<Item<P>>, items2: seq<Item<P>>,
                                          region1: Region, region2: Region)
    returns (result: seq<ClusterResult<P>>)
    requires |items1| == |items2|
    ensures result == CreateClusters(lib, s, lib.load(ToIndexConfig(s), ToFeatures(items1)), region2)
  {
    var session := new ClusterSession(lib, s, None, None);
    var shown := session.Render(items1, Some(region1));
    shown := session.Render(items1, Some(region1));
    DefaultItemsIdSameIffSameLength(items1, items2);
    assert session.itemsKey == Some(session.itemsId(items2));
    if region1 != region2 {
      DefaultRegionIdInjective(Some(region1), Some(region2));
      ghost var key := session.itemsId(items2);
      assert session.queryKey == Some(key + DefaultRegionId(Some(region1)));
      assert (key + DefaultRegionId(Some(region1)))[|key|..] == DefaultRegionId(Some(region1));
      assert (key + DefaultRegionId(Some(region2)))[|key|..] == DefaultRegionId(Some(region2));
    }
    shown := session.Render(items2, Some(region2));
    result := session.Render(items2, Some(region2));
  }
}
