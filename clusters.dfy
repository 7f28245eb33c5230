/** The cluster registry as the federated informer sees it: cluster records, the
    readiness test, the registry cache, and the ready-cluster lookup and client
    resolution built on it.  Everything here is a pure search or lookup. */
module Clusters {
  import opened Wrappers
  import opened Errors

  /** `fedcommon.ClusterReady`, the condition type that carries readiness. */
  const ClusterReady: string := "Ready"
  /** `apiv1.ConditionTrue`. */
  const ConditionTrue: string := "True"

  datatype ClusterCondition = ClusterCondition(conditionType: string, status: string)

  /** The cluster's spec (its connection information), compared only as a whole. */
  datatype ClusterSpec = ClusterSpec(fields: map<string, string>)

  /** A FederatedCluster record.  `annotations` is None for a nil map, which deep
      equality tells apart from an empty one. */
  datatype Cluster = Cluster(
    namespace: string,
    name: string,
    spec: ClusterSpec,
    annotations: Option<map<string, string>>,
    conditions: seq<ClusterCondition>)

  /** An item of the registry cache: a cluster, or an object of the wrong type
      (given by what `%v` prints for it). */
  datatype StoreItem = ClusterItem(cluster: Cluster) | Foreign(rendering: string)

  /** The outcome of a keyed cache lookup. */
  datatype Lookup<T> = Found(value: T) | Absent | Failed(err: Error)

  /** A keyed cache (`cache.Store`): its entries in listing order, and an error
      that every keyed lookup reports when the store's indexer fails. */
  datatype KeyedStore<T> = KeyedStore(entries: seq<(string, T)>, failure: Option<Error>)
  {
    /** `store.List()`: every stored value, in listing order. */
    function List(): seq<T> {
      seq(|entries|, i requires 0 <= i < |entries| => entries[i].1)
    }

    /** `store.GetByKey(key)`. */
    function GetByKey(key: string): (r: Lookup<T>)
      ensures failure.Some? ==> r == Failed(failure.value)
      ensures failure.None? ==> !r.Failed?
      ensures r.Found? ==> (key, r.value) in entries
      ensures r.Absent? <==> failure.None? && forall i :: 0 <= i < |entries| ==> entries[i].0 != key
    {
      if failure.Some? then Failed(failure.value) else Find(entries, key)
    }
  }

  /** The value under the first entry with `key`. */
  function Find<T>(entries: seq<(string, T)>, key: string): (r: Lookup<T>)
    ensures !r.Failed?
    ensures r.Found? ==> (key, r.value) in entries
    ensures r.Absent? <==> forall i :: 0 <= i < |entries| ==> entries[i].0 != key
  {
    if entries == [] then Absent
    else if entries[0].0 == key then Found(entries[0].1)
    else Find(entries[1..], key)
  }

  /** A client for one member cluster; its transport is outside this model. */
  datatype ResourceClient = ResourceClient(clusterName: string, endpoint: string)

  /** The injectable client factory. */
  type ClientFactory = Cluster -> Result<ResourceClient, Error>

  // ---------------------------------------------------------------------------
  // Readiness

  /** Whether some condition in `conditions` is a ClusterReady condition whose
      status is True. */
  function HasReadyCondition(conditions: seq<ClusterCondition>): (r: bool)
    ensures r <==> exists i :: 0 <= i < |conditions| && conditions[i] == ClusterCondition(ClusterReady, ConditionTrue)
  {
    if conditions == [] then false
    else if conditions[0].conditionType == ClusterReady && conditions[0].status == ConditionTrue then true
    else
      var r := HasReadyCondition(conditions[1..]);
      assert forall i :: 1 <= i < |conditions| ==> conditions[i] == conditions[1..][i - 1];
      r
  }

  /** A cluster is ready iff one of its conditions says ClusterReady = True; a
      cluster without conditions is not ready. */
  function IsClusterReady(cluster: Cluster): (r: bool)
    ensures r <==> exists i :: 0 <= i < |cluster.conditions| && cluster.conditions[i] == ClusterCondition(ClusterReady, ConditionTrue)
    ensures cluster.conditions == [] ==> !r
  {
    HasReadyCondition(cluster.conditions)
  }

  // ---------------------------------------------------------------------------
  // Ready / unready split of the registry cache

  /** Whether every item of the registry cache is a cluster. */
  predicate AllClusters(items: seq<StoreItem>) {
    forall i :: 0 <= i < |items| ==> items[i].ClusterItem?
  }

  /** The clusters of `items`, in order. */
  function ClustersOf(items: seq<StoreItem>): (r: seq<Cluster>)
    requires AllClusters(items)
    ensures |r| == |items|
  {
    seq(|items|, i requires 0 <= i < |items| && AllClusters(items) => items[i].cluster)
  }

  /** The clusters among `items` whose readiness is `ready`, in store order. */
  function SelectByReadiness(items: seq<StoreItem>, ready: bool): (r: seq<Cluster>)
    ensures |r| <= |items|
    ensures forall c :: c in r ==> IsClusterReady(c) == ready && ClusterItem(c) in items
  {
    if items == [] then []
    else
      var init := items[..|items| - 1];
      var last := items[|items| - 1];
      var r := SelectByReadiness(init, ready);
      assert forall x :: x in init ==> x in items;
      r + (if last.ClusterItem? && IsClusterReady(last.cluster) == ready then [last.cluster] else [])
  }

  /** One more item of a prefix: the selection grows by that item alone, and the
      prefix stays all clusters exactly when the item is one. */
  lemma SelectPrefixStep(items: seq<StoreItem>, i: int, ready: bool)
    requires 0 <= i < |items|
    ensures SelectByReadiness(items[..i + 1], ready)
            == SelectByReadiness(items[..i], ready)
               + (if items[i].ClusterItem? && IsClusterReady(items[i].cluster) == ready
                  then [items[i].cluster] else [])
    ensures AllClusters(items[..i]) && items[i].ClusterItem? ==> AllClusters(items[..i + 1])
  {
    assert items[..i + 1][..i] == items[..i];
  }

  /** The first item of the wrong type. */
  function FirstForeign(items: seq<StoreItem>): (x: StoreItem)
    requires !AllClusters(items)
    ensures x.Foreign? && x in items
    ensures exists i :: 0 <= i < |items| && items[i] == x && AllClusters(items[..i])
  {
    if items[0].Foreign? then
      assert AllClusters(items[..0]);
      items[0]
    else
      var x := FirstForeign(items[1..]);
      ghost var i :| 0 <= i < |items[1..]| && items[1..][i] == x && AllClusters(items[1..][..i]);
      assert items[..i + 1] == [items[0]] + items[1..][..i];
      x
  }

  /** An item of the wrong type preceded only by clusters is the first one. */
  lemma FirstForeignAt(items: seq<StoreItem>, i: int)
    requires 0 <= i < |items| && items[i].Foreign? && AllClusters(items[..i])
    ensures !AllClusters(items) && FirstForeign(items) == items[i]
  {
    var x := FirstForeign(items);
    var j :| 0 <= j < |items| && items[j] == x && AllClusters(items[..j]);
    assert forall k :: 0 <= k < i ==> items[k] == items[..i][k];
    assert forall k :: 0 <= k < j ==> items[k] == items[..j][k];
  }

  /** The error both split operations return on a wrongly typed item. */
  function WrongDataError(item: StoreItem): Error
    requires item.Foreign?
  {
    Other("wrong data in FederatedInformerImpl cluster store: " + item.rendering)
  }

  /** Every cluster lands in exactly one of the ready and the unready selection. */
  lemma {:induction false} ReadinessPartition(items: seq<StoreItem>)
    requires AllClusters(items)
    ensures multiset(SelectByReadiness(items, true)) + multiset(SelectByReadiness(items, false))
            == multiset(ClustersOf(items))
    ensures |SelectByReadiness(items, true)| + |SelectByReadiness(items, false)| == |items|
  {
    if items != [] {
      var init := items[..|items| - 1];
      ReadinessPartition(init);
      assert ClustersOf(items) == ClustersOf(init) + [items[|items| - 1].cluster];
    }
  }

  /** A cluster of the registry cache with the requested readiness is selected. */
  lemma {:induction false} SelectedWhenPresent(items: seq<StoreItem>, c: Cluster)
    requires ClusterItem(c) in items
    ensures c in SelectByReadiness(items, IsClusterReady(c))
  {
    var last := items[|items| - 1];
    if last != ClusterItem(c) {
      var init := items[..|items| - 1];
      assert items == init + [last];
      SelectedWhenPresent(init, c);
    }
  }

  // ---------------------------------------------------------------------------
  // Keyed ready lookup and client resolution

  /** The registry cache key of the cluster named `name`. */
  function ClusterKey(fedNamespace: string, name: string): string {
    fedNamespace + "/" + name
  }

  /** The `(cluster, found, err)` triple of a ready-cluster lookup. */
  datatype ReadyLookup = ReadyLookup(cluster: Option<Cluster>, found: bool, err: Option<Error>)

  /** The ready cluster named `name`, looked up under its key. */
  function GetReadyCluster(store: KeyedStore<StoreItem>, fedNamespace: string, name: string): (r: ReadyLookup)
    ensures r.found <==> r.cluster.Some?
    ensures var l := store.GetByKey(ClusterKey(fedNamespace, name));
            l.Found? && l.value.ClusterItem? && IsClusterReady(l.value.cluster) ==>
              r == ReadyLookup(Some(l.value.cluster), true, None)
    ensures r.found ==> r.err.None? && IsClusterReady(r.cluster.value)
                        && store.GetByKey(ClusterKey(fedNamespace, name)) == Found(ClusterItem(r.cluster.value))
    ensures (!r.found && r.err.None?) <==>
            (store.GetByKey(ClusterKey(fedNamespace, name)).Absent? ||
             (store.GetByKey(ClusterKey(fedNamespace, name)).Found? &&
              store.GetByKey(ClusterKey(fedNamespace, name)).value.ClusterItem? &&
              !IsClusterReady(store.GetByKey(ClusterKey(fedNamespace, name)).value.cluster)))
    ensures store.GetByKey(ClusterKey(fedNamespace, name)).Failed? ==>
            r.err == Some(store.GetByKey(ClusterKey(fedNamespace, name)).err)
    ensures store.GetByKey(ClusterKey(fedNamespace, name)).Found? &&
            store.GetByKey(ClusterKey(fedNamespace, name)).value.Foreign? ==>
            r.err == Some(WrongDataError(store.GetByKey(ClusterKey(fedNamespace, name)).value))
  {
    match store.GetByKey(ClusterKey(fedNamespace, name))
    case Found(ClusterItem(c)) =>
      if IsClusterReady(c) then ReadyLookup(Some(c), true, None) else ReadyLookup(None, false, None)
    case Found(item) => ReadyLookup(None, false, Some(WrongDataError(item)))
    case Absent => ReadyLookup(None, false, None)
    case Failed(e) => ReadyLookup(None, false, Some(e))
  }

  /** The error of a lookup that found no ready cluster. */
  function ClusterNotFoundError(name: string): Error {
    Other("cluster " + Quote(name) + " not found")
  }

  /** Client resolution: build a client for the ready cluster named `name`. */
  function GetClientForCluster(store: KeyedStore<StoreItem>, fedNamespace: string, factory: ClientFactory, name: string)
    : (r: Result<ResourceClient, Error>)
    ensures GetReadyCluster(store, fedNamespace, name).found ==>
            r == factory(GetReadyCluster(store, fedNamespace, name).cluster.value)
    ensures !GetReadyCluster(store, fedNamespace, name).found && GetReadyCluster(store, fedNamespace, name).err.None? ==>
            r == Failure(ClusterNotFoundError(name))
    ensures GetReadyCluster(store, fedNamespace, name).err.Some? ==>
            r == Failure(GetReadyCluster(store, fedNamespace, name).err.value)
  {
    var lookup := GetReadyCluster(store, fedNamespace, name);
    if lookup.found && lookup.err.None? then factory(lookup.cluster.value)
    else if lookup.err.Some? then Failure(lookup.err.value)
    else Failure(ClusterNotFoundError(name))
  }

  /** The keyed lookup agrees with the listing: a ready cluster found by name is
      one of the clusters the ready split returns. */
  lemma ReadyLookupIsListed(store: KeyedStore<StoreItem>, fedNamespace: string, name: string)
    requires GetReadyCluster(store, fedNamespace, name).found
    ensures GetReadyCluster(store, fedNamespace, name).cluster.value in SelectByReadiness(store.List(), true)
  {
    var c := GetReadyCluster(store, fedNamespace, name).cluster.value;
    var key := ClusterKey(fedNamespace, name);
    assert (key, ClusterItem(c)) in store.entries;
    var i :| 0 <= i < |store.entries| && store.entries[i] == (key, ClusterItem(c));
    assert store.List()[i] == ClusterItem(c);
    SelectedWhenPresent(store.List(), c);
  }
}
