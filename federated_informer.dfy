/** The federated informer: a registry of per-cluster cache loops keyed by
    cluster name, kept in step with the cluster registry by its add, update and
    delete handlers, and a read-only store that aggregates the per-cluster caches.

    Goroutines and the informer's mutex are not modelled: every method runs to
    completion on its own.  A running cache loop is represented by its cache and
    its synced flag; stopping it is closing its stop channel. */
module Informers {
  import opened Wrappers
  import opened Errors
  import opened Clusters

  /** An object of the federated resource kind held in a member cluster's cache. */
  datatype Object = Object(data: string)

  /** `FederatedObject`: an object tagged with the cluster it was read from. */
  datatype FederatedObject = FederatedObject(clusterName: string, item: Object)

  /** What the target informer factory builds for one cluster: the cache, and
      what the cache loop's `HasSynced()` reports. */
  datatype TargetCache = TargetCache(store: KeyedStore<Object>, synced: bool)

  type TargetInformerFactory = (Cluster, ResourceClient) -> TargetCache

  /** One invocation of a cluster lifecycle hook, with its arguments. */
  datatype LifecycleCall =
    | ClusterAvailable(cluster: Cluster)
    | ClusterUnavailable(cluster: Cluster, data: seq<Object>)

  /** A `chan struct{}` used only to be closed.  `owner` is a proof device: the
      name of the entry the channel was made for, or None for the registry loop's. */
  class StopChannel {
    var closed: bool
    ghost const owner: Option<string>

    constructor (ghost owner: Option<string>)
      ensures !closed && this.owner == owner
    {
      closed := false;
      this.owner := owner;
    }

    /** `close(ch)`.  Closing a closed channel panics, so here it is a precondition
        that every caller has to establish. */
    method Close()
      requires !closed
      modifies this
      ensures closed
    {
      closed := true;
    }
  }

  /** Closes the stop channel of every entry of `m`, each exactly once. */
  method CloseAll(m: map<string, Informer>)
    requires forall n :: n in m ==> m[n].stop.owner == Some(n) && !m[n].stop.closed
    modifies set n | n in m :: m[n].stop
    ensures forall n :: n in m ==> m[n].stop.closed
  {
    var rest := m;
    while rest != map[]
      invariant forall n :: n in rest ==> n in m && rest[n] == m[n] && !m[n].stop.closed
      invariant forall n :: n in m && n !in rest ==> m[n].stop.closed
      decreases |rest|
    {
      var key :| key in rest;
      rest[key].stop.Close();
      rest := rest - {key};
    }
  }

  /** A target informer: the cluster's cache, its synced flag and its stop channel. */
  datatype Informer = Informer(store: KeyedStore<Object>, synced: bool, stop: StopChannel)

  /** Whether the number of entries equals the number of listed clusters, every
      listed cluster has an entry, and every such entry has synced. */
  ghost predicate SyncedFor(entries: map<string, Informer>, clusters: seq<Cluster>) {
    && |entries| == |clusters|
    && (forall i :: 0 <= i < |clusters| ==> clusters[i].name in entries)
    && (forall i :: 0 <= i < |clusters| ==> entries[clusters[i].name].synced)
  }

  /** How often `fo` occurs in the aggregate of all entries' caches: as often as its
      object occurs in the cache of the cluster it is tagged with. */
  ghost function Occurrences(entries: map<string, Informer>, fo: FederatedObject): nat {
    if fo.clusterName in entries then multiset(entries[fo.clusterName].store.List())[fo.item] else 0
  }

  /** `values`, each tagged with `name`. */
  function Tag(name: string, values: seq<Object>): (r: seq<FederatedObject>)
    ensures |r| == |values|
  {
    if values == [] then []
    else Tag(name, values[..|values| - 1]) + [FederatedObject(name, values[|values| - 1])]
  }

  /** Tagging keeps the multiplicity of every object under its cluster's name and
      adds nothing under any other name. */
  lemma {:induction false} TagCount(name: string, values: seq<Object>, fo: FederatedObject)
    ensures multiset(Tag(name, values))[fo] ==
            if fo.clusterName == name then multiset(values)[fo.item] else 0
  {
    if values != [] {
      var init := values[..|values| - 1];
      TagCount(name, init, fo);
      assert values == init + [values[|values| - 1]];
    }
  }

  /** How often `fo` occurs once every entry outside `remaining` has been listed. */
  ghost function Collected(entries: map<string, Informer>, remaining: set<string>, fo: FederatedObject): nat {
    if fo.clusterName in entries && fo.clusterName !in remaining then Occurrences(entries, fo) else 0
  }

  /** Listing one more entry adds exactly that entry's tagged objects. */
  lemma ListStep(entries: map<string, Informer>, remaining: set<string>, name: string,
                 before: seq<FederatedObject>, after: seq<FederatedObject>, fo: FederatedObject)
    requires name in remaining && remaining <= entries.Keys
    requires multiset(before)[fo] == Collected(entries, remaining, fo)
    requires after == before + Tag(name, entries[name].store.List())
    ensures multiset(after)[fo] == Collected(entries, remaining - {name}, fo)
  {
    TagCount(name, entries[name].store.List(), fo);
  }

  /** The names of the listed clusters. */
  ghost function NameSet(clusters: seq<Cluster>): set<string> {
    set i | 0 <= i < |clusters| :: clusters[i].name
  }

  /** Whether no two listed clusters share a name. */
  ghost predicate DistinctNames(clusters: seq<Cluster>) {
    forall i, j :: 0 <= i < j < |clusters| ==> clusters[i].name != clusters[j].name
  }

  lemma {:induction false} NameSetSize(clusters: seq<Cluster>)
    requires DistinctNames(clusters)
    ensures |NameSet(clusters)| == |clusters|
  {
    if clusters != [] {
      var init := clusters[..|clusters| - 1];
      var last := clusters[|clusters| - 1].name;
      NameSetSize(init);
      assert NameSet(clusters) == NameSet(init) + {last};
      assert last !in NameSet(init);
    }
  }

  /** With distinct names, the synced check holds exactly when the entries are
      those of the listed clusters and no others, and every one has synced. */
  lemma ClustersSyncedExactly(entries: map<string, Informer>, clusters: seq<Cluster>)
    requires DistinctNames(clusters)
    ensures SyncedFor(entries, clusters) <==>
            entries.Keys == NameSet(clusters) && forall n :: n in entries ==> entries[n].synced
  {
    NameSetSize(clusters);
    if SyncedFor(entries, clusters) {
      assert NameSet(clusters) <= entries.Keys;
      var extra := entries.Keys - NameSet(clusters);
      assert entries.Keys == NameSet(clusters) + extra;
      assert |entries.Keys| == |NameSet(clusters)| + |extra|;
      assert extra == {};
    }
    if entries.Keys == NameSet(clusters) && forall n :: n in entries ==> entries[n].synced {
      assert |entries| == |entries.Keys|;
      forall i | 0 <= i < |clusters|
        ensures clusters[i].name in entries
      {
        assert clusters[i].name in NameSet(clusters);
      }
    }
  }

  /** The federated informer. */
  class FederatedInformer {
    /** Namespace of the FederatedCluster records. */
    const fedNamespace: string
    const targetInformerFactory: TargetInformerFactory
    /** Whether ClusterAvailable / ClusterUnavailable hooks were supplied. */
    const hasAvailableHook: bool
    const hasUnavailableHook: bool

    var clientFactory: ClientFactory
    /** The registry cache, kept by the registry watch loop. */
    var clusterStore: KeyedStore<StoreItem>
    /** Stop channel of the registry watch loop; null until `Start`. */
    var clusterStop: StopChannel?
    var targetInformers: map<string, Informer>
    /** The lifecycle hook invocations made so far, oldest first. */
    var callbacks: seq<LifecycleCall>

    /** The stop channels of the current entries. */
    ghost function Channels(): set<StopChannel>
      reads this
    {
      set n | n in targetInformers :: targetInformers[n].stop
    }

    /** Every entry's stop channel is still open and was made for that entry, so
        no two entries share a channel and the registry loop's channel is none of
        them.  This is what lets every removal close the removed entry's channel
        without closing any channel twice. */
    ghost predicate Valid()
      reads this, Channels()
    {
      && (forall n :: n in targetInformers ==>
            targetInformers[n].stop.owner == Some(n) && !targetInformers[n].stop.closed)
      && (clusterStop != null ==> clusterStop.owner.None?)
    }

    /** Client resolution against the current registry cache. */
    function ClientFor(name: string): Result<ResourceClient, Error>
      reads this
    {
      GetClientForCluster(clusterStore, fedNamespace, clientFactory, name)
    }

    /** The objects cached for `name`, or none when it has no entry. */
    function Snapshot(name: string): seq<Object>
      reads this
    {
      if name in targetInformers then targetInformers[name].store.List() else []
    }

    function AvailableCalls(cluster: Cluster): seq<LifecycleCall> {
      if hasAvailableHook then [ClusterAvailable(cluster)] else []
    }

    function UnavailableCalls(cluster: Cluster, data: seq<Object>): seq<LifecycleCall> {
      if hasUnavailableHook then [ClusterUnavailable(cluster, data)] else []
    }

    /** The entries are `before` with an open entry for `cluster` built from the
        factory's cache, and no other change. */
    ghost predicate Installed(before: map<string, Informer>, cluster: Cluster)
      requires ClientFor(cluster.name).Success?
      reads this, Channels()
    {
      var cache := targetInformerFactory(cluster, ClientFor(cluster.name).value);
      && cluster.name in targetInformers
      && targetInformers == before[cluster.name := targetInformers[cluster.name]]
      && targetInformers[cluster.name].store == cache.store
      && targetInformers[cluster.name].synced == cache.synced
      && !targetInformers[cluster.name].stop.closed
    }

    /** What adding `cluster` to `before` leaves: an installed entry when a client
        could be built for it, otherwise `before` unchanged. */
    ghost predicate AddOutcome(before: map<string, Informer>, cluster: Cluster)
      reads this, Channels()
    {
      if ClientFor(cluster.name).Success? then Installed(before, cluster) else targetInformers == before
    }

    /** `NewFederatedInformer`: no entries, an empty registry cache, not started. */
    constructor (fedNamespace: string, clientFactory: ClientFactory, targetInformerFactory: TargetInformerFactory,
                 hasAvailableHook: bool, hasUnavailableHook: bool)
      ensures Valid()
      ensures this.fedNamespace == fedNamespace && this.clientFactory == clientFactory
      ensures this.targetInformerFactory == targetInformerFactory
      ensures this.hasAvailableHook == hasAvailableHook && this.hasUnavailableHook == hasUnavailableHook
      ensures targetInformers == map[] && clusterStore == KeyedStore([], None)
      ensures clusterStop == null && callbacks == []
    {
      this.fedNamespace := fedNamespace;
      this.clientFactory := clientFactory;
      this.targetInformerFactory := targetInformerFactory;
      this.hasAvailableHook := hasAvailableHook;
      this.hasUnavailableHook := hasUnavailableHook;
      targetInformers := map[];
      clusterStore := KeyedStore([], None);
      clusterStop := null;
      callbacks := [];
    }

    /** The registry watch loop replacing the contents of its cache (done by the
        cache library before it calls a handler). */
    method ObserveRegistry(store: KeyedStore<StoreItem>)
      modifies this`clusterStore
      ensures clusterStore == store
    {
      clusterStore := store;
    }

    method SetClientFactory(factory: ClientFactory)
      modifies this`clientFactory
      ensures clientFactory == factory
    {
      clientFactory := factory;
    }

    /** Starts the registry watch loop with a new stop channel. */
    method Start()
      requires Valid()
      modifies this`clusterStop
      ensures Valid()
      ensures clusterStop != null && fresh(clusterStop) && !clusterStop.closed
    {
      clusterStop := new StopChannel(None);
    }

    /** Closes the registry loop's channel, then every entry's channel, each once,
        and leaves no entry.  (The source removes each entry as it closes it; run
        sequentially, closing all and then clearing the map ends in the same
        state.) */
    method Stop()
      requires Valid()
      requires clusterStop != null && !clusterStop.closed
      modifies this`targetInformers, clusterStop, Channels()
      ensures Valid()
      ensures targetInformers == map[]
      ensures clusterStop.closed
      ensures forall n :: n in old(targetInformers) ==> old(targetInformers)[n].stop.closed
    {
      clusterStop.Close();
      CloseAll(targetInformers);
      targetInformers := map[];
    }

    /** `addCluster`: installs an entry with a new, open stop channel when a client
        can be built for the cluster; otherwise changes nothing. */
    method AddCluster(cluster: Cluster)
      requires Valid()
      modifies this`targetInformers
      ensures Valid()
      ensures AddOutcome(old(targetInformers), cluster)
      ensures ClientFor(cluster.name).Success? ==> fresh(targetInformers[cluster.name].stop)
    {
      var name := cluster.name;
      var client := GetClientForCluster(clusterStore, fedNamespace, clientFactory, name);
      if client.Success? {
        var cache := targetInformerFactory(cluster, client.value);
        var stop := new StopChannel(Some(name));
        targetInformers := targetInformers[name := Informer(cache.store, cache.synced, stop)];
      }
    }

    /** `deleteCluster`: closes the entry's channel if there is an entry, and
        removes the name; other entries stay as they are. */
    method DeleteCluster(cluster: Cluster)
      requires Valid()
      modifies this`targetInformers
      modifies if cluster.name in targetInformers then {targetInformers[cluster.name].stop} else {}
      ensures Valid()
      ensures targetInformers == old(targetInformers) - {cluster.name}
      ensures cluster.name in old(targetInformers) ==> old(targetInformers)[cluster.name].stop.closed
    {
      var name := cluster.name;
      if name in targetInformers {
        targetInformers[name].stop.Close();
      }
      targetInformers := targetInformers - {name};
    }

    /** Returns a read-only view over the entries' caches. */
    method GetTargetStore() returns (store: FederatedStore)
      ensures fresh(store) && store.informer == this
    {
      store := new FederatedStore(this);
    }

    /** The snapshot taken for the ClusterUnavailable hook: the cluster's cached
        objects, or none when listing fails. */
    method GetClusterData(name: string) returns (data: seq<Object>)
      ensures data == Snapshot(name)
    {
      var store := GetTargetStore();
      var values, err := store.ListFromCluster(name);
      if err.Some? {
        data := [];
      } else {
        data := values;
      }
    }

    /** Handler for a cluster added to the registry: a ready cluster gets an entry
        (if a client can be built) and ClusterAvailable fires; an unready one is
        ignored. */
    method OnAdd(cluster: Cluster)
      requires Valid()
      modifies this`targetInformers, this`callbacks
      ensures Valid()
      ensures !IsClusterReady(cluster) ==>
                targetInformers == old(targetInformers) && callbacks == old(callbacks)
      ensures IsClusterReady(cluster) ==>
                AddOutcome(old(targetInformers), cluster) && callbacks == old(callbacks) + AvailableCalls(cluster)
      ensures IsClusterReady(cluster) && ClientFor(cluster.name).Success? ==>
                fresh(targetInformers[cluster.name].stop)
    {
      if IsClusterReady(cluster) {
        AddCluster(cluster);
        if hasAvailableHook {
          callbacks := callbacks + [ClusterAvailable(cluster)];
        }
      }
    }

    /** Handler for a cluster deleted from the registry: snapshot its cached objects
        (only if ClusterUnavailable is set), tear its entry down, then fire
        ClusterUnavailable with the snapshot.  An item of the wrong type is ignored. */
    method OnDelete(item: StoreItem)
      requires Valid()
      modifies this`targetInformers, this`callbacks, Channels()
      ensures Valid()
      ensures !item.ClusterItem? ==> targetInformers == old(targetInformers) && callbacks == old(callbacks)
      ensures item.ClusterItem? ==>
                && targetInformers == old(targetInformers) - {item.cluster.name}
                && (item.cluster.name in old(targetInformers) ==> old(targetInformers)[item.cluster.name].stop.closed)
                && callbacks == old(callbacks) + UnavailableCalls(item.cluster, old(Snapshot(item.cluster.name)))
    {
      if item.ClusterItem? {
        var oldCluster := item.cluster;
        var data: seq<Object> := [];
        if hasUnavailableHook {
          data := GetClusterData(oldCluster.name);
        }
        DeleteCluster(oldCluster);
        if hasUnavailableHook {
          callbacks := callbacks + [ClusterUnavailable(oldCluster, data)];
        }
      }
    }

    /** Whether an update has to rebuild the cluster's entry: readiness, spec or
        annotations differ.  A resync that delivers the same record rebuilds
        nothing, and neither does a change of conditions that keeps readiness. */
    function ClusterChanged(oldCluster: Cluster, curCluster: Cluster): (r: bool)
      ensures oldCluster == curCluster ==> !r
      ensures IsClusterReady(oldCluster) != IsClusterReady(curCluster) ==> r
      ensures oldCluster.spec != curCluster.spec ==> r
      ensures oldCluster.annotations != curCluster.annotations ==> r
      ensures (oldCluster.(conditions := curCluster.conditions) == curCluster
               && IsClusterReady(oldCluster) == IsClusterReady(curCluster)) ==> !r
      ensures (IsClusterReady(oldCluster) == IsClusterReady(curCluster)
               && oldCluster.spec == curCluster.spec
               && oldCluster.annotations == curCluster.annotations) ==> !r
    {
      || IsClusterReady(oldCluster) != IsClusterReady(curCluster)
      || oldCluster.spec != curCluster.spec
      || oldCluster.annotations != curCluster.annotations
    }

    /** Handler for a cluster updated in the registry.  When readiness, spec and
        annotations are all unchanged (or either item is of the wrong type) nothing
        happens.  Otherwise the old entry is torn down as on deletion, and the new
        cluster, if ready, is added as on addition. */
    method OnUpdate(oldItem: StoreItem, curItem: StoreItem)
      requires Valid()
      modifies this`targetInformers, this`callbacks, Channels()
      ensures Valid()
      ensures !(oldItem.ClusterItem? && curItem.ClusterItem? && ClusterChanged(oldItem.cluster, curItem.cluster)) ==>
                targetInformers == old(targetInformers) && callbacks == old(callbacks)
      ensures oldItem.ClusterItem? && curItem.ClusterItem? && ClusterChanged(oldItem.cluster, curItem.cluster) ==>
                var o, c := oldItem.cluster, curItem.cluster;
                && (o.name in old(targetInformers) ==> old(targetInformers)[o.name].stop.closed)
                && (if IsClusterReady(c) then AddOutcome(old(targetInformers) - {o.name}, c)
                    else targetInformers == old(targetInformers) - {o.name})
                && callbacks == old(callbacks) + UnavailableCalls(o, old(Snapshot(o.name)))
                                + (if IsClusterReady(c) then AvailableCalls(c) else [])
      ensures oldItem.ClusterItem? && curItem.ClusterItem? && ClusterChanged(oldItem.cluster, curItem.cluster)
              && IsClusterReady(curItem.cluster) && ClientFor(curItem.cluster.name).Success? ==>
                fresh(targetInformers[curItem.cluster.name].stop)
    {
      if !oldItem.ClusterItem? {
        return;
      }
      if !curItem.ClusterItem? {
        return;
      }
      if ClusterChanged(oldItem.cluster, curItem.cluster) {
        // The update path runs the deletion handler's steps, then the addition
        // handler's.
        OnDelete(oldItem);
        OnAdd(curItem.cluster);
      }
    }

    /** The clusters of the registry cache that are not ready, in store order; an
        item of the wrong type makes the result empty and an error. */
    method GetUnreadyClusters() returns (r: seq<Cluster>, err: Option<Error>)
      ensures AllClusters(clusterStore.List()) ==>
                err.None? && r == SelectByReadiness(clusterStore.List(), false)
      ensures !AllClusters(clusterStore.List()) ==>
                r == [] && err == Some(WrongDataError(FirstForeign(clusterStore.List())))
    {
      var items := clusterStore.List();
      r := [];
      for i := 0 to |items|
        invariant AllClusters(items[..i])
        invariant r == SelectByReadiness(items[..i], false)
      {
        var item := items[i];
        SelectPrefixStep(items, i, false);
        if item.ClusterItem? {
          if !IsClusterReady(item.cluster) {
            r := r + [item.cluster];
          }
        } else {
          FirstForeignAt(items, i);
          return [], Some(WrongDataError(item));
        }
      }
      assert items[..|items|] == items;
      err := None;
    }

    /** The clusters of the registry cache that are ready, in store order; an item
        of the wrong type makes the result empty and an error. */
    method GetReadyClusters() returns (r: seq<Cluster>, err: Option<Error>)
      ensures AllClusters(clusterStore.List()) ==>
                err.None? && r == SelectByReadiness(clusterStore.List(), true)
      ensures !AllClusters(clusterStore.List()) ==>
                r == [] && err == Some(WrongDataError(FirstForeign(clusterStore.List())))
    {
      var items := clusterStore.List();
      r := [];
      for i := 0 to |items|
        invariant AllClusters(items[..i])
        invariant r == SelectByReadiness(items[..i], true)
      {
        var item := items[i];
        SelectPrefixStep(items, i, true);
        if item.ClusterItem? {
          if IsClusterReady(item.cluster) {
            r := r + [item.cluster];
          }
        } else {
          FirstForeignAt(items, i);
          return [], Some(WrongDataError(item));
        }
      }
      assert items[..|items|] == items;
      err := None;
    }
  }

  /** The read-only store over all entries' caches.  Every read looks at the
      informer's entries as they are when it runs. */
  class FederatedStore {
    const informer: FederatedInformer

    constructor (informer: FederatedInformer)
      ensures this.informer == informer
    {
      this.informer := informer;
    }

    /** Every cached object of every entry, tagged with its entry's cluster name:
        each tagged object occurs exactly as often as in its cluster's cache. */
    method List() returns (r: seq<FederatedObject>, err: Option<Error>)
      ensures err.None?
      ensures forall fo :: multiset(r)[fo] == Occurrences(informer.targetInformers, fo)
    {
      var entries := informer.targetInformers;
      var remaining := entries.Keys;
      r := [];
      while remaining != {}
        invariant remaining <= entries.Keys
        invariant forall fo :: multiset(r)[fo] == Collected(entries, remaining, fo)
        decreases remaining
      {
        var clusterName :| clusterName in remaining;
        var values := entries[clusterName].store.List();
        ghost var before := r;
        for j := 0 to |values|
          invariant r == before + Tag(clusterName, values[..j])
        {
          assert values[..j + 1][..j] == values[..j];
          r := r + [FederatedObject(clusterName, values[j])];
        }
        assert values[..|values|] == values;
        forall fo
          ensures multiset(r)[fo] == Collected(entries, remaining - {clusterName}, fo)
        {
          ListStep(entries, remaining, clusterName, before, r, fo);
        }
        remaining := remaining - {clusterName};
      }
      err := None;
    }

    /** The cached objects of one cluster; none, and no error, when the cluster has
        no entry. */
    method ListFromCluster(clusterName: string) returns (r: seq<Object>, err: Option<Error>)
      ensures err.None?
      ensures clusterName in informer.targetInformers ==> r == informer.targetInformers[clusterName].store.List()
      ensures clusterName !in informer.targetInformers ==> r == []
    {
      r := [];
      if clusterName in informer.targetInformers {
        var values := informer.targetInformers[clusterName].store.List();
        r := r + values;
      }
      err := None;
    }

    /** The object under `key` in one cluster's cache; not found, and no error, when
        the cluster has no entry. */
    method GetByKey(clusterName: string, key: string) returns (obj: Option<Object>, found: bool, err: Option<Error>)
      ensures clusterName !in informer.targetInformers ==> obj.None? && !found && err.None?
      ensures clusterName in informer.targetInformers ==>
                match informer.targetInformers[clusterName].store.GetByKey(key)
                case Found(v) => obj == Some(v) && found && err.None?
                case Absent => obj.None? && !found && err.None?
                case Failed(e) => obj.None? && !found && err == Some(e)
    {
      if clusterName in informer.targetInformers {
        match informer.targetInformers[clusterName].store.GetByKey(key)
        case Found(v) => return Some(v), true, None;
        case Absent => return None, false, None;
        case Failed(e) => return None, false, Some(e);
      }
      return None, false, None;
    }

    /** The object under `key` in every cluster that has one, one per cluster; if
        any cluster's lookup fails, that error and no objects. */
    method GetFromAllClusters(key: string) returns (r: seq<FederatedObject>, err: Option<Error>)
      ensures err.Some? ==>
                r == [] &&
                exists n :: n in informer.targetInformers && informer.targetInformers[n].store.GetByKey(key) == Failed(err.value)
      ensures err.None? ==>
                forall n :: n in informer.targetInformers ==> !informer.targetInformers[n].store.GetByKey(key).Failed?
      ensures err.None? ==>
                forall fo :: fo in r <==>
                  fo.clusterName in informer.targetInformers &&
                  informer.targetInformers[fo.clusterName].store.GetByKey(key) == Found(fo.item)
      ensures forall i, j :: 0 <= i < j < |r| ==> r[i].clusterName != r[j].clusterName
    {
      var entries := informer.targetInformers;
      var remaining := entries.Keys;
      r := [];
      while remaining != {}
        invariant remaining <= entries.Keys
        invariant forall n :: n in entries && n !in remaining ==> !entries[n].store.GetByKey(key).Failed?
        invariant forall fo :: fo in r <==>
                    fo.clusterName in entries && fo.clusterName !in remaining &&
                    entries[fo.clusterName].store.GetByKey(key) == Found(fo.item)
        invariant forall i, j :: 0 <= i < j < |r| ==> r[i].clusterName != r[j].clusterName
        decreases remaining
      {
        var clusterName :| clusterName in remaining;
        match entries[clusterName].store.GetByKey(key) {
          case Failed(e) => return [], Some(e);
          case Found(v) => r := r + [FederatedObject(clusterName, v)];
          case Absent =>
        }
        remaining := remaining - {clusterName};
      }
      err := None;
    }

    /** Whether the entries are those of `clusters` and all have synced: the sizes
        agree, every listed cluster has an entry, and every such entry has synced.
        The entries to ask are collected first (under the lock in the source) and
        asked afterwards. */
    method ClustersSynced(clusters: seq<Cluster>) returns (r: bool)
      ensures r <==> SyncedFor(informer.targetInformers, clusters)
    {
      var entries := informer.targetInformers;
      if |entries| != |clusters| {
        return false;
      }
      var toCheck: seq<Informer> := [];
      for i := 0 to |clusters|
        invariant |toCheck| == i
        invariant forall k :: 0 <= k < i ==> clusters[k].name in entries && toCheck[k] == entries[clusters[k].name]
      {
        if clusters[i].name in entries {
          toCheck := toCheck + [entries[clusters[i].name]];
        } else {
          return false;
        }
      }
      for i := 0 to |toCheck|
        invariant forall k :: 0 <= k < i ==> toCheck[k].synced
      {
        if !toCheck[i].synced {
          return false;
        }
      }
      return true;
    }
  }
}
