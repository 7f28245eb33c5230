# Federated informer and unmanaged dispatcher of KubeFed, in Dafny

This project models two pieces of the KubeFed sync controller and proves
properties of them.

**The federated informer** (`pkg/controller/util/federated_informer.go`) keeps one
cache loop ("target informer") per ready member cluster.
- A watch on the FederatedCluster registry drives it. Its add, update and delete
  handlers start and stop per-cluster loops and fire the ClusterAvailable and
  ClusterUnavailable lifecycle hooks.
- It splits the registry cache into ready and unready clusters.
- It resolves a client for a ready cluster by name.
- Through its read-only federated store it lists, looks up and sync-checks the
  per-cluster caches.

Each loop is stopped by closing its stop channel. The model shows that every
channel is closed at most once.

**The unmanaged dispatcher** (`pkg/controller/sync/dispatch/unmanaged.go`)
deletes a resource that is no longer managed, or strips the managed label from
it, in each member cluster.
- Every request is counted once by the shared operation dispatcher, then
  launched.
- The per-cluster operation reports progress once.
- It maps the cluster's answer to a reconciliation status. For deletion, "not
  found" counts as success.
- It reports a failure exactly once, either to the event recorder with a reason
  code or as a wrapped error.
- Label removal edits a deep copy and never the cached object.

Files:
- `wrappers.dfy`: Option and Result.
- `errors.dfy`: Go error values, `errors.Wrapf`, and the `%q` quoting with its
  read-back.
- `clusters.dfy`: cluster records, readiness, the registry cache, the
  ready/unready split, and ready lookup and client resolution. All of it is pure.
- `federated_informer.dfy`:
  - `StopChannel`, `FederatedInformer` and `FederatedStore` as classes.
  - The informer's entries live in a `map` field that the methods reassign.
  - The lifecycle hook invocations are recorded in a `callbacks` field.
- `unmanaged.dfy`:
  - The shared `OperationDispatcher`, with its counter and a history of
    initiations and launches.
  - `Unstructured` objects.
  - The `UnmanagedDispatcher`, with the per-cluster operations as functions and
    methods of the cluster's answer.

## Model

| member | source | states |
|---|---|---|
| `Clusters.IsClusterReady` | pkg/controller/util/federated_informer.go:255-264 | a cluster is ready exactly when one of its conditions is of type Ready with status True; no conditions means not ready |
| `Clusters.SelectByReadiness` | pkg/controller/util/federated_informer.go:351-386 | the selection keeps only clusters with the requested readiness, all taken from the cache, never more than the cache holds |
| `Clusters.ReadinessPartition` | pkg/controller/util/federated_informer.go:351-386 | the ready and the unready selections together hold every cluster of the cache exactly once (multiset equality), and their sizes add up to the cache size |
| `Clusters.SelectedWhenPresent` | pkg/controller/util/federated_informer.go:370-386 | every cluster in the cache appears in the selection for its own readiness |
| `Clusters.FirstForeign` | pkg/controller/util/federated_informer.go:356-366 | the wrongly typed item reported is one of the cache, and only clusters come before it |
| `Clusters.FirstForeignAt` | pkg/controller/util/federated_informer.go:356-366 | a wrongly typed item preceded only by clusters is the one reported |
| `Clusters.GetReadyCluster` | pkg/controller/util/federated_informer.go:395-410 | a ready cluster stored under "namespace/name" is found, with no error, and only such a cluster is ever found; an absent key or an unready cluster gives not-found with no error; a store error is passed through; a wrongly typed item gives the wrong-data error |
| `Clusters.GetClientForCluster` | pkg/controller/util/federated_informer.go:337-349 | a client is built by the factory from the ready cluster found; a lookup error is returned as is; otherwise the "cluster %q not found" error |
| `Clusters.ReadyLookupIsListed` | pkg/controller/util/federated_informer.go:370-410 | a ready cluster found by name is among the clusters the ready split returns |
| `Clusters.KeyedStore.GetByKey` | pkg/controller/util/federated_informer.go:397 | the `cache.Store` lookup (also called at lines 487 and 499): a failing store reports its error on every lookup; otherwise a found value is stored under the key, and absent means no entry has the key |
| `Informers.CloseAll` | pkg/controller/util/federated_informer.go:305-312 | closes the channel of every given entry, each from open to closed, so none twice |
| `Informers.FederatedInformer.constructor` | pkg/controller/util/federated_informer.go:153-169 | a new informer has no entries, an empty registry cache, no registry loop yet and no hook calls |
| `Informers.FederatedInformer.Start` | pkg/controller/util/federated_informer.go:315-321 | the registry loop gets a new open stop channel, distinct from every entry's |
| `Informers.FederatedInformer.Stop` | pkg/controller/util/federated_informer.go:298-313 | requires a started, not yet stopped informer; closes the registry loop's channel and every entry's channel, and leaves no entries |
| `Informers.FederatedInformer.SetClientFactory` | pkg/controller/util/federated_informer.go:323-328 | replaces the client factory |
| `Informers.FederatedInformer.AddCluster` | pkg/controller/util/federated_informer.go:418-435 | when a client can be resolved, installs under the cluster's name a fresh, open entry built by the target informer factory, changing no other entry; otherwise changes nothing |
| `Informers.FederatedInformer.DeleteCluster` | pkg/controller/util/federated_informer.go:438-446 | removes the cluster's name from the entries, closing that entry's channel if it had one; other entries and channels are untouched |
| `Informers.FederatedInformer.GetTargetStore` | pkg/controller/util/federated_informer.go:449-453 | a new read-only store over this informer |
| `Informers.FederatedInformer.GetClusterData` | pkg/controller/util/federated_informer.go:171-178 | the cluster's cached objects, or none when it has no entry |
| `Informers.FederatedInformer.OnAdd` | pkg/controller/util/federated_informer.go:205-218 | an unready cluster changes nothing; a ready one is added as by addCluster and ClusterAvailable fires once if set |
| `Informers.FederatedInformer.OnDelete` | pkg/controller/util/federated_informer.go:192-204 | the cluster's entry is removed with its channel closed, then ClusterUnavailable fires once if set, with the objects cached before removal; a wrongly typed item changes nothing |
| `Informers.FederatedInformer.ClusterChanged` | pkg/controller/util/federated_informer.go:230 | a change of readiness, spec or annotations each forces a rebuild; when readiness, spec and annotations all agree there is no rebuild, in particular for an identical record or a change of conditions that keeps readiness |
| `Informers.FederatedInformer.OnUpdate` | pkg/controller/util/federated_informer.go:219-249 | unless readiness, spec or annotations differ (or an item is wrongly typed) nothing changes; otherwise the old entry is torn down and ClusterUnavailable fires, then a ready new cluster is added and ClusterAvailable fires |
| `Informers.FederatedInformer.GetUnreadyClusters` | pkg/controller/util/federated_informer.go:351-367 | the unready clusters of the cache in store order; on a wrongly typed item, nothing and the wrong-data error naming the first such item |
| `Informers.FederatedInformer.GetReadyClusters` | pkg/controller/util/federated_informer.go:370-386 | the ready clusters of the cache in store order; on a wrongly typed item, nothing and the wrong-data error naming the first such item |
| `Informers.TagCount` | pkg/controller/util/federated_informer.go:460-465 | tagging a cluster's objects with its name keeps each object's multiplicity under that name and adds nothing under another |
| `Informers.FederatedStore.List` | pkg/controller/util/federated_informer.go:456-467 | every tagged object occurs exactly as often as its object occurs in the cache of the cluster it is tagged with; no error |
| `Informers.FederatedStore.ListFromCluster` | pkg/controller/util/federated_informer.go:470-480 | the cluster's cached objects, or none and no error when the cluster has no entry |
| `Informers.FederatedStore.GetByKey` | pkg/controller/util/federated_informer.go:483-490 | the entry's lookup result, with its error; not found and no error for a cluster without an entry |
| `Informers.FederatedStore.GetFromAllClusters` | pkg/controller/util/federated_informer.go:493-508 | on success, exactly the (cluster, object) pairs found under the key, at most one per cluster; on any entry's lookup failure, that error and nothing |
| `Informers.FederatedStore.ClustersSynced` | pkg/controller/util/federated_informer.go:519-549 | true exactly when the entry count equals the list length, every listed cluster has an entry, and every such entry has synced |
| `Informers.ClustersSyncedExactly` | pkg/controller/util/federated_informer.go:517-549 | for clusters with distinct names, the check holds exactly when the entries are those clusters and no others, all synced |
| `Errors.Text` | pkg/controller/sync/dispatch/unmanaged.go:132-134 | the printed text of a wrapped error starts with its message followed by ": " |
| `Errors.Cause` | pkg/controller/sync/dispatch/unmanaged.go:132-134 | unwrapping a wrapped error continues with its cause until it reaches an error that is not itself a wrapping; an unwrapped error is left as it is |
| `Errors.ReadQuotedOfQuote` | pkg/controller/sync/dispatch/unmanaged.go:32 | a `%q`-quoted string reads back as exactly the original, whatever text follows it |
| `Errors.QuoteInjective` | pkg/controller/sync/dispatch/unmanaged.go:32 | distinct strings quote differently |
| `Unmanaged.QualifiedName.String` | pkg/controller/sync/dispatch/unmanaged.go:129 | the target prints as its name alone without a namespace; otherwise as the namespace, then a slash, then the name |
| `Unmanaged.EventMessage` | pkg/controller/sync/dispatch/unmanaged.go:32 | the event text starts with the verb and the kind, each followed by a space |
| `Unmanaged.EventMessageInjective` | pkg/controller/sync/dispatch/unmanaged.go:32 | for a given verb and kind, the event text determines both the resource name and the cluster |
| `Unmanaged.WrapOperationError` | pkg/controller/sync/dispatch/unmanaged.go:132-134 | the result wraps the given error as its cause, and its message starts with "Failed to " |
| `Unmanaged.WrapOperationErrorInjective` | pkg/controller/sync/dispatch/unmanaged.go:128-134 | for a given operation and kind, the wrapped error determines the original error, the resource name and the cluster |
| `Unmanaged.FailureReports` | pkg/controller/sync/dispatch/unmanaged.go:85-92 | counts failure reports: none exactly when no notice is a failure report |
| `Unmanaged.LaunchesCounted` | pkg/controller/sync/dispatch/unmanaged.go:71-74 | when every launch follows an initiation, there are never more launches than initiations, and right after an initiation there are strictly fewer |
| `Unmanaged.OperationDispatcher.constructor` | pkg/controller/sync/dispatch/unmanaged.go:53 | a new dispatcher has initiated nothing |
| `Unmanaged.OperationDispatcher.IncrementOperationsInitiated` | pkg/controller/sync/dispatch/unmanaged.go:71 | the counter grows by one and the history records one initiation; the counter stays equal to the number of initiations |
| `Unmanaged.OperationDispatcher.Launch` | pkg/controller/sync/dispatch/unmanaged.go:74 | records the launch right after its initiation, leaving the counter alone |
| `Unmanaged.UnmanagedDispatcher.constructor` | pkg/controller/sync/dispatch/unmanaged.go:57-64 | the dispatcher keeps the shared dispatcher, recorder, kind and target it was given |
| `Unmanaged.UnmanagedDispatcher.Delete` | pkg/controller/sync/dispatch/unmanaged.go:70-74 | the counter grows by exactly one, and the history gains one initiation followed by the launch of this cluster's deletion |
| `Unmanaged.UnmanagedDispatcher.RemoveManagedLabel` | pkg/controller/sync/dispatch/unmanaged.go:98-102 | the counter grows by exactly one, and the history gains one initiation followed by the launch of this cluster's label removal |
| `Unmanaged.UnmanagedDispatcher.WrapError` | pkg/controller/sync/dispatch/unmanaged.go:128-130 | the wrapped error keeps the original as its cause, and its printed text starts with "Failed to ", the operation and the target kind |
| `Unmanaged.UnmanagedDispatcher.Progress` | pkg/controller/sync/dispatch/unmanaged.go:75-79 | with a recorder, the notice is the event (cluster, operation, progressive verb); without one, the log line filled from the event template with the progressive verb, kind, target and cluster; never a failure report |
| `Unmanaged.UnmanagedDispatcher.Conclude` | pkg/controller/sync/dispatch/unmanaged.go:85-94 | success exactly when no error is left. An error yields one report carrying that error: to the recorder with the reason if one is present, otherwise wrapped to the error handler |
| `Unmanaged.UnmanagedDispatcher.DeleteRun` | pkg/controller/sync/dispatch/unmanaged.go:74-95 | deletes the target's namespace and name. Success exactly when the answer is no error or "not found". Progress is reported first; on success it is the only notice. A failure is reported exactly once: to a recorder as (DeletionFailed, cluster, "delete", the client's error); without one, as the client's error wrapped for "delete" and handed to the error handler |
| `Unmanaged.UnmanagedDispatcher.LabelRemovalRun` | pkg/controller/sync/dispatch/unmanaged.go:102-125 | sends a fresh copy equal to the object minus the managed label, in the object's own namespace, and leaves the given object untouched. Success exactly when the update succeeds, with the progress notice as the only notice. A failure is reported exactly once: to a recorder as (LabelRemovalFailed, cluster, "remove managed label from", the client's error); without one, as the client's error wrapped for that operation and handed to the error handler |
| `Unmanaged.Unstructured.DeepCopy` | pkg/controller/sync/dispatch/unmanaged.go:109-110 | a new object with the same value |
| `Unmanaged.Unstructured.RemoveManagedLabel` | pkg/controller/sync/dispatch/unmanaged.go:112 | removes the managed label and changes nothing else |

## Left out

- Goroutines and the informer's mutex. Every method runs to completion alone.
  Launching a cache loop or a per-cluster operation is modelled as recording
  it. The lock-scope split in `ClustersSynced`, which gathers the entries under
  the lock and asks them after releasing it, is not observable here.
- The internals of `cache.NewInformer`, the list/watch functions and
  `HasSynced`. A per-cluster cache is its list of (key, object) entries, its
  synced flag and an optional indexer error. The no-argument
  `ClustersSynced()` only forwards `HasSynced` of the registry loop and is not
  modelled. `GetKeyFor` only forwards a library key function and is not
  modelled.
- How the registry watch loop fills its cache. `ObserveRegistry` stands in for
  it and replaces the cache contents.
- Client construction (`BuildClusterConfig`, the REST client). The client
  factory and the target informer factory are function parameters.
- `reflect.DeepEqual` on spec and annotations is value equality. A nil
  annotation map is `None`, distinct from an empty one.
- Go `%q`: the model escapes only `"` and `\`. The other escapes Go applies to
  non-printable characters are left out.
- Logging text other than the event template (glog and klog lines) is left out.
- The addition handler's wrongly-typed branch is left out. There the failed
  type assertion leaves a nil cluster pointer, and the log call dereferences
  it. `OnAdd` takes a cluster, so that branch cannot arise in the model.
- Go's distinction between a nil slice and an empty one is not modelled.
- `Informers.FederatedInformer.AddCluster`: overwriting an existing entry
  leaves the old entry's channel open and unreachable, as in the source. The
  model only states that the new entry is open and fresh.
- `Informers.FederatedStore.ClustersSynced`: when the cluster list repeats a
  name, the check can succeed while a cluster that is not listed has an entry.
  For example, the list [a, a] with entries {a, b} passes. The check is
  characterised as "exactly the listed clusters, all synced" only for distinct
  names (`ClustersSyncedExactly`).
- The operation dispatcher's `Wait` fan-in, `clusterOperation` and the client
  accessor are not part of this model. A launched operation is recorded in the
  dispatcher's history. What it does is given by `DeleteRun` and
  `LabelRemovalRun` as functions of the cluster's answer.
- `util.QualifiedName.String` and `util.RemoveManagedLabel` are not part of
  this model's sources:
  - Printing follows KubeFed's convention: the name alone without a
    namespace, otherwise namespace/name.
  - Label removal drops the `kubefed.io/managed` key whatever its value.
- Only two reconciliation statuses (AllOK, Error) are produced by these
  operations, so the others are not modelled.
- `runtime.HandleError` and the recorder are sinks. Their calls are recorded as
  notices.
