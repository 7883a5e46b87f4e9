# DA storage composition (das/factory.go)

This project models how the data-availability (DA) layer of a Nitro
AnyTrust node with NEAR support puts its storage together. The model is
written in Dafny, and the Go source it follows is `das/factory.go`. From a
configuration, the factory builds:

- the persistent backends: local DB, local files, S3 and IPFS;
- a redundancy wrapper over them;
- a Redis cache and a local BigCache layered on top;
- a NEAR or REST aggregator behind a fallback (lazy) or syncing-fallback
  (eager) service;
- a signing writer;
- readers that check batches against the sequencer inbox.

It also registers services with a lifecycle manager and fills the two
regular-sync lists. It does this in three roles:

- `CreateBatchPosterDAS`, for the batch poster;
- `CreateDAComponentsForDaserver`, for the DA server;
- `CreateDAReaderForNode`, for a plain node.

Each constructor the factory calls is opaque. It is a constructor of the
`Service` term, and whether it fails is a parameter: `fails` is the set of
call sites that return an error. Whether the L1 reader and the sequencer
inbox address are nil is a parameter too (`hasL1`, `hasAddr`). Go's nil
is `Service.Nil`. A nil-pointer dereference is the outcome `Panic`.

Each factory function that builds step by step is modelled twice:

- An imperative method follows the Go code step by step. It returns
  early, registers services with a `LifecycleManager` object and appends
  to a `SyncTargets` object.
- A specification function states what the call returns.

The method's `ensures` ties it to the function. Lemmas then state the
promised properties about the function. The function takes the
configuration checks first. It then takes the construction steps in
order, as a plan of `Step`s run by `Pipeline.Run`: the first failing step
decides the outcome. `CreateNearDAS` has no early-return chain worth a
method of its own; it is modelled only as a function, and a lemma ties it
to its plan.

Some orderings of the code matter to callers:

- An eager sync without an L1 reader or an inbox address is rejected only
  after the persistent storage, the caches, the aggregator and (for NEAR)
  the NEAR storage have been built (das/factory.go:279-282,
  das/factory.go:326-329; `Daserver.DaserverEagerWithoutL1`). By then the
  persistent storage, the caches and, for REST, the REST aggregator have
  been registered. The NEAR service and the NEAR storage are never
  registered (das/factory.go:167, das/factory.go:266-270).
- A plain node builds its persistent storage with nil sync-list pointers
  (das/factory.go:423), so a sync flag on one of its backends is a
  nil-pointer dereference (`Node.NodeSyncFlagPanics`).
- A plain node's configuration check accepts NEAR as its way to fetch
  batch data, besides a REST aggregator or IPFS (das/factory.go:412-416;
  `DasConfig.NodeConfigCheck`).
- A persistent backend is required only in DA-server mode
  (das/factory.go:235-240); a plain node may have none.

The code has these quirks, all reproduced:

- S3 is registered before it is made iterable. The other backends are
  registered after.
- Redis, BigCache and the REST syncing fallback are registered before
  their constructor's error is checked.
- A DA server with NEAR storage reads from the NEAR storage, not from the
  fallback built over it.
- A DA server with REST reads from the cached storage, not from the
  fallback.
- With NEAR but no NEAR storage, a configured key replaces the NEAR writer
  with a signing writer over the cached storage.
- A plain node with only IPFS gets a nil reader.
- A plain node's NEAR fallback uses the REST aggregator's retention
  settings, and a second NEAR service is built for its third argument.

## Model

| member | source | states |
|---|---|---|
| `DasConfig.AsUint64` | das/factory.go:273 | Go's `uint64(d)` on an int64 duration: unchanged when non-negative, two's-complement wrap when negative |
| `DasConfig.RetentionPeriodSeconds` | das/factory.go:271-277 | the result is the MaxUint64 sentinel exactly for the -1 duration; otherwise it is the duration truncated toward zero to whole seconds (r·10⁹ ≤ d < (r+1)·10⁹ when non-negative, 0 for a negative duration above -1s) |
| `DasConfig.RetentionMonotone` | das/factory.go:271-277 | over non-negative durations the conversion is monotone and at most 9223372036 seconds, so it never reaches the sentinel |
| `DasConfig.BatchPosterConfigCheck` | das/factory.go:185-192 | both aggregators are required, then IPFS is refused, and the check passes exactly when neither rule applies |
| `DasConfig.DaserverConfigCheck` | das/factory.go:234-240 | the check passes exactly when some persistent backend is enabled |
| `DasConfig.NodeConfigCheck` | das/factory.go:407-421 | the three node rejections (RPC aggregator; none of NEAR, REST, IPFS; eager REST sync), in that order, each as an if-and-only-if |
| `PersistentStorage.CreateBackend` | das/factory.go:31-88 | one backend's block: its error, a panic when a sync flag meets nil pointers (S3 already registered), or the backend added to the services, the registrations and the sync lists its flags name |
| `PersistentStorage.CreatePersistentStorageService` | das/factory.go:23-103 | the returned service, the registrations and the sync-list appends are those of the backend-by-backend build; a lifecycle manager is returned exactly on success |
| `PersistentStorage.EnabledInFactoryOrder` | das/factory.go:31-88 | the backends looked at are exactly the enabled ones, in the order local DB, local files, S3, IPFS |
| `PersistentStorage.PersistentOutcomeByBackend` | das/factory.go:29-103 | the build stops at the first enabled backend that stops it; otherwise it returns Redundant over every enabled backend's service, the single service unwrapped, or nil |
| `PersistentStorage.RedundantMembersInOrder` | das/factory.go:89-102 | on success, the redundancy wrapper lists the enabled backends' services position by position |
| `PersistentStorage.RegisteredOrigin` | das/factory.go:36-70 | the service registered for a backend stands on that backend; it is the backend's member of the build exactly unless the backend is a sync-source S3, and for S3 it is always the plain store |
| `PersistentStorage.RegistrationOrder` | das/factory.go:44-96 | on success, each enabled backend's registered service appears once, in order, then the redundancy wrapper, which is the result |
| `PersistentStorage.SyncFromMembership` | das/factory.go:36-78 | the sync sources hold the iterable service of exactly the enabled backends whose sync-from flag is set; IPFS is never one |
| `PersistentStorage.SyncToMembership` | das/factory.go:41-78 | the sync destinations hold the service of exactly the enabled backends whose sync-to flag is set; IPFS is never one |
| `PersistentStorage.SyncListsNonEmpty` | das/factory.go:36-78 | each sync list is non-empty exactly when some enabled backend has the matching flag |
| `PersistentStorage.UntrackedSyncFlagPanics` | das/factory.go:36-42 | with nil sync-list pointers, a sync flag on an enabled backend is a nil dereference once it and the backends before it are built, whatever later constructors would do |
| `PersistentStorage.UntrackedPanicNeedsSyncFlag` | das/factory.go:36-77 | with nil sync-list pointers, a panic needs an enabled backend with a sync flag |
| `PersistentStorage.TrackedNeverPanics` | das/factory.go:23-103 | with sync-list pointers given, the build never panics |
| `PersistentStorage.NoBackendGivesNil` | das/factory.go:102 | with no backend enabled, the result is nil and nothing is registered |
| `PersistentStorage.BuiltWhenOk` | das/factory.go:32-86 | a successful build has built every enabled backend |
| `PersistentStorage.NilIffNoBackend` | das/factory.go:89-102 | a successful build returns nil exactly when no backend is enabled |
| `StorageCache.AddRedisCache` | das/factory.go:118-132 | builds Redis over the service and registers it (nil on failure); then makes it iterable and appends it to the sync sources and destinations as its flags say |
| `StorageCache.AddLocalCache` | das/factory.go:133-139 | builds BigCache over the service and registers it (nil on failure) |
| `StorageCache.WrapStorageWithCache` | das/factory.go:105-141 | the result, the registrations and the sync-list appends are those of the cache specification |
| `StorageCache.NilStaysNil` | das/factory.go:112-114 | nil passes through with no registration and no sync-list entry |
| `StorageCache.CacheLayers` | das/factory.go:116-140 | on success, BigCache is outermost when enabled; below it Redis wraps the input directly (iterable when a sync source); the input itself when no cache is enabled |
| `StorageCache.CacheErrors` | das/factory.go:118-139 | the wrapping fails exactly when an enabled cache's constructor fails, with Redis's error first |
| `StorageCache.RedisRegisteredBeforeBigCache` | das/factory.go:120-135 | with both caches built, the registrations are the plain Redis cache and then the BigCache that is returned |
| `StorageCache.CacheNeverPanics` | das/factory.go:105-141 | the wrapping never panics |
| `NearAggregator.CreateNearDAS` | das/factory.go:143-172 | on success the writer, the reader and the service are one NEAR service; it never panics |
| `NearAggregator.CreateNearDASFollowsPlan` | das/factory.go:148-157 | a disabled NEAR aggregator is refused before the service is built; the call succeeds exactly when it is enabled and its service is built |
| `BatchPoster.BatchPosterOutcome` | das/factory.go:174-222 | nothing when DA is disabled; the missing-aggregator error, then the IPFS error, before any construction; never a panic; an enabled success returns components, where the chain-checked REST aggregator reads and the RPC aggregator (signed when a signer is given) writes |
| `BatchPoster.CreateBatchPosterDAS` | das/factory.go:174-222 | returns the batch-poster outcome; its lifecycle manager is returned on success and holds exactly the REST aggregator |
| `Daserver.AddRepair` | das/factory.go:271-296 | lazy repair builds the fallback with the truncated retention; eager repair requires an L1 reader and an inbox address, then builds the syncing fallback |
| `Daserver.AddNear` | das/factory.go:259-306 | the NEAR branch: the NEAR service, then the NEAR storage and its repair when that is enabled, registering the repaired service |
| `Daserver.AddRest` | das/factory.go:310-348 | the REST branch: the aggregator, registered, then the repair of the cached storage to it, registered |
| `Daserver.AddAggregator` | das/factory.go:259-349 | the NEAR branch, else the REST branch, else nothing |
| `Daserver.SignWriter` | das/factory.go:351-379 | with a key: the inbox through the L1 reader when its address is given, the BLS key, then a signing writer over the storage; it checks the inbox unless signature checking is disabled |
| `Daserver.FetchReader` | das/factory.go:387-392 | with an inbox address, the reader is wrapped by the chain-fetch reader through the L1 reader |
| `Daserver.BuildStorage` | das/factory.go:242-253 | the persistent storage with both sync lists, under its caches; its registrations and sync lists |
| `Daserver.Serve` | das/factory.go:255-392 | the aggregator branch, the signing writer and the chain-fetch reader, with the aggregator branch's registrations |
| `Daserver.BuildComponents` | das/factory.go:242-395 | once the checks pass: the cached storage as health checker, the served reader and writer, the regular sync over both sync lists; the lifecycle manager exactly on success, with every registration |
| `Daserver.DaserverOutcome` | das/factory.go:224-240 | nothing when DA is disabled; the missing-backend error before any construction; on success, components |
| `Daserver.CreateDAComponentsForDaserver` | das/factory.go:224-395 | returns the DA-server outcome; the lifecycle manager is returned exactly on success, with the storage's, caches' and aggregator's registrations |
| `Daserver.StorageNotNil` | das/factory.go:245-253 | with a backend enabled, the cached storage is the caches over a non-nil persistent service |
| `Daserver.DaserverEagerWithoutL1` | das/factory.go:279-282 | eager repair without an L1 reader or an inbox address is an error, whatever the syncing fallback's constructor would do (also das/factory.go:326-329) |
| `Daserver.EagerCheckPrecedesSyncingFallback` | das/factory.go:279-293 | in every aggregator plan the syncing fallback's constructor comes right after the L1 and address check |
| `Daserver.DaserverHealthChecker` | das/factory.go:257 | the health checker is the persistent storage under its caches, never nil |
| `Daserver.DaserverNearStorageRoles` | das/factory.go:265-300 | with NEAR storage, the reader is the NEAR storage (not the fallback); the writer is nil, or with a key it signs into the fallback |
| `Daserver.DaserverNearRoles` | das/factory.go:303-305 | with NEAR but no NEAR storage, NEAR reads and writes, unless a key replaces the writer with one signing into the cached storage |
| `Daserver.DaserverRestRoles` | das/factory.go:256 | with REST, the reader stays the cached storage; the writer is nil, or with a key it signs into the fallback; the last registrations are the aggregator and then the fallback |
| `Daserver.DaserverNoAggregatorRoles` | das/factory.go:255-392 | with neither aggregator, the reader is the cached storage under the optional inbox check, the writer is nil or with a key signs into the cached storage, and only the storage and its caches are registered |
| `Daserver.DaserverRegularSync` | das/factory.go:382-385 | the regular sync starts exactly when enabled and some enabled backend or Redis is a source and some is a destination, over those lists |
| `Daserver.DaserverPanicOnlyWithoutL1` | das/factory.go:354 | a DA server build panics only when the inbox address comes without an L1 reader (also das/factory.go:388) |
| `Node.NodeOutcome` | das/factory.go:403-421 | nothing when DA is disabled; each of the three configuration errors before any construction |
| `Node.AddNearReader` | das/factory.go:429-459 | the NEAR service; with local storage a second NEAR service and the registered fallback from the storage to NEAR, using the REST retention settings |
| `Node.AddRestReader` | das/factory.go:460-487 | the REST aggregator, registered; with local storage the registered fallback to it |
| `Node.AddNodeReader` | das/factory.go:428-487 | the NEAR branch, else the REST branch, else a nil reader |
| `Node.AttachSequencerInbox` | das/factory.go:489-498 | with an inbox address: the inbox through the L1 reader, then the reader checked against it |
| `Node.CreateDAReaderForNode` | das/factory.go:397-501 | returns the node outcome; the lifecycle manager is returned exactly on success, with the storage's and aggregator's registrations |
| `Node.NodeIpfsOnlyReaderIsNil` | das/factory.go:427-487 | with neither NEAR nor REST (so IPFS only), the reader is nil and only the persistent storage is registered |
| `Node.NodeSyncFlagPanics` | das/factory.go:423 | a sync flag on an enabled backend makes node mode panic once it and the backends before it are built |
| `Node.NodePanicCauses` | das/factory.go:489-490 | a node build panics only through a backend sync flag or an inbox address without an L1 reader |
| `Node.NodeOkMeansNoSyncFlags` | das/factory.go:423 | a successful node build had no sync flag on any enabled backend |
| `Node.NodeNearReader` | das/factory.go:437-458 | with NEAR, the reader is the fallback from local storage to NEAR, with a second NEAR service as its third argument and the REST retention; without storage it is NEAR |
| `Node.NodeRestReader` | das/factory.go:469-485 | with REST, the reader is the fallback from local storage to the aggregator, registered right after it; without storage it is the aggregator |

## Left out

- Constructor internals are not modelled: the storage engines, the caches, the aggregators, the fallback services, the BLS key parsing and the contract bindings. Each is an opaque term, and its failure is a parameter.
- The lifecycle manager's own code is not part of this model. Only the registrations the factory makes are modelled, not starting or stopping services.
- `restAgg.Start` and `regularlySyncStorage.Start` start background work, which is not modelled. A regular sync started before the chain-fetch reader fails is therefore not visible.
- Logging, the context argument, the NEAR data directory, the `ExtraSignatureCheckingPublicKey` argument and the constant `true` passed to the fallback constructor are left out. They change nothing the factory decides.
- `DasConfig.RetentionPeriodSeconds` does not model durations of -1s and below, because Go's conversion of a float of -1 or less to `uint64` is implementation-defined. It also does not model the floating-point rounding of `Seconds()`, which is taken as exact truncation.
- The dead error checks at das/factory.go:168 and das/factory.go:300 test an error already known to be nil, so they are not modelled.
- The third service argument of `NewFallbackStorageService` and `NewSyncingFallbackStorageService` is kept as an opaque `third` field. Its role is defined by the fallback services, which are not part of this model.
- When Redis, BigCache or the syncing fallback fails to construct, the model registers `Nil` in its place. What those constructors return on error is not part of this model, and the lifecycle manager is discarded on every error path, so nothing a caller sees depends on it.
