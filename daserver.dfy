/** `CreateDAComponentsForDaserver`: the reader, writer and health checker
    of a DA server, built over persistent storage and its caches, with a
    NEAR or REST aggregator behind it, an optional signing writer, a
    regular sync between storages, and a reader that checks batches
    against the sequencer inbox. */
module Daserver {
  import opened DasConfig
  import opened Pipeline
  import opened Lifecycle
  import opened PersistentStorage
  import opened StorageCache
  import opened NearAggregator

  /** The storage service, reader and writer once the aggregator branch
      has run. */
  datatype Stage = Stage(storage: Service, reader: Service, writer: Service)

  /** The regular sync the server starts: from the sync sources to the sync
      destinations. */
  datatype RegularSync = RegularSync(syncFrom: seq<Service>, syncTo: seq<Service>)

  /** What the DA server gets. */
  datatype DaserverComponents = DaserverComponents(
    reader: Service,
    writer: Service,
    healthChecker: Service,
    regularSync: Option<RegularSync>)

  function NearSync(cfg: Config): SyncToStorageConfig {
    cfg.nearAggregator.storageConfig.syncToStorage
  }

  function RestSync(cfg: Config): SyncToStorageConfig {
    cfg.restAggregator.syncToStorage
  }

  /** The steps of putting `backup` behind `primary`: eager repair needs an
      L1 reader and an inbox address, then builds the syncing fallback;
      lazy repair builds a plain fallback, which cannot fail. */
  function RepairPlan(sync: SyncToStorageConfig, hasL1: bool, hasAddr: bool): seq<Step> {
    if sync.eager then [Require(hasL1 && hasAddr, EagerSyncNeedsL1), Construct(NewSyncingFallback)] else []
  }

  /** The fallback service over `primary` that falls back to `backup`,
      with `backup` also as its third service argument. */
  function RepairedService(primary: Service, backup: Service, sync: SyncToStorageConfig): Service {
    if sync.eager then SyncingFallback(primary, backup, backup, sync)
    else Fallback(primary, backup, backup, RetentionPeriodSeconds(sync.retentionPeriod), sync.ignoreWriteErrors)
  }

  /** The steps of the aggregator branch: NEAR (with its storage and its
      repair when that is enabled), else REST (with its repair), else none. */
  function AggregatorPlan(cfg: Config, hasL1: bool, hasAddr: bool): seq<Step> {
    if cfg.nearAggregator.enable then
      NearPlan(cfg) +
      (if cfg.nearAggregator.storageConfig.enable then [Construct(NewNearStorage)] + RepairPlan(NearSync(cfg), hasL1, hasAddr)
       else [])
    else if cfg.restAggregator.enable then
      [Construct(NewRestfulClientAggregator)] + RepairPlan(RestSync(cfg), hasL1, hasAddr)
    else []
  }

  /** The stage the aggregator branch reaches over the cached `storage`.
      With NEAR storage, the reader is the NEAR storage itself and the
      storage service becomes the fallback from it to `storage`. With REST,
      the storage service becomes the fallback from `storage` to the
      aggregator and the reader stays `storage`. */
  function AggregatorStage(cfg: Config, storage: Service): Stage {
    if cfg.nearAggregator.enable then
      if cfg.nearAggregator.storageConfig.enable then
        var nearStorage := NearStorage(TheNearDas.reader);
        Stage(RepairedService(nearStorage, storage, NearSync(cfg)), nearStorage, Nil)
      else Stage(storage, TheNearDas.reader, TheNearDas.writer)
    else if cfg.restAggregator.enable then
      Stage(RepairedService(storage, RestAggregator, RestSync(cfg)), storage, Nil)
    else Stage(storage, storage, Nil)
  }

  /** The registrations of a successful aggregator branch. */
  function AggregatorRegistrations(cfg: Config, storage: Service): seq<Service> {
    var st := AggregatorStage(cfg, storage);
    if cfg.nearAggregator.enable then Entry(cfg.nearAggregator.storageConfig.enable, st.storage)
    else if cfg.restAggregator.enable then [RestAggregator, st.storage]
    else []
  }

  /** The steps of the signing writer, taken when a key is configured: the
      sequencer inbox (through the L1 reader) when its address is given,
      the BLS key, then the writer. */
  function SigningPlan(cfg: Config, hasL1: bool, hasAddr: bool): seq<Step> {
    if HasSigningKey(cfg) then
      (if hasAddr then [Dereference(hasL1), Construct(NewSequencerInbox)] else [])
      + [Construct(ParseBlsPrivKey), Construct(NewSignAfterStoreWriter)]
    else []
  }

  /** The writer: with a key, a signing writer over the storage service,
      checking the sequencer inbox when its address is given and signature
      checking is not disabled; otherwise the stage's writer. */
  function SignedWriter(cfg: Config, hasAddr: bool, st: Stage): Service {
    if HasSigningKey(cfg) then SignAfterStore(st.storage, hasAddr && !cfg.disableSignatureChecking) else st.writer
  }

  /** The steps of the chain-fetch reader, taken when the inbox address is
      given. */
  function ChainPlan(hasL1: bool, hasAddr: bool): seq<Step> {
    if hasAddr then [Dereference(hasL1), Construct(NewChainFetchReader)] else []
  }

  function ChainReader(hasAddr: bool, reader: Service): Service {
    if hasAddr then ChainFetch(reader) else reader
  }

  /** The regular sync starts when it is enabled and both lists are
      non-empty. */
  function RegularSyncFor(cfg: Config, from: seq<Service>, to: seq<Service>): Option<RegularSync> {
    if cfg.regularSyncStorageEnable && |from| != 0 && |to| != 0 then Some(RegularSync(from, to)) else None
  }

  /** The persistent storage service under its caches, built with the
      sync-list pointers given. */
  function StorageOutcome(cfg: Config, fails: set<Ctor>): Outcome<Service> {
    var p := PersistentOutcome(cfg, fails, true);
    if !p.Ok? then p else CacheOutcome(cfg, fails, p.value)
  }

  /** The registrations of the persistent storage and its caches. */
  function StorageRegistrations(cfg: Config, fails: set<Ctor>): seq<Service>
    requires PersistentOutcome(cfg, fails, true).Ok?
  {
    PersistentRegistrations(cfg, fails, true) + CacheRegistrations(cfg, fails, PersistentOutcome(cfg, fails, true).value)
  }

  /** The regular-sync sources: the persistent backends', then Redis's. */
  function SyncSources(cfg: Config, fails: set<Ctor>): seq<Service>
    requires PersistentOutcome(cfg, fails, true).Ok?
  {
    BuildAll(cfg, fails, true).syncFrom + CacheSyncFrom(cfg, fails, PersistentOutcome(cfg, fails, true).value)
  }

  /** The regular-sync destinations: the persistent backends', then
      Redis's. */
  function SyncDestinations(cfg: Config, fails: set<Ctor>): seq<Service>
    requires PersistentOutcome(cfg, fails, true).Ok?
  {
    BuildAll(cfg, fails, true).syncTo + CacheSyncTo(cfg, fails, PersistentOutcome(cfg, fails, true).value)
  }

  /** The aggregator branch, the signing writer and the chain-fetch reader
      over the cached storage `cached`: the final storage service, reader
      and writer. */
  function ServeOutcome(cfg: Config, fails: set<Ctor>, hasL1: bool, hasAddr: bool, cached: Service): Outcome<Stage> {
    var a := Run(AggregatorPlan(cfg, hasL1, hasAddr), fails, AggregatorStage(cfg, cached));
    if !a.Ok? then a else
    var w := Run(SigningPlan(cfg, hasL1, hasAddr), fails, SignedWriter(cfg, hasAddr, a.value));
    if !w.Ok? then Lift(w) else
    var rd := Run(ChainPlan(hasL1, hasAddr), fails, ChainReader(hasAddr, a.value.reader));
    if !rd.Ok? then Lift(rd) else
    Ok(Stage(a.value.storage, rd.value, w.value))
  }

  /** The components built once the configuration passed its check: the
      reader and writer served over the cached storage, the cached storage
      as health checker, and the regular sync over the sync lists. */
  function ComponentsOutcome(cfg: Config, fails: set<Ctor>, hasL1: bool, hasAddr: bool): Outcome<DaserverComponents> {
    var c := StorageOutcome(cfg, fails);
    if !c.Ok? then Lift(c) else
    var o := ServeOutcome(cfg, fails, hasL1, hasAddr, c.value);
    if !o.Ok? then Lift(o) else
    var sync := RegularSyncFor(cfg, SyncSources(cfg, fails), SyncDestinations(cfg, fails));
    Ok(DaserverComponents(o.value.reader, o.value.writer, c.value, sync))
  }

  /** What `CreateDAComponentsForDaserver` returns. `hasL1` and `hasAddr`
      say that the L1 reader and the sequencer inbox address are not nil. */
  function DaserverOutcome(cfg: Config, fails: set<Ctor>, hasL1: bool, hasAddr: bool): (r: Outcome<Option<DaserverComponents>>)
    ensures !cfg.enable ==> r == Ok(None)
    ensures cfg.enable && !AnyPersistentBackend(cfg) ==> r == Err(ConfigError(PersistentBackendRequired))
    ensures cfg.enable && r.Ok? ==> r.value.Some?
  {
    if !cfg.enable then Ok(None)
    else if DaserverConfigCheck(cfg).Some? then Err(ConfigError(DaserverConfigCheck(cfg).value))
    else
      var o := ComponentsOutcome(cfg, fails, hasL1, hasAddr);
      if !o.Ok? then Lift(o) else Ok(Some(o.value))
  }

  /** The registrations of a successful build: the persistent storage's,
      the caches', then the aggregator branch's. */
  function DaserverRegistrations(cfg: Config, fails: set<Ctor>): seq<Service> {
    var c := StorageOutcome(cfg, fails);
    if !c.Ok? then [] else StorageRegistrations(cfg, fails) + AggregatorRegistrations(cfg, c.value)
  }

  // ---------------------------------------------------------------------
  // The imperative procedure.

  /** The eager or lazy fallback of `primary` to `backup`. */
  method AddRepair(fails: set<Ctor>, hasL1: bool, hasAddr: bool, primary: Service, backup: Service, sync: SyncToStorageConfig)
    returns (r: Outcome<Service>)
    ensures r == Run(RepairPlan(sync, hasL1, hasAddr), fails, RepairedService(primary, backup, sync))
  {
    var retentionPeriodSeconds := RetentionPeriodSeconds(sync.retentionPeriod);
    if sync.eager {
      var v := RepairedService(primary, backup, sync);
      RunCons(Require(hasL1 && hasAddr, EagerSyncNeedsL1), [Construct(NewSyncingFallback)], fails, v);
      RunCons(Construct(NewSyncingFallback), [], fails, v);
      if !hasL1 || !hasAddr {
        return Err(ConfigError(EagerSyncNeedsL1));
      }
      if NewSyncingFallback in fails {
        return Err(ConstructorError(NewSyncingFallback));
      }
      return Ok(SyncingFallback(primary, backup, backup, sync));
    }
    return Ok(Fallback(primary, backup, backup, retentionPeriodSeconds, sync.ignoreWriteErrors));
  }

  /** The NEAR branch (lines 259-306). */
  method AddNear(cfg: Config, fails: set<Ctor>, hasL1: bool, hasAddr: bool, storage: Service, lm: LifecycleManager)
    returns (r: Outcome<Stage>)
    requires cfg.nearAggregator.enable
    modifies lm
    ensures r == Run(AggregatorPlan(cfg, hasL1, hasAddr), fails, AggregatorStage(cfg, storage))
    ensures r.Ok? ==> lm.registered == old(lm.registered) + AggregatorRegistrations(cfg, storage)
  {
    ghost var value := AggregatorStage(cfg, storage);
    ghost var rest := if cfg.nearAggregator.storageConfig.enable then [Construct(NewNearStorage)] + RepairPlan(NearSync(cfg), hasL1, hasAddr) else [];
    RunAppend(NearPlan(cfg), rest, fails, value);
    CreateNearDASFollowsPlan(cfg, fails);
    var near := CreateNearDAS(cfg, fails);
    if !near.Ok? {
      RunFailureLifts(NearPlan(cfg), fails, TheNearDas, value);
      return Lift(near);
    }
    if !cfg.nearAggregator.storageConfig.enable {
      return Ok(Stage(storage, near.value.reader, near.value.writer));
    }
    RunCons(Construct(NewNearStorage), RepairPlan(NearSync(cfg), hasL1, hasAddr), fails, value);
    if NewNearStorage in fails {
      return Err(ConstructorError(NewNearStorage));
    }
    var nearStorageService := NearStorage(near.value.reader);
    var repaired := AddRepair(fails, hasL1, hasAddr, nearStorageService, storage, NearSync(cfg));
    if !repaired.Ok? {
      RunFailureLifts(RepairPlan(NearSync(cfg), hasL1, hasAddr), fails, RepairedService(nearStorageService, storage, NearSync(cfg)), value);
      return Lift(repaired);
    }
    lm.Register(repaired.value);
    return Ok(Stage(repaired.value, nearStorageService, Nil));
  }

  /** The REST branch (lines 307-348). The syncing fallback is registered
      before its constructor's error is checked. */
  method AddRest(cfg: Config, fails: set<Ctor>, hasL1: bool, hasAddr: bool, storage: Service, lm: LifecycleManager)
    returns (r: Outcome<Stage>)
    requires !cfg.nearAggregator.enable && cfg.restAggregator.enable
    modifies lm
    ensures r == Run(AggregatorPlan(cfg, hasL1, hasAddr), fails, AggregatorStage(cfg, storage))
    ensures r.Ok? ==> lm.registered == old(lm.registered) + AggregatorRegistrations(cfg, storage)
  {
    ghost var value := AggregatorStage(cfg, storage);
    RunCons(Construct(NewRestfulClientAggregator), RepairPlan(RestSync(cfg), hasL1, hasAddr), fails, value);
    if NewRestfulClientAggregator in fails {
      return Err(ConstructorError(NewRestfulClientAggregator));
    }
    var restAgg := RestAggregator;
    lm.Register(restAgg);
    var repaired := AddRepair(fails, hasL1, hasAddr, storage, restAgg, RestSync(cfg));
    if !repaired.Ok? {
      if repaired == Err(ConstructorError(NewSyncingFallback)) {
        lm.Register(Nil);
      }
      RunFailureLifts(RepairPlan(RestSync(cfg), hasL1, hasAddr), fails, RepairedService(storage, restAgg, RestSync(cfg)), value);
      return Lift(repaired);
    }
    lm.Register(repaired.value);
    return Ok(Stage(repaired.value, storage, Nil));
  }

  /** The aggregator branch over the cached `storage`. */
  method AddAggregator(cfg: Config, fails: set<Ctor>, hasL1: bool, hasAddr: bool, storage: Service, lm: LifecycleManager)
    returns (r: Outcome<Stage>)
    modifies lm
    ensures r == Run(AggregatorPlan(cfg, hasL1, hasAddr), fails, AggregatorStage(cfg, storage))
    ensures r.Ok? ==> lm.registered == old(lm.registered) + AggregatorRegistrations(cfg, storage)
  {
    if cfg.nearAggregator.enable {
      r := AddNear(cfg, fails, hasL1, hasAddr, storage, lm);
    } else if cfg.restAggregator.enable {
      r := AddRest(cfg, fails, hasL1, hasAddr, storage, lm);
    } else {
      r := Ok(Stage(storage, storage, Nil));
    }
  }

  /** The signing writer (lines 351-379). Disabling signature checking
      drops the inbox caller after the inbox was built. */
  method SignWriter(cfg: Config, fails: set<Ctor>, hasL1: bool, hasAddr: bool, st: Stage) returns (r: Outcome<Service>)
    ensures r == Run(SigningPlan(cfg, hasL1, hasAddr), fails, SignedWriter(cfg, hasAddr, st))
  {
    if cfg.key.keyDir == "" && cfg.key.privKey == "" {
      return Ok(st.writer);
    }
    ghost var value := SignedWriter(cfg, hasAddr, st);
    ghost var tail := [Construct(ParseBlsPrivKey), Construct(NewSignAfterStoreWriter)];
    RunCons(Construct(ParseBlsPrivKey), [Construct(NewSignAfterStoreWriter)], fails, value);
    RunCons(Construct(NewSignAfterStoreWriter), [], fails, value);
    var checksInbox := false;
    if hasAddr {
      RunCons(Dereference(hasL1), [Construct(NewSequencerInbox)] + tail, fails, value);
      RunCons(Construct(NewSequencerInbox), tail, fails, value);
      assert SigningPlan(cfg, hasL1, hasAddr) == [Dereference(hasL1)] + ([Construct(NewSequencerInbox)] + tail);
      if !hasL1 {
        return Panic;
      }
      if NewSequencerInbox in fails {
        return Err(ConstructorError(NewSequencerInbox));
      }
      checksInbox := true;
    }
    if cfg.disableSignatureChecking {
      checksInbox := false;
    }
    if ParseBlsPrivKey in fails {
      return Err(ConstructorError(ParseBlsPrivKey));
    }
    if NewSignAfterStoreWriter in fails {
      return Err(ConstructorError(NewSignAfterStoreWriter));
    }
    return Ok(SignAfterStore(st.storage, checksInbox));
  }

  /** The chain-fetch reader (lines 387-392). */
  method FetchReader(fails: set<Ctor>, hasL1: bool, hasAddr: bool, reader: Service) returns (r: Outcome<Service>)
    ensures r == Run(ChainPlan(hasL1, hasAddr), fails, ChainReader(hasAddr, reader))
  {
    if !hasAddr {
      return Ok(reader);
    }
    RunCons(Dereference(hasL1), [Construct(NewChainFetchReader)], fails, ChainFetch(reader));
    RunCons(Construct(NewChainFetchReader), [], fails, ChainFetch(reader));
    if !hasL1 {
      return Panic;
    }
    if NewChainFetchReader in fails {
      return Err(ConstructorError(NewChainFetchReader));
    }
    return Ok(ChainFetch(reader));
  }

  /** Lines 242-253: the persistent storage, with both sync lists, under
      its caches. */
  method BuildStorage(cfg: Config, fails: set<Ctor>) returns (r: Outcome<Service>, lm: LifecycleManager?, sync: SyncTargets)
    ensures r == StorageOutcome(cfg, fails)
    ensures r.Ok? ==> PersistentOutcome(cfg, fails, true).Ok?
    ensures lm != null <==> r.Ok?
    ensures lm != null ==> fresh(lm) && lm.registered == StorageRegistrations(cfg, fails)
    ensures lm != null ==> sync.syncFrom == SyncSources(cfg, fails) && sync.syncTo == SyncDestinations(cfg, fails)
  {
    sync := new SyncTargets();
    var storage;
    storage, lm := CreatePersistentStorageService(cfg, fails, sync);
    if !storage.Ok? {
      return storage, null, sync;
    }
    ghost var build := BuildAll(cfg, fails, true);
    assert sync.syncFrom == build.syncFrom && sync.syncTo == build.syncTo;
    r := WrapStorageWithCache(cfg, fails, storage.value, sync, lm);
    if !r.Ok? {
      return r, null, sync;
    }
  }

  /** Lines 255-392 without the regular sync: the aggregator branch, the
      signing writer and the chain-fetch reader. */
  method Serve(cfg: Config, fails: set<Ctor>, hasL1: bool, hasAddr: bool, cached: Service, lm: LifecycleManager)
    returns (r: Outcome<Stage>)
    modifies lm
    ensures r == ServeOutcome(cfg, fails, hasL1, hasAddr, cached)
    ensures r.Ok? ==> lm.registered == old(lm.registered) + AggregatorRegistrations(cfg, cached)
  {
    var stage := AddAggregator(cfg, fails, hasL1, hasAddr, cached, lm);
    if !stage.Ok? {
      return stage;
    }
    var writer := SignWriter(cfg, fails, hasL1, hasAddr, stage.value);
    if !writer.Ok? {
      return Lift(writer);
    }
    var reader := FetchReader(fails, hasL1, hasAddr, stage.value.reader);
    if !reader.Ok? {
      return Lift(reader);
    }
    return Ok(Stage(stage.value.storage, reader.value, writer.value));
  }

  /** Lines 242-392. The regular sync is started after the signing writer
      is built and before the chain-fetch reader is; here it is decided
      once both have been built. */
  method BuildComponents(cfg: Config, fails: set<Ctor>, hasL1: bool, hasAddr: bool)
    returns (r: Outcome<DaserverComponents>, lm: LifecycleManager?)
    ensures r == ComponentsOutcome(cfg, fails, hasL1, hasAddr)
    ensures lm != null <==> r.Ok?
    ensures lm != null ==> fresh(lm) && lm.registered == DaserverRegistrations(cfg, fails)
  {
    var storageService, dasLifecycleManager, sync := BuildStorage(cfg, fails);
    if !storageService.Ok? {
      return Lift(storageService), null;
    }
    var served := Serve(cfg, fails, hasL1, hasAddr, storageService.value, dasLifecycleManager);
    if !served.Ok? {
      return Lift(served), null;
    }
    var regularSync: Option<RegularSync> := None;
    if cfg.regularSyncStorageEnable && |sync.syncFrom| != 0 && |sync.syncTo| != 0 {
      regularSync := Some(RegularSync(sync.syncFrom, sync.syncTo));
    }
    assert regularSync == RegularSyncFor(cfg, SyncSources(cfg, fails), SyncDestinations(cfg, fails));
    return Ok(DaserverComponents(served.value.reader, served.value.writer, storageService.value, regularSync)), dasLifecycleManager;
  }

  method CreateDAComponentsForDaserver(cfg: Config, fails: set<Ctor>, hasL1: bool, hasAddr: bool)
    returns (r: Outcome<Option<DaserverComponents>>, lm: LifecycleManager?)
    ensures r == DaserverOutcome(cfg, fails, hasL1, hasAddr)
    ensures lm != null <==> r.Ok? && r.value.Some?
    ensures lm != null ==> fresh(lm) && lm.registered == DaserverRegistrations(cfg, fails)
  {
    if !cfg.enable {
      return Ok(None), null;
    }
    if !cfg.localDBStorage.enable && !cfg.localFileStorage.enable && !cfg.s3Storage.enable && !cfg.ipfsStorageEnable {
      return Err(ConfigError(PersistentBackendRequired)), null;
    }
    assert DaserverConfigCheck(cfg).None?;
    var components;
    components, lm := BuildComponents(cfg, fails, hasL1, hasAddr);
    if !components.Ok? {
      return Lift(components), null;
    }
    return Ok(Some(components.value)), lm;
  }

  // ---------------------------------------------------------------------
  // Properties.

  /** Some enabled persistent backend, or Redis, is a sync source. */
  predicate AnySyncSource(cfg: Config) {
    (exists b :: BackendEnabled(cfg, b) && SyncFromFlag(cfg, b))
    || (cfg.redisCache.enable && cfg.redisCache.syncFromStorageService)
  }

  /** Some enabled persistent backend, or Redis, is a sync destination. */
  predicate AnySyncDestination(cfg: Config) {
    (exists b :: BackendEnabled(cfg, b) && SyncToFlag(cfg, b))
    || (cfg.redisCache.enable && cfg.redisCache.syncToStorageService)
  }

  /** With a persistent backend enabled, a successful storage build has a
      non-nil persistent service under the caches. */
  lemma StorageNotNil(cfg: Config, fails: set<Ctor>)
    requires AnyPersistentBackend(cfg) && StorageOutcome(cfg, fails).Ok?
    ensures PersistentOutcome(cfg, fails, true).Ok?
    ensures PersistentOutcome(cfg, fails, true).value != Nil
    ensures StorageOutcome(cfg, fails).value == CachedService(cfg, PersistentOutcome(cfg, fails, true).value)
  {
    TrackedNeverPanics(cfg, fails);
    NilIffNoBackend(cfg, fails, true);
    CacheErrors(cfg, fails, PersistentOutcome(cfg, fails, true).value);
  }

  /** Eager repair without an L1 reader or an inbox address is refused once
      the aggregator (and, for NEAR, its storage) is built, whatever the
      syncing fallback's constructor would do: it is never called. */
  lemma DaserverEagerWithoutL1(cfg: Config, fails: set<Ctor>, hasL1: bool, hasAddr: bool)
    requires cfg.enable && AnyPersistentBackend(cfg) && StorageOutcome(cfg, fails).Ok?
    requires !(hasL1 && hasAddr)
    requires || (cfg.nearAggregator.enable && cfg.nearAggregator.storageConfig.enable && NearSync(cfg).eager
                 && NewNearService !in fails && NewNearStorage !in fails)
             || (!cfg.nearAggregator.enable && cfg.restAggregator.enable && RestSync(cfg).eager
                 && NewRestfulClientAggregator !in fails)
    ensures DaserverOutcome(cfg, fails, hasL1, hasAddr) == Err(ConfigError(EagerSyncNeedsL1))
  {
    var c := StorageOutcome(cfg, fails).value;
    var v := AggregatorStage(cfg, c);
    var repair := [Require(hasL1 && hasAddr, EagerSyncNeedsL1), Construct(NewSyncingFallback)];
    RunCons(Require(hasL1 && hasAddr, EagerSyncNeedsL1), [Construct(NewSyncingFallback)], fails, v);
    if cfg.nearAggregator.enable {
      CreateNearDASFollowsPlan(cfg, fails);
      RunAppend(NearPlan(cfg), [Construct(NewNearStorage)] + repair, fails, v);
      RunCons(Construct(NewNearStorage), repair, fails, v);
    } else {
      RunCons(Construct(NewRestfulClientAggregator), repair, fails, v);
    }
    assert Run(AggregatorPlan(cfg, hasL1, hasAddr), fails, v) == Err(ConfigError(EagerSyncNeedsL1));
  }

  /** In every aggregator plan the syncing fallback's constructor comes
      right after the check for the L1 reader and the inbox address. */
  lemma EagerCheckPrecedesSyncingFallback(cfg: Config, hasL1: bool, hasAddr: bool)
    ensures var p := AggregatorPlan(cfg, hasL1, hasAddr);
      forall i :: 0 <= i < |p| && p[i] == Construct(NewSyncingFallback) ==>
        0 < i && p[i - 1] == Require(hasL1 && hasAddr, EagerSyncNeedsL1)
  {
  }

  /** The health checker is the persistent storage under its caches, never
      nil, whatever aggregator is configured. */
  lemma DaserverHealthChecker(cfg: Config, fails: set<Ctor>, hasL1: bool, hasAddr: bool)
    requires DaserverOutcome(cfg, fails, hasL1, hasAddr).Ok? && DaserverOutcome(cfg, fails, hasL1, hasAddr).value.Some?
    ensures var c := DaserverOutcome(cfg, fails, hasL1, hasAddr).value.value;
      && PersistentOutcome(cfg, fails, true).Ok?
      && c.healthChecker == CachedService(cfg, PersistentOutcome(cfg, fails, true).value)
      && c.healthChecker != Nil
  {
    StorageNotNil(cfg, fails);
  }

  /** With NEAR storage, the reader is the NEAR storage service, not the
      fallback built over it; the writer is nil unless a key is
      configured, and then signs into the fallback. */
  lemma DaserverNearStorageRoles(cfg: Config, fails: set<Ctor>, hasL1: bool, hasAddr: bool)
    requires DaserverOutcome(cfg, fails, hasL1, hasAddr).Ok? && DaserverOutcome(cfg, fails, hasL1, hasAddr).value.Some?
    requires cfg.nearAggregator.enable && cfg.nearAggregator.storageConfig.enable
    ensures var c := DaserverOutcome(cfg, fails, hasL1, hasAddr).value.value;
      && c.reader == ChainReader(hasAddr, NearStorage(Near(0)))
      && c.writer == if HasSigningKey(cfg)
                     then SignAfterStore(RepairedService(NearStorage(Near(0)), c.healthChecker, NearSync(cfg)),
                                         hasAddr && !cfg.disableSignatureChecking)
                     else Nil
  {
  }

  /** With NEAR but no NEAR storage, the NEAR service is reader and writer,
      unless a key is configured: the signing writer then replaces it and
      writes into the cached storage. */
  lemma DaserverNearRoles(cfg: Config, fails: set<Ctor>, hasL1: bool, hasAddr: bool)
    requires DaserverOutcome(cfg, fails, hasL1, hasAddr).Ok? && DaserverOutcome(cfg, fails, hasL1, hasAddr).value.Some?
    requires cfg.nearAggregator.enable && !cfg.nearAggregator.storageConfig.enable
    ensures var c := DaserverOutcome(cfg, fails, hasL1, hasAddr).value.value;
      && c.reader == ChainReader(hasAddr, Near(0))
      && c.writer == if HasSigningKey(cfg)
                     then SignAfterStore(c.healthChecker, hasAddr && !cfg.disableSignatureChecking)
                     else Near(0)
  {
  }

  /** With the REST aggregator, the reader stays the cached storage: the
      fallback to the aggregator is used only by the signing writer, and is
      otherwise reachable only through the lifecycle manager. */
  lemma DaserverRestRoles(cfg: Config, fails: set<Ctor>, hasL1: bool, hasAddr: bool)
    requires DaserverOutcome(cfg, fails, hasL1, hasAddr).Ok? && DaserverOutcome(cfg, fails, hasL1, hasAddr).value.Some?
    requires !cfg.nearAggregator.enable && cfg.restAggregator.enable
    ensures var c := DaserverOutcome(cfg, fails, hasL1, hasAddr).value.value;
      && c.reader == ChainReader(hasAddr, c.healthChecker)
      && c.writer == (if HasSigningKey(cfg)
                      then SignAfterStore(RepairedService(c.healthChecker, RestAggregator, RestSync(cfg)),
                                          hasAddr && !cfg.disableSignatureChecking)
                      else Nil)
      && DaserverRegistrations(cfg, fails)[|DaserverRegistrations(cfg, fails)| - 2..] ==
           [RestAggregator, RepairedService(c.healthChecker, RestAggregator, RestSync(cfg))]
  {
  }

  /** With neither aggregator, the reader and the health checker are the
      cached storage (checked against the sequencer inbox when an address is
      given), a writer exists only with key material, and nothing is
      registered beyond the storage and its caches. */
  lemma DaserverNoAggregatorRoles(cfg: Config, fails: set<Ctor>, hasL1: bool, hasAddr: bool)
    requires DaserverOutcome(cfg, fails, hasL1, hasAddr).Ok? && DaserverOutcome(cfg, fails, hasL1, hasAddr).value.Some?
    requires !cfg.nearAggregator.enable && !cfg.restAggregator.enable
    ensures var c := DaserverOutcome(cfg, fails, hasL1, hasAddr).value.value;
      && c.reader == ChainReader(hasAddr, c.healthChecker)
      && c.writer == (if HasSigningKey(cfg) then SignAfterStore(c.healthChecker, hasAddr && !cfg.disableSignatureChecking) else Nil)
    ensures PersistentOutcome(cfg, fails, true).Ok? && DaserverRegistrations(cfg, fails) == StorageRegistrations(cfg, fails)
  {
  }

  /** The regular sync starts exactly when it is enabled, some enabled
      backend or Redis is a sync source and some is a sync destination;
      it then syncs from the sources to the destinations. */
  lemma DaserverRegularSync(cfg: Config, fails: set<Ctor>, hasL1: bool, hasAddr: bool)
    requires DaserverOutcome(cfg, fails, hasL1, hasAddr).Ok? && DaserverOutcome(cfg, fails, hasL1, hasAddr).value.Some?
    ensures var c := DaserverOutcome(cfg, fails, hasL1, hasAddr).value.value;
      && (c.regularSync.Some? <==> cfg.regularSyncStorageEnable && AnySyncSource(cfg) && AnySyncDestination(cfg))
      && (c.regularSync.Some? ==> c.regularSync.value == RegularSync(SyncSources(cfg, fails), SyncDestinations(cfg, fails)))
  {
    StorageNotNil(cfg, fails);
    var p := PersistentOutcome(cfg, fails, true).value;
    BuiltWhenOk(cfg, fails, true);
    SyncListsNonEmpty(cfg, fails);
    CacheErrors(cfg, fails, p);
  }

  lemma AggregatorPlanNeverDereferences(cfg: Config, hasL1: bool, hasAddr: bool)
    ensures Dereference(false) !in AggregatorPlan(cfg, hasL1, hasAddr)
  {
    var near := RepairPlan(NearSync(cfg), hasL1, hasAddr);
    var rest := RepairPlan(RestSync(cfg), hasL1, hasAddr);
    assert Dereference(false) !in near && Dereference(false) !in rest;
    assert Dereference(false) !in NearPlan(cfg);
    if cfg.nearAggregator.enable && cfg.nearAggregator.storageConfig.enable {
      assert Dereference(false) !in [Construct(NewNearStorage)] + near;
    }
  }

  /** A DA server build panics only when the inbox address is given without
      an L1 reader. */
  lemma DaserverPanicOnlyWithoutL1(cfg: Config, fails: set<Ctor>, hasL1: bool, hasAddr: bool)
    requires DaserverOutcome(cfg, fails, hasL1, hasAddr) == Panic
    ensures hasAddr && !hasL1
  {
    TrackedNeverPanics(cfg, fails);
    var p := PersistentOutcome(cfg, fails, true);
    if p.Ok? {
      CacheNeverPanics(cfg, fails, p.value);
    }
    var c := StorageOutcome(cfg, fails);
    assert c.Ok?;
    var plan := AggregatorPlan(cfg, hasL1, hasAddr);
    AggregatorPlanNeverDereferences(cfg, hasL1, hasAddr);
    var a := Run(plan, fails, AggregatorStage(cfg, c.value));
    assert a.Ok?;
    var w := Run(SigningPlan(cfg, hasL1, hasAddr), fails, SignedWriter(cfg, hasAddr, a.value));
    var rd := Run(ChainPlan(hasL1, hasAddr), fails, ChainReader(hasAddr, a.value.reader));
    assert w == Panic || (w.Ok? && rd == Panic);
  }
}
