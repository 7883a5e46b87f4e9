/** `CreateDAReaderForNode`: the reader of a plain (non batch poster) node,
    over persistent storage built without sync lists, with a NEAR or REST
    aggregator behind it and an optional check against the sequencer
    inbox. */
module Node {
  import opened DasConfig
  import opened Pipeline
  import opened Lifecycle
  import opened PersistentStorage
  import opened NearAggregator

  /** The second NEAR service node mode builds, passed as the third
      argument of its fallback; a separate instance from the aggregator's
      `Near(0)`. */
  const NodeNearService: Service := Near(1)

  /** The lazy fallback from `storage` to `backup`, with `third` as its
      third service argument, with the REST aggregator's retention period and
      write-error setting (also with NEAR). */
  function NodeFallback(cfg: Config, storage: Service, backup: Service, third: Service): Service {
    var sync := cfg.restAggregator.syncToStorage;
    Fallback(storage, backup, third, RetentionPeriodSeconds(sync.retentionPeriod), sync.ignoreWriteErrors)
  }

  /** The steps of the aggregator branch over `storage`. */
  function NodeReaderPlan(cfg: Config, storage: Service): seq<Step> {
    if cfg.nearAggregator.enable then NearPlan(cfg) + Entry(storage != Nil, Construct(NewNodeNearService))
    else if cfg.restAggregator.enable then [Construct(NewRestfulClientAggregator)]
    else []
  }

  /** The reader the aggregator branch yields: the fallback from local
      storage to the aggregator when there is local storage, the
      aggregator alone otherwise, and nil when neither NEAR nor REST is
      enabled. */
  function NodeReader(cfg: Config, storage: Service): Service {
    if cfg.nearAggregator.enable then
      if storage != Nil then NodeFallback(cfg, storage, TheNearDas.reader, NodeNearService) else TheNearDas.reader
    else if cfg.restAggregator.enable then
      if storage != Nil then NodeFallback(cfg, storage, RestAggregator, RestAggregator) else RestAggregator
    else Nil
  }

  /** The registrations of a successful aggregator branch. */
  function NodeReaderRegistrations(cfg: Config, storage: Service): seq<Service> {
    if cfg.nearAggregator.enable then Entry(storage != Nil, NodeReader(cfg, storage))
    else if cfg.restAggregator.enable then [RestAggregator] + Entry(storage != Nil, NodeReader(cfg, storage))
    else []
  }

  /** The steps of the inbox check, taken when the inbox address is given. */
  function NodeChainPlan(hasL1: bool, hasAddr: bool): seq<Step> {
    if hasAddr then [Dereference(hasL1), Construct(NewSequencerInbox), Construct(NewChainFetchReaderWithSeqInbox)] else []
  }

  function NodeChainReader(hasAddr: bool, reader: Service): Service {
    if hasAddr then ChainFetchWithSeqInbox(reader) else reader
  }

  /** What `CreateDAReaderForNode` returns. `hasL1` and `hasAddr` say that
      the L1 reader and the sequencer inbox address are not nil. Each of
      the three configuration errors is returned before anything is built. */
  function NodeOutcome(cfg: Config, fails: set<Ctor>, hasL1: bool, hasAddr: bool): (r: Outcome<Option<Service>>)
    ensures !cfg.enable ==> r == Ok(None)
    ensures cfg.enable && cfg.rpcAggregatorEnable ==> r == Err(ConfigError(RpcAggregatorOnlyForBatchPoster))
    ensures (cfg.enable && !cfg.rpcAggregatorEnable && !cfg.nearAggregator.enable && !cfg.restAggregator.enable
             && !cfg.ipfsStorageEnable) ==> r == Err(ConfigError(RestOrIpfsRequired))
    ensures (cfg.enable && !cfg.rpcAggregatorEnable
             && (cfg.nearAggregator.enable || cfg.restAggregator.enable || cfg.ipfsStorageEnable)
             && cfg.restAggregator.syncToStorage.eager) ==> r == Err(ConfigError(EagerSyncForbiddenForNode))
    ensures cfg.enable && r.Ok? ==> r.value.Some?
  {
    if !cfg.enable then Ok(None)
    else if NodeConfigCheck(cfg).Some? then Err(ConfigError(NodeConfigCheck(cfg).value))
    else
      var p := PersistentOutcome(cfg, fails, false);
      if !p.Ok? then Lift(p) else
      var rd := Run(NodeReaderPlan(cfg, p.value), fails, NodeReader(cfg, p.value));
      if !rd.Ok? then Lift(rd) else
      var ch := Run(NodeChainPlan(hasL1, hasAddr), fails, NodeChainReader(hasAddr, rd.value));
      if !ch.Ok? then Lift(ch) else Ok(Some(ch.value))
  }

  /** The registrations of a successful build: the persistent storage's,
      then the aggregator branch's. */
  function NodeRegistrations(cfg: Config, fails: set<Ctor>): seq<Service> {
    var p := PersistentOutcome(cfg, fails, false);
    if !p.Ok? then [] else PersistentRegistrations(cfg, fails, false) + NodeReaderRegistrations(cfg, p.value)
  }

  // ---------------------------------------------------------------------
  // The imperative procedure.

  /** The NEAR branch (lines 429-459). */
  method AddNearReader(cfg: Config, fails: set<Ctor>, storage: Service, lm: LifecycleManager) returns (r: Outcome<Service>)
    requires cfg.nearAggregator.enable
    modifies lm
    ensures r == Run(NodeReaderPlan(cfg, storage), fails, NodeReader(cfg, storage))
    ensures r.Ok? ==> lm.registered == old(lm.registered) + NodeReaderRegistrations(cfg, storage)
  {
    ghost var value := NodeReader(cfg, storage);
    ghost var rest := Entry(storage != Nil, Construct(NewNodeNearService));
    RunAppend(NearPlan(cfg), rest, fails, value);
    CreateNearDASFollowsPlan(cfg, fails);
    var near := CreateNearDAS(cfg, fails);
    if !near.Ok? {
      RunFailureLifts(NearPlan(cfg), fails, TheNearDas, value);
      return Lift(near);
    }
    if storage == Nil {
      return Ok(near.value.reader);
    }
    RunCons(Construct(NewNodeNearService), [], fails, value);
    var syncConf := cfg.restAggregator.syncToStorage;
    var retentionPeriodSeconds := RetentionPeriodSeconds(syncConf.retentionPeriod);
    if NewNodeNearService in fails {
      return Err(ConstructorError(NewNodeNearService));
    }
    var nearSvc := NodeNearService;
    var fallback := Fallback(storage, near.value.reader, nearSvc, retentionPeriodSeconds, syncConf.ignoreWriteErrors);
    lm.Register(fallback);
    return Ok(fallback);
  }

  /** The REST branch (lines 460-487). */
  method AddRestReader(cfg: Config, fails: set<Ctor>, storage: Service, lm: LifecycleManager) returns (r: Outcome<Service>)
    requires !cfg.nearAggregator.enable && cfg.restAggregator.enable
    modifies lm
    ensures r == Run(NodeReaderPlan(cfg, storage), fails, NodeReader(cfg, storage))
    ensures r.Ok? ==> lm.registered == old(lm.registered) + NodeReaderRegistrations(cfg, storage)
  {
    RunCons(Construct(NewRestfulClientAggregator), [], fails, NodeReader(cfg, storage));
    if NewRestfulClientAggregator in fails {
      return Err(ConstructorError(NewRestfulClientAggregator));
    }
    var restAgg := RestAggregator;
    lm.Register(restAgg);
    if storage == Nil {
      return Ok(restAgg);
    }
    var syncConf := cfg.restAggregator.syncToStorage;
    var retentionPeriodSeconds := RetentionPeriodSeconds(syncConf.retentionPeriod);
    var fallback := Fallback(storage, restAgg, restAgg, retentionPeriodSeconds, syncConf.ignoreWriteErrors);
    lm.Register(fallback);
    return Ok(fallback);
  }

  /** The aggregator branch over `storage`; with neither aggregator the
      reader stays nil. */
  method AddNodeReader(cfg: Config, fails: set<Ctor>, storage: Service, lm: LifecycleManager) returns (r: Outcome<Service>)
    modifies lm
    ensures r == Run(NodeReaderPlan(cfg, storage), fails, NodeReader(cfg, storage))
    ensures r.Ok? ==> lm.registered == old(lm.registered) + NodeReaderRegistrations(cfg, storage)
  {
    if cfg.nearAggregator.enable {
      r := AddNearReader(cfg, fails, storage, lm);
    } else if cfg.restAggregator.enable {
      r := AddRestReader(cfg, fails, storage, lm);
    } else {
      r := Ok(Nil);
    }
  }

  /** The inbox check (lines 489-498). */
  method AttachSequencerInbox(fails: set<Ctor>, hasL1: bool, hasAddr: bool, reader: Service) returns (r: Outcome<Service>)
    ensures r == Run(NodeChainPlan(hasL1, hasAddr), fails, NodeChainReader(hasAddr, reader))
  {
    if !hasAddr {
      return Ok(reader);
    }
    ghost var value := ChainFetchWithSeqInbox(reader);
    RunCons(Dereference(hasL1), [Construct(NewSequencerInbox), Construct(NewChainFetchReaderWithSeqInbox)], fails, value);
    RunCons(Construct(NewSequencerInbox), [Construct(NewChainFetchReaderWithSeqInbox)], fails, value);
    RunCons(Construct(NewChainFetchReaderWithSeqInbox), [], fails, value);
    if !hasL1 {
      return Panic;
    }
    if NewSequencerInbox in fails {
      return Err(ConstructorError(NewSequencerInbox));
    }
    if NewChainFetchReaderWithSeqInbox in fails {
      return Err(ConstructorError(NewChainFetchReaderWithSeqInbox));
    }
    return Ok(ChainFetchWithSeqInbox(reader));
  }

  method CreateDAReaderForNode(cfg: Config, fails: set<Ctor>, hasL1: bool, hasAddr: bool)
    returns (r: Outcome<Option<Service>>, lm: LifecycleManager?)
    ensures r == NodeOutcome(cfg, fails, hasL1, hasAddr)
    ensures lm != null <==> r.Ok? && r.value.Some?
    ensures lm != null ==> fresh(lm) && lm.registered == NodeRegistrations(cfg, fails)
  {
    if !cfg.enable {
      return Ok(None), null;
    }
    if cfg.rpcAggregatorEnable {
      return Err(ConfigError(RpcAggregatorOnlyForBatchPoster)), null;
    }
    if !cfg.nearAggregator.enable && !cfg.restAggregator.enable && !cfg.ipfsStorageEnable {
      return Err(ConfigError(RestOrIpfsRequired)), null;
    }
    if cfg.restAggregator.syncToStorage.eager {
      return Err(ConfigError(EagerSyncForbiddenForNode)), null;
    }
    assert NodeConfigCheck(cfg).None?;
    var storageService, dasLifecycleManager := CreatePersistentStorageService(cfg, fails, null);
    if !storageService.Ok? {
      return Lift(storageService), null;
    }
    var daReader := AddNodeReader(cfg, fails, storageService.value, dasLifecycleManager);
    if !daReader.Ok? {
      return Lift(daReader), null;
    }
    var checked := AttachSequencerInbox(fails, hasL1, hasAddr, daReader.value);
    if !checked.Ok? {
      return Lift(checked), null;
    }
    return Ok(Some(checked.value)), dasLifecycleManager;
  }

  // ---------------------------------------------------------------------
  // Properties.

  /** With IPFS as the only source of batch data, the reader is never
      assigned: the node gets nil (under the inbox check when its address
      is given), and only the persistent storage is registered. */
  lemma NodeIpfsOnlyReaderIsNil(cfg: Config, fails: set<Ctor>, hasL1: bool, hasAddr: bool)
    requires cfg.enable && !cfg.nearAggregator.enable && !cfg.restAggregator.enable
    requires NodeOutcome(cfg, fails, hasL1, hasAddr).Ok?
    ensures cfg.ipfsStorageEnable
    ensures NodeOutcome(cfg, fails, hasL1, hasAddr) == Ok(Some(NodeChainReader(hasAddr, Nil)))
    ensures NodeRegistrations(cfg, fails) == PersistentRegistrations(cfg, fails, false)
  {
  }

  /** Node mode passes nil sync-list pointers: a sync flag on an enabled
      backend makes the build panic once that backend and the ones before
      it are built, whatever the later backends' constructors would do. */
  lemma NodeSyncFlagPanics(cfg: Config, fails: set<Ctor>, hasL1: bool, hasAddr: bool, b: Backend)
    requires cfg.enable && NodeConfigCheck(cfg).None?
    requires forall c :: BackendEnabled(cfg, c) && Rank(c) <= Rank(b) ==> BackendCtor(c) !in fails
    requires BackendEnabled(cfg, b) && (SyncFromFlag(cfg, b) || SyncToFlag(cfg, b))
    ensures NodeOutcome(cfg, fails, hasL1, hasAddr) == Panic
  {
    UntrackedSyncFlagPanics(cfg, fails, b);
  }

  /** A node build panics only through a sync flag on an enabled backend or
      an inbox address given without an L1 reader. */
  lemma NodePanicCauses(cfg: Config, fails: set<Ctor>, hasL1: bool, hasAddr: bool)
    requires NodeOutcome(cfg, fails, hasL1, hasAddr) == Panic
    ensures (hasAddr && !hasL1) || exists b :: BackendEnabled(cfg, b) && (SyncFromFlag(cfg, b) || SyncToFlag(cfg, b))
  {
    var p := PersistentOutcome(cfg, fails, false);
    if p == Panic {
      UntrackedPanicNeedsSyncFlag(cfg, fails);
    } else {
      assert Dereference(false) !in NearPlan(cfg);
      assert Dereference(false) !in NodeReaderPlan(cfg, p.value);
    }
  }

  /** A successful node build had no sync flag set on any enabled backend,
      so none of its backends is made iterable. */
  lemma NodeOkMeansNoSyncFlags(cfg: Config, fails: set<Ctor>, hasL1: bool, hasAddr: bool)
    requires cfg.enable && NodeOutcome(cfg, fails, hasL1, hasAddr).Ok?
    ensures forall b :: BackendEnabled(cfg, b) ==> !SyncFromFlag(cfg, b) && !SyncToFlag(cfg, b)
  {
    BuiltWhenOk(cfg, fails, false);
    forall b | BackendEnabled(cfg, b)
      ensures !SyncFromFlag(cfg, b) && !SyncToFlag(cfg, b)
    {
      if SyncFromFlag(cfg, b) || SyncToFlag(cfg, b) {
        UntrackedSyncFlagPanics(cfg, fails, b);
      }
    }
  }

  /** With NEAR and local storage, the reader is the fallback from local
      storage to the NEAR service, with a second NEAR service as its third
      argument, with the REST aggregator's retention period; without local
      storage it is the NEAR service. */
  lemma NodeNearReader(cfg: Config, fails: set<Ctor>, hasL1: bool, hasAddr: bool)
    requires NodeOutcome(cfg, fails, hasL1, hasAddr).Ok? && NodeOutcome(cfg, fails, hasL1, hasAddr).value.Some?
    requires cfg.nearAggregator.enable
    ensures PersistentOutcome(cfg, fails, false).Ok?
    ensures var storage := PersistentOutcome(cfg, fails, false).value;
      NodeOutcome(cfg, fails, hasL1, hasAddr).value.value ==
        NodeChainReader(hasAddr,
          if AnyPersistentBackend(cfg)
          then Fallback(storage, Near(0), NodeNearService,
                        RetentionPeriodSeconds(cfg.restAggregator.syncToStorage.retentionPeriod),
                        cfg.restAggregator.syncToStorage.ignoreWriteErrors)
          else Near(0))
  {
    NilIffNoBackend(cfg, fails, false);
  }

  /** With REST and local storage, the reader is the fallback from local
      storage to the aggregator, registered right after the aggregator;
      without local storage it is the aggregator. */
  lemma NodeRestReader(cfg: Config, fails: set<Ctor>, hasL1: bool, hasAddr: bool)
    requires NodeOutcome(cfg, fails, hasL1, hasAddr).Ok? && NodeOutcome(cfg, fails, hasL1, hasAddr).value.Some?
    requires !cfg.nearAggregator.enable && cfg.restAggregator.enable
    ensures PersistentOutcome(cfg, fails, false).Ok?
    ensures var storage := PersistentOutcome(cfg, fails, false).value;
      var reader := if AnyPersistentBackend(cfg) then NodeFallback(cfg, storage, RestAggregator, RestAggregator) else RestAggregator;
      && NodeOutcome(cfg, fails, hasL1, hasAddr).value.value == NodeChainReader(hasAddr, reader)
      && NodeRegistrations(cfg, fails) ==
           PersistentRegistrations(cfg, fails, false) + [RestAggregator] + Entry(AnyPersistentBackend(cfg), reader)
  {
    NilIffNoBackend(cfg, fails, false);
  }
}
