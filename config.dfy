/** The part of the data-availability configuration that the factory in
    das/factory.go reads, the checks it makes before building anything, and
    the conversion of a retention period into seconds. */
module DasConfig {

  datatype Option<T> = None | Some(value: T)

  /** A Go `time.Duration`: a signed 64-bit count of nanoseconds. Durations
      of -1s and below are outside the model: converting their negative
      number of seconds to `uint64` is implementation-defined in Go. */
  type Duration = d: int | -999_999_999 <= d < 0x8000_0000_0000_0000

  const MaxUint64: nat := 0xFFFF_FFFF_FFFF_FFFF
  const NanosPerSecond: nat := 1_000_000_000

  /** The flags shared by the local DB, local file, S3 and Redis sections. */
  datatype StoreConfig = StoreConfig(enable: bool, syncFromStorageService: bool, syncToStorageService: bool)

  /** `sync-to-storage`: eager or lazy repair of the local copy. */
  datatype SyncToStorageConfig = SyncToStorageConfig(eager: bool, retentionPeriod: Duration, ignoreWriteErrors: bool)

  datatype RestAggregatorConfig = RestAggregatorConfig(enable: bool, syncToStorage: SyncToStorageConfig)

  datatype NearStorageConfig = NearStorageConfig(enable: bool, syncToStorage: SyncToStorageConfig)

  datatype NearAggregatorConfig = NearAggregatorConfig(enable: bool, storageConfig: NearStorageConfig)

  datatype KeyConfig = KeyConfig(keyDir: string, privKey: string)

  datatype Config = Config(
    enable: bool,
    localDBStorage: StoreConfig,
    localFileStorage: StoreConfig,
    s3Storage: StoreConfig,
    ipfsStorageEnable: bool,
    redisCache: StoreConfig,
    localCacheEnable: bool,
    restAggregator: RestAggregatorConfig,
    rpcAggregatorEnable: bool,
    nearAggregator: NearAggregatorConfig,
    key: KeyConfig,
    disableSignatureChecking: bool,
    regularSyncStorageEnable: bool)

  /** The configuration errors the factory reports. */
  datatype ConfigRule =
    | RpcAndRestAggregatorRequired      // batch poster without both aggregators
    | IpfsForbiddenForBatchPoster       // batch poster with IPFS storage
    | PersistentBackendRequired         // DA server without any persistent backend
    | RpcAggregatorOnlyForBatchPoster   // plain node with the RPC aggregator
    | RestOrIpfsRequired                // plain node with no way to fetch batch data
    | EagerSyncForbiddenForNode         // plain node with eager sync-to-storage
    | EagerSyncNeedsL1                  // eager sync without an L1 reader or inbox address
    | NearAggregatorDisabled            // CreateNearDAS called with NEAR disabled

  /** Go's `uint64(d)` on an int64: the two's complement bit pattern. */
  function AsUint64(d: int): (r: nat)
    requires -0x8000_0000_0000_0000 <= d < 0x8000_0000_0000_0000
    ensures r <= MaxUint64
    ensures d >= 0 ==> r == d
    ensures d < 0 ==> r == d + MaxUint64 + 1
  {
    d % (MaxUint64 + 1)
  }

  /** The retention period handed to a fallback store, in seconds: the
      `MaxUint64` pattern is kept as the "retain forever" sentinel, any other
      duration is truncated toward zero to whole seconds, so a negative one
      above -1s gives 0. */
  function RetentionPeriodSeconds(d: Duration): (r: nat)
    ensures r == MaxUint64 <==> d == -1
    ensures d >= 0 ==> r * NanosPerSecond <= d < (r + 1) * NanosPerSecond
    ensures d < 0 && d != -1 ==> r == 0
  {
    if AsUint64(d) == MaxUint64 then MaxUint64
    else if d < 0 then 0
    else d / NanosPerSecond
  }

  /** Over non-negative durations the conversion is monotone and stays far
      below the sentinel: the longest duration gives 9223372036 seconds,
      about 292 years. */
  lemma RetentionMonotone(d1: Duration, d2: Duration)
    requires 0 <= d1 <= d2
    ensures RetentionPeriodSeconds(d1) <= RetentionPeriodSeconds(d2) <= 9_223_372_036
  {
    var r1, r2 := RetentionPeriodSeconds(d1), RetentionPeriodSeconds(d2);
    assert r1 * NanosPerSecond < (r2 + 1) * NanosPerSecond;
    assert r2 * NanosPerSecond < 9_223_372_037 * NanosPerSecond;
  }

  predicate HasSigningKey(cfg: Config) {
    cfg.key.keyDir != "" || cfg.key.privKey != ""
  }

  predicate AnyPersistentBackend(cfg: Config) {
    cfg.localDBStorage.enable || cfg.localFileStorage.enable || cfg.s3Storage.enable || cfg.ipfsStorageEnable
  }

  /** The checks `CreateBatchPosterDAS` makes, in order: both aggregators
      are required, then IPFS storage is refused. */
  function BatchPosterConfigCheck(cfg: Config): (r: Option<ConfigRule>)
    ensures r == Some(RpcAndRestAggregatorRequired) <==> !(cfg.rpcAggregatorEnable && cfg.restAggregator.enable)
    ensures r == Some(IpfsForbiddenForBatchPoster) <==>
      cfg.rpcAggregatorEnable && cfg.restAggregator.enable && cfg.ipfsStorageEnable
    ensures r.None? <==> cfg.rpcAggregatorEnable && cfg.restAggregator.enable && !cfg.ipfsStorageEnable
  {
    if !cfg.rpcAggregatorEnable || !cfg.restAggregator.enable then Some(RpcAndRestAggregatorRequired)
    else if cfg.ipfsStorageEnable then Some(IpfsForbiddenForBatchPoster)
    else None
  }

  /** The check `CreateDAComponentsForDaserver` makes: some persistent
      backend must be enabled. */
  function DaserverConfigCheck(cfg: Config): (r: Option<ConfigRule>)
    ensures r.Some? ==> r.value == PersistentBackendRequired
    ensures r.None? <==> AnyPersistentBackend(cfg)
  {
    if !cfg.localDBStorage.enable && !cfg.localFileStorage.enable && !cfg.s3Storage.enable && !cfg.ipfsStorageEnable
    then Some(PersistentBackendRequired)
    else None
  }

  /** The checks `CreateDAReaderForNode` makes, in order: no RPC aggregator;
      without NEAR, a REST aggregator or IPFS storage; no eager REST sync. */
  function NodeConfigCheck(cfg: Config): (r: Option<ConfigRule>)
    ensures r == Some(RpcAggregatorOnlyForBatchPoster) <==> cfg.rpcAggregatorEnable
    ensures r == Some(RestOrIpfsRequired) <==>
      !cfg.rpcAggregatorEnable && !cfg.nearAggregator.enable && !cfg.restAggregator.enable && !cfg.ipfsStorageEnable
    ensures r == Some(EagerSyncForbiddenForNode) <==>
      !cfg.rpcAggregatorEnable && (cfg.nearAggregator.enable || cfg.restAggregator.enable || cfg.ipfsStorageEnable)
      && cfg.restAggregator.syncToStorage.eager
    ensures r.None? <==>
      !cfg.rpcAggregatorEnable && (cfg.nearAggregator.enable || cfg.restAggregator.enable || cfg.ipfsStorageEnable)
      && !cfg.restAggregator.syncToStorage.eager
  {
    if cfg.rpcAggregatorEnable then Some(RpcAggregatorOnlyForBatchPoster)
    else if !cfg.nearAggregator.enable && !cfg.restAggregator.enable && !cfg.ipfsStorageEnable then Some(RestOrIpfsRequired)
    else if cfg.restAggregator.syncToStorage.eager then Some(EagerSyncForbiddenForNode)
    else None
  }
}
