/** `WrapStorageWithCache`: the Redis cache and the local BigCache laid
    over the persistent storage service. */
module StorageCache {
  import opened DasConfig
  import opened Pipeline
  import opened Lifecycle

  /** The Redis layer over `s`: made iterable when Redis is a sync source. */
  function RedisLayer(cfg: Config, s: Service): Service {
    if cfg.redisCache.syncFromStorageService then Iterable(RedisCache(s)) else RedisCache(s)
  }

  /** `s` under the enabled caches: Redis directly over `s`, the local
      BigCache outermost, so that it is tried first. */
  function CachedService(cfg: Config, s: Service): Service {
    var redis := if cfg.redisCache.enable then RedisLayer(cfg, s) else s;
    if cfg.localCacheEnable then BigCache(redis) else redis
  }

  /** The constructors the wrapping calls, in order. */
  function CachePlan(cfg: Config): seq<Step> {
    Entry(cfg.redisCache.enable, Construct(NewRedisStorage)) + Entry(cfg.localCacheEnable, Construct(NewBigCacheStorage))
  }

  /** What `WrapStorageWithCache` returns: nil for nil, otherwise the first
      failing cache constructor's error or the wrapped service. */
  function CacheOutcome(cfg: Config, fails: set<Ctor>, s: Service): Outcome<Service> {
    if s == Nil then Ok(Nil) else Run(CachePlan(cfg), fails, CachedService(cfg, s))
  }

  /** The registrations the wrapping makes. Each cache is registered before
      its constructor's error is checked, so a failing constructor
      registers nil. */
  function CacheRegistrations(cfg: Config, fails: set<Ctor>, s: Service): seq<Service> {
    if s == Nil then []
    else if cfg.redisCache.enable && NewRedisStorage in fails then [Nil]
    else
      var redis := Entry(cfg.redisCache.enable, RedisCache(s));
      var below := if cfg.redisCache.enable then RedisLayer(cfg, s) else s;
      redis + Entry(cfg.localCacheEnable, if NewBigCacheStorage in fails then Nil else BigCache(below))
  }

  /** Redis is built: enabled, over a non-nil service, and its constructor
      succeeds. */
  predicate RedisBuilt(cfg: Config, fails: set<Ctor>, s: Service) {
    s != Nil && cfg.redisCache.enable && NewRedisStorage !in fails
  }

  /** The entry the wrapping appends to the sync sources. */
  function CacheSyncFrom(cfg: Config, fails: set<Ctor>, s: Service): seq<Service> {
    Entry(RedisBuilt(cfg, fails, s) && cfg.redisCache.syncFromStorageService, Iterable(RedisCache(s)))
  }

  /** The entry the wrapping appends to the sync destinations. */
  function CacheSyncTo(cfg: Config, fails: set<Ctor>, s: Service): seq<Service> {
    Entry(RedisBuilt(cfg, fails, s) && cfg.redisCache.syncToStorageService, RedisLayer(cfg, s))
  }

  /** The Redis block of `WrapStorageWithCache`: build the Redis cache
      over `s`, register it (nil if its constructor failed), then make it
      iterable and append it to the sync sources, and append it to the
      sync destinations, as its flags say. */
  method AddRedisCache(cfg: Config, fails: set<Ctor>, s: Service, sync: SyncTargets, lm: LifecycleManager)
    returns (r: Outcome<Service>)
    requires s != Nil && cfg.redisCache.enable
    modifies sync, lm
    ensures r == if NewRedisStorage in fails then Err(ConstructorError(NewRedisStorage)) else Ok(RedisLayer(cfg, s))
    ensures lm.registered == old(lm.registered) + [if NewRedisStorage in fails then Nil else RedisCache(s)]
    ensures sync.syncFrom == old(sync.syncFrom) + CacheSyncFrom(cfg, fails, s)
    ensures sync.syncTo == old(sync.syncTo) + CacheSyncTo(cfg, fails, s)
  {
    if NewRedisStorage in fails {
      lm.Register(Nil);
      return Err(ConstructorError(NewRedisStorage));
    }
    var storageService := RedisCache(s);
    lm.Register(storageService);
    if cfg.redisCache.syncFromStorageService {
      var iterableStorageService := Iterable(storageService);
      sync.syncFrom := sync.syncFrom + [iterableStorageService];
      storageService := iterableStorageService;
    }
    if cfg.redisCache.syncToStorageService {
      sync.syncTo := sync.syncTo + [storageService];
    }
    return Ok(storageService);
  }

  /** The local-cache block of `WrapStorageWithCache`: build BigCache over
      `s` and register it (nil if its constructor failed). */
  method AddLocalCache(cfg: Config, fails: set<Ctor>, s: Service, lm: LifecycleManager)
    returns (r: Outcome<Service>)
    modifies lm
    ensures r == if NewBigCacheStorage in fails then Err(ConstructorError(NewBigCacheStorage)) else Ok(BigCache(s))
    ensures lm.registered == old(lm.registered) + [if NewBigCacheStorage in fails then Nil else BigCache(s)]
  {
    if NewBigCacheStorage in fails {
      lm.Register(Nil);
      return Err(ConstructorError(NewBigCacheStorage));
    }
    lm.Register(BigCache(s));
    return Ok(BigCache(s));
  }

  method WrapStorageWithCache(cfg: Config, fails: set<Ctor>, storageService: Service, sync: SyncTargets, lm: LifecycleManager)
    returns (r: Outcome<Service>)
    modifies sync, lm
    ensures r == CacheOutcome(cfg, fails, storageService)
    ensures lm.registered == old(lm.registered) + CacheRegistrations(cfg, fails, storageService)
    ensures sync.syncFrom == old(sync.syncFrom) + CacheSyncFrom(cfg, fails, storageService)
    ensures sync.syncTo == old(sync.syncTo) + CacheSyncTo(cfg, fails, storageService)
  {
    if storageService == Nil {
      return Ok(Nil);
    }
    CacheErrors(cfg, fails, storageService);
    var s := storageService;
    if cfg.redisCache.enable {
      r := AddRedisCache(cfg, fails, s, sync, lm);
      if !r.Ok? {
        return r;
      }
      s := r.value;
    }
    if cfg.localCacheEnable {
      r := AddLocalCache(cfg, fails, s, lm);
      if !r.Ok? {
        return r;
      }
      s := r.value;
    }
    return Ok(s);
  }

  // ---------------------------------------------------------------------
  // Properties.

  /** Nil passes through unwrapped, with no registration and no sync-list
      entry. */
  lemma NilStaysNil(cfg: Config, fails: set<Ctor>)
    ensures CacheOutcome(cfg, fails, Nil) == Ok(Nil)
    ensures CacheRegistrations(cfg, fails, Nil) == []
    ensures CacheSyncFrom(cfg, fails, Nil) == [] && CacheSyncTo(cfg, fails, Nil) == []
  {
  }

  /** The layers of a wrapped service: BigCache outermost when enabled;
      below it the Redis cache (made iterable when it is a sync source)
      directly over the input when Redis is enabled; the input itself when
      no cache is enabled. */
  lemma CacheLayers(cfg: Config, fails: set<Ctor>, s: Service)
    requires s != Nil && CacheOutcome(cfg, fails, s).Ok?
    ensures var v := CacheOutcome(cfg, fails, s).value;
      && (cfg.localCacheEnable ==> v.BigCache?)
      && var below := if cfg.localCacheEnable then v.inner else v;
         && (cfg.redisCache.enable ==>
               (if cfg.redisCache.syncFromStorageService then below.Iterable? && below.inner == RedisCache(s)
                else below == RedisCache(s)))
         && (!cfg.redisCache.enable ==> below == s)
  {
    CacheErrors(cfg, fails, s);
  }

  /** The wrapping fails exactly when an enabled cache's constructor fails,
      and then with the first such constructor's error. */
  lemma CacheErrors(cfg: Config, fails: set<Ctor>, s: Service)
    requires s != Nil
    ensures CacheOutcome(cfg, fails, s) ==
      if cfg.redisCache.enable && NewRedisStorage in fails then Err(ConstructorError(NewRedisStorage))
      else if cfg.localCacheEnable && NewBigCacheStorage in fails then Err(ConstructorError(NewBigCacheStorage))
      else Ok(CachedService(cfg, s))
  {
    RunAppend(Entry(cfg.redisCache.enable, Construct(NewRedisStorage)), Entry(cfg.localCacheEnable, Construct(NewBigCacheStorage)), fails, CachedService(cfg, s));
    RunCons(Construct(NewRedisStorage), [], fails, CachedService(cfg, s));
    RunCons(Construct(NewBigCacheStorage), [], fails, CachedService(cfg, s));
  }

  /** With both caches built, Redis is registered before BigCache, Redis
      before it is made iterable, and BigCache as the service returned. */
  lemma RedisRegisteredBeforeBigCache(cfg: Config, fails: set<Ctor>, s: Service)
    requires s != Nil && cfg.redisCache.enable && cfg.localCacheEnable
    requires CacheOutcome(cfg, fails, s).Ok?
    ensures CacheRegistrations(cfg, fails, s) == [RedisCache(s), CacheOutcome(cfg, fails, s).value]
  {
    CacheErrors(cfg, fails, s);
  }

  /** The wrapping never panics: it only calls constructors. */
  lemma CacheNeverPanics(cfg: Config, fails: set<Ctor>, s: Service)
    ensures CacheOutcome(cfg, fails, s) != Panic
  {
    assert Dereference(false) !in CachePlan(cfg);
  }
}
