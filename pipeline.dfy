/** The pipeline terms the factory builds, the constructor calls it makes,
    and the order in which a build can stop. The storage engines, caches,
    aggregators, signers and readers themselves are not part of this model:
    each constructor is an opaque datatype constructor, and whether a call
    to it fails is a parameter. */
module Pipeline {
  import opened DasConfig

  /** The constructor call sites of das/factory.go that return an error.
      Each is reached at most once per build, so a set of failing call sites
      describes every combination of failures. `NewNodeNearService` is
      the second `NewNearService` call of node mode. */
  datatype Ctor =
    | NewDBStorage | NewLocalFileStorage | NewS3Storage | NewIpfsStorage
    | NewRedundantStorage | NewRedisStorage | NewBigCacheStorage
    | NewNearService | NewNodeNearService | NewNearStorage
    | NewSyncingFallback | NewRestfulClientAggregator | NewRpcAggregator
    | NewStoreSigning | NewSequencerInbox | ParseBlsPrivKey | NewSignAfterStoreWriter
    | NewChainFetchReader | NewChainFetchReaderWithSeqInbox

  /** A storage service, reader or writer, as the term of constructors that
      built it. `Nil` is Go's nil interface value. */
  datatype Service =
    | Nil
    | DBStore
    | FileStore
    | S3Store
    | IpfsStore
    | Iterable(inner: Service)
    | Redundant(members: seq<Service>)
    | RedisCache(inner: Service)
    | BigCache(inner: Service)
    | Near(instance: nat)
    | NearStorage(near: Service)
    | RestAggregator
    | RpcAggregator
    // The fallback constructors' third service argument is kept as an
    // opaque `third`: its role is outside this model.
    | Fallback(primary: Service, backup: Service, third: Service, retentionSeconds: nat, ignoreWriteErrors: bool)
    | SyncingFallback(primary: Service, backup: Service, third: Service, sync: SyncToStorageConfig)
    | StoreSigning(inner: Service)
    | SignAfterStore(inner: Service, checksSequencerInbox: bool)
    | ChainFetch(inner: Service)
    | ChainFetchWithSeqInbox(inner: Service)

  /** One step of a build, in the order the factory takes them: a
      constructor call, a check made in the middle of the build, or a write
      through a pointer that may be nil. */
  datatype Step = Construct(ctor: Ctor) | Require(holds: bool, rule: ConfigRule) | Dereference(nonNil: bool)

  datatype Error = ConfigError(rule: ConfigRule) | ConstructorError(ctor: Ctor)

  /** What a factory function returns: a value, an error, or a run-time
      panic (a nil pointer dereference). */
  datatype Outcome<T> = Ok(value: T) | Err(error: Error) | Panic

  /** `[x]` when `present`, nothing otherwise. */
  function Entry<T>(present: bool, x: T): seq<T> {
    if present then [x] else []
  }

  predicate Fails(s: Step, fails: set<Ctor>) {
    match s
    case Construct(c) => c in fails
    case Require(holds, _) => !holds
    case Dereference(nonNil) => !nonNil
  }

  /** What the build returns when it stops at step `s`. */
  function Abort<T>(s: Step): Outcome<T> {
    match s
    case Construct(c) => Err(ConstructorError(c))
    case Require(_, rule) => Err(ConfigError(rule))
    case Dereference(_) => Panic
  }

  /** No step of `plan` fails. */
  predicate Passes(plan: seq<Step>, fails: set<Ctor>)
    decreases |plan|
  {
    plan == [] || (!Fails(plan[0], fails) && Passes(plan[1..], fails))
  }

  /** Taking the steps of `plan` in order: the first failing step decides
      the outcome; when none fails, the build yields `value`. */
  function Run<T>(plan: seq<Step>, fails: set<Ctor>, value: T): (r: Outcome<T>)
    ensures r.Ok? <==> Passes(plan, fails)
    ensures r.Ok? ==> r.value == value
    ensures r.Panic? ==> Dereference(false) in plan
    decreases |plan|
  {
    if plan == [] then Ok(value)
    else if Fails(plan[0], fails) then Abort(plan[0])
    else Run(plan[1..], fails, value)
  }

  /** A stopped build's outcome carried over to another result type. */
  function Lift<T, U>(o: Outcome<T>): (r: Outcome<U>)
    requires !o.Ok?
    ensures r.Err? <==> o.Err?
    ensures r.Err? ==> r.error == o.error
    ensures !r.Ok?
  {
    if o.Err? then Err(o.error) else Panic
  }

  /** A build that stops does not depend on the value it would have built,
      nor on that value's type. */
  lemma {:induction false} RunFailureLifts<T, U>(plan: seq<Step>, fails: set<Ctor>, v: T, w: U)
    requires !Passes(plan, fails)
    ensures Run(plan, fails, w) == Lift(Run(plan, fails, v))
    decreases |plan|
  {
    if !Fails(plan[0], fails) {
      RunFailureLifts(plan[1..], fails, v, w);
    }
  }

  /** Unfolding `Run` one step at the front of a plan. */
  lemma RunCons<T>(s: Step, rest: seq<Step>, fails: set<Ctor>, value: T)
    ensures Passes([s] + rest, fails) <==> !Fails(s, fails) && Passes(rest, fails)
    ensures Run([s] + rest, fails, value) == if Fails(s, fails) then Abort(s) else Run(rest, fails, value)
  {
    assert ([s] + rest)[0] == s;
    assert ([s] + rest)[1..] == rest;
  }

  /** A plan made of two parts stops in the first part if that part fails,
      and otherwise behaves as the second part. */
  lemma {:induction false} RunAppend<T>(p: seq<Step>, q: seq<Step>, fails: set<Ctor>, value: T)
    ensures Passes(p + q, fails) <==> Passes(p, fails) && Passes(q, fails)
    ensures Run(p + q, fails, value) == if Passes(p, fails) then Run(q, fails, value) else Run(p, fails, value)
    decreases |p|
  {
    if p == [] {
      assert p + q == q;
    } else {
      assert p + q == [p[0]] + (p[1..] + q);
      assert p == [p[0]] + p[1..];
      RunCons(p[0], p[1..] + q, fails, value);
      RunCons(p[0], p[1..], fails, value);
      RunAppend(p[1..], q, fails, value);
    }
  }
}
