/** `CreatePersistentStorageService`: the persistent backends (local DB,
    local files, S3, IPFS), the redundancy wrapper over them, their
    lifecycle registrations and their entries in the regular-sync lists. */
module PersistentStorage {
  import opened DasConfig
  import opened Pipeline
  import opened Lifecycle

  datatype Backend = LocalDB | LocalFile | S3 | Ipfs

  /** A backend's position in the order in which the factory looks at the
      backends. */
  function Rank(b: Backend): nat {
    match b
    case LocalDB => 0
    case LocalFile => 1
    case S3 => 2
    case Ipfs => 3
  }

  predicate BackendEnabled(cfg: Config, b: Backend) {
    match b
    case LocalDB => cfg.localDBStorage.enable
    case LocalFile => cfg.localFileStorage.enable
    case S3 => cfg.s3Storage.enable
    case Ipfs => cfg.ipfsStorageEnable
  }

  /** The `sync-from-storage-service` flag; the factory reads none for IPFS. */
  predicate SyncFromFlag(cfg: Config, b: Backend) {
    match b
    case LocalDB => cfg.localDBStorage.syncFromStorageService
    case LocalFile => cfg.localFileStorage.syncFromStorageService
    case S3 => cfg.s3Storage.syncFromStorageService
    case Ipfs => false
  }

  /** The `sync-to-storage-service` flag; the factory reads none for IPFS. */
  predicate SyncToFlag(cfg: Config, b: Backend) {
    match b
    case LocalDB => cfg.localDBStorage.syncToStorageService
    case LocalFile => cfg.localFileStorage.syncToStorageService
    case S3 => cfg.s3Storage.syncToStorageService
    case Ipfs => false
  }

  function Store(b: Backend): Service {
    match b
    case LocalDB => DBStore
    case LocalFile => FileStore
    case S3 => S3Store
    case Ipfs => IpfsStore
  }

  function BackendCtor(b: Backend): Ctor {
    match b
    case LocalDB => NewDBStorage
    case LocalFile => NewLocalFileStorage
    case S3 => NewS3Storage
    case Ipfs => NewIpfsStorage
  }

  /** The backend a persistent store, plain or made iterable, stands on. */
  function Origin(s: Service): Option<Backend> {
    match s
    case DBStore => Some(LocalDB)
    case FileStore => Some(LocalFile)
    case S3Store => Some(S3)
    case IpfsStore => Some(Ipfs)
    case Iterable(inner) => if inner.Iterable? then None else Origin(inner)
    case _ => None
  }

  /** The service a backend contributes: made iterable when it is a
      regular-sync source. */
  function Member(cfg: Config, b: Backend): Service {
    if SyncFromFlag(cfg, b) then Iterable(Store(b)) else Store(b)
  }

  /** The service registered for a backend. S3 is registered before it is
      made iterable, the local DB and local files after. */
  function Registered(cfg: Config, b: Backend): Service {
    if b == S3 then Store(b) else Member(cfg, b)
  }
  /** The backend, if it is enabled. */
  function Pick(cfg: Config, b: Backend): seq<Backend> {
    Entry(BackendEnabled(cfg, b), b)
  }

  /** The enabled backends, in the order the factory looks at them. */
  function Enabled(cfg: Config): seq<Backend> {
    Pick(cfg, LocalDB) + Pick(cfg, LocalFile) + Pick(cfg, S3) + Pick(cfg, Ipfs)
  }

  /** What a build has done so far: how it stopped, if it did; the services
      collected for the redundancy wrapper; the registrations made; the
      entries appended to the sync sources and destinations. */
  datatype Build = Build(
    stop: Option<Outcome<Service>>,
    services: seq<Service>,
    registered: seq<Service>,
    syncFrom: seq<Service>,
    syncTo: seq<Service>)

  const Start: Build := Build(None, [], [], [], [])

  /** The block of backend `b` applied to a build: nothing when the build
      has stopped or `b` is disabled; otherwise the constructor's error, the
      panic of a write through a nil sync-list pointer (S3 has then already
      been registered), or the backend added to the services, the
      registrations and the sync lists its flags name. `tracked` says that
      the sync-list pointers are not nil. */
  function BuildBackend(cfg: Config, fails: set<Ctor>, tracked: bool, b: Backend, st: Build): Build {
    if st.stop.Some? || !BackendEnabled(cfg, b) then st
    else if BackendCtor(b) in fails then st.(stop := Some(Err(ConstructorError(BackendCtor(b)))))
    else if (SyncFromFlag(cfg, b) || SyncToFlag(cfg, b)) && !tracked then
      st.(stop := Some(Panic), registered := st.registered + Entry(b == S3, Store(b)))
    else
      st.(services := st.services + [Member(cfg, b)],
          registered := st.registered + [Registered(cfg, b)],
          syncFrom := st.syncFrom + Entry(SyncFromFlag(cfg, b), Iterable(Store(b))),
          syncTo := st.syncTo + Entry(SyncToFlag(cfg, b), Member(cfg, b)))
  }

  /** The four backend blocks, in the factory's order. */
  function BuildAll(cfg: Config, fails: set<Ctor>, tracked: bool): Build {
    var db := BuildBackend(cfg, fails, tracked, LocalDB, Start);
    var file := BuildBackend(cfg, fails, tracked, LocalFile, db);
    var s3 := BuildBackend(cfg, fails, tracked, S3, file);
    BuildBackend(cfg, fails, tracked, Ipfs, s3)
  }

  /** The end of the build: its stop, or the redundancy wrapper over
      several services, the one service, or nil. */
  function Finish(fails: set<Ctor>, st: Build): Outcome<Service> {
    if st.stop.Some? then st.stop.value
    else if |st.services| > 1 then
      if NewRedundantStorage in fails then Err(ConstructorError(NewRedundantStorage)) else Ok(Redundant(st.services))
    else if |st.services| == 1 then Ok(st.services[0])
    else Ok(Nil)
  }

  /** What `CreatePersistentStorageService` returns. */
  function PersistentOutcome(cfg: Config, fails: set<Ctor>, tracked: bool): Outcome<Service> {
    Finish(fails, BuildAll(cfg, fails, tracked))
  }

  /** The registrations of a build: the backends', then the redundancy
      wrapper's. */
  function PersistentRegistrations(cfg: Config, fails: set<Ctor>, tracked: bool): seq<Service> {
    var st := BuildAll(cfg, fails, tracked);
    st.registered + Entry(|st.services| > 1, Redundant(st.services))
  }

  // ---------------------------------------------------------------------
  // The imperative procedure.

  /** One backend's block of `CreatePersistentStorageService`, when the
      backend is enabled: construct it; when it is a sync source, make it
      iterable and append it to the sources; when it is a sync destination,
      append it to the destinations; register it (S3 before it is made
      iterable, the others after). The blocks of the source differ only in
      that registration point. A disabled backend yields `Ok(Nil)` and
      changes nothing. */
  method CreateBackend(cfg: Config, fails: set<Ctor>, b: Backend, sync: SyncTargets?, lm: LifecycleManager,
                       services: seq<Service>, ghost st: Build, ghost from0: seq<Service>, ghost to0: seq<Service>)
    returns (r: Outcome<Service>, services': seq<Service>, ghost st': Build)
    requires st.stop.None?
    requires services == st.services && lm.registered == st.registered
    requires sync != null ==> sync.syncFrom == from0 + st.syncFrom && sync.syncTo == to0 + st.syncTo
    modifies sync, lm
    ensures st' == BuildBackend(cfg, fails, sync != null, b, st)
    ensures r.Ok? <==> st'.stop.None?
    ensures !r.Ok? ==> r == st'.stop.value
    ensures services' == st'.services && lm.registered == st'.registered
    ensures sync != null ==> sync.syncFrom == from0 + st'.syncFrom && sync.syncTo == to0 + st'.syncTo
  {
    st' := BuildBackend(cfg, fails, sync != null, b, st);
    services' := services;
    if !BackendEnabled(cfg, b) {
      return Ok(Nil), services', st';
    }
    if BackendCtor(b) in fails {
      return Err(ConstructorError(BackendCtor(b))), services', st';
    }
    var s := Store(b);
    if b == S3 {
      lm.Register(s);
    }
    if SyncFromFlag(cfg, b) {
      if sync == null {
        return Panic, services', st';
      }
      var iterableStorageService := Iterable(s);
      sync.syncFrom := sync.syncFrom + [iterableStorageService];
      s := iterableStorageService;
    }
    if SyncToFlag(cfg, b) {
      if sync == null {
        return Panic, services', st';
      }
      sync.syncTo := sync.syncTo + [s];
    }
    if b != S3 {
      lm.Register(s);
    }
    services' := services + [s];
    return Ok(s), services', st';
  }

  method CreatePersistentStorageService(cfg: Config, fails: set<Ctor>, sync: SyncTargets?)
    returns (r: Outcome<Service>, lm: LifecycleManager?)
    modifies sync
    ensures r == PersistentOutcome(cfg, fails, sync != null)
    ensures lm != null <==> r.Ok?
    ensures lm != null ==> fresh(lm) && lm.registered == PersistentRegistrations(cfg, fails, sync != null)
    ensures sync != null ==>
      sync.syncFrom == old(sync.syncFrom) + BuildAll(cfg, fails, sync != null).syncFrom &&
      sync.syncTo == old(sync.syncTo) + BuildAll(cfg, fails, sync != null).syncTo
  {
    ghost var from0 := if sync != null then sync.syncFrom else [];
    ghost var to0 := if sync != null then sync.syncTo else [];
    var storageServices: seq<Service> := [];
    var lifecycleManager := new LifecycleManager();
    ghost var st := Start;
    var s: Outcome<Service>;

    s, storageServices, st := CreateBackend(cfg, fails, LocalDB, sync, lifecycleManager, storageServices, st, from0, to0);
    if !s.Ok? {
      return s, null;
    }
    s, storageServices, st := CreateBackend(cfg, fails, LocalFile, sync, lifecycleManager, storageServices, st, from0, to0);
    if !s.Ok? {
      return s, null;
    }
    s, storageServices, st := CreateBackend(cfg, fails, S3, sync, lifecycleManager, storageServices, st, from0, to0);
    if !s.Ok? {
      return s, null;
    }
    s, storageServices, st := CreateBackend(cfg, fails, Ipfs, sync, lifecycleManager, storageServices, st, from0, to0);
    if !s.Ok? {
      return s, null;
    }

    if |storageServices| > 1 {
      if NewRedundantStorage in fails {
        return Err(ConstructorError(NewRedundantStorage)), null;
      }
      var redundant := Redundant(storageServices);
      lifecycleManager.Register(redundant);
      return Ok(redundant), lifecycleManager;
    }
    if |storageServices| == 1 {
      return Ok(storageServices[0]), lifecycleManager;
    }
    return Ok(Nil), lifecycleManager;
  }

  // ---------------------------------------------------------------------
  // A reference description of the build, backend by backend.

  /** The concatenation of `f(b)` over the backends `bs`, in order. */
  function Collect(bs: seq<Backend>, f: Backend -> seq<Service>): seq<Service>
    decreases |bs|
  {
    if bs == [] then [] else f(bs[0]) + Collect(bs[1..], f)
  }

  function MemberOf(cfg: Config): Backend -> seq<Service> {
    b => [Member(cfg, b)]
  }

  function RegisteredOf(cfg: Config): Backend -> seq<Service> {
    b => [Registered(cfg, b)]
  }

  function SyncFromOf(cfg: Config): Backend -> seq<Service> {
    b => Entry(SyncFromFlag(cfg, b), Iterable(Store(b)))
  }

  function SyncToOf(cfg: Config): Backend -> seq<Service> {
    b => Entry(SyncToFlag(cfg, b), Member(cfg, b))
  }

  /** How the block of an enabled backend stops the build, if it does: its
      constructor fails, or it writes through nil sync-list pointers. */
  function BlockStop(cfg: Config, fails: set<Ctor>, tracked: bool, b: Backend): Option<Outcome<Service>> {
    if BackendCtor(b) in fails then Some(Err(ConstructorError(BackendCtor(b))))
    else if (SyncFromFlag(cfg, b) || SyncToFlag(cfg, b)) && !tracked then Some(Panic)
    else None
  }

  /** The stop of the first backend among `bs` whose block stops. */
  function FirstStop(cfg: Config, fails: set<Ctor>, tracked: bool, bs: seq<Backend>): (r: Option<Outcome<Service>>)
    ensures r.Some? ==> !r.value.Ok?
    ensures r.Some? && tracked ==> r.value.Err?
    decreases |bs|
  {
    if bs == [] then None
    else if BlockStop(cfg, fails, tracked, bs[0]).Some? then BlockStop(cfg, fails, tracked, bs[0])
    else FirstStop(cfg, fails, tracked, bs[1..])
  }

  lemma {:induction false} CollectAppend(xs: seq<Backend>, ys: seq<Backend>, f: Backend -> seq<Service>)
    ensures Collect(xs + ys, f) == Collect(xs, f) + Collect(ys, f)
    decreases |xs|
  {
    if xs == [] {
      assert xs + ys == ys;
    } else {
      assert (xs + ys)[1..] == xs[1..] + ys;
      CollectAppend(xs[1..], ys, f);
    }
  }

  lemma {:induction false} FirstStopAppend(cfg: Config, fails: set<Ctor>, tracked: bool, xs: seq<Backend>, ys: seq<Backend>)
    ensures FirstStop(cfg, fails, tracked, xs + ys) ==
      if FirstStop(cfg, fails, tracked, xs).Some? then FirstStop(cfg, fails, tracked, xs) else FirstStop(cfg, fails, tracked, ys)
    decreases |xs|
  {
    if xs == [] {
      assert xs + ys == ys;
    } else {
      assert (xs + ys)[0] == xs[0];
      assert (xs + ys)[1..] == xs[1..] + ys;
      FirstStopAppend(cfg, fails, tracked, xs[1..], ys);
    }
  }

  /** `st` is what the blocks of the backends `done` produce. */
  predicate Summarizes(cfg: Config, fails: set<Ctor>, tracked: bool, done: seq<Backend>, st: Build) {
    && st.stop == FirstStop(cfg, fails, tracked, done)
    && (st.stop.None? ==>
          && st.services == Collect(done, MemberOf(cfg))
          && st.registered == Collect(done, RegisteredOf(cfg))
          && st.syncFrom == Collect(done, SyncFromOf(cfg))
          && st.syncTo == Collect(done, SyncToOf(cfg)))
  }

  lemma BlockSummary(cfg: Config, fails: set<Ctor>, tracked: bool, done: seq<Backend>, st: Build, b: Backend)
    requires Summarizes(cfg, fails, tracked, done, st)
    ensures Summarizes(cfg, fails, tracked, done + Pick(cfg, b), BuildBackend(cfg, fails, tracked, b, st))
  {
    var picked := Pick(cfg, b);
    FirstStopAppend(cfg, fails, tracked, done, picked);
    if picked == [] {
      assert done + picked == done;
    } else {
      assert picked == [b];
      assert picked[1..] == [];
      CollectAppend(done, picked, MemberOf(cfg));
      CollectAppend(done, picked, RegisteredOf(cfg));
      CollectAppend(done, picked, SyncFromOf(cfg));
      CollectAppend(done, picked, SyncToOf(cfg));
    }
  }

  /** The build stops at the first enabled backend whose block stops;
      otherwise it has collected every enabled backend's service,
      registration and sync-list entries, in order. */
  lemma BuildAllSummary(cfg: Config, fails: set<Ctor>, tracked: bool)
    ensures Summarizes(cfg, fails, tracked, Enabled(cfg), BuildAll(cfg, fails, tracked))
  {
    var db := BuildBackend(cfg, fails, tracked, LocalDB, Start);
    var file := BuildBackend(cfg, fails, tracked, LocalFile, db);
    var s3 := BuildBackend(cfg, fails, tracked, S3, file);
    assert Summarizes(cfg, fails, tracked, [], Start);
    BlockSummary(cfg, fails, tracked, [], Start, LocalDB);
    assert [] + Pick(cfg, LocalDB) == Pick(cfg, LocalDB);
    BlockSummary(cfg, fails, tracked, Pick(cfg, LocalDB), db, LocalFile);
    BlockSummary(cfg, fails, tracked, Pick(cfg, LocalDB) + Pick(cfg, LocalFile), file, S3);
    BlockSummary(cfg, fails, tracked, Pick(cfg, LocalDB) + Pick(cfg, LocalFile) + Pick(cfg, S3), s3, Ipfs);
  }

  lemma {:induction false} MembersAligned(cfg: Config, bs: seq<Backend>)
    ensures |Collect(bs, MemberOf(cfg))| == |bs|
    ensures forall i :: 0 <= i < |bs| ==> Collect(bs, MemberOf(cfg))[i] == Member(cfg, bs[i])
    decreases |bs|
  {
    if bs != [] {
      MembersAligned(cfg, bs[1..]);
    }
  }

  lemma {:induction false} RegistrationsAligned(cfg: Config, bs: seq<Backend>)
    ensures |Collect(bs, RegisteredOf(cfg))| == |bs|
    ensures forall i :: 0 <= i < |bs| ==> Collect(bs, RegisteredOf(cfg))[i] == Registered(cfg, bs[i])
    decreases |bs|
  {
    if bs != [] {
      RegistrationsAligned(cfg, bs[1..]);
    }
  }

  lemma {:induction false} NoStopMeansBuilt(cfg: Config, fails: set<Ctor>, tracked: bool, bs: seq<Backend>)
    requires FirstStop(cfg, fails, tracked, bs).None?
    ensures forall b :: b in bs ==> BackendCtor(b) !in fails
    decreases |bs|
  {
    if bs != [] {
      NoStopMeansBuilt(cfg, fails, tracked, bs[1..]);
      assert forall b :: b in bs ==> b == bs[0] || b in bs[1..];
    }
  }

  lemma {:induction false} PanicStopHasSyncFlag(cfg: Config, fails: set<Ctor>, bs: seq<Backend>)
    requires FirstStop(cfg, fails, false, bs) == Some(Panic)
    ensures exists b :: b in bs && (SyncFromFlag(cfg, b) || SyncToFlag(cfg, b))
    decreases |bs|
  {
    if BlockStop(cfg, fails, false, bs[0]).None? {
      PanicStopHasSyncFlag(cfg, fails, bs[1..]);
      var b :| b in bs[1..] && (SyncFromFlag(cfg, b) || SyncToFlag(cfg, b));
      assert b in bs;
    } else {
      assert bs[0] in bs;
    }
  }

  lemma {:induction false} CollectNonEmpty(bs: seq<Backend>, f: Backend -> seq<Service>)
    ensures |Collect(bs, f)| > 0 <==> exists b :: b in bs && |f(b)| > 0
    decreases |bs|
  {
    if bs != [] {
      CollectNonEmpty(bs[1..], f);
      assert forall b :: b in bs ==> b == bs[0] || b in bs[1..];
      assert bs[0] in bs;
    }
  }

  // ---------------------------------------------------------------------
  // Properties.

  /** The enabled backends are exactly those whose `enable` flag is set, in
      the order local DB, local files, S3, IPFS, each once. */
  lemma EnabledInFactoryOrder(cfg: Config)
    ensures forall b :: b in Enabled(cfg) <==> BackendEnabled(cfg, b)
    ensures forall i, j :: 0 <= i < j < |Enabled(cfg)| ==> Rank(Enabled(cfg)[i]) < Rank(Enabled(cfg)[j])
  {
    var s1 := Pick(cfg, LocalDB);
    var s2 := s1 + Pick(cfg, LocalFile);
    var s3 := s2 + Pick(cfg, S3);
    assert Enabled(cfg) == s3 + Pick(cfg, Ipfs);
    PickExtendsRanked(cfg, [], LocalDB);
    PickExtendsRanked(cfg, s1, LocalFile);
    PickExtendsRanked(cfg, s2, S3);
    PickExtendsRanked(cfg, s3, Ipfs);
  }

  /** Appending a backend ranked after every backend already picked keeps
      the picked sequence in rank order. */
  lemma PickExtendsRanked(cfg: Config, s: seq<Backend>, k: Backend)
    requires forall x :: x in s ==> Rank(x) < Rank(k)
    requires forall i, j :: 0 <= i < j < |s| ==> Rank(s[i]) < Rank(s[j])
    ensures forall x :: x in s + Pick(cfg, k) <==> x in s || (x == k && BackendEnabled(cfg, k))
    ensures forall i, j :: 0 <= i < j < |s + Pick(cfg, k)| ==> Rank((s + Pick(cfg, k))[i]) < Rank((s + Pick(cfg, k))[j])
  {
    var t := s + Pick(cfg, k);
    forall i, j | 0 <= i < j < |t|
      ensures Rank(t[i]) < Rank(t[j])
    {
      if j >= |s| {
        assert t[i] in s;
      }
    }
  }

  /** The outcome of the build: the stop of the first enabled backend whose
      block stops; otherwise the redundancy wrapper over the enabled
      backends' services, in order (or its constructor's error), the one
      enabled backend's service unwrapped, or nil. */
  lemma PersistentOutcomeByBackend(cfg: Config, fails: set<Ctor>, tracked: bool)
    ensures var e := Enabled(cfg);
      PersistentOutcome(cfg, fails, tracked) ==
        match FirstStop(cfg, fails, tracked, e)
        case Some(stop) => stop
        case None =>
          if |e| > 1 then
            if NewRedundantStorage in fails then Err(ConstructorError(NewRedundantStorage))
            else Ok(Redundant(Collect(e, MemberOf(cfg))))
          else if |e| == 1 then Ok(Member(cfg, e[0]))
          else Ok(Nil)
  {
    BuildAllSummary(cfg, fails, tracked);
    MembersAligned(cfg, Enabled(cfg));
  }

  /** The redundancy wrapper lists each enabled backend's service, position
      by position. */
  lemma RedundantMembersInOrder(cfg: Config, fails: set<Ctor>, tracked: bool)
    requires PersistentOutcome(cfg, fails, tracked).Ok?
    ensures var e := Enabled(cfg); var v := PersistentOutcome(cfg, fails, tracked).value;
      && (|e| > 1 ==> v.Redundant? && |v.members| == |e| &&
                      forall i :: 0 <= i < |e| ==> v.members[i] == Member(cfg, e[i]))
      && (|e| == 1 ==> v == Member(cfg, e[0]))
      && (|e| == 0 ==> v == Nil)
  {
    var e := Enabled(cfg);
    PersistentOutcomeByBackend(cfg, fails, tracked);
    assert FirstStop(cfg, fails, tracked, e).None?;
    MembersAligned(cfg, e);
  }

  /** The service registered for a backend stands on that backend, and it
      is the backend's member of the build except for a sync-source S3,
      which is registered before it is made iterable. */
  lemma RegisteredOrigin(cfg: Config, b: Backend)
    ensures Origin(Registered(cfg, b)) == Some(b)
    ensures Registered(cfg, b) == Member(cfg, b) <==> !(b == S3 && SyncFromFlag(cfg, S3))
    ensures b == S3 ==> Registered(cfg, b) == Store(S3)
  {
  }

  /** A successful build registers each enabled backend once, in order, and
      then the redundancy wrapper, which it returns. */
  lemma RegistrationOrder(cfg: Config, fails: set<Ctor>, tracked: bool)
    requires PersistentOutcome(cfg, fails, tracked).Ok?
    ensures var e := Enabled(cfg); var reg := PersistentRegistrations(cfg, fails, tracked);
      && |reg| == |e| + (if |e| > 1 then 1 else 0)
      && (forall i :: 0 <= i < |e| ==> reg[i] == Registered(cfg, e[i]) && Origin(reg[i]) == Some(e[i]))
      && (|e| > 1 ==> reg[|e|] == PersistentOutcome(cfg, fails, tracked).value)
  {
    var e := Enabled(cfg);
    BuildAllSummary(cfg, fails, tracked);
    PersistentOutcomeByBackend(cfg, fails, tracked);
    RegistrationsAligned(cfg, e);
    MembersAligned(cfg, e);
    forall i | 0 <= i < |e|
      ensures Origin(PersistentRegistrations(cfg, fails, tracked)[i]) == Some(e[i])
    {
      RegisteredOrigin(cfg, e[i]);
    }
  }

  lemma {:induction false} NoStopWhenBuilt(cfg: Config, fails: set<Ctor>, bs: seq<Backend>)
    requires forall b :: b in bs ==> BackendCtor(b) !in fails
    ensures FirstStop(cfg, fails, true, bs).None?
    decreases |bs|
  {
    if bs != [] {
      NoStopWhenBuilt(cfg, fails, bs[1..]);
    }
  }

  lemma {:induction false} PanicWhenUntracked(cfg: Config, fails: set<Ctor>, bs: seq<Backend>, k: nat)
    requires k < |bs| && (SyncFromFlag(cfg, bs[k]) || SyncToFlag(cfg, bs[k]))
    requires forall i :: 0 <= i <= k ==> BackendCtor(bs[i]) !in fails
    ensures FirstStop(cfg, fails, false, bs) == Some(Panic)
    decreases |bs|
  {
    if k > 0 && BlockStop(cfg, fails, false, bs[0]).None? {
      assert forall i :: 0 <= i <= k - 1 ==> bs[1..][i] == bs[i + 1];
      PanicWhenUntracked(cfg, fails, bs[1..], k - 1);
    }
  }

  lemma {:induction false} SyncFromEntries(cfg: Config, bs: seq<Backend>)
    ensures forall b :: Iterable(Store(b)) in Collect(bs, SyncFromOf(cfg)) <==> b in bs && SyncFromFlag(cfg, b)
    ensures forall x :: x in Collect(bs, SyncFromOf(cfg)) ==> x.Iterable? && Origin(x).Some? && Origin(x) != Some(Ipfs)
    decreases |bs|
  {
    if bs != [] {
      SyncFromEntries(cfg, bs[1..]);
      assert forall b :: b in bs <==> b == bs[0] || b in bs[1..];
    }
  }

  lemma {:induction false} SyncToEntries(cfg: Config, bs: seq<Backend>)
    ensures forall b :: Member(cfg, b) in Collect(bs, SyncToOf(cfg)) <==> b in bs && SyncToFlag(cfg, b)
    ensures forall x :: x in Collect(bs, SyncToOf(cfg)) ==> Origin(x).Some? && Origin(x) != Some(Ipfs)
    decreases |bs|
  {
    if bs != [] {
      SyncToEntries(cfg, bs[1..]);
      assert forall b :: b in bs <==> b == bs[0] || b in bs[1..];
    }
  }

  /** With the sync-list pointers given and every enabled backend built,
      the sync sources hold the iterable wrapper of each enabled backend
      whose sync-from flag is set, and nothing else; IPFS is never among
      them. */
  lemma SyncFromMembership(cfg: Config, fails: set<Ctor>)
    requires forall b :: BackendEnabled(cfg, b) ==> BackendCtor(b) !in fails
    ensures var from := BuildAll(cfg, fails, true).syncFrom;
      && (forall b :: Iterable(Store(b)) in from <==> BackendEnabled(cfg, b) && SyncFromFlag(cfg, b))
      && (forall x :: x in from ==> x.Iterable? && Origin(x).Some? && Origin(x) != Some(Ipfs))
  {
    BuildAllSummary(cfg, fails, true);
    EnabledInFactoryOrder(cfg);
    NoStopWhenBuilt(cfg, fails, Enabled(cfg));
    SyncFromEntries(cfg, Enabled(cfg));
  }

  /** With the sync-list pointers given and every enabled backend built,
      the sync destinations hold the service of each enabled backend whose
      sync-to flag is set, and nothing else: the iterable wrapper when the
      sync-from flag is set too. IPFS is never among them. */
  lemma SyncToMembership(cfg: Config, fails: set<Ctor>)
    requires forall b :: BackendEnabled(cfg, b) ==> BackendCtor(b) !in fails
    ensures var to := BuildAll(cfg, fails, true).syncTo;
      && (forall b :: Member(cfg, b) in to <==> BackendEnabled(cfg, b) && SyncToFlag(cfg, b))
      && (forall b :: BackendEnabled(cfg, b) && SyncFromFlag(cfg, b) && SyncToFlag(cfg, b) ==>
            Iterable(Store(b)) in to)
      && (forall x :: x in to ==> Origin(x).Some? && Origin(x) != Some(Ipfs))
  {
    BuildAllSummary(cfg, fails, true);
    EnabledInFactoryOrder(cfg);
    NoStopWhenBuilt(cfg, fails, Enabled(cfg));
    SyncToEntries(cfg, Enabled(cfg));
  }

  /** With nil sync-list pointers, as in node mode, a sync flag on an
      enabled backend ends the build in a nil pointer dereference, unless
      the constructor of that backend or of one before it fails first;
      later backends never get the chance to fail. */
  lemma UntrackedSyncFlagPanics(cfg: Config, fails: set<Ctor>, b: Backend)
    requires forall c :: BackendEnabled(cfg, c) && Rank(c) <= Rank(b) ==> BackendCtor(c) !in fails
    requires BackendEnabled(cfg, b) && (SyncFromFlag(cfg, b) || SyncToFlag(cfg, b))
    ensures PersistentOutcome(cfg, fails, false) == Panic
  {
    var e := Enabled(cfg);
    EnabledInFactoryOrder(cfg);
    var k :| 0 <= k < |e| && e[k] == b;
    forall i | 0 <= i <= k
      ensures BackendCtor(e[i]) !in fails
    {
      assert e[i] in e;
    }
    PanicWhenUntracked(cfg, fails, e, k);
    PersistentOutcomeByBackend(cfg, fails, false);
  }

  /** With the sync-list pointers given, the build never panics: it returns
      a service or an error. */
  lemma TrackedNeverPanics(cfg: Config, fails: set<Ctor>)
    ensures PersistentOutcome(cfg, fails, true) != Panic
  {
    PersistentOutcomeByBackend(cfg, fails, true);
  }

  /** With no backend enabled the build returns nil and registers nothing. */
  lemma NoBackendGivesNil(cfg: Config, fails: set<Ctor>, tracked: bool)
    requires !AnyPersistentBackend(cfg)
    ensures PersistentOutcome(cfg, fails, tracked) == Ok(Nil)
    ensures PersistentRegistrations(cfg, fails, tracked) == []
  {
  }

  /** A successful build has built every enabled backend. */
  lemma BuiltWhenOk(cfg: Config, fails: set<Ctor>, tracked: bool)
    requires PersistentOutcome(cfg, fails, tracked).Ok?
    ensures forall b :: BackendEnabled(cfg, b) ==> BackendCtor(b) !in fails
  {
    PersistentOutcomeByBackend(cfg, fails, tracked);
    EnabledInFactoryOrder(cfg);
    NoStopMeansBuilt(cfg, fails, tracked, Enabled(cfg));
  }

  /** A successful build returns nil exactly when no backend is enabled. */
  lemma NilIffNoBackend(cfg: Config, fails: set<Ctor>, tracked: bool)
    requires PersistentOutcome(cfg, fails, tracked).Ok?
    ensures PersistentOutcome(cfg, fails, tracked).value == Nil <==> !AnyPersistentBackend(cfg)
  {
    var e := Enabled(cfg);
    RedundantMembersInOrder(cfg, fails, tracked);
    assert |e| == 0 <==> !AnyPersistentBackend(cfg);
  }

  /** With nil sync-list pointers, the build panics only when an enabled
      backend has a sync flag set. */
  lemma UntrackedPanicNeedsSyncFlag(cfg: Config, fails: set<Ctor>)
    requires PersistentOutcome(cfg, fails, false) == Panic
    ensures exists b :: BackendEnabled(cfg, b) && (SyncFromFlag(cfg, b) || SyncToFlag(cfg, b))
  {
    PersistentOutcomeByBackend(cfg, fails, false);
    EnabledInFactoryOrder(cfg);
    PanicStopHasSyncFlag(cfg, fails, Enabled(cfg));
  }

  /** With every enabled backend built, the sync sources are non-empty
      exactly when an enabled backend is a sync source, and likewise for
      the destinations. */
  lemma SyncListsNonEmpty(cfg: Config, fails: set<Ctor>)
    requires forall b :: BackendEnabled(cfg, b) ==> BackendCtor(b) !in fails
    ensures |BuildAll(cfg, fails, true).syncFrom| > 0 <==> exists b :: BackendEnabled(cfg, b) && SyncFromFlag(cfg, b)
    ensures |BuildAll(cfg, fails, true).syncTo| > 0 <==> exists b :: BackendEnabled(cfg, b) && SyncToFlag(cfg, b)
  {
    BuildAllSummary(cfg, fails, true);
    EnabledInFactoryOrder(cfg);
    NoStopWhenBuilt(cfg, fails, Enabled(cfg));
    CollectNonEmpty(Enabled(cfg), SyncFromOf(cfg));
    CollectNonEmpty(Enabled(cfg), SyncToOf(cfg));
  }
}
