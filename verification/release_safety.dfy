/** What every interleaving keeps: at most two files, none removed under a lease, none of
    them a stranger's unless cleanup failed, and a shutdown that leaves nothing behind. */
module ReleaseSafety {
  import opened Wrappers
  import opened ReleaseCache
  import opened ReleaseRuns

  // ----- the invariant -----

  /** The tasks that own the busy flag. */
  predicate Owns(task: Task) {
    !task.Preparing? && !task.Asking? && !task.Holding?
  }

  ghost predicate OneOwner(w: World) {
    && (forall t :: t in w.tasks && Owns(w.tasks[t]) ==> w.cache.busy)
    && (w.cache.busy ==> exists t :: t in w.tasks && Owns(w.tasks[t]))
    && (forall t, u :: t in w.tasks && u in w.tasks && Owns(w.tasks[t]) && Owns(w.tasks[u]) ==> t == u)
  }

  ghost function Lessees(tasks: map<TaskId, Task>, id: BundleId): set<TaskId> {
    set t | t in tasks && tasks[t] == Holding(id)
  }

  /** The lease counts are the numbers of tasks holding a lease. */
  ghost predicate LeasesCounted(w: World) {
    && (forall id :: id in w.cache.entries ==> w.cache.entries[id].leases == |Lessees(w.tasks, id)|)
    && (forall t :: t in w.tasks && w.tasks[t].Holding? ==> w.tasks[t].id in w.cache.entries)
  }

  /** An entry keeps its file until a cleanup of it begins, and that only without leases. */
  ghost predicate EntriesBacked(c: Cache, files: set<BundleId>) {
    && (c.entries != map[] ==> c.initialized)
    && (forall id :: id in c.entries && !c.entries[id].retiring ==> id in files)
    && (forall id :: id in c.entries && c.entries[id].retiring ==> c.entries[id].leases == 0)
  }

  /** No user and tag has two live entries. */
  ghost predicate LiveUnique(c: Cache, now: int) {
    forall i, j :: i in c.entries && j in c.entries && i != j && Live(c.entries[i], now) && Live(c.entries[j], now)
      ==> c.entries[i].user != c.entries[j].user || c.entries[i].tag != c.entries[j].tag
  }

  ghost predicate Bounded(c: Cache, files: set<BundleId>) {
    |c.entries.Keys| <= CAPACITY && (c.initialized ==> |files + c.entries.Keys| <= CAPACITY)
  }

  ghost predicate CacheOk(c: Cache, files: set<BundleId>, now: int) {
    EntriesBacked(c, files) && LiveUnique(c, now) && Bounded(c, files)
  }

  /** The download in flight for `task` reserves a slot. */
  predicate Reserving(task: Task) { task.Resolving? || task.Downloading? || task.Releasing? }

  predicate Reserves(task: Task, id: BundleId) { Reserving(task) && task.id == id }

  ghost predicate Reserved(w: World, id: BundleId) {
    exists t :: t in w.tasks && Reserves(w.tasks[t], id)
  }

  /** Unless cleanup failed, every file is an entry's or reserved. */
  ghost predicate FilesOwned(w: World) {
    w.cache.initialized && !w.cache.failed ==>
      forall f :: f in w.files ==> f in w.cache.entries || Reserved(w, f)
  }

  ghost predicate ForWhy(w: World, why: Why, covered: set<BundleId>) {
    match why
    case ForPrepare(user, tag) =>
      w.cache.initialized && !w.cache.failed && !Served(w.cache, user, tag, w.now)
    case ForLease => true
    case ForClose => w.cache.closed && covered == w.cache.entries.Keys
  }

  ghost predicate SlotOk(w: World, id: BundleId) {
    && w.cache.initialized && !w.cache.failed && id !in w.cache.entries
    && |w.files + w.cache.entries.Keys + {id}| <= CAPACITY
  }

  ghost predicate TaskOk(w: World, task: Task) {
    match task
    case Reconciling(user, tag) => !w.cache.initialized && !w.cache.failed
    case Reaping(why, left) => left <= w.cache.entries.Keys && ForWhy(w, why, left)
    case Cleaning(why, id, left) =>
      && left <= w.cache.entries.Keys && id !in left && id in w.cache.entries
      && w.cache.entries[id].retiring && ForWhy(w, why, left + {id})
    case Resolving(user, tag, id) => SlotOk(w, id) && !Served(w.cache, user, tag, w.now)
    case Downloading(user, tag, id) => SlotOk(w, id) && !Served(w.cache, user, tag, w.now)
    case Releasing(id) => SlotOk(w, id)
    case _ => true
  }

  ghost predicate TasksOk(w: World) {
    forall t :: t in w.tasks ==> TaskOk(w, w.tasks[t])
  }

  predicate Closes(task: Task) {
    (task.Reaping? || task.Cleaning?) && task.why.ForClose?
  }

  /** Requests drain before the cache closes. */
  ghost predicate StagesOk(w: World) {
    && |w.Requests()| <= 2
    && (STOPPER in w.tasks <==> w.stage == Closing)
    && (forall t :: t in w.tasks ==> (Closes(w.tasks[t]) <==> t == STOPPER))
    && (w.cache.closed <==> w.stage == Closing || w.stage == Stopped)
    && (w.stage == Closing || w.stage == Stopped ==> w.Requests() == {})
    && w.stage != MetBusy
    && (w.stage == Stopped && !w.cache.failed ==> w.cache.entries == map[])
  }

  /** All but what each await needs. */
  ghost predicate Frame(w: World) {
    OneOwner(w) && LeasesCounted(w) && CacheOk(w.cache, w.files, w.now) && FilesOwned(w) && StagesOk(w)
  }

  ghost predicate Inv(w: World) {
    Frame(w) && TasksOk(w)
  }

  // ----- the owner ends or goes on -----

  lemma OwnerIs(w: World, t: TaskId)
    requires OneOwner(w) && t in w.tasks && Owns(w.tasks[t])
    ensures w.cache.busy
    ensures forall u :: u in w.tasks && u != t ==> !Owns(w.tasks[u])
  {}

  lemma LesseesSame(tasks: map<TaskId, Task>, tasks1: map<TaskId, Task>, t: TaskId, id: BundleId)
    requires forall u :: u != t ==> (u in tasks <==> u in tasks1) && (u in tasks ==> tasks[u] == tasks1[u])
    requires !(t in tasks && tasks[t] == Holding(id)) && !(t in tasks1 && tasks1[t] == Holding(id))
    ensures Lessees(tasks1, id) == Lessees(tasks, id)
  {}

  /** What a step of a task that holds no lease may do to the lease counts: nothing. */
  ghost predicate LeasesAlike(w: World, c1: Cache) {
    && (forall id :: id in c1.entries && id in w.cache.entries ==> c1.entries[id].leases == w.cache.entries[id].leases)
    && (forall id :: id in c1.entries && id !in w.cache.entries ==> c1.entries[id].leases == 0)
    && (forall id :: id in w.cache.entries && id !in c1.entries ==> w.cache.entries[id].leases == 0)
  }

  lemma LeasesUnmoved(w: World, w1: World, t: TaskId)
    requires LeasesCounted(w) && t in w.tasks && !w.tasks[t].Holding?
    requires forall u :: u != t ==> (u in w.tasks <==> u in w1.tasks) && (u in w.tasks ==> w.tasks[u] == w1.tasks[u])
    requires t in w1.tasks ==> !w1.tasks[t].Holding?
    requires LeasesAlike(w, w1.cache)
    ensures LeasesCounted(w1)
  {
    forall id ensures Lessees(w1.tasks, id) == Lessees(w.tasks, id) {
      LesseesSame(w.tasks, w1.tasks, t, id);
    }
    forall id | id in w1.cache.entries && id !in w.cache.entries ensures Lessees(w.tasks, id) == {} {}
    forall u | u in w1.tasks && w1.tasks[u].Holding? ensures w1.tasks[u].id in w1.cache.entries {
      var id := w1.tasks[u].id;
      assert u in Lessees(w.tasks, id);
    }
  }

  // ----- the owner goes on, or ends -----

  lemma GoingOwner(w: World, w1: World, t: TaskId, task: Task)
    requires OneOwner(w) && t in w.tasks && Owns(w.tasks[t]) && Owns(task)
    requires w1.tasks == w.tasks[t := task] && w1.cache.busy
    ensures OneOwner(w1)
  {
    assert Owns(w1.tasks[t]);
  }

  lemma EndingOwner(w: World, w1: World, t: TaskId)
    requires OneOwner(w) && t in w.tasks && Owns(w.tasks[t])
    requires w1.tasks == w.tasks - {t} && !w1.cache.busy
    ensures OneOwner(w1)
  {}

  /** Only the owner's obligation matters. */
  lemma OwnersObligation(w: World, t: TaskId)
    requires OneOwner(w)
    requires if t in w.tasks && Owns(w.tasks[t]) then TaskOk(w, w.tasks[t]) else !w.cache.busy
    ensures TasksOk(w)
  {}

  lemma SubsetSize<T>(a: set<T>, b: set<T>)
    requires a <= b
    ensures |a| <= |b|
  {
    if a != {} {
      var x :| x in a;
      SubsetSize(a - {x}, b - {x});
    }
  }

  lemma GoingStages(w: World, w1: World, t: TaskId, task: Task)
    requires StagesOk(w) && t in w.tasks && (Closes(task) <==> t == STOPPER)
    requires w1.tasks == w.tasks[t := task] && w1.cache.closed == w.cache.closed && w1.stage == w.stage
    ensures StagesOk(w1)
  {
    assert w1.Requests() == w.Requests();
    assert t != STOPPER ==> t in w.Requests();
  }

  lemma EndingStages(w: World, w1: World, t: TaskId)
    requires StagesOk(w) && t in w.tasks
    requires w1.tasks == w.tasks - {t} && w1.cache.closed == w.cache.closed
    requires w1.stage == if t == STOPPER then Stopped else w.stage
    requires t == STOPPER && !w1.cache.failed ==> w1.cache.entries == map[]
    ensures StagesOk(w1)
  {
    assert w1.Requests() == w.Requests() - {t};
    SubsetSize(w1.Requests(), w.Requests());
    assert t != STOPPER ==> t in w.Requests();
  }

  /** An owner's step that leaves the stage alone and is right about its own next await. */
  lemma OwnerGoes(w: World, w1: World, t: TaskId, task: Task)
    requires OneOwner(w) && StagesOk(w) && t in w.tasks && Owns(w.tasks[t]) && Owns(task)
    requires Closes(task) <==> t == STOPPER
    requires w1.tasks == w.tasks[t := task] && w1.cache.busy && w1.cache.closed == w.cache.closed && w1.stage == w.stage
    requires TaskOk(w1, task)
    ensures OneOwner(w1) && TasksOk(w1) && StagesOk(w1)
  {
    GoingOwner(w, w1, t, task);
    OwnersObligation(w1, t);
    GoingStages(w, w1, t, task);
  }

  lemma OwnerEnds(w: World, w1: World, t: TaskId)
    requires OneOwner(w) && StagesOk(w) && t in w.tasks && Owns(w.tasks[t])
    requires w1.tasks == w.tasks - {t} && !w1.cache.busy && w1.cache.closed == w.cache.closed
    requires w1.stage == if t == STOPPER then Stopped else w.stage
    requires t == STOPPER && !w1.cache.failed ==> w1.cache.entries == map[]
    ensures OneOwner(w1) && TasksOk(w1) && StagesOk(w1)
  {
    EndingOwner(w, w1, t);
    OwnersObligation(w1, t);
    EndingStages(w, w1, t);
  }

  lemma GoingAssembles(w: World, w1: World, t: TaskId, task: Task)
    requires OneOwner(w) && StagesOk(w) && LeasesCounted(w) && t in w.tasks && Owns(w.tasks[t]) && Owns(task)
    requires Closes(task) <==> t == STOPPER
    requires w1.tasks == w.tasks[t := task] && w1.cache.busy && w1.cache.closed == w.cache.closed && w1.stage == w.stage
    requires LeasesAlike(w, w1.cache) && CacheOk(w1.cache, w1.files, w1.now) && FilesOwned(w1) && TaskOk(w1, task)
    ensures Inv(w1)
  {
    LeasesUnmoved(w, w1, t);
    OwnerGoes(w, w1, t, task);
  }

  lemma EndingAssembles(w: World, w1: World, t: TaskId)
    requires OneOwner(w) && StagesOk(w) && LeasesCounted(w) && t in w.tasks && Owns(w.tasks[t])
    requires w1.tasks == w.tasks - {t} && !w1.cache.busy && w1.cache.closed == w.cache.closed
    requires w1.stage == if t == STOPPER then Stopped else w.stage
    requires t == STOPPER && !w1.cache.failed ==> w1.cache.entries == map[]
    requires LeasesAlike(w, w1.cache) && CacheOk(w1.cache, w1.files, w1.now) && FilesOwned(w1)
    ensures Inv(w1)
  {
    LeasesUnmoved(w, w1, t);
    OwnerEnds(w, w1, t);
  }

  // ----- files -----

  /** With no reservation, what is not an entry's is not there. */
  lemma NothingReserved(w: World, t: TaskId)
    requires OneOwner(w) && t in w.tasks && Owns(w.tasks[t]) && FilesOwned(w)
    requires !Reserving(w.tasks[t])
    ensures w.cache.initialized && !w.cache.failed ==> w.files <= w.cache.entries.Keys
  {}

  lemma OwnedByEntries(w: World)
    requires w.cache.initialized && !w.cache.failed ==> w.files <= w.cache.entries.Keys
    ensures FilesOwned(w)
  {}

  lemma EmptyCacheOk(c: Cache, files: set<BundleId>, now: int)
    requires c.entries == map[] && (c.initialized ==> files == {})
    ensures CacheOk(c, files, now)
  {
    assert c.entries.Keys == {};
  }

  lemma ReconcileKeeps(w: World, t: TaskId, user: User, tag: Tag, io: Io)
    requires Inv(w) && t in w.tasks && w.tasks[t] == Reconciling(user, tag)
    ensures Inv(ReconcileRuns(w, t, user, tag, io))
  {
    assert TaskOk(w, w.tasks[t]);
    assert w.cache.entries == map[];
    if io.works && !io.cancelled {
      ReconciledKeeps(w, t, user, tag, io);
    } else {
      var w1 := ReconcileRuns(w, t, user, tag, io);
      ReconcileStops(w, w1, t);
    }
  }

  lemma ReconciledKeeps(w: World, t: TaskId, user: User, tag: Tag, io: Io)
    requires Frame(w) && t in w.tasks && w.tasks[t] == Reconciling(user, tag) && w.cache.entries == map[]
    requires !w.cache.failed
    requires io.works && !io.cancelled
    ensures Inv(ReconcileRuns(w, t, user, tag, io))
  {
    var w1 := ReconcileRuns(w, t, user, tag, io);
    EmptyCacheOk(w1.cache, w1.files, w1.now);
    GoingAssembles(w, w1, t, Reaping(ForPrepare(user, tag), w.cache.entries.Keys));
  }

  lemma ReconcileStops(w: World, w1: World, t: TaskId)
    requires Frame(w) && t in w.tasks && Owns(w.tasks[t]) && t != STOPPER && w.cache.entries == map[]
    requires !w.cache.initialized
    requires w1.tasks == w.tasks - {t} && w1.stage == w.stage && w1.cache.entries == map[]
    requires !w1.cache.busy && !w1.cache.initialized && w1.cache.closed == w.cache.closed
    ensures Inv(w1)
  {
    EmptyCacheOk(w1.cache, w1.files, w1.now);
    EndingAssembles(w, w1, t);
  }

  // ----- reaping -----

  /** The closing reaper meets no lease. */
  lemma ClosingMeetsNoLease(w: World, t: TaskId, id: BundleId)
    requires StagesOk(w) && LeasesCounted(w) && t in w.tasks && Closes(w.tasks[t]) && id in w.cache.entries
    ensures w.cache.entries[id].leases == 0 && w.cache.closed
  {
    assert forall u :: u in w.tasks && u != STOPPER ==> u in w.Requests();
    assert Lessees(w.tasks, id) == {};
  }

  /** The cache the same, only the owner's task moves on. */
  lemma OwnerMoves(w: World, t: TaskId, task: Task)
    requires Frame(w) && t in w.tasks && Owns(w.tasks[t]) && Owns(task)
    requires (Closes(task) <==> t == STOPPER) && TaskOk(w, task)
    requires forall id :: Reserves(w.tasks[t], id) ==> Reserves(task, id)
    ensures Inv(Go(w, t, w.cache, task))
  {
    var w1 := Go(w, t, w.cache, task);
    TaskOkByCache(w, w1, task);
    ReservationsMove(w, w1, t, task);
    GoingAssembles(w, w1, t, task);
  }

  lemma TaskOkByCache(w: World, w1: World, task: Task)
    requires w1.cache == w.cache && w1.files == w.files && w1.now == w.now && TaskOk(w, task)
    ensures TaskOk(w1, task)
  {}

  lemma ReservationsMove(w: World, w1: World, t: TaskId, task: Task)
    requires FilesOwned(w) && t in w.tasks && w1.tasks == w.tasks[t := task]
    requires w1.cache == w.cache && w1.files == w.files
    requires forall id :: Reserves(w.tasks[t], id) ==> Reserves(task, id)
    ensures FilesOwned(w1)
  {
    if w.cache.initialized && !w.cache.failed {
      forall f | f in w1.files && f !in w1.cache.entries ensures Reserved(w1, f) {
        var u :| u in w.tasks && Reserves(w.tasks[u], f);
        assert u in w1.tasks && Reserves(w1.tasks[u], f);
      }
    }
  }

  lemma SameEntriesOk(c: Cache, c1: Cache, files: set<BundleId>, now: int)
    requires CacheOk(c, files, now) && c1.entries == c.entries && c1.initialized == c.initialized
    ensures CacheOk(c1, files, now)
  {}

  /** The cache but for the busy flag and a failure the same, the owner ends. */
  lemma OwnerStops(w: World, t: TaskId, stage: Stage, c1: Cache)
    requires Frame(w) && t in w.tasks && Owns(w.tasks[t]) && !Reserving(w.tasks[t])
    requires stage == if t == STOPPER then Stopped else w.stage
    requires c1 == Freed(w.cache) || c1 == Freed(Failed(w.cache))
    requires t == STOPPER && !c1.failed ==> w.cache.entries == map[]
    ensures Inv(End(w, t, c1).(stage := stage))
  {
    var w1 := End(w, t, c1).(stage := stage);
    SameEntriesOk(w.cache, c1, w.files, w.now);
    NothingReserved(w, t);
    OwnedByEntries(w1);
    EndingAssembles(w, w1, t);
  }

  lemma ReapKeeps(w: World, t: TaskId, why: Why, left: set<BundleId>, io: Io)
    requires Inv(w) && t in w.tasks && w.tasks[t] == Reaping(why, left)
    ensures Inv(ReapRuns(w, t, why, left, io))
  {
    assert TaskOk(w, w.tasks[t]) && (Closes(w.tasks[t]) <==> t == STOPPER);
    if left == {} {
      ReapEndKeeps(w, t, why, io);
    } else if io.pick in left {
      if Reapable(w.cache, w.cache.entries[io.pick], w.now) {
        RetireKeeps(w, t, why, left, io.pick);
      } else {
        if why.ForClose? {
          ClosingMeetsNoLease(w, t, io.pick);
        }
        OwnerMoves(w, t, Reaping(why, left - {io.pick}));
      }
    }
  }

  lemma ReapEndKeeps(w: World, t: TaskId, why: Why, io: Io)
    requires Inv(w) && t in w.tasks && w.tasks[t] == Reaping(why, {}) && ForWhy(w, why, {})
    requires why.ForClose? <==> t == STOPPER
    ensures Inv(ReapEnds(w, t, why, io))
  {
    match why
    case ForPrepare(user, tag) =>
      if io.cancelled || !HasRoom(w.cache) {
        OwnerStops(w, t, w.stage, Freed(w.cache));
      } else if io.token !in w.cache.entries {
        SlotIsFree(w, t, io.token);
        OwnerMoves(w, t, Resolving(user, tag, io.token));
      }
    case ForLease => OwnerStops(w, t, w.stage, Freed(w.cache));
    case ForClose =>
      assert w.cache.entries.Keys == {};
      OwnerStops(w, t, Stopped, Freed(w.cache));
  }

  lemma SlotIsFree(w: World, t: TaskId, token: BundleId)
    requires OneOwner(w) && FilesOwned(w) && t in w.tasks && w.tasks[t].Reaping?
    requires w.cache.initialized && !w.cache.failed && HasRoom(w.cache) && token !in w.cache.entries
    ensures SlotOk(w, token)
  {
    NothingReserved(w, t);
    assert w.files + w.cache.entries.Keys + {token} == w.cache.entries.Keys + {token};
  }

  lemma RetireKeeps(w: World, t: TaskId, why: Why, left: set<BundleId>, id: BundleId)
    requires Frame(w) && t in w.tasks && w.tasks[t] == Reaping(why, left) && TaskOk(w, w.tasks[t])
    requires id in left && Reapable(w.cache, w.cache.entries[id], w.now)
    ensures Inv(Go(w, t, Retired(w.cache, id), Cleaning(why, id, left - {id})))
  {
    var task := Cleaning(why, id, left - {id});
    var w1 := Go(w, t, Retired(w.cache, id), task);
    RetiredIsOk(w, id);
    RetiredTaskOk(w, w1, why, left, id);
    NothingReserved(w, t);
    OwnedByEntries(w1);
    GoingAssembles(w, w1, t, task);
  }

  lemma RetiredTaskOk(w: World, w1: World, why: Why, left: set<BundleId>, id: BundleId)
    requires CacheOk(w.cache, w.files, w.now) && TaskOk(w, Reaping(why, left)) && id in left
    requires w.cache.entries[id].leases == 0
    requires w1.cache == Retired(w.cache, id) && w1.files == w.files && w1.now == w.now
    ensures TaskOk(w1, Cleaning(why, id, left - {id}))
  {
    RetiredIsOk(w, id);
    assert w1.cache.entries.Keys == w.cache.entries.Keys;
    assert left - {id} + {id} == left;
  }

  lemma RetiredIsOk(w: World, id: BundleId)
    requires CacheOk(w.cache, w.files, w.now) && id in w.cache.entries && w.cache.entries[id].leases == 0
    ensures CacheOk(Retired(w.cache, id), w.files, w.now) && Retired(w.cache, id).entries.Keys == w.cache.entries.Keys
    ensures forall user, tag :: Served(Retired(w.cache, id), user, tag, w.now) ==> Served(w.cache, user, tag, w.now)
  {
    assert Retired(w.cache, id).entries.Keys == w.cache.entries.Keys;
    forall user, tag | Served(Retired(w.cache, id), user, tag, w.now) ensures Served(w.cache, user, tag, w.now) {
      var i :| i in Retired(w.cache, id).entries && Serves(Retired(w.cache, id).entries[i], user, tag, w.now);
      assert i in w.cache.entries && Serves(w.cache.entries[i], user, tag, w.now);
    }
  }

  lemma CleanKeeps(w: World, t: TaskId, why: Why, id: BundleId, left: set<BundleId>, io: Io)
    requires Inv(w) && t in w.tasks && w.tasks[t] == Cleaning(why, id, left)
    ensures Inv(CleanRuns(w, t, why, id, left, io))
  {
    assert TaskOk(w, w.tasks[t]) && (Closes(w.tasks[t]) <==> t == STOPPER);
    if io.works {
      CleanedKeeps(w, t, why, id, left);
    } else {
      OwnerStops(w, t, if why.ForClose? then Stopped else w.stage, Freed(Failed(w.cache)));
    }
  }

  lemma CleanedKeeps(w: World, t: TaskId, why: Why, id: BundleId, left: set<BundleId>)
    requires Frame(w) && t in w.tasks && w.tasks[t] == Cleaning(why, id, left) && TaskOk(w, w.tasks[t])
    ensures Inv(Go(w, t, Removed(w.cache, id), Reaping(why, left)).(files := w.files - {id}))
  {
    var w1 := Go(w, t, Removed(w.cache, id), Reaping(why, left)).(files := w.files - {id});
    RemovedIsOk(w, id);
    RemovedTaskOk(w, w1, why, id, left);
    NothingReserved(w, t);
    OwnedByEntries(w1);
    GoingAssembles(w, w1, t, Reaping(why, left));
  }

  lemma RemovedIsOk(w: World, id: BundleId)
    requires CacheOk(w.cache, w.files, w.now)
    ensures CacheOk(Removed(w.cache, id), w.files - {id}, w.now)
    ensures Removed(w.cache, id).entries.Keys == w.cache.entries.Keys - {id}
    ensures forall user, tag :: Served(Removed(w.cache, id), user, tag, w.now) ==> Served(w.cache, user, tag, w.now)
  {
    var c1 := Removed(w.cache, id);
    assert c1.entries.Keys == w.cache.entries.Keys - {id};
    SubsetSize(c1.entries.Keys, w.cache.entries.Keys);
    SubsetSize(w.files - {id} + c1.entries.Keys, w.files + w.cache.entries.Keys);
    assert w.cache.entries == map[] ==> c1.entries == map[];
    forall user, tag | Served(c1, user, tag, w.now) ensures Served(w.cache, user, tag, w.now) {
      var i :| i in c1.entries && Serves(c1.entries[i], user, tag, w.now);
      assert i in w.cache.entries && Serves(w.cache.entries[i], user, tag, w.now);
    }
  }

  lemma RemovedTaskOk(w: World, w1: World, why: Why, id: BundleId, left: set<BundleId>)
    requires CacheOk(w.cache, w.files, w.now) && TaskOk(w, Cleaning(why, id, left))
    requires w1.cache == Removed(w.cache, id) && w1.now == w.now
    ensures TaskOk(w1, Reaping(why, left))
  {
    RemovedIsOk(w, id);
    assert w1.cache.entries.Keys == w.cache.entries.Keys - {id};
    assert (left + {id}) - {id} == left;
  }

  // ----- downloading -----

  lemma DownloadKeeps(w: World, t: TaskId, user: User, tag: Tag, id: BundleId, io: Io)
    requires Inv(w) && t in w.tasks && w.tasks[t] == Downloading(user, tag, id)
    ensures Inv(DownloadRuns(w, t, user, tag, id, io))
  {
    assert TaskOk(w, w.tasks[t]) && (Closes(w.tasks[t]) <==> t == STOPPER);
    if io.works && !io.cancelled {
      StoringKeeps(w, t, user, tag, id);
    } else {
      OwnerMoves(w, t, Releasing(id));
    }
  }

  lemma StoringKeeps(w: World, t: TaskId, user: User, tag: Tag, id: BundleId)
    requires Frame(w) && t in w.tasks && w.tasks[t] == Downloading(user, tag, id) && TaskOk(w, w.tasks[t])
    requires t != STOPPER
    ensures Inv(End(w, t, Stored(w.cache, id, user, tag, w.now)).(files := w.files + {id}))
  {
    var w1 := End(w, t, Stored(w.cache, id, user, tag, w.now)).(files := w.files + {id});
    StoredIsOk(w, user, tag, id);
    OnlyReserves(w, t, id);
    OwnedByEntries(w1);
    EndingAssembles(w, w1, t);
  }

  /** The owner's reservation is the only one. */
  lemma OnlyReserves(w: World, t: TaskId, id: BundleId)
    requires OneOwner(w) && FilesOwned(w) && t in w.tasks && Reserves(w.tasks[t], id)
    ensures w.cache.initialized && !w.cache.failed ==> w.files <= w.cache.entries.Keys + {id}
  {}

  lemma StoredIsOk(w: World, user: User, tag: Tag, id: BundleId)
    requires CacheOk(w.cache, w.files, w.now) && SlotOk(w, id) && !Served(w.cache, user, tag, w.now)
    ensures CacheOk(Stored(w.cache, id, user, tag, w.now), w.files + {id}, w.now)
    ensures Stored(w.cache, id, user, tag, w.now).entries.Keys == w.cache.entries.Keys + {id}
  {
    StoredIsUnique(w, user, tag, id);
    StoredIsBounded(w.cache, w.files, Stored(w.cache, id, user, tag, w.now), id);
  }

  lemma StoredIsBounded(c: Cache, files: set<BundleId>, c1: Cache, id: BundleId)
    requires |files + c.entries.Keys + {id}| <= CAPACITY && c1.entries.Keys == c.entries.Keys + {id}
    ensures Bounded(c1, files + {id})
  {
    assert files + {id} + c1.entries.Keys == files + c.entries.Keys + {id};
    SubsetSize(c1.entries.Keys, files + c.entries.Keys + {id});
  }

  lemma StoredIsUnique(w: World, user: User, tag: Tag, id: BundleId)
    requires LiveUnique(w.cache, w.now) && id !in w.cache.entries && !Served(w.cache, user, tag, w.now)
    ensures LiveUnique(Stored(w.cache, id, user, tag, w.now), w.now)
  {
    forall i | i in w.cache.entries && Live(w.cache.entries[i], w.now)
      ensures w.cache.entries[i].user != user || w.cache.entries[i].tag != tag
    {
      assert !Serves(w.cache.entries[i], user, tag, w.now);
    }
  }

  lemma ReleaseKeeps(w: World, t: TaskId, id: BundleId, io: Io)
    requires Inv(w) && t in w.tasks && w.tasks[t] == Releasing(id)
    ensures Inv(ReleaseRun(w, t, id, io))
  {
    assert TaskOk(w, w.tasks[t]) && (Closes(w.tasks[t]) <==> t == STOPPER);
    ReleaseEnds(w, t, id, io);
  }

  lemma ReleaseEnds(w: World, t: TaskId, id: BundleId, io: Io)
    requires Frame(w) && t in w.tasks && w.tasks[t] == Releasing(id) && SlotOk(w, id) && t != STOPPER
    ensures Inv(ReleaseRun(w, t, id, io))
  {
    var w1 := ReleaseRun(w, t, id, io);
    assert w1.cache.entries == w.cache.entries;
    ReleasedIsOk(w, id, w1.cache);
    OnlyReserves(w, t, id);
    OwnedByEntries(w1);
    EndingAssembles(w, w1, t);
  }

  lemma ReleasedIsOk(w: World, id: BundleId, c1: Cache)
    requires CacheOk(w.cache, w.files, w.now) && id !in w.cache.entries
    requires c1.entries == w.cache.entries && c1.initialized == w.cache.initialized
    ensures CacheOk(c1, w.files - {id}, w.now) && CacheOk(c1, w.files, w.now)
  {
    SubsetSize(w.files - {id} + c1.entries.Keys, w.files + c1.entries.Keys);
  }

  // ----- tasks that own nothing -----

  /** Only lease counts differ. */
  ghost predicate LeaseOnly(c: Cache, c1: Cache) {
    && c1.entries.Keys == c.entries.Keys && c1.initialized == c.initialized && c1.closed == c.closed
    && c1.failed == c.failed
    && forall id :: id in c.entries ==> c1.entries[id] == c.entries[id].(leases := c1.entries[id].leases)
  }

  lemma ServedByLeases(c: Cache, c1: Cache, user: User, tag: Tag, now: int)
    requires LeaseOnly(c, c1)
    ensures Served(c1, user, tag, now) ==> Served(c, user, tag, now)
  {
    if Served(c1, user, tag, now) {
      var id :| id in c1.entries && Serves(c1.entries[id], user, tag, now);
      assert id in c.entries && Serves(c.entries[id], user, tag, now);
    }
  }

  lemma TaskOkByLeases(w: World, w1: World, task: Task)
    requires TaskOk(w, task) && LeaseOnly(w.cache, w1.cache) && w1.files == w.files && w1.now == w.now
    ensures TaskOk(w1, task)
  {
    match task
    case Reaping(why, _) => if why.ForPrepare? { ServedByLeases(w.cache, w1.cache, why.user, why.tag, w.now); }
    case Cleaning(why, _, _) => if why.ForPrepare? { ServedByLeases(w.cache, w1.cache, why.user, why.tag, w.now); }
    case Resolving(user, tag, _) => ServedByLeases(w.cache, w1.cache, user, tag, w.now);
    case Downloading(user, tag, _) => ServedByLeases(w.cache, w1.cache, user, tag, w.now);
    case _ =>
  }

  lemma CacheOkByLeases(c: Cache, c1: Cache, files: set<BundleId>, now: int)
    requires CacheOk(c, files, now) && LeaseOnly(c, c1)
    requires forall id :: id in c.entries && c.entries[id].retiring ==> c1.entries[id].leases == 0
    ensures CacheOk(c1, files, now)
  {
    assert c.entries == map[] ==> c1.entries == map[];
  }

  lemma FilesOwnedAlike(w: World, w1: World, t: TaskId)
    requires FilesOwned(w) && t in w.tasks && !Reserving(w.tasks[t])
    requires w1.files == w.files && w1.cache.entries.Keys == w.cache.entries.Keys
    requires w1.cache.initialized == w.cache.initialized && w1.cache.failed == w.cache.failed
    requires forall u :: u in w.tasks && u != t ==> u in w1.tasks && w1.tasks[u] == w.tasks[u]
    ensures FilesOwned(w1)
  {
    if w.cache.initialized && !w.cache.failed {
      forall f | f in w1.files && f !in w1.cache.entries ensures Reserved(w1, f) {
        var u :| u in w.tasks && Reserves(w.tasks[u], f);
        assert u in w1.tasks && Reserves(w1.tasks[u], f);
      }
    }
  }

  /** A task that owns nothing ends or goes on owning nothing. */
  lemma BystanderOwner(w: World, w1: World, t: TaskId)
    requires OneOwner(w) && t in w.tasks && !Owns(w.tasks[t]) && w1.cache.busy == w.cache.busy
    requires forall u :: u != t ==> (u in w.tasks <==> u in w1.tasks) && (u in w.tasks ==> w.tasks[u] == w1.tasks[u])
    requires t in w1.tasks ==> !Owns(w1.tasks[t])
    ensures OneOwner(w1)
  {
    if w.cache.busy {
      var u :| u in w.tasks && Owns(w.tasks[u]);
      assert u in w1.tasks && Owns(w1.tasks[u]);
    }
  }

  lemma BystandersAreRequests(w: World, t: TaskId)
    requires StagesOk(w) && t in w.tasks && !Owns(w.tasks[t])
    ensures t != STOPPER
  {
    assert !Closes(w.tasks[t]);
  }

  lemma BystanderTasks(w: World, w1: World, t: TaskId)
    requires TasksOk(w) && w1.files == w.files && w1.now == w.now && LeaseOnly(w.cache, w1.cache)
    requires forall u :: u in w1.tasks && u != t ==> u in w.tasks && w1.tasks[u] == w.tasks[u]
    requires t in w1.tasks ==> !Owns(w1.tasks[t])
    ensures TasksOk(w1)
  {
    forall u | u in w1.tasks ensures TaskOk(w1, w1.tasks[u]) {
      if u != t {
        TaskOkByLeases(w, w1, w1.tasks[u]);
      }
    }
  }

  lemma BystanderEnds(w: World, w1: World, t: TaskId)
    requires OneOwner(w) && StagesOk(w) && FilesOwned(w) && TasksOk(w) && t in w.tasks && !Owns(w.tasks[t])
    requires w1.tasks == w.tasks - {t} && w1.files == w.files && w1.now == w.now && w1.stage == w.stage
    requires LeaseOnly(w.cache, w1.cache) && w1.cache.busy == w.cache.busy
    ensures OneOwner(w1) && StagesOk(w1) && FilesOwned(w1) && TasksOk(w1)
  {
    assert OneOwner(w1) && TasksOk(w1) by {
      BystanderOwner(w, w1, t);
      BystanderTasks(w, w1, t);
    }
    BystanderLeaves(w, w1, t);
  }

  lemma BystanderLeaves(w: World, w1: World, t: TaskId)
    requires StagesOk(w) && FilesOwned(w) && t in w.tasks && !Owns(w.tasks[t])
    requires w1.tasks == w.tasks - {t} && w1.files == w.files && w1.now == w.now && w1.stage == w.stage
    requires LeaseOnly(w.cache, w1.cache)
    ensures StagesOk(w1) && FilesOwned(w1)
  {
    BystandersAreRequests(w, t);
    EndingStages(w, w1, t);
    FilesOwnedAlike(w, w1, t);
  }

  lemma BeginningOwner(w: World, w1: World, t: TaskId, task: Task)
    requires OneOwner(w) && !w.cache.busy && Owns(task) && w1.tasks == w.tasks[t := task] && w1.cache.busy
    ensures OneOwner(w1)
  {
    assert t in w1.tasks && Owns(w1.tasks[t]);
  }

  /** A task that owned nothing takes the free busy flag. */
  lemma OwnerBegins(w: World, w1: World, t: TaskId, task: Task)
    requires OneOwner(w) && StagesOk(w) && FilesOwned(w) && t in w.tasks && !Owns(w.tasks[t])
    requires !w.cache.busy && Owns(task) && !Closes(task)
    requires w1.tasks == w.tasks[t := task] && w1.files == w.files && w1.now == w.now && w1.stage == w.stage
    requires LeaseOnly(w.cache, w1.cache) && w1.cache.busy
    requires TaskOk(w1, task)
    ensures OneOwner(w1) && StagesOk(w1) && FilesOwned(w1) && TasksOk(w1)
  {
    BystandersAreRequests(w, t);
    BeginningOwner(w, w1, t, task);
    OwnersObligation(w1, t);
    GoingStages(w, w1, t, task);
    FilesOwnedAlike(w, w1, t);
  }

  lemma PrepareKeeps(w: World, t: TaskId, user: User, tag: Tag, io: Io, w1: World)
    requires Inv(w) && t in w.tasks && w.tasks[t] == Preparing(user, tag) && PrepareRuns(w, t, user, tag, io, w1)
    ensures Inv(w1)
  {
    if t in w1.tasks {
      PrepareBegins(w, t, user, tag, w1);
    } else {
      PrepareEnds(w, t, w1);
    }
  }

  lemma PrepareEnds(w: World, t: TaskId, w1: World)
    requires Inv(w) && t in w.tasks && !Owns(w.tasks[t]) && !w.tasks[t].Holding? && w1 == End(w, t, w.cache)
    ensures Inv(w1)
  {
    LeasesUnmoved(w, w1, t);
    BystanderEnds(w, w1, t);
  }

  lemma PrepareBegins(w: World, t: TaskId, user: User, tag: Tag, w1: World)
    requires Frame(w) && t in w.tasks && w.tasks[t] == Preparing(user, tag)
    requires !w.cache.busy && !w.cache.failed && !Served(w.cache, user, tag, w.now)
    requires var c1 := w.cache.(busy := true);
      w1 == Go(w, t, c1, if c1.initialized then Reaping(ForPrepare(user, tag), c1.entries.Keys) else Reconciling(user, tag))
    ensures Inv(w1)
  {
    LeasesUnmoved(w, w1, t);
    SameEntriesOk(w.cache, w1.cache, w.files, w.now);
    BeginningIsOk(w, w1, user, tag, w1.tasks[t]);
    OwnerBegins(w, w1, t, w1.tasks[t]);
  }

  lemma BeginningIsOk(w: World, w1: World, user: User, tag: Tag, task: Task)
    requires !w.cache.failed && !Served(w.cache, user, tag, w.now)
    requires w1.cache == w.cache.(busy := true) && w1.now == w.now
    requires task == if w.cache.initialized then Reaping(ForPrepare(user, tag), w.cache.entries.Keys) else Reconciling(user, tag)
    ensures TaskOk(w1, task)
  {
    ServedByLeases(w.cache, w1.cache, user, tag, w.now);
  }

  lemma AskKeeps(w: World, t: TaskId, user: User, id: BundleId, io: Io)
    requires Inv(w) && t in w.tasks && w.tasks[t] == Asking(user, id)
    ensures Inv(AskRuns(w, t, user, id, io))
  {
    if io.cancelled || LeaseError(w.cache, user, id, w.now).Some? {
      PrepareEnds(w, t, AskRuns(w, t, user, id, io));
    } else {
      LeasingKeeps(w, t, user, id);
    }
  }

  lemma LeasingKeeps(w: World, t: TaskId, user: User, id: BundleId)
    requires Inv(w) && t in w.tasks && w.tasks[t] == Asking(user, id) && Leasable(w.cache, user, id, w.now)
    ensures Inv(Go(w, t, Leased(w.cache, id), Holding(id)))
  {
    var w1 := Go(w, t, Leased(w.cache, id), Holding(id));
    LeasedIsOk(w.cache, id, w.files, w.now);
    LeaseCounted(w, w1, t, id);
    LeasingFrame(w, w1, t, id);
  }

  lemma LeasingFrame(w: World, w1: World, t: TaskId, id: BundleId)
    requires OneOwner(w) && StagesOk(w) && FilesOwned(w) && TasksOk(w) && t in w.tasks && !Owns(w.tasks[t])
    requires w1.tasks == w.tasks[t := Holding(id)] && w1.files == w.files && w1.now == w.now && w1.stage == w.stage
    requires LeaseOnly(w.cache, w1.cache) && w1.cache.busy == w.cache.busy
    ensures OneOwner(w1) && StagesOk(w1) && FilesOwned(w1) && TasksOk(w1)
  {
    BystandersAreRequests(w, t);
    BystanderOwner(w, w1, t);
    BystanderTasks(w, w1, t);
    GoingStages(w, w1, t, Holding(id));
    FilesOwnedAlike(w, w1, t);
  }

  lemma LeaseCounted(w: World, w1: World, t: TaskId, id: BundleId)
    requires LeasesCounted(w) && t in w.tasks && !w.tasks[t].Holding? && id in w.cache.entries
    requires w1.tasks == w.tasks[t := Holding(id)] && w1.cache == Leased(w.cache, id)
    ensures LeasesCounted(w1)
  {
    forall i | i in w1.cache.entries && i != id ensures Lessees(w1.tasks, i) == Lessees(w.tasks, i) {}
    assert Lessees(w1.tasks, id) == Lessees(w.tasks, id) + {t};
    assert t !in Lessees(w.tasks, id);
  }

  lemma ReturnCounted(w: World, w1: World, t: TaskId, id: BundleId)
    requires LeasesCounted(w) && t in w.tasks && w.tasks[t] == Holding(id)
    requires id in w.cache.entries && w.cache.entries[id].leases > 0
    requires w1.cache.entries == Returned(w.cache, id).entries
    requires forall u :: u != t ==> (u in w.tasks <==> u in w1.tasks) && (u in w.tasks ==> w.tasks[u] == w1.tasks[u])
    requires t in w1.tasks ==> !w1.tasks[t].Holding?
    ensures LeasesCounted(w1)
  {
    forall i | i in w1.cache.entries && i != id ensures Lessees(w1.tasks, i) == Lessees(w.tasks, i) {}
    assert t in Lessees(w.tasks, id);
    assert Lessees(w1.tasks, id) == Lessees(w.tasks, id) - {t};
  }

  lemma HoldKeeps(w: World, t: TaskId, id: BundleId)
    requires Inv(w) && t in w.tasks && w.tasks[t] == Holding(id) && id in w.cache.entries
    requires w.cache.entries[id].leases > 0
    ensures Inv(HoldRuns(w, t, id))
  {
    var w1 := HoldRuns(w, t, id);
    ReturnCounted(w, w1, t, id);
    ReturnIsOk(w.cache, w1.cache, id, w.files, w.now);
    if w.cache.busy {
      BystanderEnds(w, w1, t);
    } else {
      OwnerBegins(w, w1, t, Reaping(ForLease, w1.cache.entries.Keys));
    }
  }

  lemma LeasedIsOk(c: Cache, id: BundleId, files: set<BundleId>, now: int)
    requires CacheOk(c, files, now) && id in c.entries && !c.entries[id].retiring
    ensures CacheOk(Leased(c, id), files, now) && LeaseOnly(c, Leased(c, id))
  {
    CacheOkByLeases(c, Leased(c, id), files, now);
  }

  lemma ReturnIsOk(c: Cache, c1: Cache, id: BundleId, files: set<BundleId>, now: int)
    requires CacheOk(c, files, now) && id in c.entries && c.entries[id].leases > 0
    requires c1 == Returned(c, id) || c1 == Returned(c, id).(busy := true)
    ensures CacheOk(c1, files, now) && LeaseOnly(c, c1)
  {
    CacheOkByLeases(c, c1, files, now);
  }

  // ----- the other events -----

  lemma ArrivingKeeps(w: World, t: TaskId, task: Task)
    requires Inv(w) && (task.Preparing? || task.Asking?) && t != STOPPER && t !in w.tasks && Admits(w)
    ensures Inv(w.(tasks := w.tasks[t := task]))
  {
    var w1 := w.(tasks := w.tasks[t := task]);
    ArrivalFrame(w, w1, t, task);
    ArrivalStages(w, w1, t, task);
  }

  lemma ArrivalFrame(w: World, w1: World, t: TaskId, task: Task)
    requires OneOwner(w) && LeasesCounted(w) && FilesOwned(w) && TasksOk(w)
    requires (task.Preparing? || task.Asking?) && t !in w.tasks && w1 == w.(tasks := w.tasks[t := task])
    ensures OneOwner(w1) && LeasesCounted(w1) && FilesOwned(w1) && TasksOk(w1)
  {
    assert FilesOwned(w1) by { ArrivalFiles(w, w1, t, task); }
    assert LeasesCounted(w1) by { ArrivalLeases(w, w1, t, task); }
    assert OneOwner(w1) by { ArrivalOwner(w, w1, t, task); }
    ArrivalTasks(w, w1, t, task);
  }

  lemma ArrivalStages(w: World, w1: World, t: TaskId, task: Task)
    requires StagesOk(w) && t != STOPPER && t !in w.tasks && Admits(w) && !Closes(task)
    requires w1 == w.(tasks := w.tasks[t := task])
    ensures StagesOk(w1)
  {
    assert w1.Requests() == w.Requests() + {t};
  }

  lemma ArrivalFiles(w: World, w1: World, t: TaskId, task: Task)
    requires FilesOwned(w) && t !in w.tasks && w1 == w.(tasks := w.tasks[t := task])
    ensures FilesOwned(w1)
  {
    if w.cache.initialized && !w.cache.failed {
      forall f | f in w1.files && f !in w1.cache.entries ensures Reserved(w1, f) {
        var u :| u in w.tasks && Reserves(w.tasks[u], f);
        assert u in w1.tasks && Reserves(w1.tasks[u], f);
      }
    }
  }

  lemma ArrivalLeases(w: World, w1: World, t: TaskId, task: Task)
    requires LeasesCounted(w) && t !in w.tasks && !task.Holding? && w1 == w.(tasks := w.tasks[t := task])
    ensures LeasesCounted(w1)
  {
    forall id ensures Lessees(w1.tasks, id) == Lessees(w.tasks, id) {
      LesseesSame(w.tasks, w1.tasks, t, id);
    }
  }

  lemma ArrivalOwner(w: World, w1: World, t: TaskId, task: Task)
    requires OneOwner(w) && t !in w.tasks && !Owns(task) && w1 == w.(tasks := w.tasks[t := task])
    ensures OneOwner(w1)
  {
    if w.cache.busy {
      var u :| u in w.tasks && Owns(w.tasks[u]);
      assert u in w1.tasks && Owns(w1.tasks[u]);
    }
  }

  lemma ArrivalTasks(w: World, w1: World, t: TaskId, task: Task)
    requires TasksOk(w) && !Owns(task) && w1 == w.(tasks := w.tasks[t := task])
    ensures TasksOk(w1)
  {
    forall u | u in w1.tasks ensures TaskOk(w1, w1.tasks[u]) {
      if u != t {
        TaskOkByCache(w, w1, w.tasks[u]);
      }
    }
  }

  lemma TimeKeeps(w: World, w1: World)
    requires Inv(w) && w1 == w.(now := w1.now) && w1.now >= w.now
    ensures Inv(w1)
  {
    assert TasksOk(w1) by {
      forall u | u in w1.tasks ensures TaskOk(w1, w1.tasks[u]) {
        TaskOkLater(w, w1, w.tasks[u]);
      }
    }
    assert CacheOk(w1.cache, w1.files, w1.now);
    SameButTime(w, w1);
  }

  lemma SameButTime(w: World, w1: World)
    requires OneOwner(w) && LeasesCounted(w) && FilesOwned(w) && StagesOk(w) && w1 == w.(now := w1.now)
    ensures OneOwner(w1) && LeasesCounted(w1) && FilesOwned(w1) && StagesOk(w1)
  {
    assert forall f :: Reserved(w, f) ==> Reserved(w1, f);
  }

  lemma TaskOkLater(w: World, w1: World, task: Task)
    requires TaskOk(w, task) && w1.cache == w.cache && w1.files == w.files && w1.now >= w.now
    ensures TaskOk(w1, task)
  {
    forall user, tag | Served(w1.cache, user, tag, w1.now) ensures Served(w.cache, user, tag, w.now) {
      var id :| id in w1.cache.entries && Serves(w1.cache.entries[id], user, tag, w1.now);
      assert Serves(w.cache.entries[id], user, tag, w.now);
    }
  }

  lemma SlotBounds(files: set<BundleId>, keys: set<BundleId>, id: BundleId)
    requires |files + keys + {id}| <= CAPACITY
    ensures |files - {id} + keys + {id}| <= CAPACITY && |files + {id} + keys + {id}| <= CAPACITY
    ensures |files + {id} + keys| <= CAPACITY
  {
    assert files - {id} + keys + {id} == files + keys + {id};
    assert files + {id} + keys + {id} == files + keys + {id};
    assert files + {id} + keys == files + keys + {id};
  }

  lemma GoneBounds(c: Cache, files: set<BundleId>, id: BundleId)
    requires Bounded(c, files)
    ensures Bounded(c, files - {id})
  {
    SubsetSize(files - {id} + c.entries.Keys, files + c.entries.Keys);
  }

  /** A file in cleanup or download comes or goes. */
  lemma FilesMoveKeeps(w: World, t: TaskId, present: bool)
    requires Inv(w) && t in w.tasks && Touches(w.tasks[t]).Some? && (present ==> w.tasks[t].Downloading?)
    ensures var id := Touches(w.tasks[t]).value;
      Inv(w.(files := if present then w.files + {id} else w.files - {id}))
  {
    var id := Touches(w.tasks[t]).value;
    var w1 := w.(files := if present then w.files + {id} else w.files - {id});
    assert TaskOk(w, w.tasks[t]);
    FileMoved(w, w1, w.tasks[t], id, present);
    FileMovedFrame(w, w1, t, id, present);
  }

  lemma FileMoved(w: World, w1: World, task: Task, id: BundleId, present: bool)
    requires CacheOk(w.cache, w.files, w.now) && TaskOk(w, task) && Touches(task) == Some(id)
    requires present ==> task.Downloading?
    requires w1 == w.(files := if present then w.files + {id} else w.files - {id})
    ensures CacheOk(w1.cache, w1.files, w1.now) && TaskOk(w1, task)
  {
    if Reserving(task) {
      SlotBounds(w.files, w.cache.entries.Keys, id);
    }
    if !present {
      GoneBounds(w.cache, w.files, id);
    }
  }

  lemma FileMovedFrame(w: World, w1: World, t: TaskId, id: BundleId, present: bool)
    requires OneOwner(w) && LeasesCounted(w) && FilesOwned(w) && StagesOk(w)
    requires t in w.tasks && Touches(w.tasks[t]) == Some(id) && (present ==> w.tasks[t].Downloading?)
    requires w1 == w.(files := if present then w.files + {id} else w.files - {id}) && TaskOk(w1, w.tasks[t])
    ensures OneOwner(w1) && LeasesCounted(w1) && FilesOwned(w1) && StagesOk(w1) && TasksOk(w1)
  {
    assert FilesOwned(w1) by { TouchedOwned(w, w1, t, id, present); }
    OwnersObligation(w1, t);
  }

  lemma TouchedOwned(w: World, w1: World, t: TaskId, id: BundleId, present: bool)
    requires FilesOwned(w) && t in w.tasks && Touches(w.tasks[t]) == Some(id) && (present ==> w.tasks[t].Downloading?)
    requires w1 == w.(files := if present then w.files + {id} else w.files - {id})
    ensures FilesOwned(w1)
  {
    assert forall f :: Reserved(w, f) ==> Reserved(w1, f);
    if present {
      assert t in w1.tasks && Reserves(w1.tasks[t], id);
    }
  }

  lemma DrainingKeeps(w: World)
    requires Inv(w) && w.stage == Open
    ensures Inv(w.(stage := Draining))
  {
    var w1 := w.(stage := Draining);
    assert forall f :: Reserved(w, f) ==> Reserved(w1, f);
    assert FilesOwned(w1);
    assert w1.Requests() == w.Requests();
    assert TasksOk(w1) by {
      forall u | u in w1.tasks ensures TaskOk(w1, w1.tasks[u]) { TaskOkByCache(w, w1, w.tasks[u]); }
    }
  }

  /** Every admitted request over, the cache cannot be busy, and the closing reaper covers it all. */
  lemma ClosingKeeps(w: World)
    requires Inv(w) && w.stage == Draining && w.Requests() == {}
    ensures !w.cache.busy
    ensures Inv(Go(w, STOPPER, w.cache.(closed := true, busy := true), Reaping(ForClose, w.cache.entries.Keys)).(stage := Closing))
  {
    assert w.tasks == map[] by {
      assert forall t :: t in w.tasks ==> t == STOPPER || t in w.Requests();
    }
    var w1 := Go(w, STOPPER, w.cache.(closed := true, busy := true), Reaping(ForClose, w.cache.entries.Keys)).(stage := Closing);
    ClosedIsOk(w, w1);
  }

  lemma ClosedIsOk(w: World, w1: World)
    requires Frame(w) && w.tasks == map[] && w.stage == Draining
    requires w1 == Go(w, STOPPER, w.cache.(closed := true, busy := true), Reaping(ForClose, w.cache.entries.Keys)).(stage := Closing)
    ensures Inv(w1)
  {
    SameEntriesOk(w.cache, w1.cache, w.files, w.now);
    assert LeasesCounted(w1) by {
      assert forall id :: Lessees(w.tasks, id) == {} && Lessees(w1.tasks, id) == {};
    }
    assert FilesOwned(w1) by {
      assert forall f :: !Reserved(w, f);
      OwnedByEntries(w1);
    }
    ClosingFrame(w1, w.cache.entries.Keys);
  }

  lemma ClosingFrame(w1: World, keys: set<BundleId>)
    requires w1.tasks == map[STOPPER := Reaping(ForClose, keys)] && keys == w1.cache.entries.Keys
    requires w1.stage == Closing && w1.cache.closed && w1.cache.busy
    ensures OneOwner(w1) && StagesOk(w1) && TasksOk(w1)
  {
    assert w1.Requests() == {};
    assert STOPPER in w1.tasks && Owns(w1.tasks[STOPPER]);
  }

  // ----- every step, every run -----

  lemma TaskKeeps(w: World, t: TaskId, io: Io, w1: World)
    requires Inv(w) && t in w.tasks && Runs(w, t, io, w1)
    ensures Inv(w1)
  {
    match w.tasks[t]
    case Preparing(user, tag) => PrepareKeeps(w, t, user, tag, io, w1);
    case Reconciling(user, tag) => ReconcileKeeps(w, t, user, tag, io);
    case Reaping(why, left) => ReapKeeps(w, t, why, left, io);
    case Cleaning(why, id, left) => CleanKeeps(w, t, why, id, left, io);
    case Resolving(user, tag, id) => ResolveKeeps(w, t, user, tag, id, io);
    case Downloading(user, tag, id) => DownloadKeeps(w, t, user, tag, id, io);
    case Releasing(id) => ReleaseKeeps(w, t, id, io);
    case Asking(user, id) => AskKeeps(w, t, user, id, io);
    case Holding(id) => HoldKeeps(w, t, id);
  }

  lemma ResolveKeeps(w: World, t: TaskId, user: User, tag: Tag, id: BundleId, io: Io)
    requires Inv(w) && t in w.tasks && w.tasks[t] == Resolving(user, tag, id)
    ensures Inv(Go(w, t, w.cache, if io.works && !io.cancelled then Downloading(user, tag, id) else Releasing(id)))
  {
    assert TaskOk(w, w.tasks[t]) && (Closes(w.tasks[t]) <==> t == STOPPER);
    OwnerMoves(w, t, if io.works && !io.cancelled then Downloading(user, tag, id) else Releasing(id));
  }

  lemma StepKeeps(w: World, e: Event, w1: World)
    requires Inv(w) && Next(w, e, w1)
    ensures Inv(w1)
  {
    match e
    case TaskRuns(t, io) => TaskKeeps(w, t, io, w1);
    case FileMoves(t, present) => FilesMoveKeeps(w, t, present);
    case _ => OuterStepKeeps(w, e, w1);
  }

  lemma OuterStepKeeps(w: World, e: Event, w1: World)
    requires Inv(w) && Next(w, e, w1) && !e.TaskRuns? && !e.FileMoves?
    ensures Inv(w1)
  {
    if w1 != w {
      match e
      case Arrives(t, task) =>
        ArrivingKeeps(w, t, task);
        assert w1 == w.(tasks := w.tasks[t := task]);
      case TimePasses(_) => TimeKeeps(w, w1);
      case StopAsked =>
        DrainingKeeps(w);
        assert w1 == w.(stage := Draining);
      case DrainEnds => ClosingKeeps(w);
    }
  }

  lemma FreshIsOk(w: World)
    requires Fresh(w)
    ensures Inv(w)
  {
    assert w.Requests() == {};
    assert w.cache.entries.Keys == {};
  }

  lemma RunStep(ws: seq<World>, events: seq<Event>, i: nat)
    requires Run(ws, events) && 0 < i < |ws| && Inv(ws[i - 1])
    ensures Inv(ws[i])
  {
    var w, e, w1 := ws[i - 1], events[i - 1], ws[i - 1 + 1];
    assert Next(w, e, w1);
    StepKeeps(w, e, w1);
  }

  lemma {:induction false} RunKeeps(ws: seq<World>, events: seq<Event>, i: nat)
    requires Run(ws, events) && i < |ws|
    ensures Inv(ws[i])
  {
    if i == 0 {
      FreshIsOk(ws[0]);
    } else {
      RunKeeps(ws, events, i - 1);
      RunStep(ws, events, i);
    }
  }
}
