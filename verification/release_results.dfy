/** The promises of browser release custody, in every run. */
module ReleaseResults {
  import opened Wrappers
  import opened ReleaseCache
  import opened ReleaseRuns
  import opened ReleaseSafety

  /** Once reconciled, at most two files, each an entry's or the one reserved download's
      unless cleanup has failed. */
  lemma {:induction false} FilesBoundedAndOwned(ws: seq<World>, events: seq<Event>, i: nat)
    requires Run(ws, events) && i < |ws| && ws[i].cache.initialized
    ensures |ws[i].files| <= 2
    ensures !ws[i].cache.failed ==> forall f :: f in ws[i].files ==> f in ws[i].cache.entries || Reserved(ws[i], f)
    ensures forall f, g :: Reserved(ws[i], f) && Reserved(ws[i], g) ==> f == g
  {
    RunKeeps(ws, events, i);
    SubsetSize(ws[i].files, ws[i].files + ws[i].cache.entries.Keys);
  }

  /** A file under lease is there. */
  lemma {:induction false} LeasedFilesStay(ws: seq<World>, events: seq<Event>, i: nat, t: TaskId)
    requires Run(ws, events) && i < |ws| && t in ws[i].tasks && ws[i].tasks[t].Holding?
    ensures ws[i].tasks[t].id in ws[i].files
    ensures ws[i].tasks[t].id in ws[i].cache.entries && !ws[i].cache.entries[ws[i].tasks[t].id].retiring
  {
    RunKeeps(ws, events, i);
    HeldMeansCounted(ws[i], t, ws[i].tasks[t].id);
  }

  lemma HeldMeansCounted(w: World, t: TaskId, id: BundleId)
    requires LeasesCounted(w) && t in w.tasks && w.tasks[t] == Holding(id)
    ensures id in w.cache.entries && w.cache.entries[id].leases > 0
  {
    assert t in Lessees(w.tasks, id);
  }

  /** A lease is only ever granted to the bundle's own user, while it is neither expired nor retiring. */
  lemma NewLeaseIsLive(w: World, e: Event, w1: World, id: BundleId)
    requires Next(w, e, w1)
    requires id in w.cache.entries && id in w1.cache.entries && w1.cache.entries[id].leases > w.cache.entries[id].leases
    ensures Live(w.cache.entries[id], w.now)
    ensures e.TaskRuns? && e.t in w.tasks && w.tasks[e.t] == Asking(w.cache.entries[id].user, id)
  {
    match e
    case TaskRuns(t, io) => OnlyAskingLeases(w, t, io, w1, id);
    case Arrives(_, _) =>
    case FileMoves(_, _) =>
    case TimePasses(_) =>
    case StopAsked =>
    case DrainEnds =>
  }

  ghost predicate NoMoreLeases(c: Cache, c1: Cache) {
    forall id :: id in c.entries && id in c1.entries ==> c1.entries[id].leases <= c.entries[id].leases
  }

  lemma OnlyAskingLeases(w: World, t: TaskId, io: Io, w1: World, id: BundleId)
    requires t in w.tasks && Runs(w, t, io, w1)
    requires id in w.cache.entries && id in w1.cache.entries && w1.cache.entries[id].leases > w.cache.entries[id].leases
    ensures Live(w.cache.entries[id], w.now) && w.tasks[t] == Asking(w.cache.entries[id].user, id)
  {
    if !w.tasks[t].Asking? {
      OthersLeaseNothing(w, t, io, w1);
    }
  }

  lemma OthersLeaseNothing(w: World, t: TaskId, io: Io, w1: World)
    requires t in w.tasks && Runs(w, t, io, w1) && !w.tasks[t].Asking?
    ensures NoMoreLeases(w.cache, w1.cache)
  {
    match w.tasks[t]
    case Reaping(why, left) => ReapLeasesNothing(w, t, why, left, io);
    case Preparing(user, tag) => PrepareLeasesNothing(w, t, user, tag, io, w1);
    case Holding(id) => HoldLeasesNothing(w, t, id);
    case _ =>
  }

  lemma PrepareLeasesNothing(w: World, t: TaskId, user: User, tag: Tag, io: Io, w1: World)
    requires PrepareRuns(w, t, user, tag, io, w1)
    ensures w1.cache.entries == w.cache.entries
  {}

  lemma HoldLeasesNothing(w: World, t: TaskId, id: BundleId)
    requires id in w.cache.entries && w.cache.entries[id].leases > 0
    ensures NoMoreLeases(w.cache, HoldRuns(w, t, id).cache)
  {}

  lemma ReapLeasesNothing(w: World, t: TaskId, why: Why, left: set<BundleId>, io: Io)
    ensures NoMoreLeases(w.cache, ReapRuns(w, t, why, left, io).cache)
  {}

  lemma {:induction false} OneLiveBundlePerChoice(ws: seq<World>, events: seq<Event>, i: nat, a: BundleId, b: BundleId)
    requires Run(ws, events) && i < |ws| && a in ws[i].cache.entries && b in ws[i].cache.entries
    requires Live(ws[i].cache.entries[a], ws[i].now) && Live(ws[i].cache.entries[b], ws[i].now)
    requires ws[i].cache.entries[a].user == ws[i].cache.entries[b].user
    requires ws[i].cache.entries[a].tag == ws[i].cache.entries[b].tag
    ensures a == b
  {
    RunKeeps(ws, events, i);
  }

  /** Shutdown drains every admitted request first, so it never meets a busy cache, and
      unless cleanup failed it leaves no entry and no file. */
  lemma {:induction false} StopIsClean(ws: seq<World>, events: seq<Event>, i: nat)
    requires Run(ws, events) && i < |ws|
    ensures ws[i].stage != MetBusy
    ensures ws[i].stage == Stopped && !ws[i].cache.failed ==>
      ws[i].cache.entries == map[] && ws[i].tasks == map[] && (ws[i].cache.initialized ==> ws[i].files == {})
  {
    RunKeeps(ws, events, i);
    var w := ws[i];
    if w.stage == Stopped && !w.cache.failed {
      assert forall t :: t in w.tasks ==> t == STOPPER || t in w.Requests();
      assert w.tasks == map[];
      assert forall f :: !Reserved(w, f);
    }
  }

  /** The flag is never lost: a busy cache has exactly one task that will release it. */
  lemma {:induction false} BusyHasOneOwner(ws: seq<World>, events: seq<Event>, i: nat)
    requires Run(ws, events) && i < |ws|
    ensures ws[i].cache.busy <==> exists t :: t in ws[i].tasks && Owns(ws[i].tasks[t])
    ensures forall t, u :: t in ws[i].tasks && u in ws[i].tasks && Owns(ws[i].tasks[t]) && Owns(ws[i].tasks[u]) ==> t == u
  {
    RunKeeps(ws, events, i);
  }
}
