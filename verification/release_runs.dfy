/** Every interleaving of browser requests, expiry, cancellation and shutdown over one cache.

    A task stands at an await; `Run` takes it to its next one. Cancellation may end any
    await; cleanup and reaping are drained, so there it only shows once they are over. */
module ReleaseRuns {
  import opened Wrappers
  import opened ReleaseCache

  type TaskId = nat
  const STOPPER: TaskId := 0

  /** On whose behalf the reaper runs. */
  datatype Why = ForPrepare(user: User, tag: Tag) | ForLease | ForClose

  datatype Task =
    | Preparing(user: User, tag: Tag)
    | Reconciling(user: User, tag: Tag)
    | Reaping(why: Why, left: set<BundleId>)
    | Cleaning(why: Why, id: BundleId, left: set<BundleId>)
    | Resolving(user: User, tag: Tag, id: BundleId)
    | Downloading(user: User, tag: Tag, id: BundleId)
    | Releasing(id: BundleId)
    | Asking(user: User, id: BundleId)
    | Holding(id: BundleId)

  datatype Stage = Open | Draining | Closing | Stopped | MetBusy

  datatype World = World(cache: Cache, files: set<BundleId>, tasks: map<TaskId, Task>, stage: Stage, now: int)
  {
    function Requests(): set<TaskId> { tasks.Keys - {STOPPER} }
  }

  /** How an await ends, and the choices left to the environment. */
  datatype Io = Io(works: bool, cancelled: bool, pick: BundleId, token: BundleId, kept: set<BundleId>, start: Start)

  function Go(w: World, t: TaskId, c: Cache, task: Task): World {
    w.(cache := c, tasks := w.tasks[t := task])
  }

  function End(w: World, t: TaskId, c: Cache): World {
    w.(cache := c, tasks := w.tasks - {t})
  }

  // ----- one stretch of a task -----

  ghost predicate PrepareRuns(w: World, t: TaskId, user: User, tag: Tag, io: Io, w1: World) {
    if io.cancelled then w1 == End(w, t, w.cache)
    else
      exists c1 :: PrepareStarts(w.cache, user, tag, w.now, io.start, c1)
        && w1 == if io.start != Begun then End(w, t, c1)
                 else if c1.initialized then Go(w, t, c1, Reaping(ForPrepare(user, tag), c1.entries.Keys))
                 else Go(w, t, c1, Reconciling(user, tag))
  }

  function ReconcileRuns(w: World, t: TaskId, user: User, tag: Tag, io: Io): World {
    if !io.works then End(w, t, Freed(Failed(w.cache))).(files := w.files * io.kept)
    else if io.cancelled then End(w, t, Freed(w.cache)).(files := {})
    else Go(w, t, Reconciled(w.cache), Reaping(ForPrepare(user, tag), w.cache.entries.Keys)).(files := {})
  }

  /** The reaper takes one entry of its snapshot, or is through. */
  function ReapRuns(w: World, t: TaskId, why: Why, left: set<BundleId>, io: Io): World {
    if left == {} then ReapEnds(w, t, why, io)
    else if io.pick !in left || io.pick !in w.cache.entries then w
    else if Reapable(w.cache, w.cache.entries[io.pick], w.now)
    then Go(w, t, Retired(w.cache, io.pick), Cleaning(why, io.pick, left - {io.pick}))
    else Go(w, t, w.cache, Reaping(why, left - {io.pick}))
  }

  function ReapEnds(w: World, t: TaskId, why: Why, io: Io): World {
    match why
    case ForPrepare(user, tag) =>
      if io.cancelled || !HasRoom(w.cache) then End(w, t, Freed(w.cache))
      else if io.token in w.cache.entries then w
      else Go(w, t, w.cache, Resolving(user, tag, io.token))
    case ForLease => End(w, t, Freed(w.cache))
    case ForClose => End(w, t, Freed(w.cache)).(stage := Stopped)
  }

  function CleanRuns(w: World, t: TaskId, why: Why, id: BundleId, left: set<BundleId>, io: Io): World {
    if io.works then Go(w, t, Removed(w.cache, id), Reaping(why, left)).(files := w.files - {id})
    else End(w, t, Freed(Failed(w.cache))).(stage := if why.ForClose? then Stopped else w.stage)
  }

  function DownloadRuns(w: World, t: TaskId, user: User, tag: Tag, id: BundleId, io: Io): World {
    if io.works && !io.cancelled
    then End(w, t, Stored(w.cache, id, user, tag, w.now)).(files := w.files + {id})
    else Go(w, t, w.cache, Releasing(id))
  }

  function ReleaseRun(w: World, t: TaskId, id: BundleId, io: Io): World {
    if io.works then End(w, t, Freed(Removed(w.cache, id))).(files := w.files - {id})
    else End(w, t, Freed(Failed(w.cache)))
  }

  function AskRuns(w: World, t: TaskId, user: User, id: BundleId, io: Io): World {
    if io.cancelled || LeaseError(w.cache, user, id, w.now).Some? then End(w, t, w.cache)
    else Go(w, t, Leased(w.cache, id), Holding(id))
  }

  function HoldRuns(w: World, t: TaskId, id: BundleId): World
    requires id in w.cache.entries && w.cache.entries[id].leases > 0
  {
    var c := Returned(w.cache, id);
    if c.busy then End(w, t, c) else Go(w, t, c.(busy := true), Reaping(ForLease, c.entries.Keys))
  }

  ghost predicate Runs(w: World, t: TaskId, io: Io, w1: World)
    requires t in w.tasks
  {
    match w.tasks[t]
    case Preparing(user, tag) => PrepareRuns(w, t, user, tag, io, w1)
    case Reconciling(user, tag) => w1 == ReconcileRuns(w, t, user, tag, io)
    case Reaping(why, left) => w1 == ReapRuns(w, t, why, left, io)
    case Cleaning(why, id, left) => w1 == CleanRuns(w, t, why, id, left, io)
    case Resolving(user, tag, id) =>
      w1 == Go(w, t, w.cache, if io.works && !io.cancelled then Downloading(user, tag, id) else Releasing(id))
    case Downloading(user, tag, id) => w1 == DownloadRuns(w, t, user, tag, id, io)
    case Releasing(id) => w1 == ReleaseRun(w, t, id, io)
    case Asking(user, id) => w1 == AskRuns(w, t, user, id, io)
    case Holding(id) => id in w.cache.entries && w.cache.entries[id].leases > 0 && w1 == HoldRuns(w, t, id)
  }

  // ----- events -----

  datatype Event =
    | Arrives(t: TaskId, task: Task)
    | TaskRuns(t: TaskId, io: Io)
    | FileMoves(t: TaskId, present: bool)   // a download or a cleanup touches its own file
    | TimePasses(seconds: nat)
    | StopAsked
    | DrainEnds                              // every admitted request is over: close the cache

  predicate Admits(w: World) { w.stage == Open && |w.Requests()| < 2 }

  /** The file an await works on, and whether it may appear as well as vanish. */
  function Touches(task: Task): Option<BundleId> {
    match task
    case Cleaning(_, id, _) => Some(id)
    case Downloading(_, _, id) => Some(id)
    case Releasing(id) => Some(id)
    case _ => None
  }

  ghost predicate Next(w: World, e: Event, w1: World) {
    match e
    case Arrives(t, task) =>
      (task.Preparing? || task.Asking?) && t != STOPPER && t !in w.tasks
      && w1 == if Admits(w) then w.(tasks := w.tasks[t := task]) else w
    case TaskRuns(t, io) => t in w.tasks && Runs(w, t, io, w1)
    case FileMoves(t, present) =>
      t in w.tasks && Touches(w.tasks[t]).Some?
      && (present ==> w.tasks[t].Downloading?)
      && w1 == w.(files := if present then w.files + {Touches(w.tasks[t]).value} else w.files - {Touches(w.tasks[t]).value})
    case TimePasses(seconds) => w1 == w.(now := w.now + seconds)
    case StopAsked => w1 == if w.stage == Open then w.(stage := Draining) else w
    case DrainEnds =>
      w.stage == Draining && w.Requests() == {}
      && w1 == if w.cache.busy then w.(stage := MetBusy)
               else Go(w, STOPPER, w.cache.(closed := true, busy := true), Reaping(ForClose, w.cache.entries.Keys)).(stage := Closing)
  }

  /** A fresh process: nothing prepared; any files are an earlier process's. */
  ghost predicate Fresh(w: World) {
    w.cache == NEW_CACHE && w.tasks == map[] && w.stage == Open
  }

  ghost predicate Run(ws: seq<World>, events: seq<Event>) {
    && |ws| == |events| + 1 && Fresh(ws[0])
    && forall i {:trigger events[i]} :: 0 <= i < |events| ==> Next(ws[i], events[i], ws[i + 1])
  }
}
