/** What browser release custody does do: leases and preparations are granted exactly when they
    should be, the reaper passes over nothing it should remove, and a full cache of expired bundles
    makes room. */
module ReleaseLiveness {
  import opened Wrappers
  import opened ReleaseCache
  import opened ReleaseRuns
  import opened ReleaseSafety

  // ----- answers, in literal terms -----

  /** A lease is granted exactly on the user's own unexpired bundle that is not being removed, in a cache
      that neither failed nor closed; otherwise the first thing in the way is named. */
  lemma LeaseAnswers(c: Cache, user: User, id: BundleId, now: int)
    ensures LeaseError(c, user, id, now) ==
      if c.failed then Some(CleanupFailed)
      else if c.closed then Some(Closed)
      else if id in c.entries && c.entries[id].user == user && !c.entries[id].retiring && c.entries[id].expires > now
      then None
      else Some(NotFound)
  {}

  /** The user has an unexpired bundle of that choice. */
  ghost predicate HasBundle(c: Cache, user: User, tag: Tag, now: int) {
    exists id :: id in c.entries && c.entries[id].user == user && c.entries[id].tag == tag
      && !c.entries[id].retiring && c.entries[id].expires > now
  }

  /** A preparation is refused, served from the cache, told to come back, or begun. */
  lemma PrepareAnswers(c: Cache, user: User, tag: Tag, now: int, start: Start, c1: Cache)
    requires PrepareStarts(c, user, tag, now, start, c1)
    ensures
      if c.failed then start == Refused(CleanupFailed) && c1 == c
      else if c.closed then start == Refused(Closed) && c1 == c
      else if HasBundle(c, user, tag, now) then
        && start.Cached? && c1 == c && start.id in c.entries && c.entries[start.id].user == user
        && c.entries[start.id].tag == tag && !c.entries[start.id].retiring && c.entries[start.id].expires > now
      else if c.busy then start == Refused(Busy) && c1 == c
      else start == Begun && c1 == Cache(c.entries, c.initialized, true, c.closed, c.failed)
  {
    assert HasBundle(c, user, tag, now) <==> Served(c, user, tag, now) by {
      if Served(c, user, tag, now) {
        var id :| id in c.entries && Serves(c.entries[id], user, tag, now);
        assert c.entries[id].user == user && !c.entries[id].retiring;
      }
      if HasBundle(c, user, tag, now) {
        var id :| id in c.entries && c.entries[id].user == user && c.entries[id].tag == tag
          && !c.entries[id].retiring && c.entries[id].expires > now;
        assert Serves(c.entries[id], user, tag, now);
      }
    }
  }

  /** A request is admitted while the service is open and fewer than two others are running. */
  lemma AdmissionIs(w: World, t: TaskId, task: Task, w1: World)
    requires Next(w, Arrives(t, task), w1)
    ensures t in w1.tasks <==> w.stage == Open && |w.tasks.Keys - {0}| < 2
  {}

  // ----- the reaper is thorough -----

  predicate Sweeps(task: Task, why: Why) { (task.Reaping? || task.Cleaning?) && task.why == why }

  /** The sweep has yet to decide about `id`. */
  predicate Pending(task: Task, id: BundleId) {
    match task
    case Reaping(_, left) => id in left
    case Cleaning(_, now, left) => id in left || id == now
    case _ => false
  }

  /** The sweep of `t` comes to `id` and rightly leaves it: it is leased, or it has time left in an
      open cache. */
  predicate PassedOver(w: World, e: Event, t: TaskId, id: BundleId) {
    && e.TaskRuns? && e.t == t && e.io.pick == id && id in w.cache.entries
    && (w.cache.entries[id].leases > 0 || (!w.cache.closed && w.cache.entries[id].expires > w.now))
  }

  /** What one stretch of a sweep leaves undecided, or rightly leaves. */
  ghost predicate Accounts(w: World, io: Io, w1: World, t: TaskId, id: BundleId)
    requires t in w.tasks && t in w1.tasks
  {
    && (id in w1.cache.entries ==> id in w.cache.entries)
    && (id in w1.cache.entries && Pending(w.tasks[t], id) ==>
          Pending(w1.tasks[t], id) || PassedOver(w, TaskRuns(t, io), t, id))
  }

  lemma ReapAccounts(w: World, t: TaskId, why: Why, left: set<BundleId>, io: Io, id: BundleId)
    requires t in w.tasks && w.tasks[t] == Reaping(why, left) && left <= w.cache.entries.Keys
    requires var w1 := ReapRuns(w, t, why, left, io); t in w1.tasks && Sweeps(w1.tasks[t], why)
    ensures Accounts(w, io, ReapRuns(w, t, why, left, io), t, id)
  {}

  lemma CleanAccounts(w: World, t: TaskId, why: Why, now: BundleId, left: set<BundleId>, io: Io, id: BundleId)
    requires t in w.tasks && w.tasks[t] == Cleaning(why, now, left)
    requires var w1 := CleanRuns(w, t, why, now, left, io); t in w1.tasks && Sweeps(w1.tasks[t], why)
    ensures Accounts(w, io, CleanRuns(w, t, why, now, left, io), t, id)
  {}

  lemma OwnSweepStep(w: World, io: Io, w1: World, t: TaskId, why: Why)
    requires Inv(w) && t in w.tasks && Sweeps(w.tasks[t], why) && Runs(w, t, io, w1)
    requires t in w1.tasks && Sweeps(w1.tasks[t], why)
    ensures forall id :: Accounts(w, io, w1, t, id)
  {
    assert TaskOk(w, w.tasks[t]);
    forall id ensures Accounts(w, io, w1, t, id) {
      match w.tasks[t]
      case Reaping(_, left) => ReapAccounts(w, t, why, left, io, id);
      case Cleaning(_, now, left) => CleanAccounts(w, t, why, now, left, io, id);
    }
  }

  /** While the cache is busy a task that is not its owner adds no entry. */
  lemma PreparingBystander(w: World, u: TaskId, user: User, tag: Tag, io: Io, w1: World)
    requires w.cache.busy && PrepareRuns(w, u, user, tag, io, w1)
    ensures w1.cache.entries == w.cache.entries && w1.tasks == w.tasks - {u}
  {}

  lemma HoldingBystander(w: World, u: TaskId, id: BundleId)
    requires w.cache.busy && id in w.cache.entries && w.cache.entries[id].leases > 0
    ensures var w1 := HoldRuns(w, u, id); w1.cache.entries.Keys == w.cache.entries.Keys && w1.tasks == w.tasks - {u}
  {}

  lemma AskingBystander(w: World, u: TaskId, user: User, id: BundleId, io: Io)
    ensures var w1 := AskRuns(w, u, user, id, io);
      w1.cache.entries.Keys == w.cache.entries.Keys && w1.tasks - {u} == w.tasks - {u}
  {}

  lemma BystanderStep(w: World, u: TaskId, io: Io, w1: World, t: TaskId)
    requires Inv(w) && u in w.tasks && t in w.tasks && u != t && Owns(w.tasks[t]) && Runs(w, u, io, w1)
    ensures w1.cache.entries.Keys == w.cache.entries.Keys && t in w1.tasks && w1.tasks[t] == w.tasks[t]
  {
    assert w.cache.busy && !Owns(w.tasks[u]) by { assert OneOwner(w); }
    match w.tasks[u]
    case Preparing(user, tag) => PreparingBystander(w, u, user, tag, io, w1);
    case Asking(user, id) =>
      AskingBystander(w, u, user, id, io);
      assert t in w1.tasks - {u};
    case Holding(id) => HoldingBystander(w, u, id);
  }

  /** Events that are nobody's stretch leave the sweep and the entries alone. */
  lemma OuterStep(w: World, e: Event, w1: World, t: TaskId)
    requires Inv(w) && Next(w, e, w1) && !e.TaskRuns? && t in w.tasks && Owns(w.tasks[t])
    ensures w1.cache.entries == w.cache.entries && t in w1.tasks && w1.tasks[t] == w.tasks[t]
  {}

  /** Nothing is added while a sweep goes on, and an entry is passed only when it may be. */
  ghost predicate StepAccounts(w: World, e: Event, w1: World, t: TaskId, id: BundleId)
    requires t in w.tasks && t in w1.tasks
  {
    && (id in w1.cache.entries ==> id in w.cache.entries)
    && (id in w1.cache.entries && Pending(w.tasks[t], id) ==> Pending(w1.tasks[t], id) || PassedOver(w, e, t, id))
  }

  lemma SweepStep(w: World, e: Event, w1: World, t: TaskId, why: Why, id: BundleId)
    requires Inv(w) && Next(w, e, w1) && t in w.tasks && Sweeps(w.tasks[t], why)
    requires t in w1.tasks && Sweeps(w1.tasks[t], why)
    ensures StepAccounts(w, e, w1, t, id)
  {
    if !e.TaskRuns? {
      OuterStep(w, e, w1, t);
    } else if e.t == t {
      OwnSweepStep(w, e.io, w1, t, why);
      assert Accounts(w, e.io, w1, t, id);
    } else {
      BystanderStep(w, e.t, e.io, w1, t);
      assert id in w1.cache.entries.Keys <==> id in w.cache.entries.Keys;
    }
  }

  lemma EveryStepKeeps(ws: seq<World>, events: seq<Event>, i: nat)
    requires Run(ws, events) && i < |events|
    ensures Inv(ws[i]) && Next(ws[i], events[i], ws[i + 1])
  {
    RunKeeps(ws, events, i);
  }

  /** In every run: when a sweep has come to its end, whatever is still there was, when the sweep came
      to it, leased or not yet expired. */
  lemma {:induction false} SweepIsThorough(ws: seq<World>, events: seq<Event>, i: nat, j: nat, t: TaskId, why: Why,
                                           id: BundleId)
    requires Run(ws, events) && i <= j < |ws|
    requires forall k :: i <= k <= j ==> t in ws[k].tasks && Sweeps(ws[k].tasks[t], why)
    requires id in ws[j].cache.entries && Pending(ws[i].tasks[t], id) && !Pending(ws[j].tasks[t], id)
    ensures exists k :: i <= k < j && PassedOver(ws[k], events[k], t, id)
    decreases j - i
  {
    if i < j {
      EntryWasThere(ws, events, i + 1, j, t, why, id);
      EveryStepKeeps(ws, events, i);
      SweepStep(ws[i], events[i], ws[i + 1], t, why, id);
      if Pending(ws[i + 1].tasks[t], id) {
        SweepIsThorough(ws, events, i + 1, j, t, why, id);
        var k :| i + 1 <= k < j && PassedOver(ws[k], events[k], t, id);
        assert i <= k < j && PassedOver(ws[k], events[k], t, id);
      } else {
        assert PassedOver(ws[i], events[i], t, id);
      }
    }
  }

  lemma {:induction false} EntryWasThere(ws: seq<World>, events: seq<Event>, i: nat, j: nat, t: TaskId, why: Why,
                                         id: BundleId)
    requires Run(ws, events) && i <= j < |ws| && id in ws[j].cache.entries
    requires forall k :: i <= k <= j ==> t in ws[k].tasks && Sweeps(ws[k].tasks[t], why)
    ensures id in ws[i].cache.entries
    decreases j - i
  {
    if i < j {
      EntryWasThere(ws, events, i + 1, j, t, why, id);
      EveryStepKeeps(ws, events, i);
      SweepStep(ws[i], events[i], ws[i + 1], t, why, id);
    }
  }

  /** So a sweep that began with all entries before it leaves, at its end, none it should have removed. */
  lemma {:induction false} NothingStaleSurvives(ws: seq<World>, events: seq<Event>, i: nat, j: nat, t: TaskId, why: Why,
                                                id: BundleId)
    requires Run(ws, events) && i <= j < |ws|
    requires forall k :: i <= k <= j ==> t in ws[k].tasks && Sweeps(ws[k].tasks[t], why)
    requires ws[i].tasks[t] == Reaping(why, ws[i].cache.entries.Keys) && ws[j].tasks[t] == Reaping(why, {})
    requires id in ws[j].cache.entries
    ensures exists k :: i <= k < j && PassedOver(ws[k], events[k], t, id)
  {
    EntryWasThere(ws, events, i, j, t, why, id);
    SweepIsThorough(ws, events, i, j, t, why, id);
  }

  // ----- a preparation left alone -----

  /** A stretch of task `t` after another, nothing else happening. */
  ghost predicate Alone(ws: seq<World>, events: seq<Event>, t: TaskId) {
    && |ws| == |events| + 1
    && forall i {:trigger events[i]} :: 0 <= i < |events| ==>
         events[i].TaskRuns? && events[i].t == t && Next(ws[i], events[i], ws[i + 1])
  }

  /** `w2` is where the task comes from `w` when it is left alone. */
  ghost predicate Comes(w: World, t: TaskId, w2: World) {
    exists ws, events :: Alone(ws, events, t) && ws[0] == w && ws[|events|] == w2
  }

  lemma ComesNow(w: World, t: TaskId)
    ensures Comes(w, t, w)
  {
    assert Alone([w], [], t);
  }

  lemma ComesFirst(w: World, t: TaskId, io: Io, w1: World, w2: World)
    requires t in w.tasks && Runs(w, t, io, w1) && Comes(w1, t, w2)
    ensures Comes(w, t, w2)
  {
    var ws, events :| Alone(ws, events, t) && ws[0] == w1 && ws[|events|] == w2;
    var more, es := [w] + ws, [TaskRuns(t, io)] + events;
    forall i {:trigger es[i]} | 0 <= i < |es|
      ensures es[i].TaskRuns? && es[i].t == t && Next(more[i], es[i], more[i + 1])
    {
      if i > 0 { assert es[i] == events[i - 1] && more[i] == ws[i - 1]; }
    }
    assert Alone(more, es, t);
    assert more[|es|] == w2;
  }

  /** Everything works and nobody cancels. */
  predicate Good(io: Io) { io.works && !io.cancelled }

  /** An entry that should go. */
  predicate Stale(c: Cache, e: Entry, now: int) { e.leases == 0 && (c.closed || e.expires <= now) }

  /** The cache without those of `left` that should go. */
  function Swept(c: Cache, left: set<BundleId>, now: int): Cache {
    c.(entries := map id | id in c.entries && !(id in left && Stale(c, c.entries[id], now)) :: c.entries[id])
  }

  ghost predicate SweptTo(w: World, t: TaskId, why: Why, left: set<BundleId>, w2: World) {
    && w2.cache == Swept(w.cache, left, w.now) && w2.tasks == w.tasks[t := Reaping(why, {})]
    && w2.stage == w.stage && w2.now == w.now
  }

  lemma StaleSwept(c: Cache, left: set<BundleId>, id: BundleId, now: int)
    requires id in left && id in c.entries && Stale(c, c.entries[id], now)
    ensures Swept(Removed(Retired(c, id), id), left - {id}, now) == Swept(c, left, now)
  {
    var d := Removed(Retired(c, id), id);
    assert d.closed == c.closed && forall k :: k in d.entries <==> k in c.entries && k != id;
    assert Swept(d, left - {id}, now).entries == Swept(c, left, now).entries;
  }

  lemma FreshSwept(c: Cache, left: set<BundleId>, id: BundleId, now: int)
    requires id in left && id in c.entries && !Stale(c, c.entries[id], now)
    ensures Swept(c, left - {id}, now) == Swept(c, left, now)
  {
    assert Swept(c, left - {id}, now).entries == Swept(c, left, now).entries;
  }

  /** Left alone, with every clean-up working, a sweep ends having removed just what should go. */
  lemma {:induction false} SweepEnds(w: World, t: TaskId, why: Why, left: set<BundleId>) returns (w2: World)
    requires t in w.tasks && w.tasks[t] == Reaping(why, left) && left <= w.cache.entries.Keys
    ensures Comes(w, t, w2) && SweptTo(w, t, why, left, w2)
    decreases left
  {
    if left == {} {
      w2 := w;
      ComesNow(w, t);
      assert Swept(w.cache, {}, w.now).entries == w.cache.entries;
      assert w.tasks[t := Reaping(why, {})] == w.tasks;
    } else {
      var id :| id in left;
      if Stale(w.cache, w.cache.entries[id], w.now) {
        StaleSwept(w.cache, left, id, w.now);
        w2 := StaleEntryGoes(w, t, why, left, id);
      } else {
        FreshSwept(w.cache, left, id, w.now);
        w2 := FreshEntryStays(w, t, why, left, id);
      }
    }
  }

  lemma {:induction false} FreshEntryStays(w: World, t: TaskId, why: Why, left: set<BundleId>, id: BundleId)
      returns (w2: World)
    requires t in w.tasks && w.tasks[t] == Reaping(why, left) && left <= w.cache.entries.Keys && id in left
    requires !Stale(w.cache, w.cache.entries[id], w.now)
    requires Swept(w.cache, left - {id}, w.now) == Swept(w.cache, left, w.now)
    ensures Comes(w, t, w2) && SweptTo(w, t, why, left, w2)
    decreases left, 0
  {
    var io := Io(true, false, id, 0, {}, Begun);
    var a := Go(w, t, w.cache, Reaping(why, left - {id}));
    assert Runs(w, t, io, a);
    w2 := SweepEnds(a, t, why, left - {id});
    ComesFirst(w, t, io, a, w2);
  }

  lemma {:induction false} StaleEntryGoes(w: World, t: TaskId, why: Why, left: set<BundleId>, id: BundleId)
      returns (w2: World)
    requires t in w.tasks && w.tasks[t] == Reaping(why, left) && left <= w.cache.entries.Keys && id in left
    requires Stale(w.cache, w.cache.entries[id], w.now)
    requires Swept(Removed(Retired(w.cache, id), id), left - {id}, w.now) == Swept(w.cache, left, w.now)
    ensures Comes(w, t, w2) && SweptTo(w, t, why, left, w2)
    decreases left, 0
  {
    var io := Io(true, false, id, 0, {}, Begun);
    var a := Go(w, t, Retired(w.cache, id), Cleaning(why, id, left - {id}));
    assert Runs(w, t, io, a);
    var b := Go(a, t, Removed(a.cache, id), Reaping(why, left - {id})).(files := a.files - {id});
    assert Runs(a, t, io, b);
    assert left - {id} <= b.cache.entries.Keys;
    w2 := SweepEnds(b, t, why, left - {id});
    ComesFirst(a, t, io, b, w2);
    ComesFirst(w, t, io, a, w2);
    assert b.tasks[t := Reaping(why, {})] == w.tasks[t := Reaping(why, {})];
  }

  /** A cache that can take a preparation on. */
  ghost predicate Idle(w: World, t: TaskId, user: User, tag: Tag) {
    && t in w.tasks && w.tasks[t] == Preparing(user, tag) && !w.cache.failed && !w.cache.closed && !w.cache.busy
    && !HasBundle(w.cache, user, tag, w.now)
  }

  /** What the cache keeps: leased, or not yet expired. */
  function Keeping(c: Cache, now: int): map<BundleId, Entry> {
    map id | id in c.entries && (c.entries[id].leases > 0 || c.entries[id].expires > now) :: c.entries[id]
  }

  /** Left alone, a preparation removes what is expired and unleased, and goes on to its release if fewer
      than two bundles are kept; otherwise it gives the cache free again. */
  lemma PrepareComes(w: World, t: TaskId, user: User, tag: Tag, token: BundleId) returns (w2: World)
    requires Idle(w, t, user, tag) && token !in w.cache.entries
    ensures Comes(w, t, w2) && w2.cache.entries == Keeping(w.cache, w.now) && w2.cache.initialized
    ensures !w2.cache.failed && !w2.cache.closed && w2.now == w.now && w2.stage == w.stage
    ensures if |Keeping(w.cache, w.now)| < 2
            then w2.tasks == w.tasks[t := Resolving(user, tag, token)] && w2.cache.busy
            else w2.tasks == w.tasks - {t} && !w2.cache.busy
  {
    var io := Io(true, false, 0, token, {}, Begun);
    var c := w.cache.(busy := true);
    PrepareBegins(w, user, tag);
    if w.cache.initialized {
      var a := Go(w, t, c, Reaping(ForPrepare(user, tag), c.entries.Keys));
      assert Runs(w, t, io, a);
      w2 := ReapingComes(a, t, user, tag, token);
      ComesFirst(w, t, io, a, w2);
    } else {
      var r := Go(w, t, c, Reconciling(user, tag));
      assert Runs(w, t, io, r);
      var a := Go(r, t, Reconciled(r.cache), Reaping(ForPrepare(user, tag), r.cache.entries.Keys)).(files := {});
      assert Runs(r, t, io, a);
      w2 := ReapingComes(a, t, user, tag, token);
      ComesFirst(r, t, io, a, w2);
      ComesFirst(w, t, io, r, w2);
    }
  }

  lemma PrepareBegins(w: World, user: User, tag: Tag)
    requires !w.cache.failed && !w.cache.closed && !w.cache.busy && !HasBundle(w.cache, user, tag, w.now)
    ensures PrepareStarts(w.cache, user, tag, w.now, Begun, w.cache.(busy := true))
  {}

  lemma ReapingComes(w: World, t: TaskId, user: User, tag: Tag, token: BundleId) returns (w2: World)
    requires t in w.tasks && w.tasks[t] == Reaping(ForPrepare(user, tag), w.cache.entries.Keys)
    requires !w.cache.closed && token !in w.cache.entries && w.cache.busy
    ensures Comes(w, t, w2) && w2.cache.entries == Keeping(w.cache, w.now)
    ensures w2.cache.initialized == w.cache.initialized && w2.cache.failed == w.cache.failed && !w2.cache.closed
    ensures w2.now == w.now && w2.stage == w.stage
    ensures if |Keeping(w.cache, w.now)| < 2
            then w2.tasks == w.tasks[t := Resolving(user, tag, token)] && w2.cache.busy
            else w2.tasks == w.tasks - {t} && !w2.cache.busy
  {
    var a := SweepEnds(w, t, ForPrepare(user, tag), w.cache.entries.Keys);
    assert Swept(w.cache, w.cache.entries.Keys, w.now).entries == Keeping(w.cache, w.now);
    var io := Io(true, false, 0, token, {}, Begun);
    w2 := ReapEnds(a, t, ForPrepare(user, tag), io);
    assert Runs(a, t, io, w2);
    ComesNow(w2, t);
    ComesFirst(a, t, io, w2, w2);
    ComesOn(w, t, a, w2);
  }

  lemma {:induction false} ComesOn(w: World, t: TaskId, a: World, w2: World)
    requires Comes(w, t, a) && Comes(a, t, w2)
    ensures Comes(w, t, w2)
  {
    var ws, events :| Alone(ws, events, t) && ws[0] == w && ws[|events|] == a;
    ComesAlong(ws, events, t, w2, 0);
  }

  lemma {:induction false} ComesAlong(ws: seq<World>, events: seq<Event>, t: TaskId, w2: World, i: nat)
    requires Alone(ws, events, t) && i <= |events| && Comes(ws[|events|], t, w2)
    ensures Comes(ws[i], t, w2)
    decreases |events| - i
  {
    if i < |events| {
      ComesAlong(ws, events, t, w2, i + 1);
      assert events[i].TaskRuns? && Next(ws[i], events[i], ws[i + 1]);
      ComesFirst(ws[i], t, events[i].io, ws[i + 1], w2);
    }
  }

  /** A cache full of expired, unleased bundles makes room: the preparation reaches its release. */
  lemma FullCacheMakesRoom(w: World, t: TaskId, user: User, tag: Tag, token: BundleId) returns (w2: World)
    requires t in w.tasks && w.tasks[t] == Preparing(user, tag)
    requires !w.cache.failed && !w.cache.closed && !w.cache.busy && token !in w.cache.entries
    requires forall id :: id in w.cache.entries ==>
      w.cache.entries[id].leases == 0 && w.cache.entries[id].expires <= w.now
    ensures Comes(w, t, w2) && w2.cache.entries == map[] && w2.tasks == w.tasks[t := Resolving(user, tag, token)]
  {
    assert !HasBundle(w.cache, user, tag, w.now);
    w2 := PrepareComes(w, t, user, tag, token);
    assert Keeping(w.cache, w.now) == map[];
  }

  /** Shutdown, its clean-ups working, leaves no entry and is over. */
  lemma ShutdownEnds(w: World, t: TaskId) returns (w2: World)
    requires t in w.tasks && w.tasks[t] == Reaping(ForClose, w.cache.entries.Keys) && w.cache.closed
    requires forall id :: id in w.cache.entries ==> w.cache.entries[id].leases == 0
    ensures Comes(w, t, w2) && w2.cache.entries == map[] && w2.tasks == w.tasks - {t} && w2.stage == Stopped
  {
    var a := SweepEnds(w, t, ForClose, w.cache.entries.Keys);
    assert Swept(w.cache, w.cache.entries.Keys, w.now).entries == map[];
    var io := Io(true, false, 0, 0, {}, Begun);
    w2 := ReapEnds(a, t, ForClose, io);
    assert Runs(a, t, io, w2);
    ComesNow(w2, t);
    ComesFirst(a, t, io, w2, w2);
    ComesOn(w, t, a, w2);
  }

  /** A clean-up that fails ends its request, poisons the cache for good and gives it free with all entries
      kept; shutdown is over all the same. */
  lemma FailedCleanupEnds(w: World, t: TaskId, why: Why, id: BundleId, left: set<BundleId>, io: Io, w1: World)
    requires t in w.tasks && w.tasks[t] == Cleaning(why, id, left) && !io.works && Runs(w, t, io, w1)
    ensures w1.tasks == w.tasks - {t}
    ensures w1.cache == Cache(w.cache.entries, w.cache.initialized, false, w.cache.closed, true)
    ensures w1.stage == (if why == ForClose then Stopped else w.stage) && w1.files == w.files
    ensures forall user, k, now :: LeaseError(w1.cache, user, k, now) == Some(CleanupFailed)
  {}

  /** And from its release to a bundle of fifteen minutes, the cache free again. */
  lemma ReleaseIsStored(w: World, t: TaskId, user: User, tag: Tag, id: BundleId) returns (w2: World)
    requires t in w.tasks && w.tasks[t] == Resolving(user, tag, id)
    ensures Comes(w, t, w2) && w2.tasks == w.tasks - {t} && !w2.cache.busy && w2.files == w.files + {id}
    ensures w2.cache.entries == w.cache.entries[id := Entry(user, tag, w.now + 15 * 60, 0, false)]
  {
    var io := Io(true, false, 0, 0, {}, Begun);
    var a := Go(w, t, w.cache, Downloading(user, tag, id));
    assert Runs(w, t, io, a);
    w2 := DownloadRuns(a, t, user, tag, id, io);
    assert Runs(a, t, io, w2);
    assert a.tasks - {t} == w.tasks - {t};
    ComesNow(w2, t);
    ComesFirst(a, t, io, w2, w2);
    ComesFirst(w, t, io, a, w2);
  }

  /** A lease is taken, counted, and given back; who gives it back sweeps if nobody else is at it. */
  lemma LeaseIsHeld(w: World, t: TaskId, user: User, id: BundleId) returns (w1: World, w2: World)
    requires t in w.tasks && w.tasks[t] == Asking(user, id) && !w.cache.failed && !w.cache.closed
    requires id in w.cache.entries && w.cache.entries[id].user == user && !w.cache.entries[id].retiring
    requires w.cache.entries[id].expires > w.now
    ensures Comes(w, t, w1) && w1.tasks == w.tasks[t := Holding(id)]
    ensures w1.cache.entries == w.cache.entries[id := w.cache.entries[id].(leases := w.cache.entries[id].leases + 1)]
    ensures Comes(w1, t, w2) && w2.cache.entries == w.cache.entries && w2.cache.busy
    ensures w2.tasks == if w.cache.busy then w.tasks - {t} else w.tasks[t := Reaping(ForLease, w.cache.entries.Keys)]
  {
    var io := Io(true, false, 0, 0, {}, Begun);
    w1 := Go(w, t, Leased(w.cache, id), Holding(id));
    assert Runs(w, t, io, w1);
    ComesNow(w1, t);
    ComesFirst(w, t, io, w1, w1);
    w2 := HoldRuns(w1, t, id);
    assert Runs(w1, t, io, w2);
    ComesNow(w2, t);
    ComesFirst(w1, t, io, w2, w2);
    assert w2.cache.entries == w.cache.entries;
    assert w1.tasks - {t} == w.tasks - {t};
  }
}
