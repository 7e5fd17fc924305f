/** Nothing going wrong, a job succeeds: pushed, installed, launched and found healthy, from a fresh
    approval and from every phase a process may have been lost in that is safe to resume. The safety
    results are not bought by doing nothing. */
module InstallSmooth {
  import opened Wrappers
  import opened Receipts
  import opened ReceiptAnswers
  import opened InstallProtocol
  import opened InstallSafety

  // ----- a worker left alone -----

  function Tick(w: World, io: Io): World { Step(w, WorkerTurn(io)) }

  function Work(w: World, io: Io, n: nat): World
    decreases n
  {
    if n == 0 then w else Tick(Work(w, io, n - 1), io)
  }

  lemma {:induction false} WorkFirst(w: World, io: Io, n: nat)
    ensures Work(w, io, n + 1) == Work(Tick(w, io), io, n)
    decreases n
  {
    if n > 0 {
      WorkFirst(w, io, n - 1);
    } else {
      assert Work(w, io, 1) == Tick(Work(w, io, 0), io);
    }
  }

  /** A worker left alone is a run like any other. */
  lemma {:induction false} WorkIsARun(w: World, io: Io, n: nat)
    ensures Work(w, io, n) == After(w, seq(n, i => WorkerTurn(io)))
    decreases n
  {
    if n > 0 {
      WorkIsARun(w, io, n - 1);
      var events := seq(n, i => WorkerTurn(io));
      assert events[..n - 1] == seq(n - 1, i => WorkerTurn(io));
    }
  }

  lemma TickKeeps(w: World, io: Io)
    requires Inv(w)
    ensures Inv(Tick(w, io))
  {
    StepKeeps(w, WorkerTurn(io));
  }

  /** Clean-up and saving work, at a time the receipt can record. */
  predicate Works(io: Io, r: Receipt) {
    io.save.Saved? && !io.prunedAtOnce && io.cleaned && r.createdAt <= io.now
  }

  /** The worker is at `pc`, the receipt `r` stored and claimed. */
  ghost predicate Holds(w: World, io: Io, r: Receipt, pc: Pc) {
    && Inv(w) && Lawful(r) && w.disk == Some(r) && w.claim == Some(r.executorGeneration)
    && w.worker.At? && w.worker.pc == pc && Works(io, r)
  }

  // ----- success -----

  /** Every await returns its good outcome, at a time the receipt can record. */
  predicate Smooth(io: Io, r: Receipt) {
    && io.ok && io.save.Saved? && !io.prunedAtOnce && io.cleaned && io.download.Delivered?
    && io.push.Pushed? && io.install.Installs? && io.launch.Started? && io.erase.Erased?
    && r.createdAt <= io.healthAt <= io.now
  }

  /** Pushed, installed and launched once each and found healthy, nothing left behind and nothing barred. */
  ghost predicate Succeeded(t: World) {
    && t.disk.Some? && t.disk.value.phase == HealthyUnclaimed && t.worker.Idle? && !t.halted
    && t.site.pushes == 1 && t.site.installs == 1 && t.site.launches == 1 && !t.site.unclear
    && t.site.custody == NO_FILES && t.site.slot != Mine
  }

  ghost predicate Succeeds(w: World, io: Io) {
    exists n: nat :: Succeeded(Work(w, io, n))
  }

  lemma SucceedsSooner(w: World, io: Io)
    requires Succeeds(Tick(w, io), io)
    ensures Succeeds(w, io)
  {
    var n: nat :| Succeeded(Work(Tick(w, io), io, n));
    WorkFirst(w, io, n);
    assert Succeeded(Work(w, io, n + 1));
  }

  /** The job is on its way, the worker at `pc`. Until the push the panel's slot is free. */
  ghost predicate OnWay(w: World, io: Io, r: Receipt, pc: Pc) {
    && Holds(w, io, r, pc) && Smooth(io, r) && !r.cancelRequested && !w.halted && 1 <= r.artifact.apkSize <= 67108864
    && (Rank(r.phase) <= 5 || (r.phase == Staging && !w.worker.staged) ==> w.site.slot == Empty)
  }

  /** One phase on: the compare-and-swap lands, and the worker goes on with what it wrote. */
  lemma MovesOn(w: World, io: Io, r: Receipt, phase: Phase, f: Facts)
    requires OnWay(w, io, r, Moving(r, phase, f)) && ForwardEdge(r, phase, f, io.now) && Rank(r.phase) <= 10
    ensures var t := Tick(w, io);
      var next := Moved(r, phase, f, io.now);
      && Inv(t) && Lawful(next) && Smooth(io, next) && !next.cancelRequested && next.phase == phase
      && next.artifact == r.artifact && next.executorGeneration == r.executorGeneration
      && t.disk == Some(next) && t.worker == w.worker.(pc := Top(next)) && t.site == w.site && !t.halted
      && (phase != HealthyUnclaimed ==> t.claim == w.claim)
  {
    TickKeeps(w, io);
    MovedIs(r, w.claim, phase, f, io.now);
    TransitionKeepsLaw(r, w.claim, phase, f, io.now);
    MovesTo(w, io, r, phase, f, Moved(r, phase, f, io.now));
  }

  lemma MovesTo(w: World, io: Io, r: Receipt, phase: Phase, f: Facts, next: Receipt)
    requires OnWay(w, io, r, Moving(r, phase, f)) && Transition(r, w.claim, phase, f, io.now) == Ok(next)
    requires !next.IsTerminal() && !next.cancelRequested && next.executorGeneration == r.executorGeneration
    ensures var t := Tick(w, io);
      && t.disk == Some(next) && t.worker == w.worker.(pc := Top(next)) && t.site == w.site && !t.halted
      && (next.phase != HealthyUnclaimed ==> t.claim == w.claim)
  {
    assert Effect(w, WorkerTurn(io)) == MoveTurn(w, r, phase, f, Rereading(r), io);
    assert MoveTurn(w, r, phase, f, Rereading(r), io) == Settle(w, Ok(next), io);
  }

  // ----- phase by phase, last first -----

  lemma HealthySucceeds(w: World, io: Io, r: Receipt)
    requires Inv(w) && w.disk == Some(r) && r.phase == HealthyUnclaimed && !w.halted
    requires w.worker.At? && w.worker.pc == Top(r)
    ensures Succeeds(w, io)
  {
    TickKeeps(w, io);
    var t := Tick(w, io);
    assert t.worker.Idle? && t.disk == w.disk;
    assert Work(w, io, 1) == Tick(Work(w, io, 0), io);
    assert Succeeded(Work(w, io, 1));
  }

  lemma HealthCheckSucceeds(w: World, io: Io, r: Receipt)
    requires OnWay(w, io, r, Top(r)) && r.phase == HealthCheck
    ensures Succeeds(w, io)
  {
    TickKeeps(w, io);
    var t, f := Tick(w, io), Facts(None, None, Some(io.healthAt), None, None);
    assert t == Noted(Go(w, Moving(r, HealthyUnclaimed, f)));
    MovesOn(t, io, r, HealthyUnclaimed, f);
    HealthySucceeds(Tick(t, io), io, Moved(r, HealthyUnclaimed, f, io.now));
    SucceedsSooner(t, io);
    SucceedsSooner(w, io);
  }

  const PLAIN := Facts(None, None, None, None, None)

  /** From the credential check through the barrier to the act itself. */
  lemma ActIsReached(w: World, io: Io, r: Receipt, act: Act)
    requires Holds(w, io, r, Authorize(r, act)) && io.ok && !r.cancelRequested && !act.EraseCancelled?
    ensures var t := Tick(Tick(w, io), io);
      && Holds(t, io, r, Acting(r, act)) && t.site == w.site && t.worker == w.worker.(pc := Acting(r, act))
      && t.halted == w.halted && Tick(w, io).halted == w.halted
  {
    TickKeeps(w, io);
    assert Tick(w, io) == Noted(Go(w, Barrier(r, act)));
    TickKeeps(Tick(w, io), io);
  }

  lemma SucceedsAfterAct(w: World, io: Io)
    requires Succeeds(Tick(Tick(w, io), io), io)
    ensures Succeeds(w, io)
  {
    SucceedsSooner(Tick(w, io), io);
    SucceedsSooner(w, io);
  }

  lemma LaunchSucceeds(w: World, io: Io, r: Receipt)
    requires OnWay(w, io, r, Authorize(r, Launch)) && r.phase == Launching
    ensures Succeeds(w, io)
  {
    ActIsReached(w, io, r, Launch);
    var a := Tick(Tick(w, io), io);
    TickKeeps(a, io);
    var t := Tick(a, io);
    assert t == Noted(Go(a.(site := a.site.(launches := a.site.launches + 1)), Moving(r, HealthCheck, PLAIN)));
    MovesOn(t, io, r, HealthCheck, PLAIN);
    HealthCheckSucceeds(Tick(t, io), io, Moved(r, HealthCheck, PLAIN, io.now));
    SucceedsSooner(t, io);
    SucceedsSooner(a, io);
    SucceedsAfterAct(w, io);
  }

  lemma LaunchingSucceeds(w: World, io: Io, r: Receipt)
    requires OnWay(w, io, r, Top(r)) && r.phase == Launching && w.worker.staged
    ensures Succeeds(w, io)
  {
    TickKeeps(w, io);
    var h := Tick(w, io);
    assert h == Noted(Go(w, Authorize(r, EraseInstalled)));
    ActIsReached(h, io, r, EraseInstalled);
    var a := Tick(Tick(h, io), io);
    TickKeeps(a, io);
    assert Tick(a, io) == Noted(Go(a.(site := a.site.(slot := Empty)), Authorize(r, Launch)));
    LaunchSucceeds(Tick(a, io), io, r);
    SucceedsSooner(a, io);
    SucceedsAfterAct(h, io);
    SucceedsSooner(w, io);
  }

  lemma InstalledSucceeds(w: World, io: Io, r: Receipt)
    requires OnWay(w, io, r, Top(r)) && r.phase == Installed
    ensures Succeeds(w, io)
  {
    TickKeeps(w, io);
    var t := Tick(w, io);
    assert t == Noted(Go(w.(worker := w.worker.(staged := true)), CleanInstalled(r)));
    TickKeeps(t, io);
    var u := Tick(t, io);
    assert u == Noted(Go(Cleaned(t), Moving(r, Launching, PLAIN)));
    MovesOn(u, io, r, Launching, PLAIN);
    LaunchingSucceeds(Tick(u, io), io, Moved(r, Launching, PLAIN, io.now));
    SucceedsSooner(u, io);
    SucceedsAfterAct(w, io);
  }

  lemma InstallingSucceeds(w: World, io: Io, r: Receipt)
    requires OnWay(w, io, r, Top(r)) && r.phase == Installing && w.worker.staged
    ensures Succeeds(w, io)
  {
    TickKeeps(w, io);
    var h := Tick(w, io);
    assert h == Noted(Go(w, Authorize(r, Install)));
    ActIsReached(h, io, r, Install);
    var a := Tick(Tick(h, io), io);
    TickKeeps(a, io);
    var t := Tick(a, io);
    assert t == Noted(Go(a.(site := a.site.(installs := a.site.installs + 1)), Moving(r, Installed, PLAIN)));
    MovesOn(t, io, r, Installed, PLAIN);
    InstalledSucceeds(Tick(t, io), io, Moved(r, Installed, PLAIN, io.now));
    SucceedsSooner(t, io);
    SucceedsSooner(a, io);
    SucceedsAfterAct(h, io);
    SucceedsSooner(w, io);
  }

  lemma StagingSucceeds(w: World, io: Io, r: Receipt)
    requires OnWay(w, io, r, Top(r)) && r.phase == Staging && w.worker.local
    ensures Succeeds(w, io)
  {
    TickKeeps(w, io);
    var h := Tick(w, io);
    assert h == Noted(Go(w, Authorize(r, Push)));
    ActIsReached(h, io, r, Push);
    var a := Tick(Tick(h, io), io);
    TickKeeps(a, io);
    var t := Tick(a, io);
    assert t == Noted(Go(a.(site := a.site.(pushes := a.site.pushes + 1, slot := Mine),
                            worker := a.worker.(staged := true)), Moving(r, Installing, PLAIN)));
    MovesOn(t, io, r, Installing, PLAIN);
    InstallingSucceeds(Tick(t, io), io, Moved(r, Installing, PLAIN, io.now));
    SucceedsSooner(t, io);
    SucceedsSooner(a, io);
    SucceedsAfterAct(h, io);
    SucceedsSooner(w, io);
  }

  lemma RecheckSucceeds(w: World, io: Io, r: Receipt)
    requires OnWay(w, io, r, Recheck(r)) && r.phase == Revalidating && w.worker.local
    ensures Succeeds(w, io)
  {
    TickKeeps(w, io);
    var t := Tick(w, io);
    assert t == Noted(Go(w, Moving(r, Staging, PLAIN)));
    MovesOn(t, io, r, Staging, PLAIN);
    StagingSucceeds(Tick(t, io), io, Moved(r, Staging, PLAIN, io.now));
    SucceedsSooner(t, io);
    SucceedsSooner(w, io);
  }

  lemma RevalidatingSucceeds(w: World, io: Io, r: Receipt)
    requires OnWay(w, io, r, Top(r)) && r.phase == Revalidating && w.worker.local
    ensures Succeeds(w, io)
  {
    TickKeeps(w, io);
    assert Tick(w, io) == Noted(Go(w, Recheck(r)));
    RecheckSucceeds(Tick(w, io), io, r);
    SucceedsSooner(w, io);
  }

  lemma ReadySucceeds(w: World, io: Io, r: Receipt)
    requires OnWay(w, io, r, Moving(r, Revalidating, PLAIN)) && r.phase == ArtifactReady && w.worker.local
    ensures Succeeds(w, io)
  {
    MovesOn(w, io, r, Revalidating, PLAIN);
    RevalidatingSucceeds(Tick(w, io), io, Moved(r, Revalidating, PLAIN, io.now));
    SucceedsSooner(w, io);
  }

  lemma ArtifactReadySucceeds(w: World, io: Io, r: Receipt)
    requires OnWay(w, io, r, Top(r)) && r.phase == ArtifactReady && w.worker.local
    ensures Succeeds(w, io)
  {
    TickKeeps(w, io);
    assert Tick(w, io) == Noted(Go(w, Moving(r, Revalidating, PLAIN)));
    ReadySucceeds(Tick(w, io), io, r);
    SucceedsSooner(w, io);
  }

  // ----- having the artifact -----

  /** A delivery leads on from each of the phases that fetch. */
  lemma DeliverySucceeds(w: World, io: Io, r: Receipt)
    requires Fetches(r.phase) && w.worker.At? && OnWay(TakeDelivery(w, r), io, r, TakeDelivery(w, r).worker.pc)
    ensures Succeeds(TakeDelivery(w, r), io)
  {
    var t := TakeDelivery(w, r);
    if r.phase == Downloading {
      var f := Facts(None, Some(r.artifact.apkSize), None, None, None);
      MovesOn(t, io, r, ArtifactReady, f);
      ArtifactReadySucceeds(Tick(t, io), io, Moved(r, ArtifactReady, f, io.now));
      SucceedsSooner(t, io);
    } else if r.phase == ArtifactReady {
      ReadySucceeds(t, io, r);
    } else {
      RecheckSucceeds(t, io, r);
    }
  }

  /** A download, or the ready file that is there already. */
  lemma FetchSucceeds(w: World, io: Io, r: Receipt)
    requires OnWay(w, io, r, Fetch(r)) && Fetches(r.phase) && !w.site.custody.partial
    ensures Succeeds(w, io)
  {
    TickKeeps(w, io);
    var t := Tick(w, io);
    if w.site.custody.ready {
      assert t == Noted(TakeDelivery(w, r)) == TakeDelivery(w, r);
      DeliverySucceeds(w, io, r);
    } else {
      assert t == Noted(Go(w.(site := w.site.(custody := Custody(true, false))), Fetching(r)));
      TickKeeps(t, io);
      var u := t.(site := t.site.(custody := Custody(false, true)));
      assert Tick(t, io) == Noted(TakeDelivery(u, r)) == TakeDelivery(u, r);
      DeliverySucceeds(u, io, r);
      SucceedsSooner(t, io);
    }
    SucceedsSooner(w, io);
  }

  lemma FetchingSucceeds(w: World, io: Io, r: Receipt)
    requires OnWay(w, io, r, Top(r)) && Fetches(r.phase) && !w.worker.local && !w.site.custody.partial
    ensures Succeeds(w, io)
  {
    TickKeeps(w, io);
    assert Tick(w, io) == Noted(Go(w, Fetch(r)));
    FetchSucceeds(Tick(w, io), io, r);
    SucceedsSooner(w, io);
  }

  /** A partial file an earlier process left is removed once, and the download starts anew. */
  lemma StalePartialSucceeds(w: World, io: Io, r: Receipt)
    requires OnWay(w, io, r, Top(r)) && Fetches(r.phase) && !w.worker.local && !w.worker.stale
    requires w.site.custody == Custody(true, false)
    ensures Succeeds(w, io)
  {
    TickKeeps(w, io);
    var t := Tick(w, io);
    assert t == Noted(Go(w, Fetch(r)));
    TickKeeps(t, io);
    var u := Tick(t, io);
    assert u == Noted(Go(t, ClearStale(r)));
    TickKeeps(u, io);
    assert Tick(u, io) == Noted(Go(Cleaned(u.(worker := u.worker.(stale := true))), Top(r)));
    FetchingSucceeds(Tick(u, io), io, r);
    SucceedsSooner(u, io);
    SucceedsAfterAct(w, io);
  }

  // ----- before the artifact -----

  lemma PreflightSucceeds(w: World, io: Io, r: Receipt)
    requires OnWay(w, io, r, Top(r)) && r.phase == Preflight && !w.worker.local
    ensures Succeeds(w, io)
  {
    TickKeeps(w, io);
    var t, f := Tick(w, io), Facts(Some(io.mode), None, None, None, None);
    assert t == Noted(Go(w, Moving(r, Downloading, f)));
    MovesOn(t, io, r, Downloading, f);
    FetchingSucceeds(Tick(t, io), io, Moved(r, Downloading, f, io.now));
    SucceedsSooner(t, io);
    SucceedsSooner(w, io);
  }

  lemma AuthorizingSucceeds(w: World, io: Io, r: Receipt)
    requires OnWay(w, io, r, Top(r)) && r.phase == Authorizing && !w.worker.local
    ensures Succeeds(w, io)
  {
    TickKeeps(w, io);
    var t := Tick(w, io);
    assert t == Noted(Go(w, Moving(r, Preflight, PLAIN)));
    MovesOn(t, io, r, Preflight, PLAIN);
    PreflightSucceeds(Tick(t, io), io, Moved(r, Preflight, PLAIN, io.now));
    SucceedsSooner(t, io);
    SucceedsSooner(w, io);
  }

  lemma ApprovedSucceeds(w: World, io: Io, r: Receipt)
    requires OnWay(w, io, r, Top(r)) && r.phase == Approved && !w.worker.local
    ensures Succeeds(w, io)
  {
    TickKeeps(w, io);
    var t := Tick(w, io);
    assert t == Noted(Go(w, Moving(r, Authorizing, PLAIN)));
    MovesOn(t, io, r, Authorizing, PLAIN);
    AuthorizingSucceeds(Tick(t, io), io, Moved(r, Authorizing, PLAIN, io.now));
    SucceedsSooner(t, io);
    SucceedsSooner(w, io);
  }

  // ----- from a process that knows nothing -----

  /** Phases in which nothing of unknown outcome can have been done to the panel. */
  predicate Safe(p: Phase) {
    || p.Approved? || p.Authorizing? || p.Preflight? || p.Downloading? || p.ArtifactReady? || p.Revalidating?
    || p.Installed? || p.HealthCheck?
  }

  /** No worker, a receipt to be worked on, and at most one local file. */
  ghost predicate Resumable(w: World, io: Io) {
    && Inv(w) && w.worker.Idle? && !w.halted && w.disk.Some? && Lawful(w.disk.value)
    && Safe(w.disk.value.phase) && !w.disk.value.cancelRequested && w.disk.value.attempt < 32
    && 1 <= w.disk.value.artifact.apkSize <= 67108864 && Smooth(io, w.disk.value)
    && (Rank(w.disk.value.phase) <= 5 ==> w.site.slot == Empty)
    && !(w.site.custody.partial && w.site.custody.ready)
  }

  lemma HeadSucceeds(w: World, io: Io, r: Receipt)
    requires OnWay(w, io, r, Top(r)) && Safe(r.phase) && !w.worker.local && !w.worker.stale
    requires !(w.site.custody.partial && w.site.custody.ready)
    ensures Succeeds(w, io)
  {
    match r.phase
    case Approved => ApprovedSucceeds(w, io, r);
    case Authorizing => AuthorizingSucceeds(w, io, r);
    case Preflight => PreflightSucceeds(w, io, r);
    case Installed => InstalledSucceeds(w, io, r);
    case HealthCheck => HealthCheckSucceeds(w, io, r);
    case _ => if w.site.custody.partial { StalePartialSucceeds(w, io, r); } else { FetchingSucceeds(w, io, r); }
  }

  /** A worker is started, claims the job, and takes it to its success. */
  lemma ResumeSucceeds(w: World, io: Io)
    requires Resumable(w, io)
    ensures Succeeds(Step(w, EnsureJob), io)
  {
    StepKeeps(w, EnsureJob);
    var b := Step(w, EnsureJob);
    assert b == Noted(w.(worker := At(Begin(false), false, false, false)));
    TickKeeps(b, io);
    var c := Tick(b, io);
    assert c == Noted(Go(b, Claiming(Try(w.disk.value), false)));
    ClaimSucceeds(c, io);
    SucceedsSooner(b, io);
  }

  /** The claim: held already, or the next generation. */
  lemma ClaimSucceeds(w: World, io: Io)
    requires Inv(w) && !w.halted && w.disk.Some? && Lawful(w.disk.value) && Safe(w.disk.value.phase)
    requires w.worker == At(Claiming(Try(w.disk.value), false), false, false, false)
    requires !w.disk.value.cancelRequested && w.disk.value.attempt < 32 && Smooth(io, w.disk.value)
    requires 1 <= w.disk.value.artifact.apkSize <= 67108864 && (Rank(w.disk.value.phase) <= 5 ==> w.site.slot == Empty)
    requires !(w.site.custody.partial && w.site.custody.ready)
    ensures Succeeds(w, io)
  {
    var r := w.disk.value;
    TickKeeps(w, io);
    var t := Tick(w, io);
    ClaimTick(w, io, r);
    ClaimKeepsLaw(r, w.claim, None, io.now);
    HeadSucceeds(t, io, t.disk.value);
    SucceedsSooner(w, io);
  }

  lemma ClaimTick(w: World, io: Io, r: Receipt)
    requires w.disk == Some(r) && Lawful(r) && Safe(r.phase) && r.attempt < 32 && Smooth(io, r) && !r.cancelRequested
    requires w.worker == At(Claiming(Try(r), false), false, false, false)
    ensures var next := ClaimReceipt(r, w.claim, None, io.now);
      var t := Tick(w, io);
      && next.Ok? && ReceiptOk(next.value) && next.value.phase == r.phase && !next.value.cancelRequested
      && next.value.artifact == r.artifact && Smooth(io, next.value)
      && t.disk == Some(next.value) && t.claim == Some(next.value.executorGeneration)
      && t.worker == At(Top(next.value), false, false, false) && t.site == Noted(w).site && t.halted == w.halted
  {
    ClaimAnswers(r, w.claim, None, io.now);
    assert ReceiptOk(r);
    ClaimedIsOk(r, w.claim, None, io.now);
    assert Effect(w, WorkerTurn(io)) == AfterClaim(w, ClaimAttempt(w, r, None, io), false);
  }

  /** An approved job, left to one undisturbed worker, succeeds. */
  lemma SmoothRunSucceeds(w: World, io: Io)
    requires JustApproved(w) && w.disk.value.attempt < 32 && Smooth(io, w.disk.value) && w.site.slot == Empty
    requires 1 <= w.disk.value.artifact.apkSize <= 67108864
    ensures Succeeds(Step(w, EnsureJob), io)
  {
    RunKeeps(w, []);
    ResumeSucceeds(w, io);
  }

  /** In every run: a process lost in a safe phase is made up for by the next one. */
  lemma LostProcessIsMadeUpFor(w: World, events: seq<Event>, io: Io)
    requires JustApproved(w) && Resumable(Step(After(w, events), ProcessLost), io)
    ensures Succeeds(Step(Step(After(w, events), ProcessLost), EnsureJob), io)
  {
    ResumeSucceeds(Step(After(w, events), ProcessLost), io);
  }
}
