/** How a job ends when something does go wrong, or the user cancels: for every lawful receipt the
    worker holds at the loop head, with one bad outcome and clean-up and saving working, the phase
    and result code the receipt comes to carry, the panel's slot and the local files. */
module InstallEndings {
  import opened Wrappers
  import opened Receipts
  import opened ReceiptAnswers
  import opened InstallProtocol
  import opened InstallSafety
  import opened InstallSmooth

  // ----- what it is to end -----

  /** The worker is done and may be started again; the receipt says how the job ended; nothing of it
      is left in this process, and nothing on the panel unless it is to be recovered. */
  ghost predicate Ended(w: World, t: World, phase: Phase, code: ResultCode) {
    && t.worker.Idle? && t.halted == w.halted
    && t.disk.Some? && t.disk.value.phase == phase && t.disk.value.resultCode == Some(code)
    && t.site.custody == NO_FILES && (phase != RecoveryRequired ==> t.site.slot != Mine)
  }

  ghost predicate Ends(w: World, io: Io, phase: Phase, code: ResultCode) {
    exists n: nat :: Ended(w, Work(w, io, n), phase, code)
  }

  lemma EndsSooner(w: World, io: Io, phase: Phase, code: ResultCode)
    requires Ends(Tick(w, io), io, phase, code) && Tick(w, io).halted == w.halted
    ensures Ends(w, io, phase, code)
  {
    var n: nat :| Ended(Tick(w, io), Work(Tick(w, io), io, n), phase, code);
    WorkFirst(w, io, n);
    assert Ended(w, Work(w, io, n + 1), phase, code);
  }

  // ----- the last steps, last first -----

  lemma OverEnds(w: World, io: Io, r: Receipt, code: ResultCode)
    requires Inv(w) && w.worker.At? && w.worker.pc == Top(r) && w.disk == Some(r)
    requires (r.phase.Failed? || r.phase.Cancelled? || r.phase.RecoveryRequired?) && r.resultCode == Some(code)
    ensures Ends(w, io, r.phase, code)
  {
    TickKeeps(w, io);
    var t := Tick(w, io);
    assert t.disk == w.disk && t.worker.Idle?;
    assert Work(w, io, 1) == Tick(Work(w, io, 0), io);
    assert Ended(w, Work(w, io, 1), r.phase, code);
  }

  /** A last transition, asked for at any of the worker's three kinds of move. */
  lemma LastMoveEnds(w: World, io: Io, r: Receipt, pc: Pc, phase: Phase, code: ResultCode)
    requires Holds(w, io, r, pc) && (phase.Failed? || phase.Cancelled? || phase.RecoveryRequired?)
    requires pc == Moving(r, phase, Facts(None, None, None, Some(code), None))
      || (pc == FailMove(r, code) && phase == Failed) || (pc == RecMove(r, code) && phase == RecoveryRequired)
    requires Edge(r, phase, Facts(None, None, None, Some(code), None), io.now)
    ensures Ends(w, io, phase, code)
  {
    var f := Facts(None, None, None, Some(code), None);
    MovedIs(r, w.claim, phase, f, io.now);
    MovedTick(w, io, r, pc, phase, code);
    TickKeeps(w, io);
    OverEnds(Tick(w, io), io, Moved(r, phase, f, io.now), code);
    EndsSooner(w, io, phase, code);
  }

  lemma MovedTick(w: World, io: Io, r: Receipt, pc: Pc, phase: Phase, code: ResultCode)
    requires Holds(w, io, r, pc) && (phase.Failed? || phase.Cancelled? || phase.RecoveryRequired?)
    requires pc == Moving(r, phase, Facts(None, None, None, Some(code), None))
      || (pc == FailMove(r, code) && phase == Failed) || (pc == RecMove(r, code) && phase == RecoveryRequired)
    requires Transition(r, w.claim, phase, Facts(None, None, None, Some(code), None), io.now)
          == Ok(Moved(r, phase, Facts(None, None, None, Some(code), None), io.now))
    ensures var next := Moved(r, phase, Facts(None, None, None, Some(code), None), io.now);
      var t := Tick(w, io);
      t.worker.At? && t.worker.pc == Top(next) && t.disk == Some(next) && t.halted == w.halted
  {
    var next := Moved(r, phase, Facts(None, None, None, Some(code), None), io.now);
    var stale := if pc.Moving? then Rereading(r) else Top(r);
    assert Effect(w, WorkerTurn(io)) == MoveTurn(w, r, phase, Ending(code), stale, io);
    assert MoveTurn(w, r, phase, Ending(code), stale, io) == Settle(w, Ok(next), io);
  }

  /** A definite failure: reread the receipt and record it. */
  lemma FailureEnds(w: World, io: Io, r: Receipt, code: ResultCode)
    requires Holds(w, io, r, FailGet(code)) && FailsAs(r.phase, code)
    ensures Ends(w, io, Failed, code)
  {
    TickKeeps(w, io);
    assert Tick(w, io) == Noted(Go(w, FailMove(r, code)));
    LastMoveEnds(Tick(w, io), io, r, FailMove(r, code), Failed, code);
    EndsSooner(w, io, Failed, code);
  }

  /** Recovery: remove the local files and hand the job over. */
  lemma RecoveryEnds(w: World, io: Io, r: Receipt, code: ResultCode)
    requires Holds(w, io, r, RecGet(code))
    requires RecoveryEdge(r, RecoveryRequired, Facts(None, None, None, Some(code), None))
    ensures Ends(w, io, RecoveryRequired, code)
  {
    TickKeeps(w, io);
    assert Tick(w, io) == Noted(Go(w, RecClean(code)));
    CleanedRecoveryEnds(Tick(w, io), io, r, code);
    EndsSooner(w, io, RecoveryRequired, code);
  }

  lemma CleanedRecoveryEnds(w: World, io: Io, r: Receipt, code: ResultCode)
    requires Holds(w, io, r, RecClean(code))
    requires RecoveryEdge(r, RecoveryRequired, Facts(None, None, None, Some(code), None))
    ensures Ends(w, io, RecoveryRequired, code)
  {
    TickKeeps(w, io);
    assert Tick(w, io) == Noted(Go(Cleaned(w), RecGetAgain(code)));
    RereadRecoveryEnds(Tick(w, io), io, r, code);
    EndsSooner(w, io, RecoveryRequired, code);
  }

  lemma RereadRecoveryEnds(w: World, io: Io, r: Receipt, code: ResultCode)
    requires Holds(w, io, r, RecGetAgain(code))
    requires RecoveryEdge(r, RecoveryRequired, Facts(None, None, None, Some(code), None))
    ensures Ends(w, io, RecoveryRequired, code)
  {
    TickKeeps(w, io);
    assert Tick(w, io) == Noted(Go(w, RecMove(r, code)));
    LastMoveEnds(Tick(w, io), io, r, RecMove(r, code), RecoveryRequired, code);
    EndsSooner(w, io, RecoveryRequired, code);
  }

  /** Failing only after the local files are gone. */
  lemma CleanFailureEnds(w: World, io: Io, r: Receipt, code: ResultCode)
    requires Holds(w, io, r, CleanThenFail(r, code)) && FailsAs(r.phase, code)
    ensures Ends(w, io, Failed, code)
  {
    TickKeeps(w, io);
    assert Tick(w, io) == Noted(Go(Cleaned(w), FailGet(code)));
    FailureEnds(Tick(w, io), io, r, code);
    EndsSooner(w, io, Failed, code);
  }

  // ----- cancelling -----

  /** What a cancelled job is told. */
  function CancelCode(p: Phase): ResultCode {
    if p.Staging? then CancelledAfterStagingCleanup else CancelledByUser
  }

  lemma CancelledEnds(w: World, io: Io, r: Receipt)
    requires Holds(w, io, r, Moving(r, Cancelled, Facts(None, None, None, Some(CancelCode(r.phase)), None)))
    requires r.cancelRequested && !Over(r)
    ensures Ends(w, io, Cancelled, CancelCode(r.phase))
  {
    LastMoveEnds(w, io, r, w.worker.pc, Cancelled, CancelCode(r.phase));
  }

  lemma CancelCleanEnds(w: World, io: Io, r: Receipt)
    requires Holds(w, io, r, CancelClean(r)) && r.cancelRequested && !Over(r)
    ensures Ends(w, io, Cancelled, CancelCode(r.phase))
  {
    TickKeeps(w, io);
    var f := Facts(None, None, None, Some(CancelCode(r.phase)), None);
    assert Tick(w, io) == Noted(Go(Cleaned(w), Moving(r, Cancelled, f)));
    CancelledEnds(Tick(w, io), io, r);
    EndsSooner(w, io, Cancelled, CancelCode(r.phase));
  }

  /** The staged file is erased first, under the cleanup barrier. */
  lemma CancelErases(w: World, io: Io, r: Receipt)
    requires Holds(w, io, r, Authorize(r, EraseCancelled)) && io.ok && io.erase.Erased?
    requires r.cancelRequested && r.phase.Staging?
    ensures Ends(w, io, Cancelled, CancelledAfterStagingCleanup)
  {
    TickKeeps(w, io);
    var a := Tick(w, io);
    assert a == Noted(Go(w, Barrier(r, EraseCancelled)));
    TickKeeps(a, io);
    var b := Tick(a, io);
    assert b == Noted(Go(a, Acting(r, EraseCancelled)));
    ErasedForCancel(b, io, r);
    EndsSooner(a, io, Cancelled, CancelledAfterStagingCleanup);
    EndsSooner(w, io, Cancelled, CancelledAfterStagingCleanup);
  }

  lemma ErasedForCancel(w: World, io: Io, r: Receipt)
    requires Holds(w, io, r, Acting(r, EraseCancelled)) && io.ok && io.erase.Erased?
    requires r.cancelRequested && r.phase.Staging?
    ensures Ends(w, io, Cancelled, CancelledAfterStagingCleanup)
  {
    TickKeeps(w, io);
    assert ReceiptOk(r) && r.actualBytes.Some?;
    assert Tick(w, io) == Noted(Go(w.(site := w.site.(slot := Empty)), CancelClean(r)));
    CancelCleanEnds(Tick(w, io), io, r);
    EndsSooner(w, io, Cancelled, CancelledAfterStagingCleanup);
  }

  /** A requested cancellation is carried out: from the loop head, in every phase up to the push, the job
      ends as cancelled, with the code that tells whether the push had been prepared. */
  lemma CancelIsCarriedOut(w: World, io: Io, r: Receipt)
    requires Holds(w, io, r, Top(r)) && r.cancelRequested && io.ok && io.erase.Erased?
    requires r.phase.Approved? || r.phase.Authorizing? || r.phase.Preflight? || r.phase.Downloading?
      || r.phase.ArtifactReady? || r.phase.Revalidating? || r.phase.Staging?
    ensures Ends(w, io, Cancelled, if r.phase.Staging? then CancelledAfterStagingCleanup else CancelledByUser)
  {
    TickKeeps(w, io);
    var t := Tick(w, io);
    if t.worker.pc.Authorize? {
      CancelErases(t, io, r);
    } else if t.worker.pc.CancelClean? {
      CancelCleanEnds(t, io, r);
    } else {
      CancelledEnds(t, io, r);
    }
    EndsSooner(w, io, Cancelled, CancelCode(r.phase));
  }

  /** So in every run: whatever happened before, a durable cancel the worker meets at the loop head is
      carried out. */
  lemma CancelAfterAnyRun(w: World, events: seq<Event>, io: Io)
    requires JustApproved(w) && After(w, events).disk.Some?
    requires var t := After(w, events); Holds(t, io, t.disk.value, Top(t.disk.value)) && t.disk.value.cancelRequested
    requires BeforeInstall(After(w, events).disk.value.phase) && io.ok && io.erase.Erased?
    ensures Ends(After(w, events), io, Cancelled,
                 if After(w, events).disk.value.phase.Staging? then CancelledAfterStagingCleanup else CancelledByUser)
  {
    CancelIsCarriedOut(After(w, events), io, After(w, events).disk.value);
  }

  predicate BeforeInstall(p: Phase) {
    p.Approved? || p.Authorizing? || p.Preflight? || p.Downloading? || p.ArtifactReady? || p.Revalidating? || p.Staging?
  }

  // ----- a cancel request that arrives while the worker is at work -----

  /** The stored receipt is the worker's, but for a cancel request since. */
  ghost predicate Overtaken(w: World, io: Io, r: Receipt, d: Receipt) {
    && Inv(w) && Lawful(d) && w.disk == Some(d) && w.worker.At? && Works(io, d) && io.ok && io.erase.Erased?
    && d.cancelRequested && d.revision != r.revision && d.phase == r.phase && BeforeInstall(d.phase)
    && d.executorGeneration == r.executorGeneration
  }

  lemma CancelCarriedOutLater(w: World, io: Io, d: Receipt)
    requires Holds(Tick(w, io), io, d, Top(d)) && d.cancelRequested && BeforeInstall(d.phase)
    requires io.ok && io.erase.Erased? && Tick(w, io).halted == w.halted
    ensures Ends(w, io, Cancelled, CancelCode(d.phase))
  {
    CancelIsCarriedOut(Tick(w, io), io, d);
    EndsSooner(w, io, Cancelled, CancelCode(d.phase));
  }

  /** It loses the compare-and-swap, rereads, and carries the request out; so also after a push. */
  lemma MoveMeetsCancel(w: World, io: Io, r: Receipt, phase: Phase, f: Facts, d: Receipt)
    requires Overtaken(w, io, r, d) && w.worker.pc == Moving(r, phase, f) && w.claim == Some(d.executorGeneration)
    ensures Ends(w, io, Cancelled, CancelCode(d.phase))
  {
    TickKeeps(w, io);
    var t := Tick(w, io);
    assert t == Noted(Go(w, Rereading(r)));
    TickKeeps(t, io);
    assert Tick(t, io) == Noted(Go(t, Top(d)));
    CancelCarriedOutLater(t, io, d);
    EndsSooner(w, io, Cancelled, CancelCode(d.phase));
  }

  /** Before the push it is met when the credentials have been checked. */
  lemma AuthorizationMeetsCancel(w: World, io: Io, r: Receipt, d: Receipt)
    requires Overtaken(w, io, r, d) && w.worker.pc == Authorize(r, Push) && w.claim == Some(d.executorGeneration)
    ensures Ends(w, io, Cancelled, CancelCode(d.phase))
  {
    TickKeeps(w, io);
    assert Tick(w, io) == Noted(Go(w, Top(d)));
    CancelCarriedOutLater(w, io, d);
  }

  /** And a claim that comes too late is asked for once more. */
  lemma ClaimMeetsCancel(w: World, io: Io, r: Receipt, d: Receipt)
    requires Overtaken(w, io, r, d) && w.worker.pc == Claiming(Try(r), false)
    requires !d.phase.Staging? && d.attempt < 32
    ensures Ends(w, io, Cancelled, CancelledByUser)
  {
    TickKeeps(w, io);
    var t := Tick(w, io);
    assert t == Noted(Go(w, Begin(true)));
    TickKeeps(t, io);
    var u := Tick(t, io);
    assert u == Noted(Go(t, Claiming(Try(d), true)));
    ClaimedThenCancelled(u, io, d);
    EndsSooner(t, io, Cancelled, CancelledByUser);
    EndsSooner(w, io, Cancelled, CancelledByUser);
  }

  lemma ClaimedThenCancelled(w: World, io: Io, d: Receipt)
    requires Inv(w) && Lawful(d) && w.disk == Some(d) && w.worker.At? && w.worker.pc == Claiming(Try(d), true)
    requires Works(io, d) && io.ok && io.erase.Erased? && d.cancelRequested && BeforeInstall(d.phase)
    requires !d.phase.Staging? && d.attempt < 32
    ensures Ends(w, io, Cancelled, CancelledByUser)
  {
    TickKeeps(w, io);
    var next := ClaimReceipt(d, w.claim, None, io.now);
    ClaimAnswers(d, w.claim, None, io.now);
    ClaimedIsOk(d, w.claim, None, io.now);
    ClaimKeepsLaw(d, w.claim, None, io.now);
    ClaimTicks(w, io, d, next.value);
    CancelCarriedOutLater(w, io, next.value);
  }

  lemma ClaimTicks(w: World, io: Io, d: Receipt, next: Receipt)
    requires w.disk == Some(d) && w.worker.At? && w.worker.pc == Claiming(Try(d), true)
    requires ClaimReceipt(d, w.claim, None, io.now) == Ok(next) && ReceiptOk(next) && !next.IsTerminal()
    requires next.phase != HealthyUnclaimed && io.save.Saved? && !io.prunedAtOnce
    requires next == d ==> w.claim == Some(d.executorGeneration)
    ensures var t := Tick(w, io);
      && t.disk == Some(next) && t.claim == Some(next.executorGeneration) && t.halted == w.halted
      && t.worker == w.worker.(pc := Top(next))
  {
    assert Effect(w, WorkerTurn(io)) == AfterClaim(w, ClaimAttempt(w, d, None, io), true);
  }

  // ----- before anything is on the panel -----

  /** At the loop head, not cancelled. */
  ghost predicate AtHead(w: World, io: Io, r: Receipt) { Holds(w, io, r, Top(r)) && !r.cancelRequested }

  /** No usable credential: the authorization failed. */
  lemma AuthorizationFails(w: World, io: Io, r: Receipt)
    requires AtHead(w, io, r) && r.phase.Authorizing? && !io.ok
    ensures Ends(w, io, Failed, AuthorizationFailed)
  {
    TickKeeps(w, io);
    FailureEnds(Tick(w, io), io, r, AuthorizationFailed);
    EndsSooner(w, io, Failed, AuthorizationFailed);
  }

  /** The panel is not as planned, or cannot be reached. */
  lemma PreflightFails(w: World, io: Io, r: Receipt)
    requires AtHead(w, io, r) && r.phase.Preflight? && !io.ok
    requires io.code.PreflightRejected? || io.code.TransportFailed?
    ensures Ends(w, io, Failed, io.code)
  {
    TickKeeps(w, io);
    FailureEnds(Tick(w, io), io, r, io.code);
    EndsSooner(w, io, Failed, io.code);
  }

  /** The artifact cannot be had: nothing is there and the download is refused, or it breaks. */
  lemma DownloadFails(w: World, io: Io, r: Receipt)
    requires AtHead(w, io, r)
    requires r.phase.Downloading? || ((r.phase.ArtifactReady? || r.phase.Revalidating?) && !w.worker.local)
    requires w.site.custody == Custody(false, false) && (!io.ok || io.download.Broken?)
    requires io.code.ArtifactRejected? || io.code.TransportFailed?
    ensures Ends(w, io, Failed, io.code)
  {
    TickKeeps(w, io);
    var t := Tick(w, io);
    assert t == Noted(Go(w, Fetch(r)));
    TickKeeps(t, io);
    if !io.ok {
      CleanFailureEnds(Tick(t, io), io, r, io.code);
    } else {
      BrokenFails(Tick(t, io), io, r);
    }
    EndsSooner(t, io, Failed, io.code);
    EndsSooner(w, io, Failed, io.code);
  }

  lemma BrokenFails(w: World, io: Io, r: Receipt)
    requires Holds(w, io, r, Fetching(r)) && io.download.Broken? && FailsAs(r.phase, io.code)
    ensures Ends(w, io, Failed, io.code)
  {
    TickKeeps(w, io);
    CleanFailureEnds(Tick(w, io), io, r, io.code);
    EndsSooner(w, io, Failed, io.code);
  }

  /** The artifact is there, but the panel no longer is as planned. */
  lemma RevalidationFails(w: World, io: Io, r: Receipt)
    requires AtHead(w, io, r) && r.phase.Revalidating? && w.worker.local && !io.ok && FailsAs(Revalidating, io.code)
    ensures Ends(w, io, Failed, io.code)
  {
    TickKeeps(w, io);
    var t := Tick(w, io);
    assert t == Noted(Go(w, Recheck(r)));
    TickKeeps(t, io);
    CleanFailureEnds(Tick(t, io), io, r, io.code);
    EndsSooner(t, io, Failed, io.code);
    EndsSooner(w, io, Failed, io.code);
  }

  // ----- the panel acts -----

  /** The way from the loop head to the act, credentials and barrier in order. */
  ghost predicate ToAct(w: World, io: Io, r: Receipt, act: Act) {
    Holds(w, io, r, Authorize(r, act)) && io.ok && !r.cancelRequested && !act.EraseCancelled?
  }

  lemma EndsAfterAct(w: World, io: Io, r: Receipt, act: Act, phase: Phase, code: ResultCode)
    requires ToAct(w, io, r, act) && Ends(Tick(Tick(w, io), io), io, phase, code)
    ensures Ends(w, io, phase, code)
  {
    ActIsReached(w, io, r, act);
    EndsSooner(Tick(w, io), io, phase, code);
    EndsSooner(w, io, phase, code);
  }

  /** The loop head leads to the act its phase is for. */
  lemma HeadLeads(w: World, io: Io, r: Receipt, act: Act)
    requires AtHead(w, io, r)
    requires (r.phase.Staging? && w.worker.local && act.Push?)
      || (r.phase.Installing? && w.worker.staged && act.Install?)
      || (r.phase.Launching? && w.worker.staged && act.EraseInstalled?)
    ensures Holds(Tick(w, io), io, r, Authorize(r, act)) && Tick(w, io).halted == w.halted
  {
    TickKeeps(w, io);
  }

  /** Without a credential or a pinned address nothing is pushed. */
  lemma PushDenied(w: World, io: Io, r: Receipt)
    requires AtHead(w, io, r) && r.phase.Staging? && w.worker.local && !io.ok
    ensures Ends(w, io, Failed, TransportFailed)
  {
    HeadLeads(w, io, r, Push);
    var t := Tick(w, io);
    TickKeeps(t, io);
    CleanFailureEnds(Tick(t, io), io, r, TransportFailed);
    EndsSooner(t, io, Failed, TransportFailed);
    EndsSooner(w, io, Failed, TransportFailed);
  }

  /** A push that was not issued fails the job; one with unknown outcome is for recovery. */
  lemma PushFails(w: World, io: Io, r: Receipt)
    requires AtHead(w, io, r) && r.phase.Staging? && w.worker.local && io.ok && !io.push.Pushed?
    requires io.push.PushNotIssued? ==> io.code.ArtifactRejected? || io.code.TransportFailed?
    requires io.push.PushUnclear? ==> w.site.slot == Empty
    ensures io.push.PushNotIssued? ==> Ends(w, io, Failed, io.code)
    ensures io.push.PushUnclear? ==> Ends(w, io, RecoveryRequired, AmbiguousMutation)
  {
    HeadLeads(w, io, r, Push);
    var t := Tick(w, io);
    ActIsReached(t, io, r, Push);
    var a := Tick(Tick(t, io), io);
    TickKeeps(a, io);
    if io.push.PushNotIssued? {
      CleanFailureEnds(Tick(a, io), io, r, io.code);
      EndsSooner(a, io, Failed, io.code);
      EndsAfterAct(t, io, r, Push, Failed, io.code);
      EndsSooner(w, io, Failed, io.code);
    } else {
      RecoveryEnds(Tick(a, io), io, r, AmbiguousMutation);
      EndsSooner(a, io, RecoveryRequired, AmbiguousMutation);
      EndsAfterAct(t, io, r, Push, RecoveryRequired, AmbiguousMutation);
      EndsSooner(w, io, RecoveryRequired, AmbiguousMutation);
    }
  }

  /** A worker without its own artifact or push does not touch the panel. */
  lemma WithoutEvidence(w: World, io: Io, r: Receipt)
    requires AtHead(w, io, r)
    requires (r.phase.Staging? && !w.worker.local) || ((r.phase.Installing? || r.phase.Launching?) && !w.worker.staged)
    ensures Ends(w, io, RecoveryRequired, AmbiguousMutation)
  {
    TickKeeps(w, io);
    RecoveryEnds(Tick(w, io), io, r, AmbiguousMutation);
    EndsSooner(w, io, RecoveryRequired, AmbiguousMutation);
  }

  /** An install with unknown outcome, or not issued, is for recovery. */
  lemma InstallUncertain(w: World, io: Io, r: Receipt)
    requires AtHead(w, io, r) && r.phase.Installing? && w.worker.staged && io.ok
    requires io.install.InstallUnclear? || io.install.InstallNotIssued?
    ensures Ends(w, io, RecoveryRequired,
                 if io.install.InstallUnclear? then AmbiguousMutation else VerificationRequired)
  {
    var code := if io.install.InstallUnclear? then AmbiguousMutation else VerificationRequired;
    HeadLeads(w, io, r, Install);
    var t := Tick(w, io);
    ActIsReached(t, io, r, Install);
    var a := Tick(Tick(t, io), io);
    TickKeeps(a, io);
    RecoveryEnds(Tick(a, io), io, r, code);
    EndsSooner(a, io, RecoveryRequired, code);
    EndsAfterAct(t, io, r, Install, RecoveryRequired, code);
    EndsSooner(w, io, RecoveryRequired, code);
  }

  /** A refused install: the staged file is erased, then the job failed. */
  lemma InstallRefusedFails(w: World, io: Io, r: Receipt)
    requires AtHead(w, io, r) && r.phase.Installing? && w.worker.staged && io.ok
    requires io.install.InstallRefused? && io.erase.Erased?
    ensures Ends(w, io, Failed, InstallFailed)
  {
    HeadLeads(w, io, r, Install);
    var t := Tick(w, io);
    ActIsReached(t, io, r, Install);
    var a := Tick(Tick(t, io), io);
    TickKeeps(a, io);
    RefusalErased(Tick(a, io), io, r);
    EndsSooner(a, io, Failed, InstallFailed);
    EndsAfterAct(t, io, r, Install, Failed, InstallFailed);
    EndsSooner(w, io, Failed, InstallFailed);
  }

  lemma RefusalErased(w: World, io: Io, r: Receipt)
    requires ToAct(w, io, r, EraseRefused) && r.phase.Installing? && io.erase.Erased?
    ensures Ends(w, io, Failed, InstallFailed)
  {
    ActIsReached(w, io, r, EraseRefused);
    var a := Tick(Tick(w, io), io);
    TickKeeps(a, io);
    assert Tick(a, io) == Noted(Go(a.(site := a.site.(slot := Empty)), CleanRefused(r)));
    RefusalCleaned(Tick(a, io), io, r);
    EndsSooner(a, io, Failed, InstallFailed);
    EndsAfterAct(w, io, r, EraseRefused, Failed, InstallFailed);
  }

  lemma RefusalCleaned(w: World, io: Io, r: Receipt)
    requires Holds(w, io, r, CleanRefused(r)) && r.phase.Installing?
    ensures Ends(w, io, Failed, InstallFailed)
  {
    TickKeeps(w, io);
    assert Tick(w, io) == Noted(Go(Cleaned(w), FailGet(InstallFailed)));
    FailureEnds(Tick(w, io), io, r, InstallFailed);
    EndsSooner(w, io, Failed, InstallFailed);
  }

  /** How a launch that did not succeed ends the job. */
  function LaunchDefect(launch: LaunchEnd): (Phase, ResultCode) {
    match launch
    case LaunchUnclear => (RecoveryRequired, AmbiguousMutation)
    case LaunchNotIssued(drifted) =>
      if drifted then (RecoveryRequired, VerificationRequired) else (Failed, LaunchFailed)
    case _ => (Failed, LaunchFailed)
  }

  /** The staged file gone, a launch refused or not issued fails the job; one of unknown outcome, or a panel
      that is no longer as planned, is for recovery. */
  lemma LaunchFails(w: World, io: Io, r: Receipt)
    requires AtHead(w, io, r) && r.phase.Launching? && w.worker.staged && io.ok && io.erase.Erased?
    requires !io.launch.Started?
    ensures Ends(w, io, LaunchDefect(io.launch).0, LaunchDefect(io.launch).1)
  {
    var (phase, code) := LaunchDefect(io.launch);
    HeadLeads(w, io, r, EraseInstalled);
    var t := Tick(w, io);
    ActIsReached(t, io, r, EraseInstalled);
    var a := Tick(Tick(t, io), io);
    TickKeeps(a, io);
    assert Tick(a, io) == Noted(Go(a.(site := a.site.(slot := Empty)), Authorize(r, Launch)));
    LaunchItselfFails(Tick(a, io), io, r, phase, code);
    EndsSooner(a, io, phase, code);
    EndsAfterAct(t, io, r, EraseInstalled, phase, code);
    EndsSooner(w, io, phase, code);
  }

  lemma LaunchItselfFails(w: World, io: Io, r: Receipt, phase: Phase, code: ResultCode)
    requires ToAct(w, io, r, Launch) && r.phase.Launching? && !io.launch.Started?
    requires (phase, code) == LaunchDefect(io.launch)
    ensures Ends(w, io, phase, code)
  {
    ActIsReached(w, io, r, Launch);
    var a := Tick(Tick(w, io), io);
    TickKeeps(a, io);
    if phase == Failed {
      FailureEnds(Tick(a, io), io, r, LaunchFailed);
    } else {
      RecoveryEnds(Tick(a, io), io, r, code);
    }
    EndsSooner(a, io, phase, code);
    EndsAfterAct(w, io, r, Launch, phase, code);
  }

  /** Without a credential or a pinned address no other act is taken either: a launch then fails the job, and
      anything else is for recovery. */
  lemma ActDenied(w: World, io: Io, r: Receipt, act: Act)
    requires Holds(w, io, r, Authorize(r, act)) && !io.ok && !act.Push?
    requires if act.Launch? then r.phase.Launching?
             else r.phase.Staging? || r.phase.Installing? || r.phase.Launching?
    ensures if act.Launch? then Ends(w, io, Failed, LaunchFailed)
            else Ends(w, io, RecoveryRequired, VerificationRequired)
  {
    TickKeeps(w, io);
    if act.Launch? {
      FailureEnds(Tick(w, io), io, r, LaunchFailed);
      EndsSooner(w, io, Failed, LaunchFailed);
    } else {
      RecoveryEnds(Tick(w, io), io, r, VerificationRequired);
      EndsSooner(w, io, RecoveryRequired, VerificationRequired);
    }
  }

  /** A staged file that cannot be surely erased is for recovery, whatever it was to be erased for. */
  lemma EraseFails(w: World, io: Io, r: Receipt, act: Act)
    requires Holds(w, io, r, Acting(r, act)) && io.ok && !io.erase.Erased?
    requires act.EraseRefused? || act.EraseInstalled? || act.EraseCancelled?
    requires r.phase.Staging? || r.phase.Installing? || r.phase.Launching?
    ensures Ends(w, io, RecoveryRequired, if io.erase.EraseUnclear? then AmbiguousMutation else VerificationRequired)
  {
    TickKeeps(w, io);
    var code := if io.erase.EraseUnclear? then AmbiguousMutation else VerificationRequired;
    RecoveryEnds(Tick(w, io), io, r, code);
    EndsSooner(w, io, RecoveryRequired, code);
  }

  /** An unhealthy panel is for recovery. */
  lemma HealthFails(w: World, io: Io, r: Receipt)
    requires AtHead(w, io, r) && r.phase.HealthCheck? && !io.ok
    ensures Ends(w, io, RecoveryRequired, VerificationRequired)
  {
    TickKeeps(w, io);
    RecoveryEnds(Tick(w, io), io, r, VerificationRequired);
    EndsSooner(w, io, RecoveryRequired, VerificationRequired);
  }

  // ----- after a lost process -----

  /** A job that cannot be claimed for work: the panel may have been changed, or no attempt is left. */
  ghost predicate Doubtful(w: World, io: Io) {
    && Inv(w) && w.worker.Idle? && !w.halted && w.disk.Some? && Lawful(w.disk.value) && Works(io, w.disk.value)
    && !Over(w.disk.value) && !w.disk.value.phase.HealthyUnclaimed?
    && (Uncertain(w.disk.value) || w.disk.value.attempt >= 32) && w.claim != Some(w.disk.value.executorGeneration)
  }

  /** It is quarantined: local files removed, the receipt for recovery, nothing done to the panel. */
  lemma DoubtIsQuarantined(w: World, io: Io)
    requires Doubtful(w, io)
    ensures Ends(Step(w, EnsureJob), io, RecoveryRequired, VerificationRequired)
  {
    StepKeeps(w, EnsureJob);
    var b, r := Step(w, EnsureJob), w.disk.value;
    assert b == Noted(w.(worker := At(Begin(false), false, false, false)));
    TickKeeps(b, io);
    assert Tick(b, io) == Noted(Go(b, Claiming(Try(r), false)));
    TriedIsQuarantined(Tick(b, io), io, r);
    EndsSooner(b, io, RecoveryRequired, VerificationRequired);
  }

  /** The worker is claiming and has not got the claim. */
  ghost predicate AtClaim(w: World, io: Io, r: Receipt, c: ClaimPc) {
    && Inv(w) && Lawful(r) && w.disk == Some(r) && w.claim != Some(r.executorGeneration) && Works(io, r)
    && w.worker == At(Claiming(c, false), false, false, false)
    && !Over(r) && !r.phase.HealthyUnclaimed? && (Uncertain(r) || r.attempt >= 32)
  }

  lemma TriedIsQuarantined(w: World, io: Io, r: Receipt)
    requires AtClaim(w, io, r, Try(r))
    ensures Ends(w, io, RecoveryRequired, VerificationRequired)
  {
    ClaimAnswers(r, w.claim, None, io.now);
    TickKeeps(w, io);
    assert Tick(w, io) == Noted(Go(w, Claiming(Reget, false)));
    var t := Tick(w, io);
    TickKeeps(t, io);
    assert Tick(t, io) == Noted(Go(t, Claiming(Clean(r), false)));
    CleanedIsQuarantined(Tick(t, io), io, r);
    EndsSooner(t, io, RecoveryRequired, VerificationRequired);
    EndsSooner(w, io, RecoveryRequired, VerificationRequired);
  }

  lemma CleanedIsQuarantined(w: World, io: Io, r: Receipt)
    requires AtClaim(w, io, r, Clean(r))
    ensures Ends(w, io, RecoveryRequired, VerificationRequired)
  {
    TickKeeps(w, io);
    assert Tick(w, io) == Noted(Go(Cleaned(w), Claiming(Confirm(r), false)));
    ConfirmedIsQuarantined(Tick(w, io), io, r);
    EndsSooner(w, io, RecoveryRequired, VerificationRequired);
  }

  lemma ConfirmedIsQuarantined(w: World, io: Io, r: Receipt)
    requires AtClaim(w, io, r, Confirm(r))
    ensures Ends(w, io, RecoveryRequired, VerificationRequired)
  {
    TickKeeps(w, io);
    QuarantineTick(w, io, r);
    OverEnds(Tick(w, io), io, Tick(w, io).disk.value, VerificationRequired);
    EndsSooner(w, io, RecoveryRequired, VerificationRequired);
  }

  lemma QuarantineTick(w: World, io: Io, r: Receipt)
    requires AtClaim(w, io, r, Confirm(r))
    ensures var t := Tick(w, io);
      && t.disk.Some? && t.disk.value.phase == RecoveryRequired && t.disk.value.resultCode == Some(VerificationRequired)
      && t.worker == At(Top(t.disk.value), false, false, false) && t.halted == w.halted
  {
    ClaimAnswers(r, w.claim, Some(r.revision), io.now);
    ClaimedIsOk(r, w.claim, Some(r.revision), io.now);
    assert Effect(w, WorkerTurn(io)) == AfterClaim(w, ClaimAttempt(w, r, Some(r.revision), io), false);
  }

  /** The resume scan does the same without a worker. */
  lemma ScanQuarantinesDoubt(w: World, io: Io)
    requires Doubtful(w, io) && Uncertain(w.disk.value) && w.resumer.Resting?
    ensures var t := Step(Step(Step(Step(Step(w, ResumeScan), ResumeTurn(io)), ResumeTurn(io)), ResumeTurn(io)),
                          ResumeTurn(io));
      && t.resumer.Resting? && t.worker.Idle? && t.disk.Some? && t.disk.value.phase == RecoveryRequired
      && t.disk.value.resultCode == Some(VerificationRequired) && t.site.custody == NO_FILES
      && t.site.pushes == w.site.pushes && t.site.installs == w.site.installs && t.site.launches == w.site.launches
  {
    var r := w.disk.value;
    ClaimAnswers(r, w.claim, None, io.now);
    ClaimAnswers(r, w.claim, Some(r.revision), io.now);
    ClaimedIsOk(r, w.claim, Some(r.revision), io.now);
    var a := Step(w, ResumeScan);
    assert a == Noted(w.(resumer := Scanning(Try(r), false)));
    ScanToConfirm(a, io, r);
  }

  lemma ScanToConfirm(w: World, io: Io, r: Receipt)
    requires w.disk == Some(r) && w.resumer == Scanning(Try(r), false) && w.worker.Idle? && Works(io, r)
    requires ClaimReceipt(r, w.claim, None, io.now) == Err(CleanupRequiredError)
    requires var next := ClaimReceipt(r, w.claim, Some(r.revision), io.now);
      next.Ok? && ReceiptOk(next.value) && next.value != r && next.value.phase == RecoveryRequired
      && next.value.resultCode == Some(VerificationRequired)
    ensures var t := Step(Step(Step(Step(w, ResumeTurn(io)), ResumeTurn(io)), ResumeTurn(io)), ResumeTurn(io));
      && t.resumer.Resting? && t.worker.Idle? && t.disk.Some? && t.disk.value.phase == RecoveryRequired
      && t.disk.value.resultCode == Some(VerificationRequired) && t.site.custody == NO_FILES
      && t.site.pushes == w.site.pushes && t.site.installs == w.site.installs && t.site.launches == w.site.launches
  {
    var b := Step(w, ResumeTurn(io));
    assert b == Noted(w.(resumer := Scanning(Reget, false)));
    var c := Step(b, ResumeTurn(io));
    assert c == Noted(b.(resumer := Scanning(Clean(r), false)));
    var d := Step(c, ResumeTurn(io));
    assert d == Noted(Cleaned(c).(resumer := Scanning(Confirm(r), false)));
    var next := ClaimReceipt(r, w.claim, Some(r.revision), io.now).value;
    assert ScanTurn(d, io) == WriteReceipt(d, next, io).(resumer := Resting);
  }
}
