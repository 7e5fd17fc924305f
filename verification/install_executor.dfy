/** The install executor as the object it is: fields updated in place, one method for each
    helper of the worker, each proved against the protocol's functions, and the worker loop
    with its termination measure. */
module InstallExecution {
  import opened Wrappers
  import opened Receipts
  import opened InstallProtocol
  import opened InstallSafety
  import opened InstallProgress

  class InstallExecutor {
    // what outlives the process
    var disk: Option<Receipt>
    var site: Site
    // what does not
    var claim: Option<int>
    var worker: Worker
    var resumer: Resumer
    var halted: bool

    ghost function Now(): World
      reads this
    {
      World(disk, claim, worker, resumer, halted, site)
    }

    constructor (receipt: Receipt, site0: Site)
      ensures Now() == World(Some(receipt), None, Idle, Resting, false, site0)
    {
      disk, site := Some(receipt), site0;
      claim, worker, resumer, halted := None, Idle, Resting, false;
    }

    // ----- starting and leaving -----

    method EnsureJob()
      modifies this
      ensures Now() == Effect(old(Now()), InstallProtocol.EnsureJob)
      ensures worker != old(worker) ==>
        old(worker).Idle? && !halted && Live(disk) && worker == At(Begin(false), false, false, false)
    {
      if worker.Idle? && !halted && disk.Some? && !disk.value.IsTerminal() && disk.value.phase != HealthyUnclaimed {
        worker := At(Begin(false), false, false, false);
      }
    }

    method GoTo(pc: Pc)
      requires worker.At?
      modifies this`worker
      ensures Now() == Go(old(Now()), pc)
    {
      worker := worker.(pc := pc);
    }

    /** The worker raised, or gave up for good. */
    method Stop()
      modifies this`worker, this`site, this`halted
      ensures Now() == Die(old(Now()))
      ensures worker.Idle? && halted && (old(InFlight(Now())) ==> site.unclear)
    {
      var inFlight := disk.Some?
        && ((disk.value.phase.Staging? && site.pushes > 0)
            || (disk.value.phase.Installing? && site.installs > 0)
            || (disk.value.phase.Launching? && site.launches > 0));
      worker := Idle;
      site := site.(unclear := site.unclear || inFlight);
      halted := true;
    }

    method PauseJob()
      modifies this`worker
      ensures Now() == Pause(old(Now()))
    {
      worker := Idle;
    }

    method CleanupLocal()
      modifies this`site
      ensures Now() == Cleaned(old(Now()))
    {
      site := site.(custody := NO_FILES);
    }

    // ----- the receipt -----

    method Save(next: Receipt, io: Io)
      modifies this`disk, this`claim
      ensures Now() == WriteReceipt(old(Now()), next, io)
    {
      var held := claim;
      claim := None;
      if io.save.LostBeforeLanding? { return; }
      disk := if next.IsTerminal() && io.prunedAtOnce then None else Some(next);
      if io.save.Saved? && !next.IsTerminal() && next.phase != HealthyUnclaimed && held == Some(next.executorGeneration) {
        claim := held;
      }
    }

    method Transit(r: Receipt, phase: Phase, facts: Facts, stale: Pc, io: Io)
      requires worker.At?
      modifies this
      ensures Now() == MoveTurn(old(Now()), r, phase, facts, stale, io)
      ensures disk != old(disk) ==>
        old(disk).Some? && old(disk).value.revision == r.revision
        && Transition(old(disk).value, old(claim), phase, facts, io.now).Ok?
      ensures worker.At? && !stale.Rereading? ==>
        worker.pc.Top? && worker.pc.r.phase == phase && disk == Some(worker.pc.r)
    {
      if disk.None? {
        Stop();
      } else if disk.value.revision != r.revision {
        LoseRace(stale);
      } else {
        var next := Transition(disk.value, claim, phase, facts, io.now);
        assert MoveTurn(Now(), r, phase, facts, stale, io) == Settle(Now(), next, io);
        SaveAndGo(next, io);
      }
    }

    method LoseRace(stale: Pc)
      requires worker.At?
      modifies this
      ensures Now() == if stale.Rereading? then Go(old(Now()), stale) else Die(old(Now()))
    {
      if stale.Rereading? { GoTo(stale); } else { Stop(); }
    }

    method SaveAndGo(next: Result<Receipt, JobError>, io: Io)
      requires worker.At?
      modifies this
      ensures Now() == Settle(old(Now()), next, io)
    {
      if next.Err? {
        Stop();
      } else {
        Save(next.value, io);
        if WriteReturns(next.value, io) { GoTo(Top(next.value)); } else { Stop(); }
      }
    }

    // ----- claiming -----

    method Claim(c: ClaimPc, again: bool, io: Io)
      requires worker.At?
      modifies this
      ensures Now() == AfterClaim(old(Now()), ClaimTurn(old(Now()), c, io), again)
      ensures disk != old(disk) && disk.Some? && disk.value.IsTerminal() ==> c.Confirm?
      ensures c.Clean? && worker.At? ==> site.custody == NO_FILES
    {
      if disk.None? {
        Stop();
      } else {
        match c {
          case Try(r) => AttemptClaim(r, None, again, io);
          case Reget => GoTo(Claiming(Clean(disk.value), again));
          case Clean(r) =>
            if io.cleaned {
              CleanupLocal();
              GoTo(Claiming(Confirm(r), again));
            } else {
              Stop();
            }
          case Confirm(r) => AttemptClaim(r, Some(r.revision), again, io);
        }
      }
    }

    method AttemptClaim(r: Receipt, confirmed: Option<int>, again: bool, io: Io)
      requires worker.At? && disk.Some?
      modifies this
      ensures Now() == AfterClaim(old(Now()), ClaimAttempt(old(Now()), r, confirmed, io), again)
    {
      if disk.value.revision != r.revision {
        if again { Stop(); } else { GoTo(Begin(true)); }
      } else {
        SettleClaim(ClaimReceipt(disk.value, claim, confirmed, io.now), again, io);
      }
    }

    method SettleClaim(next: Result<Receipt, JobError>, again: bool, io: Io)
      requires worker.At? && disk.Some?
      modifies this
      ensures Now() == AfterClaim(old(Now()), ClaimSettles(old(Now()), next, io), again)
    {
      if next.Err? {
        if next.error.CleanupRequiredError? { GoTo(Claiming(Reget, again)); } else { Stop(); }
      } else if next.value == disk.value {
        GoTo(Top(disk.value));
      } else if !ReceiptOk(next.value) && !(next.value.IsTerminal() && io.prunedAtOnce) {
        claim := None;
        Stop();
      } else {
        Save(next.value, io);
        if WriteReturns(next.value, io) {
          if !next.value.IsTerminal() { claim := Some(next.value.executorGeneration); }
          GoTo(Top(next.value));
        } else {
          Stop();
        }
      }
    }

    /** After a lost compare-and-swap: obey a cancel request of the same phase and generation. */
    method Reread(r: Receipt)
      requires worker.At?
      modifies this
      ensures Now() == RereadTurn(old(Now()), r)
      ensures if worker.At? then worker.pc == Top(disk.value) && disk.value.cancelRequested else halted
    {
      if disk.Some? && disk.value.phase == r.phase && disk.value.executorGeneration == r.executorGeneration
         && disk.value.cancelRequested {
        GoTo(Top(disk.value));
      } else {
        Stop();
      }
    }

    // ----- the loop head -----

    method Head(r: Receipt, io: Io)
      requires worker.At?
      modifies this
      ensures Now() == AtTop(old(Now()), r, io)
      ensures site == old(site) && disk == old(disk) && claim == old(claim)
      ensures worker.At? && worker.pc.Authorize? && worker.pc.act.Push? ==> old(worker).local && !r.cancelRequested
      ensures worker.At? && worker.pc.Authorize? && !worker.pc.act.Push? ==> old(worker).staged
      ensures worker.At? && worker.pc.Authorize? && r.cancelRequested ==> worker.pc.act.EraseCancelled?
    {
      if r.IsTerminal() || r.phase == HealthyUnclaimed {
        PauseJob();
      } else {
        var pc := NextPc(r, worker.local, worker.staged, io);
        if r.phase == Installed && !r.cancelRequested {
          worker := worker.(staged := true);
        }
        GoTo(pc);
      }
    }

    // ----- the panel -----

    method Authorized(r: Receipt, act: Act, io: Io)
      requires worker.At?
      modifies this
      ensures Now() == AuthorizeTurn(old(Now()), r, act, io)
      ensures worker.At? ==> site == old(site)
      ensures worker.At? && worker.pc.Barrier? && io.ok ==>
        disk == Some(worker.pc.r) && worker.pc.r.revision == r.revision && worker.pc.act == act
    {
      if !io.ok {
        GoTo(DeniedPc(r, act));
      } else if disk.None? {
        Stop();
      } else {
        var d := disk.value;
        if d.revision == r.revision && d.phase == r.phase && d.executorGeneration == r.executorGeneration {
          GoTo(Barrier(d, act));
        } else if act == Push && d.phase == r.phase && d.executorGeneration == r.executorGeneration && d.cancelRequested {
          GoTo(Top(d));
        } else {
          Stop();
        }
      }
    }

    method VerifyBarrier(r: Receipt, act: Act)
      requires worker.At?
      modifies this
      ensures Now() == BarrierTurn(old(Now()), r, act)
      ensures worker.At? ==>
        worker.pc == Acting(disk.value, act) && disk.value.revision == r.revision && HoldsClaim(disk, claim)
        && (disk.value.cancelRequested <==> act.EraseCancelled?)
      ensures site.pushes == old(site).pushes && site.installs == old(site).installs
    {
      if disk.None? || disk.value.revision != r.revision {
        Stop();
      } else if disk.value.phase != r.phase || disk.value.cancelRequested != BarrierCancelled(act)
                || claim != Some(disk.value.executorGeneration) {
        Stop();
        claim := None;
      } else {
        GoTo(Acting(disk.value, act));
      }
    }

    method StageApk(r: Receipt, io: Io)
      requires worker.At?
      modifies this
      ensures Now() == PushTurn(old(Now()), r, io)
      ensures site.pushes <= old(site).pushes + 1 && (site.pushes > old(site).pushes ==> old(site).slot == Empty)
      ensures site.slot == Mine && old(site).slot != Mine ==> worker.staged || site.unclear
      ensures worker.pc.Moving? ==> worker.staged && site.slot == Mine
    {
      if io.push.PushNotIssued? || site.slot != Empty {
        GoTo(CleanThenFail(r, io.code));
        return;
      }
      site := site.(pushes := site.pushes + 1);
      if io.push.Pushed? {
        site := site.(slot := Mine);
        worker := worker.(staged := true);
        GoTo(PlainMove(r, Installing));
      } else {
        if io.push.landed { site := site.(slot := Mine); }
        site := site.(unclear := true);
        GoTo(RecGet(AmbiguousMutation));
      }
    }

    method InstallStaged(r: Receipt, io: Io)
      requires worker.At?
      modifies this
      ensures Now() == InstallTurn(old(Now()), r, io)
      ensures site.installs <= old(site).installs + 1 && site.slot == old(site).slot
      ensures worker.pc.Moving? || worker.pc.Authorize? ==> site.installs == old(site).installs + 1
      ensures site.unclear && !old(site).unclear ==> worker.pc == RecGet(AmbiguousMutation)
    {
      if !io.install.InstallNotIssued? { site := site.(installs := site.installs + 1); }
      match io.install {
        case InstallNotIssued => GoTo(RecGet(if io.cleaned then VerificationRequired else AmbiguousMutation));
        case Installs => GoTo(PlainMove(r, Installed));
        case InstallRefused => GoTo(Authorize(r, EraseRefused));
        case InstallUnclear =>
          site := site.(unclear := true);
          GoTo(RecGet(AmbiguousMutation));
      }
    }

    method LaunchApp(r: Receipt, io: Io)
      requires worker.At?
      modifies this
      ensures Now() == LaunchTurn(old(Now()), r, io)
      ensures site.launches <= old(site).launches + 1 && site.slot == old(site).slot
      ensures worker.pc.Moving? ==> site.launches == old(site).launches + 1
      ensures site.unclear && !old(site).unclear ==> worker.pc == RecGet(AmbiguousMutation)
    {
      if !io.launch.LaunchNotIssued? { site := site.(launches := site.launches + 1); }
      match io.launch {
        case LaunchNotIssued(drifted) => GoTo(if drifted then RecGet(VerificationRequired) else FailGet(LaunchFailed));
        case Started => GoTo(PlainMove(r, HealthCheck));
        case LaunchRefused => GoTo(FailGet(LaunchFailed));
        case LaunchUnclear =>
          site := site.(unclear := true);
          GoTo(RecGet(AmbiguousMutation));
      }
    }

    method CleanupStaged(r: Receipt, act: Act, io: Io)
      requires worker.At?
      modifies this
      ensures Now() == EraseTurn(old(Now()), r, act, io)
      ensures site.slot == Empty || (site.slot == old(site).slot && worker.pc.RecGet?)
      ensures site.unclear && !old(site).unclear ==> worker.pc == RecGet(AmbiguousMutation)
    {
      match io.erase {
        case EraseNotIssued => GoTo(RecGet(VerificationRequired));
        case EraseUnclear(gone) =>
          if gone { site := site.(slot := Empty); }
          site := site.(unclear := true);
          GoTo(RecGet(AmbiguousMutation));
        case Erased =>
          site := site.(slot := Empty);
          if act.EraseRefused? {
            GoTo(CleanRefused(r));
          } else if act.EraseInstalled? {
            GoTo(Authorize(r, Launch));
          } else {
            GoTo(AfterErasedCancel(r, worker.local));
          }
      }
    }

    method Act(r: Receipt, act: Act, io: Io)
      requires worker.At?
      modifies this
      ensures Now() == ActTurn(old(Now()), r, act, io)
    {
      if !io.ok {
        GoTo(DeniedPc(r, act));
      } else if act.Push? {
        StageApk(r, io);
      } else if act.Install? {
        InstallStaged(r, io);
      } else if act.Launch? {
        LaunchApp(r, io);
      } else {
        CleanupStaged(r, act, io);
      }
    }

    // ----- local files -----

    method KeepArtifact(r: Receipt)
      requires worker.At?
      modifies this
      ensures Now() == TakeDelivery(old(Now()), r)
    {
      worker := worker.(local := true);
      if r.phase == Downloading {
        GoTo(Moving(r, ArtifactReady, NO_FACTS.(actualBytes := Some(r.artifact.apkSize))));
      } else if r.phase == ArtifactReady {
        GoTo(PlainMove(r, Revalidating));
      } else {
        GoTo(Recheck(r));
      }
    }

    method BeginFetch(r: Receipt, io: Io)
      requires worker.At?
      modifies this
      ensures Now() == FetchTurn(old(Now()), r, io)
      ensures old(site).custody.partial || old(site).custody.ready ==> site == old(site)
      ensures worker.local && !old(worker).local ==> site.custody == Custody(false, true)
    {
      if site.custody.ready {
        if io.ok && !site.custody.partial { KeepArtifact(r); } else { GoTo(CleanThenFail(r, io.code)); }
      } else if site.custody.partial {
        GoTo(ClearStale(r));
      } else if !io.ok {
        GoTo(CleanThenFail(r, io.code));
      } else {
        site := site.(custody := Custody(true, false));
        GoTo(Fetching(r));
      }
    }

    method EndFetch(r: Receipt, io: Io)
      requires worker.At?
      modifies this
      ensures Now() == FetchEndTurn(old(Now()), r, io)
      ensures worker.local && !old(worker).local ==> site.custody == Custody(false, true)
    {
      match io.download {
        case Delivered =>
          site := site.(custody := Custody(false, true));
          KeepArtifact(r);
        case Broken(partial, ready) =>
          site := site.(custody := Custody(partial, ready));
          GoTo(CleanThenFail(r, io.code));
      }
    }

    method ClearStalePartial(r: Receipt, io: Io)
      requires worker.At?
      modifies this
      ensures Now() == ClearStaleTurn(old(Now()), r, io)
      ensures worker.At? ==> !old(worker).stale && worker.stale && site.custody == NO_FILES
      ensures old(worker).stale ==> halted
    {
      if worker.stale {
        Stop();
      } else if io.cleaned {
        worker := worker.(stale := true);
        CleanupLocal();
        GoTo(Top(r));
      } else {
        PauseJob();
      }
    }

    method CleanupThenFail(r: Receipt, code: ResultCode, io: Io)
      requires worker.At?
      modifies this
      ensures Now() == CleanThenFailTurn(old(Now()), r, code, io)
      ensures worker.At? && worker.pc.FailGet? ==> site.custody == NO_FILES
    {
      if io.cleaned {
        CleanupLocal();
        GoTo(FailGet(code));
      } else if r.phase == Staging {
        GoTo(RecGet(VerificationRequired));
      } else {
        PauseJob();
      }
    }

    method CleanupThen(next: Pc, io: Io)
      requires worker.At?
      modifies this
      ensures Now() == CleanTurn(old(Now()), next, io)
    {
      if io.cleaned {
        CleanupLocal();
        GoTo(next);
      } else {
        GoTo(RecGet(VerificationRequired));
      }
    }

    method CleanupCancelled(r: Receipt, io: Io)
      requires worker.At?
      modifies this
      ensures Now() == CancelCleanTurn(old(Now()), r, io)
      ensures worker.At? && worker.pc.Moving? ==> worker.pc.phase == Cancelled && site.custody == NO_FILES
    {
      if io.cleaned {
        CleanupLocal();
        GoTo(CancelledMove(r));
      } else if r.phase == Staging {
        GoTo(RecGet(VerificationRequired));
      } else {
        PauseJob();
      }
    }

    // ----- the loop -----

    /** Reads the receipt and goes on with what `found` makes of it, unless the job has ended. */
    method Reload(found: Receipt -> Pc)
      requires worker.At?
      modifies this
      ensures Now() == GetTurn(old(Now()), found)
    {
      if disk.None? {
        Stop();
      } else if disk.value.IsTerminal() {
        GoTo(Top(disk.value));
      } else {
        GoTo(found(disk.value));
      }
    }

    method LoopAwait(io: Io)
      requires worker.At? && LoopPc(worker.pc)
      modifies this
      ensures Now() == LoopTurn(old(Now()), io)
    {
      match worker.pc {
        case Begin(again) =>
          if disk.None? { Stop(); } else { GoTo(Claiming(Try(disk.value), again)); }
        case Claiming(c, again) => Claim(c, again, io);
        case Top(r) => Head(r, io);
        case Moving(r, phase, facts) => Transit(r, phase, facts, Rereading(r), io);
        case Rereading(r) => Reread(r);
      }
    }

    method EndAwait(io: Io)
      requires worker.At? && EndPc(worker.pc)
      modifies this
      ensures Now() == EndTurn(old(Now()), io)
    {
      match worker.pc {
        case FailGet(code) => Reload(d => FailMove(d, code));
        case FailMove(r, code) => Transit(r, Failed, Ending(code), Top(r), io);
        case RecGet(code) => Reload(d => RecClean(code));
        case RecClean(code) =>
          if io.cleaned {
            CleanupLocal();
            GoTo(RecGetAgain(code));
          } else {
            Stop();
          }
        case RecGetAgain(code) => Reload(d => RecMove(d, code));
        case RecMove(r, code) => Transit(r, RecoveryRequired, Ending(code), Top(r), io);
      }
    }

    method PanelAwait(io: Io)
      requires worker.At? && ActPc(worker.pc)
      modifies this
      ensures Now() == PanelTurn(old(Now()), io)
    {
      match worker.pc {
        case Authorize(r, act) => Authorized(r, act, io);
        case Barrier(r, act) => VerifyBarrier(r, act);
        case Acting(r, act) => Act(r, act, io);
      }
    }

    method ArtifactAwait(io: Io)
      requires worker.At? && FetchPc(worker.pc)
      modifies this
      ensures Now() == ArtifactTurn(old(Now()), io)
    {
      match worker.pc {
        case Fetch(r) => BeginFetch(r, io);
        case Fetching(r) => EndFetch(r, io);
        case ClearStale(r) => ClearStalePartial(r, io);
        case Recheck(r) => GoTo(if io.ok then PlainMove(r, Staging) else CleanThenFail(r, io.code));
      }
    }

    method CleanupAwait(io: Io)
      requires worker.At? && CleanPc(worker.pc)
      modifies this
      ensures Now() == CleanupTurn(old(Now()), io)
    {
      match worker.pc {
        case CleanThenFail(r, code) => CleanupThenFail(r, code, io);
        case CleanInstalled(r) => CleanupThen(PlainMove(r, Launching), io);
        case CleanRefused(r) => CleanupThen(FailGet(InstallFailed), io);
        case CancelClean(r) => CleanupCancelled(r, io);
      }
    }

    method TakeTurn(io: Io)
      requires worker.At?
      modifies this
      ensures Now() == Turn(old(Now()), io)
    {
      if LoopPc(worker.pc) {
        LoopAwait(io);
      } else if ActPc(worker.pc) {
        PanelAwait(io);
      } else if EndPc(worker.pc) {
        EndAwait(io);
      } else if FetchPc(worker.pc) {
        ArtifactAwait(io);
      } else {
        CleanupAwait(io);
      }
    }

    /** A cancel request that reaches the store between two awaits. */
    method CancelArrives(io: Io)
      modifies this
      ensures Now() == (if old(disk).None? then old(Now())
                        else OutsiderWrites(old(Now()), RequestCancel(old(disk).value, io.now), io))
    {
      if disk.Some? {
        var next := RequestCancel(disk.value, io.now);
        if next.Ok? && next.value != disk.value && ReceiptOk(next.value) { Save(next.value, io); }
      }
    }

    method NoteCancel()
      modifies this`site
      ensures Now() == Noted(old(Now()))
    {
      site := site.(cancelSeen := site.cancelSeen || (disk.Some? && disk.value.cancelRequested));
    }

    /** One turn, with what it records. */
    method Round(io: Io)
      requires Inv(Now()) && worker.At?
      modifies this
      ensures Inv(Now()) && Budget(worker) < old(Budget(worker))
    {
      StepKeeps(Now(), WorkerTurn(io));
      TurnSpends(Now(), io);
      TakeTurn(io);
      NoteCancel();
    }

    /** A cancel request between two turns leaves the worker where it is. */
    method Interrupt(io: Io)
      requires Inv(Now())
      modifies this
      ensures Inv(Now()) && worker == old(worker)
    {
      if disk.Some? {
        CancelKeeps(Now(), io);
        NotingKeeps(OutsiderWrites(Now(), RequestCancel(disk.value, io.now), io));
        CancelArrives(io);
        NoteCancel();
      }
    }

    /** The worker's whole loop against an environment that may ask for cancellation between any
        two awaits: it ends, and everything it kept is kept. */
    method Run(env: nat -> Io, asks: nat -> bool)
      requires Inv(Now())
      modifies this
      ensures Inv(Now()) && worker.Idle?
    {
      var n := 0;
      while worker.At?
        invariant Inv(Now())
        decreases Budget(worker)
      {
        Round(env(n));
        if asks(n) { Interrupt(env(n)); }
        n := n + 1;
      }
    }
  }
}
