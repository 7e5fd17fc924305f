/** The worker loop always ends, and ends well when nothing goes wrong.

    Between two starts the worker takes a bounded number of turns against any environment:
    each turn advances the phase, first observes the cancel, spends the one stale-partial
    removal, ends or pauses. */
module InstallProgress {
  import opened Wrappers
  import opened Receipts
  import opened InstallProtocol
  import opened InstallSafety

  function Bit(b: bool): nat { if b then 0 else 1 }

  /** Loop heads a worker holding `r` can still come to. */
  function Room(r: Receipt, stale: bool): nat {
    12 - Rank(r.phase) + Bit(r.cancelRequested) + Bit(stale)
  }

  predicate Second(act: Act) { act.EraseRefused? || act.Launch? }

  function ClaimBudget(c: ClaimPc): nat {
    match c
    case Try(_) => 4
    case Reget => 3
    case Clean(_) => 2
    case Confirm(_) => 1
  }

  /** Turns left inside one pass of the loop. */
  function PassBudget(pc: Pc): nat {
    match pc
    case Top(_) => 20
    case Fetch(_) => 19
    case Fetching(_) => 18
    case ClearStale(_) => 17
    case Authorize(_, act) => if Second(act) then 16 else 19
    case Barrier(_, act) => if Second(act) then 15 else 18
    case Acting(_, act) => if Second(act) then 14 else 17
    case Recheck(_) => 14
    case CleanThenFail(_, _) => 13
    case CleanInstalled(_) => 13
    case CleanRefused(_) => 13
    case CancelClean(_) => 13
    case Moving(_, _, _) => 11
    case Rereading(_) => 10
    case _ => 0
  }

  /** A bound on the turns a worker at this await can still take. */
  function PcBudget(pc: Pc, stale: bool): nat {
    match pc
    case Begin(again) => if again then 610 else 620
    case Claiming(c, again) => (if again then 600 else 611) + ClaimBudget(c)
    case Top(r) => if Workable(r.phase) then 32 * Room(r, stale) + 20 else 1
    case FailGet(_) => 9
    case FailMove(_, _) => 8
    case RecGet(_) => 9
    case RecClean(_) => 8
    case RecGetAgain(_) => 7
    case RecMove(_, _) => 6
    case _ => 32 * Room(pc.r, stale) + PassBudget(pc)
  }

  function Budget(worker: Worker): nat {
    if worker.Idle? then 0 else PcBudget(worker.pc, worker.stale)
  }

  // ----- every turn spends -----

  lemma SettlingSpends(w: World, next: Result<Receipt, JobError>, io: Io)
    requires w.worker.At?
    ensures Budget(Settle(w, next, io).worker) <=
      if next.Ok? then Budget(w.worker.(pc := Top(next.value))) else 0
  {}

  lemma MovingSpends(w: World, r: Receipt, phase: Phase, facts: Facts, io: Io)
    requires Inv(w) && w.worker.At? && w.worker.pc == Moving(r, phase, facts)
    ensures Budget(MoveTurn(w, r, phase, facts, Rereading(r), io).worker) < Budget(w.worker)
  {
    if w.disk.Some? && w.disk.value.revision == r.revision {
      var next := Transition(w.disk.value, w.claim, phase, facts, io.now);
      SettlingSpends(w, next, io);
      if next.Ok? {
        TransitionFollows(w.disk.value, w.claim, phase, facts, io.now);
        PassSpends(w, r, w.disk.value, next.value);
      }
    }
  }

  lemma PassSpends(w: World, r: Receipt, d: Receipt, next: Receipt)
    requires Inv(w) && w.worker.At? && w.worker.pc.Moving? && w.worker.pc.r == r
    requires Snap(w.disk, w.site, w.worker.staged, r) && w.disk == Some(d) && d.revision == r.revision
    requires Follows(d, next, w.claim)
    ensures Budget(w.worker.(pc := Top(next))) < Budget(w.worker)
  {}

  lemma EndingSpends(w: World, r: Receipt, phase: Phase, code: ResultCode, io: Io)
    requires w.worker.At? && (w.worker.pc == FailMove(r, code) || w.worker.pc == RecMove(r, code))
    requires Terminal(phase)
    ensures Budget(MoveTurn(w, r, phase, Ending(code), Top(r), io).worker) < Budget(w.worker)
  {
    if w.disk.Some? && w.disk.value.revision == r.revision {
      var next := Transition(w.disk.value, w.claim, phase, Ending(code), io.now);
      SettlingSpends(w, next, io);
    }
  }

  lemma ClaimSpends(w: World, c: ClaimPc, again: bool, io: Io)
    requires Inv(w) && w.worker.At? && w.worker.pc == Claiming(c, again)
    ensures Budget(AfterClaim(w, ClaimTurn(w, c, io), again).worker) < Budget(w.worker)
  {
    if w.disk.Some? {
      match c
      case Try(r) => ClaimSettlingSpends(w, None, again, io);
      case Confirm(r) => ClaimSettlingSpends(w, Some(r.revision), again, io);
      case _ =>
    }
  }

  lemma ClaimSettlingSpends(w: World, confirmed: Option<int>, again: bool, io: Io)
    requires w.worker.At? && w.disk.Some?
    ensures var step := ClaimSettles(w, ClaimReceipt(w.disk.value, w.claim, confirmed, io.now), io);
      && (step.ClaimMoves? ==> confirmed.None? && step.c == Reget)
      && (step.ClaimWon? ==> Budget(w.worker.(pc := Top(step.r))) <= 500)
  {}

  lemma RereadSpends(w: World, r: Receipt)
    requires Inv(w) && w.worker.At? && w.worker.pc == Rereading(r)
    ensures Budget(RereadTurn(w, r).worker) < Budget(w.worker)
  {}

  lemma TopSpends(w: World, r: Receipt, io: Io)
    requires w.worker.At? && w.worker.pc == Top(r)
    ensures Budget(AtTop(w, r, io).worker) < Budget(w.worker)
  {
    if Workable(r.phase) {
      NextSpends(r, w.worker.local, w.worker.staged, w.worker.stale, io);
    }
  }

  lemma NextSpends(r: Receipt, local: bool, staged: bool, stale: bool, io: Io)
    requires Workable(r.phase)
    ensures PcBudget(NextPc(r, local, staged, io), stale) < PcBudget(Top(r), stale)
  {
    if !r.cancelRequested {
      match r.phase
      case Approved =>
      case Authorizing =>
      case Preflight =>
      case Downloading =>
      case ArtifactReady =>
      case Revalidating =>
      case Staging =>
      case Installing =>
      case Installed =>
      case Launching =>
      case HealthCheck =>
    }
  }

  lemma AuthorizeSpends(w: World, r: Receipt, act: Act, io: Io)
    requires w.worker.At? && w.worker.pc == Authorize(r, act) && ActOk(w.disk, w.site, w.worker.staged, r, act)
    ensures Budget(AuthorizeTurn(w, r, act, io).worker) < Budget(w.worker)
  {
    if io.ok && w.disk.Some? {
      var d := w.disk.value;
      if d.revision == r.revision && d.phase == r.phase {
        assert d == r;
      } else {
        assert d.phase == r.phase && d.cancelRequested && act == Push ==> !r.cancelRequested;
      }
    }
  }

  lemma BarrierSpends(w: World, r: Receipt, act: Act)
    requires w.worker.At? && w.worker.pc == Barrier(r, act) && ActOk(w.disk, w.site, w.worker.staged, r, act)
    ensures Budget(BarrierTurn(w, r, act).worker) < Budget(w.worker)
  {
    if w.disk.Some? && w.disk.value.revision == r.revision {
      assert w.disk.value.phase == r.phase ==> w.disk.value == r;
    }
  }

  lemma PushSpends(w: World, r: Receipt, io: Io)
    requires w.worker.At? && w.worker.pc == Acting(r, Push) && Workable(r.phase)
    ensures Budget(PushTurn(w, r, io).worker) < Budget(w.worker)
  {}

  lemma InstallSpends(w: World, r: Receipt, io: Io)
    requires w.worker.At? && w.worker.pc == Acting(r, Install) && Workable(r.phase)
    ensures Budget(InstallTurn(w, r, io).worker) < Budget(w.worker)
  {
    match io.install
    case InstallNotIssued =>
    case Installs =>
    case InstallRefused =>
    case InstallUnclear =>
  }

  lemma LaunchSpends(w: World, r: Receipt, io: Io)
    requires w.worker.At? && w.worker.pc == Acting(r, Launch) && Workable(r.phase)
    ensures Budget(LaunchTurn(w, r, io).worker) < Budget(w.worker)
  {}

  lemma EraseSpends(w: World, r: Receipt, act: Act, io: Io)
    requires w.worker.At? && w.worker.pc == Acting(r, act) && Workable(r.phase)
    requires act.EraseRefused? || act.EraseInstalled? || act.EraseCancelled?
    ensures Budget(EraseTurn(w, r, act, io).worker) < Budget(w.worker)
  {
    if io.erase.Erased? {
      match act
      case EraseRefused =>
      case EraseInstalled =>
      case EraseCancelled =>
    }
  }

  lemma ActingSpends(w: World, r: Receipt, act: Act, io: Io)
    requires w.worker.At? && w.worker.pc == Acting(r, act) && Workable(r.phase)
    ensures Budget(ActTurn(w, r, act, io).worker) < Budget(w.worker)
  {
    if io.ok {
      match act
      case Push => PushSpends(w, r, io);
      case Install => InstallSpends(w, r, io);
      case Launch => LaunchSpends(w, r, io);
      case _ => EraseSpends(w, r, act, io);
    }
  }

  lemma FetchSpends(w: World, r: Receipt, io: Io)
    requires w.worker.At? && w.worker.pc == Fetch(r)
    ensures Budget(FetchTurn(w, r, io).worker) < Budget(w.worker)
  {}

  lemma FetchEndSpends(w: World, r: Receipt, io: Io)
    requires w.worker.At? && w.worker.pc == Fetching(r)
    ensures Budget(FetchEndTurn(w, r, io).worker) < Budget(w.worker)
  {}

  lemma ArtifactSpends(w: World, io: Io)
    requires w.worker.At? && FetchPc(w.worker.pc)
    ensures Budget(ArtifactTurn(w, io).worker) < Budget(w.worker)
  {
    match w.worker.pc
    case Fetch(r) => FetchSpends(w, r, io);
    case Fetching(r) => FetchEndSpends(w, r, io);
    case ClearStale(_) =>
    case Recheck(_) =>
  }

  lemma CleanupSpends(w: World, io: Io)
    requires w.worker.At? && CleanPc(w.worker.pc) && Workable(w.worker.pc.r.phase)
    ensures Budget(CleanupTurn(w, io).worker) < Budget(w.worker)
  {
    match w.worker.pc
    case CleanThenFail(_, _) =>
    case CleanInstalled(_) =>
    case CleanRefused(_) =>
    case CancelClean(_) =>
  }

  lemma LoopSpends(w: World, io: Io)
    requires Inv(w) && w.worker.At? && LoopPc(w.worker.pc)
    ensures Budget(LoopTurn(w, io).worker) < Budget(w.worker)
  {
    match w.worker.pc
    case Begin(_) =>
    case Claiming(c, again) => ClaimSpends(w, c, again, io);
    case Top(r) => TopSpends(w, r, io);
    case Moving(r, phase, facts) => MovingSpends(w, r, phase, facts, io);
    case Rereading(r) => RereadSpends(w, r);
  }

  lemma PanelSpends(w: World, io: Io)
    requires Inv(w) && w.worker.At? && ActPc(w.worker.pc)
    ensures Budget(PanelTurn(w, io).worker) < Budget(w.worker)
  {
    match w.worker.pc
    case Authorize(r, act) => AuthorizeSpends(w, r, act, io);
    case Barrier(r, act) => BarrierSpends(w, r, act);
    case Acting(r, act) => ActingSpends(w, r, act, io);
  }

  lemma EndSpends(w: World, io: Io)
    requires w.worker.At? && EndPc(w.worker.pc)
    ensures Budget(EndTurn(w, io).worker) < Budget(w.worker)
  {
    match w.worker.pc
    case FailMove(r, code) => EndingSpends(w, r, Failed, code, io);
    case RecMove(r, code) => EndingSpends(w, r, RecoveryRequired, code, io);
    case _ =>
  }

  lemma TurnSpends(w: World, io: Io)
    requires Inv(w) && w.worker.At?
    ensures Budget(Turn(w, io).worker) < Budget(w.worker)
  {
    if LoopPc(w.worker.pc) {
      LoopSpends(w, io);
    } else if ActPc(w.worker.pc) {
      PanelSpends(w, io);
    } else if EndPc(w.worker.pc) {
      EndSpends(w, io);
    } else if FetchPc(w.worker.pc) {
      ArtifactSpends(w, io);
    } else {
      CleanupSpends(w, io);
    }
  }

  // ----- over whole runs -----

  lemma OthersSpendNothing(w: World, e: Event)
    requires !e.WorkerTurn? && !e.EnsureJob?
    ensures Effect(w, e).worker == w.worker || Effect(w, e).worker.Idle?
  {
    if e.ResumeTurn? && !w.resumer.Resting? {
      ScanLeavesWorker(w, e.io);
    }
  }

  lemma ScanLeavesWorker(w: World, io: Io)
    requires !w.resumer.Resting?
    ensures ScanTurn(w, io).worker == w.worker
  {
    if w.resumer.Scanning? && w.disk.Some? {
      match w.resumer.c
      case Try(_) => ClaimLeavesWorker(w, ClaimReceipt(w.disk.value, w.claim, None, io.now), io);
      case Confirm(r) => ClaimLeavesWorker(w, ClaimReceipt(w.disk.value, w.claim, Some(r.revision), io.now), io);
      case _ =>
    }
  }

  lemma ClaimLeavesWorker(w: World, next: Result<Receipt, JobError>, io: Io)
    requires w.disk.Some?
    ensures match ClaimSettles(w, next, io) {
      case ClaimMoves(w1, _) => w1.worker == w.worker
      case ClaimWon(w1, _) => w1.worker == w.worker
      case ClaimStale => true
      case ClaimRaised(w1) => w1.worker == w.worker
    }
  {}

  /** Turns the worker really took. */
  function TurnsTaken(w: World, events: seq<Event>): nat
    decreases |events|
  {
    if |events| == 0 then 0
    else
      var before := events[..|events| - 1];
      TurnsTaken(w, before) + (if events[|events| - 1].WorkerTurn? && After(w, before).worker.At? then 1 else 0)
  }

  /** Until it is started again, a worker takes no more turns than its budget, whatever else happens. */
  lemma {:induction false} TurnsAreBounded(w: World, events: seq<Event>)
    requires Inv(w) && EnsureJob !in events
    ensures Inv(After(w, events))
    ensures TurnsTaken(w, events) + Budget(After(w, events).worker) <= Budget(w.worker)
    decreases |events|
  {
    if |events| > 0 {
      var before, e := events[..|events| - 1], events[|events| - 1];
      assert events == before + [e];
      TurnsAreBounded(w, before);
      StepKeeps(After(w, before), e);
      StepSpends(After(w, before), e);
    }
  }

  lemma StepSpends(v: World, e: Event)
    requires Inv(v) && e != EnsureJob
    ensures Budget(Step(v, e).worker) + (if e.WorkerTurn? && v.worker.At? then 1 else 0) <= Budget(v.worker)
  {
    if e.WorkerTurn? {
      if v.worker.At? {
        TurnSpends(v, e.io);
      }
    } else {
      OthersSpendNothing(v, e);
    }
  }
}
