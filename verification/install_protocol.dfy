/** One install job end to end: the durable receipt, this process's claim on it, the worker
    that drives the panel, the resume scan, local custody and the panel's one staging slot.

    Every value of `Pc` is an await of the worker; any event may fall between two turns.
    A lost process or worker keeps only what is durable: the receipt, the files, the panel. */
module InstallProtocol {
  import opened Wrappers
  import opened Receipts

  // ----- what the environment decides -----

  /** A drained store write: saved and verified, or failed (or cancelled) with the bytes on
      disk or not. A failure drops every claim this process holds. */
  datatype SaveFate = Saved | LostAfterLanding | LostBeforeLanding

  datatype DownloadEnd = Delivered | Broken(leavesPartial: bool, leavesReady: bool)

  /** A mutation either was not issued, or was issued with a definite or an unclear outcome. */
  datatype PushEnd = PushNotIssued | Pushed | PushUnclear(landed: bool)
  datatype InstallEnd = InstallNotIssued | Installs | InstallRefused | InstallUnclear
  datatype LaunchEnd = LaunchNotIssued(targetDrifted: bool) | Started | LaunchRefused | LaunchUnclear
  datatype EraseEnd = EraseNotIssued | Erased | EraseUnclear(gone: bool)

  datatype Io = Io(
    now: Time, healthAt: Time, ok: bool, code: ResultCode, mode: RootMode, save: SaveFate, prunedAtOnce: bool,
    cleaned: bool, download: DownloadEnd, push: PushEnd, install: InstallEnd, launch: LaunchEnd, erase: EraseEnd)

  // ----- state -----

  datatype Custody = Custody(partial: bool, ready: bool)
  const NO_FILES := Custody(false, false)

  /** The panel's staging slot: empty, holding what this job pushed, or another job's file. */
  datatype Slot = Empty | Mine | Foreign

  datatype Act = Push | Install | EraseRefused | EraseInstalled | Launch | EraseCancelled

  datatype ClaimPc = Try(r: Receipt) | Reget | Clean(r: Receipt) | Confirm(r: Receipt)

  datatype Pc =
    | Begin(again: bool)
    | Claiming(c: ClaimPc, again: bool)
    | Top(r: Receipt)
    | Moving(r: Receipt, phase: Phase, facts: Facts)
    | Rereading(r: Receipt)
    | FailGet(code: ResultCode)
    | FailMove(r: Receipt, code: ResultCode)
    | RecGet(code: ResultCode)
    | RecClean(code: ResultCode)
    | RecGetAgain(code: ResultCode)
    | RecMove(r: Receipt, code: ResultCode)
    | Fetch(r: Receipt)
    | Fetching(r: Receipt)
    | ClearStale(r: Receipt)
    | Recheck(r: Receipt)
    | CleanThenFail(r: Receipt, code: ResultCode)
    | Authorize(r: Receipt, act: Act)
    | Barrier(r: Receipt, act: Act)
    | Acting(r: Receipt, act: Act)
    | CleanInstalled(r: Receipt)
    | CleanRefused(r: Receipt)
    | CancelClean(r: Receipt)

  /** `local` and `staged` are the worker's in-memory proof of its own download and push. */
  datatype Worker = Idle | At(pc: Pc, local: bool, staged: bool, stale: bool)

  datatype Resumer = Resting | Scanning(c: ClaimPc, again: bool) | ScanGet

  /** The job's local files, the panel's slot and what was done to the panel so far: `pushes`,
      `installs` and `launches` count mutations issued over the whole history; `unclear`
      records that one ended with an outcome nobody durably knows, `cancelSeen` that a cancel
      request was ever durable. */
  datatype Site = Site(
    custody: Custody, slot: Slot, pushes: nat, installs: nat, launches: nat, unclear: bool, cancelSeen: bool)

  datatype World = World(
    disk: Option<Receipt>, claim: Option<int>, worker: Worker, resumer: Resumer, halted: bool, site: Site)

  predicate Live(disk: Option<Receipt>) {
    disk.Some? && !disk.value.IsTerminal()
  }

  predicate Ambiguous(disk: Option<Receipt>) {
    disk.Some? && RestartAmbiguous(disk.value.phase)
  }

  predicate HoldsClaim(disk: Option<Receipt>, claim: Option<int>) {
    disk.Some? && claim == Some(disk.value.executorGeneration)
  }

  /** A mutation of the current phase was issued and its outcome is not yet durable. */
  predicate InFlight(w: World) {
    w.disk.Some?
    && ((w.disk.value.phase.Staging? && w.site.pushes > 0)
        || (w.disk.value.phase.Installing? && w.site.installs > 0)
        || (w.disk.value.phase.Launching? && w.site.launches > 0))
  }

  // ----- leaving the loop -----

  function Go(w: World, pc: Pc): World
    requires w.worker.At?
  {
    w.(worker := w.worker.(pc := pc))
  }

  function Lost(w: World): World {
    w.(worker := Idle, site := w.site.(unclear := w.site.unclear || InFlight(w)))
  }

  /** The worker ends and this process never restarts it for the job. */
  function Die(w: World): World {
    Lost(w).(halted := true)
  }

  /** The worker ends and may be started again. */
  function Pause(w: World): World {
    w.(worker := Idle)
  }

  // ----- durable writes -----

  function WriteReceipt(w: World, next: Receipt, io: Io): World {
    var kept := if next.IsTerminal() && io.prunedAtOnce then None else Some(next);
    var live := !next.IsTerminal() && next.phase != HealthyUnclaimed && w.claim == Some(next.executorGeneration);
    match io.save
    case Saved => w.(disk := kept, claim := if live then w.claim else None)
    case LostAfterLanding => w.(disk := kept, claim := None)
    case LostBeforeLanding => w.(claim := None)
  }

  /** The call returns the written receipt; a receipt pruned by its own save raises instead. */
  predicate WriteReturns(next: Receipt, io: Io) {
    io.save.Saved? && !(next.IsTerminal() && io.prunedAtOnce)
  }

  // ----- claiming -----

  datatype ClaimStep =
    | ClaimMoves(w: World, c: ClaimPc) | ClaimWon(w: World, r: Receipt) | ClaimStale | ClaimRaised(w: World)

  /** One await of the claim procedure, shared by the worker and the resume scan. */
  function ClaimTurn(w: World, c: ClaimPc, io: Io): ClaimStep {
    if w.disk.None? then ClaimRaised(w)
    else
      var d := w.disk.value;
      match c
      case Try(r) => ClaimAttempt(w, r, None, io)
      case Reget => ClaimMoves(w, Clean(d))
      case Clean(r) =>
        if io.cleaned then ClaimMoves(Cleaned(w), Confirm(r))
        else ClaimRaised(w)
      case Confirm(r) => ClaimAttempt(w, r, Some(r.revision), io)
  }

  function ClaimAttempt(w: World, r: Receipt, confirmed: Option<int>, io: Io): ClaimStep
    requires w.disk.Some?
  {
    var d := w.disk.value;
    if d.revision != r.revision then ClaimStale
    else ClaimSettles(w, ClaimReceipt(d, w.claim, confirmed, io.now), io)
  }

  function ClaimSettles(w: World, next: Result<Receipt, JobError>, io: Io): ClaimStep
    requires w.disk.Some?
  {
    if next.Err? then
      (if next.error.CleanupRequiredError? then ClaimMoves(w, Reget) else ClaimRaised(w))
    else if next.value == w.disk.value then ClaimWon(w, w.disk.value)
    else if !ReceiptOk(next.value) && !(next.value.IsTerminal() && io.prunedAtOnce) then ClaimRaised(w.(claim := None))
    else
      var w1 := WriteReceipt(w, next.value, io);
      if WriteReturns(next.value, io)
      then ClaimWon(if next.value.IsTerminal() then w1 else w1.(claim := Some(next.value.executorGeneration)), next.value)
      else ClaimRaised(w1)
  }

  // ----- the worker -----

  function PlainMove(r: Receipt, phase: Phase): Pc {
    Moving(r, phase, NO_FACTS)
  }

  /** Where the loop head leads with a receipt still to be worked on. */
  function NextPc(r: Receipt, local: bool, staged: bool, io: Io): Pc {
    if r.cancelRequested then
      if r.phase == Staging && staged then Authorize(r, EraseCancelled) else AfterErasedCancel(r, local)
    else
      match r.phase
      case Approved => PlainMove(r, Authorizing)
      case Authorizing => if io.ok then PlainMove(r, Preflight) else FailGet(AuthorizationFailed)
      case Preflight =>
        if io.ok then Moving(r, Downloading, NO_FACTS.(rootMode := Some(io.mode))) else FailGet(io.code)
      case Downloading => Fetch(r)
      case ArtifactReady => if local then PlainMove(r, Revalidating) else Fetch(r)
      case Revalidating => if local then Recheck(r) else Fetch(r)
      case Staging => if local then Authorize(r, Push) else RecGet(AmbiguousMutation)
      case Installing => if staged then Authorize(r, Install) else RecGet(AmbiguousMutation)
      case Installed => CleanInstalled(r)
      case Launching => if staged then Authorize(r, EraseInstalled) else RecGet(AmbiguousMutation)
      case HealthCheck =>
        if io.ok then Moving(r, HealthyUnclaimed, NO_FACTS.(healthCheckedAt := Some(io.healthAt)))
        else RecGet(VerificationRequired)
      case _ => Top(r)
  }

  /** The loop head: what the worker does about the receipt it holds. An installed receipt
      proves the push, so it restores the worker's knowledge of the staged file. */
  function AtTop(w: World, r: Receipt, io: Io): World
    requires w.worker.At?
  {
    if r.IsTerminal() || r.phase == HealthyUnclaimed then Pause(w)
    else
      var known := w.worker.staged || (r.phase == Installed && !r.cancelRequested);
      Go(w.(worker := w.worker.(staged := known)), NextPc(r, w.worker.local, w.worker.staged, io))
  }

  /** After any staged file is erased, a cancelled job removes its local files if it can have some. */
  function AfterErasedCancel(r: Receipt, local: bool): Pc {
    if local || r.actualBytes.Some? || r.phase == Downloading then CancelClean(r) else CancelledMove(r)
  }

  function CancelledMove(r: Receipt): Pc {
    Moving(r, Cancelled, Ending(if r.phase == Staging then CancelledAfterStagingCleanup else CancelledByUser))
  }

  /** A compare-and-swap transition on the durable receipt. */
  function MoveTurn(w: World, r: Receipt, phase: Phase, facts: Facts, stale: Pc, io: Io): World
    requires w.worker.At?
  {
    if w.disk.None? then Die(w)
    else if w.disk.value.revision != r.revision then
      (if stale.Rereading? then Go(w, stale) else Die(w))
    else Settle(w, Transition(w.disk.value, w.claim, phase, facts, io.now), io)
  }

  /** What the worker makes of a transition: it goes on with what was written and verified. */
  function Settle(w: World, next: Result<Receipt, JobError>, io: Io): World
    requires w.worker.At?
  {
    if next.Err? then Die(w)
    else
      var w1 := WriteReceipt(w, next.value, io);
      if WriteReturns(next.value, io) then Go(w1, Top(next.value)) else Die(w1)
  }

  /** Which receipts the barrier before each act accepts. */
  function BarrierCancelled(act: Act): bool { act == EraseCancelled }

  function AuthorizeTurn(w: World, r: Receipt, act: Act, io: Io): World
    requires w.worker.At?
  {
    if !io.ok then Go(w, DeniedPc(r, act))
    else if w.disk.None? then Die(w)
    else
      var d := w.disk.value;
      if d.revision == r.revision && d.phase == r.phase && d.executorGeneration == r.executorGeneration then
        Go(w, Barrier(d, act))
      else if act == Push && d.phase == r.phase && d.executorGeneration == r.executorGeneration && d.cancelRequested then
        Go(w, Top(d))
      else Die(w)
  }

  function BarrierTurn(w: World, r: Receipt, act: Act): World
    requires w.worker.At?
  {
    if w.disk.None? || w.disk.value.revision != r.revision then Die(w)
    else if w.disk.value.phase != r.phase || w.disk.value.cancelRequested != BarrierCancelled(act) || !HoldsClaim(w.disk, w.claim)
    then Die(w).(claim := None)
    else Go(w, Acting(w.disk.value, act))
  }

  /** Where a missing network pin or credential leads before an act. */
  function DeniedPc(r: Receipt, act: Act): Pc {
    match act
    case Push => CleanThenFail(r, TransportFailed)
    case Launch => FailGet(LaunchFailed)
    case _ => RecGet(VerificationRequired)
  }

  function ActTurn(w: World, r: Receipt, act: Act, io: Io): World
    requires w.worker.At?
  {
    if !io.ok then Go(w, DeniedPc(r, act))
    else
      match act
      case Push => PushTurn(w, r, io)
      case Install => InstallTurn(w, r, io)
      case Launch => LaunchTurn(w, r, io)
      case _ => EraseTurn(w, r, act, io)
  }

  function PushTurn(w: World, r: Receipt, io: Io): World
    requires w.worker.At?
  {
    if io.push.PushNotIssued? || w.site.slot != Empty then Go(w, CleanThenFail(r, io.code))
    else if io.push.Pushed? then
      Go(w.(site := w.site.(pushes := w.site.pushes + 1, slot := Mine), worker := w.worker.(staged := true)),
         PlainMove(r, Installing))
    else
      var slot := if io.push.landed then Mine else w.site.slot;
      Go(w.(site := w.site.(pushes := w.site.pushes + 1, slot := slot, unclear := true)),
         RecGet(AmbiguousMutation))
  }

  function InstallTurn(w: World, r: Receipt, io: Io): World
    requires w.worker.At?
  {
    match io.install
    case InstallNotIssued => Go(w, RecGet(if io.cleaned then VerificationRequired else AmbiguousMutation))
    case Installs => Go(w.(site := w.site.(installs := w.site.installs + 1)), PlainMove(r, Installed))
    case InstallRefused => Go(w.(site := w.site.(installs := w.site.installs + 1)), Authorize(r, EraseRefused))
    case InstallUnclear =>
      Go(w.(site := w.site.(installs := w.site.installs + 1, unclear := true)), RecGet(AmbiguousMutation))
  }

  function LaunchTurn(w: World, r: Receipt, io: Io): World
    requires w.worker.At?
  {
    match io.launch
    case LaunchNotIssued(drifted) => Go(w, if drifted then RecGet(VerificationRequired) else FailGet(LaunchFailed))
    case Started => Go(w.(site := w.site.(launches := w.site.launches + 1)), PlainMove(r, HealthCheck))
    case LaunchRefused => Go(w.(site := w.site.(launches := w.site.launches + 1)), FailGet(LaunchFailed))
    case LaunchUnclear =>
      Go(w.(site := w.site.(launches := w.site.launches + 1, unclear := true)), RecGet(AmbiguousMutation))
  }

  /** Removing the staged file; what follows depends on why it was removed. */
  function EraseTurn(w: World, r: Receipt, act: Act, io: Io): World
    requires w.worker.At?
  {
    match io.erase
    case EraseNotIssued => Go(w, RecGet(VerificationRequired))
    case EraseUnclear(gone) =>
      var slot := if gone then Empty else w.site.slot;
      Go(w.(site := w.site.(slot := slot, unclear := true)), RecGet(AmbiguousMutation))
    case Erased =>
      var w1 := w.(site := w.site.(slot := Empty));
      match act
      case EraseRefused => Go(w1, CleanRefused(r))
      case EraseInstalled => Go(w1, Authorize(r, Launch))
      case _ => Go(w1, AfterErasedCancel(r, w1.worker.local))
  }

  /** The download: an existing partial is busy, an existing ready file is reused. */
  function FetchTurn(w: World, r: Receipt, io: Io): World
    requires w.worker.At?
  {
    if w.site.custody.ready then
      (if io.ok && !w.site.custody.partial then TakeDelivery(w, r) else Go(w, CleanThenFail(r, io.code)))
    else if w.site.custody.partial then Go(w, ClearStale(r))
    else if !io.ok then Go(w, CleanThenFail(r, io.code))
    else Go(w.(site := w.site.(custody := Custody(true, false))), Fetching(r))
  }

  function TakeDelivery(w: World, r: Receipt): World
    requires w.worker.At?
  {
    var w1 := w.(worker := w.worker.(local := true));
    if r.phase == Downloading
    then Go(w1, Moving(r, ArtifactReady, NO_FACTS.(actualBytes := Some(r.artifact.apkSize))))
    else if r.phase == ArtifactReady then Go(w1, PlainMove(r, Revalidating))
    else Go(w1, Recheck(r))
  }

  function FetchEndTurn(w: World, r: Receipt, io: Io): World
    requires w.worker.At?
  {
    match io.download
    case Delivered => TakeDelivery(w.(site := w.site.(custody := Custody(false, true))), r)
    case Broken(partial, ready) => Go(w.(site := w.site.(custody := Custody(partial, ready))), CleanThenFail(r, io.code))
  }

  function CleanThenFailTurn(w: World, r: Receipt, code: ResultCode, io: Io): World
    requires w.worker.At?
  {
    if io.cleaned then Go(Cleaned(w), FailGet(code))
    else if r.phase == Staging then Go(w, RecGet(VerificationRequired))
    else Pause(w)
  }

  function GetTurn(w: World, found: Receipt -> Pc): World
    requires w.worker.At?
  {
    if w.disk.None? then Die(w)
    else if w.disk.value.IsTerminal() then Go(w, Top(w.disk.value))
    else Go(w, found(w.disk.value))
  }

  function BeginTurn(w: World, again: bool): World
    requires w.worker.At?
  {
    if w.disk.None? then Die(w) else Go(w, Claiming(Try(w.disk.value), again))
  }

  /** A first stale claim is tried once more on a fresh receipt. */
  function AfterClaim(w: World, step: ClaimStep, again: bool): World
    requires w.worker.At?
  {
    match step
    case ClaimMoves(w1, c1) => Go(w1.(worker := w.worker), Claiming(c1, again))
    case ClaimWon(w1, r) => Go(w1.(worker := w.worker), Top(r))
    case ClaimStale => if again then Die(w) else Go(w, Begin(true))
    case ClaimRaised(w1) => Die(w1.(worker := w.worker))
  }

  /** After a lost compare-and-swap only a cancel request of the same phase and generation is obeyed. */
  function RereadTurn(w: World, r: Receipt): World
    requires w.worker.At?
  {
    if w.disk.Some? && w.disk.value.phase == r.phase && w.disk.value.executorGeneration == r.executorGeneration
       && w.disk.value.cancelRequested
    then Go(w, Top(w.disk.value)) else Die(w)
  }

  function Cleaned(w: World): World {
    w.(site := w.site.(custody := NO_FILES))
  }

  function RecCleanTurn(w: World, code: ResultCode, io: Io): World
    requires w.worker.At?
  {
    if io.cleaned then Go(Cleaned(w), RecGetAgain(code)) else Die(w)
  }

  /** One stale partial may be removed per worker. */
  function ClearStaleTurn(w: World, r: Receipt, io: Io): World
    requires w.worker.At?
  {
    if w.worker.stale then Die(w)
    else if io.cleaned then Go(Cleaned(w.(worker := w.worker.(stale := true))), Top(r))
    else Pause(w)
  }

  /** Local cleanup that leads on to `next`, or to recovery. */
  function CleanTurn(w: World, next: Pc, io: Io): World
    requires w.worker.At?
  {
    if io.cleaned then Go(Cleaned(w), next) else Go(w, RecGet(VerificationRequired))
  }

  function CancelCleanTurn(w: World, r: Receipt, io: Io): World
    requires w.worker.At?
  {
    if io.cleaned then Go(Cleaned(w), CancelledMove(r))
    else if r.phase == Staging then Go(w, RecGet(VerificationRequired))
    else Pause(w)
  }

  // ----- one turn -----

  predicate LoopPc(pc: Pc) { pc.Begin? || pc.Claiming? || pc.Top? || pc.Moving? || pc.Rereading? }

  predicate ActPc(pc: Pc) { pc.Authorize? || pc.Barrier? || pc.Acting? }

  predicate EndPc(pc: Pc) {
    pc.FailGet? || pc.FailMove? || pc.RecGet? || pc.RecClean? || pc.RecGetAgain? || pc.RecMove?
  }

  predicate FetchPc(pc: Pc) { pc.Fetch? || pc.Fetching? || pc.ClearStale? || pc.Recheck? }

  predicate CleanPc(pc: Pc) { pc.CleanThenFail? || pc.CleanInstalled? || pc.CleanRefused? || pc.CancelClean? }

  function LoopTurn(w: World, io: Io): World
    requires w.worker.At? && LoopPc(w.worker.pc)
  {
    match w.worker.pc
    case Begin(again) => BeginTurn(w, again)
    case Claiming(c, again) => AfterClaim(w, ClaimTurn(w, c, io), again)
    case Top(r) => AtTop(w, r, io)
    case Moving(r, phase, facts) => MoveTurn(w, r, phase, facts, Rereading(r), io)
    case Rereading(r) => RereadTurn(w, r)
  }

  function PanelTurn(w: World, io: Io): World
    requires w.worker.At? && ActPc(w.worker.pc)
  {
    match w.worker.pc
    case Authorize(r, act) => AuthorizeTurn(w, r, act, io)
    case Barrier(r, act) => BarrierTurn(w, r, act)
    case Acting(r, act) => ActTurn(w, r, act, io)
  }

  function EndTurn(w: World, io: Io): World
    requires w.worker.At? && EndPc(w.worker.pc)
  {
    match w.worker.pc
    case FailGet(code) => GetTurn(w, d => FailMove(d, code))
    case FailMove(r, code) => MoveTurn(w, r, Failed, Ending(code), Top(r), io)
    case RecGet(code) => GetTurn(w, d => RecClean(code))
    case RecClean(code) => RecCleanTurn(w, code, io)
    case RecGetAgain(code) => GetTurn(w, d => RecMove(d, code))
    case RecMove(r, code) => MoveTurn(w, r, RecoveryRequired, Ending(code), Top(r), io)
  }

  function ArtifactTurn(w: World, io: Io): World
    requires w.worker.At? && FetchPc(w.worker.pc)
  {
    match w.worker.pc
    case Fetch(r) => FetchTurn(w, r, io)
    case Fetching(r) => FetchEndTurn(w, r, io)
    case ClearStale(r) => ClearStaleTurn(w, r, io)
    case Recheck(r) => Go(w, if io.ok then PlainMove(r, Staging) else CleanThenFail(r, io.code))
  }

  function CleanupTurn(w: World, io: Io): World
    requires w.worker.At? && CleanPc(w.worker.pc)
  {
    match w.worker.pc
    case CleanThenFail(r, code) => CleanThenFailTurn(w, r, code, io)
    case CleanInstalled(r) => CleanTurn(w, PlainMove(r, Launching), io)
    case CleanRefused(r) => CleanTurn(w, FailGet(InstallFailed), io)
    case CancelClean(r) => CancelCleanTurn(w, r, io)
  }

  /** One turn of the worker: it leaves the await it was at, with what `io` brought. */
  function Turn(w: World, io: Io): World
    requires w.worker.At?
  {
    if LoopPc(w.worker.pc) then LoopTurn(w, io)
    else if ActPc(w.worker.pc) then PanelTurn(w, io)
    else if EndPc(w.worker.pc) then EndTurn(w, io)
    else if FetchPc(w.worker.pc) then ArtifactTurn(w, io)
    else CleanupTurn(w, io)
  }

  // ----- the resume scan -----

  function ScanTurn(w: World, io: Io): World
    requires !w.resumer.Resting?
  {
    if w.resumer.ScanGet? then
      w.(resumer := if w.disk.Some? && !w.disk.value.IsTerminal() && RestartAmbiguous(w.disk.value.phase)
                    then Scanning(Try(w.disk.value), true) else Resting)
    else
      match ClaimTurn(w, w.resumer.c, io)
      case ClaimMoves(w1, c1) => w1.(resumer := Scanning(c1, w.resumer.again))
      case ClaimWon(w1, r) => w1.(resumer := Resting)
      case ClaimStale => w.(resumer := if w.resumer.again then Resting else ScanGet)
      case ClaimRaised(w1) => w1.(resumer := Resting)
  }

  // ----- events -----

  datatype Event =
    | WorkerTurn(io: Io)
    | ResumeTurn(io: Io)
    | EnsureJob
    | ResumeScan
    | CancelAsked(revision: int, io: Io)
    | ClaimsDropped             // some other call of the same manager failed
    | WorkerStopped             // the task was cancelled, or raised
    | ScanStopped               // the resume scan was cancelled, or raised
    | ProcessLost
    | FlowFinalizes(phase: Phase, facts: Facts, io: Io)
    | PrunedAway
    | OtherJobStages
    | OtherJobErases

  /** A change asked for by a flow rather than the worker. */
  function OutsiderWrites(w: World, next: Result<Receipt, JobError>, io: Io): World {
    if next.Ok? && w.disk != Some(next.value) && ReceiptOk(next.value) then WriteReceipt(w, next.value, io) else w
  }

  function Effect(w: World, e: Event): World {
    match e
    case WorkerTurn(io) => if w.worker.At? then Turn(w, io) else w
    case ResumeTurn(io) => if w.resumer.Resting? then w else ScanTurn(w, io)
    case EnsureJob =>
      if w.worker.Idle? && !w.halted && Live(w.disk) && w.disk.value.phase != HealthyUnclaimed
      then w.(worker := At(Begin(false), false, false, false)) else w
    case ResumeScan =>
      if w.resumer.Resting? && Ambiguous(w.disk) then w.(resumer := Scanning(Try(w.disk.value), false)) else w
    case CancelAsked(revision, io) =>
      if w.disk.Some? && w.disk.value.revision == revision
      then OutsiderWrites(w, RequestCancel(w.disk.value, io.now), io) else w
    case ClaimsDropped => w.(claim := None)
    case WorkerStopped => if w.worker.At? then Die(w) else w
    case ScanStopped => w.(resumer := Resting)
    case ProcessLost => Lost(w).(claim := None, halted := false, resumer := Resting)
    case FlowFinalizes(phase, facts, io) =>
      if w.disk.Some? && w.disk.value.phase == HealthyUnclaimed
      then OutsiderWrites(w, Transition(w.disk.value, w.claim, phase, facts, io.now), io) else w
    case PrunedAway => if w.disk.Some? && w.disk.value.IsTerminal() then w.(disk := None, claim := None) else w
    case OtherJobStages => if w.site.slot == Empty then w.(site := w.site.(slot := Foreign)) else w
    case OtherJobErases => if w.site.slot == Foreign then w.(site := w.site.(slot := Empty)) else w
  }

  /** Remembers that a cancel request was durable. */
  function Noted(w: World): World {
    w.(site := w.site.(cancelSeen := w.site.cancelSeen || (w.disk.Some? && w.disk.value.cancelRequested)))
  }

  function Step(w: World, e: Event): World { Noted(Effect(w, e)) }

  /** A job just approved: nothing claimed, fetched, pushed or started. */
  ghost predicate JustApproved(w: World) {
    && w.disk.Some? && Lawful(w.disk.value) && w.disk.value.phase == Approved && !w.disk.value.cancelRequested
    && w.claim.None? && w.worker.Idle? && w.resumer.Resting? && !w.halted
    && w.site.custody == NO_FILES && w.site.slot != Mine
    && w.site.pushes == w.site.installs == w.site.launches == 0 && !w.site.unclear && !w.site.cancelSeen
  }

  /** The world after the events in order. */
  function After(w: World, events: seq<Event>): World
    decreases |events|
  {
    if |events| == 0 then w else Step(After(w, events[..|events| - 1]), events[|events| - 1])
  }
}
