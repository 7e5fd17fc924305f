/** Install receipts: the phase tables, the receipt invariants, and the three ways
    one receipt may change (cancel request, claim, transition).

    Times are seconds since 0001-01-01T00:00:00+00:00; module Timestamps shows that the
    stored strings sort the way these numbers do. A job id is the number its 32
    hexadecimal digits spell, a plan digest is the tuple that was hashed. */
module Receipts {
  import opened Wrappers

  type JobId = nat
  type Time = int

  datatype Phase =
    | Approved | Authorizing | Preflight | Downloading | ArtifactReady | Revalidating
    | Staging | Installing | Installed | Launching | HealthCheck | HealthyUnclaimed
    | Consumed | Cancelled | Failed | RecoveryRequired

  datatype ResultCode =
    | EntryCreated | CancelledByUser | CancelledAfterStagingCleanup
    | AuthorizationFailed | PreflightRejected | ArtifactRejected | TransportFailed
    | InstallFailed | LaunchFailed | HealthCheckFailed
    | AmbiguousMutation | VerificationRequired

  datatype RootMode = RootAdbd | Rootless | RootSu

  datatype Target = Target(
    address: string, pinnedAddress: string, adbSerial: string,
    model: string, primaryAbi: string, androidSdk: int)

  datatype Artifact = Artifact(
    releaseTag: string, versionName: string, apkSha256: string, apkSize: int,
    minSdk: int, supportedAbis: seq<string>)

  datatype PlanDigest = PlanDigest(target: Target, artifact: Artifact, credentialId: string)

  datatype Receipt = Receipt(
    jobId: JobId, revision: int, executorGeneration: int,
    createdAt: Time, updatedAt: Time,
    phase: Phase, cancelRequested: bool, attempt: int,
    target: Target, artifact: Artifact, plan: PlanDigest, credentialId: string,
    rootMode: Option<RootMode>, actualBytes: Option<int>, healthCheckedAt: Option<Time>,
    resultCode: Option<ResultCode>, entryId: Option<string>)
  {
    predicate IsTerminal() { Terminal(phase) }
  }

  datatype JobError =
    | StoreError | ConflictError | CapacityError | NotFoundError | RevisionError
    | CleanupRequiredError | TransitionError
    | Interrupted     // asyncio.CancelledError
    | MissingKey      // KeyError: the saved map no longer holds the receipt
    | ClockOverflow   // OverflowError: the retention cutoff lies before year 1

  const MAX_ATTEMPTS := 32
  const MAX_EXECUTOR_GENERATION := 0x7FFF_FFFF
  const MAX_REVISION := 0x7FFF_FFFF_FFFF_FFFF
  const MAX_APK_BYTES := 64 * 1024 * 1024

  // ----- phase tables -----

  predicate Terminal(p: Phase) {
    p.Consumed? || p.Cancelled? || p.Failed? || p.RecoveryRequired?
  }

  predicate Cancellable(p: Phase) {
    p.Approved? || p.Authorizing? || p.Preflight? || p.Downloading? || p.ArtifactReady? || p.Revalidating? || p.Staging?
  }

  /** Phases whose mutation may already have happened when a new manager meets them. */
  predicate RestartAmbiguous(p: Phase) {
    p.Staging? || p.Installing? || p.Launching?
  }

  predicate ArtifactRequired(p: Phase) {
    || p.ArtifactReady? || p.Revalidating? || p.Staging? || p.Installing? || p.Installed?
    || p.Launching? || p.HealthCheck? || p.HealthyUnclaimed? || p.Consumed?
  }

  predicate RootModeRequired(p: Phase) {
    p == Downloading || ArtifactRequired(p)
  }

  predicate RootModeForbidden(p: Phase) {
    p.Approved? || p.Authorizing? || p.Preflight?
  }

  predicate FailureCode(c: ResultCode) {
    || c.AuthorizationFailed? || c.PreflightRejected? || c.ArtifactRejected? || c.TransportFailed?
    || c.InstallFailed? || c.LaunchFailed? || c.HealthCheckFailed?
  }

  predicate RecoveryCode(c: ResultCode) {
    c.AmbiguousMutation? || c.VerificationRequired?
  }

  function FailureCodesOf(p: Phase): set<ResultCode> {
    match p
    case Authorizing => {AuthorizationFailed, TransportFailed}
    case Preflight => {PreflightRejected, TransportFailed}
    case Downloading => {ArtifactRejected, TransportFailed}
    case ArtifactReady => {ArtifactRejected, TransportFailed}
    case Revalidating => {ArtifactRejected, PreflightRejected, TransportFailed}
    case Staging => {ArtifactRejected, TransportFailed}
    case Installing => {InstallFailed}
    case Installed => {InstallFailed}
    case Launching => {LaunchFailed, TransportFailed}
    case HealthCheck => {HealthCheckFailed, TransportFailed}
    case _ => {}
  }

  predicate RecoverySource(p: Phase) {
    p.Staging? || p.Installing? || p.Installed? || p.Launching? || p.HealthCheck? || p.HealthyUnclaimed?
  }

  function NextPhases(p: Phase): set<Phase> {
    match p
    case Approved => {Authorizing, Cancelled, Failed}
    case Authorizing => {Preflight, Cancelled, Failed}
    case Preflight => {Downloading, Cancelled, Failed}
    case Downloading => {ArtifactReady, Cancelled, Failed}
    case ArtifactReady => {Revalidating, Cancelled, Failed}
    case Revalidating => {Staging, Cancelled, Failed}
    case Staging => {Installing, Cancelled, Failed, RecoveryRequired}
    case Installing => {Installed, Failed, RecoveryRequired}
    case Installed => {Launching, Failed, RecoveryRequired}
    case Launching => {HealthCheck, Failed, RecoveryRequired}
    case HealthCheck => {HealthyUnclaimed, Failed, RecoveryRequired}
    case HealthyUnclaimed => {Consumed, RecoveryRequired}
    case _ => {}
  }

  /** Position on the straight road from approval to consumption. */
  function Rank(p: Phase): nat {
    match p
    case Approved => 0
    case Authorizing => 1
    case Preflight => 2
    case Downloading => 3
    case ArtifactReady => 4
    case Revalidating => 5
    case Staging => 6
    case Installing => 7
    case Installed => 8
    case Launching => 9
    case HealthCheck => 10
    case HealthyUnclaimed => 11
    case _ => 12
  }

  // ----- what every stored receipt satisfies -----

  predicate ReceiptOk(r: Receipt) {
    && 0 <= r.revision <= MAX_REVISION
    && 0 <= r.executorGeneration <= MAX_EXECUTOR_GENERATION
    && 0 <= r.attempt <= MAX_ATTEMPTS
    && r.createdAt <= r.updatedAt
    && (r.actualBytes.Some? ==>
          1 <= r.actualBytes.value <= MAX_APK_BYTES && r.actualBytes.value == r.artifact.apkSize)
    && r.plan == PlanDigest(r.target, r.artifact, r.credentialId)
    && r.target.primaryAbi in r.artifact.supportedAbis
    && r.artifact.minSdk <= r.target.androidSdk
    && r.attempt == r.executorGeneration
    && r.executorGeneration <= r.revision
    && (RootModeForbidden(r.phase) ==> r.rootMode.None?)
    && (RootModeRequired(r.phase) ==> r.rootMode.Some?)
    && (ArtifactRequired(r.phase) ==> r.actualBytes.Some?)
    && (!ArtifactRequired(r.phase) && !Terminal(r.phase) ==> r.actualBytes.None?)
    && (r.entryId.Some? <==> r.phase == Consumed)
    && (r.healthCheckedAt.Some? <==> (r.phase.HealthyUnclaimed? || r.phase.Consumed?))
    && (r.healthCheckedAt.Some? ==> r.createdAt <= r.healthCheckedAt.value <= r.updatedAt)
    && ResultOk(r)
  }

  predicate ResultOk(r: Receipt) {
    match r.phase
    case Consumed => r.resultCode == Some(EntryCreated)
    case Cancelled =>
      r.cancelRequested && (r.resultCode == Some(CancelledByUser) || r.resultCode == Some(CancelledAfterStagingCleanup))
    case Failed => r.resultCode.Some? && FailureCode(r.resultCode.value)
    case RecoveryRequired => r.resultCode.Some? && RecoveryCode(r.resultCode.value)
    case _ => r.resultCode.None?
  }

  // ----- the ways a receipt changes -----

  function NewReceipt(id: JobId, target: Target, artifact: Artifact, credentialId: string, now: Time): Receipt {
    Receipt(id, 0, 0, now, now, Approved, false, 0, target, artifact,
            PlanDigest(target, artifact, credentialId), credentialId, None, None, None, None, None)
  }

  /** The receipt a cancel request leaves; the unchanged receipt when one is already recorded. */
  function RequestCancel(cur: Receipt, now: Time): Result<Receipt, JobError> {
    if !Cancellable(cur.phase) then Err(TransitionError)
    else if cur.cancelRequested then Ok(cur)
    else Ok(cur.(revision := cur.revision + 1, updatedAt := now, cancelRequested := true))
  }

  predicate Exhausted(cur: Receipt) {
    cur.executorGeneration >= MAX_EXECUTOR_GENERATION || cur.attempt >= MAX_ATTEMPTS
  }

  predicate ClaimTerminalizes(cur: Receipt) {
    Exhausted(cur) || RestartAmbiguous(cur.phase)
  }

  /** `held` is the generation this manager already holds for the job, if any. */
  function ClaimReceipt(cur: Receipt, held: Option<int>, confirmed: Option<int>, now: Time): Result<Receipt, JobError> {
    if cur.IsTerminal() || cur.phase == HealthyUnclaimed then Err(TransitionError)
    else if confirmed.Some? && confirmed.value != cur.revision then Err(RevisionError)
    else if held == Some(cur.executorGeneration) then Ok(cur)
    else if ClaimTerminalizes(cur) && confirmed.None? then Err(CleanupRequiredError)
    else if Exhausted(cur) then
      Ok(cur.(revision := cur.revision + 1, updatedAt := now, phase := RecoveryRequired,
              resultCode := Some(VerificationRequired)))
    else
      var ambiguous := RestartAmbiguous(cur.phase);
      Ok(cur.(revision := cur.revision + 1, executorGeneration := cur.executorGeneration + 1,
              updatedAt := now, attempt := cur.attempt + 1,
              phase := if ambiguous then RecoveryRequired else cur.phase,
              resultCode := if ambiguous then Some(VerificationRequired) else None))
  }

  /** What a caller hands to a transition besides the phase. */
  datatype Facts = Facts(
    rootMode: Option<RootMode>, actualBytes: Option<int>, healthCheckedAt: Option<Time>,
    result: Option<ResultCode>, entryId: Option<string>)

  const NO_FACTS := Facts(None, None, None, None, None)

  function Ending(code: ResultCode): Facts { NO_FACTS.(result := Some(code)) }

  /** Whether the optional fields fit the edge from `cur.phase` to `phase`. */
  predicate FactsFit(cur: Receipt, phase: Phase, f: Facts) {
    && (f.actualBytes.Some? ==> 1 <= f.actualBytes.value <= MAX_APK_BYTES)
    && (f.rootMode.Some? <==> cur.phase == Preflight && phase == Downloading)
    && (f.rootMode.Some? ==> cur.rootMode.None?)
    && (f.actualBytes.Some? <==> phase == ArtifactReady)
    && (f.actualBytes.Some? ==> cur.actualBytes.None?)
    && (f.healthCheckedAt.Some? <==> phase == HealthyUnclaimed)
    && (f.healthCheckedAt.Some? ==> cur.healthCheckedAt.None?)
    && (f.entryId.Some? <==> phase == Consumed)
    && match phase {
         case Cancelled =>
           cur.cancelRequested
           && f.result == Some(if cur.phase == Staging then CancelledAfterStagingCleanup else CancelledByUser)
         case Failed => f.result.Some? && f.result.value in FailureCodesOf(cur.phase)
         case RecoveryRequired => RecoverySource(cur.phase) && f.result.Some? && RecoveryCode(f.result.value)
         case Consumed => f.result == Some(EntryCreated)
         case _ => f.result.None?
       }
  }

  /** Only the finalizing edges out of HealthyUnclaimed need no claim. */
  predicate NeedsClaim(cur: Receipt) {
    cur.phase != HealthyUnclaimed
  }

  function Advanced(cur: Receipt, phase: Phase, f: Facts, now: Time): Receipt {
    cur.(revision := cur.revision + 1, updatedAt := now, phase := phase,
         rootMode := if f.rootMode.Some? then f.rootMode else cur.rootMode,
         actualBytes := if f.actualBytes.Some? then f.actualBytes else cur.actualBytes,
         healthCheckedAt :=
           if cur.phase == HealthyUnclaimed && phase == RecoveryRequired then None
           else if f.healthCheckedAt.Some? then f.healthCheckedAt else cur.healthCheckedAt,
         resultCode := f.result, entryId := f.entryId)
  }

  function Transition(cur: Receipt, held: Option<int>, phase: Phase, f: Facts, now: Time): Result<Receipt, JobError> {
    if phase !in NextPhases(cur.phase) then Err(TransitionError)
    else if cur.cancelRequested && !(phase.Cancelled? || phase.Failed? || phase.RecoveryRequired?) then Err(TransitionError)
    else if NeedsClaim(cur) && held != Some(cur.executorGeneration) then Err(TransitionError)
    else if !FactsFit(cur, phase, f) then Err(TransitionError)
    else
      var next := Advanced(cur, phase, f, now);
      if ReceiptOk(next) then Ok(next) else Err(TransitionError)
  }

  // ----- the law every reachable receipt obeys -----

  /** The revision is not free: phase, generation and cancel flag determine it. */
  ghost predicate Lawful(r: Receipt) {
    && ReceiptOk(r)
    && (r.cancelRequested ==> Cancellable(r.phase) || (r.phase.Cancelled? || r.phase.Failed? || r.phase.RecoveryRequired?))
    && (!r.IsTerminal() || r.phase == Consumed ==>
          r.revision == Rank(r.phase) + r.executorGeneration + (if r.cancelRequested then 1 else 0))
    && r.revision <= 44
  }

  /** The facts an approval freezes. */
  ghost predicate SameFrozen(a: Receipt, b: Receipt) {
    && a.jobId == b.jobId && a.createdAt == b.createdAt
    && a.target == b.target && a.artifact == b.artifact
    && a.plan == b.plan && a.credentialId == b.credentialId
    && (a.rootMode.Some? ==> b.rootMode == a.rootMode)
    && (a.actualBytes.Some? ==> b.actualBytes == a.actualBytes)
    && (a.cancelRequested ==> b.cancelRequested)
    && a.executorGeneration <= b.executorGeneration
  }

  lemma CancelKeepsLaw(cur: Receipt, now: Time)
    requires Lawful(cur) && RequestCancel(cur, now).Ok? && ReceiptOk(RequestCancel(cur, now).value)
    ensures var next := RequestCancel(cur, now).value;
      Lawful(next) && SameFrozen(cur, next) && next.cancelRequested && next.phase == cur.phase
  {}

  lemma ClaimKeepsLaw(cur: Receipt, held: Option<int>, confirmed: Option<int>, now: Time)
    requires Lawful(cur) && ClaimReceipt(cur, held, confirmed, now).Ok?
    requires ReceiptOk(ClaimReceipt(cur, held, confirmed, now).value)
    ensures var next := ClaimReceipt(cur, held, confirmed, now).value;
      && Lawful(next) && SameFrozen(cur, next) && !cur.IsTerminal() && cur.phase != HealthyUnclaimed
      && (next != cur && !next.IsTerminal() ==>
            next.phase == cur.phase && next.executorGeneration == cur.executorGeneration + 1)
      && (next.IsTerminal() ==> confirmed == Some(cur.revision) && next.phase == RecoveryRequired)
  {}

  lemma TransitionKeepsLaw(cur: Receipt, held: Option<int>, phase: Phase, f: Facts, now: Time)
    requires Lawful(cur)
    requires Transition(cur, held, phase, f, now).Ok?
    ensures var next := Transition(cur, held, phase, f, now).value;
      && Lawful(next) && SameFrozen(cur, next) && next.phase == phase
      && (!next.IsTerminal() || next.phase == Consumed ==> Rank(phase) == Rank(cur.phase) + 1)
  {
    assert NextPhases(Approved) == {Authorizing, Cancelled, Failed};
  }

  /** Nothing changes a terminal receipt. */
  lemma TerminalIsFinal(cur: Receipt, held: Option<int>, confirmed: Option<int>, phase: Phase, f: Facts, now: Time)
    requires cur.IsTerminal()
    ensures RequestCancel(cur, now).Err?
    ensures ClaimReceipt(cur, held, confirmed, now).Err?
    ensures Transition(cur, held, phase, f, now).Err?
  {}

  /** Two lawful non-terminal views of one job that agree on phase, generation and
      cancel flag agree on the revision. */
  lemma RevisionDetermined(a: Receipt, b: Receipt)
    requires Lawful(a) && Lawful(b) && !a.IsTerminal()
    requires a.phase == b.phase && a.executorGeneration == b.executorGeneration
    requires a.cancelRequested == b.cancelRequested
    ensures a.revision == b.revision
  {}
}
