/** What each of the three receipt changes answers, case by case and in literal terms, for every
    lawful receipt: which transitions are accepted, what a claim does, when cancelling is possible. */
module ReceiptAnswers {
  import opened Wrappers
  import opened Receipts

  // ----- transitions -----

  /** One phase on, with just the facts that phase brings. */
  predicate ForwardEdge(cur: Receipt, phase: Phase, f: Facts, now: Time) {
    match cur.phase
    case Approved => phase == Authorizing && f == Facts(None, None, None, None, None)
    case Authorizing => phase == Preflight && f == Facts(None, None, None, None, None)
    case Preflight => phase == Downloading && f.rootMode.Some? && f == Facts(f.rootMode, None, None, None, None)
    case Downloading =>
      phase == ArtifactReady && f == Facts(None, Some(cur.artifact.apkSize), None, None, None)
      && 1 <= cur.artifact.apkSize <= 67108864
    case ArtifactReady => phase == Revalidating && f == Facts(None, None, None, None, None)
    case Revalidating => phase == Staging && f == Facts(None, None, None, None, None)
    case Staging => phase == Installing && f == Facts(None, None, None, None, None)
    case Installing => phase == Installed && f == Facts(None, None, None, None, None)
    case Installed => phase == Launching && f == Facts(None, None, None, None, None)
    case Launching => phase == HealthCheck && f == Facts(None, None, None, None, None)
    case HealthCheck =>
      phase == HealthyUnclaimed && f.healthCheckedAt.Some? && f == Facts(None, None, f.healthCheckedAt, None, None)
      && cur.createdAt <= f.healthCheckedAt.value <= now
    case HealthyUnclaimed =>
      phase == Consumed && f.entryId.Some? && f == Facts(None, None, None, Some(EntryCreated), f.entryId)
      && (cur.healthCheckedAt.Some? ==> cur.healthCheckedAt.value <= now)
    case _ => false
  }

  /** A requested cancellation, with the code that tells whether a staged file had to be removed. */
  predicate CancelEdge(cur: Receipt, phase: Phase, f: Facts) {
    && cur.cancelRequested && phase == Cancelled
    && match cur.phase {
         case Approved => f == Facts(None, None, None, Some(CancelledByUser), None)
         case Authorizing => f == Facts(None, None, None, Some(CancelledByUser), None)
         case Preflight => f == Facts(None, None, None, Some(CancelledByUser), None)
         case Downloading => f == Facts(None, None, None, Some(CancelledByUser), None)
         case ArtifactReady => f == Facts(None, None, None, Some(CancelledByUser), None)
         case Revalidating => f == Facts(None, None, None, Some(CancelledByUser), None)
         case Staging => f == Facts(None, None, None, Some(CancelledAfterStagingCleanup), None)
         case _ => false
       }
  }

  /** Which failure may be recorded where. */
  predicate FailsAs(p: Phase, c: ResultCode) {
    match p
    case Authorizing => c.AuthorizationFailed? || c.TransportFailed?
    case Preflight => c.PreflightRejected? || c.TransportFailed?
    case Downloading => c.ArtifactRejected? || c.TransportFailed?
    case ArtifactReady => c.ArtifactRejected? || c.TransportFailed?
    case Revalidating => c.ArtifactRejected? || c.PreflightRejected? || c.TransportFailed?
    case Staging => c.ArtifactRejected? || c.TransportFailed?
    case Installing => c.InstallFailed?
    case Installed => c.InstallFailed?
    case Launching => c.LaunchFailed? || c.TransportFailed?
    case HealthCheck => c.HealthCheckFailed? || c.TransportFailed?
    case _ => false
  }

  predicate FailEdge(cur: Receipt, phase: Phase, f: Facts) {
    && phase == Failed && f.result.Some? && f == Facts(None, None, None, f.result, None)
    && FailsAs(cur.phase, f.result.value)
  }

  predicate RecoveryEdge(cur: Receipt, phase: Phase, f: Facts) {
    && phase == RecoveryRequired
    && (f == Facts(None, None, None, Some(AmbiguousMutation), None)
        || f == Facts(None, None, None, Some(VerificationRequired), None))
    && (cur.phase.Staging? || cur.phase.Installing? || cur.phase.Installed? || cur.phase.Launching?
        || cur.phase.HealthCheck? || cur.phase.HealthyUnclaimed?)
  }

  predicate Edge(cur: Receipt, phase: Phase, f: Facts, now: Time) {
    || (!cur.cancelRequested && ForwardEdge(cur, phase, f, now))
    || CancelEdge(cur, phase, f) || FailEdge(cur, phase, f) || RecoveryEdge(cur, phase, f)
  }

  /** A transition is asked for along an edge, under the claim unless the job is healthy, and not
      before the receipt was created. */
  predicate MoveAccepted(cur: Receipt, held: Option<int>, phase: Phase, f: Facts, now: Time) {
    && Edge(cur, phase, f, now) && cur.createdAt <= now
    && (cur.phase.HealthyUnclaimed? || held == Some(cur.executorGeneration))
  }

  lemma EdgeIsListed(cur: Receipt, phase: Phase, f: Facts, now: Time)
    requires Lawful(cur) && Edge(cur, phase, f, now)
    ensures phase in NextPhases(cur.phase)
    ensures cur.cancelRequested ==> phase.Cancelled? || phase.Failed? || phase.RecoveryRequired?
  {}

  lemma ForwardFits(cur: Receipt, phase: Phase, f: Facts, now: Time)
    requires Lawful(cur) && ForwardEdge(cur, phase, f, now)
    ensures FactsFit(cur, phase, f)
  {}

  lemma EdgeFits(cur: Receipt, phase: Phase, f: Facts, now: Time)
    requires Lawful(cur) && Edge(cur, phase, f, now)
    ensures FactsFit(cur, phase, f)
  {
    if ForwardEdge(cur, phase, f, now) { ForwardFits(cur, phase, f, now); }
  }

  lemma AcceptedEdgeMoves(cur: Receipt, held: Option<int>, phase: Phase, f: Facts, now: Time)
    requires Lawful(cur) && MoveAccepted(cur, held, phase, f, now)
    ensures Transition(cur, held, phase, f, now) == Ok(Advanced(cur, phase, f, now))
  {
    EdgeIsListed(cur, phase, f, now);
    EdgeFits(cur, phase, f, now);
    AcceptedIsOk(cur, held, phase, f, now);
  }

  lemma AcceptedIsOk(cur: Receipt, held: Option<int>, phase: Phase, f: Facts, now: Time)
    requires Lawful(cur) && MoveAccepted(cur, held, phase, f, now)
    ensures ReceiptOk(Advanced(cur, phase, f, now))
  {}

  lemma MovedIsAccepted(cur: Receipt, held: Option<int>, phase: Phase, f: Facts, now: Time)
    requires Lawful(cur) && Transition(cur, held, phase, f, now).Ok?
    ensures MoveAccepted(cur, held, phase, f, now)
  {
    assert phase in NextPhases(cur.phase) && FactsFit(cur, phase, f) && ReceiptOk(Advanced(cur, phase, f, now));
  }

  /** For every lawful receipt: exactly the listed transitions are accepted. */
  lemma MoveAcceptedIff(cur: Receipt, held: Option<int>, phase: Phase, f: Facts, now: Time)
    requires Lawful(cur)
    ensures Transition(cur, held, phase, f, now).Ok? <==> MoveAccepted(cur, held, phase, f, now)
    ensures !MoveAccepted(cur, held, phase, f, now) ==> Transition(cur, held, phase, f, now) == Err(TransitionError)
  {
    if MoveAccepted(cur, held, phase, f, now) { AcceptedEdgeMoves(cur, held, phase, f, now); }
    if Transition(cur, held, phase, f, now).Ok? { MovedIsAccepted(cur, held, phase, f, now); }
  }

  /** What an accepted transition writes: the new facts added, the health check forgotten only by
      the recovery of a healthy job, everything else as it was. */
  function Moved(cur: Receipt, phase: Phase, f: Facts, now: Time): Receipt {
    Receipt(cur.jobId, cur.revision + 1, cur.executorGeneration, cur.createdAt, now, phase, cur.cancelRequested,
            cur.attempt, cur.target, cur.artifact, cur.plan, cur.credentialId,
            if phase.Downloading? then f.rootMode else cur.rootMode,
            if phase.ArtifactReady? then f.actualBytes else cur.actualBytes,
            if phase.HealthyUnclaimed? then f.healthCheckedAt
            else if phase.Consumed? then cur.healthCheckedAt else None,
            f.result, f.entryId)
  }

  lemma MovedIs(cur: Receipt, held: Option<int>, phase: Phase, f: Facts, now: Time)
    requires Lawful(cur) && MoveAccepted(cur, held, phase, f, now)
    ensures Transition(cur, held, phase, f, now) == Ok(Moved(cur, phase, f, now))
  {
    AcceptedEdgeMoves(cur, held, phase, f, now);
  }

  // ----- claims -----

  /** No further claim is possible. */
  predicate Spent(cur: Receipt) { cur.attempt >= 32 }

  /** The panel may have been changed by whoever held the job before. */
  predicate Uncertain(cur: Receipt) { cur.phase.Staging? || cur.phase.Installing? || cur.phase.Launching? }

  predicate Over(cur: Receipt) {
    cur.phase.Consumed? || cur.phase.Cancelled? || cur.phase.Failed? || cur.phase.RecoveryRequired?
  }

  /** For every lawful receipt, what a claim answers: refused, held already, clean-up first, quarantined,
      or the next generation. */
  lemma ClaimAnswers(cur: Receipt, held: Option<int>, confirmed: Option<int>, now: Time)
    requires Lawful(cur)
    ensures var answer := ClaimReceipt(cur, held, confirmed, now);
      var gen := cur.executorGeneration;
      if Over(cur) || cur.phase.HealthyUnclaimed? then answer == Err(TransitionError)
      else if confirmed.Some? && confirmed != Some(cur.revision) then answer == Err(RevisionError)
      else if held == Some(gen) then answer == Ok(cur)
      else if (Spent(cur) || Uncertain(cur)) && confirmed.None? then answer == Err(CleanupRequiredError)
      else if Spent(cur) then
        answer == Ok(cur.(revision := cur.revision + 1, updatedAt := now, phase := RecoveryRequired,
                          resultCode := Some(VerificationRequired)))
      else if Uncertain(cur) then
        answer == Ok(cur.(revision := cur.revision + 1, updatedAt := now, executorGeneration := gen + 1,
                          attempt := cur.attempt + 1, phase := RecoveryRequired,
                          resultCode := Some(VerificationRequired)))
      else
        answer == Ok(cur.(revision := cur.revision + 1, updatedAt := now, executorGeneration := gen + 1,
                          attempt := cur.attempt + 1))
  {}

  /** A claim that is answered leaves a lawful receipt, at any time not before its creation. */
  lemma ClaimedIsOk(cur: Receipt, held: Option<int>, confirmed: Option<int>, now: Time)
    requires Lawful(cur) && cur.createdAt <= now && ClaimReceipt(cur, held, confirmed, now).Ok?
    ensures ReceiptOk(ClaimReceipt(cur, held, confirmed, now).value)
  {}

  // ----- cancel requests -----

  /** Cancelling is possible up to the push, and asking twice is asking once. */
  lemma CancelAnswers(cur: Receipt, now: Time)
    ensures var answer := RequestCancel(cur, now);
      if !(cur.phase.Approved? || cur.phase.Authorizing? || cur.phase.Preflight? || cur.phase.Downloading?
           || cur.phase.ArtifactReady? || cur.phase.Revalidating? || cur.phase.Staging?)
      then answer == Err(TransitionError)
      else if cur.cancelRequested then answer == Ok(cur)
      else answer == Ok(cur.(revision := cur.revision + 1, updatedAt := now, cancelRequested := true))
  {}
}
