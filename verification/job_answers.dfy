/** What a manager answers when nothing goes wrong: for every sound store, each request's outcomes
    in literal terms, with the receipt that is then stored and the claims that are then held. */
module JobAnswers {
  import opened Wrappers
  import opened Receipts
  import opened ReceiptAnswers
  import opened Retention
  import opened JobDocument
  import opened JobManager
  import opened JobRuns

  /** The write landed, raised nothing, and was read back. */
  const GOOD_SAVE := SaveIo(true, false, true, false)

  /** A sound store, and a manager whose memory agrees with it. */
  ghost predicate InStep(jobs: Jobs, m: Memory) {
    DiskOk(Holding(jobs)) && Coherent(Holding(jobs), m)
  }

  // ----- the save is never refused -----

  /** The finished receipts that would be listed before one of job `id` finished at `now`. */
  ghost function Ahead(jobs: Jobs, id: JobId, now: Time): set<JobId> {
    set k | k in jobs && k != id && Over(jobs[k]) && (jobs[k].updatedAt > now || (jobs[k].updatedAt == now && k > id))
  }

  lemma ReadAgrees(jobs: Jobs, m: Memory)
    requires InStep(jobs, m)
    ensures LoadResult(Holding(jobs), m, ReadWorks) == (Memory(Some(jobs), m.claims), Ok(jobs))
  {}

  /** No two active receipts share an address, a pin or a serial. */
  ghost predicate Apart(jobs: Jobs) {
    forall a, b :: a in ActiveIds(jobs) && b in ActiveIds(jobs) && a != b ==> !Overlap(jobs[a].target, jobs[b].target)
  }

  ghost predicate AllReceiptsOk(jobs: Jobs) { forall id :: id in jobs ==> ReceiptOk(jobs[id]) }

  /** All of a sound store but the number of finished receipts. */
  ghost predicate NearlyOk(jobs: Jobs) {
    Keyed(jobs) && AllReceiptsOk(jobs) && |ActiveIds(jobs)| <= 4 && Apart(jobs)
  }

  lemma ReplacedIds(jobs: Jobs, id: JobId, next: Receipt)
    requires id in jobs && !jobs[id].IsTerminal()
    ensures ActiveIds(jobs[id := next]) == if next.IsTerminal() then ActiveIds(jobs) - {id} else ActiveIds(jobs)
    ensures TerminalIds(jobs[id := next]) == if next.IsTerminal() then TerminalIds(jobs) + {id} else TerminalIds(jobs)
  {}

  lemma ReplacedApart(jobs: Jobs, id: JobId, next: Receipt)
    requires Apart(jobs) && id in jobs && !jobs[id].IsTerminal() && next.target == jobs[id].target
    ensures Apart(jobs[id := next])
  {
    ReplacedIds(jobs, id, next);
  }

  /** A successor of an active receipt keeps the store sound but for what pruning removes. */
  lemma SuccessorFits(jobs: Jobs, id: JobId, next: Receipt)
    requires StoreOk(jobs) && id in jobs && !jobs[id].IsTerminal() && ReceiptOk(next) && next.jobId == id
    requires next.target == jobs[id].target
    ensures NearlyOk(jobs[id := next]) && (!next.IsTerminal() ==> StoreOk(jobs[id := next]))
  {
    assert Apart(jobs) && AllReceiptsOk(jobs);
    ReplacedIds(jobs, id, next);
    ReplacedApart(jobs, id, next);
    SubsetSize(ActiveIds(jobs[id := next]), ActiveIds(jobs));
  }

  lemma PrunedActives(jobs: Jobs, now: Time)
    ensures ActiveIds(Pruned(jobs, now)) == ActiveIds(jobs)
  {}

  lemma PrunedFits(jobs: Jobs, now: Time)
    requires NearlyOk(jobs)
    ensures StoreOk(Pruned(jobs, now))
  {
    PrunedActives(jobs, now);
    KeepsBounded(jobs, now);
    assert Apart(Pruned(jobs, now)) && AllReceiptsOk(Pruned(jobs, now)) && Keyed(Pruned(jobs, now));
  }

  /** The new receipt stays unless 32 finished ones are ahead of it. */
  lemma SuccessorStays(jobs: Jobs, id: JobId, next: Receipt)
    requires Keyed(jobs) && id in jobs && next.jobId == id
    ensures id in Pruned(jobs[id := next], next.updatedAt) <==> !Over(next) || |Ahead(jobs, id, next.updatedAt)| < 32
    ensures id in Pruned(jobs[id := next], next.updatedAt) ==> Pruned(jobs[id := next], next.updatedAt)[id] == next
  {
    assert NewerIds(jobs[id := next], next) == Ahead(jobs, id, next.updatedAt);
  }

  /** What a good save of a successor of job `id` leaves in the store and in memory. */
  ghost predicate Saved(jobs: Jobs, m: Memory, id: JobId, next: Receipt, o: Outcome) {
    && o.disk.Holding? && o.memory.cache == Some(o.disk.jobs)
    && (forall k :: k in o.disk.jobs ==>
          if k == id then o.disk.jobs[k] == next else k in jobs && o.disk.jobs[k] == jobs[k])
    && (forall k :: k in jobs && !Over(jobs[k]) && k != id ==> k in o.disk.jobs)
    && (forall k :: k in m.claims && k != id ==> Lookup(o.memory.claims, k) == Some(m.claims[k]))
    && (forall k :: k in o.memory.claims && k != id ==> k in m.claims)
    && (if !Over(next) || |Ahead(jobs, id, next.updatedAt)| < 32
        then o.answer == Ok(next) && id in o.disk.jobs
        else o.answer == Err(MissingKey) && id !in o.disk.jobs)
  }

  /** The map a successor would be saved as. */
  ghost function Next(jobs: Jobs, id: JobId, next: Receipt): Jobs { Pruned(jobs[id := next], next.updatedAt) }

  lemma NextIsWritable(jobs: Jobs, m: Memory, id: JobId, next: Receipt)
    requires InStep(jobs, m) && m.cache == Some(jobs) && id in jobs && !jobs[id].IsTerminal()
    requires ReceiptOk(next) && next.jobId == id && next.target == jobs[id].target
    requires jobs[id].updatedAt <= next.updatedAt
    ensures Writable(m, Next(jobs, id, next))
  {
    SuccessorFits(jobs, id, next);
    PrunedFits(jobs[id := next], next.updatedAt);
  }

  lemma OthersStay(jobs: Jobs, id: JobId, next: Receipt)
    requires id in jobs
    ensures var kept := Next(jobs, id, next);
      && (forall k :: k in kept && k != id ==> k in jobs && kept[k] == jobs[k])
      && (forall k :: k in jobs && !Over(jobs[k]) && k != id ==> k in kept && kept[k] == jobs[k])
  {}

  /** A verified save of a map in which other jobs' active receipts stand keeps the claims on them. */
  lemma ClaimsStay(jobs: Jobs, claims: map<JobId, int>, kept: Jobs, id: JobId)
    requires LiveClaims(claims, jobs) == claims
    requires forall k :: k in kept && k != id ==> k in jobs && kept[k] == jobs[k]
    requires forall k :: k in jobs && !Over(jobs[k]) && k != id ==> k in kept && kept[k] == jobs[k]
    ensures forall k :: k in claims && k != id ==> Lookup(LiveClaims(claims, kept), k) == Some(claims[k])
    ensures forall k :: k in LiveClaims(claims, kept) ==> k in claims
  {
    forall k | k in claims && k != id ensures k in LiveClaims(claims, kept) {
      assert k in LiveClaims(claims, jobs);
    }
  }

  lemma NextSaves(jobs: Jobs, m: Memory, id: JobId, next: Receipt, claiming: bool)
    requires InStep(jobs, m) && m.cache == Some(jobs) && id in jobs && !jobs[id].IsTerminal()
    requires ReceiptOk(next) && next.jobId == id && next.target == jobs[id].target
    requires jobs[id].updatedAt <= next.updatedAt
    ensures var o := ConcludeResult(Holding(jobs), m, Write(id, Next(jobs, id, next)), claiming, GOOD_SAVE);
      Saved(jobs, m, id, next, o) && ClaimHeld(m, id, next, claiming, o.memory)
  {
    NextIsWritable(jobs, m, id, next);
    SuccessorStays(jobs, id, next);
    OthersStay(jobs, id, next);
    ClaimsStay(jobs, m.claims, Next(jobs, id, next), id);
    SavedIs(jobs, m, id, next, Next(jobs, id, next), claiming);
  }

  /** The claim on the job itself after a good save. */
  ghost predicate ClaimHeld(m: Memory, id: JobId, next: Receipt, claiming: bool, after: Memory) {
    if Over(next) then id !in after.claims
    else if claiming then Lookup(after.claims, id) == Some(next.executorGeneration)
    else if next.phase.HealthyUnclaimed? || Lookup(m.claims, id) != Some(next.executorGeneration)
    then id !in after.claims
    else Lookup(after.claims, id) == Some(next.executorGeneration)
  }

  /** The memory after a good save of `kept`. */
  function Kept(m: Memory, kept: Jobs, id: JobId, claiming: bool): Memory {
    var claims := LiveClaims(m.claims, kept);
    Memory(Some(kept), if claiming && id in kept && !kept[id].IsTerminal()
                       then claims[id := kept[id].executorGeneration] else claims)
  }

  lemma ConcludeIs(jobs: Jobs, m: Memory, id: JobId, kept: Jobs, claiming: bool)
    requires Writable(m, kept)
    ensures ConcludeResult(Holding(jobs), m, Write(id, kept), claiming, GOOD_SAVE)
         == Outcome(Holding(kept), Kept(m, kept, id, claiming), if id in kept then Ok(kept[id]) else Err(MissingKey))
  {}

  lemma ClaimHolds(m: Memory, id: JobId, next: Receipt, kept: Jobs, claiming: bool)
    requires Keyed(kept) && (id in kept ==> kept[id] == next) && (id !in kept ==> Over(next))
    ensures ClaimHeld(m, id, next, claiming, Kept(m, kept, id, claiming))
  {}

  lemma KeptClaims(m: Memory, kept: Jobs, id: JobId, claiming: bool)
    ensures forall k :: k != id ==>
      Lookup(Kept(m, kept, id, claiming).claims, k) == Lookup(LiveClaims(m.claims, kept), k)
  {}

  lemma KeptIsSaved(jobs: Jobs, m: Memory, id: JobId, next: Receipt, kept: Jobs, claiming: bool)
    requires id in kept <==> !Over(next) || |Ahead(jobs, id, next.updatedAt)| < 32
    requires id in kept ==> kept[id] == next
    requires forall k :: k in kept && k != id ==> k in jobs && kept[k] == jobs[k]
    requires forall k :: k in jobs && !Over(jobs[k]) && k != id ==> k in kept && kept[k] == jobs[k]
    requires forall k :: k in m.claims && k != id ==> Lookup(LiveClaims(m.claims, kept), k) == Some(m.claims[k])
    ensures Saved(jobs, m, id, next, Outcome(Holding(kept), Kept(m, kept, id, claiming),
                                             if id in kept then Ok(kept[id]) else Err(MissingKey)))
  {
    KeptClaims(m, kept, id, claiming);
    var after := Kept(m, kept, id, claiming);
    forall k | k in m.claims && k != id ensures Lookup(after.claims, k) == Some(m.claims[k]) {
      assert Lookup(LiveClaims(m.claims, kept), k) == Some(m.claims[k]);
    }
    forall k | k in after.claims && k != id ensures k in m.claims {
      assert Lookup(after.claims, k) == Lookup(LiveClaims(m.claims, kept), k);
    }
  }

  lemma SavedIs(jobs: Jobs, m: Memory, id: JobId, next: Receipt, kept: Jobs, claiming: bool)
    requires Writable(m, kept) && Keyed(kept)
    requires id in kept <==> !Over(next) || |Ahead(jobs, id, next.updatedAt)| < 32
    requires id in kept ==> kept[id] == next
    requires forall k :: k in kept && k != id ==> k in jobs && kept[k] == jobs[k]
    requires forall k :: k in jobs && !Over(jobs[k]) && k != id ==> k in kept && kept[k] == jobs[k]
    requires forall k :: k in m.claims && k != id ==> Lookup(LiveClaims(m.claims, kept), k) == Some(m.claims[k])
    ensures var o := ConcludeResult(Holding(jobs), m, Write(id, kept), claiming, GOOD_SAVE);
      Saved(jobs, m, id, next, o) && ClaimHeld(m, id, next, claiming, o.memory)
  {
    ConcludeIs(jobs, m, id, kept, claiming);
    ClaimHolds(m, id, next, kept, claiming);
    KeptIsSaved(jobs, m, id, next, kept, claiming);
  }

  // ----- transitions -----

  /** A request for a job at its current revision, once the store is read. */
  lemma PlansFor(jobs: Jobs, m: Memory, rq: Request, now: Time, save: SaveIo)
    requires InStep(jobs, m) && Wellformed(rq)
    ensures Perform(Holding(jobs), m, rq, now, ReadWorks, save)
         == ConcludeResult(Holding(jobs), Memory(Some(jobs), m.claims), PlanOf(jobs, m.claims, rq, now), rq.Claim?,
                           save)
  {
    ReadAgrees(jobs, m);
  }

  lemma AcceptedIsWellformed(cur: Receipt, held: Option<int>, phase: Phase, f: Facts, now: Time)
    requires MoveAccepted(cur, held, phase, f, now)
    ensures Wellformed(Move(cur.jobId, cur.revision, phase, f))
  {}

  lemma Read(jobs: Jobs, m: Memory)
    requires InStep(jobs, m)
    ensures InStep(jobs, Memory(Some(jobs), m.claims))
  {}

  /** With a good read and save, a listed transition is written as told, is the answer, and is in the
      store unless 32 finished receipts are ahead of it; the claim goes on with the job. */
  lemma MoveAnswered(jobs: Jobs, m: Memory, id: JobId, phase: Phase, f: Facts, now: Time)
    requires InStep(jobs, m) && id in jobs && MoveAccepted(jobs[id], Lookup(m.claims, id), phase, f, now)
    requires jobs[id].updatedAt <= now && 7 * 24 * 60 * 60 <= now
    ensures var o := Perform(Holding(jobs), m, Move(id, jobs[id].revision, phase, f), now, ReadWorks, GOOD_SAVE);
      Saved(jobs, m, id, Moved(jobs[id], phase, f, now), o)
      && ClaimHeld(m, id, Moved(jobs[id], phase, f, now), false, o.memory)
  {
    var next := Moved(jobs[id], phase, f, now);
    var m1 := Memory(Some(jobs), m.claims);
    MovedIs(jobs[id], Lookup(m.claims, id), phase, f, now);
    MovedIsOk(jobs[id], Lookup(m.claims, id), phase, f, now);
    AcceptedIsWellformed(jobs[id], Lookup(m.claims, id), phase, f, now);
    PlansFor(jobs, m, Move(id, jobs[id].revision, phase, f), now, GOOD_SAVE);
    Read(jobs, m);
    NextSaves(jobs, m1, id, next, false);
    MovePlans(jobs, m.claims, id, phase, f, now);
  }

  lemma MovePlans(jobs: Jobs, claims: map<JobId, int>, id: JobId, phase: Phase, f: Facts, now: Time)
    requires Keyed(jobs) && id in jobs && Lawful(jobs[id]) && 7 * 24 * 60 * 60 <= now
    requires MoveAccepted(jobs[id], Lookup(claims, id), phase, f, now)
    ensures PlanOf(jobs, claims, Move(id, jobs[id].revision, phase, f), now)
         == Write(id, Next(jobs, id, Moved(jobs[id], phase, f, now)))
  {
    MovedIs(jobs[id], Lookup(claims, id), phase, f, now);
  }

  lemma MovedIsOk(cur: Receipt, held: Option<int>, phase: Phase, f: Facts, now: Time)
    requires Lawful(cur) && MoveAccepted(cur, held, phase, f, now)
    ensures ReceiptOk(Moved(cur, phase, f, now)) && !cur.IsTerminal()
  {
    MovedIs(cur, held, phase, f, now);
  }

  /** Every other transition of a stored receipt is refused, and nothing changes in the store. */
  lemma MoveRefused(jobs: Jobs, m: Memory, id: JobId, phase: Phase, f: Facts, now: Time, save: SaveIo)
    requires InStep(jobs, m) && id in jobs && !MoveAccepted(jobs[id], Lookup(m.claims, id), phase, f, now)
    ensures var o := Perform(Holding(jobs), m, Move(id, jobs[id].revision, phase, f), now, ReadWorks, save);
      o.answer == Err(TransitionError) && o.disk == Holding(jobs) && o.memory.claims == m.claims
  {
    MoveAcceptedIff(jobs[id], Lookup(m.claims, id), phase, f, now);
    if Wellformed(Move(id, jobs[id].revision, phase, f)) {
      PlansFor(jobs, m, Move(id, jobs[id].revision, phase, f), now, save);
    }
  }

  /** A healthy job is consumed, claim or no claim: the entry is recorded and the receipt stored. */
  lemma HealthyIsConsumed(jobs: Jobs, m: Memory, id: JobId, entry: string, now: Time)
    requires InStep(jobs, m) && id in jobs && jobs[id].phase.HealthyUnclaimed?
    requires jobs[id].updatedAt <= now && 7 * 24 * 60 * 60 <= now && |Ahead(jobs, id, now)| < 32
    ensures var f := Facts(None, None, None, Some(EntryCreated), Some(entry));
      var o := Perform(Holding(jobs), m, Move(id, jobs[id].revision, Consumed, f), now, ReadWorks, GOOD_SAVE);
      && o.answer.Ok? && o.disk.Holding? && Lookup(o.disk.jobs, id) == Some(o.answer.value)
      && o.answer.value == jobs[id].(revision := jobs[id].revision + 1, updatedAt := now, phase := Consumed,
                                     resultCode := Some(EntryCreated), entryId := Some(entry))
  {
    var f := Facts(None, None, None, Some(EntryCreated), Some(entry));
    assert ReceiptOk(jobs[id]);
    assert MoveAccepted(jobs[id], Lookup(m.claims, id), Consumed, f, now);
    MoveAnswered(jobs, m, id, Consumed, f, now);
    HealthyFacts(jobs[id]);
  }

  lemma HealthyFacts(cur: Receipt)
    requires ReceiptOk(cur) && cur.phase.HealthyUnclaimed?
    ensures cur.rootMode.Some? && cur.actualBytes.Some? && cur.healthCheckedAt.Some?
    ensures cur.healthCheckedAt.value <= cur.updatedAt
  {}

  // ----- claims and cancel requests -----

  /** A receipt claimed for the next generation. */
  function NextGeneration(cur: Receipt, now: Time): Receipt {
    cur.(revision := cur.revision + 1, updatedAt := now, attempt := cur.attempt + 1,
         executorGeneration := cur.executorGeneration + 1)
  }

  lemma FreshClaim(cur: Receipt, held: Option<int>, now: Time)
    requires Lawful(cur) && !Over(cur) && !cur.phase.HealthyUnclaimed? && !Uncertain(cur) && cur.attempt < 32
    requires held != Some(cur.executorGeneration)
    ensures ClaimReceipt(cur, held, None, now) == Ok(NextGeneration(cur, now))
  {
    ClaimAnswers(cur, held, None, now);
  }

  /** Work that a manager without the claim may take up. */
  ghost predicate Claimable(jobs: Jobs, m: Memory, id: JobId) {
    && id in jobs && !Over(jobs[id]) && !jobs[id].phase.HealthyUnclaimed? && !Uncertain(jobs[id])
    && jobs[id].attempt < 32 && Lookup(m.claims, id) != Some(jobs[id].executorGeneration)
  }

  /** The claimed receipt is saved, and while there is work to do it is the answer and the claim is held. */
  ghost predicate Taken(jobs: Jobs, m: Memory, id: JobId, next: Receipt, o: Outcome) {
    && Saved(jobs, m, id, next, o)
    && (if Over(next) then id !in o.memory.claims
        else o.answer == Ok(next) && Lookup(o.memory.claims, id) == Some(next.executorGeneration))
  }

  /** With a good read and save a claim of work to be done raises the generation, is stored, and is held. */
  lemma ClaimAnswered(jobs: Jobs, m: Memory, id: JobId, now: Time)
    requires InStep(jobs, m) && Claimable(jobs, m, id) && jobs[id].updatedAt <= now && 7 * 24 * 60 * 60 <= now
    ensures Taken(jobs, m, id, NextGeneration(jobs[id], now),
                  Perform(Holding(jobs), m, Claim(id, jobs[id].revision, None), now, ReadWorks, GOOD_SAVE))
  {
    FreshClaim(jobs[id], Lookup(m.claims, id), now);
    NextDiffers(jobs[id], now);
    WrittenClaimAnswered(jobs, m, id, None, NextGeneration(jobs[id], now), now);
  }

  lemma NextDiffers(cur: Receipt, now: Time)
    ensures NextGeneration(cur, now) != cur && (Over(NextGeneration(cur, now)) <==> Over(cur))
  {
    assert NextGeneration(cur, now).revision == cur.revision + 1;
  }

  lemma HeldAfter(jobs: Jobs, m: Memory, id: JobId, next: Receipt, o: Outcome)
    requires Saved(jobs, m, id, next, o) && ClaimHeld(m, id, next, true, o.memory)
    ensures Taken(jobs, m, id, next, o)
  {}

  /** A job whose panel may have been changed, or that has no attempt left, is quarantined once its
      local files are confirmed gone. */
  lemma QuarantineAnswered(jobs: Jobs, m: Memory, id: JobId, now: Time)
    requires InStep(jobs, m) && id in jobs && jobs[id].updatedAt <= now && 7 * 24 * 60 * 60 <= now
    requires !Over(jobs[id]) && !jobs[id].phase.HealthyUnclaimed? && (Uncertain(jobs[id]) || jobs[id].attempt >= 32)
    requires Lookup(m.claims, id) != Some(jobs[id].executorGeneration) && |Ahead(jobs, id, now)| < 32
    ensures Perform(Holding(jobs), m, Claim(id, jobs[id].revision, None), now, ReadWorks, GOOD_SAVE).answer
         == Err(CleanupRequiredError)
    ensures var cur := jobs[id];
      var o := Perform(Holding(jobs), m, Claim(id, cur.revision, Some(cur.revision)), now, ReadWorks, GOOD_SAVE);
      && o.answer.Ok? && o.disk.Holding? && Lookup(o.disk.jobs, id) == Some(o.answer.value) && id !in o.memory.claims
      && o.answer.value.phase == RecoveryRequired && o.answer.value.resultCode == Some(VerificationRequired)
      && o.answer.value.revision == cur.revision + 1
  {
    var cur := jobs[id];
    UnconfirmedClaim(jobs, m, id, now);
    ClaimAnswers(cur, Lookup(m.claims, id), Some(cur.revision), now);
    var next := ClaimReceipt(cur, Lookup(m.claims, id), Some(cur.revision), now).value;
    WrittenClaimAnswered(jobs, m, id, Some(cur.revision), next, now);
  }

  lemma UnconfirmedClaim(jobs: Jobs, m: Memory, id: JobId, now: Time)
    requires InStep(jobs, m) && id in jobs
    requires !Over(jobs[id]) && !jobs[id].phase.HealthyUnclaimed? && (Uncertain(jobs[id]) || jobs[id].attempt >= 32)
    requires Lookup(m.claims, id) != Some(jobs[id].executorGeneration)
    ensures Perform(Holding(jobs), m, Claim(id, jobs[id].revision, None), now, ReadWorks, GOOD_SAVE).answer
         == Err(CleanupRequiredError)
  {
    ClaimAnswers(jobs[id], Lookup(m.claims, id), None, now);
    PlansFor(jobs, m, Claim(id, jobs[id].revision, None), now, GOOD_SAVE);
  }

  /** A claim writes a receipt that succeeds the one claimed. */
  lemma ClaimedFacts(cur: Receipt, held: Option<int>, confirmed: Option<int>, next: Receipt, now: Time)
    requires Lawful(cur) && ClaimReceipt(cur, held, confirmed, now) == Ok(next) && next != cur && cur.updatedAt <= now
    ensures ReceiptOk(next) && next.jobId == cur.jobId && next.target == cur.target && next.updatedAt == now
    ensures !cur.IsTerminal()
  {
    assert ReceiptOk(cur);
    ClaimedIsOk(cur, held, confirmed, now);
  }

  lemma ClaimPlans(jobs: Jobs, claims: map<JobId, int>, id: JobId, confirmed: Option<int>, next: Receipt, now: Time)
    requires Keyed(jobs) && id in jobs && next != jobs[id] && next.updatedAt == now && 7 * 24 * 60 * 60 <= now
    requires ClaimReceipt(jobs[id], Lookup(claims, id), confirmed, now) == Ok(next)
    ensures PlanOf(jobs, claims, Claim(id, jobs[id].revision, confirmed), now) == Write(id, Next(jobs, id, next))
  {}

  lemma WrittenClaimAnswered(jobs: Jobs, m: Memory, id: JobId, confirmed: Option<int>, next: Receipt, now: Time)
    requires InStep(jobs, m) && id in jobs && jobs[id].updatedAt <= now && 7 * 24 * 60 * 60 <= now
    requires ClaimReceipt(jobs[id], Lookup(m.claims, id), confirmed, now) == Ok(next) && next != jobs[id]
    ensures Taken(jobs, m, id, next,
                  Perform(Holding(jobs), m, Claim(id, jobs[id].revision, confirmed), now, ReadWorks, GOOD_SAVE))
  {
    var m1 := Memory(Some(jobs), m.claims);
    ClaimedFacts(jobs[id], Lookup(m.claims, id), confirmed, next, now);
    ClaimPlans(jobs, m.claims, id, confirmed, next, now);
    PlansFor(jobs, m, Claim(id, jobs[id].revision, confirmed), now, GOOD_SAVE);
    Read(jobs, m);
    NextSaves(jobs, m1, id, next, true);
    HeldAfter(jobs, m1, id, next, ConcludeResult(Holding(jobs), m1, Write(id, Next(jobs, id, next)), true, GOOD_SAVE));
  }

  /** What a cancel request makes of a receipt. */
  function Asked(cur: Receipt, now: Time): Receipt {
    cur.(revision := cur.revision + 1, updatedAt := now, cancelRequested := true)
  }

  predicate BeforePush(p: Phase) {
    p.Approved? || p.Authorizing? || p.Preflight? || p.Downloading? || p.ArtifactReady? || p.Revalidating? || p.Staging?
  }

  lemma AskedFits(jobs: Jobs, m: Memory, id: JobId, now: Time)
    requires InStep(jobs, m) && id in jobs && jobs[id].updatedAt <= now && !jobs[id].cancelRequested
    requires BeforePush(jobs[id].phase)
    ensures Writable(Memory(Some(jobs), m.claims), jobs[id := Asked(jobs[id], now)])
    ensures LiveClaims(m.claims, jobs[id := Asked(jobs[id], now)]) == m.claims
  {
    assert Lawful(jobs[id]) && ReceiptOk(Asked(jobs[id], now));
    SuccessorFits(jobs, id, Asked(jobs[id], now));
    AskedClaims(jobs, m.claims, id, now);
  }

  lemma AskedClaims(jobs: Jobs, claims: map<JobId, int>, id: JobId, now: Time)
    requires id in jobs && LiveClaims(claims, jobs) == claims
    ensures LiveClaims(claims, jobs[id := Asked(jobs[id], now)]) == claims
  {
    assert LiveClaims(claims, jobs[id := Asked(jobs[id], now)]) == LiveClaims(claims, jobs);
  }

  /** With a good read and save a cancel request of work before the install is stored; all else stays. */
  lemma CancelAnswered(jobs: Jobs, m: Memory, id: JobId, now: Time)
    requires InStep(jobs, m) && id in jobs && jobs[id].updatedAt <= now && !jobs[id].cancelRequested
    requires BeforePush(jobs[id].phase)
    ensures var o := Perform(Holding(jobs), m, Cancel(id, jobs[id].revision), now, ReadWorks, GOOD_SAVE);
      var next := Asked(jobs[id], now);
      o.answer == Ok(next) && o.disk == Holding(jobs[id := next]) && o.memory.claims == m.claims
  {
    CancelAnswers(jobs[id], now);
    PlansFor(jobs, m, Cancel(id, jobs[id].revision), now, GOOD_SAVE);
    AskedFits(jobs, m, id, now);
    ConcludeIs(jobs, Memory(Some(jobs), m.claims), id, jobs[id := Asked(jobs[id], now)], false);
    CancelPlans(jobs, m.claims, id, now);
  }

  lemma CancelPlans(jobs: Jobs, claims: map<JobId, int>, id: JobId, now: Time)
    requires id in jobs && !jobs[id].cancelRequested && BeforePush(jobs[id].phase)
    ensures PlanOf(jobs, claims, Cancel(id, jobs[id].revision), now) == Write(id, jobs[id := Asked(jobs[id], now)])
  {
    CancelAnswers(jobs[id], now);
  }

  // ----- barriers -----

  /** With both readings good a barrier passes exactly at the stored receipt of that revision, in the
      mutation phase asked for, with the cancel flag asked for, under the claim at its generation. */
  lemma BarrierPassesIff(jobs: Jobs, m: Memory, id: JobId, revision: int, phase: Phase, cancelled: bool)
    requires InStep(jobs, m)
    ensures var o := Verify(Holding(jobs), m, id, revision, phase, cancelled, ReadWorks, ReadWorks);
      && o.disk == Holding(jobs)
      && (o.answer.Ok? <==>
            && (phase.Staging? || phase.Installing? || phase.Launching?)
            && id in jobs && jobs[id].revision == revision && jobs[id].phase == phase
            && jobs[id].cancelRequested == cancelled && Lookup(m.claims, id) == Some(jobs[id].executorGeneration))
      && (o.answer.Ok? ==> o.answer.value == jobs[id] && o.memory.claims == m.claims)
  {
    ReadAgrees(jobs, m);
  }

  // ----- create or join -----

  /** An active job for just these facts. */
  predicate SamePlan(r: Receipt, rq: Request)
    requires rq.Create?
  {
    && !Over(r) && r.target == rq.target && r.artifact == rq.artifact
    && r.plan == rq.plan && r.credentialId == rq.credentialId
  }

  /** An active job for the same panel. */
  predicate SamePanel(r: Receipt, rq: Request)
    requires rq.Create?
  {
    && !Over(r)
    && (r.target.address == rq.target.address || r.target.pinnedAddress == rq.target.pinnedAddress
        || r.target.adbSerial == rq.target.adbSerial)
  }

  ghost predicate HasPlan(jobs: Jobs, rq: Request)
    requires rq.Create?
  {
    exists id :: id in jobs && SamePlan(jobs[id], rq)
  }

  ghost predicate HasPanel(jobs: Jobs, rq: Request)
    requires rq.Create?
  {
    exists id :: id in jobs && SamePanel(jobs[id], rq)
  }

  ghost function ActiveJobs(jobs: Jobs): set<JobId> { set id | id in jobs && !Over(jobs[id]) }

  /** Whatever the reading and the saving come to: who is answered a receipt asked for just its
      target, artifact, plan and credential. */
  lemma CreatedOrJoinedFits(disk: Disk, m: Memory, rq: Request, now: Time, read: ReadIo, save: SaveIo)
    requires rq.Create?
    ensures var answer := Perform(disk, m, rq, now, read, save).answer;
      answer.Ok? ==>
        && answer.value.target == rq.target && answer.value.artifact == rq.artifact
        && answer.value.plan == rq.plan && answer.value.credentialId == rq.credentialId && !Over(answer.value)
  {
    var (m1, loaded) := LoadResult(disk, m, read);
    if Wellformed(rq) && loaded.Ok? {
      CreatePlanFits(loaded.value, rq, now);
    }
  }

  lemma CreatePlanFits(jobs: Jobs, rq: Request, now: Time)
    requires rq.Create? && Wellformed(rq)
    ensures var plan := CreatePlan(jobs, rq, now);
      && (plan.Answer? ==> SamePlan(plan.receipt, rq))
      && (plan.Write? ==> plan.id in plan.jobs && SamePlan(plan.jobs[plan.id], rq))
  {}

  /** Pruning drops only finished receipts, so it matters to neither scan nor limit. */
  lemma PrunedScans(jobs: Jobs, rq: Request, now: Time)
    requires rq.Create?
    ensures var kept := Pruned(jobs, now);
      && (HasPlan(jobs, rq) <==> exists id :: id in kept && Joins(kept[id], rq))
      && (HasPanel(jobs, rq) <==> exists id :: id in kept && Collides(kept[id], rq.target))
      && ActiveIds(kept) == ActiveJobs(jobs)
  {
    var kept := Pruned(jobs, now);
    forall id | id in jobs ensures !Over(jobs[id]) ==> id in kept && kept[id] == jobs[id] {}
    if HasPlan(jobs, rq) {
      var id :| id in jobs && SamePlan(jobs[id], rq);
      assert id in kept && Joins(kept[id], rq);
    }
    if HasPanel(jobs, rq) {
      var id :| id in jobs && SamePanel(jobs[id], rq);
      assert id in kept && Collides(kept[id], rq.target);
    }
  }

  /** A job for just these facts is joined: it is the answer, and nothing is written. */
  lemma CreateJoins(jobs: Jobs, m: Memory, rq: Request, now: Time, save: SaveIo)
    requires InStep(jobs, m) && rq.Create? && Wellformed(rq) && 7 * 24 * 60 * 60 <= now && HasPlan(jobs, rq)
    ensures var o := Perform(Holding(jobs), m, rq, now, ReadWorks, save);
      && o.disk == Holding(jobs) && o.answer.Ok? && SamePlan(o.answer.value, rq)
      && Lookup(jobs, o.answer.value.jobId) == Some(o.answer.value)
  {
    PlansFor(jobs, m, rq, now, save);
    PrunedScans(jobs, rq, now);
    JoinedIsStored(jobs, rq, now);
  }

  lemma JoinedIsStored(jobs: Jobs, rq: Request, now: Time)
    requires Keyed(jobs) && rq.Create? && 7 * 24 * 60 * 60 <= now
    requires exists id :: id in Pruned(jobs, now) && Joins(Pruned(jobs, now)[id], rq)
    ensures var plan := CreatePlan(jobs, rq, now);
      plan.Answer? && SamePlan(plan.receipt, rq) && Lookup(jobs, plan.receipt.jobId) == Some(plan.receipt)
  {}

  /** Another active job on the panel, by address, pin or serial, is a conflict. */
  lemma CreateConflicts(jobs: Jobs, m: Memory, rq: Request, now: Time, save: SaveIo)
    requires InStep(jobs, m) && rq.Create? && Wellformed(rq) && 7 * 24 * 60 * 60 <= now
    requires !HasPlan(jobs, rq) && HasPanel(jobs, rq)
    ensures var o := Perform(Holding(jobs), m, rq, now, ReadWorks, save);
      o.disk == Holding(jobs) && o.answer == Err(ConflictError)
  {
    PlansFor(jobs, m, rq, now, save);
    PrunedScans(jobs, rq, now);
  }

  /** Four active jobs are as many as there may be. */
  lemma CreateOverflows(jobs: Jobs, m: Memory, rq: Request, now: Time, save: SaveIo)
    requires InStep(jobs, m) && rq.Create? && Wellformed(rq) && 7 * 24 * 60 * 60 <= now
    requires !HasPanel(jobs, rq) && |ActiveJobs(jobs)| >= 4
    ensures var o := Perform(Holding(jobs), m, rq, now, ReadWorks, save);
      o.disk == Holding(jobs) && o.answer == Err(CapacityError)
  {
    PlansFor(jobs, m, rq, now, save);
    PrunedScans(jobs, rq, now);
    PlanIsOnPanel(jobs, rq);
  }

  lemma PlanIsOnPanel(jobs: Jobs, rq: Request)
    requires rq.Create?
    ensures HasPlan(jobs, rq) ==> HasPanel(jobs, rq)
  {
    if HasPlan(jobs, rq) {
      var id :| id in jobs && SamePlan(jobs[id], rq);
      assert SamePanel(jobs[id], rq);
    }
  }

  /** The receipt of a job just approved. */
  function Approval(rq: Request, now: Time): Receipt
    requires rq.Create?
  {
    Receipt(rq.newId, 0, 0, now, now, Approved, false, 0, rq.target, rq.artifact, rq.plan, rq.credentialId,
            None, None, None, None, None)
  }

  /** The job is created: approved now, at revision 0, unclaimed, and stored; no other active job changes. */
  ghost predicate Created(jobs: Jobs, m: Memory, rq: Request, now: Time, o: Outcome)
    requires rq.Create?
  {
    && o.answer == Ok(Approval(rq, now)) && o.disk.Holding? && Lookup(o.disk.jobs, rq.newId) == Some(Approval(rq, now))
    && (forall k :: k in jobs && !Over(jobs[k]) ==> Lookup(o.disk.jobs, k) == Some(jobs[k]))
    && o.memory.claims == m.claims
  }

  /** Otherwise the job is created. */
  lemma CreateCreates(jobs: Jobs, m: Memory, rq: Request, now: Time)
    requires InStep(jobs, m) && rq.Create? && Wellformed(rq) && 7 * 24 * 60 * 60 <= now
    requires !HasPanel(jobs, rq) && |ActiveJobs(jobs)| < 4 && rq.newId !in jobs
    ensures Created(jobs, m, rq, now, Perform(Holding(jobs), m, rq, now, ReadWorks, GOOD_SAVE))
  {
    PlansFor(jobs, m, rq, now, GOOD_SAVE);
    CreatePlans(jobs, rq, now);
    ConcludedCreation(jobs, Memory(Some(jobs), m.claims), rq, now);
  }

  lemma ConcludedCreation(jobs: Jobs, m: Memory, rq: Request, now: Time)
    requires StoreOk(jobs) && m.cache == Some(jobs) && LiveClaims(m.claims, jobs) == m.claims
    requires rq.Create? && Wellformed(rq)
    requires !HasPanel(jobs, rq) && |ActiveJobs(jobs)| < 4 && rq.newId !in jobs
    ensures var plan := Write(rq.newId, Pruned(jobs, now)[rq.newId := Approval(rq, now)]);
      Created(jobs, m, rq, now, ConcludeResult(Holding(jobs), m, plan, false, GOOD_SAVE))
  {
    var more := Pruned(jobs, now)[rq.newId := Approval(rq, now)];
    ApprovalFits(jobs, m, rq, now);
    ConcludeIs(jobs, m, rq.newId, more, false);
    ApprovalClaims(jobs, m.claims, rq, now);
    forall k | k in jobs && !Over(jobs[k]) ensures Lookup(more, k) == Some(jobs[k]) {
      assert k in Pruned(jobs, now);
    }
  }

  lemma CreatePlans(jobs: Jobs, rq: Request, now: Time)
    requires rq.Create? && Wellformed(rq) && 7 * 24 * 60 * 60 <= now
    requires !HasPanel(jobs, rq) && |ActiveJobs(jobs)| < 4
    ensures CreatePlan(jobs, rq, now) == Write(rq.newId, Pruned(jobs, now)[rq.newId := Approval(rq, now)])
  {
    PrunedScans(jobs, rq, now);
    PlanIsOnPanel(jobs, rq);
  }

  lemma ApprovalFits(jobs: Jobs, m: Memory, rq: Request, now: Time)
    requires StoreOk(jobs) && m.cache == Some(jobs) && rq.Create? && Wellformed(rq)
    requires !HasPanel(jobs, rq) && |ActiveJobs(jobs)| < 4 && rq.newId !in jobs
    ensures Writable(m, Pruned(jobs, now)[rq.newId := Approval(rq, now)])
  {
    var kept := Pruned(jobs, now);
    assert Apart(jobs) && AllReceiptsOk(jobs) && NearlyOk(jobs);
    PrunedFits(jobs, now);
    PrunedActives(jobs, now);
    assert ActiveIds(jobs) == ActiveJobs(jobs);
    assert Apart(kept);
    ApprovalApart(jobs, kept, rq, now);
    AddedFits(kept, rq, now);
  }

  lemma AddedIds(kept: Jobs, rq: Request, now: Time)
    requires rq.Create? && rq.newId !in kept
    ensures ActiveIds(kept[rq.newId := Approval(rq, now)]) == ActiveIds(kept) + {rq.newId}
    ensures TerminalIds(kept[rq.newId := Approval(rq, now)]) == TerminalIds(kept)
  {}

  lemma ApprovalIsOk(rq: Request, now: Time)
    requires rq.Create? && Wellformed(rq)
    ensures ReceiptOk(Approval(rq, now))
  {}

  lemma AddedFits(kept: Jobs, rq: Request, now: Time)
    requires StoreOk(kept) && rq.Create? && Wellformed(rq) && rq.newId !in kept && |ActiveIds(kept)| < 4
    requires Apart(kept[rq.newId := Approval(rq, now)])
    ensures StoreOk(kept[rq.newId := Approval(rq, now)])
  {
    var more := kept[rq.newId := Approval(rq, now)];
    AddedIds(kept, rq, now);
    AddedReceipts(kept, rq, now);
    assert Apart(more);
  }

  lemma AddedReceipts(kept: Jobs, rq: Request, now: Time)
    requires StoreOk(kept) && rq.Create? && Wellformed(rq)
    ensures AllReceiptsOk(kept[rq.newId := Approval(rq, now)]) && Keyed(kept[rq.newId := Approval(rq, now)])
  {
    ApprovalIsOk(rq, now);
    assert AllReceiptsOk(kept);
  }

  lemma ApprovalApart(jobs: Jobs, kept: Jobs, rq: Request, now: Time)
    requires rq.Create? && !HasPanel(jobs, rq) && Apart(kept) && rq.newId !in kept
    requires forall k :: k in kept ==> k in jobs && kept[k] == jobs[k]
    ensures Apart(kept[rq.newId := Approval(rq, now)])
  {
    var more := kept[rq.newId := Approval(rq, now)];
    forall k | k in ActiveIds(more) && k != rq.newId ensures k in ActiveIds(kept) && !SamePanel(jobs[k], rq) {}
  }

  lemma ApprovalClaims(jobs: Jobs, claims: map<JobId, int>, rq: Request, now: Time)
    requires rq.Create? && LiveClaims(claims, jobs) == claims && rq.newId !in jobs
    ensures LiveClaims(claims, Pruned(jobs, now)[rq.newId := Approval(rq, now)]) == claims
  {
    var more := Pruned(jobs, now)[rq.newId := Approval(rq, now)];
    forall k | k in claims ensures k in LiveClaims(claims, more) { assert k in LiveClaims(claims, jobs); }
    forall k | k in LiveClaims(claims, more) ensures k in claims {}
  }

  // ----- when something goes wrong -----

  /** A reading that fails, or during which the caller is cancelled, forgets everything. */
  lemma BadReadAnswers(disk: Disk, m: Memory, rq: Request, now: Time, read: ReadIo, save: SaveIo)
    requires Wellformed(rq) && (read != ReadWorks || disk.Unreadable?)
    ensures Perform(disk, m, rq, now, read, save)
         == Outcome(disk, Memory(None, map[]), Err(if read.ReadCancelled? then Interrupted else StoreError))
  {}

  /** A request for a job that is not there, or at another revision, changes nothing. */
  lemma StaleAnswers(jobs: Jobs, m: Memory, rq: Request, now: Time, save: SaveIo)
    requires InStep(jobs, m) && Wellformed(rq) && !rq.Create?
    requires rq.id !in jobs || jobs[rq.id].revision != rq.revision
    ensures Perform(Holding(jobs), m, rq, now, ReadWorks, save)
         == Outcome(Holding(jobs), Memory(Some(jobs), m.claims),
                    Err(if rq.id !in jobs then NotFoundError else RevisionError))
  {
    PlansFor(jobs, m, rq, now, save);
  }

  /** Where a good save would write, a bad one is told as such and forgets everything; what would have
      been written is in the store if it landed, and what was there before if not. */
  lemma BadSaveAnswers(jobs: Jobs, m: Memory, rq: Request, now: Time, save: SaveIo)
    requires InStep(jobs, m) && Wellformed(rq)
    requires save.cancelled || save.raised || !save.readable || !save.landed
    requires Perform(Holding(jobs), m, rq, now, ReadWorks, GOOD_SAVE).disk != Holding(jobs)
    ensures Perform(Holding(jobs), m, rq, now, ReadWorks, save)
         == Outcome(if save.landed then Perform(Holding(jobs), m, rq, now, ReadWorks, GOOD_SAVE).disk
                    else Holding(jobs),
                    Memory(None, map[]), Err(if save.cancelled then Interrupted else StoreError))
  {
    PlansFor(jobs, m, rq, now, save);
    PlansFor(jobs, m, rq, now, GOOD_SAVE);
    BadConclusion(jobs, Memory(Some(jobs), m.claims), PlanOf(jobs, m.claims, rq, now), rq.Claim?, save);
  }

  lemma BadConclusion(jobs: Jobs, m: Memory, plan: Plan, claiming: bool, save: SaveIo)
    requires save.cancelled || save.raised || !save.readable || !save.landed
    requires ConcludeResult(Holding(jobs), m, plan, claiming, GOOD_SAVE).disk != Holding(jobs)
    ensures ConcludeResult(Holding(jobs), m, plan, claiming, save)
         == Outcome(if save.landed then ConcludeResult(Holding(jobs), m, plan, claiming, GOOD_SAVE).disk
                    else Holding(jobs),
                    Memory(None, map[]), Err(if save.cancelled then Interrupted else StoreError))
  {}
}
