/** The receipt authority: one store file, any number of managers over it.

    `Perform` and `Verify` say what one manager call does to the disk, to the manager's
    memory and to its caller; class InstallJobManager does it in place. */
module JobManager {
  import opened Wrappers
  import opened Receipts
  import opened Retention
  import opened JobDocument

  /** What the store path holds. */
  datatype Disk = Absent | Unreadable | Holding(jobs: Jobs)
  {
    function Contents(): Jobs { if Holding? then jobs else map[] }
  }

  /** What a manager remembers: verified receipts and the generation it claimed per job. */
  datatype Memory = Memory(cache: Option<Jobs>, claims: map<JobId, int>)

  const FORGOTTEN := Memory(None, map[])

  /** How reading the store goes: it works, it fails, or the caller is cancelled meanwhile. */
  datatype ReadIo = ReadWorks | ReadFails | ReadCancelled

  /** How one drained save goes. A write may land although it raised, or raise nothing and not land. */
  datatype SaveIo = SaveIo(landed: bool, raised: bool, readable: bool, cancelled: bool)

  /** Claims survive only for live receipts still at the claimed generation. */
  function LiveClaims(claims: map<JobId, int>, jobs: Jobs): map<JobId, int> {
    map id | id in claims && id in jobs && !jobs[id].IsTerminal() && jobs[id].phase != HealthyUnclaimed
             && jobs[id].executorGeneration == claims[id] :: claims[id]
  }

  // ----- the four requests -----

  datatype Request =
    | Create(target: Target, artifact: Artifact, plan: PlanDigest, credentialId: string, newId: JobId)
    | Cancel(id: JobId, revision: int)
    | Claim(id: JobId, revision: int, confirmed: Option<int>)
    | Move(id: JobId, revision: int, phase: Phase, facts: Facts)

  /** Checked before the store is touched. */
  predicate Wellformed(rq: Request) {
    match rq
    case Create(target, artifact, plan, credentialId, _) =>
      plan == PlanDigest(target, artifact, credentialId)
      && target.primaryAbi in artifact.supportedAbis && artifact.minSdk <= target.androidSdk
    case Move(_, _, _, facts) =>
      facts.actualBytes.Some? ==> 1 <= facts.actualBytes.value <= MAX_APK_BYTES
    case _ => true
  }

  /** What a request asks of the receipts: refuse it, answer from them, or write a successor map. */
  datatype Plan = Refuse(error: JobError) | Answer(receipt: Receipt) | Write(id: JobId, jobs: Jobs)

  function Current(jobs: Jobs, id: JobId, revision: int): Result<Receipt, JobError> {
    if id !in jobs then Err(NotFoundError)
    else if jobs[id].revision != revision then Err(RevisionError)
    else Ok(jobs[id])
  }

  ghost function PrunedPlan(jobs: Jobs, id: JobId, next: Receipt): Plan {
    if next.updatedAt < RETENTION_SECONDS then Refuse(ClockOverflow)
    else Write(id, Pruned(jobs[id := next], next.updatedAt))
  }

  predicate Collides(r: Receipt, target: Target) {
    !r.IsTerminal() && Overlap(r.target, target)
  }

  predicate Joins(r: Receipt, rq: Request)
    requires rq.Create?
  {
    Collides(r, rq.target) && r.target == rq.target && r.artifact == rq.artifact
    && r.plan == rq.plan && r.credentialId == rq.credentialId
  }

  ghost function CreatePlan(jobs: Jobs, rq: Request, now: Time): Plan
    requires rq.Create?
  {
    if now < RETENTION_SECONDS then Refuse(ClockOverflow)
    else
      var kept := Pruned(jobs, now);
      if exists id :: id in kept && Joins(kept[id], rq) then
        var id :| id in kept && Joins(kept[id], rq);
        Answer(kept[id])
      else if exists id :: id in kept && Collides(kept[id], rq.target) then Refuse(ConflictError)
      else if |ActiveIds(kept)| >= MAX_ACTIVE_JOBS then Refuse(CapacityError)
      else Write(rq.newId, kept[rq.newId := NewReceipt(rq.newId, rq.target, rq.artifact, rq.credentialId, now)])
  }

  ghost function PlanOf(jobs: Jobs, claims: map<JobId, int>, rq: Request, now: Time): Plan {
    if rq.Create? then CreatePlan(jobs, rq, now)
    else
      var current := Current(jobs, rq.id, rq.revision);
      if current.Err? then Refuse(current.error)
      else
        var cur := current.value;
        match rq
        case Cancel(id, _) =>
          var next := RequestCancel(cur, now);
          if next.Err? then Refuse(next.error)
          else if next.value == cur then Answer(cur)
          else Write(id, jobs[id := next.value])
        case Claim(id, _, confirmed) =>
          var next := ClaimReceipt(cur, Lookup(claims, id), confirmed, now);
          if next.Err? then Refuse(next.error)
          else if next.value == cur then Answer(cur)
          else PrunedPlan(jobs, id, next.value)
        case Move(id, _, phase, facts) =>
          var next := Transition(cur, Lookup(claims, id), phase, facts, now);
          if next.Err? then Refuse(next.error)
          else PrunedPlan(jobs, id, next.value)
  }

  // ----- loading and saving -----

  /** A claimed receipt that no longer reads as remembered is lost authority. */
  ghost predicate LostAuthority(m: Memory, jobs: Jobs) {
    m.cache.Some? && exists id :: id in m.claims && Lookup(jobs, id) != Lookup(m.cache.value, id)
  }

  ghost function LoadResult(disk: Disk, m: Memory, io: ReadIo): (Memory, Result<Jobs, JobError>) {
    if io.ReadCancelled? then (FORGOTTEN, Err(Interrupted))
    else if io.ReadFails? || disk.Unreadable? || LostAuthority(m, disk.Contents()) then (FORGOTTEN, Err(StoreError))
    else (Memory(Some(disk.Contents()), LiveClaims(m.claims, disk.Contents())), Ok(disk.Contents()))
  }

  ghost predicate ClockWentBack(before: Jobs, after: Jobs) {
    exists id :: id in before && id in after && after[id].updatedAt < before[id].updatedAt
  }

  /** A candidate the save accepts for writing. */
  ghost predicate Writable(m: Memory, jobs: Jobs) {
    StoreOk(jobs) && m.cache.Some? && !ClockWentBack(m.cache.value, jobs)
  }

  ghost function SaveResult(disk: Disk, m: Memory, jobs: Jobs, io: SaveIo): (Disk, Memory, Result<(), JobError>) {
    if !Writable(m, jobs) then (disk, FORGOTTEN, Err(StoreError))
    else
      var after := if io.landed then Holding(jobs) else disk;
      if io.cancelled then (after, FORGOTTEN, Err(Interrupted))
      else if io.raised || !io.readable || after != Holding(jobs) then (after, FORGOTTEN, Err(StoreError))
      else (after, Memory(Some(jobs), LiveClaims(m.claims, jobs)), Ok(()))
  }

  datatype Outcome = Outcome(disk: Disk, memory: Memory, answer: Result<Receipt, JobError>)

  /** Carry out a plan: only a verified save changes what the manager remembers. */
  ghost function ConcludeResult(disk: Disk, m: Memory, plan: Plan, claiming: bool, save: SaveIo): Outcome {
    match plan
    case Refuse(e) => Outcome(disk, m, Err(e))
    case Answer(r) => Outcome(disk, m, Ok(r))
    case Write(id, jobs) =>
      var (after, m2, saved) := SaveResult(disk, m, jobs, save);
      if saved.Err? then Outcome(after, m2, Err(saved.error))
      else if id !in jobs then Outcome(after, m2, Err(MissingKey))
      else if claiming && !jobs[id].IsTerminal() then
        Outcome(after, m2.(claims := m2.claims[id := jobs[id].executorGeneration]), Ok(jobs[id]))
      else Outcome(after, m2, Ok(jobs[id]))
  }

  /** One request, from the load to the claim it may leave in memory. */
  ghost function Perform(disk: Disk, m: Memory, rq: Request, now: Time, read: ReadIo, save: SaveIo): Outcome {
    if !Wellformed(rq) then Outcome(disk, m, Err(TransitionError))
    else
      var (m1, loaded) := LoadResult(disk, m, read);
      if loaded.Err? then Outcome(disk, m1, Err(loaded.error))
      else ConcludeResult(disk, m1, PlanOf(loaded.value, m1.claims, rq, now), rq.Claim?, save)
  }

  // ----- barriers -----

  predicate MutationBarrier(p: Phase) { RestartAmbiguous(p) }

  /** The cancel flag the cleanup barrier of each mutation phase expects. */
  function CleanupPolarity(p: Phase): bool { p == Staging }

  /** A read that trusts nothing remembered and needs the store to exist. */
  ghost function ReloadResult(disk: Disk, m: Memory, io: ReadIo): (Memory, Result<Jobs, JobError>) {
    if io.ReadCancelled? then (FORGOTTEN, Err(Interrupted))
    else if io.ReadFails? || !disk.Holding? then (FORGOTTEN, Err(StoreError))
    else (Memory(Some(disk.jobs), LiveClaims(m.claims, disk.jobs)), Ok(disk.jobs))
  }

  /** The receipt stands at the barrier's phase and cancel flag, as remembered, under this claim. */
  predicate Stands(durable: Receipt, remembered: Receipt, claims: map<JobId, int>, phase: Phase, cancelled: bool) {
    && durable == remembered && durable.phase == phase && durable.cancelRequested == cancelled
    && Lookup(claims, durable.jobId) == Some(durable.executorGeneration)
  }

  /** Re-read authority before an external action. */
  ghost function Verify(disk: Disk, m: Memory, id: JobId, revision: int, phase: Phase, cancelled: bool,
                        read: ReadIo, reread: ReadIo): Outcome
  {
    if !MutationBarrier(phase) then Outcome(disk, m, Err(TransitionError))
    else
      var (m1, loaded) := if m.cache.Some? then (m, Ok(m.cache.value)) else LoadResult(disk, m, read);
      if loaded.Err? then Outcome(disk, m1, Err(loaded.error))
      else
        var remembered := Current(loaded.value, id, revision);
        if remembered.Err? then Outcome(disk, m1, Err(remembered.error))
        else VerifyDurable(disk, m1, id, revision, remembered.value, phase, cancelled, reread)
  }

  ghost function VerifyDurable(disk: Disk, m: Memory, id: JobId, revision: int, remembered: Receipt,
                               phase: Phase, cancelled: bool, reread: ReadIo): Outcome
  {
    var (m2, reloaded) := ReloadResult(disk, m, reread);
    if reloaded.Err? then Outcome(disk, m2, Err(reloaded.error))
    else
      var durable := Current(reloaded.value, id, revision);
      if durable.Err? then Outcome(disk, m2, Err(durable.error))
      else if !Stands(durable.value, remembered, m2.claims, phase, cancelled)
      then Outcome(disk, FORGOTTEN, Err(TransitionError))
      else Outcome(disk, m2, Ok(durable.value))
  }

  // ----- planning, against a loaded map -----

  method PlanPruned(jobs: Jobs, id: JobId, next: Receipt) returns (plan: Plan)
    requires Keyed(jobs) && next.jobId == id
    ensures plan == PrunedPlan(jobs, id, next)
    ensures plan.Write? ==> Keyed(plan.jobs)
  {
    var pruned := Prune(jobs[id := next], next.updatedAt);
    return if pruned.Err? then Refuse(pruned.error) else Write(id, pruned.value);
  }

  method PlanCancel(jobs: Jobs, claims: map<JobId, int>, id: JobId, revision: int, now: Time) returns (plan: Plan)
    requires Keyed(jobs)
    ensures plan == PlanOf(jobs, claims, Cancel(id, revision), now)
    ensures plan.Write? ==> Keyed(plan.jobs)
  {
    var current := Current(jobs, id, revision);
    if current.Err? { return Refuse(current.error); }
    var cur := current.value;
    if !Cancellable(cur.phase) { return Refuse(TransitionError); }
    if cur.cancelRequested { return Answer(cur); }
    var updated := cur.(revision := cur.revision + 1, updatedAt := now, cancelRequested := true);
    return Write(id, jobs[id := updated]);
  }

  method PlanClaim(jobs: Jobs, claims: map<JobId, int>, id: JobId, revision: int, confirmed: Option<int>, now: Time)
    returns (plan: Plan)
    requires Keyed(jobs)
    ensures plan == PlanOf(jobs, claims, Claim(id, revision, confirmed), now)
    ensures plan.Write? ==> Keyed(plan.jobs)
  {
    var current := Current(jobs, id, revision);
    if current.Err? { return Refuse(current.error); }
    var next := ClaimReceipt(current.value, Lookup(claims, id), confirmed, now);
    if next.Err? { return Refuse(next.error); }
    if next.value == current.value { return Answer(current.value); }
    plan := PlanPruned(jobs, id, next.value);
  }

  method PlanMove(jobs: Jobs, claims: map<JobId, int>, id: JobId, revision: int, phase: Phase, facts: Facts, now: Time)
    returns (plan: Plan)
    requires Keyed(jobs)
    ensures plan == PlanOf(jobs, claims, Move(id, revision, phase, facts), now)
    ensures plan.Write? ==> Keyed(plan.jobs)
  {
    var current := Current(jobs, id, revision);
    if current.Err? { return Refuse(current.error); }
    var next := Transition(current.value, Lookup(claims, id), phase, facts, now);
    if next.Err? { return Refuse(next.error); }
    plan := PlanPruned(jobs, id, next.value);
  }

  /** Look for an active receipt on the same target: an exact one is joined, any other conflicts. */
  method FindActive(jobs: Jobs, rq: Request) returns (found: Option<Receipt>, conflict: bool)
    requires rq.Create? && Keyed(jobs)
    requires forall a, b :: a in ActiveIds(jobs) && b in ActiveIds(jobs) && a != b ==>
               !Overlap(jobs[a].target, jobs[b].target)
    ensures found.Some? ==> found.value.jobId in jobs && jobs[found.value.jobId] == found.value && Joins(found.value, rq)
    ensures found.Some? ==> forall id :: id in jobs && Joins(jobs[id], rq) ==> jobs[id] == found.value
    ensures found.None? ==> forall id :: id in jobs ==> !Joins(jobs[id], rq)
    ensures found.None? ==> (conflict <==> exists id :: id in jobs && Collides(jobs[id], rq.target))
  {
    var rest := jobs.Keys;
    while rest != {}
      invariant rest <= jobs.Keys
      invariant forall id :: id in jobs && id !in rest ==> !Collides(jobs[id], rq.target)
      decreases rest
    {
      var id :| id in rest;
      if Collides(jobs[id], rq.target) {
        if Joins(jobs[id], rq) {
          OnlyOneJoins(jobs, rq, id);
          return Some(jobs[id]), false;
        }
        forall other | other in jobs && Joins(jobs[other], rq) ensures other == id {
          OnlyOneJoins(jobs, rq, other);
        }
        return None, true;
      }
      rest := rest - {id};
    }
    return None, false;
  }

  method PlanCreate(jobs: Jobs, claims: map<JobId, int>, rq: Request, now: Time) returns (plan: Plan)
    requires rq.Create? && StoreOk(jobs)
    ensures plan == PlanOf(jobs, claims, rq, now)
    ensures plan.Write? ==> Keyed(plan.jobs)
  {
    var pruned := Prune(jobs, now);
    if pruned.Err? { return Refuse(pruned.error); }
    var kept := pruned.value;
    PrunedStaysApart(jobs, now);
    var found, conflict := FindActive(kept, rq);
    if found.Some? { return Answer(found.value); }
    if conflict { return Refuse(ConflictError); }
    if |ActiveIds(kept)| >= MAX_ACTIVE_JOBS { return Refuse(CapacityError); }
    return Write(rq.newId, kept[rq.newId := NewReceipt(rq.newId, rq.target, rq.artifact, rq.credentialId, now)]);
  }

  // ----- in place -----

  class StoreFile {
    var document: Option<Document>

    constructor ()
      ensures document == None
    {
      document := None;
    }

    ghost function Stored(): Disk
      reads this
    {
      if document.None? then Absent
      else if document.value.format == FORMAT && Readable(document.value.jobs)
      then Holding(ByJobId(document.value.jobs))
      else Unreadable
    }
  }

  class InstallJobManager {
    const store: StoreFile
    var cache: Option<Jobs>
    var claims: map<JobId, int>

    constructor (store: StoreFile)
      ensures this.store == store && State() == FORGOTTEN
    {
      this.store := store;
      cache := None;
      claims := map[];
    }

    ghost function State(): Memory
      reads this
    {
      Memory(cache, claims)
    }

    method InvalidateCache()
      modifies this
      ensures State() == FORGOTTEN
    {
      cache := None;
      claims := map[];
    }

    method ReconcileClaims()
      modifies this`claims
      ensures claims == if cache.None? then map[] else LiveClaims(old(claims), cache.value)
    {
      if cache.None? {
        claims := map[];
      } else {
        claims := LiveClaims(claims, cache.value);
      }
    }

    /** Whether some claimed receipt differs between memory and `loaded`. */
    method ClaimedDiffers(loaded: Jobs) returns (differs: bool)
      ensures differs <==> LostAuthority(State(), loaded)
    {
      if cache.None? { return false; }
      var rest := claims.Keys;
      while rest != {}
        invariant rest <= claims.Keys
        invariant forall id :: id in claims && id !in rest ==> Lookup(loaded, id) == Lookup(cache.value, id)
        decreases rest
      {
        var id :| id in rest;
        if Lookup(loaded, id) != Lookup(cache.value, id) { return true; }
        rest := rest - {id};
      }
      return false;
    }

    method LoadFresh(io: ReadIo) returns (r: Result<Jobs, JobError>)
      modifies this
      ensures (State(), r) == LoadResult(store.Stored(), old(State()), io)
    {
      if io.ReadCancelled? {
        InvalidateCache();
        return Err(Interrupted);
      }
      var loaded: Result<Jobs, JobError> := Ok(map[]);
      if io.ReadFails? {
        loaded := Err(StoreError);
      } else if store.document.Some? {
        loaded := ParseDocument(store.document.value);
      }
      if loaded.Ok? {
        var differs := ClaimedDiffers(loaded.value);
        if differs { loaded := Err(StoreError); }
      }
      if loaded.Err? {
        InvalidateCache();
        return Err(StoreError);
      }
      cache := Some(loaded.value);
      ReconcileClaims();
      return loaded;
    }

    method WentBack(jobs: Jobs) returns (back: bool)
      requires cache.Some?
      ensures back <==> ClockWentBack(cache.value, jobs)
    {
      var rest := cache.value.Keys;
      while rest != {}
        invariant rest <= cache.value.Keys
        invariant forall id :: id in cache.value && id in jobs && id !in rest ==>
                    jobs[id].updatedAt >= cache.value[id].updatedAt
        decreases rest
      {
        var id :| id in rest;
        if id in jobs && jobs[id].updatedAt < cache.value[id].updatedAt { return true; }
        rest := rest - {id};
      }
      return false;
    }

    method Save(jobs: Jobs, io: SaveIo) returns (r: Result<(), JobError>)
      requires Keyed(jobs)
      modifies this, store
      ensures (store.Stored(), State(), r) == SaveResult(old(store.Stored()), old(State()), jobs, io)
    {
      var document := SerializeDocument(jobs);
      var check := ParseDocument(document);
      CheckIsStoreOk(jobs, document);
      var refused := check != Ok(jobs) || cache.None?;
      if !refused {
        refused := WentBack(jobs);
      }
      if refused {
        InvalidateCache();
        return Err(StoreError);
      }
      if io.landed {
        store.document := Some(document);
      }
      var failed := io.raised || !io.readable || store.document.None?;
      if !failed {
        var verified := ParseDocument(store.document.value);
        failed := verified != Ok(jobs);
      }
      if io.cancelled || failed {
        InvalidateCache();
        return Err(if io.cancelled then Interrupted else StoreError);
      }
      cache := Some(jobs);
      ReconcileClaims();
      return Ok(());
    }

    method Conclude(plan: Plan, claiming: bool, save: SaveIo) returns (r: Result<Receipt, JobError>)
      requires plan.Write? ==> Keyed(plan.jobs)
      modifies this, store
      ensures Outcome(store.Stored(), State(), r)
           == ConcludeResult(old(store.Stored()), old(State()), plan, claiming, save)
    {
      match plan
      case Refuse(e) => return Err(e);
      case Answer(receipt) => return Ok(receipt);
      case Write(id, jobs) =>
        var saved := Save(jobs, save);
        if saved.Err? { return Err(saved.error); }
        if id !in cache.value { return Err(MissingKey); }
        var persisted := cache.value[id];
        if claiming && !persisted.IsTerminal() {
          claims := claims[id := persisted.executorGeneration];
        }
        return Ok(persisted);
    }

    method RequestCancel(id: JobId, revision: int, now: Time, read: ReadIo, save: SaveIo) returns (r: Result<Receipt,
                         JobError>)
      modifies this, store
      ensures Outcome(store.Stored(), State(), r)
           == Perform(old(store.Stored()), old(State()), Cancel(id, revision), now, read, save)
    {
      var loaded := LoadFresh(read);
      if loaded.Err? { return Err(loaded.error); }
      StoredIsStoreOk(store);
      var plan := PlanCancel(loaded.value, claims, id, revision, now);
      r := Conclude(plan, false, save);
    }

    method ClaimJob(id: JobId, revision: int, confirmed: Option<int>, now: Time, read: ReadIo, save: SaveIo)
      returns (r: Result<Receipt, JobError>)
      modifies this, store
      ensures Outcome(store.Stored(), State(), r)
           == Perform(old(store.Stored()), old(State()), Claim(id, revision, confirmed), now, read, save)
    {
      var loaded := LoadFresh(read);
      if loaded.Err? { return Err(loaded.error); }
      StoredIsStoreOk(store);
      var plan := PlanClaim(loaded.value, claims, id, revision, confirmed, now);
      r := Conclude(plan, true, save);
    }

    method TransitionJob(id: JobId, revision: int, phase: Phase, facts: Facts, now: Time, read: ReadIo, save: SaveIo)
      returns (r: Result<Receipt, JobError>)
      modifies this, store
      ensures Outcome(store.Stored(), State(), r)
           == Perform(old(store.Stored()), old(State()), Move(id, revision, phase, facts), now, read, save)
    {
      if facts.actualBytes.Some? && !(1 <= facts.actualBytes.value <= MAX_APK_BYTES) {
        return Err(TransitionError);
      }
      var loaded := LoadFresh(read);
      if loaded.Err? { return Err(loaded.error); }
      StoredIsStoreOk(store);
      var plan := PlanMove(loaded.value, claims, id, revision, phase, facts, now);
      r := Conclude(plan, false, save);
    }

    /** Create a receipt, or join the active one for exactly these frozen facts. `newId` is the
        drawn identifier, drawn again while the pruned map had it. */
    method CreateOrJoin(rq: Request, now: Time, read: ReadIo, save: SaveIo) returns (r: Result<Receipt, JobError>)
      requires rq.Create? && rq.newId !in Pruned(store.Stored().Contents(), now)
      modifies this, store
      ensures Outcome(store.Stored(), State(), r)
           == Perform(old(store.Stored()), old(State()), rq, now, read, save)
    {
      if !Wellformed(rq) { return Err(TransitionError); }
      var loaded := LoadFresh(read);
      if loaded.Err? { return Err(loaded.error); }
      StoredIsStoreOk(store);
      var plan := PlanCreate(loaded.value, claims, rq, now);
      r := Conclude(plan, false, save);
    }

    method LoadDurable(io: ReadIo) returns (r: Result<Jobs, JobError>)
      modifies this
      ensures (State(), r) == ReloadResult(store.Stored(), old(State()), io)
    {
      r := Err(if io.ReadCancelled? then Interrupted else StoreError);
      if io.ReadWorks? && store.document.Some? {
        r := ParseDocument(store.document.value);
      }
      if r.Err? {
        InvalidateCache();
      } else {
        cache := Some(r.value);
        ReconcileClaims();
      }
    }

    method VerifyStanding(id: JobId, revision: int, remembered: Receipt, phase: Phase, cancelled: bool, reread: ReadIo)
      returns (r: Result<Receipt, JobError>)
      modifies this
      ensures Outcome(store.Stored(), State(), r)
           == VerifyDurable(store.Stored(), old(State()), id, revision, remembered, phase, cancelled, reread)
    {
      var durable := LoadDurable(reread);
      if durable.Err? { return Err(durable.error); }
      r := Current(durable.value, id, revision);
      if r.Ok? && !Stands(r.value, remembered, claims, phase, cancelled) {
        InvalidateCache();
        return Err(TransitionError);
      }
    }

    /** The shared body of the mutation barrier (`cancelled` false) and the cleanup barrier. */
    method VerifyBarrier(id: JobId, revision: int, phase: Phase, cancelled: bool, read: ReadIo, reread: ReadIo)
      returns (r: Result<Receipt, JobError>)
      modifies this
      ensures Outcome(store.Stored(), State(), r)
           == Verify(store.Stored(), old(State()), id, revision, phase, cancelled, read, reread)
    {
      if !MutationBarrier(phase) { return Err(TransitionError); }
      var loaded: Result<Jobs, JobError>;
      if cache.Some? {
        loaded := Ok(cache.value);
      } else {
        loaded := LoadFresh(read);
      }
      if loaded.Err? { return Err(loaded.error); }
      var remembered := Current(loaded.value, id, revision);
      if remembered.Err? { return remembered; }
      r := VerifyStanding(id, revision, remembered.value, phase, cancelled, reread);
    }

    method VerifyMutationBarrier(id: JobId, revision: int, phase: Phase, read: ReadIo, reread: ReadIo)
      returns (r: Result<Receipt, JobError>)
      modifies this
      ensures Outcome(store.Stored(), State(), r)
           == Verify(store.Stored(), old(State()), id, revision, phase, false, read, reread)
    {
      r := VerifyBarrier(id, revision, phase, false, read, reread);
    }

    /** Remote cleanup is allowed from staging only once cancelled, from the other two only while not. */
    method VerifyCleanupBarrier(id: JobId, revision: int, phase: Phase, read: ReadIo, reread: ReadIo)
      returns (r: Result<Receipt, JobError>)
      modifies this
      ensures Outcome(store.Stored(), State(), r)
           == Verify(store.Stored(), old(State()), id, revision, phase, CleanupPolarity(phase), read, reread)
    {
      r := VerifyBarrier(id, revision, phase, CleanupPolarity(phase), read, reread);
    }
  }

  lemma CheckIsStoreOk(jobs: Jobs, document: Document)
    requires Keyed(jobs) && document.format == FORMAT && Lists(jobs, document.jobs)
    ensures Readable(document.jobs) && ByJobId(document.jobs) == jobs <==> StoreOk(jobs)
  {
    if StoreOk(jobs) {
      DocumentRoundTrip(jobs, document.jobs);
    } else if Readable(document.jobs) {
      ReadableIsStore(document.jobs);
    }
  }

  lemma StoredIsStoreOk(store: StoreFile)
    ensures StoreOk(store.Stored().Contents())
  {
    if store.Stored().Holding? { ReadableIsStore(store.document.value.jobs); }
  }

  lemma PrunedStaysApart(jobs: Jobs, now: Time)
    requires StoreOk(jobs)
    ensures Keyed(Pruned(jobs, now))
    ensures var kept := Pruned(jobs, now);
      forall a, b :: a in ActiveIds(kept) && b in ActiveIds(kept) && a != b ==> !Overlap(kept[a].target, kept[b].target)
  {
    assert ActiveIds(Pruned(jobs, now)) <= ActiveIds(jobs);
  }

  lemma OnlyOneJoins(jobs: Jobs, rq: Request, id: JobId)
    requires rq.Create? && id in jobs && Joins(jobs[id], rq)
    requires forall a, b :: a in ActiveIds(jobs) && b in ActiveIds(jobs) && a != b ==>
               !Overlap(jobs[a].target, jobs[b].target)
    ensures forall other :: other in jobs && Collides(jobs[other], rq.target) ==> other == id
  {
    forall other | other in jobs && Collides(jobs[other], rq.target) ensures other == id {
      assert id in ActiveIds(jobs) && other in ActiveIds(jobs);
    }
  }
}
