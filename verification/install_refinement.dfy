/** The protocol's one-receipt store is the manager's store seen from one job: whatever a call of
    the real manager does to the whole map, one or two events of the protocol do to that job's
    receipt, claim, worker and scan. */
module InstallRefinement {
  import opened Wrappers
  import opened Receipts
  import opened Retention
  import opened JobDocument
  import M = JobManager
  import R = JobRuns
  import opened InstallProtocol

  /** The world once the job's receipt and claim are what the store and the manager's memory hold. */
  ghost function ShownBy(w: World, id: JobId, disk: M.Disk, m: M.Memory): World {
    w.(disk := Lookup(disk.Contents(), id), claim := Lookup(m.claims, id))
  }

  ghost predicate Shows(w: World, id: JobId, disk: M.Disk, m: M.Memory) {
    w.disk == Lookup(disk.Contents(), id) && w.claim == Lookup(m.claims, id)
  }

  /** A sole manager over a store that holds a document. */
  ghost predicate Managed(disk: M.Disk, m: M.Memory) {
    disk.Holding? && R.DiskOk(disk) && R.Coherent(disk, m)
  }

  /** The call failed and wrote nothing; the manager may have forgotten everything. */
  ghost predicate JustFailed(w: World, id: JobId, disk: M.Disk, o: M.Outcome) {
    && o.answer.Err? && !o.answer.error.RevisionError? && !o.answer.error.CleanupRequiredError?
    && (ShownBy(w, id, o.disk, o.memory) == w || (o.disk == disk && o.memory == M.FORGOTTEN))
  }

  /** An await of which only the save matters. */
  function SaveIo(now: Time, save: SaveFate, pruned: bool): Io {
    Io(now, now, true, TransportFailed, Rootless, save, pruned, true, Delivered, PushNotIssued, InstallNotIssued,
       LaunchNotIssued(false), EraseNotIssued)
  }

  /** How a manager's save looks to the job. */
  function FateOf(landed: bool, worked: bool): SaveFate {
    if worked then Saved else if landed then LostAfterLanding else LostBeforeLanding
  }

  // ----- the save -----

  /** A map the manager would write for `next`: the job's new receipt, or none if pruned at once. */
  ghost predicate Writes(jobs: Jobs, id: JobId, next: Receipt) {
    if id in jobs then jobs[id] == next else next.IsTerminal()
  }

  /** The manager's save, verified or not, is a protocol write. */
  lemma SaveIsWrite(w: World, id: JobId, disk: M.Disk, m: M.Memory, jobs: Jobs, next: Receipt, save: M.SaveIo,
                    now: Time)
    requires Shows(w, id, disk, m) && w.disk.Some? && w.disk != Some(next) && Writes(jobs, id, next)
    requires M.Writable(m, jobs)
    ensures var o := M.ConcludeResult(disk, m, M.Write(id, jobs), false, save);
      var worked := M.SaveResult(disk, m, jobs, save).2.Ok?;
      var io := SaveIo(now, FateOf(save.landed, worked), id !in jobs);
      && Shows(WriteReceipt(w, next, io), id, o.disk, o.memory)
      && (WriteReturns(next, io) <==> o.answer.Ok?) && (o.answer.Ok? ==> o.answer.value == next)
      && (o.answer.Err? ==> !o.answer.error.RevisionError?)
  {
    var (after, m2, saved) := M.SaveResult(disk, m, jobs, save);
    assert !save.landed ==> disk != M.Holding(jobs);
  }

  /** A coherent manager loads what the disk holds and keeps its claims, or forgets them all. */
  lemma LoadFacts(disk: M.Disk, m: M.Memory, read: M.ReadIo)
    requires disk.Holding? && R.DiskOk(disk) && R.Coherent(disk, m)
    ensures var (m1, loaded) := M.LoadResult(disk, m, read);
      if loaded.Ok? then loaded.value == disk.jobs && m1.claims == m.claims && Keyed(disk.jobs)
      else m1 == M.FORGOTTEN && !loaded.error.RevisionError? && !loaded.error.CleanupRequiredError?
  {}

  /** A request through a sole manager fails before it plans anything, or concludes a plan made
      from the stored jobs and the claims held before. */
  lemma PerformSplits(w: World, id: JobId, disk: M.Disk, m: M.Memory, rq: M.Request, now: Time, read: M.ReadIo,
                      save: M.SaveIo)
      returns (m1: M.Memory)
    requires Shows(w, id, disk, m) && Managed(disk, m)
    ensures var o := M.Perform(disk, m, rq, now, read, save);
      JustFailed(w, id, disk, o)
      || (m1.claims == m.claims && Keyed(disk.jobs)
          && o == M.ConcludeResult(disk, m1, M.PlanOf(disk.jobs, m1.claims, rq, now), rq.Claim?, save))
  {
    LoadFacts(disk, m, read);
    m1 := M.LoadResult(disk, m, read).0;
  }

  /** A save the manager refuses to begin. */
  lemma UnwritableFails(w: World, id: JobId, disk: M.Disk, m: M.Memory, at: JobId, jobs: Jobs, claiming: bool,
                        save: M.SaveIo)
    requires w.disk == Lookup(disk.Contents(), id) && !M.Writable(m, jobs)
    ensures JustFailed(w, id, disk, M.ConcludeResult(disk, m, M.Write(at, jobs), claiming, save))
  {}

  // ----- running on -----

  lemma OneEvent(w: World, e: Event)
    ensures After(w, [e]) == Step(w, e)
  {
    assert [e][..0] == [];
    assert After(w, []) == w;
  }

  lemma TwoEvents(w: World, a: Event, b: Event)
    ensures After(w, [a, b]) == Step(Step(w, a), b)
  {
    assert [a, b][..1] == [a];
    OneEvent(w, a);
  }

  /** A failed call stops the worker, dropping the claim if the manager forgot it. */
  lemma StopRefines(w: World, id: JobId, disk: M.Disk, o: M.Outcome) returns (events: seq<Event>)
    requires w.worker.At? && w.disk == Lookup(disk.Contents(), id) && JustFailed(w, id, disk, o)
    ensures After(w, events) == Noted(Die(ShownBy(w, id, o.disk, o.memory)))
  {
    if ShownBy(w, id, o.disk, o.memory) == w {
      events := [WorkerStopped];
      OneEvent(w, WorkerStopped);
    } else {
      events := [ClaimsDropped, WorkerStopped];
      TwoEvents(w, ClaimsDropped, WorkerStopped);
    }
  }

  // ----- the move -----

  /** The worker is about to ask for a transition; `stale` is what it does when it lost the race. */
  ghost predicate AtMove(w: World, r: Receipt, phase: Phase, facts: Facts, stale: Pc) {
    && w.worker.At?
    && ((w.worker.pc == Moving(r, phase, facts) && stale == Rereading(r))
        || (w.worker.pc.FailMove? && w.worker.pc.r == r && stale == Top(r)
            && phase == Failed && facts == Ending(w.worker.pc.code))
        || (w.worker.pc.RecMove? && w.worker.pc.r == r && stale == Top(r)
            && phase == RecoveryRequired && facts == Ending(w.worker.pc.code)))
  }

  /** What the worker does about the answer. */
  function Heard(w: World, stale: Pc, answer: Result<Receipt, JobError>): World
    requires w.worker.At?
  {
    match answer
    case Ok(next) => Go(w, Top(next))
    case Err(e) => if e.RevisionError? && stale.Rereading? then Go(w, stale) else Die(w)
  }

  lemma MovesNeverAnswer(jobs: Jobs, claims: map<JobId, int>, id: JobId, revision: int, phase: Phase, facts: Facts,
                         now: Time)
    ensures var plan := M.PlanOf(jobs, claims, M.Move(id, revision, phase, facts), now);
      && !plan.Answer? && (plan.Refuse? ==> !plan.error.CleanupRequiredError?)
      && (plan == M.Refuse(RevisionError) ==> id in jobs && jobs[id].revision != revision)
  {}

  /** What a written transition plan contains. */
  lemma MovePlanWrites(jobs: Jobs, claims: map<JobId, int>, id: JobId, revision: int, phase: Phase, facts: Facts,
                       now: Time)
      returns (next: Receipt)
    requires M.PlanOf(jobs, claims, M.Move(id, revision, phase, facts), now).Write?
    ensures id in jobs && jobs[id].revision == revision && next != jobs[id]
    ensures Transition(jobs[id], Lookup(claims, id), phase, facts, now) == Ok(next)
    ensures var plan := M.PlanOf(jobs, claims, M.Move(id, revision, phase, facts), now);
      plan.id == id && Writes(plan.jobs, id, next)
  {
    next := Transition(jobs[id], Lookup(claims, id), phase, facts, now).value;
    assert next.revision == jobs[id].revision + 1;
  }

  /** A transition is saved, one way or another. */
  lemma SavedMove(w: World, id: JobId, r: Receipt, phase: Phase, facts: Facts, stale: Pc, disk: M.Disk, m: M.Memory,
                  jobs: Jobs, next: Receipt, save: M.SaveIo, io: Io)
    requires w.worker.At? && Shows(w, id, disk, m) && w.disk.Some? && w.disk.value.revision == r.revision
    requires Transition(w.disk.value, w.claim, phase, facts, io.now) == Ok(next) && w.disk != Some(next)
    requires Writes(jobs, id, next) && M.Writable(m, jobs)
    requires io == SaveIo(io.now, FateOf(save.landed, M.SaveResult(disk, m, jobs, save).2.Ok?), id !in jobs)
    ensures var o := M.ConcludeResult(disk, m, M.Write(id, jobs), false, save);
      MoveTurn(w, r, phase, facts, stale, io) == Heard(ShownBy(w, id, o.disk, o.memory), stale, o.answer)
  {
    SaveIsWrite(w, id, disk, m, jobs, next, save, io.now);
    assert MoveTurn(w, r, phase, facts, stale, io) == Settle(w, Ok(next), io);
  }

  lemma WrittenMove(w: World, id: JobId, r: Receipt, phase: Phase, facts: Facts, stale: Pc, jobs: Jobs, m: M.Memory,
                    now: Time, save: M.SaveIo)
      returns (io: Io)
    requires w.worker.At? && Shows(w, id, M.Holding(jobs), m)
    requires M.PlanOf(jobs, m.claims, M.Move(id, r.revision, phase, facts), now).Write?
    ensures var plan := M.PlanOf(jobs, m.claims, M.Move(id, r.revision, phase, facts), now);
      var o := M.ConcludeResult(M.Holding(jobs), m, plan, false, save);
      JustFailed(w, id, M.Holding(jobs), o)
      || MoveTurn(w, r, phase, facts, stale, io) == Heard(ShownBy(w, id, o.disk, o.memory), stale, o.answer)
  {
    var disk := M.Holding(jobs);
    var plan := M.PlanOf(jobs, m.claims, M.Move(id, r.revision, phase, facts), now);
    var next := MovePlanWrites(jobs, m.claims, id, r.revision, phase, facts, now);
    io := SaveIo(now, FateOf(save.landed, M.SaveResult(disk, m, plan.jobs, save).2.Ok?), id !in plan.jobs);
    if M.Writable(m, plan.jobs) {
      SavedMove(w, id, r, phase, facts, stale, disk, m, plan.jobs, next, save, io);
    } else {
      UnwritableFails(w, id, disk, m, id, plan.jobs, false, save);
    }
  }

  /** A transition that plans no write: refused. */
  lemma RefusedMove(w: World, id: JobId, r: Receipt, phase: Phase, facts: Facts, stale: Pc, jobs: Jobs, m: M.Memory,
                    now: Time, save: M.SaveIo, io: Io)
    requires w.worker.At? && Shows(w, id, M.Holding(jobs), m)
    requires !M.PlanOf(jobs, m.claims, M.Move(id, r.revision, phase, facts), now).Write?
    ensures var plan := M.PlanOf(jobs, m.claims, M.Move(id, r.revision, phase, facts), now);
      var o := M.ConcludeResult(M.Holding(jobs), m, plan, false, save);
      JustFailed(w, id, M.Holding(jobs), o)
      || MoveTurn(w, r, phase, facts, stale, io) == Heard(ShownBy(w, id, o.disk, o.memory), stale, o.answer)
  {
    MovesNeverAnswer(jobs, m.claims, id, r.revision, phase, facts, now);
  }

  /** One transition call: it just fails, or it does what one turn of the protocol does. */
  lemma MoveOutcome(w: World, id: JobId, r: Receipt, phase: Phase, facts: Facts, stale: Pc, disk: M.Disk, m: M.Memory,
                    now: Time, read: M.ReadIo, save: M.SaveIo)
      returns (io: Io)
    requires w.worker.At? && Shows(w, id, disk, m) && Managed(disk, m)
    ensures var o := M.Perform(disk, m, M.Move(id, r.revision, phase, facts), now, read, save);
      JustFailed(w, id, disk, o)
      || MoveTurn(w, r, phase, facts, stale, io) == Heard(ShownBy(w, id, o.disk, o.memory), stale, o.answer)
  {
    var rq := M.Move(id, r.revision, phase, facts);
    var m1 := PerformSplits(w, id, disk, m, rq, now, read, save);
    io := SaveIo(now, Saved, false);
    if m1.claims == m.claims {
      if M.PlanOf(disk.jobs, m1.claims, rq, now).Write? {
        io := WrittenMove(w, id, r, phase, facts, stale, disk.jobs, m1, now, save);
      } else {
        RefusedMove(w, id, r, phase, facts, stale, disk.jobs, m1, now, save, io);
      }
    }
  }

  /** Whatever one transition call does -- unreadable store, refused move, lost, landed or
      verified save -- the protocol does to that job, at each of the worker's three kinds of move. */
  lemma MoveRefines(w: World, id: JobId, r: Receipt, phase: Phase, facts: Facts, stale: Pc, disk: M.Disk, m: M.Memory,
                    now: Time, read: M.ReadIo, save: M.SaveIo)
      returns (events: seq<Event>)
    requires AtMove(w, r, phase, facts, stale) && Shows(w, id, disk, m) && Managed(disk, m)
    ensures var o := M.Perform(disk, m, M.Move(id, r.revision, phase, facts), now, read, save);
      After(w, events) == Noted(Heard(ShownBy(w, id, o.disk, o.memory), stale, o.answer))
  {
    var o := M.Perform(disk, m, M.Move(id, r.revision, phase, facts), now, read, save);
    var io := MoveOutcome(w, id, r, phase, facts, stale, disk, m, now, read, save);
    if JustFailed(w, id, disk, o) {
      events := StopRefines(w, id, disk, o);
    } else {
      events := [WorkerTurn(io)];
      TurnIsMove(w, r, phase, facts, stale, io);
    }
  }

  lemma TurnIsMove(w: World, r: Receipt, phase: Phase, facts: Facts, stale: Pc, io: Io)
    requires AtMove(w, r, phase, facts, stale)
    ensures After(w, [WorkerTurn(io)]) == Noted(MoveTurn(w, r, phase, facts, stale, io))
  {
    OneEvent(w, WorkerTurn(io));
  }

  // ----- the claim -----

  /** The claim await `c` asks for, with the confirmed revision. */
  predicate Asks(c: ClaimPc) { c.Try? || c.Confirm? }

  /** The claim call just failed, or did what one step of the claim procedure does with `io`. */
  ghost predicate ClaimMatches(w: World, id: JobId, r: Receipt, confirmed: Option<int>, disk: M.Disk, o: M.Outcome,
                               io: Io) {
    JustFailed(w, id, disk, o)
    || (w.disk.Some? && ClaimAttempt(w, r, confirmed, io) == ClaimHeard(ShownBy(w, id, o.disk, o.memory), o.answer)
        && (o.answer == Err(RevisionError) ==> ShownBy(w, id, o.disk, o.memory) == w))
  }

  function Confirmed(c: ClaimPc): Option<int>
    requires Asks(c)
  {
    if c.Confirm? then Some(c.r.revision) else None
  }

  /** What the claim procedure makes of the answer. */
  function ClaimHeard(w: World, answer: Result<Receipt, JobError>): ClaimStep {
    match answer
    case Ok(won) => ClaimWon(w, won)
    case Err(e) =>
      if e.CleanupRequiredError? then ClaimMoves(w, Reget)
      else if e.RevisionError? then ClaimStale
      else ClaimRaised(w)
  }

  lemma ClaimPlanWrites(jobs: Jobs, claims: map<JobId, int>, id: JobId, revision: int, confirmed: Option<int>,
                        now: Time)
      returns (next: Receipt)
    requires M.PlanOf(jobs, claims, M.Claim(id, revision, confirmed), now).Write?
    ensures id in jobs && jobs[id].revision == revision && next != jobs[id]
    ensures ClaimReceipt(jobs[id], Lookup(claims, id), confirmed, now) == Ok(next)
    ensures var plan := M.PlanOf(jobs, claims, M.Claim(id, revision, confirmed), now);
      plan.id == id && Writes(plan.jobs, id, next)
  {
    next := ClaimReceipt(jobs[id], Lookup(claims, id), confirmed, now).value;
  }

  /** A planned claim is saved, one way or another. */
  lemma WrittenClaim(w: World, id: JobId, r: Receipt, confirmed: Option<int>, jobs: Jobs, m: M.Memory, now: Time,
                     save: M.SaveIo)
      returns (io: Io)
    requires Shows(w, id, M.Holding(jobs), m)
    requires M.PlanOf(jobs, m.claims, M.Claim(id, r.revision, confirmed), now).Write?
    ensures var plan := M.PlanOf(jobs, m.claims, M.Claim(id, r.revision, confirmed), now);
      ClaimMatches(w, id, r, confirmed, M.Holding(jobs), M.ConcludeResult(M.Holding(jobs), m, plan, true, save), io)
  {
    var disk := M.Holding(jobs);
    var plan := M.PlanOf(jobs, m.claims, M.Claim(id, r.revision, confirmed), now);
    var next := ClaimPlanWrites(jobs, m.claims, id, r.revision, confirmed, now);
    io := SaveIo(now, FateOf(save.landed, M.SaveResult(disk, m, plan.jobs, save).2.Ok?), id !in plan.jobs);
    if M.Writable(m, plan.jobs) {
      ClaimSaveIsWrite(w, id, disk, m, plan.jobs, next, save, now);
      assert ClaimAttempt(w, r, confirmed, io) == ClaimSettles(w, Ok(next), io);
    } else {
      UnwritableFails(w, id, disk, m, id, plan.jobs, true, save);
    }
  }

  /** A claim's save, with the generation it then holds. */
  lemma ClaimSaveIsWrite(w: World, id: JobId, disk: M.Disk, m: M.Memory, jobs: Jobs, next: Receipt, save: M.SaveIo,
                         now: Time)
    requires Shows(w, id, disk, m) && w.disk.Some? && w.disk != Some(next)
    requires Writes(jobs, id, next) && M.Writable(m, jobs)
    ensures var o := M.ConcludeResult(disk, m, M.Write(id, jobs), true, save);
      var io := SaveIo(now, FateOf(save.landed, M.SaveResult(disk, m, jobs, save).2.Ok?), id !in jobs);
      ClaimSettles(w, Ok(next), io) == ClaimHeard(ShownBy(w, id, o.disk, o.memory), o.answer)
      && o.answer != Err(RevisionError)
  {
    SaveIsWrite(w, id, disk, m, jobs, next, save, now);
  }

  /** A claim that plans no write: refused, or already held. */
  lemma UnwrittenClaim(w: World, id: JobId, r: Receipt, confirmed: Option<int>, jobs: Jobs, m: M.Memory, now: Time,
                       save: M.SaveIo, io: Io)
    requires Shows(w, id, M.Holding(jobs), m) && io.now == now && (confirmed.Some? ==> confirmed.value == r.revision)
    requires !M.PlanOf(jobs, m.claims, M.Claim(id, r.revision, confirmed), now).Write?
    ensures var plan := M.PlanOf(jobs, m.claims, M.Claim(id, r.revision, confirmed), now);
      ClaimMatches(w, id, r, confirmed, M.Holding(jobs), M.ConcludeResult(M.Holding(jobs), m, plan, true, save), io)
  {}

  /** One claim call: it just fails, or it does what one step of the claim procedure does. */
  lemma ClaimOutcome(w: World, id: JobId, r: Receipt, confirmed: Option<int>, disk: M.Disk, m: M.Memory, now: Time,
                     read: M.ReadIo, save: M.SaveIo)
      returns (io: Io)
    requires Shows(w, id, disk, m) && Managed(disk, m) && (confirmed.Some? ==> confirmed.value == r.revision)
    ensures ClaimMatches(w, id, r, confirmed, disk,
                         M.Perform(disk, m, M.Claim(id, r.revision, confirmed), now, read, save), io)
  {
    var rq := M.Claim(id, r.revision, confirmed);
    var m1 := PerformSplits(w, id, disk, m, rq, now, read, save);
    io := SaveIo(now, Saved, false);
    if m1.claims == m.claims {
      if M.PlanOf(disk.jobs, m1.claims, rq, now).Write? {
        io := WrittenClaim(w, id, r, confirmed, disk.jobs, m1, now, save);
      } else {
        UnwrittenClaim(w, id, r, confirmed, disk.jobs, m1, now, save, io);
      }
    }
  }

  /** A claim of the worker, first try or confirmed. */
  lemma ClaimRefines(w: World, id: JobId, c: ClaimPc, again: bool, disk: M.Disk, m: M.Memory, now: Time,
                     read: M.ReadIo, save: M.SaveIo)
      returns (events: seq<Event>)
    requires Asks(c) && w.worker.At? && w.worker.pc == Claiming(c, again) && Shows(w, id, disk, m) && Managed(disk, m)
    ensures var o := M.Perform(disk, m, M.Claim(id, c.r.revision, Confirmed(c)), now, read, save);
      var w1 := ShownBy(w, id, o.disk, o.memory);
      After(w, events) == Noted(AfterClaim(w1, ClaimHeard(w1, o.answer), again))
  {
    var o := M.Perform(disk, m, M.Claim(id, c.r.revision, Confirmed(c)), now, read, save);
    var io := ClaimOutcome(w, id, c.r, Confirmed(c), disk, m, now, read, save);
    events := HeardByWorker(w, id, c, again, disk, o, io);
  }

  lemma HeardByWorker(w: World, id: JobId, c: ClaimPc, again: bool, disk: M.Disk, o: M.Outcome, io: Io)
      returns (events: seq<Event>)
    requires Asks(c) && w.worker.At? && w.worker.pc == Claiming(c, again) && w.disk == Lookup(disk.Contents(), id)
    requires ClaimMatches(w, id, c.r, Confirmed(c), disk, o, io)
    ensures var w1 := ShownBy(w, id, o.disk, o.memory);
      After(w, events) == Noted(AfterClaim(w1, ClaimHeard(w1, o.answer), again))
  {
    if JustFailed(w, id, disk, o) {
      events := StopRefines(w, id, disk, o);
    } else {
      events := [WorkerTurn(io)];
      OneEvent(w, WorkerTurn(io));
      assert ClaimTurn(w, c, io) == ClaimAttempt(w, c.r, Confirmed(c), io);
    }
  }

  /** What the resume scan does about the answer to its claim. */
  function ScanHeard(w: World, again: bool, answer: Result<Receipt, JobError>): World {
    match ClaimHeard(w, answer)
    case ClaimMoves(w1, c1) => w1.(resumer := Scanning(c1, again))
    case ClaimStale => w.(resumer := if again then Resting else ScanGet)
    case _ => w.(resumer := Resting)
  }

  /** A claim of the resume scan. */
  lemma ScanRefines(w: World, id: JobId, c: ClaimPc, again: bool, disk: M.Disk, m: M.Memory, now: Time,
                    read: M.ReadIo, save: M.SaveIo)
      returns (events: seq<Event>)
    requires Asks(c) && w.resumer == Scanning(c, again) && Shows(w, id, disk, m) && Managed(disk, m)
    ensures var o := M.Perform(disk, m, M.Claim(id, c.r.revision, Confirmed(c)), now, read, save);
      After(w, events) == Noted(ScanHeard(ShownBy(w, id, o.disk, o.memory), again, o.answer))
  {
    var o := M.Perform(disk, m, M.Claim(id, c.r.revision, Confirmed(c)), now, read, save);
    var io := ClaimOutcome(w, id, c.r, Confirmed(c), disk, m, now, read, save);
    events := HeardByScan(w, id, c, again, disk, o, io);
  }

  lemma HeardByScan(w: World, id: JobId, c: ClaimPc, again: bool, disk: M.Disk, o: M.Outcome, io: Io)
      returns (events: seq<Event>)
    requires Asks(c) && w.resumer == Scanning(c, again) && w.disk == Lookup(disk.Contents(), id)
    requires ClaimMatches(w, id, c.r, Confirmed(c), disk, o, io)
    ensures After(w, events) == Noted(ScanHeard(ShownBy(w, id, o.disk, o.memory), again, o.answer))
  {
    if !JustFailed(w, id, disk, o) {
      events := [ResumeTurn(io)];
      OneEvent(w, ResumeTurn(io));
      assert ClaimTurn(w, c, io) == ClaimAttempt(w, c.r, Confirmed(c), io);
    } else if ShownBy(w, id, o.disk, o.memory) == w {
      events := [ScanStopped];
      OneEvent(w, ScanStopped);
    } else {
      events := [ClaimsDropped, ScanStopped];
      TwoEvents(w, ClaimsDropped, ScanStopped);
    }
  }

  // ----- requests from outside -----

  /** A request that is not the worker's leaves it alone. */
  ghost predicate Unheard(w: World, id: JobId, disk: M.Disk, o: M.Outcome) {
    ShownBy(w, id, o.disk, o.memory) == w || (o.disk == disk && o.memory == M.FORGOTTEN)
  }

  lemma UnheardRefines(w: World, id: JobId, disk: M.Disk, o: M.Outcome) returns (events: seq<Event>)
    requires w.disk == Lookup(disk.Contents(), id) && Unheard(w, id, disk, o)
    ensures Noted(After(w, events)) == Noted(ShownBy(w, id, o.disk, o.memory))
  {
    if ShownBy(w, id, o.disk, o.memory) == w {
      events := [];
    } else {
      events := [ClaimsDropped];
      OneEvent(w, ClaimsDropped);
    }
  }

  /** The request was unheard of, or wrote what `next` says with `io`. */
  ghost predicate OutsideMatches(w: World, id: JobId, disk: M.Disk, o: M.Outcome, next: Result<Receipt, JobError>,
                                 io: Io) {
    Unheard(w, id, disk, o) || OutsiderWrites(w, next, io) == ShownBy(w, id, o.disk, o.memory)
  }

  /** A write from outside is saved, one way or another. */
  lemma OutsideSaves(w: World, id: JobId, disk: M.Disk, m: M.Memory, jobs: Jobs, next: Receipt, now: Time,
                     save: M.SaveIo)
      returns (io: Io)
    requires Shows(w, id, disk, m) && w.disk.Some? && w.disk != Some(next) && Writes(jobs, id, next)
    requires id !in jobs ==> ReceiptOk(next)
    ensures io.now == now
    ensures OutsideMatches(w, id, disk, M.ConcludeResult(disk, m, M.Write(id, jobs), false, save), Ok(next), io)
  {
    io := SaveIo(now, FateOf(save.landed, M.SaveResult(disk, m, jobs, save).2.Ok?), id !in jobs);
    if M.Writable(m, jobs) {
      SaveIsWrite(w, id, disk, m, jobs, next, save, now);
      assert ReceiptOk(next) by {
        if id in jobs { assert ReceiptOk(jobs[id]); }
      }
    } else {
      UnwritableFails(w, id, disk, m, id, jobs, false, save);
    }
  }

  lemma CancelOutcome(w: World, id: JobId, revision: int, disk: M.Disk, m: M.Memory, now: Time, read: M.ReadIo,
                      save: M.SaveIo)
      returns (io: Io)
    requires Shows(w, id, disk, m) && Managed(disk, m) && w.disk.Some? && w.disk.value.revision == revision
    ensures OutsideMatches(w, id, disk, M.Perform(disk, m, M.Cancel(id, revision), now, read, save),
                           RequestCancel(w.disk.value, io.now), io)
  {
    var m1 := PerformSplits(w, id, disk, m, M.Cancel(id, revision), now, read, save);
    io := SaveIo(now, Saved, false);
    if m1.claims == m.claims {
      var plan := M.PlanOf(disk.jobs, m1.claims, M.Cancel(id, revision), now);
      if plan.Write? {
        io := OutsideSaves(w, id, disk, m1, plan.jobs, RequestCancel(w.disk.value, now).value, now, save);
      }
    }
  }

  /** At another revision, or for a job that is gone, a cancel request changes nothing. */
  lemma CancelElsewhere(w: World, id: JobId, revision: int, disk: M.Disk, m: M.Memory, now: Time, read: M.ReadIo,
                        save: M.SaveIo)
    requires Shows(w, id, disk, m) && Managed(disk, m) && !(w.disk.Some? && w.disk.value.revision == revision)
    ensures Unheard(w, id, disk, M.Perform(disk, m, M.Cancel(id, revision), now, read, save))
  {
    var _ := PerformSplits(w, id, disk, m, M.Cancel(id, revision), now, read, save);
  }

  /** A cancel request through the manager is a cancel event of the protocol. */
  lemma CancelRefines(w: World, id: JobId, revision: int, disk: M.Disk, m: M.Memory, now: Time,
                      read: M.ReadIo, save: M.SaveIo)
      returns (events: seq<Event>)
    requires Shows(w, id, disk, m) && Managed(disk, m)
    ensures var o := M.Perform(disk, m, M.Cancel(id, revision), now, read, save);
      Noted(After(w, events)) == Noted(ShownBy(w, id, o.disk, o.memory))
  {
    var o := M.Perform(disk, m, M.Cancel(id, revision), now, read, save);
    if w.disk.Some? && w.disk.value.revision == revision {
      var io := CancelOutcome(w, id, revision, disk, m, now, read, save);
      events := CancelEvents(w, id, revision, disk, o, io);
    } else {
      CancelElsewhere(w, id, revision, disk, m, now, read, save);
      events := UnheardRefines(w, id, disk, o);
    }
  }

  lemma CancelEvents(w: World, id: JobId, revision: int, disk: M.Disk, o: M.Outcome, io: Io)
      returns (events: seq<Event>)
    requires w.disk == Lookup(disk.Contents(), id) && w.disk.Some? && w.disk.value.revision == revision
    requires OutsideMatches(w, id, disk, o, RequestCancel(w.disk.value, io.now), io)
    ensures Noted(After(w, events)) == Noted(ShownBy(w, id, o.disk, o.memory))
  {
    if Unheard(w, id, disk, o) {
      events := UnheardRefines(w, id, disk, o);
    } else {
      events := [CancelAsked(revision, io)];
      OneEvent(w, CancelAsked(revision, io));
    }
  }

  lemma FinalizeOutcome(w: World, id: JobId, revision: int, phase: Phase, facts: Facts, disk: M.Disk, m: M.Memory,
                        now: Time, read: M.ReadIo, save: M.SaveIo)
      returns (io: Io)
    requires Shows(w, id, disk, m) && Managed(disk, m) && w.disk.Some?
    ensures OutsideMatches(w, id, disk, M.Perform(disk, m, M.Move(id, revision, phase, facts), now, read, save),
                           Transition(w.disk.value, w.claim, phase, facts, io.now), io)
  {
    var rq := M.Move(id, revision, phase, facts);
    var m1 := PerformSplits(w, id, disk, m, rq, now, read, save);
    io := SaveIo(now, Saved, false);
    if m1.claims == m.claims {
      var plan := M.PlanOf(disk.jobs, m1.claims, rq, now);
      MovesNeverAnswer(disk.jobs, m1.claims, id, revision, phase, facts, now);
      if plan.Write? {
        var next := MovePlanWrites(disk.jobs, m1.claims, id, revision, phase, facts, now);
        io := OutsideSaves(w, id, disk, m1, plan.jobs, next, now, save);
      }
    }
  }

  /** A flow's transition of a healthy receipt through the manager is a finalization event. */
  lemma FinalizeRefines(w: World, id: JobId, revision: int, phase: Phase, facts: Facts, disk: M.Disk, m: M.Memory,
                        now: Time, read: M.ReadIo, save: M.SaveIo)
      returns (events: seq<Event>)
    requires Shows(w, id, disk, m) && Managed(disk, m) && w.disk.Some? && w.disk.value.phase == HealthyUnclaimed
    ensures var o := M.Perform(disk, m, M.Move(id, revision, phase, facts), now, read, save);
      Noted(After(w, events)) == Noted(ShownBy(w, id, o.disk, o.memory))
  {
    var o := M.Perform(disk, m, M.Move(id, revision, phase, facts), now, read, save);
    var io := FinalizeOutcome(w, id, revision, phase, facts, disk, m, now, read, save);
    events := FinalizeEvents(w, id, phase, facts, disk, o, io);
  }

  lemma FinalizeEvents(w: World, id: JobId, phase: Phase, facts: Facts, disk: M.Disk, o: M.Outcome, io: Io)
      returns (events: seq<Event>)
    requires w.disk == Lookup(disk.Contents(), id) && w.disk.Some? && w.disk.value.phase == HealthyUnclaimed
    requires OutsideMatches(w, id, disk, o, Transition(w.disk.value, w.claim, phase, facts, io.now), io)
    ensures Noted(After(w, events)) == Noted(ShownBy(w, id, o.disk, o.memory))
  {
    if Unheard(w, id, disk, o) {
      events := UnheardRefines(w, id, disk, o);
    } else {
      events := FinalizeEvent(w, phase, facts, io, ShownBy(w, id, o.disk, o.memory));
    }
  }

  lemma FinalizeEvent(w: World, phase: Phase, facts: Facts, io: Io, t: World) returns (events: seq<Event>)
    requires w.disk.Some? && w.disk.value.phase == HealthyUnclaimed
    requires OutsiderWrites(w, Transition(w.disk.value, w.claim, phase, facts, io.now), io) == t
    ensures Noted(After(w, events)) == Noted(t)
  {
    var e := FlowFinalizes(phase, facts, io);
    events := [e];
    OneEvent(w, e);
    assert Effect(w, e) == t;
  }

  // ----- the barriers -----

  /** What the worker does about the barrier's answer. */
  function BarrierHeard(w: World, act: Act, answer: Result<Receipt, JobError>): World
    requires w.worker.At?
  {
    match answer
    case Ok(stood) => Go(w, Acting(stood, act))
    case Err(_) => Die(w)
  }

  /** What a coherent manager remembers before it rereads the store is what the store holds. */
  lemma RememberedIsStored(disk: M.Disk, m: M.Memory, read: M.ReadIo)
    requires disk.Holding? && R.DiskOk(disk) && R.Coherent(disk, m)
    ensures var (m1, loaded) := if m.cache.Some? then (m, Ok(m.cache.value)) else M.LoadResult(disk, m, read);
      if loaded.Ok? then loaded.value == disk.jobs && m1.claims == m.claims && R.Coherent(disk, m1)
      else m1 == M.FORGOTTEN
  {
    LoadFacts(disk, m, read);
  }

  /** A barrier passes at the standing receipt of its revision, fails at none with the claims
      untouched, or fails having forgotten everything. */
  ghost predicate BarrierEnds(jobs: Jobs, claims: map<JobId, int>, id: JobId, revision: int, phase: Phase,
                              cancelled: bool, memory: M.Memory, answer: Result<Receipt, JobError>) {
    match answer
    case Ok(stood) =>
      M.Current(jobs, id, revision) == Ok(stood) && M.Stands(stood, stood, claims, phase, cancelled)
      && stood.jobId == id && memory.claims == claims
    case Err(_) => memory == M.FORGOTTEN || (M.Current(jobs, id, revision).Err? && memory.claims == claims)
  }

  lemma DurableEnds(disk: M.Disk, m: M.Memory, id: JobId, revision: int, phase: Phase, cancelled: bool,
                    reread: M.ReadIo)
    requires disk.Holding? && Keyed(disk.jobs) && M.LiveClaims(m.claims, disk.jobs) == m.claims
    requires M.Current(disk.jobs, id, revision).Ok?
    ensures var remembered := M.Current(disk.jobs, id, revision).value;
      var o := M.VerifyDurable(disk, m, id, revision, remembered, phase, cancelled, reread);
      o.disk == disk && BarrierEnds(disk.jobs, m.claims, id, revision, phase, cancelled, o.memory, o.answer)
  {}

  lemma VerifyEnds(disk: M.Disk, m: M.Memory, id: JobId, revision: int, phase: Phase, cancelled: bool,
                   read: M.ReadIo, reread: M.ReadIo)
    requires disk.Holding? && R.DiskOk(disk) && R.Coherent(disk, m) && M.MutationBarrier(phase)
    ensures var o := M.Verify(disk, m, id, revision, phase, cancelled, read, reread);
      o.disk == disk && BarrierEnds(disk.jobs, m.claims, id, revision, phase, cancelled, o.memory, o.answer)
  {
    RememberedIsStored(disk, m, read);
    var (m1, loaded) := if m.cache.Some? then (m, Ok(m.cache.value)) else M.LoadResult(disk, m, read);
    if loaded.Ok? && M.Current(disk.jobs, id, revision).Ok? {
      DurableEnds(disk, m1, id, revision, phase, cancelled, reread);
    }
  }

  /** A barrier check through the real manager, however its two readings go, lets the worker
      act or stops it exactly as the protocol's barrier does. */
  lemma BarrierRefines(w: World, id: JobId, r: Receipt, act: Act, disk: M.Disk, m: M.Memory, read: M.ReadIo,
                       reread: M.ReadIo)
      returns (events: seq<Event>)
    requires w.worker.At? && w.worker.pc == Barrier(r, act) && RestartAmbiguous(r.phase)
    requires Shows(w, id, disk, m) && Managed(disk, m)
    ensures var o := M.Verify(disk, m, id, r.revision, r.phase, BarrierCancelled(act), read, reread);
      After(w, events) == Noted(BarrierHeard(ShownBy(w, id, o.disk, o.memory), act, o.answer))
  {
    var o := M.Verify(disk, m, id, r.revision, r.phase, BarrierCancelled(act), read, reread);
    VerifyEnds(disk, m, id, r.revision, r.phase, BarrierCancelled(act), read, reread);
    events := EndedBarrierRefines(w, id, r, act, disk.jobs, m.claims, o);
  }

  lemma EndedBarrierRefines(w: World, id: JobId, r: Receipt, act: Act, jobs: Jobs, claims: map<JobId, int>,
                            o: M.Outcome)
      returns (events: seq<Event>)
    requires w.worker.At? && w.worker.pc == Barrier(r, act) && o.disk == M.Holding(jobs)
    requires w.disk == Lookup(jobs, id) && w.claim == Lookup(claims, id)
    requires BarrierEnds(jobs, claims, id, r.revision, r.phase, BarrierCancelled(act), o.memory, o.answer)
    ensures After(w, events) == Noted(BarrierHeard(ShownBy(w, id, o.disk, o.memory), act, o.answer))
  {
    if o.answer.Err? && o.memory == M.FORGOTTEN {
      events := [ClaimsDropped, WorkerStopped];
      TwoEvents(w, ClaimsDropped, WorkerStopped);
    } else {
      var io := SaveIo(0, Saved, false);
      events := [WorkerTurn(io)];
      OneEvent(w, WorkerTurn(io));
      assert Turn(w, io) == BarrierTurn(w, r, act);
    }
  }
}
