/** The executor over the real receipt authority: the worker's and the scan's calls go through a
    manager and the whole store, where reads fail and saves are lost or land unseen, while other
    requests, restarts and panel events come between. Every such run is a run of the protocol, so
    what the protocol promises holds of it. */
module InstallJoint {
  import opened Wrappers
  import opened Receipts
  import opened Retention
  import opened JobDocument
  import M = JobManager
  import R = JobRuns
  import opened InstallProtocol
  import opened InstallSafety
  import opened InstallResults
  import opened InstallRefinement

  /** The job's world, and the store and manager it is seen through. */
  datatype Joint = Joint(w: World, disk: M.Disk, m: M.Memory)

  datatype Deed =
    | WorkerCalls(now: Time, read: M.ReadIo, save: M.SaveIo, reread: M.ReadIo)
    | ScanCalls(now: Time, read: M.ReadIo, save: M.SaveIo)
    | CancelCalled(revision: int, now: Time, read: M.ReadIo, save: M.SaveIo)
    | FinalizeCalled(revision: int, phase: Phase, facts: Facts, now: Time, read: M.ReadIo, save: M.SaveIo)
    | OtherCalls(rq: M.Request, now: Time, read: M.ReadIo, save: M.SaveIo)
    | OtherLooks(read: M.ReadIo)
    | Restarts
    | Alone(e: Event)

  // ----- one deed -----

  /** The worker waits for the manager to write, or at a barrier. */
  predicate AtCall(pc: Pc) { AtMoveCall(pc) || pc.Barrier? || (pc.Claiming? && Asks(pc.c)) }

  /** Events in which the store and the claim have no part. */
  predicate Quiet(w: World, e: Event) {
    match e
    case WorkerTurn(_) => w.worker.At? && !AtCall(w.worker.pc)
    case ResumeTurn(_) => w.resumer.ScanGet? || (w.resumer.Scanning? && !Asks(w.resumer.c))
    case EnsureJob => true
    case ResumeScan => true
    case WorkerStopped => true
    case ScanStopped => true
    case OtherJobStages => true
    case OtherJobErases => true
    case _ => false
  }

  predicate About(rq: M.Request, id: JobId) {
    if rq.Create? then rq.newId == id else rq.id == id
  }

  predicate AtMoveCall(pc: Pc) { pc.Moving? || pc.FailMove? || pc.RecMove? }

  function MovePhase(pc: Pc): Phase
    requires AtMoveCall(pc)
  {
    if pc.Moving? then pc.phase else if pc.FailMove? then Failed else RecoveryRequired
  }

  function MoveFacts(pc: Pc): Facts
    requires AtMoveCall(pc)
  {
    if pc.Moving? then pc.facts else Ending(pc.code)
  }

  /** What the worker does if it lost the race. */
  function StaleOf(pc: Pc): Pc
    requires AtMoveCall(pc)
  {
    if pc.Moving? then Rereading(pc.r) else Top(pc.r)
  }

  /** What the manager is asked at each kind of call. */
  function MoveRequest(id: JobId, pc: Pc): M.Request
    requires AtMoveCall(pc)
  {
    M.Move(id, pc.r.revision, MovePhase(pc), MoveFacts(pc))
  }

  function ClaimRequest(id: JobId, c: ClaimPc): M.Request
    requires Asks(c)
  {
    M.Claim(id, c.r.revision, Confirmed(c))
  }

  /** The joint state as the manager's outcome leaves it, before anyone acts on the answer. */
  ghost function Told(j: Joint, id: JobId, o: M.Outcome): Joint {
    Joint(ShownBy(j.w, id, o.disk, o.memory), o.disk, o.memory)
  }

  ghost function AfterMove(j: Joint, id: JobId, o: M.Outcome): Joint
    requires j.w.worker.At? && AtMoveCall(j.w.worker.pc)
  {
    var t := Told(j, id, o);
    t.(w := Noted(Heard(t.w, StaleOf(j.w.worker.pc), o.answer)))
  }

  ghost function AfterClaimCall(j: Joint, id: JobId, o: M.Outcome): Joint
    requires j.w.worker.At? && j.w.worker.pc.Claiming?
  {
    var t := Told(j, id, o);
    t.(w := Noted(AfterClaim(t.w, ClaimHeard(t.w, o.answer), j.w.worker.pc.again)))
  }

  ghost function BarrierOutcome(j: Joint, id: JobId, read: M.ReadIo, reread: M.ReadIo): M.Outcome
    requires j.w.worker.At? && j.w.worker.pc.Barrier?
  {
    var pc := j.w.worker.pc;
    M.Verify(j.disk, j.m, id, pc.r.revision, pc.r.phase, BarrierCancelled(pc.act), read, reread)
  }

  ghost function AfterBarrier(j: Joint, id: JobId, o: M.Outcome): Joint
    requires j.w.worker.At? && j.w.worker.pc.Barrier?
  {
    var t := Told(j, id, o);
    t.(w := Noted(BarrierHeard(t.w, j.w.worker.pc.act, o.answer)))
  }

  ghost function AfterScan(j: Joint, id: JobId, o: M.Outcome): Joint
    requires j.w.resumer.Scanning?
  {
    var t := Told(j, id, o);
    t.(w := Noted(ScanHeard(t.w, j.w.resumer.again, o.answer)))
  }

  /** Nobody of this job waits for the answer. */
  ghost function AfterOutside(j: Joint, id: JobId, o: M.Outcome): Joint {
    var t := Told(j, id, o);
    t.(w := Noted(t.w))
  }

  ghost function WorkerCall(j: Joint, id: JobId, now: Time, read: M.ReadIo, save: M.SaveIo, reread: M.ReadIo): Joint {
    if !j.w.worker.At? then j
    else
      var pc := j.w.worker.pc;
      if AtMoveCall(pc) then AfterMove(j, id, M.Perform(j.disk, j.m, MoveRequest(id, pc), now, read, save))
      else if pc.Claiming? && Asks(pc.c) then
        AfterClaimCall(j, id, M.Perform(j.disk, j.m, ClaimRequest(id, pc.c), now, read, save))
      else if pc.Barrier? then
        AfterBarrier(j, id, BarrierOutcome(j, id, read, reread))
      else j
  }

  ghost function JointStep(j: Joint, id: JobId, deed: Deed): Joint {
    match deed
    case WorkerCalls(now, read, save, reread) => WorkerCall(j, id, now, read, save, reread)
    case ScanCalls(now, read, save) =>
      if j.w.resumer.Scanning? && Asks(j.w.resumer.c)
      then AfterScan(j, id, M.Perform(j.disk, j.m, ClaimRequest(id, j.w.resumer.c), now, read, save)) else j
    case CancelCalled(revision, now, read, save) =>
      AfterOutside(j, id, M.Perform(j.disk, j.m, M.Cancel(id, revision), now, read, save))
    case FinalizeCalled(revision, phase, facts, now, read, save) =>
      if j.w.disk.Some? && j.w.disk.value.phase == HealthyUnclaimed
      then AfterOutside(j, id, M.Perform(j.disk, j.m, M.Move(id, revision, phase, facts), now, read, save)) else j
    case OtherCalls(rq, now, read, save) =>
      if About(rq, id) then j else AfterOutside(j, id, M.Perform(j.disk, j.m, rq, now, read, save))
    case OtherLooks(read) =>
      AfterOutside(j, id, M.Outcome(j.disk, M.LoadResult(j.disk, j.m, read).0, Err(StoreError)))
    case Restarts => Joint(Step(j.w, ProcessLost), j.disk, M.FORGOTTEN)
    case Alone(e) => if Quiet(j.w, e) then j.(w := Step(j.w, e)) else j
  }

  /** The joint state after the deeds in order. */
  ghost function JointAfter(j: Joint, id: JobId, deeds: seq<Deed>): Joint
    decreases |deeds|
  {
    if |deeds| == 0 then j else JointStep(JointAfter(j, id, deeds[..|deeds| - 1]), id, deeds[|deeds| - 1])
  }

  // ----- what stays true -----

  /** Barriers are only asked for in the phases that have one. */
  predicate BarrierFits(w: World) {
    w.worker.At? && w.worker.pc.Barrier? ==> RestartAmbiguous(w.worker.pc.r.phase)
  }

  ghost predicate JointOk(j: Joint, id: JobId) {
    Shows(j.w, id, j.disk, j.m) && Managed(j.disk, j.m) && j.w == Noted(j.w)
  }

  /** A request keeps the store sound and the manager in step with it. */
  lemma RequestKeeps(disk: M.Disk, m: M.Memory, rq: M.Request, now: Time, read: M.ReadIo, save: M.SaveIo)
    requires Managed(disk, m)
    ensures var o := M.Perform(disk, m, rq, now, read, save); Managed(o.disk, o.memory)
  {
    R.PerformEffect(disk, m, rq, now, read, save);
    R.PerformCoherent(disk, m, rq, now, read, save);
  }

  /** What another job's request can do to this one: drop its claim, or prune its finished receipt. */
  lemma OtherRequest(w: World, id: JobId, disk: M.Disk, m: M.Memory, rq: M.Request, now: Time, read: M.ReadIo,
                     save: M.SaveIo)
    requires Shows(w, id, disk, m) && Managed(disk, m) && !About(rq, id)
    ensures var o := M.Perform(disk, m, rq, now, read, save);
      var t := ShownBy(w, id, o.disk, o.memory);
      (t.disk == w.disk && (t.claim == w.claim || t.claim.None?))
      || (w.disk.Some? && w.disk.value.IsTerminal() && t.disk.None? && t.claim.None?)
  {
    R.PerformEffect(disk, m, rq, now, read, save);
    R.PerformCoherent(disk, m, rq, now, read, save);
  }

  lemma OtherRefines(w: World, t: World) returns (events: seq<Event>)
    requires t == w.(disk := t.disk, claim := t.claim) && w == Noted(w)
    requires (t.disk == w.disk && (t.claim == w.claim || t.claim.None?))
      || (w.disk.Some? && w.disk.value.IsTerminal() && t.disk.None? && t.claim.None?)
    ensures After(w, events) == Noted(t)
  {
    if t == w {
      events := [];
    } else if t.disk == w.disk {
      events := [ClaimsDropped];
      OneEvent(w, ClaimsDropped);
    } else {
      events := [PrunedAway];
      OneEvent(w, PrunedAway);
    }
  }

  lemma {:induction false} AfterIsNoted(w: World, events: seq<Event>)
    requires w == Noted(w)
    ensures After(w, events) == Noted(After(w, events))
    decreases |events|
  {
    if events != [] {
      AfterIsNoted(w, events[..|events| - 1]);
    }
  }

  // ----- a quiet event leaves the receipt and the claim alone -----

  predicate SameStore(w: World, t: World) { t.disk == w.disk && t.claim == w.claim }

  lemma LoopIsQuiet(w: World, io: Io)
    requires w.worker.At? && LoopPc(w.worker.pc) && !AtCall(w.worker.pc)
    ensures SameStore(w, LoopTurn(w, io))
  {}

  lemma PanelIsQuiet(w: World, io: Io)
    requires w.worker.At? && ActPc(w.worker.pc) && !AtCall(w.worker.pc)
    ensures SameStore(w, PanelTurn(w, io))
  {}

  lemma EndIsQuiet(w: World, io: Io)
    requires w.worker.At? && EndPc(w.worker.pc) && !AtCall(w.worker.pc)
    ensures SameStore(w, EndTurn(w, io))
  {}

  lemma FilesAreQuiet(w: World, io: Io)
    requires w.worker.At?
    ensures FetchPc(w.worker.pc) ==> SameStore(w, ArtifactTurn(w, io))
    ensures CleanPc(w.worker.pc) ==> SameStore(w, CleanupTurn(w, io))
  {}

  lemma TurnIsQuiet(w: World, io: Io)
    requires w.worker.At? && !AtCall(w.worker.pc)
    ensures SameStore(w, Turn(w, io))
  {
    if LoopPc(w.worker.pc) { LoopIsQuiet(w, io); }
    else if ActPc(w.worker.pc) { PanelIsQuiet(w, io); }
    else if EndPc(w.worker.pc) { EndIsQuiet(w, io); }
    else { FilesAreQuiet(w, io); }
  }

  lemma ScanIsQuiet(w: World, io: Io)
    requires w.resumer.ScanGet? || (w.resumer.Scanning? && !Asks(w.resumer.c))
    ensures SameStore(w, ScanTurn(w, io))
  {}

  lemma QuietLeaves(w: World, e: Event)
    requires Quiet(w, e)
    ensures SameStore(w, Step(w, e))
  {
    match e
    case WorkerTurn(io) => TurnIsQuiet(w, io);
    case ResumeTurn(io) => ScanIsQuiet(w, io);
    case _ =>
  }

  // ----- one deed is a few events -----

  /** Whoever hears the answer leaves the receipt and the claim as told. */
  lemma HearingKeeps(w: World, again: bool, stale: Pc, act: Act, answer: Result<Receipt, JobError>)
    ensures w.worker.At? ==> SameStore(w, Heard(w, stale, answer)) && SameStore(w, BarrierHeard(w, act, answer))
    ensures w.worker.At? ==> SameStore(w, AfterClaim(w, ClaimHeard(w, answer), again))
    ensures SameStore(w, ScanHeard(w, again, answer))
  {}

  lemma MoveCallRefines(j: Joint, id: JobId, now: Time, read: M.ReadIo, save: M.SaveIo) returns (events: seq<Event>)
    requires JointOk(j, id) && j.w.worker.At? && AtMoveCall(j.w.worker.pc)
    ensures After(j.w, events)
         == AfterMove(j, id, M.Perform(j.disk, j.m, MoveRequest(id, j.w.worker.pc), now, read, save)).w
  {
    var pc := j.w.worker.pc;
    events := MoveRefines(j.w, id, pc.r, MovePhase(pc), MoveFacts(pc), StaleOf(pc), j.disk, j.m, now, read, save);
  }

  lemma ClaimCallRefines(j: Joint, id: JobId, now: Time, read: M.ReadIo, save: M.SaveIo) returns (events: seq<Event>)
    requires JointOk(j, id) && j.w.worker.At? && j.w.worker.pc.Claiming? && Asks(j.w.worker.pc.c)
    ensures After(j.w, events)
         == AfterClaimCall(j, id, M.Perform(j.disk, j.m, ClaimRequest(id, j.w.worker.pc.c), now, read, save)).w
  {
    events := ClaimRefines(j.w, id, j.w.worker.pc.c, j.w.worker.pc.again, j.disk, j.m, now, read, save);
  }

  lemma BarrierCallRefines(j: Joint, id: JobId, read: M.ReadIo, reread: M.ReadIo) returns (events: seq<Event>)
    requires JointOk(j, id) && j.w.worker.At? && j.w.worker.pc.Barrier? && BarrierFits(j.w)
    ensures After(j.w, events) == AfterBarrier(j, id, BarrierOutcome(j, id, read, reread)).w
  {
    events := BarrierRefines(j.w, id, j.w.worker.pc.r, j.w.worker.pc.act, j.disk, j.m, read, reread);
  }

  lemma ScanCallRefines(j: Joint, id: JobId, now: Time, read: M.ReadIo, save: M.SaveIo) returns (events: seq<Event>)
    requires JointOk(j, id) && j.w.resumer.Scanning? && Asks(j.w.resumer.c)
    ensures After(j.w, events)
         == AfterScan(j, id, M.Perform(j.disk, j.m, ClaimRequest(id, j.w.resumer.c), now, read, save)).w
  {
    events := ScanRefines(j.w, id, j.w.resumer.c, j.w.resumer.again, j.disk, j.m, now, read, save);
  }

  lemma CancelCallRefines(j: Joint, id: JobId, revision: int, now: Time, read: M.ReadIo, save: M.SaveIo)
      returns (events: seq<Event>)
    requires JointOk(j, id)
    ensures After(j.w, events) == AfterOutside(j, id, M.Perform(j.disk, j.m, M.Cancel(id, revision), now, read, save)).w
  {
    events := CancelRefines(j.w, id, revision, j.disk, j.m, now, read, save);
    AfterIsNoted(j.w, events);
  }

  lemma FinalizeCallRefines(j: Joint, id: JobId, revision: int, phase: Phase, facts: Facts, now: Time, read: M.ReadIo,
                            save: M.SaveIo)
      returns (events: seq<Event>)
    requires JointOk(j, id) && j.w.disk.Some? && j.w.disk.value.phase == HealthyUnclaimed
    ensures After(j.w, events)
         == AfterOutside(j, id, M.Perform(j.disk, j.m, M.Move(id, revision, phase, facts), now, read, save)).w
  {
    events := FinalizeRefines(j.w, id, revision, phase, facts, j.disk, j.m, now, read, save);
    AfterIsNoted(j.w, events);
  }

  lemma OtherCallRefines(j: Joint, id: JobId, rq: M.Request, now: Time, read: M.ReadIo, save: M.SaveIo)
      returns (events: seq<Event>)
    requires JointOk(j, id) && !About(rq, id)
    ensures After(j.w, events) == AfterOutside(j, id, M.Perform(j.disk, j.m, rq, now, read, save)).w
  {
    var o := M.Perform(j.disk, j.m, rq, now, read, save);
    OtherRequest(j.w, id, j.disk, j.m, rq, now, read, save);
    events := OtherRefines(j.w, ShownBy(j.w, id, o.disk, o.memory));
  }

  lemma LookRefines(j: Joint, id: JobId, read: M.ReadIo) returns (events: seq<Event>)
    requires JointOk(j, id)
    ensures After(j.w, events)
         == AfterOutside(j, id, M.Outcome(j.disk, M.LoadResult(j.disk, j.m, read).0, Err(StoreError))).w
  {
    LoadFacts(j.disk, j.m, read);
    events := OtherRefines(j.w, ShownBy(j.w, id, j.disk, M.LoadResult(j.disk, j.m, read).0));
  }

  // ----- and leaves the joint state in order -----

  lemma ToldIsOk(j: Joint, id: JobId, o: M.Outcome, w1: World)
    requires Managed(o.disk, o.memory) && SameStore(ShownBy(j.w, id, o.disk, o.memory), w1)
    ensures JointOk(Joint(Noted(w1), o.disk, o.memory), id)
  {}

  lemma AnsweredIsOk(j: Joint, id: JobId, o: M.Outcome)
    requires Managed(o.disk, o.memory)
    ensures j.w.worker.At? && AtMoveCall(j.w.worker.pc) ==> JointOk(AfterMove(j, id, o), id)
    ensures j.w.worker.At? && j.w.worker.pc.Claiming? ==> JointOk(AfterClaimCall(j, id, o), id)
    ensures j.w.worker.At? && j.w.worker.pc.Barrier? ==> JointOk(AfterBarrier(j, id, o), id)
    ensures j.w.resumer.Scanning? ==> JointOk(AfterScan(j, id, o), id)
    ensures JointOk(AfterOutside(j, id, o), id)
  {
    var t := ShownBy(j.w, id, o.disk, o.memory);
    if j.w.worker.At? {
      var pc := j.w.worker.pc;
      HearingKeeps(t, if pc.Claiming? then pc.again else false, if AtMoveCall(pc) then StaleOf(pc) else pc,
                   if pc.Barrier? then pc.act else Push, o.answer);
      if AtMoveCall(pc) { ToldIsOk(j, id, o, Heard(t, StaleOf(pc), o.answer)); }
      if pc.Claiming? { ToldIsOk(j, id, o, AfterClaim(t, ClaimHeard(t, o.answer), pc.again)); }
      if pc.Barrier? { ToldIsOk(j, id, o, BarrierHeard(t, pc.act, o.answer)); }
    }
    if j.w.resumer.Scanning? {
      HearingKeeps(t, j.w.resumer.again, Begin(false), Push, o.answer);
      ToldIsOk(j, id, o, ScanHeard(t, j.w.resumer.again, o.answer));
    }
    ToldIsOk(j, id, o, t);
  }

  lemma BarrierKeepsManaged(j: Joint, id: JobId, read: M.ReadIo, reread: M.ReadIo)
    requires JointOk(j, id) && j.w.worker.At? && j.w.worker.pc.Barrier?
    ensures var o := BarrierOutcome(j, id, read, reread); Managed(o.disk, o.memory)
  {
    var r, act := j.w.worker.pc.r, j.w.worker.pc.act;
    R.VerifyCoherent(j.disk, j.m, id, r.revision, r.phase, BarrierCancelled(act), read, reread);
    R.VerifyKeepsClaims(j.disk, j.m, id, r.revision, r.phase, BarrierCancelled(act), read, reread);
  }

  lemma LookKeepsManaged(disk: M.Disk, m: M.Memory, read: M.ReadIo)
    requires Managed(disk, m)
    ensures Managed(disk, M.LoadResult(disk, m, read).0)
  {}

  lemma WorkerCallRefines(j: Joint, id: JobId, now: Time, read: M.ReadIo, save: M.SaveIo, reread: M.ReadIo)
      returns (events: seq<Event>)
    requires JointOk(j, id) && BarrierFits(j.w)
    ensures var k := WorkerCall(j, id, now, read, save, reread);
      After(j.w, events) == k.w && JointOk(k, id)
  {
    if !j.w.worker.At? || !AtCall(j.w.worker.pc) {
      events := [];
    } else if AtMoveCall(j.w.worker.pc) {
      RequestKeeps(j.disk, j.m, MoveRequest(id, j.w.worker.pc), now, read, save);
      AnsweredIsOk(j, id, M.Perform(j.disk, j.m, MoveRequest(id, j.w.worker.pc), now, read, save));
      events := MoveCallRefines(j, id, now, read, save);
    } else if j.w.worker.pc.Claiming? {
      RequestKeeps(j.disk, j.m, ClaimRequest(id, j.w.worker.pc.c), now, read, save);
      AnsweredIsOk(j, id, M.Perform(j.disk, j.m, ClaimRequest(id, j.w.worker.pc.c), now, read, save));
      events := ClaimCallRefines(j, id, now, read, save);
    } else {
      BarrierKeepsManaged(j, id, read, reread);
      AnsweredIsOk(j, id, BarrierOutcome(j, id, read, reread));
      events := BarrierCallRefines(j, id, read, reread);
    }
  }

  lemma OutsideCallRefines(j: Joint, id: JobId, deed: Deed) returns (events: seq<Event>)
    requires JointOk(j, id) && (deed.CancelCalled? || deed.FinalizeCalled? || deed.OtherCalls? || deed.OtherLooks?)
    ensures var k := JointStep(j, id, deed);
      After(j.w, events) == k.w && JointOk(k, id)
  {
    events := [];
    match deed
    case CancelCalled(revision, now, read, save) =>
      RequestKeeps(j.disk, j.m, M.Cancel(id, revision), now, read, save);
      AnsweredIsOk(j, id, M.Perform(j.disk, j.m, M.Cancel(id, revision), now, read, save));
      events := CancelCallRefines(j, id, revision, now, read, save);
    case FinalizeCalled(revision, phase, facts, now, read, save) =>
      if j.w.disk.Some? && j.w.disk.value.phase == HealthyUnclaimed {
        RequestKeeps(j.disk, j.m, M.Move(id, revision, phase, facts), now, read, save);
        AnsweredIsOk(j, id, M.Perform(j.disk, j.m, M.Move(id, revision, phase, facts), now, read, save));
        events := FinalizeCallRefines(j, id, revision, phase, facts, now, read, save);
      }
    case OtherCalls(rq, now, read, save) =>
      if !About(rq, id) {
        RequestKeeps(j.disk, j.m, rq, now, read, save);
        AnsweredIsOk(j, id, M.Perform(j.disk, j.m, rq, now, read, save));
        events := OtherCallRefines(j, id, rq, now, read, save);
      }
    case OtherLooks(read) =>
      LookKeepsManaged(j.disk, j.m, read);
      AnsweredIsOk(j, id, M.Outcome(j.disk, M.LoadResult(j.disk, j.m, read).0, Err(StoreError)));
      events := LookRefines(j, id, read);
  }

  /** Every deed is a few events of the protocol, ending in the same world. */
  lemma DeedRefines(j: Joint, id: JobId, deed: Deed) returns (events: seq<Event>)
    requires JointOk(j, id) && BarrierFits(j.w)
    ensures After(j.w, events) == JointStep(j, id, deed).w && JointOk(JointStep(j, id, deed), id)
  {
    events := [];
    match deed
    case WorkerCalls(now, read, save, reread) => events := WorkerCallRefines(j, id, now, read, save, reread);
    case ScanCalls(now, read, save) =>
      if j.w.resumer.Scanning? && Asks(j.w.resumer.c) {
        RequestKeeps(j.disk, j.m, ClaimRequest(id, j.w.resumer.c), now, read, save);
        AnsweredIsOk(j, id, M.Perform(j.disk, j.m, ClaimRequest(id, j.w.resumer.c), now, read, save));
        events := ScanCallRefines(j, id, now, read, save);
      }
    case Restarts =>
      events := [ProcessLost];
      OneEvent(j.w, ProcessLost);
    case Alone(e) =>
      if Quiet(j.w, e) {
        events := [e];
        OneEvent(j.w, e);
        QuietLeaves(j.w, e);
      }
    case _ => events := OutsideCallRefines(j, id, deed);
  }

  // ----- every joint run is a run of the protocol -----

  lemma {:induction false} AfterBoth(w: World, a: seq<Event>, b: seq<Event>)
    ensures After(w, a + b) == After(After(w, a), b)
    decreases |b|
  {
    if b == [] {
      assert a + b == a;
    } else {
      AfterBoth(w, a, b[..|b| - 1]);
      assert (a + b)[..|a + b| - 1] == a + b[..|b| - 1];
    }
  }

  /** A job just approved, seen through a sole manager that agrees with the store. */
  ghost predicate Fresh(j: Joint, id: JobId) { JointOk(j, id) && JustApproved(j.w) }

  /** An approved receipt in a sound store, with a manager and a process that know nothing yet. */
  lemma ApprovedIsFresh(jobs: Jobs, id: JobId, slot: Slot)
    requires R.DiskOk(M.Holding(jobs)) && id in jobs && jobs[id].phase == Approved && !jobs[id].cancelRequested
    requires slot != Mine
    ensures Fresh(Joint(World(Some(jobs[id]), None, Idle, Resting, false, Site(NO_FILES, slot, 0, 0, 0, false, false)),
                        M.Holding(jobs), M.FORGOTTEN), id)
  {}

  lemma InvariantFits(w: World)
    requires Inv(w)
    ensures BarrierFits(w)
  {}

  lemma FitsInRuns(w: World, events: seq<Event>)
    requires JustApproved(w)
    ensures BarrierFits(After(w, events))
  {
    RunKeeps(w, events);
    InvariantFits(After(w, events));
  }

  /** The executor over the real manager and store does nothing the protocol does not do. */
  lemma {:induction false} JointRefines(j: Joint, id: JobId, deeds: seq<Deed>) returns (events: seq<Event>)
    requires Fresh(j, id)
    ensures After(j.w, events) == JointAfter(j, id, deeds).w && JointOk(JointAfter(j, id, deeds), id)
    decreases |deeds|
  {
    if |deeds| == 0 {
      events := [];
    } else {
      var before := JointRefines(j, id, deeds[..|deeds| - 1]);
      var k := JointAfter(j, id, deeds[..|deeds| - 1]);
      FitsInRuns(j.w, before);
      var more := DeedRefines(k, id, deeds[|deeds| - 1]);
      events := before + more;
      AfterBoth(j.w, before, more);
    }
  }

  /** So over the real store each mutation is issued at most once and in order, success means
      exactly once, a definite ending leaves no residue, and a finished job no local file. */
  lemma {:induction false} SafeOverTheStore(j: Joint, id: JobId, deeds: seq<Deed>)
    requires Fresh(j, id)
    ensures var k := JointAfter(j, id, deeds);
      var r := Lookup(k.disk.Contents(), id);
      && k.w.site.launches <= k.w.site.installs <= k.w.site.pushes <= 1
      && (r.Some? && (r.value.phase.HealthyUnclaimed? || r.value.phase.Consumed?) ==>
            k.w.site.pushes == k.w.site.installs == k.w.site.launches == 1)
      && (r.Some? && Resolved(r.value.phase) ==> k.w.site.slot != Mine)
      && (!Live(r) ==> k.w.site.custody == NO_FILES)
  {
    var events := JointRefines(j, id, deeds);
    AtMostOnce(j.w, events);
    SuccessIsExactlyOnce(j.w, events);
    NoResidue(j.w, events);
    CustodyGoneWhenTerminal(j.w, events);
  }

  lemma {:induction false} JointAfterBoth(j: Joint, id: JobId, a: seq<Deed>, b: seq<Deed>)
    ensures JointAfter(j, id, a + b) == JointAfter(JointAfter(j, id, a), id, b)
    decreases |b|
  {
    if b == [] {
      assert a + b == a;
    } else {
      JointAfterBoth(j, id, a, b[..|b| - 1]);
      assert (a + b)[..|a + b| - 1] == a + b[..|b| - 1];
    }
  }

  /** From a joint state reached by `before`, more deeds are more events. */
  lemma {:induction false} JointGoesOn(j: Joint, id: JobId, before: seq<Event>, k: Joint, deeds: seq<Deed>)
      returns (events: seq<Event>)
    requires JustApproved(j.w) && JointOk(k, id) && k.w == After(j.w, before)
    ensures before <= events && After(j.w, events) == JointAfter(k, id, deeds).w
    ensures JointOk(JointAfter(k, id, deeds), id)
    decreases |deeds|
  {
    if |deeds| == 0 {
      events := before;
    } else {
      var sofar := JointGoesOn(j, id, before, k, deeds[..|deeds| - 1]);
      FitsInRuns(j.w, sofar);
      var more := DeedRefines(JointAfter(k, id, deeds[..|deeds| - 1]), id, deeds[|deeds| - 1]);
      events := sofar + more;
      AfterBoth(j.w, sofar, more);
    }
  }

  /** And once a cancel request is in the store, no continuation installs or launches, and the job
      ends only as cancelled, failed or to be recovered. */
  lemma {:induction false} CancelFencesOverTheStore(j: Joint, id: JobId, before: seq<Deed>, after: seq<Deed>)
    requires Fresh(j, id)
    requires var r := Lookup(JointAfter(j, id, before).disk.Contents(), id); r.Some? && r.value.cancelRequested
    ensures var k := JointAfter(j, id, before + after);
      var r := Lookup(k.disk.Contents(), id);
      && k.w.site.installs == 0 && k.w.site.launches == 0
      && (r.Some? ==>
            r.value.cancelRequested
            && (Cancellable(r.value.phase) || r.value.phase.Cancelled?
                || r.value.phase.Failed? || r.value.phase.RecoveryRequired?))
  {
    var first := JointRefines(j, id, before);
    var events := JointGoesOn(j, id, first, JointAfter(j, id, before), after);
    JointAfterBoth(j, id, before, after);
    assert events[..|first|] == first;
    CancelFences(j.w, events, |first|);
  }
}
