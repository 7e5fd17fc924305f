/** Whole histories of the receipt store: any number of managers, restarts, failed,
    cancelled and half-landed saves, in any order. */
module JobRuns {
  import opened Wrappers
  import opened Receipts
  import opened Retention
  import opened JobDocument
  import opened JobManager

  /** `born` remembers every identifier ever drawn: a 128-bit draw is taken never to repeat. */
  datatype System = System(disk: Disk, managers: map<nat, Memory>, born: set<JobId>)

  datatype Event =
    | Start(who: nat)
    | Ask(who: nat, request: Request, now: Time, read: ReadIo, save: SaveIo)
    | Check(who: nat, id: JobId, revision: int, phase: Phase, cancelled: bool, read: ReadIo, reread: ReadIo)
    | Look(who: nat, read: ReadIo)

  function Drawn(rq: Request): set<JobId> {
    if rq.Create? then {rq.newId} else {}
  }

  ghost predicate Next(s: System, e: Event, t: System) {
    match e
    case Start(who) => t == s.(managers := s.managers[who := FORGOTTEN])
    case Ask(who, rq, now, read, save) =>
      who in s.managers && Drawn(rq) !! s.born
      && var o := Perform(s.disk, s.managers[who], rq, now, read, save);
         t == System(o.disk, s.managers[who := o.memory], s.born + Drawn(rq))
    case Check(who, id, revision, phase, cancelled, read, reread) =>
      who in s.managers
      && var o := Verify(s.disk, s.managers[who], id, revision, phase, cancelled, read, reread);
         t == s.(managers := s.managers[who := o.memory])
    case Look(who, read) =>
      who in s.managers && t == s.(managers := s.managers[who := LoadResult(s.disk, s.managers[who], read).0])
  }

  const FIRST := System(Absent, map[], {})

  ghost predicate Run(states: seq<System>, events: seq<Event>) {
    && |states| == |events| + 1
    && states[0] == FIRST
    && forall i :: 0 <= i < |events| ==> Next(states[i], events[i], states[i + 1])
  }

  // ----- what one write does to the receipts -----

  ghost predicate AllLawful(jobs: Jobs) {
    forall id :: id in jobs ==> Lawful(jobs[id])
  }

  /** How one receipt may differ after a request about it. */
  ghost predicate Succeeds(a: Receipt, rq: Request, b: Receipt) {
    && !a.IsTerminal() && Lawful(b) && SameFrozen(a, b) && a.revision <= b.revision
    && (rq.Claim? && !b.IsTerminal() ==>
          b.executorGeneration == a.executorGeneration + 1 && b.phase == a.phase && b.phase != HealthyUnclaimed)
    && (!rq.Claim? ==> b.executorGeneration == a.executorGeneration)
  }

  ghost predicate Evolves(before: Jobs, rq: Request, after: Jobs) {
    && (forall id :: id in after ==>
          || (id in before && after[id] == before[id])
          || (!rq.Create? && id == rq.id && id in before && Succeeds(before[id], rq, after[id]))
          || (rq.Create? && id == rq.newId && Lawful(after[id]) && after[id].executorGeneration == 0))
    && (forall id :: id in before && id !in after ==> before[id].IsTerminal() || (!rq.Create? && id == rq.id))
  }

  lemma PrunedPlanEvolves(jobs: Jobs, rq: Request, next: Receipt)
    requires !rq.Create? && rq.id in jobs && next.jobId == rq.id
    requires PrunedPlan(jobs, rq.id, next).Write?
    requires rq.id in PrunedPlan(jobs, rq.id, next).jobs ==> Succeeds(jobs[rq.id], rq, next)
    ensures Evolves(jobs, rq, PrunedPlan(jobs, rq.id, next).jobs)
  {}

  lemma CancelPlanEvolves(jobs: Jobs, claims: map<JobId, int>, rq: Request, now: Time)
    requires rq.Cancel? && AllLawful(jobs) && Keyed(jobs)
    requires PlanOf(jobs, claims, rq, now).Write? && StoreOk(PlanOf(jobs, claims, rq, now).jobs)
    ensures Evolves(jobs, rq, PlanOf(jobs, claims, rq, now).jobs)
  {
    var next := RequestCancel(jobs[rq.id], now).value;
    var after := PlanOf(jobs, claims, rq, now).jobs;
    assert after == jobs[rq.id := next];
    assert ReceiptOk(after[rq.id]);
    CancelKeepsLaw(jobs[rq.id], now);
    CancelSucceeds(jobs[rq.id], rq, now);
  }

  lemma CancelSucceeds(cur: Receipt, rq: Request, now: Time)
    requires rq.Cancel? && Lawful(cur) && RequestCancel(cur, now).Ok? && Lawful(RequestCancel(cur, now).value)
    ensures Succeeds(cur, rq, RequestCancel(cur, now).value)
  {}

  lemma ClaimSucceeds(cur: Receipt, held: Option<int>, rq: Request, now: Time)
    requires rq.Claim? && Lawful(cur) && ClaimReceipt(cur, held, rq.confirmed, now).Ok?
    requires ClaimReceipt(cur, held, rq.confirmed, now).value != cur
    requires ReceiptOk(ClaimReceipt(cur, held, rq.confirmed, now).value)
    ensures Succeeds(cur, rq, ClaimReceipt(cur, held, rq.confirmed, now).value)
  {
    ClaimKeepsLaw(cur, held, rq.confirmed, now);
  }

  lemma ClaimPlanEvolves(jobs: Jobs, claims: map<JobId, int>, rq: Request, now: Time)
    requires rq.Claim? && AllLawful(jobs) && Keyed(jobs)
    requires PlanOf(jobs, claims, rq, now).Write? && StoreOk(PlanOf(jobs, claims, rq, now).jobs)
    ensures Evolves(jobs, rq, PlanOf(jobs, claims, rq, now).jobs)
  {
    var held := Lookup(claims, rq.id);
    var next := ClaimReceipt(jobs[rq.id], held, rq.confirmed, now).value;
    ClaimPlanIs(jobs, claims, rq, now);
    if rq.id in PrunedPlan(jobs, rq.id, next).jobs {
      ClaimSucceeds(jobs[rq.id], held, rq, now);
    }
    PrunedPlanEvolves(jobs, rq, next);
  }

  lemma ClaimPlanIs(jobs: Jobs, claims: map<JobId, int>, rq: Request, now: Time)
    requires rq.Claim? && Keyed(jobs)
    requires PlanOf(jobs, claims, rq, now).Write? && StoreOk(PlanOf(jobs, claims, rq, now).jobs)
    ensures rq.id in jobs
    ensures var next := ClaimReceipt(jobs[rq.id], Lookup(claims, rq.id), rq.confirmed, now);
      && next.Ok? && next.value != jobs[rq.id] && next.value.jobId == rq.id
      && PlanOf(jobs, claims, rq, now) == PrunedPlan(jobs, rq.id, next.value)
      && (rq.id in PrunedPlan(jobs, rq.id, next.value).jobs ==> ReceiptOk(next.value))
  {
    var plan := PlanOf(jobs, claims, rq, now);
    assert rq.id in plan.jobs ==> ReceiptOk(plan.jobs[rq.id]);
  }

  lemma MovePlanEvolves(jobs: Jobs, claims: map<JobId, int>, rq: Request, now: Time)
    requires rq.Move? && AllLawful(jobs) && Keyed(jobs)
    requires PlanOf(jobs, claims, rq, now).Write?
    ensures Evolves(jobs, rq, PlanOf(jobs, claims, rq, now).jobs)
  {
    var held := Lookup(claims, rq.id);
    TransitionKeepsLaw(jobs[rq.id], held, rq.phase, rq.facts, now);
    TransitionKeepsGeneration(jobs[rq.id], held, rq.phase, rq.facts, now);
    PrunedPlanEvolves(jobs, rq, Transition(jobs[rq.id], held, rq.phase, rq.facts, now).value);
  }

  lemma TransitionKeepsGeneration(cur: Receipt, held: Option<int>, phase: Phase, f: Facts, now: Time)
    requires Transition(cur, held, phase, f, now).Ok?
    ensures !cur.IsTerminal()
    ensures Transition(cur, held, phase, f, now).value.executorGeneration == cur.executorGeneration
    ensures Transition(cur, held, phase, f, now).value.jobId == cur.jobId
  {}

  lemma CreatePlanEvolves(jobs: Jobs, claims: map<JobId, int>, rq: Request, now: Time)
    requires rq.Create?
    requires PlanOf(jobs, claims, rq, now).Write? && StoreOk(PlanOf(jobs, claims, rq, now).jobs)
    ensures Evolves(jobs, rq, PlanOf(jobs, claims, rq, now).jobs)
  {
    assert ReceiptOk(PlanOf(jobs, claims, rq, now).jobs[rq.newId]);
  }

  lemma PlanEvolves(jobs: Jobs, claims: map<JobId, int>, rq: Request, now: Time)
    requires AllLawful(jobs) && Keyed(jobs)
    requires PlanOf(jobs, claims, rq, now).Write? && StoreOk(PlanOf(jobs, claims, rq, now).jobs)
    ensures Evolves(jobs, rq, PlanOf(jobs, claims, rq, now).jobs)
  {
    match rq
    case Create(_, _, _, _, _) => CreatePlanEvolves(jobs, claims, rq, now);
    case Cancel(_, _) => CancelPlanEvolves(jobs, claims, rq, now);
    case Claim(_, _, _) => ClaimPlanEvolves(jobs, claims, rq, now);
    case Move(_, _, _, _) => MovePlanEvolves(jobs, claims, rq, now);
  }

  // ----- what one call does to disk and memory -----

  ghost predicate DiskOk(d: Disk) {
    !d.Unreadable? && (d.Holding? ==> StoreOk(d.jobs) && AllLawful(d.jobs))
  }

  /** Claims after a call: old ones, or the one just won with a new generation. */
  ghost predicate ClaimsFrom(m: Memory, rq: Request, before: Jobs, after: Memory, disk: Disk) {
    forall id :: id in after.claims ==>
      || (id in m.claims && m.claims[id] == after.claims[id])
      || (rq.Claim? && id == rq.id && id in before && disk.Holding? && id in disk.jobs
          && after.claims[id] == disk.jobs[id].executorGeneration == before[id].executorGeneration + 1)
  }

  /** What carrying out any plan can do. */
  lemma ConcludeEffect(disk: Disk, m: Memory, plan: Plan, claiming: bool, save: SaveIo)
    ensures var o := ConcludeResult(disk, m, plan, claiming, save);
      && (o.disk == disk || (plan.Write? && StoreOk(plan.jobs) && o.disk == Holding(plan.jobs)))
      && (o.memory == FORGOTTEN || o.memory == m
          || (plan.Write? && StoreOk(plan.jobs) && o.disk == Holding(plan.jobs) && o.memory.cache == Some(plan.jobs)))
      && (forall id :: id in o.memory.claims ==>
            || (id in m.claims && m.claims[id] == o.memory.claims[id])
            || (claiming && plan.Write? && id == plan.id && id in plan.jobs && !plan.jobs[id].IsTerminal()
                && o.disk == Holding(plan.jobs) && o.memory.claims[id] == plan.jobs[id].executorGeneration))
  {}

  /** A plan that is fit to be written evolves the receipts and is about the request's subject. */
  ghost predicate GoodPlan(jobs: Jobs, rq: Request, plan: Plan) {
    plan.Write? && StoreOk(plan.jobs) ==>
      && Evolves(jobs, rq, plan.jobs)
      && (rq.Claim? ==> plan.id == rq.id && rq.id in jobs)
      && (rq.Claim? && rq.id in plan.jobs && !plan.jobs[rq.id].IsTerminal() ==>
            plan.jobs[rq.id].executorGeneration == jobs[rq.id].executorGeneration + 1
            && plan.jobs[rq.id].phase != HealthyUnclaimed)
  }

  lemma PlanIsGood(jobs: Jobs, claims: map<JobId, int>, rq: Request, now: Time)
    requires AllLawful(jobs) && Keyed(jobs)
    ensures GoodPlan(jobs, rq, PlanOf(jobs, claims, rq, now))
  {
    var plan := PlanOf(jobs, claims, rq, now);
    if plan.Write? && StoreOk(plan.jobs) {
      PlanEvolves(jobs, claims, rq, now);
      PlanSubject(jobs, claims, rq, now);
    }
  }

  lemma GoodPlanEffect(disk: Disk, m: Memory, plan: Plan, rq: Request, save: SaveIo)
    requires DiskOk(disk) && GoodPlan(disk.Contents(), rq, plan)
    ensures var o := ConcludeResult(disk, m, plan, rq.Claim?, save);
      && DiskOk(o.disk)
      && (o.disk == disk || (o.disk.Holding? && Evolves(disk.Contents(), rq, o.disk.jobs)))
      && ClaimsFrom(m, rq, disk.Contents(), o.memory, o.disk)
  {
    ConcludeEffect(disk, m, plan, rq.Claim?, save);
    if plan.Write? && StoreOk(plan.jobs) {
      EvolvedIsLawful(disk.Contents(), rq, plan.jobs);
    }
  }

  lemma LoadEffect(disk: Disk, m: Memory, io: ReadIo)
    ensures var (m1, loaded) := LoadResult(disk, m, io);
      && (loaded.Ok? ==> loaded.value == disk.Contents() && m1.cache == Some(disk.Contents())
                         && m1.claims == LiveClaims(m.claims, disk.Contents()) && !disk.Unreadable?)
      && (loaded.Err? ==> m1 == FORGOTTEN)
      && (forall id :: id in m1.claims ==> id in m.claims && m.claims[id] == m1.claims[id])
  {}

  lemma PerformEffect(disk: Disk, m: Memory, rq: Request, now: Time, read: ReadIo, save: SaveIo)
    requires DiskOk(disk)
    ensures var o := Perform(disk, m, rq, now, read, save);
      && DiskOk(o.disk)
      && (o.disk == disk || (o.disk.Holding? && Evolves(disk.Contents(), rq, o.disk.jobs)))
      && ClaimsFrom(m, rq, disk.Contents(), o.memory, o.disk)
  {
    LoadEffect(disk, m, read);
    var (m1, loaded) := LoadResult(disk, m, read);
    if Wellformed(rq) && loaded.Ok? {
      PlanIsGood(disk.Contents(), m1.claims, rq, now);
      GoodPlanEffect(disk, m1, PlanOf(disk.Contents(), m1.claims, rq, now), rq, save);
    }
  }

  lemma PlanSubject(jobs: Jobs, claims: map<JobId, int>, rq: Request, now: Time)
    requires PlanOf(jobs, claims, rq, now).Write?
    ensures !rq.Create? ==> PlanOf(jobs, claims, rq, now).id == rq.id && rq.id in jobs
    ensures rq.Claim? && rq.id in PlanOf(jobs, claims, rq, now).jobs ==> PlanOf(jobs, claims, rq, now).jobs[rq.id] != jobs[rq.id]
  {}

  lemma EvolvedIsLawful(before: Jobs, rq: Request, after: Jobs)
    requires AllLawful(before) && Evolves(before, rq, after)
    ensures AllLawful(after)
  {}

  // ----- the invariant over every history -----

  /** The generation `who` holds for a job, if any. */
  function Held(s: System, who: nat, id: JobId): Option<int> {
    if who in s.managers then Lookup(s.managers[who].claims, id) else None
  }

  ghost predicate ClaimsBounded(s: System) {
    forall who, id :: Held(s, who, id).Some? ==>
      id in s.born
      && (id in s.disk.Contents() ==> Held(s, who, id).value <= s.disk.Contents()[id].executorGeneration)
  }

  ghost predicate ClaimsDistinct(s: System) {
    forall a, b, id :: a != b && Held(s, a, id).Some? && Held(s, b, id).Some? ==> Held(s, a, id) != Held(s, b, id)
  }

  ghost predicate Inv(s: System) {
    && DiskOk(s.disk)
    && s.disk.Contents().Keys <= s.born
    && ClaimsBounded(s) && ClaimsDistinct(s)
  }

  /** No manager holds anything it did not hold before. */
  ghost predicate OnlyFewerClaims(s: System, t: System) {
    forall who, id :: Held(t, who, id).Some? ==> Held(s, who, id) == Held(t, who, id)
  }

  lemma FewerClaimsKeepInv(s: System, t: System)
    requires Inv(s) && t.disk == s.disk && t.born == s.born && OnlyFewerClaims(s, t)
    ensures Inv(t)
  {
    assert ClaimsBounded(t);
    assert ClaimsDistinct(t);
  }

  /** After a request, a claim is an old one or the requester's new one, a generation ahead. */
  lemma AskClaims(s: System, e: Event, t: System, who: nat, id: JobId)
    requires Inv(s) && e.Ask? && Next(s, e, t) && Held(t, who, id).Some?
    ensures Held(s, who, id) == Held(t, who, id)
      || (who == e.who && e.request.Claim? && e.request.id == id
          && id in s.disk.Contents() && id in t.disk.Contents()
          && Held(t, who, id).value == t.disk.Contents()[id].executorGeneration
             == s.disk.Contents()[id].executorGeneration + 1)
  {
    if who == e.who {
      PerformEffect(s.disk, s.managers[who], e.request, e.now, e.read, e.save);
    }
  }

  lemma AskKeepsInv(s: System, e: Event, t: System)
    requires Inv(s) && e.Ask? && Next(s, e, t)
    ensures Inv(t)
  {
    AskDisk(s, e, t);
    forall who, id | Held(t, who, id).Some?
      ensures id in t.born
      ensures id in t.disk.Contents() ==> Held(t, who, id).value <= t.disk.Contents()[id].executorGeneration
    {
      AskClaims(s, e, t, who, id);
      if id in s.born { NextPersists(s, e, t, id); }
    }
    forall a, b, id | a != b && Held(t, a, id).Some? && Held(t, b, id).Some?
      ensures Held(t, a, id) != Held(t, b, id)
    {
      AskClaims(s, e, t, a, id);
      AskClaims(s, e, t, b, id);
    }
  }

  lemma AskDisk(s: System, e: Event, t: System)
    requires Inv(s) && e.Ask? && Next(s, e, t)
    ensures DiskOk(t.disk) && t.disk.Contents().Keys <= t.born
  {
    PerformEffect(s.disk, s.managers[e.who], e.request, e.now, e.read, e.save);
  }

  lemma VerifyKeepsClaims(disk: Disk, m: Memory, id: JobId, revision: int, phase: Phase, cancelled: bool,
                          read: ReadIo, reread: ReadIo)
    ensures var o := Verify(disk, m, id, revision, phase, cancelled, read, reread);
      && o.disk == disk
      && forall k :: k in o.memory.claims ==> k in m.claims && o.memory.claims[k] == m.claims[k]
  {}

  lemma NextKeepsInv(s: System, e: Event, t: System)
    requires Inv(s) && Next(s, e, t)
    ensures Inv(t)
  {
    match e
    case Start(who) => FewerClaimsKeepInv(s, t);
    case Ask(_, _, _, _, _) => AskKeepsInv(s, e, t);
    case Check(who, id, revision, phase, cancelled, read, reread) =>
      VerifyKeepsClaims(s.disk, s.managers[who], id, revision, phase, cancelled, read, reread);
      FewerClaimsKeepInv(s, t);
    case Look(who, read) =>
      LoadEffect(s.disk, s.managers[who], read);
      FewerClaimsKeepInv(s, t);
  }

  lemma {:induction false} InvAlways(states: seq<System>, events: seq<Event>, n: nat)
    requires Run(states, events) && n < |states|
    ensures Inv(states[n])
  {
    if n > 0 {
      InvAlways(states, events, n - 1);
      NextKeepsInv(states[n - 1], events[n - 1], states[n]);
    }
  }

  // ----- main results -----

  /** Every store ever on disk is within bounds, and each of its receipts obeys the law
      that ties revision to phase, generation and cancel flag. */
  lemma StoreAlwaysSound(states: seq<System>, events: seq<Event>, n: nat)
    requires Run(states, events) && n < |states|
    ensures var d := states[n].disk;
      && (d.Absent? || (d.Holding? && StoreOk(d.jobs)))
      && (forall id :: id in d.Contents() ==>
            var r := d.Contents()[id];
            && ReceiptOk(r) && r.attempt <= 32 && r.revision <= 44
            && (!r.IsTerminal() || r.phase == Consumed ==>
                  r.revision == Rank(r.phase) + r.executorGeneration + (if r.cancelRequested then 1 else 0)))
  {
    InvAlways(states, events, n);
  }

  ghost predicate Persists(s: System, t: System, id: JobId)
    requires id in s.disk.Contents()
  {
    id in t.disk.Contents() ==>
      var a, b := s.disk.Contents()[id], t.disk.Contents()[id];
      && SameFrozen(a, b) && (a.IsTerminal() ==> b == a)
      && a.revision <= b.revision && a.updatedAt <= b.updatedAt
  }

  lemma EvolvedPersists(before: Jobs, rq: Request, after: Jobs, id: JobId)
    requires Evolves(before, rq, after) && id in before && id in after && (rq.Create? ==> rq.newId != id)
    ensures SameFrozen(before[id], after[id]) && (before[id].IsTerminal() ==> after[id] == before[id])
    ensures before[id].revision <= after[id].revision
  {}

  /** No request takes the time of a receipt back: the save refuses to. */
  lemma TimeGoesOn(disk: Disk, m: Memory, rq: Request, now: Time, read: ReadIo, save: SaveIo)
    ensures var o := Perform(disk, m, rq, now, read, save);
      o.disk == disk || !ClockWentBack(disk.Contents(), o.disk.Contents())
  {
    LoadEffect(disk, m, read);
    var (m1, loaded) := LoadResult(disk, m, read);
    if Wellformed(rq) && loaded.Ok? {
      SavedTimeGoesOn(disk, m1, PlanOf(disk.Contents(), m1.claims, rq, now), rq.Claim?, save);
    }
  }

  lemma SavedTimeGoesOn(disk: Disk, m: Memory, plan: Plan, claiming: bool, save: SaveIo)
    requires m.cache == Some(disk.Contents())
    ensures var o := ConcludeResult(disk, m, plan, claiming, save);
      o.disk == disk || !ClockWentBack(disk.Contents(), o.disk.Contents())
  {}

  lemma NextPersists(s: System, e: Event, t: System, id: JobId)
    requires Inv(s) && Next(s, e, t)
    requires id in s.born
    ensures id in t.born
    ensures id in s.disk.Contents() ==> Persists(s, t, id)
    ensures id !in s.disk.Contents() ==> id !in t.disk.Contents()
  {
    if e.Ask? {
      PerformEffect(s.disk, s.managers[e.who], e.request, e.now, e.read, e.save);
      if t.disk != s.disk && id in s.disk.Contents() && id in t.disk.Contents() {
        EvolvedPersists(s.disk.Contents(), e.request, t.disk.jobs, id);
        TimeGoesOn(s.disk, s.managers[e.who], e.request, e.now, e.read, e.save);
      }
    }
  }

  lemma PersistsOnward(s: System, t: System, u: System, id: JobId)
    requires id in s.disk.Contents() && Persists(s, t, id)
    requires if id in t.disk.Contents() then Persists(t, u, id) else id !in u.disk.Contents()
    ensures Persists(s, u, id)
  {}

  /** Approved facts stay frozen, generations, revisions and times only grow, a recorded cancel
      stays recorded, and a finished receipt never changes until it is pruned. */
  lemma {:induction false} HistoryPersists(states: seq<System>, events: seq<Event>, i: nat, j: nat, id: JobId)
    requires Run(states, events) && i <= j < |states|
    requires id in states[i].disk.Contents()
    ensures id in states[j].born
    ensures Persists(states[i], states[j], id)
    decreases j
  {
    InvAlways(states, events, i);
    if i < j {
      HistoryPersists(states, events, i, j - 1, id);
      InvAlways(states, events, j - 1);
      NextPersists(states[j - 1], events[j - 1], states[j], id);
      PersistsOnward(states[i], states[j - 1], states[j], id);
    }
  }

  /** Drawn once, and not in the store. */
  ghost predicate Dropped(s: System, id: JobId) { id in s.born && id !in s.disk.Contents() }

  lemma StepKeepsDropped(states: seq<System>, events: seq<Event>, n: nat, id: JobId)
    requires Run(states, events) && n < |events| && Dropped(states[n], id)
    ensures Dropped(states[n + 1], id)
  {
    InvAlways(states, events, n);
    NextPersists(states[n], events[n], states[n + 1], id);
  }

  /** An identifier once drawn and not in the store never comes back. */
  lemma {:induction false} DroppedStaysDropped(states: seq<System>, events: seq<Event>, i: nat, j: nat, id: JobId)
    requires Run(states, events) && i <= j < |states| && Dropped(states[i], id)
    ensures Dropped(states[j], id)
  {
    var n := i;
    while n < j
      invariant i <= n <= j && Dropped(states[n], id)
    {
      StepKeepsDropped(states, events, n, id);
      n := n + 1;
    }
  }

  /** At any moment at most one manager's claim on a job matches the stored generation. */
  lemma AtMostOneClaimMatches(states: seq<System>, events: seq<Event>, n: nat, a: nat, b: nat, id: JobId)
    requires Run(states, events) && n < |states|
    requires id in states[n].disk.Contents()
    requires Held(states[n], a, id) == Some(states[n].disk.Contents()[id].executorGeneration)
    requires Held(states[n], b, id) == Some(states[n].disk.Contents()[id].executorGeneration)
    ensures a == b
  {
    InvAlways(states, events, n);
  }

  /** This manager has no current claim on the job: it is superseded, or the job is gone for good. */
  ghost predicate Fenced(s: System, who: nat, id: JobId) {
    && who in s.managers && id in s.born
    && (id in s.disk.Contents() ==> Held(s, who, id) != Some(s.disk.Contents()[id].executorGeneration))
  }

  lemma AskKeepsFence(s: System, e: Event, t: System, who: nat, id: JobId)
    requires Inv(s) && e.Ask? && Next(s, e, t) && Fenced(s, who, id)
    requires !(e.who == who && e.request.Claim? && e.request.id == id)
    ensures Fenced(t, who, id)
  {
    NextPersists(s, e, t, id);
    if Held(t, who, id).Some? {
      AskClaims(s, e, t, who, id);
    }
  }

  lemma NextKeepsFence(s: System, e: Event, t: System, who: nat, id: JobId)
    requires Inv(s) && Next(s, e, t) && Fenced(s, who, id)
    requires !(e.Ask? && e.who == who && e.request.Claim? && e.request.id == id)
    ensures Fenced(t, who, id)
  {
    if e.Ask? {
      AskKeepsFence(s, e, t, who, id);
    } else if e.Check? {
      VerifyKeepsClaims(s.disk, s.managers[e.who], e.id, e.revision, e.phase, e.cancelled, e.read, e.reread);
    } else if e.Look? {
      LoadEffect(s.disk, s.managers[e.who], e.read);
    }
  }

  lemma UnclaimedMoveRefused(jobs: Jobs, claims: map<JobId, int>, id: JobId, revision: int, phase: Phase,
                             facts: Facts, now: Time)
    requires id in jobs ==> jobs[id].phase != HealthyUnclaimed && Lookup(claims, id) != Some(jobs[id].executorGeneration)
    ensures PlanOf(jobs, claims, Move(id, revision, phase, facts), now).Refuse?
  {}

  lemma FencedCannotMove(disk: Disk, m: Memory, id: JobId, revision: int, phase: Phase, facts: Facts,
                         now: Time, read: ReadIo, save: SaveIo)
    requires id in disk.Contents() ==>
      disk.Contents()[id].phase != HealthyUnclaimed && Lookup(m.claims, id) != Some(disk.Contents()[id].executorGeneration)
    ensures Perform(disk, m, Move(id, revision, phase, facts), now, read, save).answer.Err?
  {
    LoadEffect(disk, m, read);
    var (m1, loaded) := LoadResult(disk, m, read);
    if loaded.Ok? {
      UnclaimedMoveRefused(disk.Contents(), m1.claims, id, revision, phase, facts, now);
    }
  }

  lemma FencedDurableRefused(disk: Disk, m: Memory, id: JobId, revision: int, remembered: Receipt, phase: Phase,
                             cancelled: bool, reread: ReadIo)
    requires id in disk.Contents() ==>
      disk.Contents()[id].jobId == id && Lookup(m.claims, id) != Some(disk.Contents()[id].executorGeneration)
    ensures VerifyDurable(disk, m, id, revision, remembered, phase, cancelled, reread).answer.Err?
  {}

  lemma FencedCannotVerify(disk: Disk, m: Memory, id: JobId, revision: int, phase: Phase, cancelled: bool,
                           read: ReadIo, reread: ReadIo)
    requires id in disk.Contents() ==>
      disk.Contents()[id].jobId == id && Lookup(m.claims, id) != Some(disk.Contents()[id].executorGeneration)
    ensures Verify(disk, m, id, revision, phase, cancelled, read, reread).answer.Err?
  {
    LoadEffect(disk, m, read);
    var (m1, loaded) := if m.cache.Some? then (m, Ok(m.cache.value)) else LoadResult(disk, m, read);
    if loaded.Ok? && Current(loaded.value, id, revision).Ok? {
      FencedDurableRefused(disk, m1, id, revision, Current(loaded.value, id, revision).value, phase, cancelled, reread);
    }
  }

  /** Once superseded, a manager that does not claim the job anew never again gets a
      claim-requiring transition or a barrier past the authority, whatever else happens. */
  lemma {:induction false} SupersededForever(states: seq<System>, events: seq<Event>, i: nat, j: nat, who: nat,
                                             id: JobId,
                          revision: int, phase: Phase, facts: Facts, cancelled: bool,
                          now: Time, read: ReadIo, save: SaveIo, reread: ReadIo)
    requires Run(states, events) && i <= j < |states| && Fenced(states[i], who, id)
    requires forall k :: i <= k < j ==>
      !(events[k].Ask? && events[k].who == who && events[k].request.Claim? && events[k].request.id == id)
    ensures Fenced(states[j], who, id)
    ensures var s := states[j];
      && ((id in s.disk.Contents() ==> s.disk.Contents()[id].phase != HealthyUnclaimed) ==>
            Perform(s.disk, s.managers[who], Move(id, revision, phase, facts), now, read, save).answer.Err?)
      && Verify(s.disk, s.managers[who], id, revision, phase, cancelled, read, reread).answer.Err?
    decreases j
  {
    if i < j {
      SupersededForever(states, events, i, j - 1, who, id, revision, phase, facts, cancelled, now, read, save, reread);
      InvAlways(states, events, j - 1);
      NextKeepsFence(states[j - 1], events[j - 1], states[j], who, id);
    }
    InvAlways(states, events, j);
    var s := states[j];
    if id in s.disk.Contents() ==> s.disk.Contents()[id].phase != HealthyUnclaimed {
      FencedCannotMove(s.disk, s.managers[who], id, revision, phase, facts, now, read, save);
    }
    FencedCannotVerify(s.disk, s.managers[who], id, revision, phase, cancelled, read, reread);
  }

  // ----- one manager alone -----

  /** Memory is dropped or equal to disk, and every held claim names a live receipt at that generation. */
  ghost predicate Coherent(disk: Disk, m: Memory) {
    if m.cache.None? then m.claims == map[]
    else m.cache.value == disk.Contents() && m.claims == LiveClaims(m.claims, disk.Contents())
  }

  lemma SaveCoherent(disk: Disk, m: Memory, jobs: Jobs, io: SaveIo)
    ensures var (after, m2, saved) := SaveResult(disk, m, jobs, io);
      Coherent(after, m2) && (saved.Ok? ==> StoreOk(jobs) && after == Holding(jobs) && m2.cache == Some(jobs))
  {}

  lemma WonClaimCoherent(jobs: Jobs, m: Memory, id: JobId)
    requires Coherent(Holding(jobs), m) && m.cache == Some(jobs)
    requires id in jobs && !jobs[id].IsTerminal() && jobs[id].phase != HealthyUnclaimed
    ensures Coherent(Holding(jobs), m.(claims := m.claims[id := jobs[id].executorGeneration]))
  {}

  lemma ConcludeCoherent(disk: Disk, m: Memory, plan: Plan, rq: Request, save: SaveIo)
    requires GoodPlan(disk.Contents(), rq, plan) && Coherent(disk, m)
    ensures var o := ConcludeResult(disk, m, plan, rq.Claim?, save); Coherent(o.disk, o.memory)
  {
    if plan.Write? {
      SaveCoherent(disk, m, plan.jobs, save);
      var (after, m2, saved) := SaveResult(disk, m, plan.jobs, save);
      if saved.Ok? && plan.id in plan.jobs && rq.Claim? && !plan.jobs[plan.id].IsTerminal() {
        WonClaimCoherent(plan.jobs, m2, plan.id);
      }
    }
  }

  lemma PerformCoherent(disk: Disk, m: Memory, rq: Request, now: Time, read: ReadIo, save: SaveIo)
    requires DiskOk(disk) && Coherent(disk, m)
    ensures var o := Perform(disk, m, rq, now, read, save); Coherent(o.disk, o.memory)
  {
    LoadEffect(disk, m, read);
    var (m1, loaded) := LoadResult(disk, m, read);
    if Wellformed(rq) && loaded.Ok? {
      PlanIsGood(disk.Contents(), m1.claims, rq, now);
      ConcludeCoherent(disk, m1, PlanOf(disk.Contents(), m1.claims, rq, now), rq, save);
    }
  }

  lemma DurableCoherent(disk: Disk, m: Memory, id: JobId, revision: int, remembered: Receipt, phase: Phase,
                        cancelled: bool, reread: ReadIo)
    requires Coherent(disk, m)
    ensures Coherent(disk, VerifyDurable(disk, m, id, revision, remembered, phase, cancelled, reread).memory)
  {}

  lemma VerifyCoherent(disk: Disk, m: Memory, id: JobId, revision: int, phase: Phase, cancelled: bool,
                       read: ReadIo, reread: ReadIo)
    requires Coherent(disk, m)
    ensures Coherent(disk, Verify(disk, m, id, revision, phase, cancelled, read, reread).memory)
  {
    LoadEffect(disk, m, read);
    var (m1, loaded) := if m.cache.Some? then (m, Ok(m.cache.value)) else LoadResult(disk, m, read);
    if loaded.Ok? && Current(loaded.value, id, revision).Ok? {
      DurableCoherent(disk, m1, id, revision, Current(loaded.value, id, revision).value, phase, cancelled, reread);
    }
  }

  lemma NextCoherent(s: System, e: Event, t: System, who: nat)
    requires DiskOk(s.disk) && Next(s, e, t) && e.who == who
    requires who in s.managers ==> Coherent(s.disk, s.managers[who])
    ensures Coherent(t.disk, t.managers[who])
  {
    match e
    case Start(_) =>
    case Ask(_, rq, now, read, save) => PerformCoherent(s.disk, s.managers[who], rq, now, read, save);
    case Check(_, id, revision, phase, cancelled, read, reread) =>
      VerifyCoherent(s.disk, s.managers[who], id, revision, phase, cancelled, read, reread);
      VerifyKeepsClaims(s.disk, s.managers[who], id, revision, phase, cancelled, read, reread);
    case Look(_, read) => LoadEffect(s.disk, s.managers[who], read);
  }

  /** With no second writer, after any mix of good, failed and cancelled saves and restarts,
      the manager's memory is dropped or coherent with the disk. */
  lemma {:induction false} SoleManagerCoherent(states: seq<System>, events: seq<Event>, n: nat, who: nat)
    requires Run(states, events) && n < |states|
    requires forall k :: 0 <= k < |events| ==> events[k].who == who
    ensures who in states[n].managers ==> Coherent(states[n].disk, states[n].managers[who])
  {
    if n > 0 {
      SoleManagerCoherent(states, events, n - 1, who);
      InvAlways(states, events, n - 1);
      NextCoherent(states[n - 1], events[n - 1], states[n], who);
    }
  }
}
