/** The promises of the finalizer lease: they hold in every run that never releases a working
    owner's lease behind its back, and such a release does break them. */
module FinalizerResults {
  import opened Wrappers
  import opened Finalizer
  import opened FinalizerSafety

  ghost predicate SystemOk(s: System) {
    && (forall id :: id in s.flows ==> FlowOk(s.flows[id], s.lease == Some(id)))
    && (s.lease.Some? ==> s.lease.value in s.flows)
  }

  /** The event, if it happens, does not undermine a working owner. */
  predicate Calm(s: System, e: Event) {
    Enabled(s, e) ==> e.Opens? || !Undermines(s.flows[e.id], e)
  }

  /** No event of the run undermines a working owner. */
  predicate Orderly(events: seq<Event>)
    decreases |events|
  {
    |events| == 0
    || (Orderly(events[..|events| - 1]) && Calm(After(NOBODY, events[..|events| - 1]), events[|events| - 1]))
  }

  // ----- one step of all flows -----

  lemma IdleIsOk()
    ensures FlowOk(IDLE, false)
  {}

  /** A step of one flow that leaves the other flows and their hold on the lease alone. */
  lemma OneFlowMoves(s: System, s1: System, id: FlowId)
    requires SystemOk(s) && id in s1.flows && FlowOk(s1.flows[id], s1.lease == Some(id))
    requires forall j :: j != id ==> (j in s1.flows <==> j in s.flows) && (j in s.flows ==> s1.flows[j] == s.flows[j])
    requires s1.lease == s.lease || s1.lease == Some(id) || s1.lease.None?
    requires s1.lease != s.lease ==> s.lease.None? || s.lease == Some(id)
    ensures SystemOk(s1)
  {
    forall j | j in s1.flows ensures FlowOk(s1.flows[j], s1.lease == Some(j)) {
      if j != id {
        assert s1.lease == Some(j) <==> s.lease == Some(j);
      }
    }
  }

  lemma FlowMoves(s: System, e: Event)
    requires SystemOk(s) && Enabled(s, e) && !e.Opens? && Calm(s, e)
    ensures var s1 := Step(s, e);
      e.id in s1.flows && FlowOk(s1.flows[e.id], s1.lease == Some(e.id))
  {
    var w, holds := s.flows[e.id], s.lease == Some(e.id);
    match e
    case Enters(_, t, spare) => EnteringKeeps(w, holds, t, spare);
    case Runs(_, t, o, configured, spare) => TaskKeeps(w, holds, t, o, s.lease.None?, configured, spare);
    case Releases(_, r, ok) => ReleasingKeeps(w, holds, r, ok);
    case Fires(_, spare) => FiringKeeps(w, holds, spare);
    case Removed(_, spare) => RemovingKeeps(w, holds, spare);
    case ExecutorKnown(_) => ExecutorLearned(w, holds);
  }

  /** Only the flow's own lease moves, and only its own entry. */
  lemma StepIsLocal(s: System, e: Event)
    requires Enabled(s, e)
    ensures var s1 := Step(s, e);
      && e.id in s1.flows
      && (forall j :: j != e.id ==> (j in s1.flows <==> j in s.flows) && (j in s.flows ==> s1.flows[j] == s.flows[j]))
      && (s1.lease == s.lease || s1.lease == Some(e.id) || s1.lease.None?)
  {}

  lemma LeaseMoves(s: System, e: Event)
    requires SystemOk(s) && Enabled(s, e) && Calm(s, e)
    ensures Step(s, e).lease != s.lease ==> s.lease.None? || s.lease == Some(e.id)
  {
    if e.Runs? {
      TaskKeeps(s.flows[e.id], s.lease == Some(e.id), e.t, e.o, s.lease.None?, e.configured, e.spare);
    }
  }

  lemma StepKeeps(s: System, e: Event)
    requires SystemOk(s) && Enabled(s, e) && Calm(s, e)
    ensures SystemOk(Step(s, e))
  {
    if e.Opens? {
      IdleIsOk();
    } else {
      FlowMoves(s, e);
    }
    StepIsLocal(s, e);
    LeaseMoves(s, e);
    OneFlowMoves(s, Step(s, e), e.id);
  }

  lemma {:induction false} RunKeeps(events: seq<Event>)
    requires Orderly(events)
    ensures SystemOk(After(NOBODY, events))
    decreases |events|
  {
    if |events| > 0 {
      var before, e := events[..|events| - 1], events[|events| - 1];
      RunKeeps(before);
      if Enabled(After(NOBODY, before), e) {
        StepKeeps(After(NOBODY, before), e);
      }
    }
  }

  // ----- the lease -----

  ghost predicate FinalizesIn(s: System, id: FlowId, t: TaskId) {
    id in s.flows && t in s.flows[id].tasks && Finalizing(s.flows[id].tasks[t])
  }

  /** Two tasks verifying, rejecting or creating at once are the same task of the same flow. */
  lemma {:induction false} OneFinalizerAtATime(events: seq<Event>, a: FlowId, t: TaskId, b: FlowId, u: TaskId)
    requires Orderly(events)
    requires FinalizesIn(After(NOBODY, events), a, t) && FinalizesIn(After(NOBODY, events), b, u)
    ensures a == b && t == u && After(NOBODY, events).lease == Some(a)
  {
    RunKeeps(events);
    var s := After(NOBODY, events);
    assert PcOk(s.flows[a], s.lease == Some(a), t) && PcOk(s.flows[b], s.lease == Some(b), u);
  }

  /** A flow that holds the lease still knows whose it is: it can always give it back. */
  lemma {:induction false} HeldIsRemembered(events: seq<Event>, id: FlowId)
    requires Orderly(events) && After(NOBODY, events).lease == Some(id)
    ensures var s := After(NOBODY, events);
      id in s.flows && s.flows[id].f.coords && s.flows[id].f.executor && s.flows[id].f.owner.Some?
  {
    RunKeeps(events);
  }

  // ----- the releases of a removed flow -----

  /** A guarded settling task is cancelled where that begins a release of the removed flow. */
  predicate CancelBegins(w: Flow, e: Event) {
    && e.Runs? && e.o.Cancel? && e.t in w.tasks && w.tasks[e.t].Settling? && w.tasks[e.t].guarded
    && w.f.removed && Begins(DropIfEnded(w, w.tasks[e.t].r).f)
  }

  /** The owner begins it, after the one retry was spent. */
  predicate LateBegins(w: Flow, e: Event) {
    CancelBegins(w, e) && w.f.owner == Some(e.t) && w.f.retryStarted
  }

  /** A task begins it that no longer owns anything. */
  predicate StrayBegins(w: Flow, e: Event) {
    CancelBegins(w, e) && w.f.owner != Some(e.t)
  }

  /** What one event does to the marks and the count of its flow. */
  predicate Counts(w: Flow, v: Flow, late: bool, stray: bool, begins: bool) {
    && (v.late <==> w.late || late)
    && v.strays == w.strays + (if stray then 1 else 0)
    && w.f.attempts <= v.f.attempts <= w.f.attempts + 1
    && (begins ==> v.f.attempts == w.f.attempts + 1)
  }

  lemma ScheduleCounts(w: Flow, spare: ReleaseId)
    ensures Counts(w, Schedule(w, spare), false, false, w.f.removed && Begins(w.f))
    ensures Schedule(w, spare).f.removed == w.f.removed
  {}

  /** The guarded cancel of a settling task is the only stretch that marks anything. */
  lemma CancelCounts(w: Flow, e: Event)
    requires e.Runs? && e.t in w.tasks && w.tasks[e.t].Settling? && w.tasks[e.t].guarded && e.o.Cancel?
    ensures Counts(w, TaskRuns(w, e.t, Cancel, false, false, false, e.spare).0, LateBegins(w, e), StrayBegins(w, e),
                   CancelBegins(w, e))
  {
    var v := DropIfEnded(w, w.tasks[e.t].r);
    assert v.f.retryStarted == w.f.retryStarted && v.f.owner == w.f.owner;
    ScheduleCounts(Marked(v, e.t), e.spare);
  }

  lemma EndCounts(w: Flow, t: TaskId, guarded: bool, spare: ReleaseId)
    ensures Counts(w, ReleaseAndEnd(w, t, guarded, spare), false, false, false)
    ensures Counts(w, Finish(Schedule(w, spare), t), false, false, false)
  {
    ScheduleCounts(w, spare);
  }

  lemma OtherCounts(w: Flow, t: TaskId, o: Outcome, free: bool, mine: bool, configured: bool, spare: ReleaseId)
    requires t in w.tasks && !(w.tasks[t].Settling? && w.tasks[t].guarded && o.Cancel?)
    ensures Counts(w, TaskRuns(w, t, o, free, mine, configured, spare).0, false, false, false)
  {
    match w.tasks[t]
    case Waiting(r) => WaitCounts(w, t, r);
    case Settling(r, _) => WaitCounts(w, t, r);
    case Creating => EndCounts(w, t, false, spare);
    case _ => EndCounts(w, t, true, spare);
  }

  lemma WaitCounts(w: Flow, t: TaskId, r: ReleaseId)
    ensures Counts(w, Finish(DropIfEnded(w, r), t), false, false, false)
    ensures Counts(w, EnterOn(DropIfEnded(w, r), t), false, false, false)
  {}

  lemma EnterCounts(w: Flow, t: TaskId, spare: ReleaseId)
    ensures Counts(w, Enter(w, t, spare), false, false, false)
  {
    ScheduleCounts(w, spare);
  }

  /** The two history marks say exactly that. */
  lemma MarksCount(s: System, e: Event)
    requires Enabled(s, e) && !e.Opens?
    ensures var w := s.flows[e.id];
      Counts(w, Step(s, e).flows[e.id], LateBegins(w, e), StrayBegins(w, e), CancelBegins(w, e))
  {
    var w := s.flows[e.id];
    if e.Runs? {
      TaskMarks(s, e);
    } else if e.Enters? {
      EnterCounts(w, e.t, e.spare);
    }
  }

  lemma TaskMarks(s: System, e: Event)
    requires Enabled(s, e) && e.Runs?
    ensures var w := s.flows[e.id];
      Counts(w, Step(s, e).flows[e.id], LateBegins(w, e), StrayBegins(w, e), CancelBegins(w, e))
  {
    var w := s.flows[e.id];
    if w.tasks[e.t].Settling? && w.tasks[e.t].guarded && e.o.Cancel? {
      CancelCounts(w, e);
    } else {
      OtherCounts(w, e.t, e.o, s.lease.None?, s.lease == Some(e.id), e.configured, e.spare);
    }
  }

  /** After a late release nothing but a stray one is begun. */
  lemma LateIsLast(s: System, e: Event)
    requires SystemOk(s) && Enabled(s, e) && !e.Opens? && s.flows[e.id].late
    requires !StrayBegins(s.flows[e.id], e)
    ensures Step(s, e).flows[e.id].f.attempts == s.flows[e.id].f.attempts
  {
    var w := s.flows[e.id];
    match e
    case Runs(id, _, _, _, _) => LateTask(w, s.lease == Some(id), e, s.lease.None?);
    case Fires(_, spare) => assert Fire(w, spare).f.attempts == w.f.attempts;
    case _ =>
  }

  lemma LateTask(w: Flow, holds: bool, e: Event, free: bool)
    requires FlowOk(w, holds) && w.late && e.Runs? && e.t in w.tasks && e.spare !in w.releases && !StrayBegins(w, e)
    ensures TaskRuns(w, e.t, e.o, free, holds, e.configured, e.spare).0.f.attempts == w.f.attempts
  {
    assert PcOk(w, holds, e.t);
  }

  /** Of a flow without stray releases, the third release begins exactly when its owner is
      cancelled while settling, the retry is spent and two releases have been begun. */
  lemma ThirdBeginsIff(s: System, e: Event)
    requires SystemOk(s) && Enabled(s, e) && !e.Opens? && Calm(s, e)
    requires s.flows[e.id].strays == 0 && !StrayBegins(s.flows[e.id], e) && s.flows[e.id].f.attempts <= 2
    ensures Step(s, e).flows[e.id].f.attempts == 3 <==>
      LateBegins(s.flows[e.id], e) && s.flows[e.id].f.attempts == 2
  {
    MarksCount(s, e);
    FlowMoves(s, e);
    if s.flows[e.id].late { LateIsLast(s, e); }
  }

  /** A removed flow begins at most two releases, one more if its owner was cancelled late, and
      one more for each begun by a task that no longer owned anything. */
  lemma {:induction false} RemovedReleasesBounded(events: seq<Event>, id: FlowId)
    requires Orderly(events) && id in After(NOBODY, events).flows
    ensures var w := After(NOBODY, events).flows[id];
      w.f.attempts <= 2 + (if w.late then 1 else 0) + w.strays && (!w.f.removed ==> w.f.attempts == 0)
  {
    RunKeeps(events);
  }

  /** Event `i` of the run happens to flow `id` and begins a stray release. */
  predicate StrayAt(events: seq<Event>, id: FlowId, i: nat) {
    && i < |events| && events[i].id == id && !events[i].Opens? && Enabled(After(NOBODY, events[..i]), events[i])
    && StrayBegins(After(NOBODY, events[..i]).flows[id], events[i])
  }

  /** Event `i` of the run happens to flow `id` and begins a late third release. */
  predicate ThirdAt(events: seq<Event>, id: FlowId, i: nat) {
    && i < |events| && events[i].id == id && !events[i].Opens? && Enabled(After(NOBODY, events[..i]), events[i])
    && LateBegins(After(NOBODY, events[..i]).flows[id], events[i])
    && After(NOBODY, events[..i]).flows[id].f.attempts == 2
  }

  lemma {:induction false} NoStrays(events: seq<Event>, id: FlowId)
    requires id in After(NOBODY, events).flows && forall i :: !StrayAt(events, id, i)
    ensures After(NOBODY, events).flows[id].strays == 0
    decreases |events|
  {
    var n := |events| - 1;
    var before, e := events[..n], events[n];
    var s := After(NOBODY, before);
    PrefixEvents(events, id);
    if Enabled(s, e) { StepIsLocal(s, e); }
    if id in s.flows {
      NoStrays(before, id);
      if Enabled(s, e) && !e.Opens? && e.id == id {
        assert !StrayAt(events, id, n);
        MarksCount(s, e);
      }
    }
  }

  lemma PrefixEvents(events: seq<Event>, id: FlowId)
    requires |events| > 0
    ensures var n := |events| - 1;
      forall i: nat :: i < n ==> (StrayAt(events[..n], id, i) <==> StrayAt(events, id, i))
                                 && (ThirdAt(events[..n], id, i) <==> ThirdAt(events, id, i))
  {
    var n := |events| - 1;
    forall i: nat | i < n ensures events[..n][..i] == events[..i] {}
  }

  /** In every orderly run without stray releases of the flow: at most three, and three exactly
      if its owner was at some point cancelled late with two releases begun. */
  lemma {:induction false} ThirdReleaseIff(events: seq<Event>, id: FlowId)
    requires Orderly(events) && id in After(NOBODY, events).flows && forall i :: !StrayAt(events, id, i)
    ensures After(NOBODY, events).flows[id].f.attempts <= 3
    ensures After(NOBODY, events).flows[id].f.attempts == 3 <==> exists i :: ThirdAt(events, id, i)
    decreases |events|
  {
    var n := |events| - 1;
    var before, e := events[..n], events[n];
    var s := After(NOBODY, before);
    PrefixEvents(events, id);
    RunKeeps(before);
    RemovedReleasesBounded(events, id);
    NoStrays(events, id);
    if Enabled(s, e) { StepIsLocal(s, e); }
    if id in s.flows {
      NoStrays(before, id);
      ThirdReleaseIff(before, id);
      LastEventCounts(events, id);
    } else {
      NeverBefore(events, id);
    }
  }

  /** What the last event adds to the count, and to the events that begin a third release. */
  lemma LastEventCounts(events: seq<Event>, id: FlowId)
    requires |events| > 0 && Orderly(events) && forall i :: !StrayAt(events, id, i)
    requires var s := After(NOBODY, events[..|events| - 1]);
      SystemOk(s) && id in s.flows && s.flows[id].strays == 0 && s.flows[id].f.attempts <= 3
    ensures var w := After(NOBODY, events[..|events| - 1]).flows[id];
      id in After(NOBODY, events).flows
      && (After(NOBODY, events).flows[id].f.attempts == 3 <==> w.f.attempts == 3 || ThirdAt(events, id, |events| - 1))
  {
    var n := |events| - 1;
    var e, s := events[n], After(NOBODY, events[..n]);
    assert !StrayAt(events, id, n);
    if Enabled(s, e) {
      StepIsLocal(s, e);
      if !e.Opens? && e.id == id {
        if s.flows[id].f.attempts <= 2 {
          ThirdBeginsIff(s, e);
        } else {
          assert s.flows[id].late;
          LateIsLast(s, e);
        }
      }
    }
  }

  lemma OnlyOpensOpen(s: System, e: Event, id: FlowId)
    requires Enabled(s, e) && id !in s.flows && id in Step(s, e).flows
    ensures e == Opens(id) && Step(s, e).flows[id] == IDLE
  {
    StepIsLocal(s, e);
  }

  /** A flow just opened has begun nothing, and nothing happened to it before. */
  lemma NeverBefore(events: seq<Event>, id: FlowId)
    requires |events| > 0 && id in After(NOBODY, events).flows && id !in After(NOBODY, events[..|events| - 1]).flows
    ensures After(NOBODY, events).flows[id].f.attempts == 0 && forall i :: !ThirdAt(events, id, i)
  {
    var n := |events| - 1;
    OnlyOpensOpen(After(NOBODY, events[..n]), events[n], id);
    forall i | ThirdAt(events, id, i) ensures false {
      ThirdNeedsFlow(events, id, i);
      NotYet(events, id, i);
    }
  }

  lemma ThirdNeedsFlow(events: seq<Event>, id: FlowId, i: nat)
    requires ThirdAt(events, id, i)
    ensures i < |events| && id in After(NOBODY, events[..i]).flows
  {}

  lemma NotYet(events: seq<Event>, id: FlowId, i: nat)
    requires i < |events| && id !in After(NOBODY, events[..|events| - 1]).flows
    ensures id !in After(NOBODY, events[..i]).flows
  {
    var before := events[..|events| - 1];
    assert before[..i] == events[..i];
    if id in After(NOBODY, events[..i]).flows { FlowsStay(before, i, id); }
  }

  lemma {:induction false} FlowsStay(events: seq<Event>, i: nat, id: FlowId)
    requires i <= |events| && id in After(NOBODY, events[..i]).flows
    ensures id in After(NOBODY, events).flows
    decreases |events|
  {
    if i == |events| {
      assert events[..i] == events;
    } else {
      var n := |events| - 1;
      assert events[..n][..i] == events[..i];
      FlowsStay(events[..n], i, id);
    }
  }
}
