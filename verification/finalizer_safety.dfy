/** What holds of every flow and the lease, whatever the order of entries, cancellations,
    removal, failed releases and callbacks, until a release is begun behind a working owner's
    back. */
module FinalizerSafety {
  import opened Wrappers
  import opened Finalizer

  // ----- the event that breaks it -----

  /** The task has not yet asked for its release. */
  predicate Working(pc: Pc) { !pc.Waiting? && !pc.Settling? }

  predicate OwnerWorks(w: Flow) {
    w.f.owner.Some? && w.f.owner.value in w.tasks && Working(w.tasks[w.f.owner.value])
  }

  /** A cancelled task that settles for an earlier lease, or the retry of an earlier lease's
      failed release, begins to release the lease the present owner is still working under. */
  predicate Undermines(w: Flow, e: Event) {
    match e
    case Runs(_, t, o, _, _) =>
      t in w.tasks && w.tasks[t].Settling? && w.tasks[t].guarded && o.Cancel?
      && OwnerWorks(w) && Begins(DropIfEnded(w, w.tasks[t].r).f)
    case Fires(_, _) =>
      w.queue != [] && w.queue[0].ReleaseDone? && OwnerWorks(w)
      && Retries(w.f, Lookup(w.releases, w.queue[0].r) == Some(Ended(false))) && Begins(SlotDropped(w.f, w.queue[0].r))
    case _ => false
  }

  // ----- the invariant of one flow -----

  predicate Finalizing(pc: Pc) { pc.Verifying? || pc.Rejecting? || pc.Creating? }

  ghost predicate NothingRuns(w: Flow) {
    forall r :: r in w.releases ==> !w.releases[r].Running?
  }

  ghost predicate LeaseOk(w: Flow, holds: bool) {
    && (holds ==> w.f.coords && w.f.executor)
    && (w.f.coords <==> w.f.owner.Some?)
  }

  predicate SlotKnown(w: Flow, r: ReleaseId) {
    r in w.releases && (w.releases[r].Running? || ReleaseDone(r) in w.queue)
  }

  ghost predicate ReleasesOk(w: Flow) {
    && (forall r :: r in w.releases ==> w.f.executor)
    && (forall r :: r in w.releases && w.releases[r].Running? ==> w.f.slot == Some(r) && w.f.coords)
    && (w.f.slot.Some? ==> SlotKnown(w, w.f.slot.value))
    && (forall c :: c in w.queue && c.ReleaseDone? ==> c.r in w.releases && w.releases[c.r].Ended?)
  }

  /** The slot's release is the youngest: its callback comes after every other release's. */
  ghost predicate SlotLast(w: Flow) {
    forall i, j :: 0 <= i < j < |w.queue| && w.queue[i].ReleaseDone? && w.f.slot == Some(w.queue[i].r) ==>
      !w.queue[j].ReleaseDone?
  }

  ghost predicate PcOk(w: Flow, holds: bool, t: TaskId)
    requires t in w.tasks
  {
    match w.tasks[t]
    case Waiting(r) => r in w.releases && w.f.owner != Some(t)
    case Settling(r, _) => r in w.releases
    case pc =>
      && w.f.owner == Some(t) && w.f.coords && NothingRuns(w)
      && (if pc.Loading? then w.releases == map[] else w.f.executor)
      && (Finalizing(pc) ==> holds)
  }

  ghost predicate TasksOk(w: Flow, holds: bool) {
    forall t :: t in w.tasks ==> PcOk(w, holds, t)
  }

  predicate MarkedByRemoval(w: Flow) {
    w.f.retryStarted || w.f.attempts > 0 || w.late || w.strays > 0 || OwnerDone in w.queue || w.watched.Some?
    || w.f.releaseAfter
  }

  ghost predicate RemovalOk(w: Flow) {
    && (MarkedByRemoval(w) ==> w.f.removed)
    && (w.watched.Some? ==> w.watched.value in w.tasks && !w.tasks[w.watched.value].Waiting?)
    && (w.watched.Some? && w.f.owner.Some? ==> w.f.owner == w.watched)
    && (OwnerDone in w.queue ==> !OwnerWorks(w))
  }

  ghost predicate Sound(w: Flow, holds: bool) {
    LeaseOk(w, holds) && ReleasesOk(w) && SlotLast(w) && TasksOk(w, holds) && RemovalOk(w)
  }

  // ----- how many releases a removed flow begins -----

  /** The callback of the failed release `r` is still queued. */
  predicate FailurePending(w: Flow, r: ReleaseId) {
    ReleaseDone(r) in w.queue && r in w.releases && w.releases[r] == Ended(false)
  }

  /** A failed release other than the one in the slot still has its callback to come. */
  ghost predicate Backlog(w: Flow) {
    exists r :: r in w.releases && FailurePending(w, r) && w.f.slot != Some(r)
  }

  /** The slot holds a release that has not succeeded. */
  predicate SlotLive(w: Flow) {
    w.f.slot.Some? && w.f.slot.value in w.releases && w.releases[w.f.slot.value] != Ended(true)
  }

  /** No task waits for the release in the slot. */
  ghost predicate SlotApart(w: Flow) {
    forall t :: t in w.tasks && !Working(w.tasks[t]) ==> w.f.slot != Some(w.tasks[t].r)
  }

  /** Releases begun after removal, but for the late one and those of tasks that own nothing. */
  function Due(w: Flow): int { w.f.attempts - w.strays - (if w.late then 1 else 0) }

  /** A release begun after removal is not yet retried; of two, the retry is as good as spent. */
  ghost predicate RetryLeft(w: Flow) {
    && (Due(w) >= 1 ==> SlotLive(w) || Backlog(w))
    && (Due(w) == 2 ==> SlotLive(w) && Backlog(w) && SlotApart(w))
  }

  ghost predicate Bounded(w: Flow) {
    && 0 <= Due(w) <= 2
    && (w.f.removed && w.f.coords && !w.f.retryStarted ==> RetryLeft(w))
    && (OwnerWorks(w) ==> Due(w) == 0)
    && (w.late && w.f.coords ==> w.f.retryStarted && !OwnerRuns(w))
  }

  ghost predicate FlowOk(w: Flow, holds: bool) { Sound(w, holds) && Bounded(w) }

  // ----- a release task ends -----

  lemma ReleasingKeeps(w: Flow, holds: bool, r: ReleaseId, ok: bool)
    requires FlowOk(w, holds) && r in w.releases && w.releases[r].Running?
    ensures FlowOk(ReleaseRuns(w, r, ok), holds && !ok)
  {
    var v := ReleaseRuns(w, r, ok);
    assert OwnerDone in v.queue <==> OwnerDone in w.queue;
    forall t | t in v.tasks ensures PcOk(v, holds && !ok, t) { assert PcOk(w, holds, t); }
    if Backlog(w) {
      var b :| b in w.releases && FailurePending(w, b) && w.f.slot != Some(b);
      assert FailurePending(v, b);
    }
  }

  // ----- asking for a release -----

  /** The three things asking can do. */
  lemma ScheduleIs(w: Flow, spare: ReleaseId)
    requires w.f.slot != Some(spare)
    ensures Schedule(w, spare) ==
      if Begins(w.f) then w.(f := Ensured(w.f, spare), releases := w.releases[spare := Running])
      else if w.f.slot.Some? then w else w.(f := Cleared(w.f))
  {}

  lemma SchedulingKeeps(w: Flow, holds: bool, spare: ReleaseId)
    requires Sound(w, holds) && spare !in w.releases && !OwnerWorks(w)
    ensures Sound(Schedule(w, spare), holds)
  {
    var v := Schedule(w, spare);
    ScheduleIs(w, spare);
    forall t | t in v.tasks ensures PcOk(v, holds, t) { assert PcOk(w, holds, t); }
  }

  /** One more release begun for a removed flow leaves only its retry. */
  lemma BeginningKeeps(w: Flow, holds: bool, spare: ReleaseId)
    requires FlowOk(w, holds) && spare !in w.releases && !OwnerWorks(w) && !w.f.retryStarted
    ensures FlowOk(Schedule(w, spare), holds)
  {
    var v := Schedule(w, spare);
    ScheduleIs(w, spare);
    SchedulingKeeps(w, holds, spare);
    if Begins(w.f) {
      if Backlog(w) {
        var b :| b in w.releases && FailurePending(w, b) && w.f.slot != Some(b);
        assert FailurePending(v, b);
      }
      forall t | t in v.tasks && !Working(v.tasks[t]) ensures v.f.slot != Some(v.tasks[t].r) {
        assert PcOk(w, holds, t);
      }
    }
  }

  lemma RemovingKeeps(w: Flow, holds: bool, spare: ReleaseId)
    requires FlowOk(w, holds) && spare !in w.releases
    ensures FlowOk(Remove(w, spare), holds)
  {
    if !w.f.removed {
      var v := w.(f := w.f.(removed := true));
      MarkingKeeps(w, holds, v);
      if w.f.coords && w.f.executor {
        if OwnerRuns(w) {
          assert PcOk(w, holds, w.f.owner.value);
          DeferringKeeps(w, holds, spare);
        } else {
          BeginningKeeps(v, holds, spare);
          assert Remove(w, spare) == Schedule(v, spare);
        }
      } else {
        assert Remove(w, spare) == v;
      }
    }
  }

  lemma MarkingKeeps(w: Flow, holds: bool, v: Flow)
    requires FlowOk(w, holds) && !w.f.removed && v == w.(f := w.f.(removed := true))
    ensures FlowOk(v, holds)
  {
    forall t | t in v.tasks ensures PcOk(v, holds, t) { assert PcOk(w, holds, t); }
  }

  /** A task of the flow waits for a lease it is to take over, not for its own. */
  lemma DeferringKeeps(w: Flow, holds: bool, spare: ReleaseId)
    requires FlowOk(w, holds) && !w.f.removed && w.f.coords && w.f.executor && OwnerRuns(w) && spare !in w.releases
    ensures FlowOk(Remove(w, spare), holds)
  {
    var v := Remove(w, spare);
    forall t | t in v.tasks ensures PcOk(v, holds, t) { assert PcOk(w, holds, t); }
  }

  // ----- callbacks -----

  /** The next callback taken off the queue and its release out of the slot. */
  function Popped(w: Flow): Flow
    requires w.queue != []
  {
    var v := w.(queue := w.queue[1..]);
    if w.queue[0].OwnerDone? then v else v.(f := SlotDropped(w.f, w.queue[0].r))
  }

  lemma PoppedQueue(w: Flow)
    requires w.queue != []
    ensures forall c :: c in Popped(w).queue ==> c in w.queue
    ensures forall c :: c in w.queue && c != w.queue[0] ==> c in Popped(w).queue
  {}

  lemma PoppingIsSound(w: Flow, holds: bool)
    requires Sound(w, holds) && w.queue != []
    ensures Sound(Popped(w), holds)
  {
    var v := Popped(w);
    PoppedQueue(w);
    assert w.queue[0] in w.queue;
    if v.f.slot.Some? { assert SlotKnown(w, v.f.slot.value); }
    forall t | t in v.tasks ensures PcOk(v, holds, t) { assert PcOk(w, holds, t); }
  }

  /** What is still to be retried, but for the popped callback itself. */
  lemma PoppingBacklog(w: Flow, holds: bool)
    requires Sound(w, holds) && w.queue != []
    ensures Backlog(w) && !(w.queue[0].ReleaseDone? && FailurePending(w, w.queue[0].r)) ==> Backlog(Popped(w))
    ensures w.queue[0].ReleaseDone? && w.f.slot == Some(w.queue[0].r) ==> !Backlog(w)
  {
    PoppedQueue(w);
    if Backlog(w) {
      var b :| b in w.releases && FailurePending(w, b) && w.f.slot != Some(b);
      if w.queue[0] != ReleaseDone(b) {
        assert FailurePending(Popped(w), b);
      }
      var j :| 0 <= j < |w.queue| && w.queue[j] == ReleaseDone(b);
    }
  }

  lemma FiringKeeps(w: Flow, holds: bool, spare: ReleaseId)
    requires FlowOk(w, holds) && w.queue != [] && spare !in w.releases && !Undermines(w, Fires(0, spare))
    ensures FlowOk(Fire(w, spare), holds)
  {
    PoppingIsSound(w, holds);
    PoppingBacklog(w, holds);
    if w.queue[0].OwnerDone? {
      OwnerDoneKeeps(w, holds, spare);
    } else {
      ReleaseDoneKeeps(w, holds, w.queue[0].r, spare);
    }
  }

  lemma OwnerDoneKeeps(w: Flow, holds: bool, spare: ReleaseId)
    requires FlowOk(w, holds) && w.queue != [] && w.queue[0].OwnerDone? && spare !in w.releases
    requires Sound(Popped(w), holds) && (Backlog(w) ==> Backlog(Popped(w)))
    ensures FlowOk(Fire(w, spare), holds)
  {
    var v := Popped(w);
    assert w.queue[0] in w.queue;
    if DefersTo(v.f) {
      BeginningKeeps(v, holds, spare);
      assert Fire(w, spare) == Schedule(v, spare);
    } else {
      assert Fire(w, spare) == v;
    }
  }

  lemma ReleaseDoneKeeps(w: Flow, holds: bool, r: ReleaseId, spare: ReleaseId)
    requires FlowOk(w, holds) && w.queue != [] && w.queue[0] == ReleaseDone(r) && spare !in w.releases
    requires !Undermines(w, Fires(0, spare)) && Sound(Popped(w), holds)
    requires Backlog(w) && !FailurePending(w, r) ==> Backlog(Popped(w))
    requires w.f.slot == Some(r) ==> !Backlog(w)
    ensures FlowOk(Fire(w, spare), holds)
  {
    var v := Popped(w);
    assert w.queue[0] in w.queue;
    if Retries(v.f, Lookup(v.releases, r) == Some(Ended(false))) {
      assert FailurePending(w, r);
      RetryingKeeps(w, holds, r, spare);
    } else {
      assert Fire(w, spare) == v;
    }
  }

  /** A failed release of a removed flow is retried once, and spends the retry either way. */
  lemma RetryingKeeps(w: Flow, holds: bool, r: ReleaseId, spare: ReleaseId)
    requires FlowOk(w, holds) && w.queue != [] && w.queue[0] == ReleaseDone(r) && spare !in w.releases
    requires !Undermines(w, Fires(0, spare)) && Sound(Popped(w), holds) && FailurePending(w, r)
    requires w.f.slot == Some(r) ==> !Backlog(w)
    requires Retries(Popped(w).f, Lookup(w.releases, r) == Some(Ended(false)))
    ensures FlowOk(Fire(w, spare), holds)
  {
    var v := Popped(w);
    var g := v.(f := v.f.(retryStarted := true));
    forall t | t in g.tasks ensures PcOk(g, holds, t) { assert PcOk(v, holds, t); }
    assert Sound(g, holds);
    assert Fire(w, spare) == Schedule(g, spare);
    ScheduleIs(g, spare);
    if Begins(g.f) {
      SchedulingKeeps(g, holds, spare);
      assert Due(w) <= 1;
    }
  }

  // ----- tasks -----

  /** A task ends without touching the flow's fields. */
  lemma FinishingKeeps(w: Flow, holds: bool, t: TaskId)
    requires FlowOk(w, holds)
    ensures FlowOk(Finish(w, t), holds)
  {
    var v := Finish(w, t);
    assert forall c :: c in v.queue <==> c in w.queue || (c == OwnerDone && w.watched == Some(t));
    forall u | u in v.tasks ensures PcOk(v, holds, u) { assert PcOk(w, holds, u); }
    if Backlog(w) {
      var b :| b in w.releases && FailurePending(w, b) && w.f.slot != Some(b);
      assert FailurePending(v, b);
    }
  }

  /** A task that waited for `r` takes an ended `r` out of the slot. */
  lemma DroppingKeeps(w: Flow, holds: bool, t: TaskId, r: ReleaseId)
    requires FlowOk(w, holds) && t in w.tasks && !Working(w.tasks[t]) && w.tasks[t].r == r
    ensures FlowOk(DropIfEnded(w, r), holds)
  {
    var v := DropIfEnded(w, r);
    assert PcOk(w, holds, t);
    forall u | u in v.tasks ensures PcOk(v, holds, u) { assert PcOk(w, holds, u); }
    if Backlog(w) {
      var b :| b in w.releases && FailurePending(w, b) && w.f.slot != Some(b);
      assert FailurePending(v, b);
    }
    if w.f.slot == Some(r) && w.releases[r] == Ended(false) {
      assert SlotKnown(w, r) && FailurePending(v, r);
    }
  }

  /** An ended release nobody waits for any more, found by an entering task. */
  lemma StaleDropKeeps(w: Flow, holds: bool, r: ReleaseId)
    requires FlowOk(w, holds) && !w.f.removed && w.f.slot == Some(r) && !SlotRuns(w)
    ensures FlowOk(w.(f := SlotDropped(w.f, r)), holds)
  {
    var v := w.(f := SlotDropped(w.f, r));
    assert SlotKnown(w, r);
    forall u | u in v.tasks ensures PcOk(v, holds, u) { assert PcOk(w, holds, u); }
  }

  /** The owner begins its own release, or finds nothing to begin. */
  lemma OwnerSchedules(w: Flow, holds: bool, t: TaskId, spare: ReleaseId)
    requires FlowOk(w, holds) && t in w.tasks && Working(w.tasks[t]) && spare !in w.releases
    ensures FlowOk(Finish(Schedule(w, spare), t), holds)
    ensures Begins(w.f) ==> forall guarded :: FlowOk(At(Schedule(w, spare), t, Settling(spare, guarded)), holds)
  {
    assert PcOk(w, holds, t);
    ScheduleIs(w, spare);
    if Begins(w.f) {
      forall guarded ensures FlowOk(At(Schedule(w, spare), t, Settling(spare, guarded)), holds) {
        SettlingBegins(w, holds, t, guarded, spare);
      }
      var v := At(Schedule(w, spare), t, Settling(spare, true));
      FinishingKeeps(v, holds, t);
      assert Finish(v, t) == Finish(Schedule(w, spare), t);
    } else if w.f.slot.Some? {
      FinishingKeeps(w, holds, t);
    } else {
      ForgettingKeeps(w, holds, t);
    }
  }

  lemma SettlingBegins(w: Flow, holds: bool, t: TaskId, guarded: bool, spare: ReleaseId)
    requires FlowOk(w, holds) && t in w.tasks && Working(w.tasks[t]) && spare !in w.releases && Begins(w.f)
    ensures FlowOk(At(Schedule(w, spare), t, Settling(spare, guarded)), holds)
  {
    var v := At(Schedule(w, spare), t, Settling(spare, guarded));
    assert PcOk(w, holds, t);
    ScheduleIs(w, spare);
    forall u | u in v.tasks ensures PcOk(v, holds, u) { assert PcOk(w, holds, u); }
    assert SlotLive(v);
  }

  /** Without an executor there was no lease; the reservation is dropped. */
  lemma ForgettingKeeps(w: Flow, holds: bool, t: TaskId)
    requires FlowOk(w, holds) && t in w.tasks && Working(w.tasks[t]) && !w.f.executor
    ensures FlowOk(Finish(w.(f := Cleared(w.f)), t), holds)
  {
    assert PcOk(w, holds, t);
    var v := Finish(w.(f := Cleared(w.f)), t);
    assert forall u :: u in w.tasks ==> PcOk(w, holds, u);
  }

  lemma ReleaseAndEndKeeps(w: Flow, holds: bool, t: TaskId, guarded: bool, spare: ReleaseId)
    requires FlowOk(w, holds) && t in w.tasks && Working(w.tasks[t]) && spare !in w.releases
    ensures FlowOk(ReleaseAndEnd(w, t, guarded, spare), holds)
  {
    assert PcOk(w, holds, t);
    ScheduleIs(w, spare);
    OwnerSchedules(w, holds, t, spare);
    if w.f.slot.Some? {
      assert SlotKnown(w, w.f.slot.value);
      StaleEnd(w, holds, t);
    }
  }

  /** The slot still holds an earlier release that is over: its result is taken as this one's. */
  lemma StaleEnd(w: Flow, holds: bool, t: TaskId)
    requires FlowOk(w, holds) && t in w.tasks && Working(w.tasks[t]) && w.f.slot.Some?
    ensures FlowOk(Finish(w.(f := SlotDropped(w.f, w.f.slot.value)), t), holds)
  {
    var r := w.f.slot.value;
    assert PcOk(w, holds, t) && SlotKnown(w, r);
    var v := w.(f := SlotDropped(w.f, r));
    forall u | u in v.tasks ensures PcOk(v, holds, u) { assert PcOk(w, holds, u); }
    assert OwnerWorks(w);
    FinishingKeeps(v, holds, t);
  }

  /** The owner goes on, possibly taking the lease or learning the executor. */
  lemma WorkGoesOn(w: Flow, holds: bool, v: Flow, holds1: bool, t: TaskId, pc: Pc)
    requires FlowOk(w, holds) && t in w.tasks && Working(w.tasks[t]) && Working(pc) && !pc.Loading?
    requires v == At(w, t, pc) || v == At(w.(f := w.f.(executor := true)), t, pc)
    requires (holds ==> holds1) && v.f.executor && (Finalizing(pc) ==> holds1)
    ensures FlowOk(v, holds1)
  {
    assert PcOk(w, holds, t);
    forall u | u in v.tasks ensures PcOk(v, holds1, u) { assert PcOk(w, holds, u); }
    if Backlog(w) {
      var b :| b in w.releases && FailurePending(w, b) && w.f.slot != Some(b);
      assert FailurePending(v, b);
    }
  }

  lemma ExecutorLearned(w: Flow, holds: bool)
    requires FlowOk(w, holds)
    ensures FlowOk(w.(f := w.f.(executor := true)), holds)
  {
    var v := w.(f := w.f.(executor := true));
    forall u | u in v.tasks ensures PcOk(v, holds, u) { assert PcOk(w, holds, u); }
    if Backlog(w) {
      var b :| b in w.releases && FailurePending(w, b) && w.f.slot != Some(b);
      assert FailurePending(v, b);
    }
  }

  /** A settling task is cancelled, and begins a release unless it may not. */
  lemma SettlingCancelled(w: Flow, holds: bool, t: TaskId, spare: ReleaseId)
    requires FlowOk(w, holds) && t in w.tasks && w.tasks[t].Settling? && spare !in w.releases
    requires !Undermines(w, Runs(0, t, Cancel, false, spare))
    ensures FlowOk(TaskRuns(w, t, Cancel, false, false, false, spare).0, holds)
  {
    var r := w.tasks[t].r;
    var v := DropIfEnded(w, r);
    DroppingKeeps(w, holds, t, r);
    assert PcOk(w, holds, t);
    var x := Finish(v, t);
    FinishingKeeps(v, holds, t);
    if w.tasks[t].guarded {
      GuardedCancel(w, holds, t, spare);
    }
  }

  lemma GuardedCancel(w: Flow, holds: bool, t: TaskId, spare: ReleaseId)
    requires FlowOk(w, holds) && t in w.tasks && w.tasks[t].Settling? && w.tasks[t].guarded && spare !in w.releases
    requires !Undermines(w, Runs(0, t, Cancel, false, spare))
    requires var v := DropIfEnded(w, w.tasks[t].r); FlowOk(v, holds) && FlowOk(Finish(v, t), holds)
    ensures FlowOk(Finish(Schedule(Marked(DropIfEnded(w, w.tasks[t].r), t), spare), t), holds)
  {
    var v := DropIfEnded(w, w.tasks[t].r);
    var x := Finish(v, t);
    if !Begins(v.f) {
      ScheduleIs(v, spare);
      ScheduleIs(x, spare);
      assert Finish(Schedule(v, spare), t) == Schedule(x, spare);
      if v.f.slot.None? { IdleSchedule(x, holds, spare); }
    } else if !v.f.removed || (v.f.owner == Some(t) && !v.f.retryStarted) {
      assert Finish(Schedule(v, spare), t) == Schedule(x, spare);
      CalmBeginning(x, holds, spare);
    } else {
      MarkedBeginning(v, holds, t, spare);
    }
  }

  /** With no coordinates there is nothing to begin and nothing more to forget. */
  lemma IdleSchedule(x: Flow, holds: bool, spare: ReleaseId)
    requires FlowOk(x, holds) && spare !in x.releases && x.f.slot.None? && !x.f.coords
    ensures FlowOk(Schedule(x, spare), holds)
  {
    var z := Schedule(x, spare);
    forall u | u in z.tasks ensures PcOk(z, holds, u) { assert PcOk(x, holds, u); }
  }

  lemma CalmBeginning(x: Flow, holds: bool, spare: ReleaseId)
    requires FlowOk(x, holds) && spare !in x.releases && Begins(x.f) && !OwnerWorks(x)
    requires x.f.removed ==> !x.f.retryStarted
    ensures FlowOk(Schedule(x, spare), holds)
  {
    BeginningKeeps(x, holds, spare);
  }

  /** A release beyond the bound: begun late by the owner, or by a task that owns nothing. */
  lemma MarkedBeginning(v: Flow, holds: bool, t: TaskId, spare: ReleaseId)
    requires FlowOk(v, holds) && t in v.tasks && !OwnerWorks(v) && spare !in v.releases && Begins(v.f) && v.f.removed
    requires v.tasks[t].Settling? && FlowOk(Finish(v, t), holds)
    requires v.f.owner != Some(t) || v.f.retryStarted
    ensures FlowOk(Finish(Schedule(Marked(v, t), spare), t), holds)
  {
    var x := Finish(v, t);
    var z := Finish(Schedule(Marked(v, t), spare), t);
    ScheduleIs(v, spare);
    SchedulingKeeps(x, holds, spare);
    assert v.f.owner == Some(t) ==> !v.late by {
      if v.f.owner == Some(t) && v.late { assert OwnerRuns(v); }
    }
    assert z == Schedule(x, spare).(late := z.late, strays := z.strays);
    forall u | u in z.tasks ensures PcOk(z, holds, u) { assert PcOk(Schedule(x, spare), holds, u); }
    if Backlog(v) {
      var b :| b in v.releases && FailurePending(v, b) && v.f.slot != Some(b);
      assert FailurePending(z, b);
    }
  }

  // ----- entering -----

  /** Nothing remembered: the flow reserves itself for `t`. */
  lemma ReservingKeeps(w: Flow, holds: bool, t: TaskId)
    requires FlowOk(w, holds) && !w.f.coords && !w.f.removed && w.watched != Some(t)
    requires t in w.tasks ==> w.tasks[t].Waiting?
    ensures FlowOk(Reserve(w, t), holds)
  {
    var v := Reserve(w, t);
    forall u | u in v.tasks ensures PcOk(v, holds, u) {
      if u != t { assert PcOk(w, holds, u); }
    }
  }

  lemma EnteringOnKeeps(w: Flow, holds: bool, t: TaskId)
    requires FlowOk(w, holds) && w.watched != Some(t)
    requires t in w.tasks ==> w.tasks[t].Waiting?
    ensures FlowOk(EnterOn(w, t), holds)
  {
    if w.f.coords || w.f.removed {
      FinishingKeeps(w, holds, t);
    } else {
      ReservingKeeps(w, holds, t);
    }
  }

  lemma EnteringKeeps(w: Flow, holds: bool, t: TaskId, spare: ReleaseId)
    requires FlowOk(w, holds) && t !in w.tasks && w.f.owner != Some(t) && w.watched != Some(t)
    requires spare !in w.releases
    ensures FlowOk(Enter(w, t, spare), holds)
  {
    if w.f.removed || OwnerRuns(w) || SlotRuns(w) {
    } else if w.f.owner.None? {
      ReservingKeeps(w, holds, t);
    } else if w.f.slot.Some? {
      var r := w.f.slot.value;
      assert SlotKnown(w, r);
      StaleDropKeeps(w, holds, r);
      EnteringOnKeeps(w.(f := SlotDropped(w.f, r)), holds, t);
    } else {
      EnteringReleases(w, holds, t, spare);
    }
  }

  /** A remembered lease is released first. */
  lemma EnteringReleases(w: Flow, holds: bool, t: TaskId, spare: ReleaseId)
    requires FlowOk(w, holds) && t !in w.tasks && w.f.owner != Some(t) && w.watched != Some(t)
    requires !w.f.removed && w.f.owner.Some? && !OwnerRuns(w) && w.f.slot.None? && spare !in w.releases
    ensures FlowOk(Enter(w, t, spare), holds)
  {
    var v := Schedule(w, spare);
    ScheduleIs(w, spare);
    BeginningKeeps(w, holds, spare);
    if Begins(w.f) {
      WaitingBegins(v, holds, t, spare);
    } else {
      EnteringOnKeeps(v, holds, t);
    }
  }

  lemma WaitingBegins(v: Flow, holds: bool, t: TaskId, r: ReleaseId)
    requires FlowOk(v, holds) && t !in v.tasks && v.f.owner != Some(t) && !v.f.removed
    requires r in v.releases && !OwnerRuns(v)
    ensures FlowOk(At(v, t, Waiting(r)), holds)
  {
    var x := At(v, t, Waiting(r));
    forall u | u in x.tasks ensures PcOk(x, holds, u) {
      if u != t { assert PcOk(v, holds, u); }
    }
  }

  // ----- one stretch of any task -----

  lemma WaitingKeeps(w: Flow, holds: bool, t: TaskId, o: Outcome, free: bool, configured: bool, spare: ReleaseId)
    requires FlowOk(w, holds) && t in w.tasks && w.tasks[t].Waiting?
    ensures FlowOk(TaskRuns(w, t, o, free, holds, configured, spare).0, holds)
  {
    var r := w.tasks[t].r;
    DroppingKeeps(w, holds, t, r);
    FinishingKeeps(DropIfEnded(w, r), holds, t);
    if !o.Cancel? && Woken(w, r) && w.releases[r] == Ended(true) {
      EnteringOnKeeps(DropIfEnded(w, r), holds, t);
    }
  }

  lemma AcquiringKeeps(w: Flow, holds: bool, t: TaskId, o: Outcome, free: bool, configured: bool, spare: ReleaseId)
    requires FlowOk(w, holds) && t in w.tasks && w.tasks[t].Acquiring? && spare !in w.releases
    ensures var next := TaskRuns(w, t, o, free, holds, configured, spare);
      FlowOk(next.0, holds || next.1)
  {
    assert PcOk(w, holds, t);
    var takes := o.Good? && (free || holds);
    if o.Cancel? {
      OwnerSchedules(w, holds, t, spare);
    } else {
      WorkGoesOn(w, holds, At(w, t, Acquiring), holds || takes, t, Acquiring);
      assert At(w, t, Acquiring) == w;
      if takes && !w.f.removed && !configured {
        WorkGoesOn(w, holds, At(w, t, Verifying), true, t, Verifying);
      } else {
        ReleaseAndEndKeeps(w, holds || takes, t, true, spare);
      }
    }
  }

  lemma WorkingKeeps(w: Flow, holds: bool, t: TaskId, o: Outcome, free: bool, configured: bool, spare: ReleaseId)
    requires FlowOk(w, holds) && t in w.tasks && Working(w.tasks[t]) && !w.tasks[t].Acquiring? && spare !in w.releases
    ensures FlowOk(TaskRuns(w, t, o, free, holds, configured, spare).0, holds)
  {
    assert PcOk(w, holds, t);
    FinishingKeeps(w, holds, t);
    OwnerSchedules(w, holds, t, spare);
    ReleaseAndEndKeeps(w, holds, t, true, spare);
    ReleaseAndEndKeeps(w, holds, t, false, spare);
    if w.tasks[t].Loading? {
      WorkGoesOn(w, holds, At(w.(f := w.f.(executor := true)), t, Acquiring), holds, t, Acquiring);
    } else {
      WorkGoesOn(w, holds, At(w, t, Rejecting), holds, t, Rejecting);
      WorkGoesOn(w, holds, At(w, t, Creating), holds, t, Creating);
    }
  }

  lemma TaskKeeps(w: Flow, holds: bool, t: TaskId, o: Outcome, free: bool, configured: bool, spare: ReleaseId)
    requires FlowOk(w, holds) && t in w.tasks && spare !in w.releases
    requires !Undermines(w, Runs(0, t, o, configured, spare))
    ensures var next := TaskRuns(w, t, o, free, holds, configured, spare);
      FlowOk(next.0, holds || next.1) && (next.1 ==> free || holds)
  {
    match w.tasks[t]
    case Waiting(r) => WaitingKeeps(w, holds, t, o, free, configured, spare);
    case Acquiring => AcquiringKeeps(w, holds, t, o, free, configured, spare);
    case Settling(r, guarded) =>
      if o.Cancel? {
        SettlingCancelled(w, holds, t, spare);
      } else {
        DroppingKeeps(w, holds, t, r);
        FinishingKeeps(DropIfEnded(w, r), holds, t);
      }
    case _ => WorkingKeeps(w, holds, t, o, free, configured, spare);
  }
}
