/** The finalizer lease of one healthy install: config flows compete for it, are cancelled,
    removed, and must give it back even when a release fails.

    `Fields` are the flow object's own attributes; class FinalizerFlow updates them in place.
    Around them stand the flow's configure tasks, its release tasks, and the event loop's
    queue of done callbacks. */
module Finalizer {
  import opened Wrappers

  type FlowId = nat
  type TaskId = nat
  type ReleaseId = nat

  /** `coords`: the job id is remembered. `attempts` counts releases begun after removal. */
  datatype Fields = Fields(
    coords: bool, owner: Option<TaskId>, slot: Option<ReleaseId>, releaseAfter: bool, retryStarted: bool,
    removed: bool, executor: bool, attempts: nat)

  const NEW_FLOW := Fields(false, None, None, false, false, false, false, 0)

  // ----- the flow object -----

  function Cleared(f: Fields): Fields {
    f.(coords := false, owner := None, releaseAfter := false, retryStarted := false)
  }

  /** Whether asking for a release now starts a new release task. */
  predicate Begins(f: Fields) { f.slot.None? && f.coords && f.executor }

  /** One release task at a time; without an executor there is nothing to release. */
  function Ensured(f: Fields, spare: ReleaseId): Fields {
    if f.slot.Some? then f
    else if !f.coords || !f.executor then Cleared(f)
    else f.(slot := Some(spare), attempts := f.attempts + (if f.removed then 1 else 0))
  }

  function Reserved(f: Fields, t: TaskId): Fields {
    f.(coords := true, owner := Some(t), retryStarted := false)
  }

  function SlotDropped(f: Fields, r: ReleaseId): Fields {
    if f.slot == Some(r) then f.(slot := None) else f
  }

  /** The release task popped the lease and forgets the coordinates. */
  function Forgot(f: Fields): Fields { if f.coords then Cleared(f) else f }

  predicate Retries(f: Fields, failed: bool) {
    failed && f.removed && f.coords && !f.retryStarted
  }

  /** Done callback of a release task: a removed flow retries a failure once. */
  function ReleaseEnded(f: Fields, r: ReleaseId, failed: bool, spare: ReleaseId): Fields {
    var g := SlotDropped(f, r);
    if Retries(g, failed) then Ensured(g.(retryStarted := true), spare) else g
  }

  predicate DefersTo(f: Fields) { f.releaseAfter && f.slot.None? && !f.retryStarted }

  /** Done callback of the owner of a removed flow. */
  function OwnerEnded(f: Fields, spare: ReleaseId): Fields {
    if DefersTo(f) then Ensured(f, spare) else f
  }

  /** Removal defers the release to a running owner, or begins it. */
  function Removal(f: Fields, ownerRuns: bool, spare: ReleaseId): Fields {
    var g := f.(removed := true);
    if !f.coords || !f.executor then g
    else if ownerRuns then g.(releaseAfter := true)
    else Ensured(g, spare)
  }

  class FinalizerFlow {
    var coords: bool
    var owner: Option<TaskId>
    var slot: Option<ReleaseId>
    var releaseAfter: bool
    var retryStarted: bool
    var removed: bool
    var executor: bool
    var attempts: nat

    ghost function State(): Fields
      reads this
    {
      Fields(coords, owner, slot, releaseAfter, retryStarted, removed, executor, attempts)
    }

    constructor ()
      ensures State() == NEW_FLOW
    {
      coords, owner, slot, releaseAfter, retryStarted := false, None, None, false, false;
      removed, executor, attempts := false, false, 0;
    }

    method ClearFinalizerState()
      modifies this
      ensures State() == Cleared(old(State()))
    {
      coords, owner, releaseAfter, retryStarted := false, None, false, false;
    }

    /** The release task to wait for, if any; `begun` when it is a new one. */
    method EnsureReleaseTask(spare: ReleaseId) returns (task: Option<ReleaseId>, begun: bool)
      modifies this
      ensures State() == Ensured(old(State()), spare)
      ensures begun == Begins(old(State()))
      ensures task == slot
    {
      if slot.Some? { return slot, false; }
      if !coords || !executor {
        ClearFinalizerState();
        return None, false;
      }
      slot := Some(spare);
      if removed { attempts := attempts + 1; }
      return slot, true;
    }

    method Reserve(t: TaskId)
      modifies this
      ensures State() == Reserved(old(State()), t)
    {
      coords, owner, retryStarted := true, Some(t), false;
    }

    method DropSlot(r: ReleaseId)
      modifies this
      ensures State() == SlotDropped(old(State()), r)
    {
      if slot == Some(r) { slot := None; }
    }

    /** Begins at most the one retry of a removed flow, and never forgets the coordinates. */
    method ReleaseDone(r: ReleaseId, failed: bool, spare: ReleaseId)
      modifies this
      ensures State() == ReleaseEnded(old(State()), r, failed, spare)
      ensures old(executor) ==> coords == old(coords) && owner == old(owner)
      ensures attempts > old(attempts) ==> failed && removed && !old(retryStarted) && retryStarted
    {
      DropSlot(r);
      if failed && removed && coords && !retryStarted {
        retryStarted := true;
        var _, _ := EnsureReleaseTask(spare);
      }
    }

    /** Begins the deferred release exactly when it is still owed, and never beside another one. */
    method FinalizationDone(spare: ReleaseId)
      modifies this
      ensures State() == OwnerEnded(old(State()), spare)
      ensures old(slot).Some? || old(retryStarted) ==> State() == old(State())
      ensures old(executor) ==> (slot != old(slot) <==> old(DefersTo(State())) && old(coords))
    {
      if !releaseAfter { return; }
      if slot.Some? || retryStarted { return; }
      var _, _ := EnsureReleaseTask(spare);
    }

    /** `watch` asks for FinalizationDone once the owner ends; a release is never begun
        beside a running owner. */
    method Remove(ownerRuns: bool, spare: ReleaseId) returns (watch: bool)
      modifies this
      ensures State() == Removal(old(State()), ownerRuns, spare)
      ensures watch <==> old(coords) && old(executor) && ownerRuns && !old(releaseAfter)
      ensures removed && (ownerRuns ==> slot == old(slot) && coords == old(coords))
    {
      removed, watch := true, false;
      if coords && executor {
        if ownerRuns {
          if !releaseAfter {
            releaseAfter, watch := true, true;
          }
        } else {
          var _, _ := EnsureReleaseTask(spare);
        }
      }
    }
  }

  // ----- the flow among its tasks -----

  /** Where a configure task stands. Waiting and Settling wait for a release task;
      Settling is the owner's own last wait, `guarded` when its cancellation schedules a release. */
  datatype Pc =
    | Waiting(r: ReleaseId) | Loading | Acquiring | Verifying | Rejecting | Creating
    | Settling(r: ReleaseId, guarded: bool)

  datatype Release = Running | Ended(ok: bool)

  datatype Callback = ReleaseDone(r: ReleaseId) | OwnerDone

  /** `late`: an owner, cancelled while settling, began another release after the retry was spent.
      `strays` counts releases of the removed flow begun by tasks that no longer own it. */
  datatype Flow = Flow(
    f: Fields, tasks: map<TaskId, Pc>, releases: map<ReleaseId, Release>, queue: seq<Callback>,
    watched: Option<TaskId>, late: bool, strays: nat)

  const IDLE := Flow(NEW_FLOW, map[], map[], [], None, false, 0)

  predicate OwnerRuns(w: Flow) { w.f.owner.Some? && w.f.owner.value in w.tasks }

  predicate SlotRuns(w: Flow) {
    w.f.slot.Some? && w.f.slot.value in w.releases && w.releases[w.f.slot.value].Running?
  }

  /** The flow object becomes `f`; a release it began under the id `spare` runs. */
  function Follow(w: Flow, f: Fields, spare: ReleaseId): Flow {
    w.(f := f, releases := if f.slot == Some(spare) then w.releases[spare := Running] else w.releases)
  }

  /** `_ensure_finalizer_release_task`, with the new task running. */
  function Schedule(w: Flow, spare: ReleaseId): Flow { Follow(w, Ensured(w.f, spare), spare) }

  /** The task returns or raises; a watched owner's done callback is queued. */
  function Finish(w: Flow, t: TaskId): Flow {
    w.(tasks := w.tasks - {t}, queue := if w.watched == Some(t) then w.queue + [OwnerDone] else w.queue,
       watched := if w.watched == Some(t) then None else w.watched)
  }

  function At(w: Flow, t: TaskId, pc: Pc): Flow { w.(tasks := w.tasks[t := pc]) }

  /** The owner releases and then ends; a release task already over is not waited for. */
  function ReleaseAndEnd(w: Flow, t: TaskId, guarded: bool, spare: ReleaseId): Flow {
    var v := Schedule(w, spare);
    if v.f.slot.None? then Finish(v, t)
    else if SlotRuns(v) then At(v, t, Settling(v.f.slot.value, guarded))
    else Finish(v.(f := SlotDropped(v.f, v.f.slot.value)), t)
  }

  function Reserve(w: Flow, t: TaskId): Flow {
    At(w.(f := Reserved(w.f, t)), t, if w.f.executor then Acquiring else Loading)
  }

  /** After an earlier lease was released: go on only if nothing is remembered and not removed. */
  function EnterOn(w: Flow, t: TaskId): Flow {
    if w.f.coords || w.f.removed then Finish(w, t) else Reserve(w, t)
  }

  function Enter(w: Flow, t: TaskId, spare: ReleaseId): Flow {
    if w.f.removed then w
    else if w.f.owner.None? then Reserve(w, t)
    else if OwnerRuns(w) || SlotRuns(w) then w
    else
      var v := Schedule(w, spare);
      if v.f.slot.None? then EnterOn(v, t)
      else if SlotRuns(v) then At(v, t, Waiting(v.f.slot.value))
      else
        var u := v.(f := SlotDropped(v.f, v.f.slot.value));
        if v.f.slot.value in v.releases && v.releases[v.f.slot.value] == Ended(true) then EnterOn(u, t) else u
  }

  /** The wait for `r` may be over. Its done callback may still be queued: a release that is
      over before its caller comes to wait for it is not waited for. */
  predicate Woken(w: Flow, r: ReleaseId) { r in w.releases && w.releases[r].Ended? }

  function DropIfEnded(w: Flow, r: ReleaseId): Flow {
    if r in w.releases && w.releases[r].Ended? then w.(f := SlotDropped(w.f, r)) else w
  }

  /** Marks a release that the settling task `t` is about to begin for a removed flow. */
  function Marked(w: Flow, t: TaskId): Flow {
    if !Begins(w.f) || !w.f.removed then w
    else if w.f.owner != Some(t) then w.(strays := w.strays + 1)
    else w.(late := w.late || w.f.retryStarted)
  }

  datatype Outcome = Good | Retry | Reject | Error | Cancel

  /** One stretch of a task. `mine` and `free` describe the lease; the second result says
      whether the task takes it. */
  function TaskRuns(w: Flow, t: TaskId, o: Outcome, free: bool, mine: bool, configured: bool,
                    spare: ReleaseId): (Flow, bool)
    requires t in w.tasks
  {
    match w.tasks[t]
    case Waiting(r) =>
      if o.Cancel? then (Finish(DropIfEnded(w, r), t), false)
      else if !Woken(w, r) then (w, false)
      else if w.releases[r] == Ended(true) then (EnterOn(DropIfEnded(w, r), t), false)
      else (Finish(DropIfEnded(w, r), t), false)
    case Loading =>
      if o.Cancel? then (Finish(Schedule(w, spare), t), false)
      else if o.Good? then (At(w.(f := w.f.(executor := true)), t, Acquiring), false)
      else (ReleaseAndEnd(w, t, true, spare), false)
    case Acquiring =>
      if o.Cancel? then (Finish(Schedule(w, spare), t), false)
      else if o.Good? && (free || mine) then
        if w.f.removed || configured then (ReleaseAndEnd(w, t, true, spare), true)
        else (At(w, t, Verifying), true)
      else (ReleaseAndEnd(w, t, true, spare), false)
    case Verifying =>
      if o.Cancel? then (Finish(Schedule(w, spare), t), false)
      else if o.Reject? then (At(w, t, Rejecting), false)
      else if o.Good? && !w.f.removed && !configured then (At(w, t, Creating), false)
      else (ReleaseAndEnd(w, t, true, spare), false)
    case Rejecting =>
      if o.Cancel? then (Finish(Schedule(w, spare), t), false) else (ReleaseAndEnd(w, t, true, spare), false)
    case Creating =>
      // Error: the entry was never added, so nothing is consumed or released here
      if o.Error? || !w.f.coords then (Finish(w, t), false) else (ReleaseAndEnd(w, t, false, spare), false)
    case Settling(r, guarded) =>
      if o.Cancel? then
        var v := DropIfEnded(w, r);
        (Finish(if guarded then Schedule(Marked(v, t), spare) else v, t), false)
      else if Woken(w, r) then (Finish(DropIfEnded(w, r), t), false)
      else (w, false)
  }

  /** A release task ends: it gave the lease back and forgot it, or it failed and did neither. */
  function ReleaseRuns(w: Flow, r: ReleaseId, ok: bool): Flow {
    w.(f := if ok then Forgot(w.f) else w.f, releases := w.releases[r := Ended(ok)],
       queue := w.queue + [ReleaseDone(r)])
  }

  /** The next done callback runs. */
  function Fire(w: Flow, spare: ReleaseId): Flow
    requires w.queue != []
  {
    var v := w.(queue := w.queue[1..]);
    match w.queue[0]
    case OwnerDone => Follow(v, OwnerEnded(v.f, spare), spare)
    case ReleaseDone(r) => Follow(v, ReleaseEnded(v.f, r, Lookup(v.releases, r) == Some(Ended(false)), spare), spare)
  }

  /** Removal; a running owner is watched once. */
  function Remove(w: Flow, spare: ReleaseId): Flow {
    if w.f.removed then w
    else
      var v := Follow(w, Removal(w.f, OwnerRuns(w), spare), spare);
      if w.f.coords && w.f.executor && OwnerRuns(w) && !w.f.releaseAfter then v.(watched := w.f.owner) else v
  }

  // ----- all flows and the lease -----

  datatype System = System(lease: Option<FlowId>, flows: map<FlowId, Flow>)

  datatype Event =
    | Opens(id: FlowId)
    | Enters(id: FlowId, t: TaskId, spare: ReleaseId)
    | Runs(id: FlowId, t: TaskId, o: Outcome, configured: bool, spare: ReleaseId)
    | Releases(id: FlowId, r: ReleaseId, ok: bool)
    | Fires(id: FlowId, spare: ReleaseId)
    | Removed(id: FlowId, spare: ReleaseId)
    | ExecutorKnown(id: FlowId)

  predicate Enabled(s: System, e: Event) {
    if e.Opens? then e.id !in s.flows
    else e.id in s.flows && EnabledIn(s.flows[e.id], e)
  }

  /** Task and release ids are spare ones. */
  predicate EnabledIn(w: Flow, e: Event) {
    match e
    case Opens(_) => true
    case Enters(_, t, spare) => t !in w.tasks && w.f.owner != Some(t) && w.watched != Some(t) && spare !in w.releases
    case Runs(_, t, _, _, spare) => t in w.tasks && spare !in w.releases
    case Releases(_, r, _) => r in w.releases && w.releases[r].Running?
    case Fires(_, spare) => w.queue != [] && spare !in w.releases
    case Removed(_, spare) => spare !in w.releases
    case ExecutorKnown(_) => true
  }

  function Step(s: System, e: Event): System
    requires Enabled(s, e)
  {
    if e.Opens? then s.(flows := s.flows[e.id := IDLE])
    else
      var w := s.flows[e.id];
      match e
      case Enters(id, t, spare) => s.(flows := s.flows[id := Enter(w, t, spare)])
      case Runs(id, t, o, configured, spare) =>
        var next := TaskRuns(w, t, o, s.lease.None?, s.lease == Some(id), configured, spare);
        System(if next.1 then Some(id) else s.lease, s.flows[id := next.0])
      case Releases(id, r, ok) =>
        System(if ok && s.lease == Some(id) then None else s.lease, s.flows[id := ReleaseRuns(w, r, ok)])
      case Fires(id, spare) => s.(flows := s.flows[id := Fire(w, spare)])
      case Removed(id, spare) => s.(flows := s.flows[id := Remove(w, spare)])
      case ExecutorKnown(id) => s.(flows := s.flows[id := w.(f := w.f.(executor := true))])
  }

  function After(s: System, events: seq<Event>): System
    decreases |events|
  {
    if |events| == 0 then s
    else
      var before := After(s, events[..|events| - 1]);
      if Enabled(before, events[|events| - 1]) then Step(before, events[|events| - 1]) else before
  }

  const NOBODY := System(None, map[])
}
