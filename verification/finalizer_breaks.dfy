/** Where the finalizer lease does break: a release begun behind a working owner's back leads on
    to two finalizers at once or to a lease nobody remembers, and such releases are reachable,
    as is a third release of a removed flow. */
module FinalizerBreaks {
  import opened Wrappers
  import opened Finalizer
  import opened FinalizerSafety
  import opened FinalizerResults

  /** Tasks of two flows finalize the one receipt. */
  ghost predicate TwoFinalizers(s: System) {
    exists a, t, b, u :: a != b && FinalizesIn(s, a, t) && FinalizesIn(s, b, u)
  }

  /** The holder has forgotten what it holds. */
  predicate Orphaned(s: System) {
    s.lease.Some? && s.lease.value in s.flows && !s.flows[s.lease.value].f.coords
  }

  // ----- running on -----

  lemma Extend(events: seq<Event>, e: Event)
    requires Enabled(After(NOBODY, events), e)
    ensures After(NOBODY, events + [e]) == Step(After(NOBODY, events), e)
    ensures Orderly(events) && Calm(After(NOBODY, events), e) ==> Orderly(events + [e])
  {
    assert (events + [e])[..|events|] == events;
  }

  lemma Play(events: seq<Event>, e: Event) returns (more: seq<Event>)
    requires Enabled(After(NOBODY, events), e)
    ensures After(NOBODY, more) == Step(After(NOBODY, events), e)
    ensures events <= more && |more| == |events| + 1 && more[|events|] == e
    ensures Orderly(events) && Calm(After(NOBODY, events), e) ==> Orderly(more)
  {
    more := events + [e];
    Extend(events, e);
  }

  lemma {:induction false} SpareId(ids: set<nat>) returns (id: nat)
    ensures id !in ids && forall i :: i in ids ==> i < id
    decreases ids
  {
    if ids == {} {
      id := 0;
    } else {
      var i :| i in ids;
      var j := SpareId(ids - {i});
      assert forall k :: k in ids ==> k == i || k in ids - {i};
      id := if i < j then j else i + 1;
    }
  }

  // ----- what an undermined owner leads to -----

  /** With the lease free and one flow's task still finalizing, another flow starts to. */
  lemma AnotherFinalizes(events: seq<Event>, a: FlowId, t: TaskId) returns (more: seq<Event>)
    requires After(NOBODY, events).lease.None? && FinalizesIn(After(NOBODY, events), a, t)
    ensures events <= more && TwoFinalizers(After(NOBODY, more))
  {
    var b := SpareId(After(NOBODY, events).flows.Keys);
    more := Play(events, Opens(b));
    more := Play(more, ExecutorKnown(b));
    more := Play(more, Enters(b, 0, 0));
    assert After(NOBODY, more).flows[b].tasks == map[0 := Acquiring];
    more := Play(more, Runs(b, 0, Good, false, 0));
    assert FinalizesIn(After(NOBODY, more), b, 0);
    assert FinalizesIn(After(NOBODY, more), a, t);
  }

  /** A release succeeds under the holder's finalizing task. */
  lemma LeaseIsLost(events: seq<Event>, a: FlowId, t: TaskId, r: ReleaseId) returns (more: seq<Event>)
    requires FinalizesIn(After(NOBODY, events), a, t) && After(NOBODY, events).lease == Some(a)
    requires Lookup(After(NOBODY, events).flows[a].releases, r) == Some(Running)
    ensures events <= more && TwoFinalizers(After(NOBODY, more))
  {
    more := Play(events, Releases(a, r, true));
    assert FinalizesIn(After(NOBODY, more), a, t);
    more := AnotherFinalizes(more, a, t);
  }

  /** What the undermining event itself leaves: the owner where it was, and a release running. */
  lemma UnderminedState(s: System, e: Event)
    requires SystemOk(s) && Enabled(s, e) && !e.Opens? && Undermines(s.flows[e.id], e)
    ensures var w, s1 := s.flows[e.id], Step(s, e);
      && s1.lease == s.lease && e.id in s1.flows
      && var v := s1.flows[e.id];
         && v.f.owner == w.f.owner && OwnerWorks(v) && v.tasks[v.f.owner.value] == w.tasks[w.f.owner.value]
         && v.f.slot == Some(e.spare) && Lookup(v.releases, e.spare) == Some(Running)
         && v.f.coords && v.f.removed == w.f.removed
  {
    if e.Runs? {
      CancelState(s.flows[e.id], s.lease == Some(e.id), e);
    } else {
      assert s.flows[e.id].queue != [];
    }
  }

  lemma CancelState(w: Flow, holds: bool, e: Event)
    requires FlowOk(w, holds) && e.Runs? && Undermines(w, e) && e.spare !in w.releases
    ensures var v := TaskRuns(w, e.t, Cancel, false, false, false, e.spare).0;
      && v.f.owner == w.f.owner && OwnerWorks(v) && v.tasks[v.f.owner.value] == w.tasks[w.f.owner.value]
      && v.f.slot == Some(e.spare) && Lookup(v.releases, e.spare) == Some(Running)
      && v.f.coords && v.f.removed == w.f.removed
  {
    assert PcOk(w, holds, w.f.owner.value);
  }

  /** From every orderly run: undermining an owner whose flow has the lease, or may still take
      it, can go on to two finalizers or to a lease its holder has forgotten. */
  lemma UnderminingBreaks(events: seq<Event>, e: Event) returns (more: seq<Event>)
    requires Orderly(events) && Enabled(After(NOBODY, events), e) && !e.Opens?
    requires var s := After(NOBODY, events); Undermines(s.flows[e.id], e) && (s.lease.None? || s.lease == Some(e.id))
    ensures events + [e] <= more && (TwoFinalizers(After(NOBODY, more)) || Orphaned(After(NOBODY, more)))
    ensures var w := After(NOBODY, events).flows[e.id];
      Finalizing(w.tasks[w.f.owner.value]) ==> TwoFinalizers(After(NOBODY, more))
  {
    var s := After(NOBODY, events);
    var w := s.flows[e.id];
    RunKeeps(events);
    UnderminedState(s, e);
    WorkersAre(w, s.lease == Some(e.id), e);
    more := BreaksAfter(events, e, w.f.owner.value, w.tasks[w.f.owner.value]);
  }

  lemma BreaksAfter(events: seq<Event>, e: Event, t: TaskId, pc: Pc) returns (more: seq<Event>)
    requires Enabled(After(NOBODY, events), e) && (e.Runs? || e.Fires?)
    requires var s := Step(After(NOBODY, events), e);
      && (s.lease.None? || s.lease == Some(e.id)) && e.id in s.flows && Lookup(s.flows[e.id].tasks, t) == Some(pc)
      && (pc.Acquiring? || (Finalizing(pc) && s.lease == Some(e.id))) && s.flows[e.id].f.coords
      && s.flows[e.id].f.slot == Some(e.spare) && Lookup(s.flows[e.id].releases, e.spare) == Some(Running)
    ensures events + [e] <= more && (TwoFinalizers(After(NOBODY, more)) || Orphaned(After(NOBODY, more)))
    ensures Finalizing(pc) ==> TwoFinalizers(After(NOBODY, more))
  {
    var next := Play(events, e);
    more := UnderminedBreaks(next, e.id, t, e.spare);
    assert next == events + [e];
  }

  lemma WorkersAre(w: Flow, holds: bool, e: Event)
    requires FlowOk(w, holds) && Undermines(w, e)
    ensures w.tasks[w.f.owner.value].Acquiring? || (Finalizing(w.tasks[w.f.owner.value]) && holds)
  {
    assert PcOk(w, holds, w.f.owner.value);
    if e.Runs? { assert PcOk(w, holds, e.t); } else { assert w.queue[0] in w.queue; }
  }

  lemma UnderminedBreaks(events: seq<Event>, a: FlowId, t: TaskId, r: ReleaseId) returns (more: seq<Event>)
    requires var s := After(NOBODY, events);
      && (s.lease.None? || s.lease == Some(a)) && a in s.flows && t in s.flows[a].tasks
      && (s.flows[a].tasks[t].Acquiring? || (Finalizing(s.flows[a].tasks[t]) && s.lease == Some(a)))
      && s.flows[a].f.coords && s.flows[a].f.slot == Some(r) && Lookup(s.flows[a].releases, r) == Some(Running)
    ensures events <= more && (TwoFinalizers(After(NOBODY, more)) || Orphaned(After(NOBODY, more)))
    ensures Finalizing(After(NOBODY, events).flows[a].tasks[t]) ==> TwoFinalizers(After(NOBODY, more))
  {
    if After(NOBODY, events).flows[a].tasks[t].Acquiring? {
      more := AcquirerBreaks(events, a, t, r, After(NOBODY, events).flows[a].f.removed);
    } else {
      assert FinalizesIn(After(NOBODY, events), a, t);
      more := LeaseIsLost(events, a, t, r);
    }
  }

  /** The owner has yet to take the lease: it does so before the release succeeds, or, its flow
      being removed, just after. */
  lemma AcquirerBreaks(events: seq<Event>, a: FlowId, t: TaskId, r: ReleaseId, removed: bool)
      returns (more: seq<Event>)
    requires var s := After(NOBODY, events);
      && (s.lease.None? || s.lease == Some(a)) && a in s.flows && s.flows[a].f.removed == removed
      && Lookup(s.flows[a].tasks, t) == Some(Acquiring) && s.flows[a].f.coords
      && s.flows[a].f.slot == Some(r) && Lookup(s.flows[a].releases, r) == Some(Running)
    ensures events <= more && (TwoFinalizers(After(NOBODY, more)) || Orphaned(After(NOBODY, more)))
  {
    var spare := SpareId(After(NOBODY, events).flows[a].releases.Keys);
    if !removed {
      more := Play(events, Runs(a, t, Good, false, spare));
      assert FinalizesIn(After(NOBODY, more), a, t);
      more := LeaseIsLost(more, a, t, r);
    } else {
      more := Play(events, Releases(a, r, true));
      more := Play(more, Runs(a, t, Good, false, spare));
      ForgottenTake(After(NOBODY, events).flows[a], t, r, spare);
    }
  }

  lemma ForgottenTake(w: Flow, t: TaskId, r: ReleaseId, spare: ReleaseId)
    requires Lookup(w.tasks, t) == Some(Acquiring) && w.f.removed && w.f.coords && r in w.releases && r != spare
    requires w.f.slot == Some(r)
    ensures var v := ReleaseRuns(w, r, true);
      var next := TaskRuns(v, t, Good, true, false, false, spare);
      next.1 && !next.0.f.coords
  {}

  // ----- such events do happen -----

  /** One more event of a run in which there is only flow 0. */
  lemma PlayTo(events: seq<Event>, w: Flow, lease: Option<FlowId>, e: Event, w1: Flow, lease1: Option<FlowId>)
      returns (more: seq<Event>)
    requires Orderly(events) && After(NOBODY, events) == System(lease, map[0 := w])
    requires !e.Opens? && e.id == 0 && EnabledIn(w, e) && !Undermines(w, e)
    requires Step(System(lease, map[0 := w]), e).flows[0] == w1 && Step(System(lease, map[0 := w]), e).lease == lease1
    ensures Orderly(more) && After(NOBODY, more) == System(lease1, map[0 := w1])
  {
    more := Play(events, e);
    assert Step(System(lease, map[0 := w]), e).flows == map[0 := w1];
  }

  /** A flow that remembers the lease for its owner and is not removed. */
  function Owned(owner: TaskId, slot: Option<ReleaseId>, tasks: map<TaskId, Pc>, releases: map<ReleaseId, Release>,
                 queue: seq<Callback>): Flow {
    Flow(Fields(true, Some(owner), slot, false, false, false, true, 0), tasks, releases, queue, None, false, 0)
  }

  /** A flow that remembers nothing and is not removed. */
  function Unowned(slot: Option<ReleaseId>, tasks: map<TaskId, Pc>, releases: map<ReleaseId, Release>,
                   queue: seq<Callback>): Flow {
    Flow(Fields(false, None, slot, false, false, false, true, 0), tasks, releases, queue, None, false, 0)
  }

  const ACQUIRING := Owned(1, None, map[1 := Acquiring], map[], [])

  const VERIFYING := Owned(1, None, map[1 := Verifying], map[], [])

  lemma ReachAcquiring() returns (events: seq<Event>)
    ensures Orderly(events) && After(NOBODY, events) == System(None, map[0 := ACQUIRING])
  {
    events := Play([], Opens(0));
    assert After(NOBODY, events) == System(None, map[0 := IDLE]);
    events := PlayTo(events, IDLE, None, ExecutorKnown(0), Unowned(None, map[], map[], []), None);
    events := PlayTo(events, Unowned(None, map[], map[], []), None, Enters(0, 1, 10),
                     ACQUIRING, None);
  }

  const SETTLING := Owned(1, Some(10), map[1 := Settling(10, true)], map[10 := Running], [])

  /** Task 1 has taken the lease, found the address configured and settles on release 10. */
  lemma ReachSettling() returns (events: seq<Event>)
    ensures Orderly(events) && After(NOBODY, events) == System(Some(0), map[0 := SETTLING])
  {
    events := ReachAcquiring();
    events := PlayTo(events, ACQUIRING, None, Runs(0, 1, Good, true, 10),
                     SETTLING, Some(0));
  }

  const SUCCEEDED := Unowned(Some(10), map[1 := Settling(10, true)], map[10 := Ended(true)], [ReleaseDone(10)])

  const SUCCEEDING := Owned(2, Some(10), map[1 := Settling(10, true), 2 := Acquiring], map[10 := Ended(true)],
                            [ReleaseDone(10)])

  const SUCCESSOR := Owned(2, Some(10), map[1 := Settling(10, true), 2 := Verifying], map[10 := Ended(true)],
                           [ReleaseDone(10)])

  /** Release 10 succeeds; before task 1 wakes from it, task 2 reserves the flow, takes the
      lease and verifies. */
  lemma ReachSuccessor() returns (events: seq<Event>)
    ensures Orderly(events) && After(NOBODY, events) == System(Some(0), map[0 := SUCCESSOR])
  {
    events := ReachSettling();
    events := PlayTo(events, SETTLING, Some(0), Releases(0, 10, true), SUCCEEDED, None);
    events := PlayTo(events, SUCCEEDED, None, Enters(0, 2, 11), SUCCEEDING, None);
    events := PlayTo(events, SUCCEEDING, None, Runs(0, 2, Good, false, 11), SUCCESSOR, Some(0));
  }

  /** Task 1 is cancelled just then: its handler releases the lease of task 2, and a second flow
      finalizes beside it. */
  lemma SettlerBreaks() returns (events: seq<Event>)
    ensures TwoFinalizers(After(NOBODY, events))
  {
    var before := ReachSuccessor();
    var e := Runs(0, 1, Cancel, false, 11);
    assert Undermines(SUCCESSOR, e) by {
      assert DropIfEnded(SUCCESSOR, 10).f.slot == None;
    }
    events := UnderminingBreaks(before, e);
  }

  // ----- the retry of an earlier lease does it too -----

  lemma ReachCreating() returns (events: seq<Event>)
    ensures Orderly(events)
    ensures After(NOBODY, events) == System(Some(0), map[0 := Owned(1, None, map[1 := Creating], map[], [])])
  {
    events := ReachAcquiring();
    events := PlayTo(events, ACQUIRING, None, Runs(0, 1, Good, false, 10),
                     VERIFYING, Some(0));
    events := PlayTo(events, VERIFYING, Some(0), Runs(0, 1, Good, false, 10),
                     Owned(1, None, map[1 := Creating], map[], []), Some(0));
  }

  const CREATED := Owned(1, Some(10), map[1 := Settling(10, false)], map[10 := Running], [])

  const FAILED := Owned(1, Some(10), map[1 := Settling(10, false)], map[10 := Ended(false)], [ReleaseDone(10)])

  const ABANDONED := Owned(1, None, map[], map[10 := Ended(false)], [ReleaseDone(10)])

  lemma ReachFailed() returns (events: seq<Event>)
    ensures Orderly(events) && After(NOBODY, events) == System(Some(0), map[0 := FAILED])
  {
    events := ReachCreating();
    events := PlayTo(events, Owned(1, None, map[1 := Creating], map[], []), Some(0), Runs(0, 1, Good, false, 10),
                     CREATED, Some(0));
    events := PlayTo(events, CREATED, Some(0), Releases(0, 10, false), FAILED, Some(0));
  }

  /** Task 1 created its entry and is cancelled while release 10 fails. */
  lemma ReachAbandoned() returns (events: seq<Event>)
    ensures Orderly(events) && After(NOBODY, events) == System(Some(0), map[0 := ABANDONED])
  {
    events := ReachFailed();
    events := PlayTo(events, FAILED, Some(0), Runs(0, 1, Cancel, false, 11), ABANDONED, Some(0));
  }

  const BOTH_RELEASES: map<ReleaseId, Release> := map[10 := Ended(false), 11 := Ended(true)]

  const REPORTS := [ReleaseDone(10), ReleaseDone(11)]

  const REOPENING := Owned(1, Some(11), map[2 := Waiting(11)], map[10 := Ended(false), 11 := Running],
                           [ReleaseDone(10)])

  const REOPENED := Unowned(Some(11), map[2 := Waiting(11)], BOTH_RELEASES, REPORTS)

  const RETAKING := Owned(2, None, map[2 := Acquiring], BOTH_RELEASES, REPORTS)

  lemma ReachReopening() returns (events: seq<Event>)
    ensures Orderly(events) && After(NOBODY, events) == System(Some(0), map[0 := REOPENING])
  {
    events := ReachAbandoned();
    events := PlayTo(events, ABANDONED, Some(0), Enters(0, 2, 11), REOPENING, Some(0));
  }

  /** Task 2 releases the lease and reserves it anew before release 10 is reported. */
  lemma ReachRetaking() returns (events: seq<Event>)
    ensures Orderly(events) && After(NOBODY, events) == System(None, map[0 := RETAKING])
  {
    events := ReachReopening();
    events := PlayTo(events, REOPENING, Some(0), Releases(0, 11, true), REOPENED, None);
    events := PlayTo(events, REOPENED, None, Runs(0, 2, Good, false, 12), RETAKING, None);
  }

  const RETAKEN := Owned(2, None, map[2 := Verifying], BOTH_RELEASES, REPORTS)

  const LEFT := Flow(Fields(true, Some(2), None, true, false, true, true, 0), map[2 := Verifying], BOTH_RELEASES,
                     REPORTS, Some(2), false, 0)

  lemma ReachLeft() returns (events: seq<Event>)
    ensures Orderly(events) && After(NOBODY, events) == System(Some(0), map[0 := LEFT])
  {
    events := ReachRetaking();
    events := PlayTo(events, RETAKING, None, Runs(0, 2, Good, false, 12), RETAKEN, Some(0));
    events := PlayTo(events, RETAKEN, Some(0), Removed(0, 12), LEFT, Some(0));
  }

  /** The flow being removed, the report of release 10 begins its one retry: of a lease that is
      task 2's by now. */
  lemma RetryBreaks() returns (events: seq<Event>)
    ensures TwoFinalizers(After(NOBODY, events))
  {
    var before := ReachLeft();
    assert Undermines(LEFT, Fires(0, 12));
    events := UnderminingBreaks(before, Fires(0, 12));
  }

  // ----- a third release of a removed flow -----

  function Removing(slot: Option<ReleaseId>, pc: Pc, retried: bool, releases: map<ReleaseId, Release>,
                    queue: seq<Callback>, attempts: nat): Flow {
    Flow(Fields(true, Some(1), slot, true, retried, true, true, attempts), map[1 := pc], releases, queue, Some(1),
         false, 0)
  }

  lemma ReachRemoved() returns (events: seq<Event>)
    ensures Orderly(events)
    ensures After(NOBODY, events) == System(Some(0), map[0 := Removing(None, Verifying, false, map[], [], 0)])
  {
    events := ReachAcquiring();
    events := PlayTo(events, ACQUIRING, None, Runs(0, 1, Good, false, 10),
                     VERIFYING, Some(0));
    events := PlayTo(events, VERIFYING, Some(0), Removed(0, 10),
                     Removing(None, Verifying, false, map[], [], 0), Some(0));
  }

  const FIRST := Removing(Some(10), Settling(10, true), false, map[10 := Running], [], 1)

  const FIRST_FAILED := Removing(Some(10), Settling(10, true), false, map[10 := Ended(false)], [ReleaseDone(10)], 1)

  const SECOND := Removing(Some(11), Settling(10, true), true, map[10 := Ended(false), 11 := Running], [], 2)

  lemma ReachSecond() returns (events: seq<Event>)
    ensures Orderly(events) && After(NOBODY, events) == System(Some(0), map[0 := SECOND])
  {
    events := ReachRemoved();
    events := PlayTo(events, Removing(None, Verifying, false, map[], [], 0), Some(0), Runs(0, 1, Good, false, 10),
                     FIRST, Some(0));
    events := PlayTo(events, FIRST, Some(0), Releases(0, 10, false), FIRST_FAILED, Some(0));
    events := PlayTo(events, FIRST_FAILED, Some(0), Fires(0, 11), SECOND, Some(0));
  }

  const BOTH_FAILED: map<ReleaseId, Release> := map[10 := Ended(false), 11 := Ended(false)]

  const SECOND_FAILED := Removing(Some(11), Settling(10, true), true, BOTH_FAILED, [ReleaseDone(11)], 2)

  const SPENT := Removing(None, Settling(10, true), true, BOTH_FAILED, [], 2)

  lemma ReachSpent() returns (events: seq<Event>)
    ensures Orderly(events) && After(NOBODY, events) == System(Some(0), map[0 := SPENT])
  {
    events := ReachSecond();
    events := PlayTo(events, SECOND, Some(0), Releases(0, 11, false), SECOND_FAILED, Some(0));
    events := PlayTo(events, SECOND_FAILED, Some(0), Fires(0, 12), SPENT, Some(0));
  }

  /** The flow was removed while it verified; its first release and the retry both fail, and
      then its owner is cancelled. */
  lemma ThirdReleaseHappens() returns (events: seq<Event>)
    ensures Orderly(events) && 0 in After(NOBODY, events).flows && After(NOBODY, events).flows[0].f.attempts == 3
  {
    events := ReachSpent();
    events := Play(events, Runs(0, 1, Cancel, false, 12));
  }
}
