/** What the finalizer lease does do: a flow that is let in finalizes and gives the lease back, one
    that is not leaves it alone, and a removed flow's lease is released, at once or when its owner
    ends, with the one retry it has. */
module FinalizerLiveness {
  import opened Wrappers
  import opened Finalizer

  // ----- one flow -----

  /** A flow that remembers nothing and may be entered by `t`, release id `r` being unused. */
  predicate Free(w: Flow, t: TaskId, r: ReleaseId) {
    && !w.f.coords && w.f.owner.None? && w.f.slot.None? && !w.f.releaseAfter && !w.f.retryStarted && !w.f.removed
    && w.f.executor && t !in w.tasks && w.watched != Some(t) && r !in w.releases && w.queue == []
  }

  /** The flow reserved for its working task `t`. */
  predicate Works(w: Flow, t: TaskId, pc: Pc) {
    && w.f.coords && w.f.owner == Some(t) && w.f.slot.None? && !w.f.retryStarted && !w.f.removed && !w.f.releaseAfter
    && w.f.executor && Lookup(w.tasks, t) == Some(pc) && w.watched.None? && w.queue == []
  }

  /** A task about to acquire gets the lease exactly if nobody else has it, and goes on to verify exactly if
      also the flow is not removed and the address not configured yet. */
  lemma AcquireAnswers(w: Flow, t: TaskId, free: bool, mine: bool, configured: bool, spare: ReleaseId)
    requires Lookup(w.tasks, t) == Some(Acquiring)
    ensures var next := TaskRuns(w, t, Good, free, mine, configured, spare);
      && (next.1 <==> free || mine)
      && (Lookup(next.0.tasks, t) == Some(Verifying) <==> (free || mine) && !w.f.removed && !configured)
  {}

  /** Verification, and then the entry, go on exactly while the flow is neither removed nor configured. */
  lemma VerificationAnswers(w: Flow, t: TaskId, configured: bool, spare: ReleaseId)
    requires Lookup(w.tasks, t) == Some(Verifying)
    ensures var next := TaskRuns(w, t, Good, false, true, configured, spare).0;
      Lookup(next.tasks, t) == Some(Creating) <==> !w.f.removed && !configured
  {}

  /** A failed release of a removed flow is retried exactly if that has not been done, nothing else is
      in the slot, and there is something left to release. */
  lemma RetryAnswers(w: Flow, r: ReleaseId, spare: ReleaseId)
    requires w.queue != [] && w.queue[0] == ReleaseDone(r) && Lookup(w.releases, r) == Some(Ended(false))
    requires spare !in w.releases && w.f.executor && w.f.slot != Some(spare)
    ensures spare in Fire(w, spare).releases <==>
      w.f.removed && w.f.coords && !w.f.retryStarted && (w.f.slot.None? || w.f.slot == Some(r))
    ensures spare in Fire(w, spare).releases ==>
      Fire(w, spare).f.retryStarted && Fire(w, spare).releases[spare] == Running
  {}

  /** The end of a removed flow's owner begins the release it put off, exactly if none is in the slot and
      the retry is not spent. */
  lemma DeferralAnswers(w: Flow, spare: ReleaseId)
    requires w.queue != [] && w.queue[0] == OwnerDone && spare !in w.releases && w.f.slot != Some(spare) && w.f.executor
    ensures spare in Fire(w, spare).releases <==>
      w.f.releaseAfter && w.f.slot.None? && !w.f.retryStarted && w.f.coords
  {}

  /** Removal begins the release of a lease no running owner has, and leaves a running owner's to its end. */
  lemma RemovalAnswers(w: Flow, spare: ReleaseId)
    requires !w.f.removed && w.f.coords && w.f.executor && spare !in w.releases && w.f.slot.None?
    ensures var v := Remove(w, spare);
      var runs := w.f.owner.Some? && w.f.owner.value in w.tasks;
      && v.f.removed && (spare in v.releases <==> !runs)
      && (runs && !w.f.releaseAfter ==> v.f.releaseAfter && v.watched == w.f.owner)
  {}

  // ----- all flows -----

  /** There is a run from `s` to `t`. */
  ghost predicate Leads(s: System, t: System) { exists events :: After(s, events) == t }

  lemma LeadsNowhere(s: System)
    ensures Leads(s, s)
  {
    assert After(s, []) == s;
  }

  lemma {:induction false} AfterFirst(s: System, e: Event, events: seq<Event>)
    requires Enabled(s, e)
    ensures After(s, [e] + events) == After(Step(s, e), events)
    decreases |events|
  {
    var all := [e] + events;
    if events == [] {
      assert all[..|all| - 1] == [] && After(s, []) == s;
    } else {
      assert all[..|all| - 1] == [e] + events[..|events| - 1];
      AfterFirst(s, e, events[..|events| - 1]);
    }
  }

  lemma LeadsFirst(s: System, e: Event, t: System)
    requires Enabled(s, e) && Leads(Step(s, e), t)
    ensures Leads(s, t)
  {
    var events :| After(Step(s, e), events) == t;
    AfterFirst(s, e, events);
  }

  /** A flow that may enter takes the free lease and verifies. */
  lemma LetIn(s: System, id: FlowId, t: TaskId, r: ReleaseId) returns (a: System)
    requires s.lease.None? && id in s.flows && Free(s.flows[id], t, r) && s.flows[id].watched.None?
    ensures Leads(s, a) && a.lease == Some(id) && id in a.flows && Works(a.flows[id], t, Verifying)
    ensures a.flows[id].tasks == s.flows[id].tasks[t := Verifying] && a.flows[id].releases == s.flows[id].releases
  {
    var b := Step(s, Enters(id, t, r));
    assert Works(b.flows[id], t, Acquiring) && b.lease.None?;
    a := Step(b, Runs(id, t, Good, false, r));
    LeadsNowhere(a);
    LeadsFirst(b, Runs(id, t, Good, false, r), a);
    LeadsFirst(s, Enters(id, t, r), a);
  }

  /** A verified flow creates its entry, and then releases the lease. */
  lemma CreatesAndReleases(s: System, id: FlowId, t: TaskId, r: ReleaseId, more: ReleaseId) returns (a: System)
    requires s.lease == Some(id) && id in s.flows && Works(s.flows[id], t, Verifying)
    requires r !in s.flows[id].releases && more !in s.flows[id].releases && more != r
    ensures Leads(s, a) && a.lease.None? && id in a.flows && a.flows[id].tasks == s.flows[id].tasks - {t}
    ensures !a.flows[id].f.coords && a.flows[id].f.owner.None? && a.flows[id].f.slot.None? && a.flows[id].queue == []
  {
    var b := Step(s, Runs(id, t, Good, false, r));
    assert Works(b.flows[id], t, Creating);
    var c := Step(b, Runs(id, t, Good, false, r));
    assert c.flows[id].f.slot == Some(r) && Lookup(c.flows[id].tasks, t) == Some(Settling(r, false));
    a := SettlesWell(c, id, t, r, more, false);
    assert c.flows[id].tasks - {t} == s.flows[id].tasks - {t};
    LeadsFirst(b, Runs(id, t, Good, false, r), a);
    LeadsFirst(s, Runs(id, t, Good, false, r), a);
  }

  /** The owner settles on release `r` of the flow's reservation. */
  predicate Settles(w: Flow, t: TaskId, r: ReleaseId, guarded: bool) {
    && w.f.coords && w.f.owner == Some(t) && w.f.slot == Some(r) && w.f.executor && w.watched.None? && w.queue == []
    && Lookup(w.tasks, t) == Some(Settling(r, guarded)) && Lookup(w.releases, r) == Some(Running)
  }

  /** The release succeeds: the flow forgets its reservation, and the lease is free if it was the flow's. */
  lemma SettlesWell(s: System, id: FlowId, t: TaskId, r: ReleaseId, more: ReleaseId, guarded: bool) returns (a: System)
    requires id in s.flows && Settles(s.flows[id], t, r, guarded) && more !in s.flows[id].releases
    ensures Leads(s, a) && a.lease == (if s.lease == Some(id) then None else s.lease) && id in a.flows
    ensures a.flows[id].tasks == s.flows[id].tasks - {t}
    ensures !a.flows[id].f.coords && a.flows[id].f.owner.None? && a.flows[id].f.slot.None? && a.flows[id].queue == []
  {
    var b := Step(s, Releases(id, r, true));
    assert b.flows[id].queue == [ReleaseDone(r)] && Lookup(b.flows[id].releases, r) == Some(Ended(true));
    var c := Step(b, Fires(id, more));
    assert c.flows[id].queue == [] && Lookup(c.flows[id].tasks, t) == Some(Settling(r, guarded));
    a := Step(c, Runs(id, t, Good, false, more));
    LeadsNowhere(a);
    LeadsFirst(c, Runs(id, t, Good, false, more), a);
    LeadsFirst(b, Fires(id, more), a);
    LeadsFirst(s, Releases(id, r, true), a);
  }

  /** A flow that is let in finalizes, and gives the lease back. */
  lemma FinalizesAndReleases(s: System, id: FlowId, t: TaskId, r: ReleaseId, more: ReleaseId)
      returns (a: System, b: System)
    requires s.lease.None? && id in s.flows && Free(s.flows[id], t, r) && s.flows[id].watched.None?
    requires more !in s.flows[id].releases && more != r
    ensures Leads(s, a) && a.lease == Some(id) && id in a.flows && Lookup(a.flows[id].tasks, t) == Some(Verifying)
    ensures Leads(a, b) && b.lease.None? && id in b.flows && t !in b.flows[id].tasks
    ensures !b.flows[id].f.coords && b.flows[id].f.slot.None? && b.flows[id].queue == []
  {
    a := LetIn(s, id, t, r);
    b := CreatesAndReleases(a, id, t, r, more);
  }

  /** A flow refused the lease gives up its own reservation, and leaves the lease to whoever has it. */
  lemma RefusedLeavesTheLease(s: System, id: FlowId, other: FlowId, t: TaskId, r: ReleaseId, more: ReleaseId)
      returns (a: System)
    requires s.lease == Some(other) && other != id && id in s.flows && Free(s.flows[id], t, r)
    requires s.flows[id].watched.None? && more !in s.flows[id].releases && more != r
    ensures Leads(s, a) && a.lease == Some(other) && id in a.flows && a.flows[id].tasks == s.flows[id].tasks
    ensures !a.flows[id].f.coords && a.flows[id].f.owner.None? && a.flows[id].f.slot.None? && a.flows[id].queue == []
  {
    var b := Step(s, Enters(id, t, r));
    assert Works(b.flows[id], t, Acquiring);
    var c := Step(b, Runs(id, t, Good, false, r));
    assert Settles(c.flows[id], t, r, true) && c.lease == Some(other);
    a := SettlesWell(c, id, t, r, more, true);
    assert c.flows[id].tasks - {t} == s.flows[id].tasks;
    LeadsFirst(b, Runs(id, t, Good, false, r), a);
    LeadsFirst(s, Enters(id, t, r), a);
  }

  /** A removed flow whose owner is gone releases its lease at once. */
  lemma RemovalReleases(s: System, id: FlowId, r: ReleaseId) returns (a: System)
    requires s.lease == Some(id) && id in s.flows && !s.flows[id].f.removed && s.flows[id].f.coords
    requires s.flows[id].f.executor && s.flows[id].f.slot.None? && r !in s.flows[id].releases
    requires s.flows[id].f.owner.Some? ==> s.flows[id].f.owner.value !in s.flows[id].tasks
    ensures Leads(s, a) && a.lease.None? && id in a.flows && !a.flows[id].f.coords && a.flows[id].f.removed
  {
    RemovalAnswers(s.flows[id], r);
    var b := Step(s, Removed(id, r));
    assert Lookup(b.flows[id].releases, r) == Some(Running) && b.lease == s.lease;
    a := Step(b, Releases(id, r, true));
    LeadsNowhere(a);
    LeadsFirst(b, Releases(id, r, true), a);
    LeadsFirst(s, Removed(id, r), a);
  }

  /** A flow removed while it creates its entry keeps the lease until its owner ends; if that did not
      release it, the end does. */
  lemma DeferredReleaseHappens(s: System, id: FlowId, t: TaskId, r: ReleaseId) returns (a: System, b: System)
    requires s.lease == Some(id) && id in s.flows && Works(s.flows[id], t, Creating) && r !in s.flows[id].releases
    ensures Leads(s, a) && a.lease == Some(id) && id in a.flows && a.flows[id].f.removed && t !in a.flows[id].tasks
    ensures Leads(a, b) && b.lease.None? && id in b.flows && !b.flows[id].f.coords
  {
    var c := Step(s, Removed(id, r));
    assert c.flows[id].watched == Some(t) && c.flows[id].f.releaseAfter;
    assert Lookup(c.flows[id].tasks, t) == Some(Creating);
    a := Step(c, Runs(id, t, Error, false, r));
    assert a.flows[id].queue == [OwnerDone];
    LeadsNowhere(a);
    LeadsFirst(c, Runs(id, t, Error, false, r), a);
    LeadsFirst(s, Removed(id, r), a);
    var d := Step(a, Fires(id, r));
    assert Lookup(d.flows[id].releases, r) == Some(Running) && d.lease == Some(id);
    b := Step(d, Releases(id, r, true));
    LeadsNowhere(b);
    LeadsFirst(d, Releases(id, r, true), b);
    LeadsFirst(a, Fires(id, r), b);
  }

  /** A lease that an earlier release failed to give back is released first when the flow is entered
      again, and then taken anew. */
  lemma EntersAgain(s: System, id: FlowId, t: TaskId, r: ReleaseId, more: ReleaseId) returns (a: System)
    requires s.lease == Some(id) && id in s.flows && !s.flows[id].f.removed && s.flows[id].f.coords
    requires s.flows[id].f.executor && s.flows[id].f.slot.None? && s.flows[id].f.owner.Some?
    requires s.flows[id].f.owner.value !in s.flows[id].tasks && s.flows[id].f.owner != Some(t)
    requires s.flows[id].queue == []
    requires t !in s.flows[id].tasks && s.flows[id].watched != Some(t) && r !in s.flows[id].releases
    requires more !in s.flows[id].releases && more != r
    ensures Leads(s, a) && a.lease == Some(id) && id in a.flows && Lookup(a.flows[id].tasks, t) == Some(Verifying)
  {
    var b := Step(s, Enters(id, t, r));
    assert Lookup(b.flows[id].tasks, t) == Some(Waiting(r)) && Lookup(b.flows[id].releases, r) == Some(Running);
    var c := Step(b, Releases(id, r, true));
    assert c.lease.None? && !c.flows[id].f.coords && Lookup(c.flows[id].tasks, t) == Some(Waiting(r));
    var d := Step(c, Runs(id, t, Good, false, more));
    assert Lookup(d.flows[id].tasks, t) == Some(Acquiring) && d.flows[id].f.owner == Some(t) && d.lease.None?;
    a := Step(d, Runs(id, t, Good, false, more));
    LeadsNowhere(a);
    LeadsFirst(d, Runs(id, t, Good, false, more), a);
    LeadsFirst(c, Runs(id, t, Good, false, more), a);
    LeadsFirst(b, Releases(id, r, true), a);
    LeadsFirst(s, Enters(id, t, r), a);
  }
}
