/** A queued blocking step is either run or aborted, never both, and at most once.

    The executor thread and the event loop race for the step under one lock; `Attempt` is
    what either of them does while it holds the lock. */
module WorkerArbitration {

  datatype State = Queued | Running | Finished | Aborted

  datatype Attempt =
    | Claim            // the executor thread is about to run the step
    | Complete         // the thread reports a value or an error
    | FutureCancelled  // the loop learns that the executor future was cancelled
    | FutureDone       // the loop learns that it ended otherwise

  /** The lock-protected state, how often the step was begun, and whether completion was signalled. */
  datatype Outcome = Outcome(state: State, runs: nat, threads: nat, signalled: bool)

  const FRESH := Outcome(Queued, 0, 0, false)

  /** `threads` is the number of executor threads now inside the step. */
  function After1(o: Outcome, a: Attempt): Outcome {
    match a
    case Claim =>
      if o.state.Aborted? then o
      else if !o.state.Queued? then o.(state := Finished, signalled := true)
      else o.(state := Running, runs := o.runs + 1, threads := o.threads + 1)
    case Complete =>
      if o.threads == 0 then o else o.(state := Finished, threads := o.threads - 1, signalled := true)
    case FutureCancelled => if o.state.Queued? then o.(state := Aborted, signalled := true) else o
    case FutureDone => o
  }

  function After(o: Outcome, attempts: seq<Attempt>): Outcome
    decreases |attempts|
  {
    if attempts == [] then o else After1(After(o, attempts[..|attempts| - 1]), attempts[|attempts| - 1])
  }

  /** Run at most once; aborted means never run; the waiter is woken only when the step can no
      longer begin. */
  lemma {:induction false} RunsAtMostOnce(attempts: seq<Attempt>)
    ensures var o := After(FRESH, attempts);
      && o.runs <= 1 && o.threads <= o.runs
      && (o.state.Queued? || o.state.Aborted? ==> o.runs == 0)
      && (o.state.Running? || o.state.Finished? ==> o.runs == 1)
      && (o.signalled <==> o.state.Finished? || o.state.Aborted?)
    decreases |attempts|
  {
    if attempts != [] {
      RunsAtMostOnce(attempts[..|attempts| - 1]);
    }
  }

  /** A settled outcome stays settled: whoever saw Aborted may safely resubmit. */
  lemma {:induction false} AbortIsFinal(o: Outcome, attempts: seq<Attempt>)
    requires o.state.Aborted? && o.runs == 0 && o.threads == 0
    ensures After(o, attempts).state.Aborted? && After(o, attempts).runs == 0
    ensures After(o, attempts).threads == 0
    decreases |attempts|
  {
    if attempts != [] {
      AbortIsFinal(o, attempts[..|attempts| - 1]);
    }
  }

  // ----- submitting again what was aborted -----

  /** Enough has happened to wake whoever waits for the step. */
  predicate Settled(attempts: seq<Attempt>) { After(FRESH, attempts).signalled }

  /** Some executor thread ran the step. */
  predicate Executed(attempts: seq<Attempt>) { After(FRESH, attempts).runs > 0 }

  /** How often the step was run over several submissions. */
  function TotalRuns(submitted: seq<seq<Attempt>>): nat
    decreases |submitted|
  {
    if submitted == [] then 0
    else TotalRuns(submitted[..|submitted| - 1]) + After(FRESH, submitted[|submitted| - 1]).runs
  }

  /** What the waiter reads tells whether the step was run, and it was not run twice. */
  lemma SettledMeans(attempts: seq<Attempt>)
    requires Settled(attempts)
    ensures After(FRESH, attempts).state.Aborted? <==> !Executed(attempts)
    ensures After(FRESH, attempts).state.Finished? <==> After(FRESH, attempts).runs == 1
    ensures After(FRESH, attempts).runs <= 1
  {
    RunsAtMostOnce(attempts);
  }

  lemma {:induction false} AbortedNeverRan(submitted: seq<seq<Attempt>>)
    requires forall i :: 0 <= i < |submitted| ==> Settled(submitted[i]) && After(FRESH, submitted[i]).state.Aborted?
    ensures TotalRuns(submitted) == 0
    decreases |submitted|
  {
    if submitted != [] {
      AbortedNeverRan(submitted[..|submitted| - 1]);
      SettledMeans(submitted[|submitted| - 1]);
    }
  }

  /** A step submitted again for as long as it is found aborted is, under every order of what the
      threads and the loop do to each submission, run exactly once. */
  lemma {:induction false} ExactlyOnce(submitted: seq<seq<Attempt>>)
    requires submitted != [] && forall i :: 0 <= i < |submitted| ==> Settled(submitted[i])
    requires forall i :: 0 <= i < |submitted| ==>
               (After(FRESH, submitted[i]).state.Aborted? <==> i < |submitted| - 1)
    ensures TotalRuns(submitted) == 1
  {
    AbortedNeverRan(submitted[..|submitted| - 1]);
    RunsAtMostOnce(submitted[|submitted| - 1]);
  }

  /** The outcome record both sides lock. */
  class WorkerOutcome {
    var state: State
    var signalled: bool
    ghost var runs: nat
    ghost var threads: nat

    ghost function Value(): Outcome
      reads this
    {
      Outcome(state, runs, threads, signalled)
    }

    constructor ()
      ensures Value() == FRESH
    {
      state, signalled, runs, threads := Queued, false, 0, 0;
    }

    /** True when the caller must now run the step. */
    method TryClaim() returns (go: bool)
      modifies this
      ensures Value() == After1(old(Value()), Claim)
      ensures go <==> runs == old(runs) + 1
    {
      if state.Aborted? { return false; }
      if !state.Queued? {
        state, signalled := Finished, true;
        return false;
      }
      state := Running;
      runs, threads := runs + 1, threads + 1;
      go := true;
    }

    method Report()
      requires threads > 0
      modifies this
      ensures Value() == After1(old(Value()), Complete)
    {
      threads := threads - 1;
      state := Finished;
      signalled := true;
    }

    method NoteFuture(cancelled: bool)
      modifies this
      ensures Value() == After1(old(Value()), if cancelled then FutureCancelled else FutureDone)
    {
      if !cancelled || !state.Queued? { return; }
      state := Aborted;
      signalled := true;
    }
  }
}
