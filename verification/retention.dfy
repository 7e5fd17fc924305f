/** Which finished receipts a save keeps: the newest 32, none older than seven days. */
module Retention {
  import opened Wrappers
  import opened Receipts

  type Jobs = map<JobId, Receipt>

  const RETENTION_SECONDS := 7 * 86400
  const MAX_TERMINAL_JOBS := 32

  ghost predicate Keyed(jobs: Jobs) {
    forall id :: id in jobs ==> jobs[id].jobId == id
  }

  predicate Newer(a: Receipt, b: Receipt) {
    a.updatedAt > b.updatedAt || (a.updatedAt == b.updatedAt && a.jobId > b.jobId)
  }

  function TerminalIds(jobs: Jobs): set<JobId> {
    set id | id in jobs && jobs[id].IsTerminal()
  }

  function NewerIds(jobs: Jobs, r: Receipt): set<JobId> {
    set id | id in TerminalIds(jobs) && Newer(jobs[id], r)
  }

  predicate Retained(jobs: Jobs, now: Time, r: Receipt) {
    !r.IsTerminal()
    || (|NewerIds(jobs, r)| < MAX_TERMINAL_JOBS && r.updatedAt >= now - RETENTION_SECONDS)
  }

  /** What pruning must leave, stated receipt by receipt. */
  function Pruned(jobs: Jobs, now: Time): Jobs {
    map id | id in jobs && Retained(jobs, now, jobs[id]) :: jobs[id]
  }

  // ----- the pruning loop -----

  ghost predicate NewestFirst(jobs: Jobs, s: seq<JobId>) {
    && (forall i :: 0 <= i < |s| ==> s[i] in jobs)
    && (forall i, j :: 0 <= i < j < |s| ==> Newer(jobs[s[i]], jobs[s[j]]))
  }

  method InsertNewestFirst(jobs: Jobs, s: seq<JobId>, id: JobId) returns (t: seq<JobId>)
    requires Keyed(jobs) && NewestFirst(jobs, s) && id in jobs && id !in s
    ensures NewestFirst(jobs, t)
    ensures forall x :: x in t <==> x in s || x == id
  {
    var k := 0;
    while k < |s| && Newer(jobs[s[k]], jobs[id])
      invariant 0 <= k <= |s|
      invariant forall i :: 0 <= i < k ==> Newer(jobs[s[i]], jobs[id])
    {
      k := k + 1;
    }
    if k < |s| { assert s[k] in s && jobs[s[k]].jobId != id; }
    t := s[..k] + [id] + s[k..];
    InsertedNewest(jobs, s, k, id);
  }

  /** An id put between the newer and the older ones. */
  lemma InsertedNewest(jobs: Jobs, s: seq<JobId>, k: nat, id: JobId)
    requires NewestFirst(jobs, s) && id in jobs && k <= |s|
    requires forall i :: 0 <= i < k ==> Newer(jobs[s[i]], jobs[id])
    requires k < |s| ==> Newer(jobs[id], jobs[s[k]])
    ensures NewestFirst(jobs, s[..k] + [id] + s[k..])
    ensures forall x :: x in s[..k] + [id] + s[k..] <==> x in s || x == id
  {
    InsertedMembers(s, k, id);
    var t := s[..k] + [id] + s[k..];
    forall i | 0 <= i < |t| ensures t[i] in jobs {
      assert t[i] in t;
    }
    forall i, j | 0 <= i < j < |t| ensures Newer(jobs[t[i]], jobs[t[j]]) {
      InsertedPair(jobs, s, k, id, i, j);
    }
  }

  lemma InsertedMembers(s: seq<JobId>, k: nat, id: JobId)
    requires k <= |s|
    ensures forall x :: x in s[..k] + [id] + s[k..] <==> x in s || x == id
  {
    assert s == s[..k] + s[k..];
  }

  lemma InsertedPair(jobs: Jobs, s: seq<JobId>, k: nat, id: JobId, i: nat, j: nat)
    requires NewestFirst(jobs, s) && id in jobs && k <= |s| && i < j <= |s|
    requires forall m :: 0 <= m < k ==> Newer(jobs[s[m]], jobs[id])
    requires k < |s| ==> Newer(jobs[id], jobs[s[k]])
    ensures var t := s[..k] + [id] + s[k..];
      t[i] in jobs && t[j] in jobs && Newer(jobs[t[i]], jobs[t[j]])
  {
    var t := s[..k] + [id] + s[k..];
    assert t[i] == if i < k then s[i] else if i == k then id else s[i - 1];
    assert t[j] == if j < k then s[j] else if j == k then id else s[j - 1];
    if i == k && j > k + 1 {
      NewerChains(jobs[id], jobs[s[k]], jobs[s[j - 1]]);
    }
  }

  lemma NewerChains(a: Receipt, b: Receipt, c: Receipt)
    requires Newer(a, b) && Newer(b, c)
    ensures Newer(a, c)
  {}

  method SortTerminals(jobs: Jobs) returns (s: seq<JobId>)
    requires Keyed(jobs)
    ensures NewestFirst(jobs, s)
    ensures forall x :: x in s <==> x in TerminalIds(jobs)
  {
    s := [];
    var rest := TerminalIds(jobs);
    while rest != {}
      invariant rest <= TerminalIds(jobs)
      invariant NewestFirst(jobs, s)
      invariant forall x :: x in s <==> x in TerminalIds(jobs) && x !in rest
      decreases rest
    {
      var id :| id in rest;
      s := InsertNewestFirst(jobs, s, id);
      rest := rest - {id};
    }
  }

  lemma {:induction false} PlaceIsNewerCount(jobs: Jobs, s: seq<JobId>, k: nat)
    requires NewestFirst(jobs, s) && k < |s|
    requires forall x :: x in s <==> x in TerminalIds(jobs)
    ensures |NewerIds(jobs, jobs[s[k]])| == k
  {
    var before := set i | 0 <= i < k :: s[i];
    assert NewerIds(jobs, jobs[s[k]]) == before by {
      forall x | x in NewerIds(jobs, jobs[s[k]]) ensures x in before {
        assert x in s;
        var i :| 0 <= i < |s| && s[i] == x;
        assert i < k;
      }
      forall x | x in before ensures x in NewerIds(jobs, jobs[s[k]]) {
        assert x in s;
      }
    }
    PrefixSize(jobs, s, k);
  }

  lemma {:induction false} PrefixSize(jobs: Jobs, s: seq<JobId>, k: nat)
    requires NewestFirst(jobs, s) && k <= |s|
    ensures |set i | 0 <= i < k :: s[i]| == k
  {
    var upto := set i | 0 <= i < k :: s[i];
    if k == 0 {
      assert upto == {};
    } else {
      PrefixSize(jobs, s, k - 1);
      var shorter := set i | 0 <= i < k - 1 :: s[i];
      assert upto == shorter + {s[k - 1]};
    }
  }

  /** The ids among the first 32 of `terminal` that are young enough. */
  method YoungestIds(jobs: Jobs, now: Time, terminal: seq<JobId>) returns (retained: set<JobId>)
    requires Keyed(jobs) && NewestFirst(jobs, terminal)
    requires forall x :: x in terminal <==> x in TerminalIds(jobs)
    ensures forall x :: x in retained <==> x in TerminalIds(jobs) && Retained(jobs, now, jobs[x])
  {
    retained := {};
    var k := 0;
    while k < |terminal| && k < MAX_TERMINAL_JOBS
      invariant 0 <= k <= |terminal| && k <= MAX_TERMINAL_JOBS
      invariant forall x :: x in retained <==> x in terminal[..k] && jobs[x].updatedAt >= now - RETENTION_SECONDS
    {
      assert terminal[..k + 1] == terminal[..k] + [terminal[k]];
      if jobs[terminal[k]].updatedAt >= now - RETENTION_SECONDS {
        retained := retained + {terminal[k]};
      }
      k := k + 1;
    }
    forall x | x in TerminalIds(jobs) ensures x in terminal[..k] <==> |NewerIds(jobs, jobs[x])| < MAX_TERMINAL_JOBS {
      assert x in terminal;
      var i :| 0 <= i < |terminal| && terminal[i] == x;
      PlaceIsNewerCount(jobs, terminal, i);
      if x in terminal[..k] {
        var j :| 0 <= j < k && terminal[j] == x;
        PlaceIsNewerCount(jobs, terminal, j);
      } else {
        assert forall m :: 0 <= m < k ==> terminal[m] in terminal[..k];
      }
    }
  }

  lemma PrefixGrows(s: seq<JobId>, n: nat)
    requires n < |s|
    ensures forall x :: x in s[..n + 1] <==> x in s[..n] || x == s[n]
  {
    assert s[..n + 1] == s[..n] + [s[n]];
  }

  lemma LeftIsPruned(jobs: Jobs, now: Time, left: Jobs, retained: set<JobId>)
    requires forall x :: x in left <==> x in jobs && (x in TerminalIds(jobs) ==> x in retained)
    requires forall x :: x in left ==> left[x] == jobs[x]
    requires forall x :: x in retained <==> x in TerminalIds(jobs) && Retained(jobs, now, jobs[x])
    ensures left == Pruned(jobs, now)
  {
    forall x ensures x in left <==> x in Pruned(jobs, now) {
      assert x in TerminalIds(jobs) <==> x in jobs && jobs[x].IsTerminal();
    }
  }

  /** Drop from `jobs` every finished receipt beyond the bound or the age limit. */
  method Prune(jobs: Jobs, now: Time) returns (kept: Result<Jobs, JobError>)
    requires Keyed(jobs)
    ensures kept == if now < RETENTION_SECONDS then Err(ClockOverflow) else Ok(Pruned(jobs, now))
  {
    if now < RETENTION_SECONDS {
      return Err(ClockOverflow);
    }
    var terminal := SortTerminals(jobs);
    var retained := YoungestIds(jobs, now, terminal);
    var left := jobs;
    var n := 0;
    while n < |terminal|
      invariant 0 <= n <= |terminal|
      invariant forall x :: x in left <==> x in jobs && (x in terminal[..n] ==> x in retained)
      invariant forall x :: x in left ==> left[x] == jobs[x]
    {
      if terminal[n] !in retained {
        left := left - {terminal[n]};
      }
      PrefixGrows(terminal, n);
      n := n + 1;
    }
    assert terminal[..n] == terminal;
    LeftIsPruned(jobs, now, left, retained);
    kept := Ok(left);
  }

  // ----- what the kept set is -----

  lemma {:induction false} OldestOf(jobs: Jobs, ids: set<JobId>) returns (oldest: JobId)
    requires Keyed(jobs) && ids != {} && forall id :: id in ids ==> id in jobs
    ensures oldest in ids
    ensures forall id :: id in ids && id != oldest ==> Newer(jobs[id], jobs[oldest])
    decreases ids
  {
    oldest :| oldest in ids;
    var rest := ids - {oldest};
    if rest != {} {
      var candidate := OldestOf(jobs, rest);
      if Newer(jobs[oldest], jobs[candidate]) { oldest := candidate; }
    }
  }

  lemma SubsetSize<T>(a: set<T>, b: set<T>)
    requires a <= b
    ensures |a| <= |b|
  {
    assert b == a + (b - a);
  }

  /** Pruning keeps every active receipt, and drops a finished one only for its age or
      because 32 finished ones are newer. */
  lemma DropsOnlyWithCause(jobs: Jobs, now: Time, id: JobId)
    requires id in jobs
    ensures id !in Pruned(jobs, now) <==>
      jobs[id].IsTerminal()
      && (jobs[id].updatedAt < now - 7 * 24 * 60 * 60 || |NewerIds(jobs, jobs[id])| >= 32)
  {}

  /** What stays of the finished receipts is closed under "newer". */
  lemma KeepsNewestPrefix(jobs: Jobs, now: Time, a: JobId, b: JobId)
    requires a in jobs && b in Pruned(jobs, now) && jobs[a].IsTerminal() && jobs[b].IsTerminal()
    requires Newer(jobs[a], jobs[b])
    ensures a in Pruned(jobs, now)
  {
    SubsetSize(NewerIds(jobs, jobs[a]), NewerIds(jobs, jobs[b]));
  }

  lemma KeepsBounded(jobs: Jobs, now: Time)
    requires Keyed(jobs)
    ensures |TerminalIds(Pruned(jobs, now))| <= 32
    ensures forall id :: id in TerminalIds(Pruned(jobs, now)) ==> jobs[id].updatedAt >= now - 7 * 24 * 60 * 60
  {
    var ids := TerminalIds(Pruned(jobs, now));
    if ids != {} {
      var oldest := OldestOf(jobs, ids);
      SubsetSize(ids - {oldest}, NewerIds(jobs, jobs[oldest]));
      assert ids == (ids - {oldest}) + {oldest};
    }
  }

  lemma PruneOnceIsEnough(jobs: Jobs, now: Time)
    ensures Pruned(Pruned(jobs, now), now) == Pruned(jobs, now)
  {
    var kept := Pruned(jobs, now);
    forall id | id in kept ensures Retained(kept, now, kept[id]) {
      SubsetSize(NewerIds(kept, kept[id]), NewerIds(jobs, jobs[id]));
    }
  }
}
