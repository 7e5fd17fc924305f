/** The stored document: how receipts are written down, and what reading accepts. */
module JobDocument {
  import opened Wrappers
  import opened Receipts
  import opened Retention

  const FORMAT := "ha-paneld-install-jobs-v1"
  const MAX_ACTIVE_JOBS := 4

  /** A document as read from JSON: a record is a receipt whose invariants are not yet checked. */
  datatype Document = Document(format: string, jobs: seq<Receipt>)

  // ----- the whole store -----

  predicate Overlap(a: Target, b: Target) {
    a.address == b.address || a.pinnedAddress == b.pinnedAddress || a.adbSerial == b.adbSerial
  }

  function ActiveIds(jobs: Jobs): set<JobId> {
    set id | id in jobs && !jobs[id].IsTerminal()
  }

  /** What holds of every map of receipts the store may contain. */
  ghost predicate StoreOk(jobs: Jobs) {
    && Keyed(jobs)
    && (forall id :: id in jobs ==> ReceiptOk(jobs[id]))
    && |ActiveIds(jobs)| <= MAX_ACTIVE_JOBS
    && |TerminalIds(jobs)| <= MAX_TERMINAL_JOBS
    && (forall a, b :: a in ActiveIds(jobs) && b in ActiveIds(jobs) && a != b ==>
          !Overlap(jobs[a].target, jobs[b].target))
  }

  function ByJobId(rs: seq<Receipt>): Jobs {
    if |rs| == 0 then map[] else ByJobId(rs[..|rs| - 1])[rs[|rs| - 1].jobId := rs[|rs| - 1]]
  }

  ghost predicate DistinctIds(rs: seq<Receipt>) {
    forall i, j :: 0 <= i < j < |rs| ==> rs[i].jobId != rs[j].jobId
  }

  lemma {:induction false} ByJobIdLooksUp(rs: seq<Receipt>)
    requires DistinctIds(rs)
    ensures Keyed(ByJobId(rs))
    ensures forall x :: x in rs <==> x.jobId in ByJobId(rs) && ByJobId(rs)[x.jobId] == x
  {
    if |rs| > 0 {
      var n := |rs| - 1;
      var front, last := rs[..n], rs[n];
      ByJobIdLooksUp(front);
      assert rs == front + [last];
      assert forall x :: x in front ==> x.jobId != last.jobId;
    }
  }

  ghost predicate NoOverlap(rs: seq<Receipt>) {
    forall i, j :: 0 <= i < j < |rs| && !rs[i].IsTerminal() && !rs[j].IsTerminal() ==>
      !Overlap(rs[i].target, rs[j].target)
  }

  /** The receipts a reader accepts, in document order. */
  ghost predicate Readable(rs: seq<Receipt>) {
    && |rs| <= MAX_ACTIVE_JOBS + MAX_TERMINAL_JOBS
    && AllOk(rs) && DistinctIds(rs) && NoOverlap(rs)
    && |ActiveIds(ByJobId(rs))| <= MAX_ACTIVE_JOBS
    && |TerminalIds(ByJobId(rs))| <= MAX_TERMINAL_JOBS
  }

  ghost predicate HasAddress(rs: seq<Receipt>, a: string) {
    exists x :: x in rs && !x.IsTerminal() && x.target.address == a
  }

  ghost predicate HasPin(rs: seq<Receipt>, a: string) {
    exists x :: x in rs && !x.IsTerminal() && x.target.pinnedAddress == a
  }

  ghost predicate HasSerial(rs: seq<Receipt>, a: string) {
    exists x :: x in rs && !x.IsTerminal() && x.target.adbSerial == a
  }

  /** What the reading loop has gathered from the records so far. */
  ghost predicate Gathered(rs: seq<Receipt>, addresses: set<string>, pins: set<string>, serials: set<string>) {
    && (forall a :: a in addresses <==> HasAddress(rs, a))
    && (forall a :: a in pins <==> HasPin(rs, a))
    && (forall a :: a in serials <==> HasSerial(rs, a))
  }

  /** The reading loop's state after the records `rs`. */
  ghost predicate Scanned(rs: seq<Receipt>, jobs: Jobs, activeCount: nat, terminalCount: nat,
                          addresses: set<string>, pins: set<string>, serials: set<string>)
  {
    && DistinctIds(rs) && NoOverlap(rs)
    && jobs == ByJobId(rs)
    && activeCount == |ActiveIds(jobs)| && terminalCount == |TerminalIds(jobs)|
    && Gathered(rs, addresses, pins, serials)
  }

  ghost predicate AllOk(rs: seq<Receipt>) {
    forall i :: 0 <= i < |rs| ==> ReceiptOk(rs[i])
  }

  /** Read a document record by record, refusing the first thing out of place. */
  method ParseDocument(doc: Document) returns (parsed: Result<Jobs, JobError>)
    ensures parsed == if doc.format == FORMAT && Readable(doc.jobs) then Ok(ByJobId(doc.jobs)) else Err(StoreError)
  {
    if doc.format != FORMAT || |doc.jobs| > MAX_ACTIVE_JOBS + MAX_TERMINAL_JOBS {
      return Err(StoreError);
    }
    var jobs: Jobs := map[];
    var activeCount: nat, terminalCount: nat := 0, 0;
    var addresses: set<string>, pins: set<string>, serials: set<string> := {}, {}, {};
    var n := 0;
    while n < |doc.jobs|
      invariant 0 <= n <= |doc.jobs|
      invariant AllOk(doc.jobs[..n])
      invariant Scanned(doc.jobs[..n], jobs, activeCount, terminalCount, addresses, pins, serials)
    {
      var r := doc.jobs[n];
      if !ReceiptOk(r) {
        return Err(StoreError);
      }
      if r.jobId in jobs
         || (!r.IsTerminal()
             && (r.target.address in addresses || r.target.pinnedAddress in pins || r.target.adbSerial in serials)) {
        ClashIsUnreadable(doc.jobs, n, jobs, activeCount, terminalCount, addresses, pins, serials);
        return Err(StoreError);
      }
      RecordScanned(doc.jobs, n, jobs, activeCount, terminalCount, addresses, pins, serials);
      jobs := jobs[r.jobId := r];
      if r.IsTerminal() {
        terminalCount := terminalCount + 1;
      } else {
        activeCount := activeCount + 1;
        addresses := addresses + {r.target.address};
        pins := pins + {r.target.pinnedAddress};
        serials := serials + {r.target.adbSerial};
      }
      n := n + 1;
    }
    assert doc.jobs[..n] == doc.jobs;
    if activeCount > MAX_ACTIVE_JOBS || terminalCount > MAX_TERMINAL_JOBS {
      return Err(StoreError);
    }
    return Ok(jobs);
  }

  lemma ClashIsUnreadable(rs: seq<Receipt>, n: nat, jobs: Jobs, activeCount: nat, terminalCount: nat,
                          addresses: set<string>, pins: set<string>, serials: set<string>)
    requires n < |rs|
    requires Scanned(rs[..n], jobs, activeCount, terminalCount, addresses, pins, serials)
    requires rs[n].jobId in jobs
      || (!rs[n].IsTerminal()
          && (rs[n].target.address in addresses || rs[n].target.pinnedAddress in pins || rs[n].target.adbSerial in serials))
    ensures !(DistinctIds(rs) && NoOverlap(rs))
  {
    var r, before := rs[n], rs[..n];
    ByJobIdLooksUp(before);
    if r.jobId in jobs {
      assert jobs[r.jobId] in before;
      var i :| 0 <= i < n && before[i] == jobs[r.jobId];
      assert rs[i].jobId == rs[n].jobId;
    } else {
      SeenTargetOverlaps(before, addresses, pins, serials, r);
      var x :| x in before && !x.IsTerminal() && Overlap(x.target, r.target);
      var i :| 0 <= i < n && before[i] == x;
      assert !rs[i].IsTerminal() && Overlap(rs[i].target, rs[n].target);
    }
  }

  lemma RecordScanned(rs: seq<Receipt>, n: nat, jobs: Jobs, activeCount: nat, terminalCount: nat,
                      addresses: set<string>, pins: set<string>, serials: set<string>)
    requires n < |rs| && AllOk(rs[..n]) && ReceiptOk(rs[n])
    requires Scanned(rs[..n], jobs, activeCount, terminalCount, addresses, pins, serials)
    requires rs[n].jobId !in jobs
    requires !rs[n].IsTerminal() ==>
      rs[n].target.address !in addresses && rs[n].target.pinnedAddress !in pins && rs[n].target.adbSerial !in serials
    ensures AllOk(rs[..n + 1])
    ensures var r, more := rs[n], jobs[rs[n].jobId := rs[n]];
      if r.IsTerminal() then Scanned(rs[..n + 1], more, activeCount, terminalCount + 1, addresses, pins, serials)
      else Scanned(rs[..n + 1], more, activeCount + 1, terminalCount,
                   addresses + {r.target.address}, pins + {r.target.pinnedAddress}, serials + {r.target.adbSerial})
  {
    assert rs[..n + 1] == rs[..n] + [rs[n]];
    AppendedIdsDistinct(rs[..n], rs[n]);
    NewRecordFits(rs[..n], addresses, pins, serials, rs[n]);
    GatheredGrows(rs[..n], addresses, pins, serials, rs[n]);
    CountsGrow(jobs, rs[n]);
  }

  lemma SeenTargetOverlaps(rs: seq<Receipt>, addresses: set<string>, pins: set<string>, serials: set<string>,
                           r: Receipt)
    requires Gathered(rs, addresses, pins, serials)
    requires r.target.address in addresses || r.target.pinnedAddress in pins || r.target.adbSerial in serials
    ensures exists x :: x in rs && !x.IsTerminal() && Overlap(x.target, r.target)
  {}

  lemma UnseenTargetIsApart(rs: seq<Receipt>, addresses: set<string>, pins: set<string>, serials: set<string>,
                            r: Receipt, x: Receipt)
    requires Gathered(rs, addresses, pins, serials) && x in rs && !x.IsTerminal()
    requires r.target.address !in addresses && r.target.pinnedAddress !in pins && r.target.adbSerial !in serials
    ensures !Overlap(x.target, r.target)
  {}

  lemma AppendedIdsDistinct(rs: seq<Receipt>, r: Receipt)
    requires DistinctIds(rs) && r.jobId !in ByJobId(rs)
    ensures DistinctIds(rs + [r]) && ByJobId(rs + [r]) == ByJobId(rs)[r.jobId := r]
  {
    ByJobIdLooksUp(rs);
    var all := rs + [r];
    assert all[..|rs|] == rs && all[|rs|] == r;
    forall i | 0 <= i < |rs| ensures rs[i].jobId != r.jobId {
      assert rs[i] in rs;
    }
  }

  lemma NewRecordFits(rs: seq<Receipt>, addresses: set<string>, pins: set<string>, serials: set<string>, r: Receipt)
    requires NoOverlap(rs) && Gathered(rs, addresses, pins, serials)
    requires !r.IsTerminal() ==>
      r.target.address !in addresses && r.target.pinnedAddress !in pins && r.target.adbSerial !in serials
    ensures NoOverlap(rs + [r])
  {
    var all := rs + [r];
    forall i, j | 0 <= i < j < |all| && !all[i].IsTerminal() && !all[j].IsTerminal()
      ensures !Overlap(all[i].target, all[j].target)
    {
      if j == |rs| {
        assert all[i] == rs[i] && all[i] in rs;
        UnseenTargetIsApart(rs, addresses, pins, serials, r, rs[i]);
      } else {
        assert all[i] == rs[i] && all[j] == rs[j];
      }
    }
  }

  lemma GatheredGrows(rs: seq<Receipt>, addresses: set<string>, pins: set<string>, serials: set<string>, r: Receipt)
    requires Gathered(rs, addresses, pins, serials)
    ensures r.IsTerminal() ==> Gathered(rs + [r], addresses, pins, serials)
    ensures !r.IsTerminal() ==>
      Gathered(rs + [r], addresses + {r.target.address}, pins + {r.target.pinnedAddress}, serials + {r.target.adbSerial})
  {
    var all := rs + [r];
    forall a ensures HasAddress(all, a) <==> HasAddress(rs, a) || (!r.IsTerminal() && a == r.target.address) {
      assert r in all;
    }
    forall a ensures HasPin(all, a) <==> HasPin(rs, a) || (!r.IsTerminal() && a == r.target.pinnedAddress) {
      assert r in all;
    }
    forall a ensures HasSerial(all, a) <==> HasSerial(rs, a) || (!r.IsTerminal() && a == r.target.adbSerial) {
      assert r in all;
    }
  }

  lemma CountsGrow(jobs: Jobs, r: Receipt)
    requires r.jobId !in jobs
    ensures ActiveIds(jobs[r.jobId := r]) == ActiveIds(jobs) + (if r.IsTerminal() then {} else {r.jobId})
    ensures TerminalIds(jobs[r.jobId := r]) == TerminalIds(jobs) + (if r.IsTerminal() then {r.jobId} else {})
  {}

  // ----- writing -----

  predicate Before(a: Receipt, b: Receipt) {
    a.createdAt < b.createdAt || (a.createdAt == b.createdAt && a.jobId < b.jobId)
  }

  ghost predicate InOrder(rs: seq<Receipt>) {
    forall i, j :: 0 <= i < j < |rs| ==> Before(rs[i], rs[j])
  }

  /** `rs` lists `jobs` in the one order the writer uses. */
  ghost predicate Lists(jobs: Jobs, rs: seq<Receipt>) {
    InOrder(rs) && forall x :: x in rs <==> x.jobId in jobs && jobs[x.jobId] == x
  }

  method SerializeDocument(jobs: Jobs) returns (doc: Document)
    requires Keyed(jobs)
    ensures doc.format == FORMAT && Lists(jobs, doc.jobs)
  {
    var sorted: seq<Receipt> := [];
    var rest := jobs.Keys;
    while rest != {}
      invariant rest <= jobs.Keys
      invariant InOrder(sorted)
      invariant forall x :: x in sorted <==> x.jobId in jobs && x.jobId !in rest && jobs[x.jobId] == x
      decreases rest
    {
      var id :| id in rest;
      sorted := InsertByCreation(sorted, jobs[id]);
      rest := rest - {id};
    }
    doc := Document(FORMAT, sorted);
  }

  /** The written order: oldest first, by id among receipts of the same second. */
  lemma WrittenOldestFirst(jobs: Jobs, rs: seq<Receipt>, i: nat, j: nat)
    requires Lists(jobs, rs) && i < j < |rs|
    ensures rs[i].createdAt < rs[j].createdAt || (rs[i].createdAt == rs[j].createdAt && rs[i].jobId < rs[j].jobId)
  {}

  method InsertByCreation(s: seq<Receipt>, r: Receipt) returns (t: seq<Receipt>)
    requires InOrder(s)
    requires forall x :: x in s ==> x.jobId != r.jobId
    ensures InOrder(t)
    ensures forall x :: x in t <==> x in s || x == r
  {
    var k := 0;
    while k < |s| && Before(s[k], r)
      invariant 0 <= k <= |s|
      invariant forall i :: 0 <= i < k ==> Before(s[i], r)
    {
      k := k + 1;
    }
    if k < |s| { assert s[k] in s; }
    t := s[..k] + [r] + s[k..];
    InsertedInOrder(s, k, r);
  }

  lemma SplicedAt(s: seq<Receipt>, k: nat, r: Receipt, i: nat)
    requires k <= |s| && i <= |s|
    ensures (s[..k] + [r] + s[k..])[i] == if i < k then s[i] else if i == k then r else s[i - 1]
  {}

  lemma InsertedInOrder(s: seq<Receipt>, k: nat, r: Receipt)
    requires InOrder(s) && k <= |s|
    requires forall i :: 0 <= i < k ==> Before(s[i], r)
    requires k < |s| ==> Before(r, s[k])
    ensures InOrder(s[..k] + [r] + s[k..])
    ensures forall x :: x in s[..k] + [r] + s[k..] <==> x in s || x == r
  {
    var t := s[..k] + [r] + s[k..];
    forall i, j | 0 <= i < j < |t| ensures Before(t[i], t[j]) {
      SplicedAt(s, k, r, i);
      SplicedAt(s, k, r, j);
      if i == k && j > k + 1 { assert Before(s[k], s[j - 1]); }
    }
    assert s == s[..k] + s[k..];
  }

  lemma NonEmptyHasMember(a: seq<Receipt>)
    ensures |a| > 0 ==> exists x :: x in a
  {
    if |a| > 0 { assert a[0] in a; }
  }

  /** The order is total, so a store has one written form. */
  lemma {:induction false} WrittenFormUnique(a: seq<Receipt>, b: seq<Receipt>)
    requires InOrder(a) && InOrder(b) && forall x :: x in a <==> x in b
    ensures a == b
    decreases |a|
  {
    NonEmptyHasMember(a);
    NonEmptyHasMember(b);
    if |a| > 0 {
      assert a[0] in b && b[0] in a;
      forall x ensures x in a[1..] <==> x in b[1..] {
        TailMembers(a, x);
        TailMembers(b, x);
      }
      WrittenFormUnique(a[1..], b[1..]);
      assert a == [a[0]] + a[1..] && b == [b[0]] + b[1..];
    }
  }

  lemma TailMembers(a: seq<Receipt>, x: Receipt)
    requires InOrder(a) && |a| > 0
    ensures x in a[1..] <==> x in a && x != a[0]
    ensures x in a && x != a[0] ==> Before(a[0], x)
  {
    assert a == [a[0]] + a[1..];
    if x in a[1..] {
      var i :| 0 <= i < |a[1..]| && a[1..][i] == x;
      assert Before(a[0], a[i + 1]);
    }
  }

  lemma {:induction false} OrderedLength(jobs: Jobs, rs: seq<Receipt>)
    requires Keyed(jobs) && Lists(jobs, rs)
    ensures |rs| == |jobs.Keys|
    decreases |rs|
  {
    if |rs| == 0 {
      assert forall id :: id in jobs ==> jobs[id] in rs;
      assert jobs.Keys == {};
    } else {
      var id := rs[0].jobId;
      assert rs[0] in rs;
      var rest := jobs - {id};
      forall x ensures x in rs[1..] <==> x.jobId in rest && rest[x.jobId] == x {
        TailMembers(rs, x);
      }
      OrderedLength(rest, rs[1..]);
      assert jobs.Keys == rest.Keys + {id};
    }
  }

  lemma ListIsWhole(jobs: Jobs, rs: seq<Receipt>)
    requires Keyed(jobs) && Lists(jobs, rs)
    ensures DistinctIds(rs) && ByJobId(rs) == jobs
  {
    forall i, j | 0 <= i < j < |rs| ensures rs[i].jobId != rs[j].jobId {
      assert rs[i] in rs && rs[j] in rs && Before(rs[i], rs[j]);
    }
    ByJobIdLooksUp(rs);
    var back := ByJobId(rs);
    assert forall id :: id in jobs ==> jobs[id] in rs;
    assert forall id :: id in back ==> back[id] in rs;
  }

  /** Reading what was written gives back the store, for every store allowed on disk. */
  lemma DocumentRoundTrip(jobs: Jobs, rs: seq<Receipt>)
    requires StoreOk(jobs) && Lists(jobs, rs)
    ensures Readable(rs) && ByJobId(rs) == jobs
  {
    ListIsWhole(jobs, rs);
    assert forall i :: 0 <= i < |rs| ==> rs[i] in rs;
    forall i, j | 0 <= i < j < |rs| && !rs[i].IsTerminal() && !rs[j].IsTerminal()
      ensures !Overlap(rs[i].target, rs[j].target)
    {
      assert rs[i].jobId in ActiveIds(jobs) && rs[j].jobId in ActiveIds(jobs);
    }
    OrderedLength(jobs, rs);
    assert jobs.Keys == ActiveIds(jobs) + TerminalIds(jobs);
  }

  lemma MembersOk(rs: seq<Receipt>, x: Receipt)
    requires AllOk(rs) && x in rs
    ensures ReceiptOk(x)
  {}

  lemma MembersDisjoint(rs: seq<Receipt>, x: Receipt, y: Receipt)
    requires NoOverlap(rs) && x in rs && y in rs && x != y && !x.IsTerminal() && !y.IsTerminal()
    ensures !Overlap(x.target, y.target)
  {
    var i :| 0 <= i < |rs| && rs[i] == x;
    var j :| 0 <= j < |rs| && rs[j] == y;
    if i < j { assert !Overlap(rs[i].target, rs[j].target); }
    else { assert !Overlap(rs[j].target, rs[i].target); }
  }

  /** Whatever a reader accepts is a store allowed on disk. */
  lemma ReadableIsStore(rs: seq<Receipt>)
    requires Readable(rs)
    ensures StoreOk(ByJobId(rs))
  {
    ByJobIdLooksUp(rs);
    var jobs := ByJobId(rs);
    forall id | id in jobs ensures ReceiptOk(jobs[id]) {
      MembersOk(rs, jobs[id]);
    }
    forall a, b | a in ActiveIds(jobs) && b in ActiveIds(jobs) && a != b
      ensures !Overlap(jobs[a].target, jobs[b].target)
    {
      MembersDisjoint(rs, jobs[a], jobs[b]);
    }
  }
}
