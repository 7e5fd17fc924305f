/** What every run of the install protocol keeps, whatever fails and whenever.

    The invariant has one global part (the durable receipt against the panel and the files)
    and one part per await of the worker and of the resume scan. Every event keeps it. */
module InstallSafety {
  import opened Wrappers
  import opened Receipts
  import opened InstallProtocol

  // ----- what the protocol needs of a receipt -----

  predicate Resolved(p: Phase) {
    p.HealthyUnclaimed? || p.Consumed? || p.Cancelled? || p.Failed?
  }

  /** Phases in which this job owns no local file. */
  predicate FileFree(p: Phase) {
    || p.Approved? || p.Authorizing? || p.Preflight?
    || p.Launching? || p.HealthCheck? || p.HealthyUnclaimed? || Terminal(p)
  }

  predicate Fetches(p: Phase) { p.Downloading? || p.ArtifactReady? || p.Revalidating? }

  predicate Workable(p: Phase) { !Terminal(p) && p != HealthyUnclaimed }

  /** The part of the receipt law the protocol leans on. */
  ghost predicate Fit(d: Receipt) {
    && (d.cancelRequested ==> Cancellable(d.phase) || d.phase.Cancelled? || d.phase.Failed? || d.phase.RecoveryRequired?)
    && (!Terminal(d.phase) ==> d.revision == Rank(d.phase) + d.executorGeneration + (if d.cancelRequested then 1 else 0))
    && (ArtifactRequired(d.phase) ==> d.actualBytes.Some?)
  }

  /** `next` follows `d` by a transition made under the claim `held`. */
  ghost predicate Follows(d: Receipt, next: Receipt, held: Option<int>) {
    && Fit(next) && !Terminal(d.phase)
    && next.revision == d.revision + 1
    && next.executorGeneration == d.executorGeneration
    && next.cancelRequested == d.cancelRequested
    && (Terminal(next.phase) || Rank(next.phase) == Rank(d.phase) + 1)
    && (d.phase != HealthyUnclaimed ==> held == Some(d.executorGeneration))
    && (d.phase == HealthyUnclaimed ==> next.phase.Consumed? || next.phase.RecoveryRequired?)
    && (next.phase.Consumed? ==> d.phase == HealthyUnclaimed)
  }

  lemma TransitionFollows(d: Receipt, held: Option<int>, phase: Phase, f: Facts, now: Time)
    requires Fit(d) && Transition(d, held, phase, f, now).Ok?
    ensures Follows(d, Transition(d, held, phase, f, now).value, held)
    ensures Transition(d, held, phase, f, now).value.phase == phase
  {}

  /** `next` ends `d`: an ambiguous or exhausted job meets a process without its claim. */
  ghost predicate Quarantines(d: Receipt, next: Receipt) {
    && next.phase == RecoveryRequired && Fit(next)
    && next.revision == d.revision + 1 && next.cancelRequested == d.cancelRequested
  }

  /** `next` is `d` under a fresh claim. */
  ghost predicate Claims(d: Receipt, next: Receipt) {
    && Fit(next) && next.phase == d.phase && next.cancelRequested == d.cancelRequested
    && next.revision == d.revision + 1 && next.executorGeneration == d.executorGeneration + 1
  }

  lemma ClaimReceiptFits(d: Receipt, held: Option<int>, confirmed: Option<int>, now: Time)
    requires Fit(d) && ClaimReceipt(d, held, confirmed, now).Ok?
    ensures var next := ClaimReceipt(d, held, confirmed, now).value;
      && Workable(d.phase)
      && (held == Some(d.executorGeneration) ==> next == d)
      && (held != Some(d.executorGeneration) ==>
            if ClaimTerminalizes(d) then confirmed.Some? && Quarantines(d, next) else Claims(d, next))
  {}

  // ----- the global part -----

  /** How far a receipt proves the job got. */
  function Progress(p: Phase): nat {
    if p == Consumed then 12 else if Terminal(p) then 0 else Rank(p)
  }

  ghost predicate Done(s: Site, p: Phase) {
    && (Progress(p) >= 7 ==> s.pushes == 1)
    && (Progress(p) >= 8 ==> s.installs == 1)
    && (Progress(p) >= 10 ==> s.launches == 1)
  }

  /** The counters agree with the phase a receipt has reached. */
  ghost predicate Counted(s: Site, p: Phase) {
    && Done(s, p)
    && (Rank(p) <= 5 ==> s.pushes == 0)
    && (Rank(p) <= 6 ==> s.installs == 0)
    && (Rank(p) <= 8 ==> s.launches == 0)
  }

  ghost predicate DiskOk(s: Site, d: Receipt) {
    && Fit(d)
    && Counted(s, d.phase)
    && (FileFree(d.phase) ==> s.custody == NO_FILES)
    && (Resolved(d.phase) || d.phase == HealthCheck ==> s.slot != Mine)
    && (s.cancelSeen ==> d.cancelRequested)
    && (Terminal(d.phase) && d.cancelRequested ==> s.cancelSeen)
    && (s.unclear ==> RestartAmbiguous(d.phase) || d.phase == RecoveryRequired)
  }

  ghost predicate SiteOk(s: Site) {
    && s.launches <= s.installs <= s.pushes <= 1
    && (s.pushes == 0 ==> s.slot != Mine)
    && (s.cancelSeen ==> s.installs == 0 && s.launches == 0)
  }

  // ----- the worker's view of the receipt -----

  ghost predicate Tracks(d: Receipt, r: Receipt) {
    d == r
    || (d.cancelRequested && !r.cancelRequested
        && d == r.(revision := r.revision + 1, cancelRequested := true, updatedAt := d.updatedAt))
  }

  /** The resume scan ended the job under the worker. */
  ghost predicate Gone(disk: Option<Receipt>, r: Receipt) {
    RestartAmbiguous(r.phase) && (disk.Some? ==> disk.value.phase == RecoveryRequired)
  }

  /** The receipt a worker acts on is the durable one, that one before a cancel request,
      or one the scan has ended. */
  ghost predicate Seen(disk: Option<Receipt>, r: Receipt) {
    Gone(disk, r) || (disk.Some? && Tracks(disk.value, r))
  }

  /** An ambiguous phase this process holds no claim on. */
  ghost predicate Unclaimed(disk: Option<Receipt>, claim: Option<int>) {
    Ambiguous(disk) ==> !HoldsClaim(disk, claim)
  }

  ghost predicate Snap(disk: Option<Receipt>, s: Site, staged: bool, r: Receipt) {
    && Fit(r) && Workable(r.phase) && Seen(disk, r)
    && !s.unclear && Done(s, r.phase)
    && (Rank(r.phase) >= 7 ==> !s.cancelSeen)
    && (Rank(r.phase) < 6 ==> !staged)
    && (r.phase == Staging ==> (staged <==> s.pushes == 1))
  }

  ghost predicate TopOk(disk: Option<Receipt>, s: Site, staged: bool, r: Receipt) {
    if Workable(r.phase) then
      && Snap(disk, s, staged, r)
      && (r.phase == Staging && !r.cancelRequested ==> s.pushes == 0)
      && (r.phase == Installing ==> staged && s.installs == 0)
      && (r.phase == Launching ==> staged && s.launches == 0)
    else
      disk.Some? ==> !Workable(disk.value.phase)
  }

  ghost predicate MovingOk(disk: Option<Receipt>, s: Site, staged: bool, r: Receipt, phase: Phase) {
    && Snap(disk, s, staged, r)
    && (!Terminal(phase) || phase == Cancelled)
    && (phase == Installing ==> staged)
    && (phase == Installed ==> s.installs == 1)
    && (phase == Launching ==> staged && s.custody == NO_FILES)
    && (phase == HealthCheck ==> s.launches == 1 && s.slot != Mine)
    && (phase == Cancelled ==> s.custody == NO_FILES && s.slot != Mine)
  }

  /** What makes each act safe to issue. */
  ghost predicate ActOk(disk: Option<Receipt>, s: Site, staged: bool, r: Receipt, act: Act) {
    && Snap(disk, s, staged, r)
    && match act
       case Push => r.phase == Staging && !r.cancelRequested && s.pushes == 0
       case Install => r.phase == Installing && staged && s.installs == 0
       case EraseRefused => r.phase == Installing
       case EraseInstalled => r.phase == Launching && s.launches == 0
       case Launch => r.phase == Launching && s.launches == 0 && s.slot != Mine
       case EraseCancelled => r.phase == Staging && r.cancelRequested
  }

  /** Nothing of the job is left on the panel or in local custody. */
  ghost predicate Swept(s: Site) { !s.unclear && s.custody == NO_FILES && s.slot != Mine }

  ghost predicate PcOk(pc: Pc, staged: bool, disk: Option<Receipt>, claim: Option<int>, s: Site) {
    match pc
    case Begin(_) => !staged && Unclaimed(disk, claim)
    case Claiming(c, _) =>
      && !staged && Unclaimed(disk, claim)
      && (!c.Try? && Live(disk) ==> !HoldsClaim(disk, claim) && ClaimTerminalizes(disk.value))
      && (c.Confirm? && Live(disk) ==> s.custody == NO_FILES)
    case Top(r) => TopOk(disk, s, staged, r)
    case Moving(r, phase, _) => MovingOk(disk, s, staged, r, phase)
    case Rereading(r) => Snap(disk, s, staged, r) && disk != Some(r)
    case FailGet(_) => Swept(s)
    case FailMove(_, _) => Swept(s)
    case RecGet(_) => true
    case RecClean(_) => true
    case RecGetAgain(_) => s.custody == NO_FILES
    case RecMove(_, _) => s.custody == NO_FILES
    case Fetch(r) => Snap(disk, s, staged, r) && Fetches(r.phase)
    case Fetching(r) => Snap(disk, s, staged, r) && Fetches(r.phase)
    case ClearStale(r) => Snap(disk, s, staged, r) && Fetches(r.phase)
    case Recheck(r) => Snap(disk, s, staged, r) && r.phase == Revalidating
    case CleanThenFail(r, _) => Snap(disk, s, staged, r) && (Fetches(r.phase) || (r.phase == Staging && s.pushes == 0))
    case Authorize(r, act) => ActOk(disk, s, staged, r, act)
    case Barrier(r, act) => ActOk(disk, s, staged, r, act)
    case Acting(r, act) => ActOk(disk, s, staged, r, act)
    case CleanInstalled(r) => Snap(disk, s, staged, r) && r.phase == Installed && staged
    case CleanRefused(r) => Snap(disk, s, staged, r) && r.phase == Installing && s.slot != Mine
    case CancelClean(r) => Snap(disk, s, staged, r) && r.cancelRequested && s.slot != Mine
  }

  /** The opposite of `PcOk`. The invariant is stated through it, which keeps the worker's part one proof
      obligation instead of one for each clause of each await. */
  ghost predicate Misplaced(pc: Pc, staged: bool, disk: Option<Receipt>, claim: Option<int>, s: Site) {
    !PcOk(pc, staged, disk, claim, s)
  }

  ghost predicate WorkerOk(w: World) {
    match w.worker
    case Idle => w.halted || Unclaimed(w.disk, w.claim)
    case At(pc, _, staged, _) => !Misplaced(pc, staged, w.disk, w.claim, w.site)
  }

  // ----- the resume scan's view -----

  /** The job can no longer advance: this process has no claim on its ambiguous phase. */
  ghost predicate Doomed(disk: Option<Receipt>, claim: Option<int>) {
    Live(disk) ==> Ambiguous(disk) && !HoldsClaim(disk, claim)
  }

  ghost predicate ScanOk(resumer: Resumer, disk: Option<Receipt>, claim: Option<int>, custody: Custody) {
    match resumer
    case Resting => true
    case ScanGet => true
    case Scanning(c, _) =>
      match c
      case Try(r) =>
        RestartAmbiguous(r.phase)
        && (disk.Some? ==> disk.value == r || disk.value.revision > r.revision)
      case Reget => Doomed(disk, claim)
      case Clean(_) => Doomed(disk, claim)
      case Confirm(_) => Doomed(disk, claim) && (Live(disk) ==> custody == NO_FILES)
  }

  ghost predicate CoreOk(disk: Option<Receipt>, s: Site) {
    && SiteOk(s)
    && (disk.None? ==> s.custody == NO_FILES)
    && (disk.Some? ==> DiskOk(s, disk.value))
  }

  /** Everything but the worker's own part. */
  ghost predicate Base(w: World) {
    CoreOk(w.disk, w.site) && ScanOk(w.resumer, w.disk, w.claim, w.site.custody)
  }

  /** All of the invariant but what `Step` itself records. */
  ghost predicate Held(w: World) {
    Base(w) && WorkerOk(w)
  }

  ghost predicate CancelNoted(w: World) {
    w.disk.Some? && w.disk.value.cancelRequested ==> w.site.cancelSeen
  }

  ghost predicate Inv(w: World) {
    Held(w) && CancelNoted(w)
  }

  // ----- durable writes -----

  lemma WriteKeepsBase(w: World, next: Receipt, io: Io)
    requires Base(w) && DiskOk(w.site, next) && Live(w.disk) && next.revision > w.disk.value.revision
    requires Terminal(next.phase) || HoldsClaim(w.disk, w.claim) || !Ambiguous(w.disk)
    ensures Base(WriteReceipt(w, next, io))
  {}

  lemma FollowingIsOk(s: Site, d: Receipt, next: Receipt, held: Option<int>)
    requires DiskOk(s, d) && Follows(d, next, held)
    requires d.cancelRequested ==> s.cancelSeen
    requires Terminal(next.phase) || next.phase.Launching? ==> s.custody == NO_FILES
    requires next.phase.Cancelled? || next.phase.Failed? || next.phase.HealthCheck? ==> s.slot != Mine
    requires s.unclear ==> next.phase == RecoveryRequired
    requires Done(s, next.phase)
    ensures DiskOk(s, next)
  {}

  // ----- going on, pausing, dying -----

  lemma GoingKeeps(w: World, pc: Pc)
    requires Base(w) && w.worker.At? && PcOk(pc, w.worker.staged, w.disk, w.claim, w.site)
    ensures Held(Go(w, pc))
  {}

  lemma DyingKeeps(w: World)
    requires Base(w) && w.worker.At?
    ensures Held(Die(w)) && Held(Die(w).(claim := None))
  {}

  lemma PausingKeeps(w: World)
    requires Base(w) && w.worker.At? && !Ambiguous(w.disk)
    ensures Held(Pause(w))
  {}

  // ----- the loop head -----

  lemma TopKeeps(w: World, r: Receipt, io: Io)
    requires Base(w) && w.worker.At? && TopOk(w.disk, w.site, w.worker.staged, r)
    ensures Held(AtTop(w, r, io))
  {
    if !Workable(r.phase) {
      PausingKeeps(w);
    } else {
      var known := w.worker.staged || (r.phase == Installed && !r.cancelRequested);
      TopLeadsOn(w.disk, w.claim, w.site, w.worker.local, w.worker.staged, r, io);
      GoingKeeps(w.(worker := w.worker.(staged := known)), NextPc(r, w.worker.local, w.worker.staged, io));
    }
  }

  lemma TopLeadsOn(disk: Option<Receipt>, claim: Option<int>, s: Site, local: bool, staged: bool, r: Receipt, io: Io)
    requires CoreOk(disk, s) && TopOk(disk, s, staged, r) && Workable(r.phase)
    ensures var known := staged || (r.phase == Installed && !r.cancelRequested);
      PcOk(NextPc(r, local, staged, io), known, disk, claim, s)
  {
    if r.cancelRequested {
      CancelLeadsOn(disk, claim, s, local, staged, r, io);
    } else if Rank(r.phase) < 3 {
      OpeningLeadsOn(disk, claim, s, local, staged, r, io);
    } else if Rank(r.phase) < 6 {
      FetchingLeadsOn(disk, claim, s, local, staged, r, io);
    } else {
      MutationLeadsOn(disk, claim, s, local, staged, r, io);
    }
  }

  lemma CancelLeadsOn(disk: Option<Receipt>, claim: Option<int>, s: Site, local: bool, staged: bool, r: Receipt, io: Io)
    requires CoreOk(disk, s) && TopOk(disk, s, staged, r) && Workable(r.phase) && r.cancelRequested
    ensures PcOk(NextPc(r, local, staged, io), staged, disk, claim, s)
  {}

  lemma OpeningLeadsOn(disk: Option<Receipt>, claim: Option<int>, s: Site, local: bool, staged: bool, r: Receipt,
                       io: Io)
    requires CoreOk(disk, s) && TopOk(disk, s, staged, r) && Rank(r.phase) < 3 && !r.cancelRequested
    ensures PcOk(NextPc(r, local, staged, io), staged, disk, claim, s)
  {
    SafelySwept(disk, s, staged, r);
    match r.phase
    case Approved =>
    case Authorizing =>
    case Preflight =>
  }

  lemma SafelySwept(disk: Option<Receipt>, s: Site, staged: bool, r: Receipt)
    requires CoreOk(disk, s) && Snap(disk, s, staged, r) && Rank(r.phase) < 3
    ensures Swept(s)
  {
    assert disk.Some? && disk.value.phase == r.phase;
  }

  lemma FetchingLeadsOn(disk: Option<Receipt>, claim: Option<int>, s: Site, local: bool, staged: bool, r: Receipt,
                        io: Io)
    requires CoreOk(disk, s) && TopOk(disk, s, staged, r) && 3 <= Rank(r.phase) < 6 && !r.cancelRequested
    ensures PcOk(NextPc(r, local, staged, io), staged, disk, claim, s)
  {}

  lemma MutationLeadsOn(disk: Option<Receipt>, claim: Option<int>, s: Site, local: bool, staged: bool, r: Receipt,
                        io: Io)
    requires CoreOk(disk, s) && TopOk(disk, s, staged, r) && Workable(r.phase) && Rank(r.phase) >= 6
    requires !r.cancelRequested
    ensures PcOk(NextPc(r, local, staged, io), staged || r.phase == Installed, disk, claim, s)
  {}

  // ----- compare-and-swap moves -----

  lemma MovingKeeps(w: World, r: Receipt, phase: Phase, facts: Facts, io: Io)
    requires Base(w) && CancelNoted(w) && w.worker.At? && MovingOk(w.disk, w.site, w.worker.staged, r, phase)
    ensures Held(MoveTurn(w, r, phase, facts, Rereading(r), io))
  {
    if w.disk.None? {
      DyingKeeps(w);
    } else if w.disk.value.revision == r.revision {
      var next := Transition(w.disk.value, w.claim, phase, facts, io.now);
      if next.Err? {
        DyingKeeps(w);
      } else {
        TransitionFollows(w.disk.value, w.claim, phase, facts, io.now);
        MoveLands(w, r, next.value, io);
      }
    } else {
      GoingKeeps(w, Rereading(r));
    }
  }

  lemma MoveLands(w: World, r: Receipt, next: Receipt, io: Io)
    requires Base(w) && CancelNoted(w) && w.worker.At? && MovingOk(w.disk, w.site, w.worker.staged, r, next.phase)
    requires w.disk.Some? && w.disk.value.revision == r.revision && Follows(w.disk.value, next, w.claim)
    ensures var w1 := WriteReceipt(w, next, io);
      Held(if WriteReturns(next, io) then Go(w1, Top(next)) else Die(w1))
  {
    FollowingIsOk(w.site, w.disk.value, next, w.claim);
    WriteKeepsBase(w, next, io);
    if WriteReturns(next, io) {
      GoingKeeps(WriteReceipt(w, next, io), Top(next));
    } else {
      DyingKeeps(WriteReceipt(w, next, io));
    }
  }

  // ----- the other turns -----

  lemma RereadKeeps(w: World, r: Receipt)
    requires Base(w) && w.worker.At? && Snap(w.disk, w.site, w.worker.staged, r) && w.disk != Some(r)
    ensures Held(RereadTurn(w, r))
  {
    if w.disk.Some? && w.disk.value.phase == r.phase && w.disk.value.executorGeneration == r.executorGeneration
       && w.disk.value.cancelRequested {
      GoingKeeps(w, Top(w.disk.value));
    } else {
      DyingKeeps(w);
    }
  }

  /** A read that finds the job ended leads to the loop's end. */
  lemma GettingKeeps(w: World, found: Receipt -> Pc)
    requires Base(w) && w.worker.At?
    requires Live(w.disk) ==> PcOk(found(w.disk.value), w.worker.staged, w.disk, w.claim, w.site)
    ensures Held(GetTurn(w, found))
  {
    if w.disk.None? {
      DyingKeeps(w);
    } else if w.disk.value.IsTerminal() {
      GoingKeeps(w, Top(w.disk.value));
    } else {
      GoingKeeps(w, found(w.disk.value));
    }
  }

  /** Ending moves: `code` says which ending, and the sweep before it makes it safe. */
  lemma EndingKeeps(w: World, r: Receipt, phase: Phase, code: ResultCode, io: Io)
    requires Base(w) && CancelNoted(w) && w.worker.At? && w.site.custody == NO_FILES
    requires phase == RecoveryRequired || (phase == Failed && Swept(w.site))
    ensures Held(MoveTurn(w, r, phase, Ending(code), Top(r), io))
  {
    if w.disk.None? || w.disk.value.revision != r.revision {
      DyingKeeps(w);
    } else {
      var next := Transition(w.disk.value, w.claim, phase, Ending(code), io.now);
      if next.Err? {
        DyingKeeps(w);
      } else {
        TransitionFollows(w.disk.value, w.claim, phase, Ending(code), io.now);
        EndingLands(w, next.value, io);
      }
    }
  }

  lemma EndingLands(w: World, next: Receipt, io: Io)
    requires Base(w) && CancelNoted(w) && w.worker.At? && w.site.custody == NO_FILES
    requires next.phase == RecoveryRequired || (next.phase == Failed && Swept(w.site))
    requires w.disk.Some? && Follows(w.disk.value, next, w.claim)
    ensures var w1 := WriteReceipt(w, next, io);
      Held(if WriteReturns(next, io) then Go(w1, Top(next)) else Die(w1))
  {
    FollowingIsOk(w.site, w.disk.value, next, w.claim);
    WriteKeepsBase(w, next, io);
    if WriteReturns(next, io) {
      GoingKeeps(WriteReceipt(w, next, io), Top(next));
    } else {
      DyingKeeps(WriteReceipt(w, next, io));
    }
  }

  /** Removing the job's local files disturbs nothing. */
  lemma SweepingKeeps(w: World)
    requires Base(w)
    ensures Base(Cleaned(w))
  {}

  lemma RecCleanKeeps(w: World, code: ResultCode, io: Io)
    requires Base(w) && w.worker.At?
    ensures Held(RecCleanTurn(w, code, io))
  {
    SweepingKeeps(w);
    if io.cleaned {
      GoingKeeps(Cleaned(w), RecGetAgain(code));
    } else {
      DyingKeeps(w);
    }
  }

  lemma CleanKeeps(w: World, next: Pc, io: Io)
    requires Base(w) && w.worker.At?
    requires PcOk(next, w.worker.staged, w.disk, w.claim, w.site.(custody := NO_FILES))
    ensures Held(CleanTurn(w, next, io))
  {
    SweepingKeeps(w);
    if io.cleaned {
      GoingKeeps(Cleaned(w), next);
    } else {
      GoingKeeps(w, RecGet(VerificationRequired));
    }
  }

  lemma CancelCleanKeeps(w: World, r: Receipt, io: Io)
    requires Base(w) && w.worker.At? && Snap(w.disk, w.site, w.worker.staged, r)
    requires r.cancelRequested && w.site.slot != Mine
    ensures Held(CancelCleanTurn(w, r, io))
  {
    SweepingKeeps(w);
    if io.cleaned {
      GoingKeeps(Cleaned(w), CancelledMove(r));
    } else if r.phase == Staging {
      GoingKeeps(w, RecGet(VerificationRequired));
    } else {
      PausingKeeps(w);
    }
  }

  lemma CleanThenFailKeeps(w: World, r: Receipt, code: ResultCode, io: Io)
    requires Base(w) && w.worker.At? && Snap(w.disk, w.site, w.worker.staged, r)
    requires Fetches(r.phase) || (r.phase == Staging && w.site.pushes == 0)
    ensures Held(CleanThenFailTurn(w, r, code, io))
  {
    SweepingKeeps(w);
    if io.cleaned {
      GoingKeeps(Cleaned(w), FailGet(code));
    } else if r.phase == Staging {
      GoingKeeps(w, RecGet(VerificationRequired));
    } else {
      PausingKeeps(w);
    }
  }

  // ----- the download -----

  /** A job in a downloading phase may hold any local files. */
  lemma StoringKeeps(w: World, r: Receipt, custody: Custody)
    requires Base(w) && w.worker.At? && Snap(w.disk, w.site, w.worker.staged, r) && Fetches(r.phase)
    ensures var w1 := w.(site := w.site.(custody := custody));
      Base(w1) && Snap(w1.disk, w1.site, w1.worker.staged, r)
  {}

  lemma DeliveryKeeps(w: World, r: Receipt)
    requires Base(w) && w.worker.At? && Snap(w.disk, w.site, w.worker.staged, r) && Fetches(r.phase)
    ensures Held(TakeDelivery(w, r))
  {
    var w1 := w.(worker := w.worker.(local := true));
    GoingKeeps(w1, TakeDelivery(w, r).worker.pc);
  }

  lemma FetchEndKeeps(w: World, r: Receipt, io: Io)
    requires Base(w) && w.worker.At? && Snap(w.disk, w.site, w.worker.staged, r) && Fetches(r.phase)
    ensures Held(FetchEndTurn(w, r, io))
  {
    match io.download
    case Delivered =>
      StoringKeeps(w, r, Custody(false, true));
      DeliveryKeeps(w.(site := w.site.(custody := Custody(false, true))), r);
    case Broken(partial, ready) =>
      StoringKeeps(w, r, Custody(partial, ready));
      GoingKeeps(w.(site := w.site.(custody := Custody(partial, ready))), CleanThenFail(r, io.code));
  }

  lemma ClearStaleKeeps(w: World, r: Receipt, io: Io)
    requires Base(w) && w.worker.At? && Snap(w.disk, w.site, w.worker.staged, r) && Fetches(r.phase)
    ensures Held(ClearStaleTurn(w, r, io))
  {
    if w.worker.stale {
      DyingKeeps(w);
    } else if io.cleaned {
      StoringKeeps(w, r, NO_FILES);
      GoingKeeps(Cleaned(w.(worker := w.worker.(stale := true))), Top(r));
    } else {
      PausingKeeps(w);
    }
  }

  lemma FetchTurnKeeps(w: World, r: Receipt, io: Io)
    requires Base(w) && w.worker.At? && Snap(w.disk, w.site, w.worker.staged, r) && Fetches(r.phase)
    ensures Held(FetchTurn(w, r, io))
  {
    if w.site.custody.ready && io.ok && !w.site.custody.partial {
      DeliveryKeeps(w, r);
    } else if !w.site.custody.ready && !w.site.custody.partial && io.ok {
      StoringKeeps(w, r, Custody(true, false));
      GoingKeeps(w.(site := w.site.(custody := Custody(true, false))), Fetching(r));
    } else {
      GoingKeeps(w, FetchTurn(w, r, io).worker.pc);
    }
  }

  // ----- acts on the panel -----

  lemma AuthorizeKeeps(w: World, r: Receipt, act: Act, io: Io)
    requires Base(w) && w.worker.At? && ActOk(w.disk, w.site, w.worker.staged, r, act)
    ensures Held(AuthorizeTurn(w, r, act, io))
  {
    if !io.ok {
      GoingKeeps(w, DeniedPc(r, act));
    } else if w.disk.None? {
      DyingKeeps(w);
    } else {
      AuthorizedKeeps(w, r, act, io);
    }
  }

  lemma AuthorizedKeeps(w: World, r: Receipt, act: Act, io: Io)
    requires Base(w) && w.worker.At? && ActOk(w.disk, w.site, w.worker.staged, r, act)
    requires io.ok && w.disk.Some?
    ensures Held(AuthorizeTurn(w, r, act, io))
  {
    var d := w.disk.value;
    if d.revision == r.revision && d.phase == r.phase && d.executorGeneration == r.executorGeneration {
      assert d == r;
      GoingKeeps(w, Barrier(d, act));
    } else if act == Push && d.phase == r.phase && d.executorGeneration == r.executorGeneration && d.cancelRequested {
      GoingKeeps(w, Top(d));
    } else {
      DyingKeeps(w);
    }
  }

  lemma BarrierKeeps(w: World, r: Receipt, act: Act)
    requires Base(w) && w.worker.At? && ActOk(w.disk, w.site, w.worker.staged, r, act)
    ensures Held(BarrierTurn(w, r, act))
  {
    if w.disk.Some? && w.disk.value.revision == r.revision && w.disk.value.phase == r.phase {
      assert w.disk.value == r;
      GoingKeeps(w, Acting(r, act));
    }
    DyingKeeps(w);
  }

  /** Acts change the panel, never the receipt; the job must be in an ambiguous phase if unclear. */
  lemma ActingKeeps(w: World, s: Site, pc: Pc)
    requires Base(w) && w.worker.At?
    requires s.custody == w.site.custody && CoreOk(w.disk, s) && PcOk(pc, w.worker.staged, w.disk, w.claim, s)
    ensures Held(Go(w.(site := s), pc))
  {}

  /** A push happens in Staging only, an install in Installing, a launch in Launching; each
      leaves the panel's record in step with the receipt. */
  lemma PushedSite(disk: Option<Receipt>, s: Site, staged: bool, r: Receipt, slot: Slot, unclear: bool)
    requires CoreOk(disk, s) && ActOk(disk, s, staged, r, Push)
    ensures CoreOk(disk, s.(pushes := 1, slot := slot, unclear := unclear))
  {}

  lemma InstalledSite(disk: Option<Receipt>, s: Site, staged: bool, r: Receipt, unclear: bool)
    requires CoreOk(disk, s) && ActOk(disk, s, staged, r, Install)
    ensures var s1 := s.(installs := 1, unclear := unclear);
      && CoreOk(disk, s1)
      && (!unclear ==> MovingOk(disk, s1, staged, r, Installed) && ActOk(disk, s1, staged, r, EraseRefused))
  {}

  lemma LaunchedSite(disk: Option<Receipt>, s: Site, staged: bool, r: Receipt, unclear: bool)
    requires CoreOk(disk, s) && ActOk(disk, s, staged, r, Launch)
    ensures var s1 := s.(launches := 1, unclear := unclear);
      CoreOk(disk, s1) && (!unclear ==> MovingOk(disk, s1, staged, r, HealthCheck) && Swept(s1))
  {}

  lemma ErasedSite(disk: Option<Receipt>, s: Site, staged: bool, r: Receipt, act: Act, slot: Slot, unclear: bool)
    requires CoreOk(disk, s) && ActOk(disk, s, staged, r, act)
    requires act.EraseRefused? || act.EraseInstalled? || act.EraseCancelled?
    requires slot == s.slot || slot == Empty
    ensures var s1 := s.(slot := slot, unclear := unclear);
      CoreOk(disk, s1) && (!unclear ==> Snap(disk, s1, staged, r))
  {}

  lemma PushKeeps(w: World, r: Receipt, io: Io)
    requires Base(w) && w.worker.At? && ActOk(w.disk, w.site, w.worker.staged, r, Push)
    ensures Held(PushTurn(w, r, io))
  {
    if io.push.PushNotIssued? || w.site.slot != Empty {
      GoingKeeps(w, CleanThenFail(r, io.code));
    } else if io.push.Pushed? {
      PushedSite(w.disk, w.site, w.worker.staged, r, Mine, false);
      ActingKeeps(w.(worker := w.worker.(staged := true)), w.site.(pushes := 1, slot := Mine, unclear := false),
                  PlainMove(r, Installing));
    } else {
      var slot := if io.push.landed then Mine else Empty;
      PushedSite(w.disk, w.site, w.worker.staged, r, slot, true);
      ActingKeeps(w, w.site.(pushes := 1, slot := slot, unclear := true), RecGet(AmbiguousMutation));
    }
  }

  lemma InstallKeeps(w: World, r: Receipt, io: Io)
    requires Base(w) && w.worker.At? && ActOk(w.disk, w.site, w.worker.staged, r, Install)
    ensures Held(InstallTurn(w, r, io))
  {
    var unclear := io.install.InstallUnclear?;
    InstalledSite(w.disk, w.site, w.worker.staged, r, unclear);
    var s := w.site.(installs := 1, unclear := unclear);
    match io.install
    case InstallNotIssued => GoingKeeps(w, RecGet(if io.cleaned then VerificationRequired else AmbiguousMutation));
    case Installs => ActingKeeps(w, s, PlainMove(r, Installed));
    case InstallRefused => ActingKeeps(w, s, Authorize(r, EraseRefused));
    case InstallUnclear => ActingKeeps(w, s, RecGet(AmbiguousMutation));
  }

  lemma LaunchKeeps(w: World, r: Receipt, io: Io)
    requires Base(w) && w.worker.At? && ActOk(w.disk, w.site, w.worker.staged, r, Launch)
    ensures Held(LaunchTurn(w, r, io))
  {
    var unclear := io.launch.LaunchUnclear?;
    LaunchedSite(w.disk, w.site, w.worker.staged, r, unclear);
    var s := w.site.(launches := 1, unclear := unclear);
    match io.launch
    case LaunchNotIssued(drifted) =>
      GoingKeeps(w, if drifted then RecGet(VerificationRequired) else FailGet(LaunchFailed));
    case Started => ActingKeeps(w, s, PlainMove(r, HealthCheck));
    case LaunchRefused => ActingKeeps(w, s, FailGet(LaunchFailed));
    case LaunchUnclear => ActingKeeps(w, s, RecGet(AmbiguousMutation));
  }

  lemma EraseKeeps(w: World, r: Receipt, act: Act, io: Io)
    requires Base(w) && w.worker.At? && ActOk(w.disk, w.site, w.worker.staged, r, act)
    requires act.EraseRefused? || act.EraseInstalled? || act.EraseCancelled?
    ensures Held(EraseTurn(w, r, act, io))
  {
    match io.erase
    case EraseNotIssued => GoingKeeps(w, RecGet(VerificationRequired));
    case EraseUnclear(gone) =>
      var slot := if gone then Empty else w.site.slot;
      ErasedSite(w.disk, w.site, w.worker.staged, r, act, slot, true);
      ActingKeeps(w, w.site.(slot := slot, unclear := true), RecGet(AmbiguousMutation));
    case Erased => ErasureKeeps(w, r, act, io);
  }

  lemma ErasureKeeps(w: World, r: Receipt, act: Act, io: Io)
    requires Base(w) && w.worker.At? && ActOk(w.disk, w.site, w.worker.staged, r, act)
    requires act.EraseRefused? || act.EraseInstalled? || act.EraseCancelled?
    requires io.erase == Erased
    ensures Held(EraseTurn(w, r, act, io))
  {
    var s := w.site.(slot := Empty, unclear := w.site.unclear);
    ErasedSite(w.disk, w.site, w.worker.staged, r, act, Empty, w.site.unclear);
    match act
    case EraseRefused => ActingKeeps(w, s, CleanRefused(r));
    case EraseInstalled => ActingKeeps(w, s, Authorize(r, Launch));
    case EraseCancelled => ActingKeeps(w, s, AfterErasedCancel(r, w.worker.local));
  }

  lemma ActKeeps(w: World, r: Receipt, act: Act, io: Io)
    requires Base(w) && w.worker.At? && ActOk(w.disk, w.site, w.worker.staged, r, act)
    ensures Held(ActTurn(w, r, act, io))
  {
    if !io.ok {
      GoingKeeps(w, DeniedPc(r, act));
    } else {
      match act
      case Push => PushKeeps(w, r, io);
      case Install => InstallKeeps(w, r, io);
      case Launch => LaunchKeeps(w, r, io);
      case _ => EraseKeeps(w, r, act, io);
    }
  }

  // ----- claiming -----

  /** What a claim that writes may write, and what it may hold afterwards. */
  lemma ClaimLands(w: World, next: Receipt, io: Io)
    requires Base(w) && CancelNoted(w) && Live(w.disk) && !HoldsClaim(w.disk, w.claim)
    requires if ClaimTerminalizes(w.disk.value) then Quarantines(w.disk.value, next) && w.site.custody == NO_FILES
             else Claims(w.disk.value, next)
    ensures Base(WriteReceipt(w, next, io))
    ensures !ClaimTerminalizes(w.disk.value) ==>
      Base(WriteReceipt(w, next, io).(claim := Some(next.executorGeneration)))
  {
    assert DiskOk(w.site, next);
    WriteKeepsBase(w, next, io);
  }

  lemma ClaimingKeeps(w: World, c: ClaimPc, again: bool, io: Io)
    requires Base(w) && CancelNoted(w) && w.worker.At?
    requires PcOk(Claiming(c, again), w.worker.staged, w.disk, w.claim, w.site)
    ensures Held(AfterClaim(w, ClaimTurn(w, c, io), again))
  {
    if w.disk.None? {
      DyingKeeps(w);
    } else {
      match c
      case Try(r) => AttemptKeeps(w, r, None, again, io);
      case Reget => GoingKeeps(w, Claiming(Clean(w.disk.value), again));
      case Clean(r) =>
        SweepingKeeps(w);
        DyingKeeps(w);
        GoingKeeps(Cleaned(w), Claiming(Confirm(r), again));
      case Confirm(r) => AttemptKeeps(w, r, Some(r.revision), again, io);
    }
  }

  lemma AttemptKeeps(w: World, r: Receipt, confirmed: Option<int>, again: bool, io: Io)
    requires Base(w) && CancelNoted(w) && w.worker.At? && w.disk.Some? && !w.worker.staged
    requires Unclaimed(w.disk, w.claim)
    requires confirmed.Some? && Live(w.disk) ==>
      !HoldsClaim(w.disk, w.claim) && ClaimTerminalizes(w.disk.value) && w.site.custody == NO_FILES
    ensures Held(AfterClaim(w, ClaimAttempt(w, r, confirmed, io), again))
  {
    var d := w.disk.value;
    var next := ClaimReceipt(d, w.claim, confirmed, io.now);
    if d.revision != r.revision {
      DyingKeeps(w);
      GoingKeeps(w, Begin(true));
    } else if next.Err? {
      DyingKeeps(w);
      if next.error.CleanupRequiredError? {
        GoingKeeps(w, Claiming(Reget, again));
      }
    } else {
      ClaimReceiptFits(d, w.claim, confirmed, io.now);
      AdmittedKeeps(w, next.value, again, io);
    }
  }

  lemma AdmittedKeeps(w: World, next: Receipt, again: bool, io: Io)
    requires Base(w) && CancelNoted(w) && w.worker.At? && w.disk.Some? && !w.worker.staged
    requires Unclaimed(w.disk, w.claim) && Workable(w.disk.value.phase)
    requires if HoldsClaim(w.disk, w.claim) then next == w.disk.value
             else if ClaimTerminalizes(w.disk.value)
             then Quarantines(w.disk.value, next) && w.site.custody == NO_FILES
             else Claims(w.disk.value, next)
    ensures Held(AfterClaim(w, ClaimSettles(w, Ok(next), io), again))
  {
    if HoldsClaim(w.disk, w.claim) {
      GoingKeeps(w, Top(w.disk.value));
    } else {
      WonKeeps(w, next, io, again);
    }
  }

  lemma WonKeeps(w: World, next: Receipt, io: Io, again: bool)
    requires Base(w) && CancelNoted(w) && w.worker.At? && !w.worker.staged
    requires Live(w.disk) && !HoldsClaim(w.disk, w.claim)
    requires if ClaimTerminalizes(w.disk.value) then Quarantines(w.disk.value, next) && w.site.custody == NO_FILES
             else Claims(w.disk.value, next)
    requires Workable(w.disk.value.phase)
    ensures var w1 := WriteReceipt(w, next, io);
      && Held(Die(w1)) && Held(Die(w.(claim := None)))
      && (WriteReturns(next, io) ==>
            Held(Go((if next.IsTerminal() then w1 else w1.(claim := Some(next.executorGeneration))), Top(next))))
  {
    ClaimLands(w, next, io);
    var w1 := WriteReceipt(w, next, io);
    DyingKeeps(w1);
    assert Base(w.(claim := None));
    DyingKeeps(w.(claim := None));
    if WriteReturns(next, io) {
      GoingKeeps(if next.IsTerminal() then w1 else w1.(claim := Some(next.executorGeneration)), Top(next));
    }
  }

  // ----- everything that happens around the worker -----

  /** How the receipt, the claim and the site may change between two turns of the worker. */
  ghost predicate Drifts(disk: Option<Receipt>, claim: Option<int>, s: Site, disk1: Option<Receipt>,
                         claim1: Option<int>, s1: Site) {
    && DiskDrifts(disk, disk1)
    && (HoldsClaim(disk1, claim1) ==> HoldsClaim(disk, claim))
    && s1.pushes == s.pushes && s1.installs == s.installs && s1.launches == s.launches
    && s1.unclear == s.unclear
    && (s1.slot == Mine ==> s.slot == Mine)
    && (s1.custody == s.custody || s1.custody == NO_FILES)
    && (s1.cancelSeen ==> s.cancelSeen || (Live(disk1) && disk1.value.cancelRequested))
  }

  /** A cancel request lands, the resume scan ends an ambiguous job, a flow finalizes a
      healthy one, or a finished one is pruned. */
  ghost predicate DiskDrifts(disk: Option<Receipt>, disk1: Option<Receipt>) {
    || disk1 == disk
    || (disk.Some? && disk1.Some? && Live(disk) && Tracks(disk1.value, disk.value))
    || (Ambiguous(disk) && (disk1.Some? ==> disk1.value.phase == RecoveryRequired))
    || (disk.Some? && disk.value.phase == HealthyUnclaimed && (disk1.Some? ==> Terminal(disk1.value.phase)))
    || (disk.Some? && Terminal(disk.value.phase) && disk1.None?)
  }

  lemma SnapDrifts(disk: Option<Receipt>, claim: Option<int>, s: Site, disk1: Option<Receipt>, claim1: Option<int>,
                   s1: Site,
                   staged: bool, r: Receipt)
    requires Drifts(disk, claim, s, disk1, claim1, s1) && Snap(disk, s, staged, r) && CoreOk(disk1, s1)
    ensures Snap(disk1, s1, staged, r)
    ensures disk != Some(r) ==> disk1 != Some(r)
  {}

  lemma PcDrifts(pc: Pc, staged: bool, disk: Option<Receipt>, claim: Option<int>, s: Site,
                 disk1: Option<Receipt>, claim1: Option<int>, s1: Site)
    requires Drifts(disk, claim, s, disk1, claim1, s1) && CoreOk(disk1, s1)
    requires PcOk(pc, staged, disk, claim, s)
    ensures PcOk(pc, staged, disk1, claim1, s1)
  {
    if LoopPc(pc) {
      LoopPcDrifts(pc, staged, disk, claim, s, disk1, claim1, s1);
    } else if ActPc(pc) {
      SnapDrifts(disk, claim, s, disk1, claim1, s1, staged, pc.r);
    } else if !EndPc(pc) {
      FilePcDrifts(pc, staged, disk, claim, s, disk1, claim1, s1);
    }
  }

  lemma LoopPcDrifts(pc: Pc, staged: bool, disk: Option<Receipt>, claim: Option<int>, s: Site,
                 disk1: Option<Receipt>, claim1: Option<int>, s1: Site)
    requires Drifts(disk, claim, s, disk1, claim1, s1) && CoreOk(disk1, s1)
    requires PcOk(pc, staged, disk, claim, s)
    requires LoopPc(pc)
    ensures PcOk(pc, staged, disk1, claim1, s1)
  {
    match pc
    case Begin(_) =>
    case Claiming(_, _) =>
    case Top(r) => if Workable(r.phase) { SnapDrifts(disk, claim, s, disk1, claim1, s1, staged, r); }
    case Moving(r, _, _) => SnapDrifts(disk, claim, s, disk1, claim1, s1, staged, r);
    case Rereading(r) => SnapDrifts(disk, claim, s, disk1, claim1, s1, staged, r);
  }

  lemma FilePcDrifts(pc: Pc, staged: bool, disk: Option<Receipt>, claim: Option<int>, s: Site,
                 disk1: Option<Receipt>, claim1: Option<int>, s1: Site)
    requires Drifts(disk, claim, s, disk1, claim1, s1) && CoreOk(disk1, s1)
    requires PcOk(pc, staged, disk, claim, s)
    requires FetchPc(pc) || CleanPc(pc)
    ensures PcOk(pc, staged, disk1, claim1, s1)
  {
    SnapDrifts(disk, claim, s, disk1, claim1, s1, staged, pc.r);
  }

  /** A drift under the worker keeps the worker's own part. */
  lemma DriftKeepsWorker(w: World, t: World)
    requires Held(w) && t.worker == w.worker && t.halted == w.halted && CoreOk(t.disk, t.site)
    requires Drifts(w.disk, w.claim, w.site, t.disk, t.claim, t.site)
    ensures WorkerOk(t)
  {
    match w.worker
    case Idle =>
    case At(pc, _, staged, _) => PcDrifts(pc, staged, w.disk, w.claim, w.site, t.disk, t.claim, t.site);
  }

  lemma ResumerMoves(w: World, resumer: Resumer)
    requires Held(w) && ScanOk(resumer, w.disk, w.claim, w.site.custody)
    ensures Held(w.(resumer := resumer))
  {}

  /** One await of the resume scan. */
  lemma ScanKeeps(w: World, io: Io)
    requires Inv(w) && !w.resumer.Resting?
    ensures Held(ScanTurn(w, io))
  {
    if w.resumer.ScanGet? || w.disk.None? || w.resumer.c.Reget? {
      ResumerMoves(w, ScanTurn(w, io).resumer);
    } else {
      match w.resumer.c
      case Try(r) => ScanTries(w, r, io);
      case Clean(_) => ScanCleans(w, io);
      case Confirm(r) => ScanConfirms(w, r, io);
    }
  }

  lemma ScanTries(w: World, r: Receipt, io: Io)
    requires Inv(w) && w.resumer.Scanning? && w.resumer.c == Try(r) && w.disk.Some?
    ensures Held(ScanTurn(w, io))
  {
    if w.disk.value.revision == r.revision {
      var next := ClaimReceipt(w.disk.value, w.claim, None, io.now);
      if next.Ok? {
        ClaimReceiptFits(w.disk.value, w.claim, None, io.now);
      }
    }
    ResumerMoves(w, ScanTurn(w, io).resumer);
  }

  lemma ScanCleans(w: World, io: Io)
    requires Inv(w) && w.resumer.Scanning? && w.resumer.c.Clean? && w.disk.Some?
    ensures Held(ScanTurn(w, io))
  {
    SweepingKeeps(w);
    DriftKeepsWorker(w, ScanTurn(w, io));
  }

  lemma ScanConfirms(w: World, r: Receipt, io: Io)
    requires Inv(w) && w.resumer.Scanning? && w.resumer.c == Confirm(r) && w.disk.Some?
    ensures Held(ScanTurn(w, io))
  {
    var next := ClaimReceipt(w.disk.value, w.claim, Some(r.revision), io.now);
    if w.disk.value.revision == r.revision && next.Ok? {
      ClaimReceiptFits(w.disk.value, w.claim, Some(r.revision), io.now);
      ConfirmWrites(w, r, next.value, io);
      ScanQuarantines(w, next.value, io);
    } else {
      ConfirmLeaves(w, r, io);
      ResumerMoves(w, Resting);
      ResumerMoves(w, ScanGet);
    }
  }

  lemma ConfirmWrites(w: World, r: Receipt, next: Receipt, io: Io)
    requires w.resumer.Scanning? && w.resumer.c == Confirm(r) && w.disk.Some?
    requires ClaimReceipt(w.disk.value, w.claim, Some(r.revision), io.now) == Ok(next)
    requires w.disk.value.revision == r.revision && next.phase == RecoveryRequired && Workable(w.disk.value.phase)
    ensures ScanTurn(w, io) == WriteReceipt(w, next, io).(resumer := Resting)
            || ScanTurn(w, io) == w.(claim := None, resumer := Resting)
  {}

  lemma ConfirmLeaves(w: World, r: Receipt, io: Io)
    requires w.resumer.Scanning? && w.resumer.c == Confirm(r) && w.disk.Some?
    requires w.disk.value.revision != r.revision || ClaimReceipt(w.disk.value, w.claim, Some(r.revision), io.now).Err?
    ensures ScanTurn(w, io) == w.(resumer := Resting) || ScanTurn(w, io) == w.(resumer := ScanGet)
  {}

  lemma DroppedClaimsKeep(w: World)
    requires Inv(w)
    ensures Held(w.(claim := None))
  {
    DriftKeepsWorker(w, w.(claim := None));
  }

  lemma ScanQuarantines(w: World, next: Receipt, io: Io)
    requires Inv(w) && w.resumer.Scanning? && w.resumer.c.Confirm? && w.disk.Some?
    requires Live(w.disk) && Quarantines(w.disk.value, next)
    ensures Held(WriteReceipt(w, next, io).(resumer := Resting))
    ensures Held(w.(claim := None, resumer := Resting))
  {
    QuarantineLands(w, next, io);
    ResumerMoves(WriteReceipt(w, next, io), Resting);
    DroppedClaimsKeep(w);
    ResumerMoves(w.(claim := None), Resting);
  }

  lemma QuarantineLands(w: World, next: Receipt, io: Io)
    requires Inv(w) && Ambiguous(w.disk) && !HoldsClaim(w.disk, w.claim) && w.site.custody == NO_FILES
    requires Quarantines(w.disk.value, next)
    ensures Held(WriteReceipt(w, next, io))
  {
    ClaimLands(w, next, io);
    DriftKeepsWorker(w, WriteReceipt(w, next, io));
  }

  lemma ProcessLossKeeps(w: World)
    requires Inv(w)
    ensures Held(Lost(w).(claim := None, halted := false, resumer := Resting))
  {}

  lemma EnsuringKeeps(w: World)
    requires Inv(w) && w.worker.Idle? && !w.halted
    ensures Held(w.(worker := At(Begin(false), false, false, false)))
  {}

  lemma CancelKeeps(w: World, io: Io)
    requires Inv(w) && w.disk.Some?
    ensures Held(OutsiderWrites(w, RequestCancel(w.disk.value, io.now), io))
  {
    var next := RequestCancel(w.disk.value, io.now);
    if next.Ok? && next.value != w.disk.value {
      assert DiskOk(w.site, next.value);
      CancelLands(w, next.value, io);
    }
  }

  lemma CancelLands(w: World, next: Receipt, io: Io)
    requires Inv(w) && Live(w.disk) && Tracks(next, w.disk.value) && next != w.disk.value && DiskOk(w.site, next)
    ensures Held(WriteReceipt(w, next, io))
  {
    var t := WriteReceipt(w, next, io);
    assert CoreOk(t.disk, t.site);
    DriftKeepsWorker(w, t);
  }

  lemma FinalizingKeeps(w: World, phase: Phase, f: Facts, io: Io)
    requires Inv(w) && w.disk.Some? && w.disk.value.phase == HealthyUnclaimed
    ensures Held(OutsiderWrites(w, Transition(w.disk.value, w.claim, phase, f, io.now), io))
  {
    var next := Transition(w.disk.value, w.claim, phase, f, io.now);
    if next.Ok? {
      TransitionFollows(w.disk.value, w.claim, phase, f, io.now);
      FinalityLands(w, next.value, io);
    }
  }

  lemma FinalityLands(w: World, next: Receipt, io: Io)
    requires Inv(w) && w.disk.Some? && w.disk.value.phase == HealthyUnclaimed && Follows(w.disk.value, next, w.claim)
    ensures Held(WriteReceipt(w, next, io))
  {
    FollowingIsOk(w.site, w.disk.value, next, w.claim);
    WriteKeepsBase(w, next, io);
    DriftKeepsWorker(w, WriteReceipt(w, next, io));
  }

  lemma PruningKeeps(w: World)
    requires Inv(w) && w.disk.Some? && w.disk.value.IsTerminal()
    ensures Held(w.(disk := None, claim := None))
  {
    DriftKeepsWorker(w, w.(disk := None, claim := None));
  }

  lemma OthersKeep(w: World, slot: Slot)
    requires Inv(w) && slot != Mine
    ensures Held(w.(site := w.site.(slot := slot)))
  {
    DriftKeepsWorker(w, w.(site := w.site.(slot := slot)));
  }

  lemma EffectKeeps(w: World, e: Event)
    requires Inv(w)
    ensures Held(Effect(w, e))
  {
    match e
    case WorkerTurn(io) => if w.worker.At? { TurnKeeps(w, io); }
    case ResumeTurn(io) => if !w.resumer.Resting? { ScanKeeps(w, io); }
    case EnsureJob => if w.worker.Idle? && !w.halted { EnsuringKeeps(w); }
    case ResumeScan =>
    case CancelAsked(_, io) =>
      if w.disk.Some? { CancelKeeps(w, io); }
    case ClaimsDropped => DroppedClaimsKeep(w);
    case WorkerStopped => if w.worker.At? { DyingKeeps(w); }
    case ScanStopped => ResumerMoves(w, Resting);
    case ProcessLost => ProcessLossKeeps(w);
    case FlowFinalizes(phase, facts, io) =>
      if w.disk.Some? && w.disk.value.phase == HealthyUnclaimed { FinalizingKeeps(w, phase, facts, io); }
    case PrunedAway => if w.disk.Some? && w.disk.value.IsTerminal() { PruningKeeps(w); }
    case OtherJobStages => OthersKeep(w, Foreign);
    case OtherJobErases => OthersKeep(w, Empty);
  }

  /** Recording a durable cancel request is itself a drift. */
  lemma NotingKeeps(w: World)
    requires Held(w)
    ensures Inv(Noted(w))
  {
    var t := Noted(w);
    assert CoreOk(t.disk, t.site);
    DriftKeepsWorker(w, t);
  }

  lemma StepKeeps(w: World, e: Event)
    requires Inv(w)
    ensures Inv(Step(w, e))
  {
    EffectKeeps(w, e);
    NotingKeeps(Effect(w, e));
  }

  lemma {:induction false} RunKeeps(w: World, events: seq<Event>)
    requires JustApproved(w)
    ensures Inv(After(w, events))
    decreases |events|
  {
    if |events| > 0 {
      RunKeeps(w, events[..|events| - 1]);
      StepKeeps(After(w, events[..|events| - 1]), events[|events| - 1]);
    }
  }

  lemma TurnKeeps(w: World, io: Io)
    requires Inv(w) && w.worker.At?
    ensures Held(Turn(w, io))
  {
    if LoopPc(w.worker.pc) {
      LoopTurnKeeps(w, io);
    } else if ActPc(w.worker.pc) {
      ActTurnKeeps(w, io);
    } else if EndPc(w.worker.pc) {
      EndTurnKeeps(w, io);
    } else if FetchPc(w.worker.pc) {
      ArtifactTurnKeeps(w, io);
    } else {
      CleanupTurnKeeps(w, io);
    }
  }

  lemma LoopTurnKeeps(w: World, io: Io)
    requires Inv(w) && w.worker.At? && LoopPc(w.worker.pc)
    ensures Held(LoopTurn(w, io))
  {
    match w.worker.pc
    case Begin(_) => BeginKeeps(w, io);
    case Claiming(c, again) => ClaimingKeeps(w, c, again, io);
    case Top(r) => TopKeeps(w, r, io);
    case Moving(r, phase, facts) => MovingKeeps(w, r, phase, facts, io);
    case Rereading(r) => RereadKeeps(w, r);
  }

  lemma BeginKeeps(w: World, io: Io)
    requires Inv(w) && w.worker.At? && w.worker.pc.Begin?
    ensures Held(LoopTurn(w, io))
  {
    if w.disk.None? {
      DyingKeeps(w);
    } else {
      GoingKeeps(w, Claiming(Try(w.disk.value), w.worker.pc.again));
    }
  }

  lemma EndTurnKeeps(w: World, io: Io)
    requires Inv(w) && w.worker.At? && EndPc(w.worker.pc)
    ensures Held(EndTurn(w, io))
  {
    if w.worker.pc.FailMove? || w.worker.pc.RecMove? {
      EndMoveKeeps(w, io);
    } else {
      EndReadKeeps(w, io);
    }
  }

  lemma EndMoveKeeps(w: World, io: Io)
    requires Inv(w) && w.worker.At? && (w.worker.pc.FailMove? || w.worker.pc.RecMove?)
    ensures Held(EndTurn(w, io))
  {
    match w.worker.pc
    case FailMove(r, code) => EndingKeeps(w, r, Failed, code, io);
    case RecMove(r, code) => EndingKeeps(w, r, RecoveryRequired, code, io);
  }

  lemma EndReadKeeps(w: World, io: Io)
    requires Inv(w) && w.worker.At? && EndPc(w.worker.pc) && !w.worker.pc.FailMove? && !w.worker.pc.RecMove?
    ensures Held(EndTurn(w, io))
  {
    match w.worker.pc
    case FailGet(code) => GettingKeeps(w, d => FailMove(d, code));
    case RecGet(code) => GettingKeeps(w, d => RecClean(code));
    case RecClean(code) => RecCleanKeeps(w, code, io);
    case RecGetAgain(code) => GettingKeeps(w, d => RecMove(d, code));
  }

  lemma ActTurnKeeps(w: World, io: Io)
    requires Inv(w) && w.worker.At? && ActPc(w.worker.pc)
    ensures Held(PanelTurn(w, io))
  {
    match w.worker.pc
    case Authorize(r, act) => AuthorizeKeeps(w, r, act, io);
    case Barrier(r, act) => BarrierKeeps(w, r, act);
    case Acting(r, act) => ActKeeps(w, r, act, io);
  }

  lemma ArtifactTurnKeeps(w: World, io: Io)
    requires Inv(w) && w.worker.At? && FetchPc(w.worker.pc)
    ensures Held(ArtifactTurn(w, io))
  {
    match w.worker.pc
    case Fetch(r) => FetchTurnKeeps(w, r, io);
    case Fetching(r) => FetchEndKeeps(w, r, io);
    case ClearStale(r) => ClearStaleKeeps(w, r, io);
    case Recheck(r) => GoingKeeps(w, if io.ok then PlainMove(r, Staging) else CleanThenFail(r, io.code));
  }

  lemma CleanupTurnKeeps(w: World, io: Io)
    requires Inv(w) && w.worker.At? && CleanPc(w.worker.pc)
    ensures Held(CleanupTurn(w, io))
  {
    match w.worker.pc
    case CleanThenFail(r, code) => CleanThenFailKeeps(w, r, code, io);
    case CleanInstalled(r) => CleanKeeps(w, PlainMove(r, Launching), io);
    case CleanRefused(r) => CleanKeeps(w, FailGet(InstallFailed), io);
    case CancelClean(r) => CancelCleanKeeps(w, r, io);
  }
}
