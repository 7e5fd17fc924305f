/** The promises of the install protocol, for every run from an approved job: any order of
    worker turns, scans, cancel requests, failed saves, stopped workers and lost processes. */
module InstallResults {
  import opened Wrappers
  import opened Receipts
  import opened InstallProtocol
  import opened InstallSafety

  /** The push, the install and the launch each happen at most once, and in that order. */
  lemma {:induction false} AtMostOnce(w: World, events: seq<Event>)
    requires JustApproved(w)
    ensures var s := After(w, events).site;
      s.launches <= s.installs <= s.pushes <= 1
  {
    RunKeeps(w, events);
  }

  /** A job that reports success did each of them exactly once. */
  lemma {:induction false} SuccessIsExactlyOnce(w: World, events: seq<Event>)
    requires JustApproved(w)
    ensures var t := After(w, events);
      t.disk.Some? && (t.disk.value.phase.HealthyUnclaimed? || t.disk.value.phase.Consumed?) ==>
        t.site.pushes == t.site.installs == t.site.launches == 1
  {
    RunKeeps(w, events);
  }

  /** A definite ending leaves nothing of the job in the panel's staging slot. */
  lemma {:induction false} NoResidue(w: World, events: seq<Event>)
    requires JustApproved(w)
    ensures var t := After(w, events);
      t.disk.Some? && Resolved(t.disk.value.phase) ==> t.site.slot != Mine
  {
    RunKeeps(w, events);
  }

  /** Whenever a receipt is terminal or gone, the job owns no local file. */
  lemma {:induction false} CustodyGoneWhenTerminal(w: World, events: seq<Event>)
    requires JustApproved(w)
    ensures var t := After(w, events);
      !Live(t.disk) ==> t.site.custody == NO_FILES
  {
    RunKeeps(w, events);
  }

  // ----- what is never taken back -----

  lemma MarksStay(w: World, e: Event)
    ensures w.site.unclear ==> Step(w, e).site.unclear
    ensures w.site.cancelSeen ==> Step(w, e).site.cancelSeen
  {
    match e
    case WorkerTurn(io) => if w.worker.At? { TurnMarks(w, io); }
    case ResumeTurn(io) => if !w.resumer.Resting? { ScanMarks(w, io); }
    case CancelAsked(_, io) => if w.disk.Some? { OutsiderMarks(w, RequestCancel(w.disk.value, io.now), io); }
    case FlowFinalizes(phase, f, io) =>
      if w.disk.Some? { OutsiderMarks(w, Transition(w.disk.value, w.claim, phase, f, io.now), io); }
    case _ =>
  }

  lemma ScanMarks(w: World, io: Io)
    requires !w.resumer.Resting?
    ensures Keeps(w.site, ScanTurn(w, io).site)
  {
    if w.resumer.Scanning? && w.disk.Some? {
      match w.resumer.c
      case Try(_) => ScanSettleMarks(w, ClaimReceipt(w.disk.value, w.claim, None, io.now), io);
      case Confirm(r) => ScanSettleMarks(w, ClaimReceipt(w.disk.value, w.claim, Some(r.revision), io.now), io);
      case _ =>
    }
  }

  lemma ScanSettleMarks(w: World, next: Result<Receipt, JobError>, io: Io)
    requires w.disk.Some?
    ensures match ClaimSettles(w, next, io) {
      case ClaimMoves(w1, _) => Keeps(w.site, w1.site)
      case ClaimWon(w1, _) => Keeps(w.site, w1.site)
      case ClaimStale => true
      case ClaimRaised(w1) => Keeps(w.site, w1.site)
    }
  {}

  predicate Keeps(s: Site, t: Site) { (s.unclear ==> t.unclear) && s.cancelSeen == t.cancelSeen }

  lemma TurnMarks(w: World, io: Io)
    requires w.worker.At?
    ensures Keeps(w.site, Turn(w, io).site)
  {
    if LoopPc(w.worker.pc) {
      LoopMarks(w, io);
    } else if ActPc(w.worker.pc) {
      ActMarks(w, w.worker.pc.r, w.worker.pc.act, io);
    } else if EndPc(w.worker.pc) {
      EndMarks(w, io);
    } else {
      FileMarks(w, io);
    }
  }

  lemma LoopMarks(w: World, io: Io)
    requires w.worker.At? && LoopPc(w.worker.pc)
    ensures Keeps(w.site, LoopTurn(w, io).site)
  {
    match w.worker.pc
    case Begin(_) =>
    case Claiming(c, again) => ClaimMarks(w, c, again, io);
    case Top(_) =>
    case Moving(r, phase, facts) => MoveMarks(w, r, phase, facts, Rereading(r), io);
    case Rereading(_) =>
  }

  lemma EndMarks(w: World, io: Io)
    requires w.worker.At? && EndPc(w.worker.pc)
    ensures Keeps(w.site, EndTurn(w, io).site)
  {
    match w.worker.pc
    case FailMove(r, code) => MoveMarks(w, r, Failed, Ending(code), Top(r), io);
    case RecMove(r, code) => MoveMarks(w, r, RecoveryRequired, Ending(code), Top(r), io);
    case _ =>
  }

  lemma FileMarks(w: World, io: Io)
    requires w.worker.At?
    ensures FetchPc(w.worker.pc) ==> Keeps(w.site, ArtifactTurn(w, io).site)
    ensures CleanPc(w.worker.pc) ==> Keeps(w.site, CleanupTurn(w, io).site)
  {}

  lemma MoveMarks(w: World, r: Receipt, phase: Phase, facts: Facts, stale: Pc, io: Io)
    requires w.worker.At?
    ensures Keeps(w.site, MoveTurn(w, r, phase, facts, stale, io).site)
  {
    if w.disk.None? || w.disk.value.revision != r.revision {
      assert Keeps(w.site, MoveTurn(w, r, phase, facts, stale, io).site);
    } else {
      var next := Transition(w.disk.value, w.claim, phase, facts, io.now);
      assert MoveTurn(w, r, phase, facts, stale, io) == Settle(w, next, io);
      SettleMarks(w, next, io);
    }
  }

  lemma SettleMarks(w: World, next: Result<Receipt, JobError>, io: Io)
    requires w.worker.At?
    ensures Keeps(w.site, Settle(w, next, io).site)
  {}

  lemma ClaimSettleMarks(w: World, next: Result<Receipt, JobError>, again: bool, io: Io)
    requires w.worker.At? && w.disk.Some?
    ensures Keeps(w.site, AfterClaim(w, ClaimSettles(w, next, io), again).site)
  {}

  lemma OutsiderMarks(w: World, next: Result<Receipt, JobError>, io: Io)
    ensures Keeps(w.site, OutsiderWrites(w, next, io).site)
  {}

  lemma ClaimMarks(w: World, c: ClaimPc, again: bool, io: Io)
    requires w.worker.At?
    ensures Keeps(w.site, AfterClaim(w, ClaimTurn(w, c, io), again).site)
  {
    if w.disk.Some? {
      match c
      case Try(_) => ClaimSettleMarks(w, ClaimReceipt(w.disk.value, w.claim, None, io.now), again, io);
      case Confirm(r) => ClaimSettleMarks(w, ClaimReceipt(w.disk.value, w.claim, Some(r.revision), io.now), again, io);
      case _ =>
    }
  }

  lemma ActMarks(w: World, r: Receipt, act: Act, io: Io)
    requires w.worker.At?
    ensures Keeps(w.site, ActTurn(w, r, act, io).site)
    ensures Keeps(w.site, AuthorizeTurn(w, r, act, io).site)
    ensures Keeps(w.site, BarrierTurn(w, r, act).site)
  {}

  lemma {:induction false} MarksStayAlong(w: World, events: seq<Event>, i: nat)
    requires i <= |events|
    ensures After(w, events[..i]).site.unclear ==> After(w, events).site.unclear
    ensures After(w, events[..i]).site.cancelSeen ==> After(w, events).site.cancelSeen
    decreases |events|
  {
    if i == |events| {
      assert events[..i] == events;
    } else {
      var before := events[..|events| - 1];
      assert before[..i] == events[..i];
      MarksStayAlong(w, before, i);
      MarksStay(After(w, before), events[|events| - 1]);
    }
  }

  /** Once a mutation's outcome is unknown, the job never reports a definite ending. */
  lemma {:induction false} UnclearEndsInRecovery(w: World, events: seq<Event>, i: nat)
    requires JustApproved(w) && i <= |events| && After(w, events[..i]).site.unclear
    ensures var t := After(w, events);
      t.disk.Some? ==> RestartAmbiguous(t.disk.value.phase) || t.disk.value.phase == RecoveryRequired
  {
    RunKeeps(w, events);
    MarksStayAlong(w, events, i);
  }

  predicate CancelDurable(w: World) { w.disk.Some? && w.disk.value.cancelRequested }

  /** Once a cancel request is durable, nothing is installed or launched in any continuation,
      and the job can only end as cancelled, failed or to be recovered. */
  lemma {:induction false} CancelFences(w: World, events: seq<Event>, i: nat)
    requires JustApproved(w) && i <= |events| && CancelDurable(After(w, events[..i]))
    ensures var t := After(w, events);
      && t.site.installs == 0 && t.site.launches == 0
      && (t.disk.Some? ==>
            t.disk.value.cancelRequested
            && (Cancellable(t.disk.value.phase) || t.disk.value.phase.Cancelled?
                || t.disk.value.phase.Failed? || t.disk.value.phase.RecoveryRequired?))
  {
    RunKeeps(w, events[..i]);
    RunKeeps(w, events);
    MarksStayAlong(w, events, i);
  }
}
