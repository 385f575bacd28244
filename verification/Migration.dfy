/**
 One migration as the code runs it: a straight body with early returns, a deferred cleanup that
 branches on the flags imported, preserve and retain, and the release of the fence. Every step it
 takes is an event of the guest's life, whatever the agents and the database answer.
 */
module Migration {
  import opened Common
  import opened Lifecycle

  /** The answers of the agents, the database and the archive storage, in the order of asking. */
  datatype Answers = Answers(
    accepted: bool, reserved: bool,
    exported: bool, saved: bool, closed: bool, staged: bool,
    importLogged: bool, archiveOpened: bool, importCall: Outcome, archiveClosed: bool,
    verifyLogged: bool, answered: bool, matches: bool,
    marked: bool, switchLogged: bool, switched: bool,
    deleteLogged: bool, sourceCall: Outcome, sourceReleased: bool, archiveRemoved: bool, readBack: bool,
    targetCall: Outcome, cleanupMarked: bool, targetReleased: bool, failureMarked: bool,
    finishLogged: bool, recorded: bool, fenceReleased: bool)
  {
    // how far good answers carry a migration

    predicate Reserves() { accepted && reserved }
    predicate Archives() { Reserves() && exported && saved && closed && staged }
    predicate Imports() { Archives() && importLogged && archiveOpened }
    predicate Arrives() { Imports() && importCall.Confirmed? }
    predicate Verifies() { Arrives() && archiveClosed && verifyLogged && answered && matches }
    predicate Switches() { Verifies() && marked && switchLogged && switched }
    predicate Leaves() { Switches() && deleteLogged && sourceCall.Confirmed? }
    predicate Closes() { Leaves() && sourceReleased && archiveRemoved }
    predicate Returns() { Closes() && readBack }

    // where an error leads

    /** A confirmed target that has not been verified, or that the failed closing read gives up. */
    predicate GivesUpTarget() { (Arrives() && !Verifies()) || (Closes() && !Returns()) }

    /** An outcome that stays unknown, or something that must stay for an operator. */
    predicate InDoubt() {
      || (Imports() && !Arrives())
      || (Verifies() && !Closes())
      || (GivesUpTarget() && !targetCall.Confirmed?)
      || (Reserves() && !Imports() && !targetReleased)
      || (GivesUpTarget() && !targetReleased)
    }

    predicate Releases() { finishLogged && recorded && fenceReleased }

    /** What has to have been done in the end, and nothing else. */
    predicate Due(d: Deed) {
      match d
      case ImportSent => Imports()
      case OwnershipSwitched => Switches()
      case SourceDeletionDue => Switches()
      case SourceRemoved => Leaves()
      case SourceFreed => Leaves() && sourceReleased
      case TargetDeletionSent => GivesUpTarget()
      case DoubtRecorded => GivesUpTarget() && !targetCall.Confirmed?
      case TargetFreed => Gone() && targetReleased
      case FailureRecorded => Gone() && targetReleased
    }

    /** There never was a target, or there is none any more. */
    predicate Gone() { (Reserves() && !Imports()) || (GivesUpTarget() && targetCall.Confirmed?) }
  }

  /** What a migration asks of the agents or writes for good. */
  datatype Deed =
    | ImportSent | OwnershipSwitched | SourceDeletionDue | SourceRemoved | SourceFreed
    | TargetDeletionSent | DoubtRecorded | TargetFreed | FailureRecorded

  predicate Is(d: Deed, e: Event) {
    match e
    case ImportCall(_) => d.ImportSent?
    case Switch(ok) => ok && d.OwnershipSwitched?
    case DeleteSource(o) => d.SourceDeletionDue? || (o.Confirmed? && d.SourceRemoved?)
    case ReleaseSource(ok) => ok && d.SourceFreed?
    case DeleteTarget(_) => d.TargetDeletionSent?
    case MarkCleanupFailed(_) => d.DoubtRecorded?
    case ReleaseTarget(ok) => ok && d.TargetFreed?
    case MarkFailed(_) => d.FailureRecorded?
    case _ => false
  }

  /** Part of the body, not of the cleanup. */
  predicate Before(d: Deed) {
    d.ImportSent? || d.OwnershipSwitched? || d.SourceDeletionDue? || d.SourceRemoved? || d.SourceFreed?
  }

  predicate Happened(es: seq<Event>, d: Deed) {
    es != [] && (Is(d, es[|es| - 1]) || Happened(es[..|es| - 1], d))
  }

  lemma HappenedSnoc(es: seq<Event>, e: Event)
    ensures forall d :: Happened(es + [e], d) <==> Happened(es, d) || Is(d, e)
  {
    assert (es + [e])[..|es|] == es;
  }

  lemma {:induction false} HappenedIff(es: seq<Event>, d: Deed)
    ensures Happened(es, d) <==> exists k :: 0 <= k < |es| && Is(d, es[k])
  {
    if es != [] {
      var init := es[..|es| - 1];
      HappenedIff(init, d);
      assert forall k | 0 <= k < |init| :: init[k] == es[k];
    }
  }

  lemma {:induction false} Snoc(g: Guest, es: seq<Event>, e: Event)
    requires Legal(g, es) && Enabled(After(g, es), e)
    ensures Legal(g, es + [e]) && After(g, es + [e]) == Step(After(g, es), e)
  {
    SplitRun(g, es, [e]);
    assert [e][1..] == [];
    assert Legal(After(g, es), [e]);
  }

  /** Where the guest is when the process is about to end. */
  lemma Outlook(g: Guest, es: seq<Event>, plan: Plan, punctual: bool)
    requires GuestOk(g) && Enabled(g, Reserve(plan)) && Legal(g, es) && (punctual ==> ClosingRead(false) !in es)
    ensures var e := After(g, es);
            && (InPhase(e, Returned) && e.fence.job.plan == plan ==>
                e.agent == plan.target && e.runtimes == {plan.target})
            && (e.fence.Held? && e.fence.job.Migrating? ==> e.expected && (punctual ==> e.agent in e.runtimes))
            && (InPhase(e, CleanedUp(false)) && e.fence.job.plan == plan ==>
                e.agent == plan.source && e.runtimes == {plan.source})
            && (InPhase(e, CleanedUp(true)) ==> !punctual)
  {
    GuestOkRun(g, es);
    if punctual {
      OnTimeRun(g, es);
    }
  }

  /** The guest in this phase of this migration, at the same place. */
  predicate Moved(g: Guest, g': Guest, plan: Plan, phase: Phase) {
    g.fence.Held? && g'.fence == g.fence.(job := Migrating(plan, phase)) && g'.agent == g.agent && g'.vpc == g.vpc
  }

  lemma ImportMoves(g: Guest, plan: Plan, o: Outcome)
    requires InPhase(g, Importing) && g.fence.job.plan == plan
    ensures Enabled(g, Abandon) && Moved(g, Step(g, Abandon), plan, TargetDeleted(false))
    ensures Enabled(g, ImportCall(o))
    ensures Moved(g, Step(g, ImportCall(o)), plan, if o.Confirmed? then Imported else Retained(ImportUnknown))
  {
  }

  lemma TargetDeletionMoves(g: Guest, plan: Plan, late: bool, o: Outcome)
    requires InPhase(g, CleaningUp(late)) && g.fence.job.plan == plan
    ensures Enabled(g, DeleteTarget(o))
    ensures Moved(g, Step(g, DeleteTarget(o)), plan,
                  if o.Confirmed? then TargetDeleted(late) else Retained(CleanupUnknown(late)))
  {
  }

  lemma ReleaseMoves(g: Guest, plan: Plan, late: bool, ok: bool)
    requires InPhase(g, TargetDeleted(late)) && g.fence.job.plan == plan
    ensures Enabled(g, ReleaseTarget(ok))
    ensures Moved(g, Step(g, ReleaseTarget(ok)), plan, if ok then CleanedUp(late) else Retained(ReservationsKept(late)))
  {
  }

  lemma SourceDeletionMoves(g: Guest, plan: Plan, o: Outcome)
    requires InPhase(g, Switched) && g.fence.job.plan == plan
    ensures Enabled(g, DeleteSource(o))
    ensures Moved(g, Step(g, DeleteSource(o)), plan, if o.Confirmed? then SourceDeleted else Retained(SourceUnknown))
  {
  }

  lemma SourceReleaseMoves(g: Guest, plan: Plan, ok: bool)
    requires InPhase(g, SourceDeleted) && g.fence.job.plan == plan
    ensures Enabled(g, ReleaseSource(ok))
    ensures Moved(g, Step(g, ReleaseSource(ok)), plan, if ok then Completed else Retained(SourceGone))
  {
  }

  lemma ClosingMoves(g: Guest, plan: Plan, ok: bool)
    requires g.fence.Held? && g.fence.alive && g.fence.job.Migrating? && g.fence.job.plan == plan
    ensures g.fence.job.phase.Completed? ==>
              && Enabled(g, DropArchive(ok))
              && Moved(g, Step(g, DropArchive(ok)), plan, if ok then Closing else Retained(ArchiveKept))
    ensures g.fence.job.phase.Closing? ==>
              && Enabled(g, ClosingRead(ok))
              && Moved(g, Step(g, ClosingRead(ok)), plan, if ok then Returned else CleaningUp(true))
  {
  }

  class Migrator {
    const plan: Plan
    var guest: Guest
    var imported: bool
    var preserve: bool
    var retain: bool
    ghost const start: Guest
    ghost var trace: seq<Event>

    /** The trace is a run of the life of the guest and has led it here. */
    ghost predicate Tracks()
      reads this
    {
      Legal(start, trace) && After(start, trace) == guest
    }

    ghost predicate Did(d: Deed)
      reads this
    {
      Happened(trace, d)
    }

    /** In this phase of this migration. */
    predicate In(phase: Phase)
      reads this
    {
      guest.fence.Held? && guest.fence.alive && guest.fence.job == Migrating(plan, phase)
    }

    predicate InDoubt()
      reads this
    {
      && guest.fence.Held? && guest.fence.alive && guest.fence.job.Migrating?
      && guest.fence.job.plan == plan && guest.fence.job.phase.Retained?
    }

    /** A process that has begun the operation and holds the fence. */
    constructor (g: Guest, plan: Plan)
      requires Running(g, Other)
      ensures Tracks() && guest == start == g && trace == [] && this.plan == plan && !imported && !preserve && !retain
    {
      guest, start, trace := g, g, [];
      imported, preserve, retain := false, false, false;
      this.plan := plan;
    }

    method Do(e: Event)
      requires Tracks() && Enabled(guest, e)
      modifies this`guest, this`trace
      ensures Tracks() && guest == Step(old(guest), e) && Extends(old(trace), e)
      ensures forall d :: Did(d) <==> old(Did(d)) || Is(d, e)
      ensures (Punctual() <==> old(Punctual()) && e != ClosingRead(false))
    {
      HappenedSnoc(trace, e);
      Snoc(start, trace, e);
      guest := Step(guest, e);
      trace := trace + [e];
    }

    ghost predicate Extends(before: seq<Event>, e: Event)
      reads this
    {
      trace == before + [e]
    }

    /** An event that leads to this phase of this migration. */
    method Enter(e: Event, ghost phase: Phase)
      requires Tracks() && Enabled(guest, e) && Moved(guest, Step(guest, e), plan, phase)
      modifies this`guest, this`trace
      ensures Tracks() && Moved(old(guest), guest, plan, phase)
      ensures forall d :: Did(d) <==> old(Did(d)) || Is(d, e)
      ensures (Punctual() <==> old(Punctual()) && e != ClosingRead(false))
    {
      Do(e);
    }

    /** The row of the guest says what it said before. */
    twostate predicate SameRow()
      reads this
    {
      guest.agent == old(guest.agent) && guest.vpc == old(guest.vpc)
    }

    /** The closing read has not failed. */
    ghost predicate Punctual()
      reads this
    {
      ClosingRead(false) !in trace
    }

    /** From the source to the archive. */
    method Export(a: Answers) returns (failed: bool)
      requires Tracks() && In(Preparing) && Punctual()
      modifies this`guest, this`trace
      ensures Tracks() && Punctual() && SameRow()
      ensures In(if failed then TargetDeleted(false) else Importing)
      ensures failed <==> !(a.exported && a.saved && a.closed && a.staged)
      ensures forall d :: Did(d) <==> old(Did(d))
    {
      failed := !a.exported || !a.saved || !a.closed || !a.staged;
      Do(Prepare(!failed));
    }

    /** From the archive to the target. An error says nothing about the target. */
    method Import(a: Answers) returns (failed: bool)
      requires Tracks() && In(Importing) && Punctual() && !imported && !preserve
      modifies this`guest, this`trace, this`imported, this`preserve
      ensures Tracks() && Punctual() && SameRow()
      ensures In(if !failed then Imported else if preserve then Retained(ImportUnknown) else TargetDeleted(false))
      ensures imported == !failed && (preserve <==> a.importLogged && a.archiveOpened && failed)
      ensures failed <==> !(a.importLogged && a.archiveOpened && a.importCall.Confirmed?)
      ensures forall d :: Did(d) <==> old(Did(d)) || (d.ImportSent? && a.importLogged && a.archiveOpened)
    {
      failed := true;
      ImportMoves(guest, plan, a.importCall);
      if !a.importLogged || !a.archiveOpened {
        Enter(Abandon, TargetDeleted(false));
        return;
      }
      Enter(ImportCall(a.importCall), if a.importCall.Confirmed? then Imported else Retained(ImportUnknown));
      if !a.importCall.Confirmed? {
        preserve := true;
        return;
      }
      imported := true;
      failed := false;
    }

    /** The target is there, is this instance, and is stopped. */
    method Check(a: Answers) returns (failed: bool)
      requires Tracks() && In(Imported) && Punctual()
      modifies this`guest, this`trace
      ensures Tracks() && Punctual() && SameRow()
      ensures In(if failed then CleaningUp(false) else Verified)
      ensures failed <==> !(a.archiveClosed && a.verifyLogged && a.answered && a.matches)
      ensures forall d :: Did(d) <==> old(Did(d))
    {
      failed := !a.archiveClosed || !a.verifyLogged || !a.answered || !a.matches;
      Do(Verify(!failed));
    }

    /** From here on both identities and the fence are kept on failure. */
    method SwitchOwnership(a: Answers) returns (failed: bool)
      requires Tracks() && In(Verified) && Punctual() && guest.agent == plan.source
      modifies this`guest, this`trace, this`preserve
      ensures Tracks() && Punctual() && preserve
      ensures In(if failed then Retained(TargetKept) else Switched)
      ensures !failed ==> guest.agent == plan.target && guest.vpc == plan.targetVpc
      ensures failed <==> !(a.marked && a.switchLogged && a.switched)
      ensures forall d :: Did(d) <==> old(Did(d)) || (d.OwnershipSwitched? && !failed)
    {
      Do(MarkSwitching(a.marked));
      preserve := true;
      if !a.marked {
        return true;
      }
      failed := !a.switchLogged || !a.switched;
      Do(Switch(!failed));
    }

    predicate Left(a: Answers, d: Deed) {
      match d
      case SourceDeletionDue => true
      case SourceRemoved => a.deleteLogged && a.sourceCall.Confirmed?
      case SourceFreed => a.deleteLogged && a.sourceCall.Confirmed? && a.sourceReleased
      case _ => false
    }

    /** The source goes last, and its reservations after it. */
    method LeaveSource(a: Answers) returns (failed: bool)
      requires Tracks() && In(Switched) && Punctual()
      modifies this`guest, this`trace
      ensures Tracks() && Punctual() && SameRow()
      ensures if failed then InDoubt() else In(Completed)
      ensures failed <==> !(a.deleteLogged && a.sourceCall.Confirmed? && a.sourceReleased)
      ensures forall d :: Did(d) <==> old(Did(d)) || Left(a, d)
    {
      failed := !a.deleteLogged || !a.sourceCall.Confirmed?;
      var o := if a.deleteLogged then a.sourceCall else Refused;
      SourceDeletionMoves(guest, plan, o);
      Enter(DeleteSource(o), if o.Confirmed? then SourceDeleted else Retained(SourceUnknown));
      if failed {
        return;
      }
      failed := !a.sourceReleased;
      SourceReleaseMoves(guest, plan, !failed);
      Enter(ReleaseSource(!failed), if failed then Retained(SourceGone) else Completed);
    }

    /** The archive goes, and the row is read once more. */
    method Close(a: Answers) returns (failed: bool)
      requires Tracks() && In(Completed) && Punctual() && preserve
      modifies this`guest, this`trace, this`preserve
      ensures Tracks() && SameRow() && (a.readBack ==> Punctual())
      ensures preserve ==> failed && InDoubt()
      ensures !preserve ==> In(if failed then CleaningUp(true) else Returned)
      ensures (preserve <==> !a.archiveRemoved) && (failed <==> !(a.archiveRemoved && a.readBack))
      ensures forall d :: Did(d) <==> old(Did(d))
    {
      ClosingMoves(guest, plan, a.archiveRemoved);
      Enter(DropArchive(a.archiveRemoved), if a.archiveRemoved then Closing else Retained(ArchiveKept));
      if !a.archiveRemoved {
        return true;
      }
      preserve := false;
      failed := !a.readBack;
      ClosingMoves(guest, plan, a.readBack);
      Enter(ClosingRead(a.readBack), if a.readBack then Returned else CleaningUp(true));
    }

    /** Up to the verified target. */
    method Transfer(a: Answers) returns (failed: bool)
      requires Tracks() && In(Preparing) && Punctual() && !imported && !preserve && a.Reserves() && forall d :: !Did(d)
      modifies this`guest, this`trace, this`imported, this`preserve
      ensures Tracks() && Punctual() && SameRow()
      ensures (failed <==> !a.Verifies()) && (imported <==> a.Arrives()) && (preserve <==> a.Imports() && !a.Arrives())
      ensures forall d :: Did(d) <==> d.ImportSent? && a.Imports()
      ensures !failed ==> In(Verified) && imported && !preserve
      ensures failed ==>
                if preserve then InDoubt() else if imported then In(CleaningUp(false)) else In(TargetDeleted(false))
    {
      failed := Export(a);
      if failed { return; }
      failed := Import(a);
      if failed { return; }
      failed := Check(a);
    }

    /** From the verified target to the end. */
    method SwitchOver(a: Answers) returns (failed: bool)
      requires Tracks() && In(Verified) && Punctual() && guest.agent == plan.source && !preserve
      requires a.Verifies() && forall d :: Did(d) <==> d.ImportSent?
      modifies this`guest, this`trace, this`preserve
      ensures Tracks() && (a.readBack ==> Punctual())
      ensures (failed <==> !a.Returns()) && (preserve <==> !a.Closes())
      ensures forall d :: Did(d) <==> Before(d) && a.Due(d)
      ensures !failed ==> In(Returned) && guest.vpc == plan.targetVpc
      ensures failed ==> if preserve then InDoubt() else In(CleaningUp(true))
    {
      failed := SwitchOwnership(a);
      if failed { return; }
      failed := LeaveSource(a);
      if failed { return; }
      failed := Close(a);
    }

    /** The body after the reservation, with its early returns. */
    method Body(a: Answers) returns (failed: bool)
      requires Tracks() && In(Preparing) && Punctual() && guest.agent == plan.source && !imported && !preserve
      requires a.Reserves() && forall d :: !Did(d)
      modifies this`guest, this`trace, this`imported, this`preserve
      ensures Tracks() && (a.readBack ==> Punctual())
      ensures (failed <==> !a.Returns()) && (imported <==> a.Arrives())
      ensures preserve <==> (a.Imports() && !a.Arrives()) || (a.Verifies() && !a.Closes())
      ensures forall d :: Did(d) <==> Before(d) && a.Due(d)
      ensures !failed ==> In(Returned) && guest.vpc == plan.targetVpc
      ensures failed && preserve ==> InDoubt()
      ensures failed && !preserve && imported ==>
                (In(CleaningUp(false)) && guest.vpc == old(guest.vpc)) || In(CleaningUp(true))
      ensures failed && !preserve && !imported ==> In(TargetDeleted(false)) && guest.vpc == old(guest.vpc)
    {
      failed := Transfer(a);
      if failed { return; }
      failed := SwitchOver(a);
    }

    /** What the cleanup does. */
    predicate Undone(a: Answers, d: Deed)
      reads this
    {
      && !preserve
      && match d
         case TargetDeletionSent => imported
         case DoubtRecorded => imported && !a.targetCall.Confirmed?
         case TargetFreed => (imported ==> a.targetCall.Confirmed?) && a.targetReleased
         case FailureRecorded => (imported ==> a.targetCall.Confirmed?) && a.targetReleased
         case _ => false
    }

    /** The deferred cleanup after an error: the target goes only if nothing is to be preserved. */
    method CleanUp(a: Answers, ghost late: bool)
      requires Tracks() && !retain
      requires if preserve then InDoubt() else if imported then In(CleaningUp(late))
               else !late && In(TargetDeleted(false))
      modifies this`guest, this`trace, this`retain
      ensures Tracks() && SameRow() && (old(Punctual()) ==> Punctual())
      ensures if retain then InDoubt() else !preserve && In(CleanedUp(late))
      ensures retain <==> preserve || (imported && !a.targetCall.Confirmed?) || !a.targetReleased
      ensures forall d :: Did(d) <==> old(Did(d)) || Undone(a, d)
    {
      if preserve {
        retain := true;
        return;
      }
      if imported {
        RemoveTarget(a, late);
        if retain {
          return;
        }
      }
      Release(a, late);
    }

    method DeleteOnTarget(o: Outcome, ghost late: bool)
      requires Tracks() && In(CleaningUp(late))
      modifies this`guest, this`trace
      ensures Tracks() && SameRow() && Punctual() == old(Punctual())
      ensures In(if o.Confirmed? then TargetDeleted(late) else Retained(CleanupUnknown(late)))
      ensures forall d :: Did(d) <==> old(Did(d)) || d.TargetDeletionSent?
    {
      TargetDeletionMoves(guest, plan, late, o);
      Enter(DeleteTarget(o), if o.Confirmed? then TargetDeleted(late) else Retained(CleanupUnknown(late)));
    }

    method RemoveTarget(a: Answers, ghost late: bool)
      requires Tracks() && In(CleaningUp(late)) && !retain
      modifies this`guest, this`trace, this`retain
      ensures Tracks() && SameRow() && (old(Punctual()) ==> Punctual())
      ensures if retain then InDoubt() else In(TargetDeleted(late))
      ensures retain <==> !a.targetCall.Confirmed?
      ensures forall d :: Did(d) <==> old(Did(d)) || d.TargetDeletionSent? || (d.DoubtRecorded? && retain)
    {
      DeleteOnTarget(a.targetCall, late);
      if !a.targetCall.Confirmed? {
        retain := true;
        Record(MarkCleanupFailed(a.cleanupMarked));
      }
    }

    /** A note on the row of the migration, which may fail; the guest does not change. */
    method Record(e: Event)
      requires Tracks() && Enabled(guest, e) && (e.MarkCleanupFailed? || e.MarkFailed?)
      modifies this`guest, this`trace
      ensures Tracks() && guest == old(guest) && Punctual() == old(Punctual())
      ensures forall d :: Did(d) <==> old(Did(d)) || (if e.MarkFailed? then d.FailureRecorded? else d.DoubtRecorded?)
    {
      Do(e);
    }

    /** The reservations go, and only then the migration has failed. */
    method Release(a: Answers, ghost late: bool)
      requires Tracks() && In(TargetDeleted(late)) && !retain
      modifies this`guest, this`trace, this`retain
      ensures Tracks() && SameRow() && (old(Punctual()) ==> Punctual())
      ensures if retain then InDoubt() else In(CleanedUp(late))
      ensures retain <==> !a.targetReleased
      ensures forall d :: Did(d) <==> old(Did(d)) || ((d.TargetFreed? || d.FailureRecorded?) && a.targetReleased)
    {
      ReleaseMoves(guest, plan, late, a.targetReleased);
      Enter(ReleaseTarget(a.targetReleased), if a.targetReleased then CleanedUp(late)
                                             else Retained(ReservationsKept(late)));
      if !a.targetReleased {
        retain := true;
        return;
      }
      Record(MarkFailed(a.failureMarked));
    }

    /** The end of every operation: the outcome is logged and recorded before the fence goes. */
    method Finish(a: Answers, failed: bool) returns (error: bool)
      requires Tracks()
      requires if retain then InDoubt()
               else In(Returned) || In(CleanedUp(false)) || In(CleanedUp(true)) || Running(guest, Other)
      modifies this`guest, this`trace, this`retain
      ensures Tracks() && SameRow() && guest.runtimes == old(guest.runtimes) && guest.expected == old(guest.expected)
      ensures guest.fence == if !retain && a.fenceReleased then Free else old(guest.fence).(alive := false)
      ensures retain <==> old(retain) || !a.finishLogged || !a.recorded
      ensures error <==> failed || !a.finishLogged || !a.recorded || (!retain && !a.fenceReleased)
      ensures forall d :: Did(d) <==> old(Did(d))
    {
      error := failed;
      if !a.finishLogged {
        error, retain := true, true;
      }
      if !a.recorded {
        error, retain := true, true;
      }
      Do(Event.Finish(retain || !a.fenceReleased));
      if !retain && !a.fenceReleased {
        error := true;
      }
    }

    /** From the committed reservation to the end of the deferred cleanup. */
    method Carry(a: Answers) returns (failed: bool)
      requires guest == start && trace == [] && !imported && !preserve && !retain
      requires GuestOk(start) && Enabled(start, Reserve(plan)) && a.Reserves()
      modifies this`guest, this`trace, this`imported, this`preserve, this`retain
      ensures Tracks() && (a.readBack ==> Punctual())
      ensures (failed <==> !a.Returns()) && (retain <==> a.InDoubt())
      ensures forall d :: Did(d) <==> a.Due(d)
      ensures if retain then InDoubt() else In(Returned) || In(CleanedUp(false)) || In(CleanedUp(true))
      ensures !failed ==> !retain && In(Returned) && guest.vpc == plan.targetVpc
      ensures failed ==> retain || (In(CleanedUp(false)) && guest.vpc == old(guest.vpc)) || In(CleanedUp(true))
    {
      Do(Reserve(plan));
      failed := Body(a);
      if failed {
        CleanUp(a, In(CleaningUp(true)));
      }
    }

    /**
     The whole migration, whatever is answered: `accepted` stands for all checks before the reservation.
     Success leaves exactly the target. An error that gives the fence back leaves exactly the source as it
     was: untouched before the reservation, and known to be there after it. Everything else keeps the fence,
     and with a closing read that succeeds the agent of the row always has the guest it is known to have.
     */
    method Migrate(a: Answers) returns (error: bool)
      requires guest == start && trace == [] && !imported && !preserve && !retain
      requires Running(start, Other) && GuestOk(start) && (a.accepted && a.reserved ==> Enabled(start, Reserve(plan)))
      modifies this`guest, this`trace, this`imported, this`preserve, this`retain
      ensures Tracks() && (guest.fence.Free? || !guest.fence.alive)
      ensures error <==> !(a.Returns() && a.Releases())
      ensures guest.fence.Free? <==> !a.InDoubt() && a.Releases()
      ensures forall d :: Did(d) <==> a.Due(d)
      ensures !error ==>
                a.accepted && a.reserved && guest == Guest(plan.target, plan.targetVpc, Free, {plan.target}, true)
      ensures !a.accepted || !a.reserved ==> error && guest == start.(fence := guest.fence)
      ensures a.accepted && a.reserved && error && guest.fence.Free? && a.readBack ==>
                guest == Guest(plan.source, plan.sourceVpc, Free, {plan.source}, true)
      ensures a.accepted && a.reserved && a.readBack ==> guest.agent in guest.runtimes
      ensures a.accepted && a.reserved && a.readBack && guest.runtimes != {guest.agent} ==> guest.fence.Held?
    {
      if !a.accepted || !a.reserved {
        error := Finish(a, true);
        return;
      }
      var failed := Carry(a);
      Outlook(start, trace, plan, a.readBack);
      error := Finish(a, failed);
    }
  }
}
