/**
 The life of one guest: its database row, the durable fence on that row
 (busy_operation), and the runtimes that really exist on the agents.

 Every SQL statement or transaction and every request to an agent is one event.
 A failing SQL statement has no effect. A request that was answered with an
 error may still have been applied, at once (Lost) or later (the Late events).
 */
module Lifecycle {
  import opened Common

  type Agent = nat
  type Token = nat
  type VpcId = nat
  type EntryId = nat

  /** What a migration fixes when it reserves its resources. */
  datatype Plan = Plan(source: Agent, target: Agent, sourceVpc: Option<VpcId>, targetVpc: Option<VpcId>,
                       targetEntry: Option<EntryId>)

  /** Why the deferred cleanup of a migration kept the fence. */
  datatype Doubt =
    | ImportUnknown                 // the import was answered with an error
    | TargetKept                    // target confirmed, ownership not switched
    | SourceUnknown                 // ownership switched, source deletion not confirmed
    | SourceGone                    // source deletion confirmed, source reservations still held
    | ArchiveKept                   // source reservations released, transport archive not removed
    | CleanupUnknown(late: bool)    // deletion of the target during cleanup not confirmed
    | ReservationsKept(late: bool)  // target reservations could not be released

  /** Control state of a migration; `late` marks the cleanup that follows a failed closing read. */
  datatype Phase =
    | Preparing
    | Importing
    | Imported
    | Verified
    | Switching
    | Switched
    | SourceDeleted
    | Completed
    | Closing
    | Returned
    | CleaningUp(late: bool)
    | TargetDeleted(late: bool)
    | CleanedUp(late: bool)
    | Retained(why: Doubt)

  datatype Job = Creating | Other | PurgeConfirmed | Migrating(plan: Plan, phase: Phase)

  /** `alive` is false once the process that held the fence returned with it retained, or died. */
  datatype Fence = Free | Held(token: Token, job: Job, alive: bool)

  /**
   `runtimes` are the agents that hold a runtime of the guest. `expected` says that some agent
   confirmed a runtime of the guest and that nobody asked for its permanent deletion since.
   */
  datatype Guest = Guest(agent: Agent, vpc: Option<VpcId>, fence: Fence, runtimes: set<Agent>, expected: bool)

  datatype Event =
    | Claim(token: Token)
    | Finish(keep: bool)
    | Crash
    | CreateCall(o: Outcome)
    | RebuildCall(o: Outcome)
    | PurgeCall(o: Outcome)
    | Reserve(plan: Plan)
    | Prepare(ok: bool)
    | Abandon
    | ImportCall(o: Outcome)
    | Verify(ok: bool)
    | MarkSwitching(ok: bool)
    | Switch(ok: bool)
    | DeleteSource(o: Outcome)
    | ReleaseSource(ok: bool)
    | DropArchive(ok: bool)
    | ClosingRead(ok: bool)
    | DeleteTarget(o: Outcome)
    | ReleaseTarget(ok: bool)
    | MarkCleanupFailed(ok: bool)
    | MarkFailed(ok: bool)
    | LateCreate
    | LateRebuild
    | LatePurge
    | LateImport
    | LateSourceDelete
    | LateTargetDelete

  /** The row as the reservation transaction of a creation inserts it. */
  function NewGuest(agent: Agent, vpc: Option<VpcId>, token: Token): Guest {
    Guest(agent, vpc, Held(token, Creating, true), {}, false)
  }

  predicate Running(g: Guest, job: Job) {
    g.fence.Held? && g.fence.alive && g.fence.job == job
  }

  predicate InPhase(g: Guest, phase: Phase) {
    g.fence.Held? && g.fence.alive && g.fence.job.Migrating? && g.fence.job.phase == phase
  }

  predicate Stuck(g: Guest, phase: Phase) {
    g.fence.Held? && !g.fence.alive && g.fence.job.Migrating? && g.fence.job.phase == phase
  }

  /** A call of this phase was sent, or may have been sent, and was never answered with success. */
  predicate Unanswered(g: Guest, call: Phase, doubt: Doubt) {
    Stuck(g, call) || InPhase(g, Retained(doubt)) || Stuck(g, Retained(doubt))
  }

  predicate Enabled(g: Guest, e: Event) {
    match e
    case Claim(_) => g.fence.Free?
    case Finish(keep) =>
      g.fence.Held? && g.fence.alive &&
      (match g.fence.job
       case Creating => true
       case Other => true
       case PurgeConfirmed => true
       case Migrating(_, phase) => phase.CleanedUp? || phase.Returned? || (phase.Retained? && keep))
    case Crash => g.fence.Held? && g.fence.alive
    case CreateCall(_) => Running(g, Creating)
    case RebuildCall(_) => Running(g, Other)
    case PurgeCall(_) => Running(g, Other)
    case Reserve(p) =>
      Running(g, Other) && p.source == g.agent && p.target != g.agent && p.sourceVpc == g.vpc && g.agent in g.runtimes
    case Prepare(_) => InPhase(g, Preparing)
    case Abandon => InPhase(g, Importing)
    case ImportCall(_) => InPhase(g, Importing)
    case Verify(_) => InPhase(g, Imported)
    case MarkSwitching(_) => InPhase(g, Verified)
    case Switch(ok) => InPhase(g, Switching) && (ok ==> g.agent == g.fence.job.plan.source)
    case DeleteSource(_) => InPhase(g, Switched)
    case ReleaseSource(_) => InPhase(g, SourceDeleted)
    case DropArchive(_) => InPhase(g, Completed)
    case ClosingRead(_) => InPhase(g, Closing)
    case DeleteTarget(_) => InPhase(g, CleaningUp(false)) || InPhase(g, CleaningUp(true))
    case ReleaseTarget(_) => InPhase(g, TargetDeleted(false)) || InPhase(g, TargetDeleted(true))
    case MarkCleanupFailed(_) => InPhase(g, Retained(CleanupUnknown(false)))
        || InPhase(g, Retained(CleanupUnknown(true)))
    case MarkFailed(_) => InPhase(g, CleanedUp(false)) || InPhase(g, CleanedUp(true))
    case LateCreate => g.fence.Held? && !g.fence.alive && g.fence.job.Creating?
    case LateRebuild => g.fence.Held? && !g.fence.alive && g.fence.job.Other?
    case LatePurge => g.fence.Held? && !g.fence.alive && g.fence.job.Other?
    case LateImport => Unanswered(g, Importing, ImportUnknown)
    case LateSourceDelete => Unanswered(g, Switched, SourceUnknown)
    case LateTargetDelete =>
      Unanswered(g, CleaningUp(false), CleanupUnknown(false)) || Unanswered(g, CleaningUp(true), CleanupUnknown(true))
  }

  function Become(g: Guest, job: Job): Guest
    requires g.fence.Held?
  {
    g.(fence := g.fence.(job := job))
  }

  function Enter(g: Guest, phase: Phase): Guest
    requires g.fence.Held? && g.fence.job.Migrating?
  {
    g.(fence := g.fence.(job := g.fence.job.(phase := phase)))
  }

  function Gain(g: Guest, agent: Agent, applied: bool): Guest {
    if applied then g.(runtimes := g.runtimes + {agent}) else g
  }

  function Lose(g: Guest, agent: Agent, applied: bool): Guest {
    if applied then g.(runtimes := g.runtimes - {agent}) else g
  }

  function Step(g: Guest, e: Event): Guest
    requires Enabled(g, e)
  {
    match e
    case Claim(token) => g.(fence := Held(token, Other, true))
    case Finish(keep) => g.(fence := if keep then g.fence.(alive := false) else Free)
    case Crash => g.(fence := g.fence.(alive := false))
    case CreateCall(o) => Gain(Become(g, Other), g.agent, o.Applied()).(expected := o.Confirmed?)
    case RebuildCall(o) => Gain(g, g.agent, o.Applied()).(expected := g.expected || o.Confirmed?)
    case PurgeCall(o) =>
      Lose(if o.Confirmed? then Become(g, PurgeConfirmed) else g, g.agent, o.Applied()).(expected := false)
    case Reserve(p) => Become(g, Migrating(p, Preparing)).(expected := true)
    case Prepare(ok) => Enter(g, if ok then Importing else TargetDeleted(false))
    case Abandon => Enter(g, TargetDeleted(false))
    case ImportCall(o) =>
      Gain(Enter(g, if o.Confirmed? then Imported else Retained(ImportUnknown)), g.fence.job.plan.target, o.Applied())
    case Verify(ok) => Enter(g, if ok then Verified else CleaningUp(false))
    case MarkSwitching(ok) => Enter(g, if ok then Switching else Retained(TargetKept))
    case Switch(ok) =>
      if ok then Enter(g, Switched).(agent := g.fence.job.plan.target, vpc := g.fence.job.plan.targetVpc)
      else Enter(g, Retained(TargetKept))
    case DeleteSource(o) =>
      Lose(Enter(g, if o.Confirmed? then SourceDeleted else Retained(SourceUnknown)), g.fence.job.plan.source,
          o.Applied())
    case ReleaseSource(ok) => Enter(g, if ok then Completed else Retained(SourceGone))
    case DropArchive(ok) => Enter(g, if ok then Closing else Retained(ArchiveKept))
    case ClosingRead(ok) => Enter(g, if ok then Returned else CleaningUp(true))
    case DeleteTarget(o) =>
      var late := g.fence.job.phase.late;
      Lose(Enter(g, if o.Confirmed? then TargetDeleted(late) else Retained(CleanupUnknown(late))),
          g.fence.job.plan.target,
           o.Applied())
    case ReleaseTarget(ok) =>
      var late := g.fence.job.phase.late;
      Enter(g, if ok then CleanedUp(late) else Retained(ReservationsKept(late)))
    case MarkCleanupFailed(_) => g
    case MarkFailed(_) => g
    case LateCreate => Gain(g, g.agent, true)
    case LateRebuild => Gain(g, g.agent, true)
    case LatePurge => Lose(g, g.agent, true).(expected := false)
    case LateImport => Gain(g, g.fence.job.plan.target, true)
    case LateSourceDelete => Lose(g, g.fence.job.plan.source, true)
    case LateTargetDelete => Lose(g, g.fence.job.plan.target, true)
  }

  // ---------------------------------------------------------------- the invariant

  /** The runtimes a migration can have in each phase, and the agent its row points to. */
  ghost predicate PhaseOk(g: Guest, p: Plan, phase: Phase, alive: bool) {
    var s, t, both, rt := {p.source}, {p.target}, {p.source, p.target}, g.runtimes;
    match phase
    case Preparing => g.agent == p.source && rt == s
    case Importing => g.agent == p.source && (if alive then rt == s else s <= rt <= both)
    case Imported => g.agent == p.source && rt == both
    case Verified => g.agent == p.source && rt == both
    case Switching => g.agent == p.source && rt == both
    case Switched => g.agent == p.target && (if alive then rt == both else t <= rt <= both)
    case SourceDeleted => g.agent == p.target && rt == t
    case Completed => g.agent == p.target && rt == t
    case Closing => g.agent == p.target && rt == t
    case Returned => g.agent == p.target && rt == t
    case CleaningUp(late) =>
      if late then g.agent == p.target && (if alive then rt == t else rt <= t)
      else g.agent == p.source && (if alive then rt == both else s <= rt <= both)
    case TargetDeleted(late) => if late then g.agent == p.target && rt == {} else g.agent == p.source && rt == s
    case CleanedUp(late) => if late then g.agent == p.target && rt == {} else g.agent == p.source && rt == s
    case Retained(ImportUnknown) => g.agent == p.source && s <= rt <= both
    case Retained(TargetKept) => g.agent == p.source && rt == both
    case Retained(SourceUnknown) => g.agent == p.target && t <= rt <= both
    case Retained(SourceGone) => g.agent == p.target && rt == t
    case Retained(ArchiveKept) => g.agent == p.target && rt == t
    case Retained(CleanupUnknown(late)) =>
      if late then g.agent == p.target && rt <= t else g.agent == p.source && s <= rt <= both
    case Retained(ReservationsKept(late)) =>
      if late then g.agent == p.target && rt == {} else g.agent == p.source && rt == s
  }

  ghost predicate GuestOk(g: Guest) {
    match g.fence
    case Free => g.runtimes <= {g.agent}
    case Held(_, Creating, alive) => g.runtimes <= {g.agent} && !g.expected
    case Held(_, Other, _) => g.runtimes <= {g.agent}
    case Held(_, PurgeConfirmed, _) => g.runtimes == {} && !g.expected
    case Held(_, Migrating(p, phase), alive) => p.source != p.target && g.expected && PhaseOk(g, p, phase, alive)
  }

  /** No closing read failed so far in a way that can still be observed. */
  predicate OnTime(g: Guest) {
    && (g.fence.Held? && g.fence.job.Migrating? ==>
          var phase := g.fence.job.phase;
          && (phase.CleaningUp? || phase.TargetDeleted? || phase.CleanedUp? ==> !phase.late)
          && (phase.Retained? && (phase.why.CleanupUnknown? || phase.why.ReservationsKept?) ==> !phase.why.late))
    && (g.expected && !(g.fence.Held? && g.fence.job.Migrating?) ==> g.agent in g.runtimes)
  }

  predicate Forward(e: Event) {
    e.Reserve? || e.Prepare? || e.Abandon? || e.ImportCall? || e.Verify? || e.MarkSwitching? || e.Switch?
  }

  predicate Ending(e: Event) {
    e.DeleteSource? || e.ReleaseSource? || e.DropArchive? || e.ClosingRead?
  }

  predicate Cleaning(e: Event) {
    e.DeleteTarget? || e.ReleaseTarget? || e.LateImport? || e.LateSourceDelete? || e.LateTargetDelete?
  }

  lemma ForwardOk(g: Guest, e: Event)
    requires GuestOk(g) && Enabled(g, e) && Forward(e)
    ensures GuestOk(Step(g, e))
  {
  }

  lemma EndingOk(g: Guest, e: Event)
    requires GuestOk(g) && Enabled(g, e) && Ending(e)
    ensures GuestOk(Step(g, e))
  {
  }

  lemma CleaningOk(g: Guest, e: Event)
    requires GuestOk(g) && Enabled(g, e) && Cleaning(e)
    ensures GuestOk(Step(g, e))
  {
  }

  lemma GuestOkStep(g: Guest, e: Event)
    requires GuestOk(g) && Enabled(g, e)
    ensures GuestOk(Step(g, e))
  {
    if Forward(e) {
      ForwardOk(g, e);
    } else if Ending(e) {
      EndingOk(g, e);
    } else if Cleaning(e) {
      CleaningOk(g, e);
    }
  }

  lemma OnTimeMigration(g: Guest, e: Event)
    requires GuestOk(g) && OnTime(g) && Enabled(g, e) && (Forward(e) || Cleaning(e))
    ensures OnTime(Step(g, e))
  {
  }

  lemma OnTimeStep(g: Guest, e: Event)
    requires GuestOk(g) && OnTime(g) && Enabled(g, e) && e != ClosingRead(false)
    ensures OnTime(Step(g, e))
  {
    if Forward(e) || Cleaning(e) {
      OnTimeMigration(g, e);
    }
  }

  // ---------------------------------------------------------------- runs

  predicate Legal(g: Guest, es: seq<Event>)
    decreases es
  {
    es == [] || (Enabled(g, es[0]) && Legal(Step(g, es[0]), es[1..]))
  }

  function After(g: Guest, es: seq<Event>): Guest
    requires Legal(g, es)
    decreases es
  {
    if es == [] then g else After(Step(g, es[0]), es[1..])
  }

  lemma {:induction false} GuestOkRun(g: Guest, es: seq<Event>)
    requires GuestOk(g) && Legal(g, es)
    ensures GuestOk(After(g, es))
    decreases es
  {
    if es != [] {
      GuestOkStep(g, es[0]);
      GuestOkRun(Step(g, es[0]), es[1..]);
    }
  }

  lemma {:induction false} OnTimeRun(g: Guest, es: seq<Event>)
    requires GuestOk(g) && OnTime(g) && Legal(g, es) && ClosingRead(false) !in es
    ensures GuestOk(After(g, es)) && OnTime(After(g, es))
    decreases es
  {
    if es != [] {
      GuestOkStep(g, es[0]);
      OnTimeStep(g, es[0]);
      OnTimeRun(Step(g, es[0]), es[1..]);
    }
  }

  /**
   The guest survives every run without a failed closing read: as long as nobody asked for its
   permanent deletion, some agent holds a runtime of it, whatever fails, is lost, arrives late or crashes.
   */
  lemma {:induction false} GuestSurvives(agent: Agent, vpc: Option<VpcId>, token: Token, es: seq<Event>)
    requires Legal(NewGuest(agent, vpc, token), es) && ClosingRead(false) !in es
    ensures var g := After(NewGuest(agent, vpc, token), es);
            && (g.expected ==> g.runtimes != {})
            && (g.expected && g.fence.Free? ==> g.runtimes == {g.agent})
  {
    OnTimeRun(NewGuest(agent, vpc, token), es);
  }

  /** An agent has confirmed a runtime; a migration begins by asking for one. */
  predicate Confirms(e: Event) {
    e == CreateCall(Confirmed) || e == RebuildCall(Confirmed) || e.Reserve?
  }

  predicate AsksToPurge(e: Event) {
    e.PurgeCall? || e.LatePurge?
  }

  predicate NoPurge(es: seq<Event>) {
    es == [] || (!AsksToPurge(es[0]) && NoPurge(es[1..]))
  }

  predicate ConfirmedSincePurge(es: seq<Event>) {
    es != [] && ((Confirms(es[0]) && NoPurge(es[1..])) || ConfirmedSincePurge(es[1..]))
  }

  lemma {:induction false} ExpectedRun(g: Guest, es: seq<Event>)
    requires GuestOk(g) && Legal(g, es)
    ensures After(g, es).expected <==> ConfirmedSincePurge(es) || (g.expected && NoPurge(es))
    decreases es
  {
    if es != [] {
      GuestOkStep(g, es[0]);
      ExpectedRun(Step(g, es[0]), es[1..]);
    }
  }

  /** The guests that the theorems speak of: confirmed by an agent, and nobody has asked for a purge since. */
  lemma ExpectedIffConfirmed(agent: Agent, vpc: Option<VpcId>, token: Token, es: seq<Event>)
    requires Legal(NewGuest(agent, vpc, token), es)
    ensures After(NewGuest(agent, vpc, token), es).expected <==> ConfirmedSincePurge(es)
  {
    ExpectedRun(NewGuest(agent, vpc, token), es);
  }

  /** Whatever follows, as long as no later closing read fails, a guest nobody asked to purge has a runtime. */
  ghost predicate StaysAlive(g: Guest) {
    forall es | Legal(g, es) && ClosingRead(false) !in es :: After(g, es).expected ==> After(g, es).runtimes != {}
  }

  lemma DeletingTheTargetLosesTheGuest(g: Guest)
    requires GuestOk(g) && InPhase(g, CleaningUp(true))
    ensures !StaysAlive(g)
  {
    var es := [DeleteTarget(Confirmed)];
    var g' := Step(g, DeleteTarget(Confirmed));
    assert es[1..] == [];
    assert Legal(g', es[1..]) && After(g', es[1..]) == g';
    assert Legal(g, es) && After(g, es) == g';
  }

  lemma OnTimeStaysAlive(g: Guest)
    requires GuestOk(g) && OnTime(g)
    ensures StaysAlive(g)
  {
    forall es | Legal(g, es) && ClosingRead(false) !in es
      ensures After(g, es).expected ==> After(g, es).runtimes != {}
    {
      OnTimeRun(g, es);
    }
  }

  /**
   Survival is not unconditional. At the closing read of any run it depends on exactly its result: if the
   read succeeds the guest survives every continuation; if it fails some continuation leaves no runtime
   of the guest, although the migration had already been completed.
   */
  lemma SurvivalTurnsOnTheClosingRead(agent: Agent, vpc: Option<VpcId>, token: Token, es: seq<Event>, readOk: bool)
    requires Legal(NewGuest(agent, vpc, token), es)
    requires InPhase(After(NewGuest(agent, vpc, token), es), Closing)
    ensures var g := After(NewGuest(agent, vpc, token), es);
            && Step(g, ClosingRead(readOk)).expected
            && (StaysAlive(Step(g, ClosingRead(readOk))) <==> readOk)
  {
    var g := After(NewGuest(agent, vpc, token), es);
    GuestOkRun(NewGuest(agent, vpc, token), es);
    GuestOkStep(g, ClosingRead(readOk));
    if readOk {
      OnTimeStaysAlive(Step(g, ClosingRead(readOk)));
    } else {
      DeletingTheTargetLosesTheGuest(Step(g, ClosingRead(readOk)));
    }
  }

  /** Even an error of that deletion proves nothing: the request may be applied after the process has gone. */
  lemma RefusedDeletionMayStillCome(g: Guest)
    requires GuestOk(g) && InPhase(g, CleaningUp(true))
    ensures var es := [DeleteTarget(Refused), LateTargetDelete];
            Legal(g, es) && After(g, es).expected && After(g, es).runtimes == {}
  {
    var es := [DeleteTarget(Refused), LateTargetDelete];
    var g1 := Step(g, DeleteTarget(Refused));
    var g2 := Step(g1, LateTargetDelete);
    assert es[1..] == [LateTargetDelete] && [LateTargetDelete][1..] == [];
    assert Legal(g1, [LateTargetDelete]) && After(g1, [LateTargetDelete]) == g2;
  }

  lemma Prepend(g: Guest, e: Event, es: seq<Event>)
    requires Enabled(g, e) && Legal(Step(g, e), es)
    ensures Legal(g, [e] + es) && After(g, [e] + es) == After(Step(g, e), es)
  {
    assert ([e] + es)[0] == e && ([e] + es)[1..] == es;
  }

  /** A migration from its ownership switch to the closing read when everything succeeds. */
  function SmoothEnd(): seq<Event> {
    [Switch(true)] + ([DeleteSource(Confirmed)] + ([ReleaseSource(true)] + ([DropArchive(true)] + [])))
  }

  /** A migration from its reservation to the closing read when everything succeeds. */
  function SmoothMigration(plan: Plan): seq<Event> {
    [Reserve(plan)] + ([Prepare(true)] + ([ImportCall(Confirmed)] +
        ([Verify(true)] + ([MarkSwitching(true)] + SmoothEnd()))))
  }

  lemma SmoothEndReachesTheClosingRead(g: Guest)
    requires Enabled(g, Switch(true))
    ensures Legal(g, SmoothEnd()) && InPhase(After(g, SmoothEnd()), Closing)
  {
    var g1 := Step(g, Switch(true));
    var g2 := Step(g1, DeleteSource(Confirmed));
    var g3 := Step(g2, ReleaseSource(true));
    Prepend(g3, DropArchive(true), []);
    var f3 := [DropArchive(true)] + [];
    Prepend(g2, ReleaseSource(true), f3);
    var f2 := [ReleaseSource(true)] + f3;
    Prepend(g1, DeleteSource(Confirmed), f2);
    Prepend(g, Switch(true), [DeleteSource(Confirmed)] + f2);
  }

  lemma ImportAndVerify(g: Guest, rest: seq<Event>)
    requires InPhase(g, Preparing)
    ensures var es := [Prepare(true)] + ([ImportCall(Confirmed)] + ([Verify(true)] + rest));
            var g' := Step(Step(Step(g, Prepare(true)), ImportCall(Confirmed)), Verify(true));
            (Legal(g', rest) ==> Legal(g, es) && After(g, es) == After(g', rest))
  {
    var g1 := Step(g, Prepare(true));
    var g2 := Step(g1, ImportCall(Confirmed));
    var g3 := Step(g2, Verify(true));
    if Legal(g3, rest) {
      Prepend(g2, Verify(true), rest);
      Prepend(g1, ImportCall(Confirmed), [Verify(true)] + rest);
      Prepend(g, Prepare(true), [ImportCall(Confirmed)] + ([Verify(true)] + rest));
    }
  }

  lemma SwitchAndEnd(g: Guest)
    requires InPhase(g, Verified) && g.agent == g.fence.job.plan.source
    ensures Legal(g, [MarkSwitching(true)] + SmoothEnd())
    ensures InPhase(After(g, [MarkSwitching(true)] + SmoothEnd()), Closing)
  {
    SmoothEndReachesTheClosingRead(Step(g, MarkSwitching(true)));
    Prepend(g, MarkSwitching(true), SmoothEnd());
  }

  /** Any operation whose source answered can migrate the guest up to the closing read. */
  lemma SmoothMigrationReachesTheClosingRead(g: Guest, p: Plan)
    requires Enabled(g, Reserve(p))
    ensures Legal(g, SmoothMigration(p)) && InPhase(After(g, SmoothMigration(p)), Closing)
  {
    var g1 := Step(g, Reserve(p));
    var g4 := Step(Step(Step(g1, Prepare(true)), ImportCall(Confirmed)), Verify(true));
    SwitchAndEnd(g4);
    var rest := [MarkSwitching(true)] + SmoothEnd();
    ImportAndVerify(g1, rest);
    Prepend(g, Reserve(p), [Prepare(true)] + ([ImportCall(Confirmed)] + ([Verify(true)] + rest)));
  }

  lemma FailedReadThenDeletion(g: Guest)
    requires GuestOk(g) && InPhase(g, Closing)
    ensures var es := [ClosingRead(false), DeleteTarget(Confirmed)];
            Legal(g, es) && After(g, es).expected && After(g, es).runtimes == {}
  {
    var es := [ClosingRead(false), DeleteTarget(Confirmed)];
    var g1 := Step(g, ClosingRead(false));
    var g2 := Step(g1, DeleteTarget(Confirmed));
    assert es[1..] == [DeleteTarget(Confirmed)] && [DeleteTarget(Confirmed)][1..] == [];
    assert Legal(g1, [DeleteTarget(Confirmed)]) && After(g1, [DeleteTarget(Confirmed)]) == g2;
  }

  /** A concrete run that loses the guest: everything succeeds except the closing read. */
  lemma FailedClosingReadLosesTheGuest()
    ensures var g := NewGuest(1, None, 7);
            var es := [CreateCall(Confirmed)] + SmoothMigration(Plan(1, 2, None, None, None));
            var rest := [ClosingRead(false), DeleteTarget(Confirmed)];
            Legal(g, es + rest) && After(g, es + rest).expected && After(g, es + rest).runtimes == {}
  {
    var p := Plan(1, 2, None, None, None);
    var g := NewGuest(1, None, 7);
    SmoothMigrationReachesTheClosingRead(Step(g, CreateCall(Confirmed)), p);
    Prepend(g, CreateCall(Confirmed), SmoothMigration(p));
    var es := [CreateCall(Confirmed)] + SmoothMigration(p);
    GuestOkRun(g, es);
    FailedReadThenDeletion(After(g, es));
    SplitRun(g, es, [ClosingRead(false), DeleteTarget(Confirmed)]);
  }

  // ---------------------------------------------------------------- order of the dangerous steps

  /**
   No step of a migration takes away the runtime the row points to, and the row only ever moves to
   an agent whose runtime was confirmed and is still there: the source goes after the switch, the
   target never does.
   */
  lemma BoundRuntimeIsKept(agent: Agent, vpc: Option<VpcId>, token: Token, es: seq<Event>, e: Event)
    requires Legal(NewGuest(agent, vpc, token), es + [e]) && ClosingRead(false) !in es + [e]
    requires !e.PurgeCall? && !e.LatePurge?
    ensures Legal(NewGuest(agent, vpc, token), es)
    ensures var g := After(NewGuest(agent, vpc, token), es);
            && Enabled(g, e)
            && (g.expected ==> Step(g, e).expected && g.agent in g.runtimes && Step(g, e).agent in Step(g, e).runtimes)
            && (Step(g, e).agent != g.agent ==> e == Switch(true) && Step(g, e).agent in g.runtimes)
            && (e.DeleteSource? ==> g.agent in g.runtimes && g.fence.job.plan.source != g.agent)
            && (e.DeleteTarget? ==> g.agent in g.runtimes && g.fence.job.plan.target != g.agent)
  {
    var g0 := NewGuest(agent, vpc, token);
    SplitRun(g0, es, [e]);
    assert ClosingRead(false) !in es && e in es + [e];
    OnTimeRun(g0, es);
    OnTimeStep(After(g0, es), e);
    GuestOkStep(After(g0, es), e);
    BoundRuntimeStep(After(g0, es), e);
  }

  lemma BoundRuntimeStep(g: Guest, e: Event)
    requires GuestOk(g) && OnTime(g) && Enabled(g, e) && !e.PurgeCall? && !e.LatePurge? && e != ClosingRead(false)
    ensures g.expected ==> Step(g, e).expected && g.agent in g.runtimes && Step(g, e).agent in Step(g, e).runtimes
    ensures Step(g, e).agent != g.agent ==> e == Switch(true) && Step(g, e).agent in g.runtimes
    ensures e.DeleteSource? ==> g.agent in g.runtimes && g.fence.job.plan.source != g.agent
    ensures e.DeleteTarget? ==> g.agent in g.runtimes && g.fence.job.plan.target != g.agent
  {
    OnTimeStep(g, e);
    GuestOkStep(g, e);
  }

  lemma {:induction false} SplitRun(g: Guest, es: seq<Event>, fs: seq<Event>)
    ensures Legal(g, es + fs) <==> Legal(g, es) && Legal(After(g, es), fs)
    ensures Legal(g, es + fs) ==> After(g, es + fs) == After(After(g, es), fs)
    decreases es
  {
    if es == [] {
      assert es + fs == fs;
    } else {
      assert (es + fs)[1..] == es[1..] + fs;
      if Enabled(g, es[0]) {
        SplitRun(Step(g, es[0]), es[1..], fs);
      }
    }
  }

  // ---------------------------------------------------------------- what really runs where

  /** What an applied request does to the runtime on an agent: makes it, takes it away, or neither. */
  function Effect(g: Guest, e: Event, a: Agent): Option<bool>
    requires Enabled(g, e)
  {
    match e
    case CreateCall(o) => if !o.Refused? && a == g.agent then Some(true) else None
    case RebuildCall(o) => if !o.Refused? && a == g.agent then Some(true) else None
    case PurgeCall(o) => if !o.Refused? && a == g.agent then Some(false) else None
    case ImportCall(o) => if !o.Refused? && a == g.fence.job.plan.target then Some(true) else None
    case DeleteSource(o) => if !o.Refused? && a == g.fence.job.plan.source then Some(false) else None
    case DeleteTarget(o) => if !o.Refused? && a == g.fence.job.plan.target then Some(false) else None
    case LateCreate => if a == g.agent then Some(true) else None
    case LateRebuild => if a == g.agent then Some(true) else None
    case LatePurge => if a == g.agent then Some(false) else None
    case LateImport => if a == g.fence.job.plan.target then Some(true) else None
    case LateSourceDelete => if a == g.fence.job.plan.source then Some(false) else None
    case LateTargetDelete => if a == g.fence.job.plan.target then Some(false) else None
    case _ => None
  }

  lemma EffectIsApplied(g: Guest, e: Event, a: Agent)
    requires Enabled(g, e)
    ensures a in Step(g, e).runtimes <==> GetOr(Effect(g, e, a), a in g.runtimes)
  {
  }

  function LastEffect(g: Guest, es: seq<Event>, a: Agent): Option<bool>
    requires Legal(g, es)
    decreases es
  {
    if es == [] then None
    else
      var last := LastEffect(Step(g, es[0]), es[1..], a);
      if last.Some? then last else Effect(g, es[0], a)
  }

  /** An agent has a runtime exactly if the last request that was applied there made it. */
  lemma {:induction false} RuntimesAreTheLastApplied(g: Guest, es: seq<Event>, a: Agent)
    requires Legal(g, es)
    ensures a in After(g, es).runtimes <==> GetOr(LastEffect(g, es, a), a in g.runtimes)
    decreases es
  {
    if es != [] {
      EffectIsApplied(g, es[0], a);
      RuntimesAreTheLastApplied(Step(g, es[0]), es[1..], a);
    }
  }

  // ---------------------------------------------------------------- exclusion

  /** Two runtimes exist, or a late import may still make a second one. */
  ghost predicate MayBeDouble(g: Guest) {
    (exists a, b :: a in g.runtimes && b in g.runtimes && a != b) || Unanswered(g, Importing, ImportUnknown)
  }

  /** While two runtimes may exist the fence is held by the migration, so no operation can begin. */
  lemma DoubleRuntimeIsFenced(agent: Agent, vpc: Option<VpcId>, token: Token, es: seq<Event>)
    requires Legal(NewGuest(agent, vpc, token), es)
    requires MayBeDouble(After(NewGuest(agent, vpc, token), es))
    ensures var g := After(NewGuest(agent, vpc, token), es);
            && g.fence.Held? && g.fence.job.Migrating?
                && g.runtimes <= {g.fence.job.plan.source, g.fence.job.plan.target}
            && forall t :: !Enabled(g, Claim(t))
  {
    GuestOkRun(NewGuest(agent, vpc, token), es);
  }

  predicate Late(e: Event) {
    e.LateCreate? || e.LateRebuild? || e.LatePurge? || e.LateImport? || e.LateSourceDelete? || e.LateTargetDelete?
  }

  /**
   A retained fence is for ever: after any further events the row still carries the same token and
   the same migration phase, so both runtimes stay where the operator can find them.
   */
  lemma {:induction false} RetainedFenceIsNeverStolen(g: Guest, es: seq<Event>)
    requires g.fence.Held? && !g.fence.alive && Legal(g, es)
    ensures After(g, es).fence == g.fence && After(g, es).agent == g.agent && After(g, es).vpc == g.vpc
    ensures forall i :: 0 <= i < |es| ==> Late(es[i])
    decreases es
  {
    if es != [] {
      RetainedFenceIsNeverStolen(Step(g, es[0]), es[1..]);
      assert forall i :: 1 <= i < |es| ==> es[i] == es[1..][i - 1];
    }
  }

  /** Nor does a process that dies do anything more; only what it had asked for may still happen. */
  lemma CrashIsTheEnd(g: Guest, es: seq<Event>)
    requires Enabled(g, Crash) && Legal(Step(g, Crash), es)
    ensures var g' := After(Step(g, Crash), es);
            && g'.fence == g.fence.(alive := false) && g'.agent == g.agent && g'.vpc == g.vpc
            && forall i :: 0 <= i < |es| ==> Late(es[i])
  {
    RetainedFenceIsNeverStolen(Step(g, Crash), es);
  }
}
