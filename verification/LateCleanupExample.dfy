/** One instance from its creation to a migration that refers to a network that is gone. */
module LateCleanupExample {
  import opened Common
  import opened Lifecycle
  import opened Cluster
  import opened ClusterSafety
  import opened ClusterRuns
  import opened Eviction
  import opened LateCleanup
  import Net = VpcTable
  import Nat = NatTable
  import Pool = PoolTable

  const PLAN := Plan(1, 2, Some(10), None, None)
  const NETWORK := Net.Vpc(1, 5, Net.VpcAvailable, Net.NoJob)

  /** One instance, created under token 7 on agent 1 and migrating under token 8, and one network. */
  function Mid(g: Guest, migs: Net.Migrations): State {
    State(map[1 := g], {1}, map[7 := 1, 8 := 1], map[], map[], [], migs, map[10 := NETWORK], {(1, 5)})
  }

  /** Without forwardings and addresses an event of the guest is all there is to see. */
  lemma MidStep(g: Guest, migs: Net.Migrations, e: Lifecycle.Event)
    requires Lifecycle.Enabled(g, e) && !e.Claim? && (e.Reserve? ==> e.plan == PLAN)
    requires Net.MigrationEffect(migs, 1, g, e).Some?
    ensures Cluster.Enabled(Mid(g, migs), GuestEvent(1, e))
    ensures Apply(Mid(g, migs), GuestEvent(1, e)) == Mid(Step(g, e), Net.MigrationEffect(migs, 1, g, e).value)
  {
    var s := Mid(g, migs);
    assert s.guests[1 := Step(g, e)] == map[1 := Step(g, e)];
    assert Nat.RowsOf([], 1, Nat.Visible) == [];
    assert Pool.PoolEffect(map[], 1, g, e) == Some(map[]);
    assert Nat.NatEffect([], 1, g, e) == Some([]);
  }

  /** The guest in a phase of the migration. */
  function In(agent: Agent, vpc: Option<VpcId>, phase: Phase, runtimes: set<Agent>): Guest {
    Guest(agent, vpc, Held(8, Migrating(PLAN, phase), true), runtimes, true)
  }

  function Row(stage: Net.Stage): Net.Migrations {
    map[8 := Net.MigrationRow(1, 1, 2, Some(10), None, stage, false)]
  }

  const CLOSING := Mid(In(2, None, Closing, {2}), Row(Net.StageCompleted))

  function StageAfter(a: Net.Stage, e: Lifecycle.Event): Net.Stage {
    match e
    case Prepare(true) => Net.StageImporting
    case MarkSwitching(true) => Net.StageSwitching
    case Switch(true) => Net.StageSourceDelete
    case ReleaseSource(true) => Net.StageCompleted
    case _ => a
  }

  lemma RowAfter(g: Guest, a: Net.Stage, e: Lifecycle.Event)
    requires Lifecycle.Enabled(g, e) && g.fence.Held? && g.fence.token == 8
    requires !e.Reserve? && !e.MarkFailed? && !e.MarkCleanupFailed?
    ensures Net.MigrationEffect(Row(a), 1, g, e) == Some(Row(StageAfter(a, e)))
  {
    assert Row(a)[8 := Row(a)[8].(stage := StageAfter(a, e))] == Row(StageAfter(a, e));
  }

  /** One step of the migration, with the guest after it. */
  lemma MidReaches(g: Guest, a: Net.Stage, e: Lifecycle.Event, g': Guest)
    requires Lifecycle.Enabled(g, e) && g.fence.Held? && g.fence.token == 8 && Step(g, e) == g'
    requires !e.Claim? && !e.Reserve? && !e.MarkFailed? && !e.MarkCleanupFailed? && e != ClosingRead(false)
    requires Reaches(Mid(g', Row(StageAfter(a, e))), CLOSING)
    ensures Reaches(Mid(g, Row(a)), CLOSING)
  {
    RowAfter(g, a, e);
    MidStep(g, Row(a), e);
    ReachesFirst(Mid(g, Row(a)), GuestEvent(1, e), CLOSING);
  }

  lemma FromTheDeletedSource()
    ensures Reaches(Mid(In(2, None, SourceDeleted, {2}), Row(Net.StageSourceDelete)), CLOSING)
  {
    var g0, g1, g2 := In(2, None, SourceDeleted, {2}), In(2, None, Completed, {2}), In(2, None, Closing, {2});
    ReachesSelf(CLOSING);
    MidReaches(g1, Net.StageCompleted, DropArchive(true), g2);
    MidReaches(g0, Net.StageSourceDelete, ReleaseSource(true), g1);
  }

  lemma FromTheSwitch()
    ensures Reaches(Mid(In(1, Some(10), Switching, {1, 2}), Row(Net.StageSwitching)), CLOSING)
  {
    var g0, g1, g2 := In(1, Some(10), Switching, {1, 2}), In(2, None, Switched, {1, 2}),
        In(2, None, SourceDeleted, {2});
    FromTheDeletedSource();
    assert {1, 2} - {1} == {2};
    MidReaches(g1, Net.StageSourceDelete, DeleteSource(Confirmed), g2);
    MidReaches(g0, Net.StageSwitching, Switch(true), g1);
  }

  lemma FromTheImport()
    ensures Reaches(Mid(In(1, Some(10), Imported, {1, 2}), Row(Net.StageImporting)), CLOSING)
  {
    var g0, g1 := In(1, Some(10), Imported, {1, 2}), In(1, Some(10), Verified, {1, 2});
    FromTheSwitch();
    MidReaches(g1, Net.StageImporting, MarkSwitching(true), In(1, Some(10), Switching, {1, 2}));
    MidReaches(g0, Net.StageImporting, Verify(true), g1);
  }

  lemma FromTheReservation()
    ensures Reaches(Mid(In(1, Some(10), Preparing, {1}), Row(Net.StageReserved)), CLOSING)
  {
    var g0, g1 := In(1, Some(10), Preparing, {1}), In(1, Some(10), Importing, {1});
    FromTheImport();
    assert {1} + {2} == {1, 2};
    MidReaches(g1, Net.StageImporting, ImportCall(Confirmed), In(1, Some(10), Imported, {1, 2}));
    MidReaches(g0, Net.StageReserved, Prepare(true), g1);
  }

  lemma FromTheOperation()
    ensures Reaches(Mid(Guest(1, Some(10), Held(8, Other, true), {1}, true), map[]), CLOSING)
  {
    var g := Guest(1, Some(10), Held(8, Other, true), {1}, true);
    FromTheReservation();
    assert Step(g, Reserve(PLAN)) == In(1, Some(10), Preparing, {1});
    assert Net.MigrationEffect(map[], 1, g, Reserve(PLAN)) == Some(Row(Net.StageReserved));
    MidStep(g, map[], Reserve(PLAN));
    ReachesFirst(Mid(g, map[]), GuestEvent(1, Reserve(PLAN)), CLOSING);
  }

  /** The instance before its migration begins. */
  function Created(fence: Fence, runtimes: set<Agent>, expected: bool): State {
    State(map[1 := Guest(1, Some(10), fence, runtimes, expected)], {1}, map[7 := 1], map[], map[], [], map[],
          map[10 := NETWORK], {(1, 5)})
  }

  lemma ClaimStep()
    ensures var s := Created(Free, {1}, true);
            && Cluster.Enabled(s, GuestEvent(1, Claim(8)))
            && Apply(s, GuestEvent(1, Claim(8))) == Mid(Guest(1, Some(10), Held(8, Other, true), {1}, true), map[])
  {
    assert map[7 := 1][8 := 1] == map[7 := 1, 8 := 1];
  }

  lemma CreationSteps()
    ensures var s := Created(Held(7, Creating, true), {}, false);
            && Cluster.Enabled(s, GuestEvent(1, CreateCall(Confirmed)))
            && Apply(s, GuestEvent(1, CreateCall(Confirmed))) == Created(Held(7, Other, true), {1}, true)
    ensures var s := Created(Held(7, Other, true), {1}, true);
            && Cluster.Enabled(s, GuestEvent(1, Finish(false)))
            && Apply(s, GuestEvent(1, Finish(false))) == Created(Free, {1}, true)
  {
    assert {} + {1} == {1};
  }

  lemma FromTheCreation()
    ensures Reaches(Created(Held(7, Creating, true), {}, false), CLOSING)
  {
    FromTheOperation();
    ClaimStep();
    ReachesFirst(Created(Free, {1}, true), GuestEvent(1, Claim(8)), CLOSING);
    CreationSteps();
    ReachesFirst(Created(Held(7, Other, true), {1}, true), GuestEvent(1, Finish(false)), CLOSING);
    ReachesFirst(Created(Held(7, Creating, true), {}, false), GuestEvent(1, CreateCall(Confirmed)), CLOSING);
  }

  function OnlyNetwork(state: Net.VpcState, job: Net.VpcJob, nets: Net.Nets): State {
    Empty().(vpcs := map[10 := Net.Vpc(1, 5, state, job)], nets := nets)
  }

  lemma NetworkSteps()
    ensures var e := NetEvent(10, Net.InsertRow(1, 5));
            && Cluster.Enabled(Empty(), e) && Apply(Empty(), e) == OnlyNetwork(Net.VpcCreating, Net.MakingNet, {})
    ensures var s, e := OnlyNetwork(Net.VpcCreating, Net.MakingNet, {}), NetEvent(10, Net.CreateNet(Confirmed));
            && Cluster.Enabled(s, e) && Apply(s, e) == OnlyNetwork(Net.VpcCreating, Net.MarkingAvailable, {(1, 5)})
  {
  }

  lemma NetworkReady()
    ensures var s, e := OnlyNetwork(Net.VpcCreating, Net.MarkingAvailable, {(1, 5)}),
            NetEvent(10, Net.MarkAvailable(true));
            && Cluster.Enabled(s, e) && Apply(s, e) == OnlyNetwork(Net.VpcAvailable, Net.NoJob, {(1, 5)})
    ensures var s, e := OnlyNetwork(Net.VpcAvailable, Net.NoJob, {(1, 5)}), CreateRow(1, 1, Some(10), None, 7);
            && Cluster.Enabled(s, e) && Apply(s, e) == Created(Held(7, Creating, true), {}, false)
  {
  }

  /** A network, an instance on it, and a migration away from it, all without trouble, up to the closing read. */
  lemma ClosingIsReached()
    ensures Reaches(Empty(), CLOSING)
  {
    FromTheCreation();
    NetworkReady();
    NetworkSteps();
    ReachesFirst(OnlyNetwork(Net.VpcAvailable, Net.NoJob, {(1, 5)}), CreateRow(1, 1, Some(10), None, 7), CLOSING);
    ReachesFirst(OnlyNetwork(Net.VpcCreating, Net.MarkingAvailable, {(1, 5)}), NetEvent(10, Net.MarkAvailable(true)),
        CLOSING);
    ReachesFirst(OnlyNetwork(Net.VpcCreating, Net.MakingNet, {}), NetEvent(10, Net.CreateNet(Confirmed)), CLOSING);
    ReachesFirst(Empty(), NetEvent(10, Net.InsertRow(1, 5)), CLOSING);
  }

  /** Nobody holds the network. */
  lemma ClosingIsLosable()
    ensures var s := CLOSING.(guests := map[1 := In(2, None, CleaningUp(true), {2})]);
            && Usable(s, Some(10), 1) && !Pinned(s, 10, 1)
            && Cluster.Enabled(CLOSING, GuestEvent(1, ClosingRead(false)))
            && Apply(CLOSING, GuestEvent(1, ClosingRead(false))) == s
  {
    ReadApplies(CLOSING, 1, false);
    assert map[1 := In(2, None, Closing, {2})][1 := In(2, None, CleaningUp(true), {2})] ==
           map[1 := In(2, None, CleaningUp(true), {2})];
  }

  lemma ClosingIsLate()
    ensures InLateCleanup(CLOSING.(guests := map[1 := In(2, None, CleaningUp(true), {2})]), 1, Some(10), 1)
  {
    ClosingIsReached();
    var es :| Run(Empty(), es) && AllClosingReadsSucceed(es) && End(Empty(), es) == CLOSING;
    PunctualRun(Empty(), es);
    FailedReadIsLate(CLOSING, 1);
    ClosingIsLosable();
    ReadApplies(CLOSING, 1, false);
  }

  /**
   A concrete run from the empty database: everything succeeds except the closing read and the deletion
   that it triggers, and at the end an unfinished migration refers to a network that is gone.
   */
  lemma UnfinishedMigrationWithoutNetwork()
    ensures exists es ::
              && Run(Empty(), es)
              && var s := End(Empty(), es);
                 8 in s.migs && !s.migs[8].Terminal() && s.migs[8].sourceVpc == Some(10) && 10 !in s.vpcs
  {
    ClosingIsReached();
    ClosingIsLate();
    ClosingIsLosable();
    var d := LoseNetwork(CLOSING.(guests := map[1 := In(2, None, CleaningUp(true), {2})]), 1, 10, 1);
    RunThrough(Empty(), CLOSING, GuestEvent(1, ClosingRead(false)), d);
  }
}
