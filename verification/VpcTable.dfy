/**
 Virtual networks: the rows with their state column, the networks that really exist on the agents,
 the creation and deletion protocols, and the references that instances and migrations hold.
 */
module VpcTable {
  import opened Common
  import opened Lifecycle

  datatype VpcState = VpcCreating | VpcAvailable | VpcError | VpcDeleting

  /** What the process that works on the row does next; NoJob once it returned or died. */
  datatype VpcJob =
    | NoJob | MakingNet | MarkingAvailable | Compensating | DroppingNew | DeletingNet | DroppingOld | MarkingError

  datatype Vpc = Vpc(agent: Agent, name: nat, state: VpcState, job: VpcJob)

  datatype Stage =
    | StageReserved | StageImporting | StageSwitching | StageSourceDelete | StageCompleted | StageFailed
    | StageCleanupFailed

  /** A migration row. `reopened` marks a completed migration that the late cleanup made non-terminal again. */
  datatype MigrationRow = MigrationRow(inst: InstanceId, source: Agent, target: Agent, sourceVpc: Option<VpcId>,
                                       targetVpc: Option<VpcId>, stage: Stage, reopened: bool)
  {
    predicate Terminal() { stage.StageCompleted? || stage.StageFailed? }
  }

  type Rows = map<VpcId, Vpc>
  type Migrations = map<Token, MigrationRow>
  type Guests = map<InstanceId, Guest>
  type Nets = set<(Agent, nat)>

  datatype VpcEvent =
    | InsertRow(agent: Agent, name: nat)
    | CreateNet(o: Outcome)
    | MarkAvailable(ok: bool)
    | Compensate(o: Outcome)
    | BeginDelete
    | DeleteNet(o: Outcome)
    | DropRow(ok: bool)
    | MarkError(ok: bool)
    | Die
    | LateCreateNet  // requests of a process that died are applied after all
    | LateDeleteNet

  /** Nothing refers to the network: the three counts of the deleting transaction are zero. */
  ghost predicate Unreferenced(guests: Guests, migs: Migrations, id: VpcId, agent: Agent) {
    && (forall i | i in guests :: guests[i].vpc != Some(id))
    && (forall t | t in migs && !migs[t].Terminal() ::
          && migs[t].targetVpc != Some(id) && migs[t].sourceVpc != Some(id)
          && !(migs[t].sourceVpc == None && migs[t].source == agent))
  }

  ghost predicate VpcEnabled(guests: Guests, migs: Migrations, rows: Rows, id: VpcId, e: VpcEvent) {
    match e
    case InsertRow(agent, name) => id !in rows && forall k | k in rows ::
        !(rows[k].agent == agent && rows[k].name == name)
    case CreateNet(_) => id in rows && rows[id].job == MakingNet
    case MarkAvailable(_) => id in rows && rows[id].job == MarkingAvailable
    case Compensate(_) => id in rows && rows[id].job == Compensating
    case BeginDelete =>
      id in rows && (rows[id].state == VpcAvailable || rows[id].state == VpcError)
          && Unreferenced(guests, migs, id, rows[id].agent)
    case DeleteNet(_) => id in rows && rows[id].job == DeletingNet
    case DropRow(_) => id in rows && (rows[id].job == DroppingNew || rows[id].job == DroppingOld)
    case MarkError(_) => id in rows && rows[id].job == MarkingError
    case Die => id in rows && rows[id].job != NoJob
    case LateCreateNet => id in rows && rows[id].state == VpcCreating && rows[id].job == NoJob
    case LateDeleteNet => id in rows && rows[id].state in {VpcCreating, VpcDeleting} && rows[id].job == NoJob
  }

  /** What the process that works on a row makes of it. */
  function Worked(v: Vpc, e: VpcEvent): Vpc {
    match e
    case CreateNet(o) => v.(job := if o.Confirmed? then MarkingAvailable else MarkingError)
    case MarkAvailable(ok) => if ok then v.(state := VpcAvailable, job := NoJob) else v.(job := Compensating)
    case Compensate(o) => v.(job := if o.Confirmed? then DroppingNew else MarkingError)
    case BeginDelete => v.(state := VpcDeleting, job := DeletingNet)
    case DeleteNet(o) => v.(job := if o.Confirmed? then DroppingOld else MarkingError)
    case DropRow(_) => v.(job := if v.job == DroppingOld then MarkingError else NoJob)
    case MarkError(ok) => v.(state := if ok then VpcError else v.state, job := NoJob)
    case Die => v.(job := NoJob)
    case _ => v
  }

  function RowsStep(rows: Rows, id: VpcId, e: VpcEvent): Rows
    requires !e.InsertRow? ==> id in rows
  {
    match e
    case InsertRow(agent, name) => rows[id := Vpc(agent, name, VpcCreating, MakingNet)]
    case DropRow(ok) => if ok then rows - {id} else rows[id := Worked(rows[id], e)]
    case LateCreateNet => rows
    case LateDeleteNet => rows
    case _ => rows[id := Worked(rows[id], e)]
  }

  function NetsStep(rows: Rows, nets: Nets, id: VpcId, e: VpcEvent): Nets
    requires !e.InsertRow? ==> id in rows
  {
    match e
    case CreateNet(o) => if o.Applied() then nets + {(rows[id].agent, rows[id].name)} else nets
    case Compensate(o) => if o.Applied() then nets - {(rows[id].agent, rows[id].name)} else nets
    case DeleteNet(o) => if o.Applied() then nets - {(rows[id].agent, rows[id].name)} else nets
    case LateCreateNet => nets + {(rows[id].agent, rows[id].name)}
    case LateDeleteNet => nets - {(rows[id].agent, rows[id].name)}
    case _ => nets
  }

  // ---------------------------------------------------------------- the rows and the networks

  /** A working process is the only one that touches its row, and an available row has its network. */
  predicate RowOk(v: Vpc, nets: Nets) {
    && (v.state == VpcAvailable ==> (v.agent, v.name) in nets && v.job == NoJob)
    && (v.state == VpcError ==> v.job == NoJob)
    && (v.job in {MakingNet, MarkingAvailable, Compensating, DroppingNew} ==> v.state == VpcCreating)
    && (v.job in {DeletingNet, DroppingOld} ==> v.state == VpcDeleting)
    && (v.job == MarkingAvailable ==> (v.agent, v.name) in nets)
    && (v.job in {DroppingNew, DroppingOld} ==> (v.agent, v.name) !in nets)
  }

  ghost predicate RowsOk(rows: Rows, nets: Nets) {
    && (forall id | id in rows :: RowOk(rows[id], nets))
    && (forall a, b | a in rows && b in rows && a != b ::
        !(rows[a].agent == rows[b].agent && rows[a].name == rows[b].name))
  }

  lemma RowsOkStep(guests: Guests, migs: Migrations, rows: Rows, nets: Nets, id: VpcId, e: VpcEvent)
    requires RowsOk(rows, nets) && VpcEnabled(guests, migs, rows, id, e)
    ensures RowsOk(RowsStep(rows, id, e), NetsStep(rows, nets, id, e))
  {
    var rows', nets' := RowsStep(rows, id, e), NetsStep(rows, nets, id, e);
    forall k | k in rows' ensures RowOk(rows'[k], nets') {
      if k in rows {
        assert RowOk(rows[k], nets);
      }
    }
  }

  /** Nobody but the working process touches a row, and a row leaves only when its network is gone from the agent. */
  lemma RowLeavesAfterItsNetwork(guests: Guests, migs: Migrations, rows: Rows, nets: Nets, id: VpcId, e: VpcEvent,
                                 k: VpcId)
    requires RowsOk(rows, nets) && VpcEnabled(guests, migs, rows, id, e) && k in rows
    ensures var rows', nets' := RowsStep(rows, id, e), NetsStep(rows, nets, id, e);
            && (k !in rows' ==> k == id && e == DropRow(true) && (rows[k].agent, rows[k].name) !in nets')
            && (k in rows' ==> rows'[k].agent == rows[k].agent && rows'[k].name == rows[k].name)
            && (k != id ==> k in rows' && rows'[k] == rows[k])
  {
    assert RowOk(rows[k], nets);
  }

  /** The row of a process that died stays creating or deleting for ever. */
  predicate Stuck(v: Vpc) {
    v.job == NoJob && (v.state == VpcCreating || v.state == VpcDeleting)
  }

  lemma StuckForEver(guests: Guests, migs: Migrations, rows: Rows, nets: Nets, id: VpcId, e: VpcEvent, k: VpcId)
    requires RowsOk(rows, nets) && VpcEnabled(guests, migs, rows, id, e) && k in rows
    ensures e == Die && k == id ==> Stuck(RowsStep(rows, id, e)[k])
    ensures Stuck(rows[k]) ==> k in RowsStep(rows, id, e) && RowsStep(rows, id, e)[k] == rows[k]
  {
    assert RowOk(rows[k], nets);
  }

  /** Every network on an agent has a row. */
  ghost predicate AllOwned(rows: Rows, nets: Nets) {
    forall n | n in nets :: Owned(rows, n)
  }

  predicate Owned(rows: Rows, n: (Agent, nat)) {
    exists id | id in rows :: rows[id].agent == n.0 && rows[id].name == n.1
  }

  /** So no network is ever orphaned, whatever fails and whoever dies. */
  lemma AllOwnedStep(guests: Guests, migs: Migrations, rows: Rows, nets: Nets, id: VpcId, e: VpcEvent)
    requires RowsOk(rows, nets) && AllOwned(rows, nets) && VpcEnabled(guests, migs, rows, id, e)
    ensures AllOwned(RowsStep(rows, id, e), NetsStep(rows, nets, id, e))
  {
    var rows', nets' := RowsStep(rows, id, e), NetsStep(rows, nets, id, e);
    forall n | n in nets' ensures Owned(rows', n) {
      if n in nets {
        assert Owned(rows, n);
        var k :| k in rows && rows[k].agent == n.0 && rows[k].name == n.1;
        RowLeavesAfterItsNetwork(guests, migs, rows, nets, id, e, k);
      } else {
        assert rows[id].agent == n.0 && rows[id].name == n.1 && id in rows';
      }
    }
  }

  // ---------------------------------------------------------------- the references

  /** A reference from something on this agent finds its network available, and on the same agent. */
  predicate Available(rows: Rows, v: Option<VpcId>, agent: Agent) {
    v.Some? ==> v.value in rows && rows[v.value].state == VpcAvailable && rows[v.value].agent == agent
  }

  /** The migration that holds the fence has a non-terminal row. */
  predicate Pinning(phase: Phase) {
    match phase
    case Completed => false
    case Closing => false
    case Returned => false
    case CleaningUp(late) => !late
    case TargetDeleted(late) => !late
    case CleanedUp(_) => false
    case Retained(ArchiveKept) => false
    case Retained(CleanupUnknown(late)) => !late
    case Retained(ReservationsKept(late)) => !late
    case _ => true
  }

  /** The row already points to the target. */
  predicate AfterSwitch(phase: Phase) {
    match phase
    case Switched => true
    case SourceDeleted => true
    case Completed => true
    case Closing => true
    case Returned => true
    case CleaningUp(late) => late
    case TargetDeleted(late) => late
    case CleanedUp(late) => late
    case Retained(SourceUnknown) => true
    case Retained(SourceGone) => true
    case Retained(ArchiveKept) => true
    case Retained(CleanupUnknown(late)) => late
    case Retained(ReservationsKept(late)) => late
    case _ => false
  }

  predicate AfterCompletion(phase: Phase) {
    phase.Completed? || phase.Closing? || phase.Returned? || phase == CleaningUp(true)
  }

  /** The row of the migration that holds the fence says what the migration does. */
  ghost predicate Linked(g: Guest, i: InstanceId, migs: Migrations) {
    g.fence.Held? && g.fence.job.Migrating? ==>
      var p, t := g.fence.job.plan, g.fence.token;
      && t in migs && migs[t].inst == i && migs[t].source == p.source && migs[t].target == p.target
      && migs[t].sourceVpc == p.sourceVpc && migs[t].targetVpc == p.targetVpc
      && (Pinning(g.fence.job.phase) ==> !migs[t].Terminal() && !migs[t].reopened)
      && (AfterCompletion(g.fence.job.phase) ==> migs[t].stage.StageCompleted?)
      && (AfterSwitch(g.fence.job.phase) ==> g.vpc == p.targetVpc)
  }

  /**
   Whatever refers to a network finds it available. The one exception is the source of a completed
   migration that the late cleanup reopened.
   */
  ghost predicate RefsOk(guests: Guests, migs: Migrations, rows: Rows) {
    && (forall i | i in guests :: Available(rows, guests[i].vpc, guests[i].agent) && Linked(guests[i], i, migs))
    && (forall t | t in migs && !migs[t].Terminal() && !migs[t].reopened ::
          Available(rows, migs[t].sourceVpc, migs[t].source) && Available(rows, migs[t].targetVpc, migs[t].target))
  }

  /** Creating and deleting networks never disturbs a reference: the counts and the state column see to it. */
  lemma RefsOkVpcStep(guests: Guests, migs: Migrations, rows: Rows, nets: Nets, id: VpcId, e: VpcEvent)
    requires RefsOk(guests, migs, rows) && RowsOk(rows, nets) && VpcEnabled(guests, migs, rows, id, e)
    ensures RefsOk(guests, migs, RowsStep(rows, id, e))
  {
    if id in rows {
      assert RowOk(rows[id], nets);
    }
  }

  /** What an event of guest `i` does to the migration rows; None if a statement fails and rolls back. */
  function MigrationEffect(migs: Migrations, i: InstanceId, g: Guest, e: Event): Option<Migrations>
    requires Enabled(g, e)
  {
    if !(g.fence.Held? && (e.Reserve? || g.fence.token in migs)) then Some(migs)
    else
      var t := g.fence.token;
      match e
      case Reserve(p) =>
        if t in migs then None
        else Some(migs[t := MigrationRow(i, p.source, p.target, p.sourceVpc, p.targetVpc, StageReserved, false)])
      case Prepare(ok) => Some(if ok then migs[t := migs[t].(stage := StageImporting)] else migs)
      case MarkSwitching(ok) => Some(if ok then migs[t := migs[t].(stage := StageSwitching)] else migs)
      case Switch(ok) => Some(if ok then migs[t := migs[t].(stage := StageSourceDelete)] else migs)
      case ReleaseSource(ok) => Some(if ok then migs[t := migs[t].(stage := StageCompleted)] else migs)
      case MarkCleanupFailed(ok) =>
        var reopened := migs[t].reopened || migs[t].Terminal();
        Some(if ok then migs[t := migs[t].(stage := StageCleanupFailed, reopened := reopened)]
             else migs)
      case MarkFailed(ok) => Some(if ok then migs[t := migs[t].(stage := StageFailed)] else migs)
      case _ => Some(migs)
  }

  lemma LinkedForward(g: Guest, i: InstanceId, migs: Migrations, e: Event)
    requires Enabled(g, e) && Forward(e) && Linked(g, i, migs) && MigrationEffect(migs, i, g, e).Some?
    ensures Linked(Step(g, e), i, MigrationEffect(migs, i, g, e).value)
  {
  }

  lemma LinkedEnding(g: Guest, i: InstanceId, migs: Migrations, e: Event)
    requires Enabled(g, e) && Ending(e) && Linked(g, i, migs) && MigrationEffect(migs, i, g, e).Some?
    ensures Linked(Step(g, e), i, MigrationEffect(migs, i, g, e).value)
  {
  }

  /** Finished migrations become unfinished exactly when a late cleanup records that it could not delete the target. */
  lemma UnfinishedAgain(g: Guest, i: InstanceId, migs: Migrations, e: Event, t: Token)
    requires Enabled(g, e) && Linked(g, i, migs) && MigrationEffect(migs, i, g, e).Some?
    requires t in migs && migs[t].Terminal()
    ensures t in MigrationEffect(migs, i, g, e).value
    ensures !MigrationEffect(migs, i, g, e).value[t].Terminal() <==>
            e == MarkCleanupFailed(true) && InPhase(g, Retained(CleanupUnknown(true))) && g.fence.token == t
  {
  }

  /** The deletion of the target in the late cleanup was not confirmed. */
  predicate InLateDoubt(g: Guest, t: Token) {
    && g.fence.Held? && g.fence.token == t && g.fence.job.Migrating?
    && g.fence.job.phase == Retained(CleanupUnknown(true))
  }

  /** A row is reopened only by a guest in late doubt. */
  lemma ReopeningIsLate(g: Guest, i: InstanceId, migs: Migrations, e: Event, t: Token)
    requires Enabled(g, e) && Linked(g, i, migs) && MigrationEffect(migs, i, g, e).Some?
    requires t in MigrationEffect(migs, i, g, e).value && MigrationEffect(migs, i, g, e).value[t].reopened
    ensures (t in migs && migs[t].reopened) || (InLateDoubt(g, t) && InLateDoubt(Step(g, e), t))
  {
  }

  lemma LinkedStep(g: Guest, i: InstanceId, migs: Migrations, e: Event)
    requires GuestOk(g) && Enabled(g, e) && Linked(g, i, migs) && MigrationEffect(migs, i, g, e).Some?
    ensures Linked(Step(g, e), i, MigrationEffect(migs, i, g, e).value)
  {
    if Forward(e) {
      LinkedForward(g, i, migs, e);
    } else if Ending(e) {
      LinkedEnding(g, i, migs, e);
    }
  }

  /** A migration row is only ever written under the fence that carries its token. */
  lemma OtherRowsKept(g: Guest, i: InstanceId, migs: Migrations, e: Event, t: Token)
    requires Enabled(g, e) && MigrationEffect(migs, i, g, e).Some? && t in migs
    requires !(g.fence.Held? && g.fence.token == t)
    ensures t in MigrationEffect(migs, i, g, e).value && MigrationEffect(migs, i, g, e).value[t] == migs[t]
  {
  }

  lemma RefsOkGuestStep(guests: Guests, migs: Migrations, rows: Rows, i: InstanceId, e: Event)
    requires RefsOk(guests, migs, rows) && i in guests && GuestOk(guests[i]) && Enabled(guests[i], e)
    requires MigrationEffect(migs, i, guests[i], e).Some?
    requires e.Reserve? ==> Available(rows, e.plan.targetVpc, e.plan.target)
    requires forall j | j in guests && j != i && guests[j].fence.Held? && guests[i].fence.Held? ::
               guests[j].fence.token != guests[i].fence.token
    ensures RefsOk(guests[i := Step(guests[i], e)], MigrationEffect(migs, i, guests[i], e).value, rows)
  {
    var g := guests[i];
    var guests', migs' := guests[i := Step(g, e)], MigrationEffect(migs, i, g, e).value;
    assert Available(rows, g.vpc, g.agent) && Linked(g, i, migs);
    LinkedStep(g, i, migs, e);
    forall j | j in guests' ensures Available(rows, guests'[j].vpc, guests'[j].agent) && Linked(guests'[j], j, migs') {
      if j != i {
        assert Linked(guests[j], j, migs);
        if guests[j].fence.Held? && guests[j].fence.token in migs {
          OtherRowsKept(g, i, migs, e, guests[j].fence.token);
        }
      }
    }
    forall t | t in migs' && !migs'[t].Terminal() && !migs'[t].reopened
      ensures Available(rows, migs'[t].sourceVpc, migs'[t].source)
      ensures Available(rows, migs'[t].targetVpc, migs'[t].target)
    {
      if t in migs && !(g.fence.Held? && g.fence.token == t) {
        OtherRowsKept(g, i, migs, e, t);
      }
    }
  }

  // ---------------------------------------------------------------- the stage column

  /** How far the row says the migration has come. The steps in between leave no mark on it. */
  function StagesOf(phase: Phase): set<Stage> {
    match phase
    case Preparing => {StageReserved}
    case Importing => {StageImporting}
    case Imported => {StageImporting}
    case Verified => {StageImporting}
    case Switching => {StageSwitching}
    case Switched => {StageSourceDelete}
    case SourceDeleted => {StageSourceDelete}
    case CleaningUp(late) => if late then {StageCompleted} else {StageImporting}
    case TargetDeleted(late) => if late then {StageCompleted} else {StageReserved, StageImporting}
    case CleanedUp(late) => {StageFailed} + if late then {StageCompleted} else {StageReserved, StageImporting}
    case Retained(ImportUnknown) => {StageImporting}
    case Retained(TargetKept) => {StageImporting, StageSwitching}
    case Retained(SourceUnknown) => {StageSourceDelete}
    case Retained(SourceGone) => {StageSourceDelete}
    case Retained(CleanupUnknown(late)) => {StageCleanupFailed} + if late then {StageCompleted} else {StageImporting}
    case Retained(ReservationsKept(late)) => if late then {StageCompleted} else {StageReserved, StageImporting}
    case _ => {StageCompleted}
  }

  ghost predicate Staged(g: Guest, migs: Migrations) {
    g.fence.Held? && g.fence.job.Migrating? ==>
      g.fence.token in migs && migs[g.fence.token].stage in StagesOf(g.fence.job.phase)
  }

  lemma StagedForward(g: Guest, i: InstanceId, migs: Migrations, e: Event)
    requires Enabled(g, e) && Forward(e) && Staged(g, migs) && MigrationEffect(migs, i, g, e).Some?
    ensures Staged(Step(g, e), MigrationEffect(migs, i, g, e).value)
  {
  }

  lemma StagedEnding(g: Guest, i: InstanceId, migs: Migrations, e: Event)
    requires Enabled(g, e) && Ending(e) && Staged(g, migs) && MigrationEffect(migs, i, g, e).Some?
    ensures Staged(Step(g, e), MigrationEffect(migs, i, g, e).value)
  {
  }

  lemma StagedStep(g: Guest, i: InstanceId, migs: Migrations, e: Event)
    requires Enabled(g, e) && Staged(g, migs) && MigrationEffect(migs, i, g, e).Some?
    ensures Staged(Step(g, e), MigrationEffect(migs, i, g, e).value)
  {
    if Forward(e) {
      StagedForward(g, i, migs, e);
    } else if Ending(e) {
      StagedEnding(g, i, migs, e);
    }
  }

  ghost predicate AllStaged(guests: Guests, migs: Migrations) {
    forall i | i in guests :: Staged(guests[i], migs)
  }

  lemma AllStagedStep(guests: Guests, migs: Migrations, i: InstanceId, e: Event)
    requires AllStaged(guests, migs) && i in guests && Enabled(guests[i], e)
    requires MigrationEffect(migs, i, guests[i], e).Some?
    requires forall j | j in guests && j != i && guests[j].fence.Held? && guests[i].fence.Held? ::
               guests[j].fence.token != guests[i].fence.token
    ensures AllStaged(guests[i := Step(guests[i], e)], MigrationEffect(migs, i, guests[i], e).value)
  {
    StagedStep(guests[i], i, migs, e);
    forall j | j in guests && j != i ensures Staged(guests[j], MigrationEffect(migs, i, guests[i], e).value) {
      assert Staged(guests[j], migs);
      if guests[j].fence.Held? && guests[j].fence.token in migs {
        OtherRowsKept(guests[i], i, migs, e, guests[j].fence.token);
      }
    }
  }
}
