/** What holds after every run of the cluster, from the empty database on. */
module ClusterSafety {
  import opened Common
  import opened Lifecycle
  import opened Cluster
  import Nat = NatTable
  import Pool = PoolTable
  import Net = VpcTable

  ghost predicate Run(s: State, es: seq<Cluster.Event>)
    decreases es
  {
    es == [] || (Cluster.Enabled(s, es[0]) && Run(Apply(s, es[0]), es[1..]))
  }

  function End(s: State, es: seq<Cluster.Event>): State
    requires Run(s, es)
    decreases es
  {
    if es == [] then s else End(Apply(s, es[0]), es[1..])
  }

  lemma {:induction false} InvRun(s: State, es: seq<Cluster.Event>)
    requires Inv(s) && Run(s, es)
    ensures Inv(End(s, es))
    decreases es
  {
    if es != [] {
      InvStep(s, es[0]);
      InvRun(Apply(s, es[0]), es[1..]);
    }
  }

  lemma InvHolds(es: seq<Cluster.Event>)
    requires Run(Empty(), es)
    ensures Inv(End(Empty(), es))
  {
    InvRun(Empty(), es);
  }

  // ---------------------------------------------------------------- runs whose closing reads succeed

  predicate ClosingReadFails(e: Cluster.Event) {
    e.GuestEvent? && e.e == ClosingRead(false)
  }

  ghost predicate AllClosingReadsSucceed(es: seq<Cluster.Event>) {
    forall e | e in es :: !ClosingReadFails(e)
  }

  /** No guest is in a late cleanup or lost, and no completed migration was reopened. */
  ghost predicate Punctual(s: State) {
    && (forall i | i in s.guests :: OnTime(s.guests[i]))
    && (forall t | t in s.migs :: !s.migs[t].reopened)
  }

  lemma NeverReopened(s: State, i: InstanceId, e: Lifecycle.Event)
    requires Inv(s) && GuestEnabled(s, i, e) && OnTime(s.guests[i]) && forall t | t in s.migs :: !s.migs[t].reopened
    ensures forall t | t in GuestApply(s, i, e).migs :: !GuestApply(s, i, e).migs[t].reopened
  {
    assert Net.Linked(s.guests[i], i, s.migs);
    forall t | t in GuestApply(s, i, e).migs ensures !GuestApply(s, i, e).migs[t].reopened {
      if GuestApply(s, i, e).migs[t].reopened {
        Net.ReopeningIsLate(s.guests[i], i, s.migs, e, t);
        assert false;
      }
    }
  }

  lemma PunctualStep(s: State, e: Cluster.Event)
    requires Inv(s) && Punctual(s) && Cluster.Enabled(s, e) && !ClosingReadFails(e)
    ensures Punctual(Apply(s, e))
  {
    if e.GuestEvent? {
      OnTimeStep(s.guests[e.i], e.e);
      NeverReopened(s, e.i, e.e);
    }
  }

  lemma {:induction false} PunctualRun(s: State, es: seq<Cluster.Event>)
    requires Inv(s) && Punctual(s) && Run(s, es) && AllClosingReadsSucceed(es)
    ensures Inv(End(s, es)) && Punctual(End(s, es))
    decreases es
  {
    if es != [] {
      assert es[0] in es && forall e | e in es[1..] :: e in es;
      InvStep(s, es[0]);
      PunctualStep(s, es[0]);
      PunctualRun(Apply(s, es[0]), es[1..]);
    }
  }

  // ---------------------------------------------------------------- guests

  lemma ExpectedHasARuntime(g: Guest)
    requires GuestOk(g) && OnTime(g) && g.expected
    ensures g.runtimes != {}
  {
  }

  lemma DoubleIsFenced(g: Guest)
    requires GuestOk(g) && MayBeDouble(g)
    ensures g.fence.Held?
  {
  }

  /** In every run whose closing reads succeed every guest that the master may count on has a runtime. */
  lemma GuestsSurvive(es: seq<Cluster.Event>, i: InstanceId)
    requires Run(Empty(), es) && AllClosingReadsSucceed(es)
    requires i in End(Empty(), es).guests && End(Empty(), es).guests[i].expected
    ensures End(Empty(), es).guests[i].runtimes != {}
  {
    PunctualRun(Empty(), es);
    ExpectedHasARuntime(End(Empty(), es).guests[i]);
  }

  /** In every run, whenever a guest may have two runtimes, no operation on it can begin. */
  lemma DoubleGuestsNeverStart(es: seq<Cluster.Event>, i: InstanceId, t: Token)
    requires Run(Empty(), es) && i in End(Empty(), es).guests && MayBeDouble(End(Empty(), es).guests[i])
    ensures !Cluster.Enabled(End(Empty(), es), GuestEvent(i, Claim(t)))
  {
    InvHolds(es);
    DoubleIsFenced(End(Empty(), es).guests[i]);
  }

  // ---------------------------------------------------------------- virtual networks

  /** What a reader of the database may rely on when something on an agent refers to a network. */
  predicate Usable(s: State, v: Option<VpcId>, agent: Agent) {
    v.Some? ==>
      && v.value in s.vpcs && s.vpcs[v.value].state == Net.VpcAvailable && s.vpcs[v.value].agent == agent
      && (agent, s.vpcs[v.value].name) in s.nets
  }

  lemma AvailableIsUsable(s: State, v: Option<VpcId>, agent: Agent)
    requires Net.RowsOk(s.vpcs, s.nets) && Net.Available(s.vpcs, v, agent)
    ensures Usable(s, v, agent)
  {
    if v.Some? {
      assert Net.RowOk(s.vpcs[v.value], s.nets);
    }
  }

  /**
   The network of an instance exists on the instance's own agent and is available; so are both networks
   of a migration that is not completed or failed, unless it is a completed one whose late cleanup
   reopened it; and a run whose closing reads succeed has none of those.
   */
  lemma NetworkReferencesAreUsable(es: seq<Cluster.Event>)
    requires Run(Empty(), es)
    ensures var s := End(Empty(), es);
            && (forall i | i in s.guests :: Usable(s, s.guests[i].vpc, s.guests[i].agent))
            && (forall t | t in s.migs && !s.migs[t].Terminal() && !s.migs[t].reopened ::
                  && Usable(s, s.migs[t].sourceVpc, s.migs[t].source)
                  && Usable(s, s.migs[t].targetVpc, s.migs[t].target))
            && (AllClosingReadsSucceed(es) ==> forall t | t in s.migs :: !s.migs[t].reopened)
  {
    InvHolds(es);
    var s := End(Empty(), es);
    forall i | i in s.guests ensures Usable(s, s.guests[i].vpc, s.guests[i].agent) {
      AvailableIsUsable(s, s.guests[i].vpc, s.guests[i].agent);
    }
    forall t | t in s.migs && !s.migs[t].Terminal() && !s.migs[t].reopened
      ensures Usable(s, s.migs[t].sourceVpc, s.migs[t].source) && Usable(s, s.migs[t].targetVpc, s.migs[t].target)
    {
      AvailableIsUsable(s, s.migs[t].sourceVpc, s.migs[t].source);
      AvailableIsUsable(s, s.migs[t].targetVpc, s.migs[t].target);
    }
    if AllClosingReadsSucceed(es) {
      PunctualRun(Empty(), es);
    }
  }

  /** A network that is available exists on its agent. */
  lemma AvailableNetworksExist(es: seq<Cluster.Event>, v: VpcId)
    requires Run(Empty(), es) && v in End(Empty(), es).vpcs && End(Empty(), es).vpcs[v].state == Net.VpcAvailable
    ensures (End(Empty(), es).vpcs[v].agent, End(Empty(), es).vpcs[v].name) in End(Empty(), es).nets
  {
    InvHolds(es);
    assert Net.RowOk(End(Empty(), es).vpcs[v], End(Empty(), es).nets);
  }

  /** The statement that records a failed deletion of the target after a failed closing read commits. */
  predicate LateCleanupRecorded(s: State, e: Cluster.Event, t: Token) {
    && e.GuestEvent? && e.e == MarkCleanupFailed(true) && e.i in s.guests
    && InPhase(s.guests[e.i], Retained(CleanupUnknown(true))) && s.guests[e.i].fence.token == t
  }

  /** In every run, this is exactly how a finished migration becomes an unfinished one again. */
  lemma ReopenedExactlyByLateCleanup(es: seq<Cluster.Event>, e: Cluster.Event, t: Token)
    requires Run(Empty(), es) && Cluster.Enabled(End(Empty(), es), e)
    requires t in End(Empty(), es).migs && End(Empty(), es).migs[t].Terminal()
    ensures var s := End(Empty(), es);
            t in Apply(s, e).migs && (!Apply(s, e).migs[t].Terminal() <==> LateCleanupRecorded(s, e, t))
  {
    InvHolds(es);
    var s := End(Empty(), es);
    if e.GuestEvent? {
      assert Net.Linked(s.guests[e.i], e.i, s.migs);
      Net.UnfinishedAgain(s.guests[e.i], e.i, s.migs, e.e, t);
    }
  }

  // ---------------------------------------------------------------- addresses

  /** A pool entry is assigned exactly when it has an owner, and its owner exists. */
  lemma AssignedExactlyWhenOwned(es: seq<Cluster.Event>, id: EntryId)
    requires Run(Empty(), es) && id in End(Empty(), es).pool
    ensures var s := End(Empty(), es);
            && (s.pool[id].status == Pool.EntryAssigned <==> s.pool[id].owner.Some?)
            && (s.pool[id].owner.Some? ==> s.pool[id].owner.value in s.guests)
  {
    InvHolds(es);
    var s := End(Empty(), es);
    assert Pool.EntryOk(s.guests, id, s.pool[id]);
  }

  /**
   Whatever happens next, an owned address stays with its owner unless the owner's runtime is
   certainly gone from the agent of that address.
   */
  lemma AddressesOutliveTheirRuntime(es: seq<Cluster.Event>, e: Cluster.Event, id: EntryId, owner: InstanceId)
    requires Run(Empty(), es) && Cluster.Enabled(End(Empty(), es), e)
    requires id in End(Empty(), es).pool && End(Empty(), es).pool[id].owner == Some(owner)
    ensures var s := End(Empty(), es);
            && owner in s.guests && id in Apply(s, e).pool
            && (Apply(s, e).pool[id].owner != Some(owner) ==> Pool.CertainlyGone(s.guests[owner], s.pool[id].agent))
  {
    InvHolds(es);
    AddressStep(End(Empty(), es), e, id, owner);
  }

  lemma AddressStep(s: State, e: Cluster.Event, id: EntryId, owner: InstanceId)
    requires Inv(s) && Cluster.Enabled(s, e) && id in s.pool && s.pool[id].owner == Some(owner)
    ensures owner in s.guests && id in Apply(s, e).pool
    ensures Apply(s, e).pool[id].owner != Some(owner) ==> Pool.CertainlyGone(s.guests[owner], s.pool[id].agent)
  {
    assert Pool.EntryOk(s.guests, id, s.pool[id]);
    if e.GuestEvent? {
      AddressGuestStep(s, e.i, e.e, id, owner);
    } else if e.CommitEdit? {
      assert Pool.EditOk(s.guests, s.usedIds, s.edits[e.k]);
      Pool.EditNeverRobs(s.guests, s.usedIds, s.pool, s.edits[e.k]);
    } else if e.PurgeCommit? {
      assert GuestOk(s.guests[e.i]);
    }
  }

  lemma AddressGuestStep(s: State, i: InstanceId, e: Lifecycle.Event, id: EntryId, owner: InstanceId)
    requires GuestsOk(s) && Pool.PoolOk(s.guests, s.pool) && GuestEnabled(s, i, e)
    requires id in s.pool && s.pool[id].owner == Some(owner)
    ensures id in GuestApply(s, i, e).pool
    ensures GuestApply(s, i, e).pool[id].owner != Some(owner) ==> Pool.CertainlyGone(s.guests[owner], s.pool[id].agent)
  {
    assert Pool.EntryOk(s.guests, id, s.pool[id]);
    if GuestApply(s, i, e).pool[id].owner != Some(owner) {
      Pool.ReleasedOnlyWhenGone(s.guests, s.pool, i, e, id, owner);
    }
  }

  // ---------------------------------------------------------------- forwardings

  /** Visible forwardings lie on the current agent of their instance, and no host port is given out twice. */
  lemma ForwardingsAreWellPlaced(es: seq<Cluster.Event>)
    requires Run(Empty(), es)
    ensures var s := End(Empty(), es);
            && (forall r | r in s.mappings :: r.inst in s.guests &&
                  (r.reservation == Nat.Visible ==> r.agent == s.guests[r.inst].agent))
            && (forall a, b | 0 <= a < b < |s.mappings| :: !Nat.SameKey(s.mappings[a], s.mappings[b]))
  {
    InvHolds(es);
    var s := End(Empty(), es);
    forall r | r in s.mappings
      ensures r.inst in s.guests && (r.reservation == Nat.Visible ==> r.agent == s.guests[r.inst].agent)
    {
      assert Nat.RowOk(s.guests, r);
    }
    forall a, b | 0 <= a < b < |s.mappings| ensures !Nat.SameKey(s.mappings[a], s.mappings[b]) {
      Nat.UniqueByIndex(s.mappings, a, b);
    }
  }

  /** A request of the user that is about the forwardings or the existence of instance `i`. */
  predicate ChangesForwardings(e: Cluster.Event, i: InstanceId) {
    (e.AddMapping? && e.row.inst == i) || (e.DropMapping? && e.row.inst == i) || e == PurgeCommit(i)
  }

  predicate Migrates(g: Guest) {
    g.fence.Held? && g.fence.job.Migrating?
  }

  /**
   Every other step of the system, and every step at all while the instance migrates, leaves the
   forwardings that the user sees alone, the ownership switch included: their number, their order,
   and for each the protocol, the guest port, the remark and the origin.
   */
  lemma ForwardingsAreConserved(es: seq<Cluster.Event>, e: Cluster.Event, i: InstanceId)
    requires Run(Empty(), es) && Cluster.Enabled(End(Empty(), es), e)
    requires i in End(Empty(), es).guests
    requires !ChangesForwardings(e, i) || Migrates(End(Empty(), es).guests[i])
    ensures var s := End(Empty(), es);
            Nat.Shapes(Apply(s, e).mappings, i, Nat.Visible) == Nat.Shapes(s.mappings, i, Nat.Visible)
  {
    InvHolds(es);
    var s := End(Empty(), es);
    if e.GuestEvent? {
      TokensDiffer(s);
      Nat.VisibleConserved(s.guests, s.mappings, e.i, e.e, i);
    } else {
      TableEventConserves(s, e, i);
    }
  }

  lemma TableEventConserves(s: State, e: Cluster.Event, i: InstanceId)
    requires Cluster.Enabled(s, e) && !e.GuestEvent? && i in s.guests
    requires !ChangesForwardings(e, i) || Migrates(s.guests[i])
    ensures Nat.Shapes(Apply(s, e).mappings, i, Nat.Visible) == Nat.Shapes(s.mappings, i, Nat.Visible)
  {
    if e.PurgeCommit? {
      Nat.RewriteShapes(s.mappings, Nat.DropGuest(e.i), i, Nat.Visible, Nat.Visible);
    } else if e.AddMapping? {
      Nat.ShapesAppend(s.mappings, e.row, i, Nat.Visible);
    } else if e.DropMapping? {
      Nat.RewriteShapes(s.mappings, Nat.DropRow(e.row), i, Nat.Visible, Nat.Visible);
    }
  }
}
