/**
 Who keeps a network from being deleted. Some users can still be led to give it up; a user whose operation
 has ended in doubt, or a migration row that nobody will finish, holds it for ever.
 */
module Eviction {
  import opened Common
  import opened Lifecycle
  import opened Cluster
  import opened ClusterSafety
  import opened ClusterRuns
  import Net = VpcTable
  import Nat = NatTable
  import Pool = PoolTable

  /** The operation on this guest has ended with the fence kept, or is about to. */
  predicate Hopeless(g: Guest) {
    g.fence.Held? && (!g.fence.alive || (g.fence.job.Migrating? && g.fence.job.phase.Retained?))
  }

  predicate Refers(m: Net.MigrationRow, v: VpcId, agent: Agent) {
    m.targetVpc == Some(v) || m.sourceVpc == Some(v) || (m.sourceVpc == None && m.source == agent)
  }

  /** This guest's process is still on its way to finish the migration with this token. */
  predicate Carries(g: Guest, t: Token) {
    g.fence.Held? && g.fence.token == t && g.fence.job.Migrating? && !Hopeless(g)
  }

  predicate Carried(guests: map<InstanceId, Guest>, t: Token) {
    exists j | j in guests :: Carries(guests[j], t)
  }

  predicate Leftover(s: State, t: Token, v: VpcId, agent: Agent)
    requires t in s.migs
  {
    !s.migs[t].Terminal() && Refers(s.migs[t], v, agent) && !Carried(s.guests, t)
  }

  predicate Occupies(g: Guest, v: VpcId) {
    g.vpc == Some(v) && Hopeless(g)
  }

  /** Somebody refers to the network and will never stop. */
  predicate Pinned(s: State, v: VpcId, agent: Agent) {
    || (exists j | j in s.guests :: Occupies(s.guests[j], v))
    || (exists t | t in s.migs :: Leftover(s, t, v, agent))
  }

  // ---------------------------------------------------------------- for ever

  lemma HopelessStep(g: Guest, e: Lifecycle.Event)
    requires Hopeless(g) && Lifecycle.Enabled(g, e)
    ensures Hopeless(Step(g, e)) && Step(g, e).vpc == g.vpc && Step(g, e).fence.token == g.fence.token
  {
  }

  /** Nobody takes up a migration that already has its row. */
  lemma NotTakenUp(g: Guest, i: InstanceId, migs: Net.Migrations, e: Lifecycle.Event, t: Token)
    requires Lifecycle.Enabled(g, e) && Net.MigrationEffect(migs, i, g, e).Some? && t in migs && !Carries(g, t)
    ensures !Carries(Step(g, e), t)
  {
    if Hopeless(g) {
      HopelessStep(g, e);
    }
  }

  /** The row of a migration that nobody carries stays unfinished. */
  lemma LeftoverRow(g: Guest, i: InstanceId, migs: Net.Migrations, e: Lifecycle.Event, t: Token)
    requires Lifecycle.Enabled(g, e) && Net.MigrationEffect(migs, i, g, e).Some? && t in migs && !Carries(g, t)
    requires !migs[t].Terminal()
    ensures var m := Net.MigrationEffect(migs, i, g, e).value;
            && t in m && !m[t].Terminal()
            && m[t].sourceVpc == migs[t].sourceVpc && m[t].targetVpc == migs[t].targetVpc
            && m[t].source == migs[t].source
  {
  }

  lemma LeftoverStep(s: State, e: Cluster.Event, t: Token, v: VpcId, agent: Agent)
    requires Inv(s) && Cluster.Enabled(s, e) && t in s.migs && Leftover(s, t, v, agent)
    ensures t in Apply(s, e).migs && Leftover(Apply(s, e), t, v, agent)
  {
    var s' := Apply(s, e);
    if e.GuestEvent? {
      assert !Carries(s.guests[e.i], t);
      LeftoverRow(s.guests[e.i], e.i, s.migs, e.e, t);
      NotTakenUp(s.guests[e.i], e.i, s.migs, e.e, t);
    }
    forall j | j in s'.guests ensures !Carries(s'.guests[j], t) {
      assert j in s.guests ==> !Carries(s.guests[j], t);
    }
  }

  lemma OccupiesStep(s: State, e: Cluster.Event, j: InstanceId, v: VpcId)
    requires Inv(s) && Cluster.Enabled(s, e) && j in s.guests && Occupies(s.guests[j], v)
    ensures j in Apply(s, e).guests && Occupies(Apply(s, e).guests[j], v)
  {
    if e.GuestEvent? && e.i == j {
      HopelessStep(s.guests[j], e.e);
    }
  }

  lemma PinnedStep(s: State, e: Cluster.Event, v: VpcId, agent: Agent)
    requires Inv(s) && Cluster.Enabled(s, e) && Pinned(s, v, agent)
    ensures Pinned(Apply(s, e), v, agent)
  {
    if j :| j in s.guests && Occupies(s.guests[j], v) {
      OccupiesStep(s, e, j, v);
    } else {
      var t :| t in s.migs && Leftover(s, t, v, agent);
      LeftoverStep(s, e, t, v, agent);
    }
  }

  lemma PinnedIsReferenced(s: State, v: VpcId, agent: Agent)
    requires Pinned(s, v, agent)
    ensures !Net.Unreferenced(s.guests, s.migs, v, agent)
  {
  }

  /** An available network that somebody refers to keeps its row. */
  lemma ReferencedRowStays(s: State, id: VpcId, ne: Net.VpcEvent, v: VpcId)
    requires v in s.vpcs && s.vpcs[v].state == Net.VpcAvailable && s.vpcs[v].job == Net.NoJob
    requires !Net.Unreferenced(s.guests, s.migs, v, s.vpcs[v].agent)
    requires Net.VpcEnabled(s.guests, s.migs, s.vpcs, id, ne)
    ensures v in Net.RowsStep(s.vpcs, id, ne) && Net.RowsStep(s.vpcs, id, ne)[v] == s.vpcs[v]
  {
  }

  lemma AvailableRow(s: State, v: VpcId)
    requires Inv(s) && v in s.vpcs && s.vpcs[v].state == Net.VpcAvailable
    ensures s.vpcs[v].job == Net.NoJob && (s.vpcs[v].agent, s.vpcs[v].name) in s.nets
  {
    assert Net.RowOk(s.vpcs[v], s.nets);
  }

  /** A network that is pinned stays usable. */
  lemma PinnedStaysUsable(s: State, e: Cluster.Event, v: VpcId, agent: Agent)
    requires Inv(s) && Cluster.Enabled(s, e) && Pinned(s, v, agent) && Usable(s, Some(v), agent)
    ensures Usable(Apply(s, e), Some(v), agent)
  {
    PinnedIsReferenced(s, v, agent);
    AvailableRow(s, v);
    if e.NetEvent? {
      ReferencedRowStays(s, e.id, e.ne, v);
    }
    InvStep(s, e);
    AvailableRow(Apply(s, e), v);
  }
}
