/**
 A network that is not pinned can be cleared: one after the other, every other guest whose operation has
 not ended in doubt is led to the end of its operation and purged.
 */
module Clearing {
  import opened Common
  import opened Lifecycle
  import opened Cluster
  import opened ClusterSafety
  import opened ClusterRuns
  import opened Eviction
  import Net = VpcTable
  import Nat = NatTable
  import Pool = PoolTable

  // ---------------------------------------------------------------- the next step of one guest

  /** The next step of a migration towards its end, without trouble. */
  function Next(phase: Phase): Lifecycle.Event {
    match phase
    case Preparing => Prepare(false)
    case Importing => Abandon
    case Imported => Verify(false)
    case Verified => MarkSwitching(true)
    case Switching => Switch(true)
    case Switched => DeleteSource(Confirmed)
    case SourceDeleted => ReleaseSource(true)
    case Completed => DropArchive(true)
    case Closing => ClosingRead(true)
    case Returned => Finish(false)
    case CleaningUp(_) => DeleteTarget(Confirmed)
    case TargetDeleted(_) => ReleaseTarget(true)
    case CleanedUp(_) => MarkFailed(true)
    case Retained(_) => Finish(true)
  }

  /** How many steps are left. */
  function Rank(phase: Phase): nat {
    match phase
    case Preparing => 4
    case Importing => 4
    case Imported => 5
    case Verified => 11
    case Switching => 10
    case Switched => 9
    case SourceDeleted => 8
    case Completed => 7
    case Closing => 6
    case Returned => 0
    case CleaningUp(_) => 3
    case TargetDeleted(_) => 2
    case CleanedUp(_) => 1
    case Retained(_) => 0
  }

  predicate Ended(phase: Phase) {
    phase.Returned? || phase.CleanedUp? || phase.Retained?
  }

  lemma NextStep(g: Guest, t: Token)
    requires GuestOk(g) && Carries(g, t) && !Ended(g.fence.job.phase)
    ensures var e := Next(g.fence.job.phase);
            && Lifecycle.Enabled(g, e) && e != ClosingRead(false) && !e.Claim? && !e.Reserve?
            && Carries(Step(g, e), t) && Rank(Step(g, e).fence.job.phase) < Rank(g.fence.job.phase)
  {
  }

  // ---------------------------------------------------------------- what a step of one guest changes

  predicate Owns(g: Guest, t: Token) {
    g.fence.Held? && g.fence.job.Migrating? && g.fence.token == t
  }

  /** Nothing but this guest, its migration row, its forwardings and addresses has changed. */
  ghost predicate Alone(s: State, s': State, j: InstanceId)
    requires j in s.guests
  {
    && s'.vpcs == s.vpcs && s'.nets == s.nets && s'.migs.Keys == s.migs.Keys
    && s'.guests.Keys - {j} == s.guests.Keys - {j}
    && (forall k | k in s.guests && k != j :: k in s'.guests && s'.guests[k] == s.guests[k])
    && (forall t | t in s.migs && !Owns(s.guests[j], t) :: s'.migs[t] == s.migs[t])
  }

  /** Events of a guest that cannot be refused by the tables. */
  lemma Served(s: State, j: InstanceId, e: Lifecycle.Event)
    requires j in s.guests && Lifecycle.Enabled(s.guests[j], e) && !e.Claim? && !e.Reserve?
    ensures Cluster.Enabled(s, GuestEvent(j, e)) && Net.MigrationEffect(s.migs, j, s.guests[j], e).Some?
    ensures var s1 := Apply(s, GuestEvent(j, e));
            && s1.guests == s.guests[j := Step(s.guests[j], e)] && s1.vpcs == s.vpcs && s1.nets == s.nets
            && s1.migs == Net.MigrationEffect(s.migs, j, s.guests[j], e).value
  {
    var g := s.guests[j];
    assert Nat.NatEffect(s.mappings, j, g, e).Some? && Pool.PoolEffect(s.pool, j, g, e).Some?;
  }

  lemma OwnRowOnly(g: Guest, j: InstanceId, migs: Net.Migrations, e: Lifecycle.Event)
    requires Lifecycle.Enabled(g, e) && !e.Reserve? && Net.MigrationEffect(migs, j, g, e).Some?
    ensures var m := Net.MigrationEffect(migs, j, g, e).value;
            m.Keys == migs.Keys && forall t | t in migs && !Owns(g, t) :: m[t] == migs[t]
  {
  }

  /** One such event. */
  lemma Take(s: State, j: InstanceId, e: Lifecycle.Event) returns (s1: State)
    requires Inv(s) && j in s.guests && Lifecycle.Enabled(s.guests[j], e)
    requires !e.Claim? && !e.Reserve? && e != ClosingRead(false)
    ensures Net.MigrationEffect(s.migs, j, s.guests[j], e).Some?
    ensures s1.migs == Net.MigrationEffect(s.migs, j, s.guests[j], e).value
    ensures Inv(s1) && Alone(s, s1, j) && s1.guests == s.guests[j := Step(s.guests[j], e)]
    ensures forall t | Reaches(s1, t) :: Reaches(s, t)
  {
    Served(s, j, e);
    OwnRowOnly(s.guests[j], j, s.migs, e);
    s1 := Apply(s, GuestEvent(j, e));
    InvStep(s, GuestEvent(j, e));
    forall t | Reaches(s1, t) ensures Reaches(s, t) {
      ReachesFirst(s, GuestEvent(j, e), t);
    }
  }

  lemma InvLinks(s: State, j: InstanceId)
    requires Inv(s) && j in s.guests
    ensures Net.Linked(s.guests[j], j, s.migs) && GuestOk(s.guests[j])
  {
  }

  lemma AloneTwice(s: State, t: State, u: State, j: InstanceId)
    requires j in s.guests && j in t.guests && Alone(s, t, j) && Alone(t, u, j)
    requires forall k | Owns(t.guests[j], k) :: Owns(s.guests[j], k)
    ensures Alone(s, u, j)
  {
  }

  /** The guest is free, and what its migration has left is finished. */
  ghost predicate Settled(s: State, s': State, j: InstanceId)
    requires j in s.guests
  {
    && Alone(s, s', j) && Inv(s') && j in s'.guests && s'.guests[j].fence.Free?
    && forall t | t in s.migs && Owns(s.guests[j], t) :: s'.migs[t].Terminal()
  }

  /** A cleaned-up migration is marked, and the fence is given back. */
  lemma SettleCleaned(s: State, j: InstanceId) returns (s': State)
    requires Inv(s) && j in s.guests && !Hopeless(s.guests[j])
    requires s.guests[j].fence.Held? && s.guests[j].fence.job.Migrating? && s.guests[j].fence.job.phase.CleanedUp?
    ensures Reaches(s, s') && Settled(s, s', j)
  {
    InvLinks(s, j);
    var s1 := Take(s, j, MarkFailed(true));
    assert s1.guests[j] == s.guests[j] && s1.migs[s.guests[j].fence.token].Terminal();
    s' := Take(s1, j, Finish(false));
    ReachesSelf(s');
    AloneTwice(s, s1, s', j);
  }

  /** An operation that only has to end, ends; a returned migration has its row completed. */
  lemma SettleIdle(s: State, j: InstanceId) returns (s': State)
    requires Inv(s) && j in s.guests && s.guests[j].fence.Held? && !Hopeless(s.guests[j])
    requires s.guests[j].fence.job.Migrating? ==> s.guests[j].fence.job.phase.Returned?
    ensures Reaches(s, s') && Settled(s, s', j)
  {
    InvLinks(s, j);
    s' := Take(s, j, Finish(false));
    ReachesSelf(s');
  }

  /** One step of a migration on its way. */
  lemma Advance(s: State, j: InstanceId) returns (s1: State)
    requires Inv(s) && j in s.guests && !Hopeless(s.guests[j])
    requires s.guests[j].fence.Held? && s.guests[j].fence.job.Migrating? && !Ended(s.guests[j].fence.job.phase)
    ensures Inv(s1) && Alone(s, s1, j) && j in s1.guests && Carries(s1.guests[j], s.guests[j].fence.token)
    ensures Rank(s1.guests[j].fence.job.phase) < Rank(s.guests[j].fence.job.phase)
    ensures forall t | Reaches(s1, t) :: Reaches(s, t)
  {
    InvLinks(s, j);
    NextStep(s.guests[j], s.guests[j].fence.token);
    s1 := Take(s, j, Next(s.guests[j].fence.job.phase));
  }

  lemma SettleMigration(s: State, j: InstanceId) returns (s': State)
    requires Inv(s) && j in s.guests && !Hopeless(s.guests[j])
    requires s.guests[j].fence.Held? && s.guests[j].fence.job.Migrating?
    ensures Reaches(s, s') && Settled(s, s', j)
    decreases Rank(s.guests[j].fence.job.phase)
  {
    if s.guests[j].fence.job.phase.CleanedUp? {
      s' := SettleCleaned(s, j);
    } else if s.guests[j].fence.job.phase.Returned? {
      s' := SettleIdle(s, j);
    } else {
      var s1 := Advance(s, j);
      s' := SettleMigration(s1, j);
      AloneTwice(s, s1, s', j);
    }
  }

  lemma Settle(s: State, j: InstanceId) returns (s': State)
    requires Inv(s) && j in s.guests && !Hopeless(s.guests[j])
    ensures Reaches(s, s') && Settled(s, s', j)
  {
    if s.guests[j].fence.Free? {
      s' := s;
      ReachesSelf(s);
    } else if s.guests[j].fence.job.Migrating? {
      s' := SettleMigration(s, j);
    } else {
      s' := SettleIdle(s, j);
    }
  }

  // ---------------------------------------------------------------- purging

  lemma {:induction false} Above(keys: set<nat>) returns (b: nat)
    ensures forall k | k in keys :: k < b
    decreases |keys|
  {
    b := 0;
    if keys != {} {
      var k :| k in keys;
      var rest := Above(keys - {k});
      b := if k < rest then rest else k + 1;
      assert forall x | x in keys :: x == k || x in keys - {k};
    }
  }

  /** A new token can always be drawn. */
  lemma Reclaim(s: State, j: InstanceId) returns (s1: State)
    requires Inv(s) && j in s.guests && s.guests[j].fence.Free?
    ensures Inv(s1) && Alone(s, s1, j) && j in s1.guests && Running(s1.guests[j], Other)
    ensures forall t | Reaches(s1, t) :: Reaches(s, t)
  {
    var token := Above(s.tokens.Keys);
    var e := GuestEvent(j, Claim(token));
    assert token !in s.tokens;
    s1 := Apply(s, e);
    InvStep(s, e);
    forall t | Reaches(s1, t) ensures Reaches(s, t) {
      ReachesFirst(s, e, t);
    }
  }

  /** The guest is gone, and what its migration has left is finished. */
  ghost predicate Evicted(s: State, s': State, j: InstanceId)
    requires j in s.guests
  {
    && Alone(s, s', j) && Inv(s') && s'.guests.Keys == s.guests.Keys - {j}
    && forall t | t in s.migs && Owns(s.guests[j], t) :: s'.migs[t].Terminal()
  }

  lemma PurgeFree(s: State, j: InstanceId) returns (s': State)
    requires Inv(s) && j in s.guests && s.guests[j].fence.Free?
    ensures Reaches(s, s') && Evicted(s, s', j)
  {
    var s1 := Reclaim(s, j);
    var s2 := Take(s1, j, PurgeCall(Confirmed));
    s' := Commit(s2, j);
    AloneTwice(s, s1, s2, j);
    AloneTwice(s, s2, s', j);
  }

  lemma Commit(s: State, j: InstanceId) returns (s': State)
    requires Inv(s) && j in s.guests && Running(s.guests[j], PurgeConfirmed)
    ensures Reaches(s, s') && Evicted(s, s', j)
  {
    s' := Apply(s, PurgeCommit(j));
    InvStep(s, PurgeCommit(j));
    ReachesSelf(s');
    ReachesFirst(s, PurgeCommit(j), s');
  }

  lemma Evict(s: State, j: InstanceId) returns (s': State)
    requires Inv(s) && j in s.guests && !Hopeless(s.guests[j])
    ensures Reaches(s, s') && Evicted(s, s', j)
  {
    var s1 := Settle(s, j);
    s' := PurgeFree(s1, j);
    ReachesTransitive(s, s1, s');
    AloneTwice(s, s1, s', j);
  }

  // ---------------------------------------------------------------- clearing

  lemma EvictedStaysUnpinned(s: State, s': State, j: InstanceId, v: VpcId, agent: Agent)
    requires j in s.guests && Evicted(s, s', j) && !Pinned(s, v, agent)
    ensures !Pinned(s', v, agent)
  {
    forall k | k in s'.guests ensures !Occupies(s'.guests[k], v) {
      assert k in s.guests && !Occupies(s.guests[k], v);
    }
    forall t | t in s'.migs ensures !Leftover(s', t, v, agent) {
      assert t in s.migs && !Leftover(s, t, v, agent);
      if !Owns(s.guests[j], t) && Carried(s.guests, t) {
        var k :| k in s.guests && Carries(s.guests[k], t);
        assert k != j && k in s'.guests && Carries(s'.guests[k], t);
      }
    }
  }

  /** Everyone who is left has ended in doubt, except a migration whose row is finished. */
  lemma ClearedIsUnreferenced(s: State, i: InstanceId, v: VpcId, agent: Agent)
    requires !Pinned(s, v, agent) && i in s.guests && s.guests[i].vpc != Some(v)
    requires forall j | j in s.guests && j != i :: Hopeless(s.guests[j])
    requires forall t | t in s.migs && Carries(s.guests[i], t) :: s.migs[t].Terminal()
    ensures Net.Unreferenced(s.guests, s.migs, v, agent)
  {
    forall j | j in s.guests ensures s.guests[j].vpc != Some(v) {
      assert !Occupies(s.guests[j], v);
    }
    forall t | t in s.migs && !s.migs[t].Terminal() ensures !Refers(s.migs[t], v, agent) {
      assert !Leftover(s, t, v, agent);
    }
  }

  /** The network loses all its users but leaves this guest and its migration where they are. */
  lemma Clear(s: State, i: InstanceId, v: VpcId, agent: Agent) returns (s': State)
    requires Inv(s) && !Pinned(s, v, agent) && i in s.guests && s.guests[i].vpc != Some(v)
    requires forall t | t in s.migs && Carries(s.guests[i], t) :: s.migs[t].Terminal()
    ensures Reaches(s, s') && Inv(s') && s'.vpcs == s.vpcs && s'.nets == s.nets && s'.migs.Keys == s.migs.Keys
    ensures i in s'.guests && s'.guests[i] == s.guests[i]
    ensures forall t | t in s.migs && Owns(s.guests[i], t) :: s'.migs[t] == s.migs[t]
    ensures Net.Unreferenced(s'.guests, s'.migs, v, agent)
    decreases s.guests.Keys
  {
    if j :| j in s.guests && j != i && !Hopeless(s.guests[j]) {
      var s1 := Evict(s, j);
      EvictedStaysUnpinned(s, s1, j, v, agent);
      TokensDiffer(s);
      s' := Clear(s1, i, v, agent);
      ReachesTransitive(s, s1, s');
    } else {
      s' := s;
      ReachesSelf(s);
      ClearedIsUnreferenced(s, i, v, agent);
    }
  }
}
