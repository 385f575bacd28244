/**
 Who has what in every run: nothing is taken without a record, and every change of an address, a forwarding
 or a network is one that somebody asked for.
 */
module ClusterLedger {
  import opened Common
  import opened Lifecycle
  import opened Cluster
  import opened ClusterSafety
  import Nat = NatTable
  import Pool = PoolTable
  import Net = VpcTable

  /**
   Networks have rows; migrations own the addresses they reserved and keep the ports of their source, and
   their rows tell how far they are.
   */
  ghost predicate Booked(s: State) {
    && Nat.AllSourceMirrored(s.guests, s.mappings)
    && Net.AllOwned(s.vpcs, s.nets) && Pool.AllReserved(s.guests, s.pool) && Net.AllStaged(s.guests, s.migs)
  }

  lemma BookedGuestStep(s: State, i: InstanceId, e: Lifecycle.Event)
    requires Inv(s) && Booked(s) && GuestEnabled(s, i, e)
    ensures Booked(GuestApply(s, i, e))
  {
    TokensDiffer(s);
    Pool.AllReservedStep(s.guests, s.pool, i, e);
    Nat.AllSourceMirroredStep(s.guests, s.mappings, i, e);
    Net.AllStagedStep(s.guests, s.migs, i, e);
  }

  /** The events that are not steps of a guest take no address that a guest owns, unless they purge it. */
  lemma OwnedStays(s: State, e: Cluster.Event, id: EntryId)
    requires Inv(s) && Cluster.Enabled(s, e) && !e.GuestEvent?
    requires id in s.pool && s.pool[id].owner.Some? && e != PurgeCommit(s.pool[id].owner.value)
    ensures id in Apply(s, e).pool && Apply(s, e).pool[id] == s.pool[id]
  {
    assert Pool.EntryOk(s.guests, id, s.pool[id]);
    if e.CommitEdit? {
      assert Pool.EditOk(s.guests, s.usedIds, s.edits[e.k]);
      Pool.EditNeverRobs(s.guests, s.usedIds, s.pool, s.edits[e.k]);
    }
  }

  lemma BookedTableStep(s: State, e: Cluster.Event)
    requires Inv(s) && Booked(s) && Cluster.Enabled(s, e) && !e.GuestEvent? && !e.NetEvent?
    ensures Booked(Apply(s, e))
  {
    var s' := Apply(s, e);
    forall i | i in s'.guests ensures Nat.SourceMirrored(s'.guests[i], i, s'.mappings) {
      if i in s.guests && s'.guests[i] == s.guests[i] {
        SourceRowsStay(s, e, i);
      }
    }
    forall i | i in s'.guests ensures Pool.Reserved(s'.guests[i], i, s'.pool) && Net.Staged(s'.guests[i], s'.migs) {
      if i in s.guests && s'.guests[i] == s.guests[i] {
        assert Net.Staged(s.guests[i], s.migs);
        ReservationStays(s, e, i);
      }
    }
  }

  /** A guest that holds rows on its source is migrating, so nobody adds or deletes any of its forwardings. */
  lemma SourceRowsStay(s: State, e: Cluster.Event, i: InstanceId)
    requires Inv(s) && Nat.AllSourceMirrored(s.guests, s.mappings) && Cluster.Enabled(s, e) && !e.GuestEvent?
    requires i in s.guests && i in Apply(s, e).guests
    ensures Nat.SourceMirrored(s.guests[i], i, Apply(s, e).mappings)
  {
    assert Nat.SourceMirrored(s.guests[i], i, s.mappings);
    if Migrates(s.guests[i]) {
      TableEventConserves(s, e, i);
      TableEventKeepsSource(s, e, i, s.guests[i].fence.token);
    }
  }

  lemma TableEventKeepsSource(s: State, e: Cluster.Event, i: InstanceId, token: Token)
    requires Cluster.Enabled(s, e) && !e.GuestEvent? && i in s.guests && Migrates(s.guests[i])
    ensures Nat.Shapes(Apply(s, e).mappings, i, Nat.SourceOf(token)) == Nat.Shapes(s.mappings, i, Nat.SourceOf(token))
  {
    var kind := Nat.SourceOf(token);
    if e.PurgeCommit? {
      Nat.RewriteShapes(s.mappings, Nat.DropGuest(e.i), i, kind, kind);
    } else if e.AddMapping? {
      Nat.ShapesAppend(s.mappings, e.row, i, kind);
    } else if e.DropMapping? {
      Nat.RewriteShapes(s.mappings, Nat.DropRow(e.row), i, kind, kind);
    }
  }

  lemma ReservationStays(s: State, e: Cluster.Event, i: InstanceId)
    requires Inv(s) && Pool.AllReserved(s.guests, s.pool) && Cluster.Enabled(s, e) && !e.GuestEvent?
    requires i in s.guests && i in Apply(s, e).guests
    ensures Pool.Reserved(s.guests[i], i, Apply(s, e).pool)
  {
    assert Pool.Reserved(s.guests[i], i, s.pool);
    var f := s.guests[i].fence;
    if f.Held? && f.job.Migrating? && !f.job.phase.CleanedUp? && f.job.plan.targetEntry.Some? {
      OwnedStays(s, e, f.job.plan.targetEntry.value);
    }
  }

  lemma BookedStep(s: State, e: Cluster.Event)
    requires Inv(s) && Booked(s) && Cluster.Enabled(s, e)
    ensures Booked(Apply(s, e))
  {
    if e.GuestEvent? {
      BookedGuestStep(s, e.i, e.e);
    } else if e.NetEvent? {
      Net.AllOwnedStep(s.guests, s.migs, s.vpcs, s.nets, e.id, e.ne);
    } else {
      BookedTableStep(s, e);
    }
  }

  lemma {:induction false} BookedRun(s: State, es: seq<Cluster.Event>)
    requires Inv(s) && Booked(s) && Run(s, es)
    ensures Inv(End(s, es)) && Booked(End(s, es))
    decreases es
  {
    if es != [] {
      InvStep(s, es[0]);
      BookedStep(s, es[0]);
      BookedRun(Apply(s, es[0]), es[1..]);
    }
  }

  // ---------------------------------------------------------------- networks

  /** No network on an agent is ever without a row, and a row leaves only when its network is gone. */
  lemma NetworksAreNeverOrphaned(es: seq<Cluster.Event>, e: Cluster.Event)
    requires Run(Empty(), es) && Cluster.Enabled(End(Empty(), es), e)
    ensures var s, s' := End(Empty(), es), Apply(End(Empty(), es), e);
            && (forall n | n in s.nets :: Net.Owned(s.vpcs, n))
            && (forall v | v in s.vpcs && v !in s'.vpcs ::
                  e == NetEvent(v, Net.DropRow(true)) && (s.vpcs[v].agent, s.vpcs[v].name) !in s'.nets)
  {
    BookedRun(Empty(), es);
    RowsLeaveLast(End(Empty(), es), e);
  }

  lemma RowsLeaveLast(s: State, e: Cluster.Event)
    requires Net.RowsOk(s.vpcs, s.nets) && Cluster.Enabled(s, e)
    ensures forall v | v in s.vpcs && v !in Apply(s, e).vpcs ::
              e == NetEvent(v, Net.DropRow(true)) && (s.vpcs[v].agent, s.vpcs[v].name) !in Apply(s, e).nets
  {
    if e.NetEvent? {
      forall v | v in s.vpcs && v !in Apply(s, e).vpcs
        ensures e == NetEvent(v, Net.DropRow(true)) && (s.vpcs[v].agent, s.vpcs[v].name) !in Apply(s, e).nets
      {
        Net.RowLeavesAfterItsNetwork(s.guests, s.migs, s.vpcs, s.nets, e.id, e.ne, v);
      }
    }
  }

  // ---------------------------------------------------------------- migrations

  /**
   From its reservation until a cleanup has released it, the target address of a migration is assigned to
   its guest and lies on the target, so nobody else can get it; after the switch that is the guest's own agent.
   */
  lemma MigrationsOwnTheirAddress(es: seq<Cluster.Event>, i: InstanceId, id: EntryId)
    requires Run(Empty(), es) && i in End(Empty(), es).guests
    requires var f := End(Empty(), es).guests[i].fence;
             f.Held? && f.job.Migrating? && !f.job.phase.CleanedUp? && f.job.plan.targetEntry == Some(id)
    ensures var s := End(Empty(), es);
            var f := s.guests[i].fence;
            && id in s.pool && s.pool[id].status == Pool.EntryAssigned && s.pool[id].owner == Some(i)
            && s.pool[id].agent == f.job.plan.target
            && (Net.AfterSwitch(f.job.phase) ==> s.pool[id].agent == s.guests[i].agent)
            && (forall agent :: !Pool.Assignable(s.pool, id, agent))
  {
    BookedRun(Empty(), es);
    var s := End(Empty(), es);
    assert Pool.Reserved(s.guests[i], i, s.pool) && GuestOk(s.guests[i]);
  }

  /**
   From the switch until the deletion of the source is confirmed and its reservations are released, every
   forwarding that the user sees keeps its old host port on the source, so nobody else can get it.
   */
  lemma SourcePortsAreKept(es: seq<Cluster.Event>, i: InstanceId)
    requires Run(Empty(), es) && i in End(Empty(), es).guests
    requires var f := End(Empty(), es).guests[i].fence;
             f.Held? && Nat.HoldsSource(End(Empty(), es).guests[i], f.token)
    ensures var s := End(Empty(), es);
            var f := s.guests[i].fence;
            && Nat.Shapes(s.mappings, i, Nat.SourceOf(f.token)) == Nat.Shapes(s.mappings, i, Nat.Visible)
            && forall r | r in s.mappings && r.reservation == Nat.SourceOf(f.token) && r.inst == i ::
                 r.agent == f.job.plan.source
  {
    BookedRun(Empty(), es);
    var s := End(Empty(), es);
    assert Nat.SourceMirrored(s.guests[i], i, s.mappings);
    forall r | r in s.mappings && r.reservation == Nat.SourceOf(s.guests[i].fence.token) && r.inst == i
      ensures r.agent == s.guests[i].fence.job.plan.source
    {
      assert Nat.RowOk(s.guests, r);
    }
  }

  /** The stage column of a migration that holds its fence agrees with what the migration has done. */
  lemma MigrationRowsTellTheStage(es: seq<Cluster.Event>, i: InstanceId)
    requires Run(Empty(), es) && i in End(Empty(), es).guests
    requires var f := End(Empty(), es).guests[i].fence; f.Held? && f.job.Migrating?
    ensures var s := End(Empty(), es);
            var f := s.guests[i].fence;
            f.token in s.migs && s.migs[f.token].stage in Net.StagesOf(f.job.phase)
  {
    BookedRun(Empty(), es);
    assert Net.Staged(End(Empty(), es).guests[i], End(Empty(), es).migs);
  }

  // ---------------------------------------------------------------- addresses

  /** This event gives the address to this instance: the creation or the migration that asks for it. */
  predicate Takes(e: Cluster.Event, id: EntryId, i: InstanceId) {
    || (e.CreateRow? && e.i == i && e.entry == Some(id))
    || (e.GuestEvent? && e.i == i && e.e.Reserve? && e.e.plan.targetEntry == Some(id))
  }

  /** This event gives the address back: the purge, the end of a migration, or its cleanup. */
  predicate GivesBack(s: State, e: Cluster.Event, id: EntryId, i: InstanceId) {
    || e == PurgeCommit(i)
    || (e.GuestEvent? && e.i == i && i in s.guests && Migrates(s.guests[i]) && id in s.pool
        && var plan := s.guests[i].fence.job.plan;
           || (e.e == ReleaseSource(true) && s.pool[id].agent == plan.source)
           || (e.e == ReleaseTarget(true) && plan.targetEntry == Some(id)))
  }

  /** An edit that finds the entry as it was read, without an owner, and asks for what may be asked for. */
  predicate Edits(s: State, e: Cluster.Event, id: EntryId) {
    && e.CommitEdit? && e.k in s.edits && s.edits[e.k].id == id && id in s.pool && s.pool[id].owner == None
    && s.edits[e.k].seen.owner == None && s.edits[e.k].seen.status == s.pool[id].status
    && (s.edits[e.k].want == Some(Pool.EntryFree) || s.edits[e.k].want == Some(Pool.EntryDisabled))
  }

  ghost predicate ChangesAsAsked(s: State, e: Cluster.Event, id: EntryId, pool': Pool.Pool)
    requires id in s.pool
  {
    var entry := s.pool[id];
    if e == DropEntry(id) then id !in pool' && entry.owner == None
    else
      && id in pool'
      && (forall i | Takes(e, id, i) ::
            entry == Pool.Entry(entry.agent, Pool.EntryFree, None)
            && pool'[id] == Pool.Entry(entry.agent, Pool.EntryAssigned, Some(i)))
      && (entry.owner.Some? && GivesBack(s, e, id, entry.owner.value) ==>
            pool'[id] == Pool.Entry(entry.agent, Pool.EntryFree, None))
      && (Edits(s, e, id) ==> pool'[id] == Pool.Entry(entry.agent, s.edits[e.k].want.value, None))
      && (!(exists i :: Takes(e, id, i)) && !Edits(s, e, id)
          && !(entry.owner.Some? && GivesBack(s, e, id, entry.owner.value)) ==>
            pool'[id] == entry)
  }

  /** In every run an entry changes exactly so, and in no other way. */
  lemma AddressesChangeExactlyAsAsked(es: seq<Cluster.Event>, e: Cluster.Event, id: EntryId)
    requires Run(Empty(), es) && Cluster.Enabled(End(Empty(), es), e) && id in End(Empty(), es).pool
    ensures ChangesAsAsked(End(Empty(), es), e, id, Apply(End(Empty(), es), e).pool)
  {
    InvHolds(es);
    var s := End(Empty(), es);
    if e.GuestEvent? {
      GuestChangesEntry(s, e.i, e.e, id);
    } else if e.CommitEdit? {
      EditChangesEntry(s, e.k, id);
    } else {
      TableChangesEntry(s, e, id);
    }
  }

  lemma TableChangesEntry(s: State, e: Cluster.Event, id: EntryId)
    requires Cluster.Enabled(s, e) && !e.GuestEvent? && !e.CommitEdit? && id in s.pool
    ensures ChangesAsAsked(s, e, id, Apply(s, e).pool)
  {
    assert e.CreateRow? && e.entry == Some(id) ==> Takes(e, id, e.i);
  }

  lemma GuestChangesEntry(s: State, i: InstanceId, e: Lifecycle.Event, id: EntryId)
    requires GuestEnabled(s, i, e) && id in s.pool
    ensures ChangesAsAsked(s, GuestEvent(i, e), id, GuestApply(s, i, e).pool)
  {
    var pool' := GuestApply(s, i, e).pool;
    if e.Reserve? {
      Pool.ReservationTakesTheEntry(s.pool, i, s.guests[i], e.plan);
      assert e.plan.targetEntry == Some(id) ==> Takes(GuestEvent(i, e), id, i);
    } else if e == ReleaseSource(true) || e == ReleaseTarget(true) {
      ReleaseChangesEntry(s.pool, i, s.guests[i], e, id);
      assert forall k :: GivesBack(s, GuestEvent(i, e), id, k) ==> k == i;
    }
  }

  lemma ReleaseChangesEntry(pool: Pool.Pool, i: InstanceId, g: Guest, e: Lifecycle.Event, id: EntryId)
    requires Lifecycle.Enabled(g, e) && (e == ReleaseSource(true) || e == ReleaseTarget(true)) && id in pool
    ensures var plan, pool' := g.fence.job.plan, Pool.PoolEffect(pool, i, g, e).value;
            var back := pool[id].owner == Some(i) &&
                        if e.ReleaseSource? then pool[id].agent == plan.source else plan.targetEntry == Some(id);
            id in pool' && pool'[id] == if back then Pool.Entry(pool[id].agent, Pool.EntryFree, None) else pool[id]
  {
  }

  lemma EditChangesEntry(s: State, k: nat, id: EntryId)
    requires Inv(s) && k in s.edits && id in s.pool
    ensures ChangesAsAsked(s, CommitEdit(k), id, Apply(s, CommitEdit(k)).pool)
  {
    assert Pool.EntryOk(s.guests, id, s.pool[id]) && Pool.EditOk(s.guests, s.usedIds, s.edits[k]);
  }

  /** An administrator who is not disturbed gets what was asked for, exactly if the address has no owner. */
  lemma UndisturbedEditIsHonoured(es: seq<Cluster.Event>, k: nat, id: EntryId, want: Option<Pool.Status>)
    requires Run(Empty(), es) && Cluster.Enabled(End(Empty(), es), ReadEdit(k, id, want))
    ensures var s := End(Empty(), es);
            var s1 := Apply(s, ReadEdit(k, id, want));
            && s1.pool == s.pool && Cluster.Enabled(s1, CommitEdit(k))
            && Apply(s1, CommitEdit(k)) == s.(
                 pool := if s.pool[id].owner == None && want.Some? && want != Some(Pool.EntryAssigned)
                         then s.pool[id := Pool.Entry(s.pool[id].agent, want.value, None)] else s.pool)
  {
    InvHolds(es);
    EditRoundTrip(End(Empty(), es), k, id, want);
  }

  lemma EditRoundTrip(s: State, k: nat, id: EntryId, want: Option<Pool.Status>)
    requires Pool.PoolOk(s.guests, s.pool) && k !in s.edits && id in s.pool
    ensures var s2 := Apply(Apply(s, ReadEdit(k, id, want)), CommitEdit(k));
            s2 == s.(pool := if s.pool[id].owner == None && want.Some? && want != Some(Pool.EntryAssigned)
                             then s.pool[id := Pool.Entry(s.pool[id].agent, want.value, None)] else s.pool)
  {
    assert Pool.EntryOk(s.guests, id, s.pool[id]);
    assert s.edits[k := Pool.BeginEdit(s.pool, id, want)] - {k} == s.edits;
    if want.None? {
      assert s.pool[id := s.pool[id]] == s.pool;
    }
  }

  /** Exactly the entries without an owner can be deleted. */
  lemma UnownedEntriesCanGo(es: seq<Cluster.Event>, id: EntryId)
    requires Run(Empty(), es) && id in End(Empty(), es).pool
    ensures Cluster.Enabled(End(Empty(), es), DropEntry(id)) <==> End(Empty(), es).pool[id].owner == None
  {
    InvHolds(es);
    assert Pool.EntryOk(End(Empty(), es).guests, id, End(Empty(), es).pool[id]);
  }

  /** A new entry can be given out at once, and what an instance is created with is what was asked for. */
  lemma CreatedAsAsked(es: seq<Cluster.Event>, e: Cluster.Event)
    requires Run(Empty(), es) && Cluster.Enabled(End(Empty(), es), e)
    ensures var s, s' := End(Empty(), es), Apply(End(Empty(), es), e);
            && (e.AddEntry? ==> Pool.Assignable(s'.pool, e.id, e.agent))
            && (e.CreateRow? ==>
                  && e.i !in s.guests && s'.guests == s.guests[e.i := s'.guests[e.i]]
                  && s'.guests[e.i] == Guest(e.agent, e.vpc, Held(e.token, Creating, true), {}, false)
                  && (e.entry.Some? ==> Pool.Owns(s'.pool, e.i, e.entry.value, e.agent)))
            && (e.PurgeCommit? ==> s'.guests == s.guests - {e.i} && forall r | r in s'.mappings :: r.inst != e.i)
  {
    InvHolds(es);
    if e.PurgeCommit? {
      Nat.RewriteRows(End(Empty(), es).mappings, Nat.DropGuest(e.i));
    }
  }

  // ---------------------------------------------------------------- forwardings

  /** A row added is added at the end, and a row deleted is taken out of its place; all others stay. */
  lemma ForwardingsChangeExactlyAsAsked(es: seq<Cluster.Event>, e: Cluster.Event)
    requires Run(Empty(), es) && Cluster.Enabled(End(Empty(), es), e)
    ensures var t, t' := End(Empty(), es).mappings, Apply(End(Empty(), es), e).mappings;
            && (e.AddMapping? ==> t' == t + [e.row] && e.row !in t)
            && (e.DropMapping? ==> e.row !in t' && if e.row in t then TakenOut(t, t', e.row) else t' == t)
            && (!e.AddMapping? && !e.DropMapping? && !e.PurgeCommit? && !e.GuestEvent? ==> t' == t)
  {
    InvHolds(es);
    var s := End(Empty(), es);
    if e.DropMapping? {
      RowIsTakenOut(s.mappings, e.row);
    } else if e.AddMapping? {
      assert Nat.SameKey(e.row, e.row);
    }
  }

  lemma RowIsTakenOut(t: Nat.Table, row: Nat.Row)
    requires Nat.Unique(t)
    ensures var t' := Nat.Rewrite(t, Nat.DropRow(row));
            row !in t' && if row in t then TakenOut(t, t', row) else t' == t
  {
    Nat.RewriteRows(t, Nat.DropRow(row));
    if row in t {
      var k :| 0 <= k < |t| && t[k] == row;
      Nat.DropRowTakesOne(t, k);
    } else {
      Nat.DropAbsent(t, row);
    }
  }

  ghost predicate TakenOut(t: Nat.Table, t': Nat.Table, row: Nat.Row) {
    exists k | 0 <= k < |t| :: t[k] == row && t' == t[..k] + t[k + 1..]
  }
}
