/**
 The whole database and all agents: any number of guests, migrations, networks, pool entries and
 forwardings, changed by any number of processes in any order. One event is one statement,
 transaction or request of one of them.
 */
module Cluster {
  import opened Common
  import opened Lifecycle
  import Nat = NatTable
  import Pool = PoolTable
  import Net = VpcTable

  datatype State = State(
    guests: map<InstanceId, Guest>,
    usedIds: set<InstanceId>,             // primary keys are never used twice
    tokens: map<Token, InstanceId>,       // fence tokens drawn so far, and for which instance
    pool: Pool.Pool,
    edits: map<nat, Pool.Edit>,           // administrator requests in progress
    mappings: Nat.Table,
    migs: Net.Migrations,
    vpcs: Net.Rows,
    nets: Net.Nets)

  datatype Event =
    | CreateRow(i: InstanceId, agent: Agent, vpc: Option<VpcId>, entry: Option<EntryId>, token: Token)
    | GuestEvent(i: InstanceId, e: Lifecycle.Event)
    | PurgeCommit(i: InstanceId)
    | AddMapping(row: Nat.Row)
    | DropMapping(row: Nat.Row)
    | AddEntry(id: EntryId, agent: Agent)
    | DropEntry(id: EntryId)
    | ReadEdit(k: nat, id: EntryId, want: Option<Pool.Status>)
    | CountEdit(k: nat)
    | CommitEdit(k: nat)
    | NetEvent(id: VpcId, ne: Net.VpcEvent)

  ghost predicate GuestEnabled(s: State, i: InstanceId, e: Lifecycle.Event) {
    && i in s.guests && Lifecycle.Enabled(s.guests[i], e)
    && (e.Claim? ==> e.token in s.tokens ==> s.tokens[e.token] == i)
    && (e.Reserve? ==> Net.Available(s.vpcs, e.plan.targetVpc, e.plan.target))
    && Nat.NatEffect(s.mappings, i, s.guests[i], e).Some?
    && Pool.PoolEffect(s.pool, i, s.guests[i], e).Some?
    && Net.MigrationEffect(s.migs, i, s.guests[i], e).Some?
  }

  ghost predicate Enabled(s: State, e: Event) {
    match e
    case CreateRow(i, agent, vpc, entry, token) =>
      && i !in s.usedIds && token !in s.tokens && Net.Available(s.vpcs, vpc, agent)
      && (entry.Some? ==> Pool.Assignable(s.pool, entry.value, agent))
    case GuestEvent(i, ge) => GuestEnabled(s, i, ge)
    case PurgeCommit(i) => i in s.guests && Lifecycle.Running(s.guests[i], PurgeConfirmed)
    case AddMapping(row) =>
      && row.inst in s.guests && row.reservation == Nat.Visible && row.agent == s.guests[row.inst].agent
      && (Lifecycle.Running(s.guests[row.inst], Other) || Lifecycle.Running(s.guests[row.inst], Creating))
      && Nat.KeyIsFree(s.mappings, row)
    case DropMapping(row) => row.inst in s.guests && Lifecycle.Running(s.guests[row.inst], Other)
    case AddEntry(id, agent) => id !in s.pool
    case DropEntry(id) => id in s.pool && Pool.Deletable(s.pool[id])
    case ReadEdit(k, id, want) => k !in s.edits && id in s.pool
    case CountEdit(k) =>
      k in s.edits && s.edits[k].seen.owner.Some? && s.edits[k].seen.owner.value !in s.guests
    case CommitEdit(k) => k in s.edits
    case NetEvent(id, ne) => Net.VpcEnabled(s.guests, s.migs, s.vpcs, id, ne)
  }

  function GuestApply(s: State, i: InstanceId, e: Lifecycle.Event): State
    requires GuestEnabled(s, i, e)
  {
    var g := s.guests[i];
    s.(guests := s.guests[i := Lifecycle.Step(g, e)],
       tokens := if e.Claim? then s.tokens[e.token := i] else s.tokens,
       mappings := Nat.NatEffect(s.mappings, i, g, e).value,
       pool := Pool.PoolEffect(s.pool, i, g, e).value,
       migs := Net.MigrationEffect(s.migs, i, g, e).value)
  }

  function Apply(s: State, e: Event): State
    requires Enabled(s, e)
  {
    match e
    case CreateRow(i, agent, vpc, entry, token) =>
      s.(guests := s.guests[i := Lifecycle.NewGuest(agent, vpc, token)],
         usedIds := s.usedIds + {i},
         tokens := s.tokens[token := i],
         pool := if entry.Some? then s.pool[entry.value := Pool.Assigned(s.pool[entry.value], i)] else s.pool)
    case GuestEvent(i, ge) => GuestApply(s, i, ge)
    case PurgeCommit(i) =>
      s.(guests := s.guests - {i}, mappings := Nat.Rewrite(s.mappings, Nat.DropGuest(i)),
          pool := Pool.ReleaseAll(s.pool, i))
    case AddMapping(row) => s.(mappings := s.mappings + [row])
    case DropMapping(row) => s.(mappings := Nat.Rewrite(s.mappings, Nat.DropRow(row)))
    case AddEntry(id, agent) => s.(pool := s.pool[id := Pool.Entry(agent, Pool.EntryFree, None)])
    case DropEntry(id) => s.(pool := s.pool - {id})
    case ReadEdit(k, id, want) => s.(edits := s.edits[k := Pool.BeginEdit(s.pool, id, want)])
    case CountEdit(k) => s.(edits := s.edits[k := s.edits[k].(orphan := true)])
    case CommitEdit(k) => s.(pool := Pool.CommitEdit(s.pool, s.edits[k]), edits := s.edits - {k})
    case NetEvent(id, ne) => s.(vpcs := Net.RowsStep(s.vpcs, id, ne), nets := Net.NetsStep(s.vpcs, s.nets, id, ne))
  }

  function Empty(): State {
    State(map[], {}, map[], map[], map[], [], map[], map[], {})
  }

  // ---------------------------------------------------------------- the invariant

  ghost predicate GuestsOk(s: State) {
    && s.guests.Keys <= s.usedIds
    && (forall i | i in s.guests :: GuestOk(s.guests[i]))
    && (forall i | i in s.guests && s.guests[i].fence.Held? :: TokenOf(s, i))
  }

  ghost predicate TokenOf(s: State, i: InstanceId)
    requires i in s.guests && s.guests[i].fence.Held?
  {
    s.guests[i].fence.token in s.tokens && s.tokens[s.guests[i].fence.token] == i
  }

  ghost predicate EditsOk(s: State) {
    forall k | k in s.edits :: Pool.EditOk(s.guests, s.usedIds, s.edits[k]) &&
      (s.edits[k].seen.owner.Some? ==> s.edits[k].seen.owner.value in s.usedIds)
  }

  ghost predicate Inv(s: State) {
    && GuestsOk(s)
    && EditsOk(s)
    && Nat.NatOk(s.guests, s.mappings)
    && Pool.PoolOk(s.guests, s.pool)
    && Net.RowsOk(s.vpcs, s.nets)
    && Net.RefsOk(s.guests, s.migs, s.vpcs)
  }

  lemma TokensDiffer(s: State)
    requires GuestsOk(s)
    ensures Nat.TokensDiffer(s.guests)
  {
    forall i, j | i in s.guests && j in s.guests && i != j && s.guests[i].fence.Held? && s.guests[j].fence.Held?
      ensures s.guests[i].fence.token != s.guests[j].fence.token
    {
      assert TokenOf(s, i) && TokenOf(s, j);
    }
  }

  lemma GuestEventKeepsGuests(s: State, i: InstanceId, e: Lifecycle.Event)
    requires GuestsOk(s) && EditsOk(s) && GuestEnabled(s, i, e)
    ensures GuestsOk(GuestApply(s, i, e)) && EditsOk(GuestApply(s, i, e))
  {
    var s' := GuestApply(s, i, e);
    GuestOkStep(s.guests[i], e);
    TokenStep(s.guests[i], e);
    forall j | j in s'.guests && s'.guests[j].fence.Held? ensures TokenOf(s', j) {
      if s.guests[j].fence.Held? {
        assert TokenOf(s, j);
      }
    }
  }

  lemma TokenStep(g: Guest, e: Lifecycle.Event)
    requires Lifecycle.Enabled(g, e)
    ensures var f := Lifecycle.Step(g, e).fence;
            f.Held? ==> if e.Claim? then f.token == e.token else g.fence.Held? && f.token == g.fence.token
  {
  }

  lemma SameGuests(s: State, s': State)
    requires GuestsOk(s) && s'.guests == s.guests && s'.usedIds == s.usedIds && s'.tokens == s.tokens
    ensures GuestsOk(s')
  {
    forall j | j in s'.guests && s'.guests[j].fence.Held? ensures TokenOf(s', j) {
      assert TokenOf(s, j);
    }
  }

  lemma GuestEventKeepsInv(s: State, i: InstanceId, e: Lifecycle.Event)
    requires Inv(s) && GuestEnabled(s, i, e)
    ensures Inv(GuestApply(s, i, e))
  {
    GuestEventKeepsGuests(s, i, e);
    TokensDiffer(s);
    Nat.NatOkStep(s.guests, s.mappings, i, e);
    Pool.PoolOkStep(s.guests, s.pool, i, e);
    Net.RefsOkGuestStep(s.guests, s.migs, s.vpcs, i, e);
  }

  lemma CreateRowKeepsNat(s: State, e: Event)
    requires Nat.NatOk(s.guests, s.mappings) && s.guests.Keys <= s.usedIds && Enabled(s, e) && e.CreateRow?
    ensures Nat.NatOk(Apply(s, e).guests, Apply(s, e).mappings)
  {
    var s' := Apply(s, e);
    forall r | r in s'.mappings ensures Nat.RowOk(s'.guests, r) {
      assert Nat.RowOk(s.guests, r);
    }
    forall j | j in s'.guests ensures Nat.Mirrored(s'.guests[j], j, s'.mappings) {
      if j != e.i {
        assert Nat.Mirrored(s.guests[j], j, s.mappings);
      }
    }
  }

  lemma CreateRowKeepsPool(s: State, e: Event)
    requires Pool.PoolOk(s.guests, s.pool) && s.guests.Keys <= s.usedIds && Enabled(s, e) && e.CreateRow?
    ensures Pool.PoolOk(Apply(s, e).guests, Apply(s, e).pool)
  {
    var s' := Apply(s, e);
    forall id | id in s'.pool ensures Pool.EntryOk(s'.guests, id, s'.pool[id]) {
      assert Pool.EntryOk(s.guests, id, s.pool[id]);
    }
  }

  lemma CreateRowKeepsInv(s: State, e: Event)
    requires Inv(s) && Enabled(s, e) && e.CreateRow?
    ensures Inv(Apply(s, e))
  {
    var s' := Apply(s, e);
    forall j | j in s'.guests && s'.guests[j].fence.Held? ensures TokenOf(s', j) {
      if j != e.i {
        assert TokenOf(s, j);
      }
    }
    CreateRowKeepsNat(s, e);
    CreateRowKeepsPool(s, e);
    forall j | j in s'.guests
      ensures Net.Available(s'.vpcs, s'.guests[j].vpc, s'.guests[j].agent) && Net.Linked(s'.guests[j], j, s'.migs)
    {
    }
  }

  lemma PurgeCommitKeepsInv(s: State, i: InstanceId)
    requires Inv(s) && Enabled(s, PurgeCommit(i))
    ensures Inv(Apply(s, PurgeCommit(i)))
  {
    var s' := Apply(s, PurgeCommit(i));
    forall j | j in s'.guests && s'.guests[j].fence.Held? ensures TokenOf(s', j) {
      assert TokenOf(s, j);
    }
    Nat.RewriteUnique(s.mappings, Nat.DropGuest(i));
    Nat.RewriteRows(s.mappings, Nat.DropGuest(i));
    forall r | r in s'.mappings ensures Nat.RowOk(s'.guests, r) {
      assert Nat.RowOk(s.guests, r);
    }
    forall j | j in s'.guests ensures Nat.Mirrored(s'.guests[j], j, s'.mappings) {
      Nat.OthersMirrored(s.guests, s.mappings, i, Nat.DropGuest(i), j);
    }
    forall id | id in s'.pool ensures Pool.EntryOk(s'.guests, id, s'.pool[id]) {
      assert Pool.EntryOk(s.guests, id, s.pool[id]);
    }
  }

  lemma AddMappingKeepsInv(s: State, row: Nat.Row)
    requires Inv(s) && Enabled(s, AddMapping(row))
    ensures Inv(Apply(s, AddMapping(row)))
  {
    var s' := Apply(s, AddMapping(row));
    SameGuests(s, s');
    Nat.UniqueAppend(s.mappings, row);
    forall r | r in s'.mappings ensures Nat.RowOk(s'.guests, r) {
      assert r in s.mappings ==> Nat.RowOk(s.guests, r);
    }
    forall j | j in s'.guests ensures Nat.Mirrored(s'.guests[j], j, s'.mappings) {
      assert Nat.Mirrored(s.guests[j], j, s.mappings);
      if j != row.inst {
        Nat.ShapesAppend(s.mappings, row, j, Nat.Visible);
        if s.guests[j].fence.Held? {
          Nat.ShapesAppend(s.mappings, row, j, Nat.ReservedBy(s.guests[j].fence.token));
        }
      }
    }
  }

  lemma DropMappingKeepsInv(s: State, row: Nat.Row)
    requires Inv(s) && Enabled(s, DropMapping(row))
    ensures Inv(Apply(s, DropMapping(row)))
  {
    var s' := Apply(s, DropMapping(row));
    SameGuests(s, s');
    Nat.RewriteUnique(s.mappings, Nat.DropRow(row));
    Nat.RewriteRows(s.mappings, Nat.DropRow(row));
    forall r | r in s'.mappings ensures Nat.RowOk(s'.guests, r) {
      assert Nat.RowOk(s.guests, r);
    }
    forall j | j in s'.guests ensures Nat.Mirrored(s'.guests[j], j, s'.mappings) {
      if j != row.inst {
        Nat.OthersMirrored(s.guests, s.mappings, row.inst, Nat.DropRow(row), j);
      }
    }
  }

  lemma PoolEventsKeepInv(s: State, e: Event)
    requires Inv(s) && Enabled(s, e)
    requires e.AddEntry? || e.DropEntry? || e.ReadEdit? || e.CountEdit? || e.CommitEdit?
    ensures Inv(Apply(s, e))
  {
    var s' := Apply(s, e);
    if e.CommitEdit? {
      Pool.EditNeverRobs(s.guests, s.usedIds, s.pool, s.edits[e.k]);
    } else {
      forall id | id in s'.pool ensures Pool.EntryOk(s'.guests, id, s'.pool[id]) {
        assert id in s.pool ==> Pool.EntryOk(s.guests, id, s.pool[id]);
      }
    }
    if e.ReadEdit? {
      assert Pool.EntryOk(s.guests, e.id, s.pool[e.id]);
    }
    SameGuests(s, s');
  }

  lemma NetEventKeepsInv(s: State, e: Event)
    requires Inv(s) && Enabled(s, e) && e.NetEvent?
    ensures Inv(Apply(s, e))
  {
    var s' := Apply(s, e);
    Net.RowsOkStep(s.guests, s.migs, s.vpcs, s.nets, e.id, e.ne);
    Net.RefsOkVpcStep(s.guests, s.migs, s.vpcs, s.nets, e.id, e.ne);
    SameGuests(s, s');
  }

  lemma InvStep(s: State, e: Event)
    requires Inv(s) && Enabled(s, e)
    ensures Inv(Apply(s, e))
  {
    match e
    case CreateRow(_, _, _, _, _) => CreateRowKeepsInv(s, e);
    case GuestEvent(i, ge) => GuestEventKeepsInv(s, i, ge);
    case PurgeCommit(i) => PurgeCommitKeepsInv(s, i);
    case AddMapping(row) => AddMappingKeepsInv(s, row);
    case DropMapping(row) => DropMappingKeepsInv(s, row);
    case NetEvent(_, _) => NetEventKeepsInv(s, e);
    case _ => PoolEventsKeepInv(s, e);
  }
}
