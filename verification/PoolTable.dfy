/**
 Dedicated addresses: the pool entries, their owners, the administrator's edits (a read, an
 ownership count and a compare-and-set that may all interleave with other work), and what every
 step of a guest's life does to the pool.
 */
module PoolTable {
  import opened Common
  import opened Lifecycle

  datatype Status = EntryFree | EntryAssigned | EntryDisabled

  datatype Entry = Entry(agent: Agent, status: Status, owner: Option<InstanceId>)

  type Pool = map<EntryId, Entry>
  type Guests = map<InstanceId, Guest>

  function Assigned(e: Entry, i: InstanceId): Entry {
    e.(status := EntryAssigned, owner := Some(i))
  }

  function Released(e: Entry): Entry {
    e.(status := EntryFree, owner := None)
  }

  /** The condition of the compare-and-set that assigns an entry. */
  predicate Assignable(pool: Pool, id: EntryId, agent: Agent) {
    id in pool && pool[id].agent == agent && pool[id].status == EntryFree && pool[id].owner == None
  }

  function ReleaseOn(pool: Pool, i: InstanceId, agent: Agent): Pool {
    map id | id in pool :: if pool[id].owner == Some(i) && pool[id].agent == agent then Released(pool[id]) else pool[id]
  }

  function ReleaseAll(pool: Pool, i: InstanceId): Pool {
    map id | id in pool :: if pool[id].owner == Some(i) then Released(pool[id]) else pool[id]
  }

  function ReleaseEntry(pool: Pool, i: InstanceId, entry: Option<EntryId>): Pool {
    if entry.Some? && entry.value in pool && pool[entry.value].owner == Some(i)
    then pool[entry.value := Released(pool[entry.value])] else pool
  }

  /** What an event of guest `i` does to the pool; None if the compare-and-set fails and the transaction rolls back. */
  function PoolEffect(pool: Pool, i: InstanceId, g: Guest, e: Event): Option<Pool>
    requires Enabled(g, e)
  {
    match e
    case Reserve(p) =>
      if p.targetEntry.None? then Some(pool)
      else if Assignable(pool, p.targetEntry.value, p.target)
      then Some(pool[p.targetEntry.value := Assigned(pool[p.targetEntry.value], i)])
      else None
    case ReleaseSource(ok) => Some(if ok then ReleaseOn(pool, i, g.fence.job.plan.source) else pool)
    case ReleaseTarget(ok) => Some(if ok then ReleaseEntry(pool, i, g.fence.job.plan.targetEntry) else pool)
    case _ => Some(pool)
  }

  // ---------------------------------------------------------------- the invariant

  /** The migration still owns reservations on both agents. */
  predicate Unsettled(phase: Phase) {
    match phase
    case Preparing => true
    case Importing => true
    case Imported => true
    case Verified => true
    case Switching => true
    case Switched => true
    case SourceDeleted => true
    case CleaningUp(late) => !late
    case TargetDeleted(late) => !late
    case Retained(ArchiveKept) => false
    case Retained(CleanupUnknown(late)) => !late
    case Retained(ReservationsKept(late)) => !late
    case Retained(_) => true
    case _ => false
  }

  /** Guest `g` may own entry `id` with value `e`. */
  predicate MayOwn(g: Guest, id: EntryId, e: Entry) {
    if g.fence.Held? && g.fence.job.Migrating? && Unsettled(g.fence.job.phase) then
      var p := g.fence.job.plan;
      e.agent == if p.targetEntry == Some(id) then p.target else p.source
    else
      e.agent == g.agent
  }

  ghost predicate EntryOk(guests: Guests, id: EntryId, e: Entry) {
    && (e.status == EntryAssigned <==> e.owner.Some?)
    && (e.owner.Some? ==> e.owner.value in guests && MayOwn(guests[e.owner.value], id, e))
  }

  ghost predicate PoolOk(guests: Guests, pool: Pool) {
    forall id | id in pool :: EntryOk(guests, id, pool[id])
  }

  predicate TouchesPool(e: Event) {
    e == ReleaseSource(true) || e == ReleaseTarget(true)
  }

  lemma MayOwnStep(g: Guest, e: Event, id: EntryId, entry: Entry)
    requires GuestOk(g) && Enabled(g, e) && !TouchesPool(e) && !e.Reserve? && MayOwn(g, id, entry)
    ensures MayOwn(Step(g, e), id, entry)
  {
    if g.fence.Held? && g.fence.job.Migrating? {
      MigratingMayOwn(g, e, id, entry);
    }
  }

  lemma MigratingMayOwn(g: Guest, e: Event, id: EntryId, entry: Entry)
    requires GuestOk(g) && Enabled(g, e) && !TouchesPool(e) && MayOwn(g, id, entry)
    requires g.fence.Held? && g.fence.job.Migrating?
    ensures MayOwn(Step(g, e), id, entry)
  {
    if Forward(e) {
      ForwardMayOwn(g, e, id, entry);
    }
  }

  lemma ForwardMayOwn(g: Guest, e: Event, id: EntryId, entry: Entry)
    requires GuestOk(g) && Enabled(g, e) && Forward(e) && MayOwn(g, id, entry)
    requires g.fence.Held? && g.fence.job.Migrating?
    ensures MayOwn(Step(g, e), id, entry)
  {
  }

  lemma PoolOkStep(guests: Guests, pool: Pool, i: InstanceId, e: Event)
    requires PoolOk(guests, pool) && i in guests && GuestOk(guests[i]) && Enabled(guests[i], e)
    requires PoolEffect(pool, i, guests[i], e).Some?
    ensures PoolOk(guests[i := Step(guests[i], e)], PoolEffect(pool, i, guests[i], e).value)
  {
    var g := guests[i];
    var guests', pool' := guests[i := Step(g, e)], PoolEffect(pool, i, g, e).value;
    forall id | id in pool' ensures EntryOk(guests', id, pool'[id]) {
      assert id in pool && EntryOk(guests, id, pool[id]);
      if TouchesPool(e) || e.Reserve? {
        TouchedEntry(pool, i, g, e, id);
      } else if pool[id].owner == Some(i) {
        MayOwnStep(g, e, id, pool[id]);
      }
    }
  }

  /** What a reservation and the two releases leave of one entry. */
  lemma TouchedEntry(pool: Pool, i: InstanceId, g: Guest, e: Event, id: EntryId)
    requires GuestOk(g) && Enabled(g, e) && (TouchesPool(e) || e.Reserve?) && PoolEffect(pool, i, g, e).Some?
    requires id in pool && (pool[id].owner == Some(i) ==> MayOwn(g, id, pool[id]))
    requires pool[id].status == EntryAssigned <==> pool[id].owner.Some?
    ensures var entry := PoolEffect(pool, i, g, e).value[id];
            && (entry.status == EntryAssigned <==> entry.owner.Some?)
            && (entry.owner == Some(i) ==> MayOwn(Step(g, e), id, entry))
            && (entry.owner.Some? && entry.owner != Some(i) ==> entry == pool[id])
  {
    if e.Reserve? {
      ReservedEntry(pool, i, g, e, id);
    } else {
      GivenBackEntry(pool, i, g, e, id);
    }
  }

  lemma ReservedEntry(pool: Pool, i: InstanceId, g: Guest, e: Event, id: EntryId)
    requires Enabled(g, e) && e.Reserve? && PoolEffect(pool, i, g, e).Some?
    requires id in pool && (pool[id].owner == Some(i) ==> MayOwn(g, id, pool[id]))
    ensures var entry := PoolEffect(pool, i, g, e).value[id];
            && (entry == pool[id] || entry == Assigned(pool[id], i))
            && (entry.owner == Some(i) ==> MayOwn(Step(g, e), id, entry))
  {
  }

  lemma GivenBackEntry(pool: Pool, i: InstanceId, g: Guest, e: Event, id: EntryId)
    requires GuestOk(g) && Enabled(g, e) && TouchesPool(e)
    requires id in pool && (pool[id].owner == Some(i) ==> MayOwn(g, id, pool[id]))
    ensures var entry := PoolEffect(pool, i, g, e).value[id];
            && (entry == pool[id] || (pool[id].owner == Some(i) && entry == Released(pool[id])))
            && (entry.owner == Some(i) ==> MayOwn(Step(g, e), id, entry))
  {
  }

  /** No runtime of the guest is on the agent, and no request that could make one is outstanding there. */
  predicate CertainlyGone(g: Guest, agent: Agent) {
    agent !in g.runtimes && !(Unanswered(g, Importing, ImportUnknown) && g.fence.job.plan.target == agent)
  }

  /**
   An address leaves its owner only when the owner's runtime is gone from the agent of that address:
   its deletion was confirmed there, or no import was ever sent there.
   */
  lemma ReleasedOnlyWhenGone(guests: Guests, pool: Pool, i: InstanceId, e: Event, id: EntryId, owner: InstanceId)
    requires PoolOk(guests, pool) && i in guests && GuestOk(guests[i]) && Enabled(guests[i], e)
    requires PoolEffect(pool, i, guests[i], e).Some?
    requires id in pool && pool[id].owner == Some(owner)
    requires PoolEffect(pool, i, guests[i], e).value[id].owner != Some(owner)
    ensures owner == i && CertainlyGone(guests[i], pool[id].agent)
  {
    assert EntryOk(guests, id, pool[id]);
  }

  // ---------------------------------------------------------------- what a migration has reserved

  /** Until its cleanup has released it, the target entry belongs to the migrating guest and lies on the target. */
  ghost predicate Reserved(g: Guest, i: InstanceId, pool: Pool) {
    g.fence.Held? && g.fence.job.Migrating? && !g.fence.job.phase.CleanedUp? && g.fence.job.plan.targetEntry.Some? ==>
      Owns(pool, i, g.fence.job.plan.targetEntry.value, g.fence.job.plan.target)
  }

  predicate Owns(pool: Pool, i: InstanceId, id: EntryId, agent: Agent) {
    id in pool && pool[id] == Entry(agent, EntryAssigned, Some(i))
  }

  /** A reservation goes through exactly if the entry is free on the target, and then it is taken. */
  lemma ReservationTakesTheEntry(pool: Pool, i: InstanceId, g: Guest, p: Plan)
    requires Enabled(g, Reserve(p))
    ensures var r := PoolEffect(pool, i, g, Reserve(p));
            match p.targetEntry
            case None => r == Some(pool)
            case Some(id) =>
              && (r.Some? <==> id in pool && pool[id] == Entry(p.target, EntryFree, None))
              && (r.Some? ==> Owns(r.value, i, id, p.target) && r.value == pool[id := r.value[id]])
  {
  }

  /** An entry of one guest is not touched by the events of the others. */
  lemma OthersKeepTheirs(pool: Pool, i: InstanceId, g: Guest, e: Event, id: EntryId)
    requires Enabled(g, e) && PoolEffect(pool, i, g, e).Some?
    requires id in pool && pool[id].owner.Some? && pool[id].owner != Some(i)
    ensures id in PoolEffect(pool, i, g, e).value && PoolEffect(pool, i, g, e).value[id] == pool[id]
  {
  }

  lemma OwnReservation(pool: Pool, i: InstanceId, g: Guest, e: Event)
    requires GuestOk(g) && Enabled(g, e) && PoolEffect(pool, i, g, e).Some? && Reserved(g, i, pool)
    ensures Reserved(Step(g, e), i, PoolEffect(pool, i, g, e).value)
  {
    if e.Reserve? {
      ReservationTakesTheEntry(pool, i, g, e.plan);
    } else if TouchesPool(e) {
      assert g.fence.job.plan.source != g.fence.job.plan.target;
    } else {
      PhasesMoveOn(g, e);
    }
  }

  /** Only a reservation makes a plan, and only the release of the target ends it in a cleanup. */
  lemma PhasesMoveOn(g: Guest, e: Event)
    requires Enabled(g, e) && !e.Reserve? && !TouchesPool(e)
    ensures var g' := Step(g, e);
            g'.fence.Held? && g'.fence.job.Migrating? ==>
              && g.fence.Held? && g.fence.job.Migrating? && g'.fence.job.plan == g.fence.job.plan
              && (g.fence.job.phase.CleanedUp? ==> g'.fence.job.phase.CleanedUp?)
  {
  }

  ghost predicate AllReserved(guests: Guests, pool: Pool) {
    forall i | i in guests :: Reserved(guests[i], i, pool)
  }

  lemma AllReservedStep(guests: Guests, pool: Pool, i: InstanceId, e: Event)
    requires AllReserved(guests, pool) && i in guests && GuestOk(guests[i]) && Enabled(guests[i], e)
    requires PoolEffect(pool, i, guests[i], e).Some?
    ensures AllReserved(guests[i := Step(guests[i], e)], PoolEffect(pool, i, guests[i], e).value)
  {
    OwnReservation(pool, i, guests[i], e);
    forall j | j in guests && j != i ensures Reserved(guests[j], j, PoolEffect(pool, i, guests[i], e).value) {
      assert Reserved(guests[j], j, pool);
      var f := guests[j].fence;
      if f.Held? && f.job.Migrating? && !f.job.phase.CleanedUp? && f.job.plan.targetEntry.Some? {
        OthersKeepTheirs(pool, i, guests[i], e, f.job.plan.targetEntry.value);
      }
    }
  }

  // ---------------------------------------------------------------- the administrator

  /** An edit in progress: what it read, whether it found the owner gone, and the status it asks for. */
  datatype Edit = Edit(id: EntryId, seen: Entry, orphan: bool, want: Option<Status>)

  function BeginEdit(pool: Pool, id: EntryId, want: Option<Status>): Edit
    requires id in pool
  {
    Edit(id, pool[id], false, want)
  }

  /** An owned entry may only be given back, and only if its owner was found gone. */
  predicate EditAllowed(e: Edit) {
    && (e.want.Some? && e.seen.owner.Some? ==> e.orphan && e.want == Some(EntryFree))
    && e.want != Some(EntryAssigned)
    && (e.want == Some(EntryDisabled) ==> e.seen.status != EntryAssigned)
  }

  /** The compare-and-set on status and owner; without a match nothing changes. */
  function CommitEdit(pool: Pool, e: Edit): Pool {
    if e.id in pool && pool[e.id].status == e.seen.status && pool[e.id].owner == e.seen.owner && EditAllowed(e) then
      pool[e.id :=
        match e.want
        case None => pool[e.id]
        case Some(EntryDisabled) => pool[e.id].(status := EntryDisabled)
        case Some(_) => Released(pool[e.id])]
    else pool
  }

  /** What an edit in progress knows stays true: instance ids are never used twice. */
  ghost predicate EditOk(guests: Guests, usedIds: set<InstanceId>, e: Edit) {
    e.orphan ==> e.seen.owner.Some? && e.seen.owner.value in usedIds && e.seen.owner.value !in guests
  }

  /** An edit never takes an address from an instance that exists, however late it commits. */
  lemma EditNeverRobs(guests: Guests, usedIds: set<InstanceId>, pool: Pool, e: Edit)
    requires PoolOk(guests, pool) && EditOk(guests, usedIds, e)
    ensures PoolOk(guests, CommitEdit(pool, e))
    ensures forall id | id in pool && pool[id].owner.Some? :: CommitEdit(pool, e)[id] == pool[id]
  {
    var pool' := CommitEdit(pool, e);
    if e.id in pool {
      assert EntryOk(guests, e.id, pool[e.id]);
    }
    forall id | id in pool' ensures EntryOk(guests, id, pool'[id]) {
      assert EntryOk(guests, id, pool[id]);
    }
  }

  /** The condition of the deletion statement. */
  predicate Deletable(e: Entry) {
    e.status != EntryAssigned && e.owner == None
  }
}
