/**
 Creating and deleting a network as one process runs it, whatever the database and the agent answer. Every
 statement and request is a step of the table's state machine.
 */
module VpcService {
  import opened Common
  import opened Lifecycle
  import opened VpcTable

  /** The answers to a creation, in the order of asking. */
  datatype Creation = Creation(inserted: bool, created: Outcome, marked: bool, compensated: Outcome, dropped: bool,
                               errorMarked: bool)

  datatype Deletion = Deletion(begun: bool, deleted: Outcome, dropped: bool, errorMarked: bool)

  /** The rows, and the networks that exist on the agents. */
  datatype Tables = Tables(rows: Rows, nets: Nets)

  /** What may refer to a network, as the deleting transaction counts it. */
  datatype World = World(guests: Guests, migs: Migrations)

  ghost predicate Allowed(w: World, t: Tables, id: VpcId, e: VpcEvent) {
    VpcEnabled(w.guests, w.migs, t.rows, id, e)
  }

  function Next(t: Tables, id: VpcId, e: VpcEvent): Tables
    requires !e.InsertRow? ==> id in t.rows
  {
    Tables(RowsStep(t.rows, id, e), NetsStep(t.rows, t.nets, id, e))
  }

  /** The networks after a request about this row. */
  function NetsAfter(nets: Nets, v: Vpc, e: VpcEvent): Nets {
    match e
    case CreateNet(o) => if o.Applied() then nets + {(v.agent, v.name)} else nets
    case Compensate(o) => if o.Applied() then nets - {(v.agent, v.name)} else nets
    case DeleteNet(o) => if o.Applied() then nets - {(v.agent, v.name)} else nets
    case _ => nets
  }

  /** A run of the state machine of one row leads from one state of the tables to the other. */
  ghost predicate Leads(w: World, t: Tables, id: VpcId, es: seq<VpcEvent>, t': Tables)
    decreases es
  {
    if es == [] then t == t'
    else
      var init, last := es[..|es| - 1], es[|es| - 1];
      exists u :: Leads(w, t, id, init, u) && Allowed(w, u, id, last) && t' == Next(u, id, last)
  }

  lemma LeadsOn(w: World, t: Tables, id: VpcId, es: seq<VpcEvent>, u: Tables, e: VpcEvent)
    requires Leads(w, t, id, es, u) && Allowed(w, u, id, e)
    ensures Leads(w, t, id, es + [e], Next(u, id, e))
  {
    assert (es + [e])[..|es|] == es;
  }

  ghost predicate Consistent(t: Tables) {
    RowsOk(t.rows, t.nets) && AllOwned(t.rows, t.nets)
  }

  lemma {:induction false} ConsistentRun(w: World, t: Tables, id: VpcId, es: seq<VpcEvent>, t': Tables)
    requires Consistent(t) && Leads(w, t, id, es, t')
    ensures Consistent(t')
  {
    if es != [] {
      var init, last := es[..|es| - 1], es[|es| - 1];
      var u :| Leads(w, t, id, init, u) && Allowed(w, u, id, last) && t' == Next(u, id, last);
      ConsistentRun(w, t, id, init, u);
      RowsOkStep(w.guests, w.migs, u.rows, u.nets, id, last);
      AllOwnedStep(w.guests, w.migs, u.rows, u.nets, id, last);
    }
  }

  /** The unique index on agent and name. */
  predicate NameIsFree(t: Tables, agent: Agent, name: nat) {
    forall k | k in t.rows :: !(t.rows[k].agent == agent && t.rows[k].name == name)
  }

  /** Available or left in error by an earlier attempt, and nothing refers to it. */
  ghost predicate Deletable(w: World, t: Tables, id: VpcId) {
    id in t.rows && (t.rows[id].state == VpcAvailable || t.rows[id].state == VpcError)
        && Unreferenced(w.guests, w.migs, id, t.rows[id].agent)
  }

  /** A name that no row uses is not in use on the agent either, so a compensation only takes back its own network. */
  lemma FreeNameHasNoNetwork(t: Tables, agent: Agent, name: nat)
    requires Consistent(t) && NameIsFree(t, agent, name)
    ensures (agent, name) !in t.nets
  {
    assert !Owned(t.rows, (agent, name));
  }

  /** The row after a creation that failed: gone only if nothing can be left on the agent. */
  function RowsAfterFailure(before: Rows, id: VpcId, agent: Agent, name: nat, a: Creation): Rows {
    var cleaned := a.created.Confirmed? && a.compensated.Confirmed?;
    if !a.inserted || (cleaned && a.dropped) then before
    else before[id := Vpc(agent, name, if !cleaned && a.errorMarked then VpcError else VpcCreating, NoJob)]
  }

  /** One process that works on the network `id`. */
  class Worker {
    const id: VpcId
    const world: World
    var tables: Tables
    ghost const start: Tables
    ghost var trace: seq<VpcEvent>

    ghost predicate Tracks()
      reads this
    {
      Leads(world, start, id, trace, tables)
    }

    constructor (id: VpcId, world: World, tables: Tables)
      ensures this.id == id && this.world == world && this.tables == start == tables && Tracks()
    {
      this.id, this.world, this.tables, start, trace := id, world, tables, tables, [];
    }

    method Do(e: VpcEvent)
      requires Tracks() && Allowed(world, tables, id, e)
      modifies this`tables, this`trace
      ensures Tracks() && tables == Next(old(tables), id, e)
    {
      LeadsOn(world, start, id, trace, tables, e);
      tables := Next(tables, id, e);
      trace := trace + [e];
    }

    /** The row says this, and the other rows what they said before. */
    ghost predicate RowIs(before: Rows, v: Vpc)
      reads this
    {
      tables.rows == before[id := v]
    }

    method Work(e: VpcEvent, ghost before: Rows, ghost v: Vpc)
      requires Tracks() && RowIs(before, v) && Allowed(world, tables, id, e)
      requires !e.InsertRow? && !e.LateCreateNet? && !e.LateDeleteNet? && e != DropRow(true)
      modifies this`tables, this`trace
      ensures Tracks() && RowIs(before, Worked(v, e))
      ensures tables.nets == NetsAfter(old(tables).nets, v, e)
    {
      Do(e);
    }

    /** The statement that deletes the row. */
    method Drop(ok: bool, ghost before: Rows, ghost v: Vpc)
      requires Tracks() && RowIs(before, v) && Allowed(world, tables, id, DropRow(ok))
      modifies this`tables, this`trace
      ensures Tracks() && tables.nets == old(tables).nets
      ensures if ok then tables.rows == before - {id} else RowIs(before, Worked(v, DropRow(false)))
    {
      assert before[id := v] - {id} == before - {id};
      Do(DropRow(ok));
    }

    /** Success leaves an available row with its network. An error leaves what Failed says. */
    method CreateVPC(agent: Agent, name: nat, a: Creation) returns (ok: bool)
      requires Tracks() && id !in tables.rows && (a.inserted ==> NameIsFree(tables, agent, name))
      modifies this`tables, this`trace
      ensures Tracks()
      ensures ok <==> a.inserted && a.created.Confirmed? && a.marked
      ensures ok ==> RowIs(old(tables).rows, Vpc(agent, name, VpcAvailable, NoJob))
      ensures !ok ==> tables.rows == RowsAfterFailure(old(tables).rows, id, agent, name, a)
      ensures tables.nets ==
              if !ok && a.inserted && a.created.Confirmed? && a.compensated.Applied()
              then old(tables).nets + {(agent, name)} - {(agent, name)}
              else if a.inserted && a.created.Applied() then old(tables).nets + {(agent, name)} else old(tables).nets
    {
      if !a.inserted {
        return false;
      }
      ghost var before := tables.rows;
      Do(InsertRow(agent, name));
      Work(CreateNet(a.created), before, Vpc(agent, name, VpcCreating, MakingNet));
      if !a.created.Confirmed? {
        Work(MarkError(a.errorMarked), before, Vpc(agent, name, VpcCreating, MarkingError));
        return false;
      }
      Work(MarkAvailable(a.marked), before, Vpc(agent, name, VpcCreating, MarkingAvailable));
      if a.marked {
        return true;
      }
      TakeBack(agent, name, a, before);
      return false;
    }

    /** The network was made but could not be announced. */
    method TakeBack(agent: Agent, name: nat, a: Creation, ghost before: Rows)
      requires Tracks() && id !in before && RowIs(before, Vpc(agent, name, VpcCreating, Compensating))
      modifies this`tables, this`trace
      ensures Tracks()
      ensures if a.compensated.Confirmed? && a.dropped then tables.rows == before
              else RowIs(before, Vpc(agent, name, if !a.compensated.Confirmed? && a.errorMarked then VpcError
                                                  else VpcCreating, NoJob))
      ensures tables.nets == if a.compensated.Applied() then old(tables).nets - {(agent, name)} else old(tables).nets
    {
      Work(Compensate(a.compensated), before, Vpc(agent, name, VpcCreating, Compensating));
      if !a.compensated.Confirmed? {
        Work(MarkError(a.errorMarked), before, Vpc(agent, name, VpcCreating, MarkingError));
        return;
      }
      assert before - {id} == before;
      Drop(a.dropped, before, Vpc(agent, name, VpcCreating, DroppingNew));
    }

    /** Success removes row and network. After an error the row stays, and in state error it can be deleted again. */
    method DeleteVPC(a: Deletion) returns (ok: bool)
      requires Tracks() && id in tables.rows && (a.begun ==> Deletable(world, tables, id))
      modifies this`tables, this`trace
      ensures Tracks()
      ensures ok <==> a.begun && a.deleted.Confirmed? && a.dropped
      ensures ok ==> tables.rows == old(tables).rows - {id}
      ensures !a.begun ==> tables.rows == old(tables).rows
      ensures a.begun && !ok ==>
                var v := old(tables).rows[id];
                RowIs(old(tables).rows, Vpc(v.agent, v.name, if a.errorMarked then VpcError else VpcDeleting, NoJob))
      ensures a.begun && !ok && a.errorMarked ==> Deletable(world, tables, id)
      ensures var v := old(tables).rows[id];
              tables.nets == if a.begun && a.deleted.Applied() then old(tables).nets - {(v.agent, v.name)}
                             else old(tables).nets
    {
      if !a.begun {
        return false;
      }
      ghost var before, v := tables.rows, tables.rows[id];
      assert before[id := v] == before;
      Work(BeginDelete, before, v);
      ok := Remove(a, before, v.agent, v.name);
    }

    /** After the transaction that has found no reference. */
    method Remove(a: Deletion, ghost before: Rows, ghost agent: Agent, ghost name: nat) returns (ok: bool)
      requires Tracks() && RowIs(before, Vpc(agent, name, VpcDeleting, DeletingNet))
      modifies this`tables, this`trace
      ensures Tracks() && (ok <==> a.deleted.Confirmed? && a.dropped)
      ensures if ok then tables.rows == before - {id}
              else RowIs(before, Vpc(agent, name, if a.errorMarked then VpcError else VpcDeleting, NoJob))
      ensures tables.nets == if a.deleted.Applied() then old(tables).nets - {(agent, name)} else old(tables).nets
    {
      Work(DeleteNet(a.deleted), before, Vpc(agent, name, VpcDeleting, DeletingNet));
      if !a.deleted.Confirmed? {
        Work(MarkError(a.errorMarked), before, Vpc(agent, name, VpcDeleting, MarkingError));
        return false;
      }
      Drop(a.dropped, before, Vpc(agent, name, VpcDeleting, DroppingOld));
      if !a.dropped {
        Work(MarkError(a.errorMarked), before, Vpc(agent, name, VpcDeleting, MarkingError));
        return false;
      }
      return true;
    }
  }
}
