/**
 The readiness watchers of one instance against the fenced operations that replace its guest.

 A watcher takes no fence: it reads the row, asks the agent of the row, and marks the row ready if the
 row is unfenced and still shows the agent and the generation it has read.
 */
module Watcher {
  import opened Common

  type AgentId = nat
  type Guest = nat
  type WatcherId = nat

  datatype Kind =
    | Reinstall
    | RestoreSnapshot
    | RestoreBackup
    | Migrate(target: AgentId)
    | Plain  // an operation that leaves the guest alone

  datatype Pc =
    | Idle                        // the fence is free
    | Begun(kind: Kind)
    | Replaced(kind: Kind)        // the agent has confirmed the new guest
    | Settled(kind: Kind)         // the update after the request has been dealt with, or there is none
    | Retained(kind: Kind)        // ended with the fence kept

  datatype Watch =
    | HaveRow(agent: AgentId, generation: nat)
    | HaveReply(agent: AgentId, generation: nat, guest: Guest)

  datatype State = State(
    agent: AgentId, generation: nat, ready: bool, pc: Pc,
    guests: map<AgentId, Guest>,   // what runs for this instance on each agent
    next: Guest,                   // guests never seen before start here
    watches: map<WatcherId, Watch>)

  datatype Event =
    | Begin(kind: Kind)
    | Request(outcome: Outcome)    // the request that replaces or imports the guest
    | Update(committed: bool)      // the update of the row after the confirmed request
    | Release
    | LateReplace                  // a request that failed is applied after the operation has ended
    | Abandon                      // a migration gives up before the switch
    | Drop(other: AgentId)         // a migration deletes a runtime
    | Observe(ready: bool)         // an operation that leaves the guest alone writes what it saw
    | Look(watcher: WatcherId)     // a watcher reads the row
    | Ask(watcher: WatcherId)      // and queries the agent
    | Mark(watcher: WatcherId)     // and writes

  /** Where the request of the operation puts a new guest. */
  function Place(s: State, kind: Kind): AgentId {
    if kind.Migrate? then kind.target else s.agent
  }

  predicate Enabled(s: State, e: Event) {
    match e
    case Begin(kind) => s.pc.Idle? && (kind.Migrate? ==> kind.target != s.agent)
    case Request(_) => s.pc.Begun? && !s.pc.kind.Plain?
    case Update(_) => s.pc.Replaced?
    case Release => s.pc.Begun? || s.pc.Settled?
    case LateReplace => s.pc.Retained?
    case Abandon => (s.pc.Begun? || s.pc.Replaced? || s.pc.Retained?) && s.pc.kind.Migrate?
    case Drop(other) => !s.pc.Idle? && s.pc.kind.Migrate? && (other != s.agent || s.pc.Settled?)
    case Observe(ready) => s.pc.Begun? && s.pc.kind.Plain? && (ready ==> s.agent in s.guests)
    case Look(_) => s.pc.Idle? && !s.ready
    case Ask(w) => w in s.watches && s.watches[w].HaveRow? && s.watches[w].agent in s.guests
    case Mark(w) => w in s.watches && s.watches[w].HaveReply?
  }

  /** The compare-and-set of the watcher succeeds. */
  predicate TakesEffect(s: State, w: WatcherId)
    requires Enabled(s, Mark(w))
  {
    s.pc.Idle? && s.agent == s.watches[w].agent && s.generation == s.watches[w].generation
  }

  /** The guest the reply was about is the one bound to the row. */
  predicate Current(s: State, w: WatcherId)
    requires Enabled(s, Mark(w))
  {
    s.agent in s.guests && s.guests[s.agent] == s.watches[w].guest
  }

  function Replace(s: State, kind: Kind): State {
    s.(guests := s.guests[Place(s, kind) := s.next], next := s.next + 1)
  }

  function Requested(s: State, kind: Kind, outcome: Outcome): State {
    var t := if outcome.Applied() then Replace(s, kind) else s;
    if outcome.Confirmed? then t.(pc := Replaced(kind)) else t.(pc := Retained(kind))
  }

  /** The row after the confirmed request, by the kind of the operation. */
  function Updated(s: State, kind: Kind, committed: bool): State {
    if !committed then
      // reinstall returns without retaining the fence
      s.(pc := if kind.Reinstall? then Settled(kind) else Retained(kind))
    else
      match kind
      case Reinstall => s.(ready := false, generation := s.generation + 1, pc := Settled(kind))
      case RestoreSnapshot => s.(ready := false, generation := s.generation + 1, pc := Settled(kind))
      case RestoreBackup => s.(ready := false, pc := Settled(kind))
      case Migrate(target) => s.(agent := target, ready := false, generation := s.generation + 1, pc := Settled(kind))
      case Plain => s.(pc := Settled(kind))
  }

  function Step(s: State, e: Event): State
    requires Enabled(s, e)
  {
    match e
    case Begin(kind) => s.(pc := Begun(kind))
    case Request(outcome) => Requested(s, s.pc.kind, outcome)
    case Update(committed) => Updated(s, s.pc.kind, committed)
    case Release => s.(pc := Idle)
    case LateReplace => Replace(s, s.pc.kind)
    case Abandon => s.(pc := Idle)
    case Observe(ready) => s.(ready := ready)
    case Drop(other) => s.(guests := s.guests - {other})
    case Look(w) => s.(watches := s.watches[w := HaveRow(s.agent, s.generation)])
    case Ask(w) =>
      var v := s.watches[w];
      s.(watches := s.watches[w := HaveReply(v.agent, v.generation, s.guests[v.agent])])
    case Mark(w) =>
      var t := s.(watches := s.watches - {w});
      if TakesEffect(s, w) then t.(ready := true) else t
  }

  predicate Init(s: State) {
    && s.pc.Idle? && s.watches == map[]
    && (s.ready ==> s.agent in s.guests)
    && (forall a | a in s.guests :: s.guests[a] < s.next)
  }

  predicate Run(s: State, es: seq<Event>)
    decreases es
  {
    es == [] || (Enabled(s, es[0]) && Run(Step(s, es[0]), es[1..]))
  }

  function End(s: State, es: seq<Event>): State
    requires Run(s, es)
    decreases es
  {
    if es == [] then s else End(Step(s, es[0]), es[1..])
  }

  // ---------------------------------------------------------------- stale replies are void

  /** The two updates that let go of the fence without a new generation. */
  predicate Unbumped(kind: Kind, committed: bool) {
    (kind.Reinstall? && !committed) || (kind.RestoreBackup? && committed)
  }

  predicate Careless(s: State, e: Event) {
    e.Update? && s.pc.Replaced? && Unbumped(s.pc.kind, e.committed)
  }

  predicate Careful(s: State, es: seq<Event>)
    requires Run(s, es)
    decreases es
  {
    es == [] || (!Careless(s, es[0]) && Careful(Step(s, es[0]), es[1..]))
  }

  /** The bound guest may have been replaced without a trace in the row; the fence is held. */
  predicate Dirty(s: State) {
    (s.pc.Replaced? || s.pc.Retained?) && !s.pc.kind.Migrate?
  }

  ghost predicate WatchOk(s: State, v: Watch) {
    && v.generation <= s.generation
    && (v.generation == s.generation ==> v.agent == s.agent)
    && (v.generation == s.generation && v.HaveReply? && !Dirty(s) ==>
        s.agent in s.guests && s.guests[s.agent] == v.guest)
  }

  ghost predicate Inv(s: State) {
    && (!s.pc.Idle? && !s.pc.Settled? && s.pc.kind.Migrate? ==> s.pc.kind.target != s.agent)
    && (s.pc.Replaced? ==> !s.pc.kind.Plain?)
    && (forall a | a in s.guests :: s.guests[a] < s.next)
    && (forall w | w in s.watches :: WatchOk(s, s.watches[w]))
    && (s.pc.Settled? && s.pc.kind.Migrate? ==> forall w | w in s.watches :: s.watches[w].generation < s.generation)
  }

  /** Every kind of step on one watch. */
  lemma WatchStep(s: State, e: Event, w: WatcherId)
    requires Inv(s) && Enabled(s, e) && !Careless(s, e) && w in s.watches && w in Step(s, e).watches
    ensures WatchOk(Step(s, e), Step(s, e).watches[w])
  {
    assert WatchOk(s, s.watches[w]);
  }

  lemma InvStep(s: State, e: Event)
    requires Inv(s) && Enabled(s, e) && !Careless(s, e)
    ensures Inv(Step(s, e))
  {
    var t := Step(s, e);
    forall w | w in t.watches ensures WatchOk(t, t.watches[w]) {
      if w in s.watches {
        WatchStep(s, e, w);
      }
    }
  }

  lemma {:induction false} InvRun(s: State, es: seq<Event>)
    requires Inv(s) && Run(s, es) && Careful(s, es)
    ensures Inv(End(s, es))
    decreases es
  {
    if es != [] {
      InvStep(s, es[0]);
      InvRun(Step(s, es[0]), es[1..]);
    }
  }

  /**
   In every run in which the update after a confirmed reinstall commits and no backup is restored, a
   watcher marks the row ready only for the guest it has queried.
   */
  lemma ReadyIsAboutTheBoundGuest(s0: State, es: seq<Event>, w: WatcherId)
    requires Init(s0) && Run(s0, es) && Careful(s0, es)
    requires Enabled(End(s0, es), Mark(w)) && TakesEffect(End(s0, es), w)
    ensures Current(End(s0, es), w)
  {
    InvRun(s0, es);
    assert WatchOk(End(s0, es), End(s0, es).watches[w]);
  }

  // ---------------------------------------------------------------- what a row that says ready stands for

  function Bound(s: State): Option<Guest> {
    if s.agent in s.guests then Some(s.guests[s.agent]) else None
  }

  /** The guest that an agent last reported ready, until a new guest is written to the row or it is seen not ready. */
  function Vouched(s: State, e: Event, before: Option<Guest>): Option<Guest>
    requires Enabled(s, e)
  {
    match e
    case Mark(w) => if TakesEffect(s, w) then Some(s.watches[w].guest) else before
    case Observe(ready) => if ready then Bound(s) else None
    case Update(committed) => if committed && !s.pc.kind.Plain? then None else before
    case _ => before
  }

  function VouchedFor(s: State, es: seq<Event>, before: Option<Guest>): Option<Guest>
    requires Run(s, es)
    decreases es
  {
    if es == [] then before else VouchedFor(Step(s, es[0]), es[1..], Vouched(s, es[0], before))
  }

  ghost predicate VouchedOk(s: State, v: Option<Guest>) {
    && (s.ready <==> v.Some?)
    && (s.ready && !Dirty(s) ==> v == Bound(s))
    && (s.pc.Settled? && s.pc.kind.Migrate? ==> !s.ready)
  }

  lemma VouchedStep(s: State, e: Event, v: Option<Guest>)
    requires Inv(s) && Enabled(s, e) && !Careless(s, e) && VouchedOk(s, v)
    ensures VouchedOk(Step(s, e), Vouched(s, e, v))
  {
    if e.Mark? {
      assert WatchOk(s, s.watches[e.watcher]);
    }
  }

  lemma {:induction false} VouchedRun(s: State, es: seq<Event>, v: Option<Guest>)
    requires Inv(s) && Run(s, es) && Careful(s, es) && VouchedOk(s, v)
    ensures VouchedOk(End(s, es), VouchedFor(s, es, v))
    decreases es
  {
    if es != [] {
      InvStep(s, es[0]);
      VouchedStep(s, es[0], v);
      VouchedRun(Step(s, es[0]), es[1..], Vouched(s, es[0], v));
    }
  }

  /**
   At every moment of a careful run, not only when it is written: the row says ready exactly if some guest
   has been reported ready since, and that guest is the bound one whenever the fence is free.
   */
  lemma ReadyIsVouchedFor(s0: State, es: seq<Event>)
    requires Init(s0) && Run(s0, es) && Careful(s0, es)
    ensures var s, v := End(s0, es), VouchedFor(s0, es, if s0.ready then Bound(s0) else None);
            && (s.ready <==> v.Some?)
            && (s.ready && !Dirty(s) ==> v == Bound(s))
            && (s.pc.Settled? && s.pc.kind.Migrate? ==> !s.ready)
  {
    VouchedRun(s0, es, if s0.ready then Bound(s0) else None);
  }

  /** This much holds in every run, careful or not: a committed replacement takes ready away. */
  lemma {:induction false} ReadyIffReported(s: State, es: seq<Event>, v: Option<Guest>)
    requires Run(s, es) && (s.ready <==> v.Some?)
    ensures End(s, es).ready <==> VouchedFor(s, es, v).Some?
    decreases es
  {
    if es != [] {
      ReadyIffReported(Step(s, es[0]), es[1..], Vouched(s, es[0], v));
    }
  }

  // ---------------------------------------------------------------- what the row and the agents owe to the operations

  /** The update of a migration moves the row. */
  function MovesTo(s: State, e: Event): Option<AgentId>
    requires Enabled(s, e)
  {
    if e == Update(true) && s.pc.kind.Migrate? then Some(s.pc.kind.target) else None
  }

  /** A reinstall, a restored snapshot and a migration begin a new generation with their update. */
  predicate Renews(s: State, e: Event)
    requires Enabled(s, e)
  {
    e == Update(true) && !s.pc.kind.RestoreBackup? && !s.pc.kind.Plain?
  }

  /** What becomes of the guest on an agent when a request is applied there; None for a guest that goes. */
  function Places(s: State, e: Event, a: AgentId): Option<Option<Guest>>
    requires Enabled(s, e)
  {
    if e == Drop(a) then Some(None)
    else if (e == LateReplace || (e.Request? && !e.outcome.Refused?)) && Place(s, s.pc.kind) == a then
      Some(Some(s.next))
    else None
  }

  function LastMove(s: State, es: seq<Event>): Option<AgentId>
    requires Run(s, es)
    decreases es
  {
    if es == [] then None
    else
      var last := LastMove(Step(s, es[0]), es[1..]);
      if last.Some? then last else MovesTo(s, es[0])
  }

  function Renewals(s: State, es: seq<Event>): nat
    requires Run(s, es)
    decreases es
  {
    if es == [] then 0 else (if Renews(s, es[0]) then 1 else 0) + Renewals(Step(s, es[0]), es[1..])
  }

  function LastPlaced(s: State, es: seq<Event>, a: AgentId): Option<Option<Guest>>
    requires Run(s, es)
    decreases es
  {
    if es == [] then None
    else
      var last := LastPlaced(Step(s, es[0]), es[1..], a);
      if last.Some? then last else Places(s, es[0], a)
  }

  /** The row is where the last migration put it, its generation counts renewals, and agents run what came last. */
  lemma {:induction false} RowAndAgentsRemember(s: State, es: seq<Event>, a: AgentId)
    requires Run(s, es)
    ensures End(s, es).agent == GetOr(LastMove(s, es), s.agent)
    ensures End(s, es).generation == s.generation + Renewals(s, es)
    ensures Find(End(s, es).guests, a) == GetOr(LastPlaced(s, es, a), Find(s.guests, a))
    decreases es
  {
    if es != [] {
      StepRemembers(s, es[0], a);
      RowAndAgentsRemember(Step(s, es[0]), es[1..], a);
    }
  }

  lemma StepRemembers(s: State, e: Event, a: AgentId)
    requires Enabled(s, e)
    ensures Step(s, e).agent == GetOr(MovesTo(s, e), s.agent)
    ensures Step(s, e).generation == s.generation + if Renews(s, e) then 1 else 0
    ensures Find(Step(s, e).guests, a) == GetOr(Places(s, e, a), Find(s.guests, a))
  {
  }

  /** A migration that gives up leaves the row as it was, free for the next operation. */
  lemma AbandonedMigrationLeavesTheRow(s: State, target: AgentId, o: Outcome)
    requires Enabled(s, Begin(Migrate(target)))
    ensures var t := Step(Step(Step(s, Begin(Migrate(target))), Request(o)), Abandon);
            t == s.(guests := t.guests, next := t.next) && Find(t.guests, s.agent) == Find(s.guests, s.agent)
  {
  }

  // ---------------------------------------------------------------- and only these two updates let them through

  /** An operation whose request is confirmed, as far as it goes. */
  function Operated(s: State, kind: Kind, committed: bool): State
    requires s.pc.Idle? && Enabled(s, Begin(kind)) && !kind.Plain?
  {
    var t := Step(Step(Step(s, Begin(kind)), Request(Confirmed)), Update(committed));
    if t.pc.Settled? then Step(t, Release) else t
  }

  /**
   Whatever the state: a reply that was current before a replacing operation is written after it exactly
   if the update left the generation alone while letting go of the fence, and then it is wrong.
   */
  lemma StaleReplyIsWrittenIff(s: State, kind: Kind, committed: bool, w: WatcherId)
    requires Inv(s) && Enabled(s, Begin(kind)) && !kind.Plain?
    requires Enabled(s, Mark(w)) && TakesEffect(s, w) && Current(s, w)
    ensures Enabled(Operated(s, kind, committed), Mark(w))
    ensures TakesEffect(Operated(s, kind, committed), w) <==> Unbumped(kind, committed)
    ensures Unbumped(kind, committed) ==> !Current(Operated(s, kind, committed), w)
  {
    assert s.guests[s.agent] < s.next;
  }

  /** A reply gets through if nothing comes between: the row is then ready, for the guest that was asked about. */
  lemma UndisturbedReplyIsWritten(s: State, w: WatcherId)
    requires Enabled(s, Look(w)) && s.agent in s.guests
    ensures var s1 := Step(s, Look(w));
            && Enabled(s1, Ask(w)) && var s2 := Step(s1, Ask(w));
               && Enabled(s2, Mark(w)) && Current(s2, w)
               && Step(s2, Mark(w)) == s.(ready := true, watches := s.watches - {w})
  {
    var s3 := Step(Step(Step(s, Look(w)), Ask(w)), Mark(w));
    assert s3.watches == s.watches - {w};
  }

  /** Between the request and the update no reply is written, and one from before is wrong unless it was refused. */
  lemma RequestsAreFenced(s: State, kind: Kind, o: Outcome, w: WatcherId)
    requires Inv(s) && Enabled(s, Begin(kind)) && !kind.Plain? && !kind.Migrate?
    requires Enabled(s, Mark(w)) && TakesEffect(s, w) && Current(s, w)
    ensures var t := Step(Step(s, Begin(kind)), Request(o));
            Enabled(t, Mark(w)) && !TakesEffect(t, w) && (Current(t, w) <==> o.Refused?)
  {
    assert s.guests[s.agent] < s.next;
  }

  ghost predicate Reaches(s: State, t: State) {
    exists es :: Run(s, es) && End(s, es) == t
  }

  lemma ReachesFirst(s: State, e: Event, t: State)
    requires Enabled(s, e) && Reaches(Step(s, e), t)
    ensures Reaches(s, t)
  {
    var es :| Run(Step(s, e), es) && End(Step(s, e), es) == t;
    var all := [e] + es;
    assert all[0] == e && all[1..] == es;
    assert Run(s, all) && End(s, all) == t;
  }

  lemma UnbumpedReaches(s: State, kind: Kind, committed: bool, t: State)
    requires s.pc.Idle? && Unbumped(kind, committed) && Reaches(Operated(s, kind, committed), t)
    ensures Reaches(s, t)
  {
    var s1 := Step(s, Begin(kind));
    var s2 := Step(s1, Request(Confirmed));
    var s3 := Step(s2, Update(committed));
    ReachesFirst(s3, Release, t);
    ReachesFirst(s2, Update(committed), t);
    ReachesFirst(s1, Request(Confirmed), t);
    ReachesFirst(s, Begin(kind), t);
  }

  /** Guest 100 on agent 1, not ready. */
  const BOOTED := State(1, 0, false, Idle, map[1 := 100], 101, map[])

  /** A watcher has read the row and has been told about guest 100. */
  const ASKED := BOOTED.(watches := map[5 := HaveReply(1, 0, 100)])

  lemma AskedIsReached(t: State)
    requires Reaches(ASKED, t)
    ensures Reaches(BOOTED, t)
  {
    var s1 := BOOTED.(watches := map[5 := HaveRow(1, 0)]);
    assert Step(BOOTED, Look(5)) == s1;
    assert Step(s1, Ask(5)) == ASKED by {
      assert map[5 := HaveRow(1, 0)][5 := HaveReply(1, 0, 100)] == map[5 := HaveReply(1, 0, 100)];
    }
    ReachesFirst(s1, Ask(5), t);
    ReachesFirst(BOOTED, Look(5), t);
  }

  /** Whichever of the two updates it is, the new guest is there and nothing else tells. */
  lemma OperatedUnbumped(kind: Kind, committed: bool)
    requires Unbumped(kind, committed)
    ensures Operated(ASKED, kind, committed) == ASKED.(guests := map[1 := 101], next := 102)
  {
    assert map[1 := 100][1 := 101] == map[1 := 101];
  }

  /**
   Each of the two updates has a concrete run from a new instance: a watcher reads the row and asks for
   guest 100, the guest is replaced, and the reply about guest 100 is then written for the new one.
   */
  lemma StaleReplyIsWritten(kind: Kind, committed: bool)
    requires Unbumped(kind, committed)
    ensures Init(BOOTED)
    ensures exists t ::
              && Reaches(BOOTED, t) && Enabled(t, Mark(5)) && TakesEffect(t, 5) && Step(t, Mark(5)).ready
              && t.watches[5].guest == 100 && t.agent in t.guests && t.guests[t.agent] == 101
  {
    OperatedUnbumped(kind, committed);
    var t := ASKED.(guests := map[1 := 101], next := 102);
    assert Run(t, []) && Reaches(t, t);
    UnbumpedReaches(ASKED, kind, committed, t);
    AskedIsReached(t);
  }
}
