/**
 Port forwardings (NAT mappings): the table as a sequence of rows in primary key order, the
 allocation of host ports, and what every step of a guest's life does to the table.
 */
module NatTable {
  import opened Common
  import opened Lifecycle

  const NAT_PORT_MIN := 20000
  const NAT_PORT_MAX := 29999

  datatype Protocol = Tcp | Udp

  /** The reservation column: '' is Visible, a token is ReservedBy, "source-" + token is SourceOf. */
  datatype Reservation = Visible | ReservedBy(token: Token) | SourceOf(token: Token)

  datatype Row = Row(inst: InstanceId, agent: Agent, protocol: Protocol, hostPort: nat, guestPort: nat, remark: string,
                     auto: bool, reservation: Reservation)

  /** What a forwarding means to the user, apart from where it lives. */
  datatype Shape = Shape(protocol: Protocol, guestPort: nat, remark: string, auto: bool)

  function ShapeOf(r: Row): Shape {
    Shape(r.protocol, r.guestPort, r.remark, r.auto)
  }

  type Table = seq<Row>

  predicate SameKey(a: Row, b: Row) {
    a.agent == b.agent && a.protocol == b.protocol && a.hostPort == b.hostPort
  }

  /** The unique index on (agent, protocol, host port), over visible and reserved rows alike. */
  predicate Unique(t: Table) {
    t == [] || (Unique(t[..|t| - 1]) && KeyIsFree(t[..|t| - 1], t[|t| - 1]))
  }

  predicate KeyIsFree(t: Table, r: Row) {
    forall x | x in t :: !SameKey(x, r)
  }

  /** The rows of an instance with a given reservation, as the user sees them, in table order. */
  function Shapes(t: Table, i: InstanceId, kind: Reservation): seq<Shape> {
    if t == [] then []
    else
      var last := t[|t| - 1];
      Shapes(t[..|t| - 1], i, kind) +
      if last.inst == i && last.reservation == kind then [ShapeOf(last)] else []
  }

  function RowsOf(t: Table, i: InstanceId, kind: Reservation): (rows: seq<Row>)
    ensures forall r :: r in rows <==> r in t && r.inst == i && r.reservation == kind
  {
    if t == [] then []
    else
      var last := t[|t| - 1];
      RowsOf(t[..|t| - 1], i, kind) + if last.inst == i && last.reservation == kind then [last] else []
  }

  lemma {:induction false} UniqueByIndex(t: Table, a: nat, b: nat)
    requires Unique(t) && a < b < |t|
    ensures !SameKey(t[a], t[b])
  {
    if b < |t| - 1 {
      assert t[..|t| - 1][a] == t[a] && t[..|t| - 1][b] == t[b];
      UniqueByIndex(t[..|t| - 1], a, b);
    } else {
      assert t[a] == t[..|t| - 1][a];
    }
  }

  // ---------------------------------------------------------------- host ports

  predicate Taken(t: Table, agent: Agent, port: int) {
    exists r | r in t :: r.agent == agent && r.hostPort == port
  }

  /** `r` is the least free port of the agent at or above `from`, or None when the range is exhausted. */
  ghost predicate IsLeastFree(t: Table, agent: Agent, from: int, r: Option<nat>) {
    match r
    case Some(p) => from <= p <= NAT_PORT_MAX && !Taken(t, agent, p) && forall q | from <= q < p :: Taken(t, agent, q)
    case None => forall q | from <= q <= NAT_PORT_MAX :: Taken(t, agent, q)
  }

  function FreePortFrom(t: Table, agent: Agent, from: int): Option<nat>
    requires NAT_PORT_MIN <= from <= NAT_PORT_MAX + 1
    decreases NAT_PORT_MAX + 1 - from
  {
    if from > NAT_PORT_MAX then None
    else if !Taken(t, agent, from) then Some(from)
    else FreePortFrom(t, agent, from + 1)
  }

  function FreePort(t: Table, agent: Agent): Option<nat> {
    FreePortFrom(t, agent, NAT_PORT_MIN)
  }

  lemma {:induction false} FreePortFromIsLeast(t: Table, agent: Agent, from: int)
    requires NAT_PORT_MIN <= from <= NAT_PORT_MAX + 1
    ensures IsLeastFree(t, agent, from, FreePortFrom(t, agent, from))
    decreases NAT_PORT_MAX + 1 - from
  {
    if from <= NAT_PORT_MAX && Taken(t, agent, from) {
      FreePortFromIsLeast(t, agent, from + 1);
    }
  }

  lemma FreePortIsLeast(t: Table, agent: Agent)
    ensures IsLeastFree(t, agent, NAT_PORT_MIN, FreePort(t, agent))
  {
    FreePortFromIsLeast(t, agent, NAT_PORT_MIN);
  }

  lemma LeastFreeIsUnique(t: Table, agent: Agent, from: int, a: Option<nat>, b: Option<nat>)
    requires IsLeastFree(t, agent, from, a) && IsLeastFree(t, agent, from, b)
    ensures a == b
  {
  }

  // ---------------------------------------------------------------- reservation by a migration

  function TargetRow(source: Row, target: Agent, port: nat, token: Token): Row {
    source.(agent := target, hostPort := port, reservation := ReservedBy(token))
  }

  /** The table after reserving one target port for each old row, or None when the ports run out. */
  function ReserveRows(t: Table, target: Agent, token: Token, olds: seq<Row>): Option<Table>
    decreases |olds|
  {
    if olds == [] then Some(t)
    else
      match FreePort(t, target)
      case None => None
      case Some(p) => ReserveRows(t + [TargetRow(olds[0], target, p, token)], target, token, olds[1..])
  }

  /** Shapes of a plain list of rows. */
  function ShapesOf(rows: seq<Row>): seq<Shape> {
    seq(|rows|, k requires 0 <= k < |rows| => ShapeOf(rows[k]))
  }

  lemma {:induction false} ShapesAreThoseOfTheRows(t: Table, i: InstanceId, kind: Reservation)
    ensures Shapes(t, i, kind) == ShapesOf(RowsOf(t, i, kind))
  {
    if t != [] {
      ShapesAreThoseOfTheRows(t[..|t| - 1], i, kind);
    }
  }

  lemma ShapesAppend(t: Table, r: Row, i: InstanceId, kind: Reservation)
    ensures Shapes(t + [r], i, kind) ==
            Shapes(t, i, kind) +
            (if r.inst == i && r.reservation == kind then [ShapeOf(r)] else [])
  {
    assert (t + [r])[..|t|] == t;
  }

  lemma UniqueAppend(t: Table, r: Row)
    requires Unique(t) && KeyIsFree(t, r)
    ensures Unique(t + [r])
  {
    assert (t + [r])[..|t|] == t;
  }

  lemma {:induction false} ReservedRows(t: Table, target: Agent, token: Token, olds: seq<Row>)
    requires Unique(t) && ReserveRows(t, target, token, olds).Some?
    ensures var t' := ReserveRows(t, target, token, olds).value;
            && Unique(t')
            && (forall r | r in t :: r in t')
            && (forall r | r in t' :: r in t || exists o | o in olds :: r == TargetRow(o, target, r.hostPort, token))
    decreases |olds|
  {
    if olds != [] {
      var p := FreePort(t, target).value;
      var r := TargetRow(olds[0], target, p, token);
      assert KeyIsFree(t, r) by {
        FreePortIsLeast(t, target);
        assert !Taken(t, target, p);
      }
      UniqueAppend(t, r);
      ReservedRows(t + [r], target, token, olds[1..]);
      assert olds[0] in olds && forall o | o in olds[1..] :: o in olds;
    }
  }

  predicate CopyOf(r: Row, source: Row, target: Agent, token: Token) {
    && r.inst == source.inst && r.agent == target && r.reservation == ReservedBy(token)
    && r.protocol == source.protocol && r.guestPort == source.guestPort
    && r.remark == source.remark && r.auto == source.auto
  }

  /** Row `n` has the least port that none of the rows before it uses. */
  ghost predicate LeastFreeAt(t: Table, n: nat, agent: Agent)
    requires n < |t|
  {
    IsLeastFree(t[..n], agent, NAT_PORT_MIN, Some(t[n].hostPort))
  }

  predicate StartsWith(t: Table, prefix: Table) {
    |prefix| <= |t| && t[..|prefix|] == prefix
  }

  lemma StartsWithLess(t: Table, prefix: Table, r: Row)
    requires StartsWith(t, prefix + [r])
    ensures StartsWith(t, prefix) && t[|prefix|] == r
  {
    var more := prefix + [r];
    assert t[|prefix|] == t[..|more|][|prefix|];
    assert t[..|prefix|] == t[..|more|][..|prefix|];
  }

  lemma {:induction false} ReservationAppends(t: Table, target: Agent, token: Token, olds: seq<Row>)
    requires ReserveRows(t, target, token, olds).Some?
    ensures var t' := ReserveRows(t, target, token, olds).value; |t'| == |t| + |olds| && StartsWith(t', t)
    decreases |olds|
  {
    if olds != [] {
      var r := TargetRow(olds[0], target, FreePort(t, target).value, token);
      ReservationAppends(t + [r], target, token, olds[1..]);
      StartsWithLess(ReserveRows(t, target, token, olds).value, t, r);
    }
  }

  lemma FirstReservedRow(t: Table, target: Agent, token: Token, olds: seq<Row>)
    requires olds != [] && ReserveRows(t, target, token, olds).Some?
    ensures var t' := ReserveRows(t, target, token, olds).value;
            && |t| < |t'| && t'[..|t|] == t
            && FreePort(t, target).Some? && t'[|t|] == TargetRow(olds[0], target, FreePort(t, target).value, token)
  {
    var r := TargetRow(olds[0], target, FreePort(t, target).value, token);
    ReservationAppends(t + [r], target, token, olds[1..]);
    StartsWithLess(ReserveRows(t, target, token, olds).value, t, r);
  }

  /** The state of the table when the row for the k-th old one is made. */
  function ReservedSoFar(t: Table, target: Agent, token: Token, olds: seq<Row>, k: nat): Table
    requires ReserveRows(t, target, token, olds).Some? && k < |olds|
    decreases k
  {
    if k == 0 then t
    else ReservedSoFar(t + [TargetRow(olds[0], target, FreePort(t, target).value, token)], target, token, olds[1..],
                       k - 1)
  }

  lemma {:induction false} ReservedRow(t: Table, target: Agent, token: Token, olds: seq<Row>, k: nat)
    requires ReserveRows(t, target, token, olds).Some? && k < |olds|
    ensures var t', u := ReserveRows(t, target, token, olds).value, ReservedSoFar(t, target, token, olds, k);
            && |u| == |t| + k < |t'| && t'[..|u|] == u
            && FreePort(u, target).Some? && t'[|u|] == TargetRow(olds[k], target, FreePort(u, target).value, token)
    decreases k
  {
    if k == 0 {
      FirstReservedRow(t, target, token, olds);
    } else {
      ReservedRow(t + [TargetRow(olds[0], target, FreePort(t, target).value, token)], target, token, olds[1..], k - 1);
    }
  }

  /** Row for row: the new rows are copies in order, each on the least port that was free when it was made. */
  lemma ReservedPorts(t: Table, target: Agent, token: Token, olds: seq<Row>, k: nat)
    requires ReserveRows(t, target, token, olds).Some? && k < |olds|
    ensures var t' := ReserveRows(t, target, token, olds).value;
            && |t'| == |t| + |olds| && StartsWith(t', t)
            && CopyOf(t'[|t| + k], olds[k], target, token) && LeastFreeAt(t', |t| + k, target)
  {
    ReservationAppends(t, target, token, olds);
    ReservedRow(t, target, token, olds, k);
    FreePortIsLeast(ReservedSoFar(t, target, token, olds, k), target);
  }

  lemma AppendAssociative(a: seq<Shape>, x: Shape, b: seq<Shape>)
    ensures (a + [x]) + b == a + ([x] + b)
  {
  }

  /**
   A reservation adds one reserved row for each old row, with the same shape and in the same
   order, and changes no other list of shapes.
   */
  lemma {:induction false} ReservedShapes(t: Table, target: Agent, token: Token, olds: seq<Row>, i: InstanceId,
                                          j: InstanceId, kind: Reservation)
    requires ReserveRows(t, target, token, olds).Some?
    requires forall r | r in olds :: r.inst == i
    ensures Shapes(ReserveRows(t, target, token, olds).value, j, kind) ==
            Shapes(t, j, kind) + (if j == i && kind == ReservedBy(token) then ShapesOf(olds) else [])
    decreases |olds|
  {
    if olds != [] {
      var r := TargetRow(olds[0], target, FreePort(t, target).value, token);
      ShapesAppend(t, r, j, kind);
      ReservedShapes(t + [r], target, token, olds[1..], i, j, kind);
      assert ShapesOf(olds) == [ShapeOf(r)] + ShapesOf(olds[1..]);
      if j == i && kind == ReservedBy(token) {
        assert olds[0] in olds;
        AppendAssociative(Shapes(t, j, kind), ShapeOf(r), ShapesOf(olds[1..]));
      } else {
        assert !(r.inst == j && r.reservation == kind) by { assert olds[0] in olds; }
        assert Shapes(t + [r], j, kind) == Shapes(t, j, kind);
      }
    }
  }

  ghost predicate Exhausted(t: Option<Table>, agent: Agent) {
    t.Some? && forall q | NAT_PORT_MIN <= q <= NAT_PORT_MAX :: Taken(t.value, agent, q)
  }

  /** The reservation fails only when every port of the target is in use by an existing or a just reserved row. */
  lemma {:induction false} ReservationFailsOnlyWhenExhausted(t: Table, target: Agent, token: Token, olds: seq<Row>)
    requires ReserveRows(t, target, token, olds).None?
    ensures exists done: nat :: done < |olds| && Exhausted(ReserveRows(t, target, token, olds[..done]), target)
    decreases |olds|
  {
    match FreePort(t, target)
    case None =>
      FreePortIsLeast(t, target);
      assert olds[..0] == [];
      assert ReserveRows(t, target, token, olds[..0]) == Some(t);
    case Some(p) =>
      var t1 := t + [TargetRow(olds[0], target, p, token)];
      ReservationFailsOnlyWhenExhausted(t1, target, token, olds[1..]);
      var done: nat :| done < |olds[1..]| && Exhausted(ReserveRows(t1, target, token, olds[1..][..done]), target);
      assert olds[..done + 1][1..] == olds[1..][..done];
      assert ReserveRows(t, target, token, olds[..done + 1]) == ReserveRows(t1, target, token, olds[1..][..done]);
  }

  /** The scan for a free port: collect the ports of the agent, then take the first one not among them. */
  method AllocatePort(t: Table, agent: Agent) returns (r: Option<nat>)
    ensures IsLeastFree(t, agent, NAT_PORT_MIN, r)
  {
    var used: set<nat> := {};
    var k := 0;
    while k < |t|
      invariant 0 <= k <= |t|
      invariant forall p :: p in used <==> Taken(t[..k], agent, p)
    {
      assert t[..k + 1] == t[..k] + [t[k]];
      if t[k].agent == agent {
        used := used + {t[k].hostPort};
      }
      assert forall p :: Taken(t[..k + 1], agent, p) <==>
          Taken(t[..k], agent, p) || (t[k].agent == agent && t[k].hostPort == p);
      k := k + 1;
    }
    assert t[..k] == t;
    var port := NAT_PORT_MIN;
    while port <= NAT_PORT_MAX
      invariant NAT_PORT_MIN <= port <= NAT_PORT_MAX + 1
      invariant forall q | NAT_PORT_MIN <= q < port :: Taken(t, agent, q)
    {
      if port !in used {
        return Some(port);
      }
      port := port + 1;
    }
    return None;
  }

  /** The loop of the reservation: one new row for each old one, until a port is missing. */
  method ReserveTargetRows(t: Table, target: Agent, token: Token, olds: seq<Row>) returns (r: Option<Table>)
    ensures r == ReserveRows(t, target, token, olds)
  {
    var rows, k := t, 0;
    while k < |olds|
      invariant 0 <= k <= |olds|
      invariant ReserveRows(rows, target, token, olds[k..]) == ReserveRows(t, target, token, olds)
    {
      var port := AllocatePort(rows, target);
      FreePortIsLeast(rows, target);
      LeastFreeIsUnique(rows, target, NAT_PORT_MIN, port, FreePort(rows, target));
      if port.None? {
        return None;
      }
      assert olds[k..][0] == olds[k] && olds[k..][1..] == olds[k + 1..];
      rows := rows + [TargetRow(olds[k], target, port.value, token)];
      k := k + 1;
    }
    return Some(rows);
  }

  // ---------------------------------------------------------------- updates and deletions

  /** The bulk statements that the operations run on the table. */
  datatype Change =
    | SwitchRows(inst: InstanceId, source: Agent, token: Token)
    | DropReservation(kind: Reservation)
    | DropGuest(inst: InstanceId)
    | DropRow(row: Row)

  function Rewritten(c: Change, r: Row): Option<Row> {
    match c
    case SwitchRows(i, source, token) =>
      if r.inst == i && r.agent == source && r.reservation == Visible then Some(r.(reservation := SourceOf(token)))
      else if r.reservation == ReservedBy(token) then Some(r.(reservation := Visible))
      else Some(r)
    case DropReservation(kind) => if r.reservation == kind then None else Some(r)
    case DropGuest(i) => if r.inst == i then None else Some(r)
    case DropRow(row) => if r == row then None else Some(r)
  }

  function Rewrite(t: Table, c: Change): Table {
    if t == [] then []
    else
      var r := Rewritten(c, t[|t| - 1]);
      Rewrite(t[..|t| - 1], c) + if r.Some? then [r.value] else []
  }

  lemma {:induction false} RewriteRows(t: Table, c: Change)
    ensures forall x :: x in Rewrite(t, c) <==> exists r | r in t :: Rewritten(c, r) == Some(x)
  {
    if t != [] {
      RewriteRows(t[..|t| - 1], c);
      assert t == t[..|t| - 1] + [t[|t| - 1]];
    }
  }

  /** No change touches a key, so what was free stays free. */
  lemma RewriteFree(t: Table, c: Change, r: Row)
    requires KeyIsFree(t, r) && Rewritten(c, r).Some?
    ensures KeyIsFree(Rewrite(t, c), Rewritten(c, r).value)
  {
    RewriteRows(t, c);
    forall x | x in Rewrite(t, c) ensures !SameKey(x, Rewritten(c, r).value) {
      var x0 :| x0 in t && Rewritten(c, x0) == Some(x);
      assert !SameKey(x0, r);
    }
  }

  lemma {:induction false} RewriteUnique(t: Table, c: Change)
    requires Unique(t)
    ensures Unique(Rewrite(t, c))
  {
    if t != [] {
      var init, last := t[..|t| - 1], t[|t| - 1];
      RewriteUnique(init, c);
      if Rewritten(c, last).Some? {
        RewriteFree(init, c, last);
        UniqueAppend(Rewrite(init, c), Rewritten(c, last).value);
      } else {
        assert Rewrite(t, c) == Rewrite(init, c);
      }
    }
  }

  lemma {:induction false} DropAbsent(t: Table, row: Row)
    requires row !in t
    ensures Rewrite(t, DropRow(row)) == t
  {
    if t != [] {
      assert t == t[..|t| - 1] + [t[|t| - 1]];
      DropAbsent(t[..|t| - 1], row);
    }
  }

  /** Deleting a row takes exactly that row out of its place. */
  lemma {:induction false} DropRowTakesOne(t: Table, k: nat)
    requires Unique(t) && k < |t|
    ensures Rewrite(t, DropRow(t[k])) == t[..k] + t[k + 1..]
  {
    var init, last := t[..|t| - 1], t[|t| - 1];
    if k == |t| - 1 {
      assert SameKey(last, last);
      DropAbsent(init, last);
      assert t[..k] + t[k + 1..] == init;
    } else {
      assert init[k] == t[k] && t[k] in init && !SameKey(t[k], last);
      DropRowTakesOne(init, k);
      assert t[..k] + t[k + 1..] == (init[..k] + init[k + 1..]) + [last];
    }
  }

  predicate Matches(r: Row, i: InstanceId, kind: Reservation) {
    r.inst == i && r.reservation == kind
  }

  /** The rows that match (j, before) become exactly the rows that match (j, after). */
  ghost predicate Turns(t: Table, c: Change, j: InstanceId, before: Reservation, after: Reservation) {
    forall r | r in t ::
      Matches(r, j, before) <==> (Rewritten(c, r).Some? && Matches(Rewritten(c, r).value, j, after))
  }

  /** One more row, on both sides. */
  lemma RewriteShapesSnoc(t: Table, c: Change, j: InstanceId, before: Reservation, after: Reservation)
    requires t != [] && Shapes(Rewrite(t[..|t| - 1], c), j, after) == Shapes(t[..|t| - 1], j, before)
    requires var r := t[|t| - 1];
             Matches(r, j, before) <==> (Rewritten(c, r).Some? && Matches(Rewritten(c, r).value, j, after))
    ensures Shapes(Rewrite(t, c), j, after) == Shapes(t, j, before)
  {
    var r := Rewritten(c, t[|t| - 1]);
    if r.Some? {
      ShapesAppend(Rewrite(t[..|t| - 1], c), r.value, j, after);
      assert ShapeOf(r.value) == ShapeOf(t[|t| - 1]);
    } else {
      assert Rewrite(t, c) == Rewrite(t[..|t| - 1], c);
    }
  }

  lemma {:induction false} RewriteShapes(t: Table, c: Change, j: InstanceId, before: Reservation, after: Reservation)
    requires Turns(t, c, j, before, after)
    ensures Shapes(Rewrite(t, c), j, after) == Shapes(t, j, before)
  {
    if t != [] {
      assert t[|t| - 1] in t && forall r | r in t[..|t| - 1] :: r in t;
      RewriteShapes(t[..|t| - 1], c, j, before, after);
      RewriteShapesSnoc(t, c, j, before, after);
    }
  }

  lemma {:induction false} NoShapes(t: Table, i: InstanceId, kind: Reservation)
    requires forall r | r in t :: !Matches(r, i, kind)
    ensures Shapes(t, i, kind) == []
  {
    if t != [] {
      assert t[|t| - 1] in t && forall r | r in t[..|t| - 1] :: r in t;
      NoShapes(t[..|t| - 1], i, kind);
    }
  }

  // ---------------------------------------------------------------- the table against the guests

  type Guests = map<InstanceId, Guest>

  /** The migration that holds this fence still owns reserved rows on its target. */
  predicate HoldsTarget(g: Guest, token: Token) {
    g.fence.Held? && g.fence.token == token && g.fence.job.Migrating? && BeforeSwitch(g.fence.job.phase)
  }

  predicate BeforeSwitch(phase: Phase) {
    match phase
    case Preparing => true
    case Importing => true
    case Imported => true
    case Verified => true
    case Switching => true
    case CleaningUp(late) => !late
    case TargetDeleted(late) => !late
    case Retained(ImportUnknown) => true
    case Retained(TargetKept) => true
    case Retained(CleanupUnknown(late)) => !late
    case Retained(ReservationsKept(late)) => !late
    case _ => false
  }

  /** The migration that holds this fence still owns the former rows on its source. */
  predicate HoldsSource(g: Guest, token: Token) {
    && g.fence.Held? && g.fence.token == token && g.fence.job.Migrating?
    && g.fence.job.phase in {Switched, SourceDeleted, Retained(SourceUnknown), Retained(SourceGone)}
  }

  predicate Placed(g: Guest, r: Row) {
    match r.reservation
    case Visible => r.agent == g.agent
    case ReservedBy(token) => HoldsTarget(g, token) && r.agent == g.fence.job.plan.target
    case SourceOf(token) => HoldsSource(g, token) && r.agent == g.fence.job.plan.source
  }

  /** While the target rows are reserved they mirror the visible rows, one by one. */
  ghost predicate Mirrored(g: Guest, i: InstanceId, t: Table) {
    HoldsTarget(g, if g.fence.Held? then g.fence.token else 0) ==>
      Shapes(t, i, ReservedBy(g.fence.token)) == Shapes(t, i, Visible)
  }

  ghost predicate RowOk(guests: Guests, r: Row) {
    r.inst in guests && Placed(guests[r.inst], r)
  }

  ghost predicate NatOk(guests: Guests, t: Table) {
    && Unique(t)
    && (forall r | r in t :: RowOk(guests, r))
    && (forall i | i in guests :: Mirrored(guests[i], i, t))
  }

  /** No two rows carry the same fence token. */
  ghost predicate TokensDiffer(guests: Guests) {
    forall i, j | i in guests && j in guests && i != j && guests[i].fence.Held? && guests[j].fence.Held? ::
      guests[i].fence.token != guests[j].fence.token
  }

  /** What an event of guest `i` does to the table; None if the statement fails and rolls back. */
  function NatEffect(t: Table, i: InstanceId, g: Guest, e: Event): Option<Table>
    requires Enabled(g, e)
  {
    match e
    case Reserve(p) => ReserveRows(t, p.target, g.fence.token, RowsOf(t, i, Visible))
    case Switch(ok) => Some(if ok then Rewrite(t, SwitchRows(i, g.fence.job.plan.source, g.fence.token)) else t)
    case ReleaseSource(ok) => Some(if ok then Rewrite(t, DropReservation(SourceOf(g.fence.token))) else t)
    case ReleaseTarget(ok) => Some(if ok then Rewrite(t, DropReservation(ReservedBy(g.fence.token))) else t)
    case _ => Some(t)
  }

  predicate TouchesNat(e: Event) {
    e.Reserve? || e == Switch(true) || e == ReleaseSource(true) || e == ReleaseTarget(true)
  }

  /** Events without an effect on the table keep every row where it belongs. */
  lemma PlacedStep(g: Guest, e: Event, r: Row)
    requires GuestOk(g) && Enabled(g, e) && !TouchesNat(e) && Placed(g, r)
    ensures Placed(Step(g, e), r)
  {
  }

  lemma HoldsTargetStep(g: Guest, e: Event, token: Token)
    requires GuestOk(g) && Enabled(g, e) && !TouchesNat(e) && HoldsTarget(Step(g, e), token)
    ensures HoldsTarget(g, token)
  {
  }

  lemma MirroredStep(g: Guest, e: Event, i: InstanceId, t: Table)
    requires GuestOk(g) && Enabled(g, e) && !TouchesNat(e) && Mirrored(g, i, t)
    ensures Mirrored(Step(g, e), i, t)
  {
    var g' := Step(g, e);
    if g'.fence.Held? && HoldsTarget(g', g'.fence.token) {
      HoldsTargetStep(g, e, g'.fence.token);
    }
  }

  lemma NatOkFrame(guests: Guests, t: Table, i: InstanceId, e: Event)
    requires NatOk(guests, t) && i in guests && GuestOk(guests[i]) && Enabled(guests[i], e) && !TouchesNat(e)
    ensures NatOk(guests[i := Step(guests[i], e)], t)
  {
    var guests' := guests[i := Step(guests[i], e)];
    forall r | r in t ensures RowOk(guests', r) {
      assert RowOk(guests, r);
      if r.inst == i {
        PlacedStep(guests[i], e, r);
      }
    }
    forall j | j in guests' ensures Mirrored(guests'[j], j, t) {
      assert Mirrored(guests[j], j, t);
      if j == i {
        MirroredStep(guests[i], e, i, t);
      }
    }
  }

  lemma ReservedRowsOk(guests: Guests, t: Table, i: InstanceId, p: Plan)
    requires NatOk(guests, t) && i in guests && Enabled(guests[i], Reserve(p))
    requires NatEffect(t, i, guests[i], Reserve(p)).Some?
    ensures var t' := NatEffect(t, i, guests[i], Reserve(p)).value;
            Unique(t') && forall r | r in t' :: RowOk(guests[i := Step(guests[i], Reserve(p))], r)
  {
    var t' := NatEffect(t, i, guests[i], Reserve(p)).value;
    ReservedRows(t, p.target, guests[i].fence.token, RowsOf(t, i, Visible));
    forall r | r in t' ensures RowOk(guests[i := Step(guests[i], Reserve(p))], r) {
      if r in t {
        assert RowOk(guests, r);
      }
    }
  }

  /** The new rows mirror the visible ones, since the token had no rows before. */
  lemma ReservedIsMirrored(guests: Guests, t: Table, i: InstanceId, p: Plan)
    requires NatOk(guests, t) && i in guests && Enabled(guests[i], Reserve(p))
    requires NatEffect(t, i, guests[i], Reserve(p)).Some?
    ensures Mirrored(Step(guests[i], Reserve(p)), i, NatEffect(t, i, guests[i], Reserve(p)).value)
  {
    var token, olds := guests[i].fence.token, RowsOf(t, i, Visible);
    forall r | r in t ensures !Matches(r, i, ReservedBy(token)) {
      assert RowOk(guests, r);
    }
    NoShapes(t, i, ReservedBy(token));
    ReservedShapes(t, p.target, token, olds, i, i, ReservedBy(token));
    ReservedShapes(t, p.target, token, olds, i, i, Visible);
    ShapesAreThoseOfTheRows(t, i, Visible);
  }

  lemma ReservationKeepsOthersMirrored(t: Table, i: InstanceId, g: Guest, p: Plan, h: Guest, j: InstanceId)
    requires Enabled(g, Reserve(p)) && NatEffect(t, i, g, Reserve(p)).Some? && j != i && Mirrored(h, j, t)
    ensures Mirrored(h, j, NatEffect(t, i, g, Reserve(p)).value)
  {
    var token, olds := g.fence.token, RowsOf(t, i, Visible);
    if h.fence.Held? {
      ReservedShapes(t, p.target, token, olds, i, j, Visible);
      ReservedShapes(t, p.target, token, olds, i, j, ReservedBy(h.fence.token));
    }
  }

  lemma NatOkReserve(guests: Guests, t: Table, i: InstanceId, p: Plan)
    requires NatOk(guests, t) && i in guests && Enabled(guests[i], Reserve(p))
    requires NatEffect(t, i, guests[i], Reserve(p)).Some?
    ensures NatOk(guests[i := Step(guests[i], Reserve(p))], NatEffect(t, i, guests[i], Reserve(p)).value)
  {
    ReservedRowsOk(guests, t, i, p);
    ReservedIsMirrored(guests, t, i, p);
    forall j | j in guests && j != i ensures Mirrored(guests[j], j, NatEffect(t, i, guests[i], Reserve(p)).value) {
      assert Mirrored(guests[j], j, t);
      ReservationKeepsOthersMirrored(t, i, guests[i], p, guests[j], j);
    }
  }

  /** A change that belongs to guest `i` leaves the rows of all others alone. */
  lemma OthersUntouched(guests: Guests, t: Table, i: InstanceId, c: Change)
    requires NatOk(guests, t) && TokensDiffer(guests) && i in guests && guests[i].fence.Held?
    requires var token := guests[i].fence.token;
             || (exists source :: c == SwitchRows(i, source, token))
             || c == DropReservation(SourceOf(token)) || c == DropReservation(ReservedBy(token))
    ensures forall r | r in t && r.inst != i :: Rewritten(c, r) == Some(r)
  {
    forall r | r in t && r.inst != i ensures Rewritten(c, r) == Some(r) {
      assert RowOk(guests, r);
    }
  }

  lemma OthersMirrored(guests: Guests, t: Table, i: InstanceId, c: Change, j: InstanceId)
    requires NatOk(guests, t) && j in guests && j != i
    requires forall r | r in t && r.inst != i :: Rewritten(c, r) == Some(r)
    requires forall r | r in t && Rewritten(c, r).Some? :: Rewritten(c, r).value.inst == r.inst
    ensures Mirrored(guests[j], j, Rewrite(t, c))
  {
    assert Mirrored(guests[j], j, t);
    RewriteShapes(t, c, j, Visible, Visible);
    if guests[j].fence.Held? {
      RewriteShapes(t, c, j, ReservedBy(guests[j].fence.token), ReservedBy(guests[j].fence.token));
    }
  }

  /**
   The ownership switch keeps the forwardings of the guest: what was reserved becomes visible, and
   it has the shapes that were visible before, in the same order.
   */
  lemma SwitchKeepsShapes(guests: Guests, t: Table, i: InstanceId)
    requires NatOk(guests, t) && TokensDiffer(guests) && i in guests && GuestOk(guests[i])
    requires Enabled(guests[i], Switch(true))
    ensures Shapes(NatEffect(t, i, guests[i], Switch(true)).value, i, Visible) == Shapes(t, i, Visible)
  {
    var g := guests[i];
    var c := SwitchRows(i, g.fence.job.plan.source, g.fence.token);
    assert Mirrored(g, i, t);
    forall r | r in t
      ensures Matches(r, i, ReservedBy(g.fence.token)) <==>
              (Rewritten(c, r).Some? && Matches(Rewritten(c, r).value, i, Visible))
    {
      assert RowOk(guests, r);
    }
    RewriteShapes(t, c, i, ReservedBy(g.fence.token), Visible);
  }

  /** The one bulk statement of each of these events. */
  function BulkChange(i: InstanceId, g: Guest, e: Event): Change
    requires Enabled(g, e) && TouchesNat(e) && !e.Reserve?
  {
    if e.Switch? then SwitchRows(i, g.fence.job.plan.source, g.fence.token)
    else if e.ReleaseSource? then DropReservation(SourceOf(g.fence.token))
    else DropReservation(ReservedBy(g.fence.token))
  }

  lemma PlacedRewrite(i: InstanceId, g: Guest, e: Event, r: Row)
    requires GuestOk(g) && Enabled(g, e) && TouchesNat(e) && !e.Reserve?
    requires r.inst == i && Placed(g, r) && Rewritten(BulkChange(i, g, e), r).Some?
    ensures Placed(Step(g, e), Rewritten(BulkChange(i, g, e), r).value)
    ensures Rewritten(BulkChange(i, g, e), r).value.inst == i
  {
  }

  lemma NatOkRewrite(guests: Guests, t: Table, i: InstanceId, e: Event)
    requires NatOk(guests, t) && TokensDiffer(guests) && i in guests && GuestOk(guests[i]) && Enabled(guests[i], e)
    requires TouchesNat(e) && !e.Reserve?
    ensures NatOk(guests[i := Step(guests[i], e)], Rewrite(t, BulkChange(i, guests[i], e)))
  {
    var g, c := guests[i], BulkChange(i, guests[i], e);
    var guests' := guests[i := Step(g, e)];
    RewriteUnique(t, c);
    RewriteRows(t, c);
    OthersUntouched(guests, t, i, c);
    forall x | x in Rewrite(t, c) ensures RowOk(guests', x) {
      var r :| r in t && Rewritten(c, r) == Some(x);
      assert RowOk(guests, r);
      if r.inst == i {
        PlacedRewrite(i, g, e, r);
      }
    }
    forall j | j in guests' ensures Mirrored(guests'[j], j, Rewrite(t, c)) {
      if j != i {
        OthersMirrored(guests, t, i, c, j);
      } else {
        NothingReserved(g, e);
      }
    }
  }

  /** The bulk statements do not disturb visible rows, except that the switch replaces those of its own guest. */
  lemma BulkKeepsShapes(guests: Guests, t: Table, j: InstanceId, e: Event, i: InstanceId)
    requires NatOk(guests, t) && TokensDiffer(guests) && j in guests && GuestOk(guests[j]) && Enabled(guests[j], e)
    requires TouchesNat(e) && !e.Reserve? && !(e.Switch? && i == j)
    ensures Shapes(Rewrite(t, BulkChange(j, guests[j], e)), i, Visible) == Shapes(t, i, Visible)
  {
    var c := BulkChange(j, guests[j], e);
    OthersUntouched(guests, t, j, c);
    forall r | r in t
      ensures Matches(r, i, Visible) <==> (Rewritten(c, r).Some? && Matches(Rewritten(c, r).value, i, Visible))
    {
      if r.inst != j {
        assert Rewritten(c, r) == Some(r);
      }
    }
    RewriteShapes(t, c, i, Visible, Visible);
  }

  /** No event of any guest changes the forwardings that the user of instance `i` sees. */
  lemma VisibleConserved(guests: Guests, t: Table, j: InstanceId, e: Event, i: InstanceId)
    requires NatOk(guests, t) && TokensDiffer(guests) && j in guests && GuestOk(guests[j]) && Enabled(guests[j], e)
    requires NatEffect(t, j, guests[j], e).Some?
    ensures Shapes(NatEffect(t, j, guests[j], e).value, i, Visible) == Shapes(t, i, Visible)
  {
    if e.Reserve? {
      ReservedShapes(t, e.plan.target, guests[j].fence.token, RowsOf(t, j, Visible), j, i, Visible);
    } else if e == Switch(true) && i == j {
      SwitchKeepsShapes(guests, t, i);
    } else if TouchesNat(e) {
      BulkKeepsShapes(guests, t, j, e, i);
    }
  }

  lemma NothingReserved(g: Guest, e: Event)
    requires Enabled(g, e) && TouchesNat(e) && !e.Reserve?
    ensures forall token :: !HoldsTarget(Step(g, e), token)
  {
  }

  /** Every event of a guest keeps the table in order. */
  lemma NatOkStep(guests: Guests, t: Table, i: InstanceId, e: Event)
    requires NatOk(guests, t) && TokensDiffer(guests) && i in guests && GuestOk(guests[i]) && Enabled(guests[i], e)
    requires NatEffect(t, i, guests[i], e).Some?
    ensures NatOk(guests[i := Step(guests[i], e)], NatEffect(t, i, guests[i], e).value)
  {
    if !TouchesNat(e) {
      NatOkFrame(guests, t, i, e);
    } else if e.Reserve? {
      NatOkReserve(guests, t, i, e.plan);
    } else {
      NatOkRewrite(guests, t, i, e);
    }
  }

  // ---------------------------------------------------------------- the former rows of a migration

  /** While the source may still run, its rows are kept, one for each forwarding that the user sees. */
  ghost predicate SourceMirrored(g: Guest, i: InstanceId, t: Table) {
    HoldsSource(g, if g.fence.Held? then g.fence.token else 0) ==>
      Shapes(t, i, SourceOf(g.fence.token)) == Shapes(t, i, Visible)
  }

  ghost predicate AllSourceMirrored(guests: Guests, t: Table) {
    forall i | i in guests :: SourceMirrored(guests[i], i, t)
  }

  /** The switch keeps the old rows under the token, in their order. */
  lemma SwitchKeepsTheSource(guests: Guests, t: Table, i: InstanceId)
    requires NatOk(guests, t) && TokensDiffer(guests) && i in guests && GuestOk(guests[i])
    requires Enabled(guests[i], Switch(true))
    ensures SourceMirrored(Step(guests[i], Switch(true)), i, NatEffect(t, i, guests[i], Switch(true)).value)
  {
    var g := guests[i];
    var c := SwitchRows(i, g.fence.job.plan.source, g.fence.token);
    SwitchKeepsShapes(guests, t, i);
    forall r | r in t
      ensures Matches(r, i, Visible) <==>
              (Rewritten(c, r).Some? && Matches(Rewritten(c, r).value, i, SourceOf(g.fence.token)))
    {
      assert RowOk(guests, r);
    }
    RewriteShapes(t, c, i, Visible, SourceOf(g.fence.token));
  }

  lemma HoldsSourceStep(g: Guest, e: Event, token: Token)
    requires GuestOk(g) && Enabled(g, e) && HoldsSource(Step(g, e), token) && e != Switch(true)
    ensures HoldsSource(g, token) && !TouchesNat(e)
  {
  }

  /** The statements of one guest leave the source rows of another alone. */
  lemma OthersKeepTheirSource(guests: Guests, t: Table, j: InstanceId, e: Event, i: InstanceId, token: Token)
    requires NatOk(guests, t) && TokensDiffer(guests) && j in guests && GuestOk(guests[j]) && Enabled(guests[j], e)
    requires NatEffect(t, j, guests[j], e).Some? && i != j
    ensures Shapes(NatEffect(t, j, guests[j], e).value, i, SourceOf(token)) == Shapes(t, i, SourceOf(token))
  {
    if e.Reserve? {
      ReservedShapes(t, e.plan.target, guests[j].fence.token, RowsOf(t, j, Visible), j, i, SourceOf(token));
    } else if TouchesNat(e) {
      var c := BulkChange(j, guests[j], e);
      OthersUntouched(guests, t, j, c);
      assert forall r | r in t && Rewritten(c, r).Some? :: Rewritten(c, r).value.inst == r.inst;
      UntouchedShapes(t, c, j, i, SourceOf(token));
    }
  }

  lemma UntouchedShapes(t: Table, c: Change, j: InstanceId, i: InstanceId, kind: Reservation)
    requires i != j && forall r | r in t && r.inst != j :: Rewritten(c, r) == Some(r)
    requires forall r | r in t && Rewritten(c, r).Some? :: Rewritten(c, r).value.inst == r.inst
    ensures Shapes(Rewrite(t, c), i, kind) == Shapes(t, i, kind)
  {
    RewriteShapes(t, c, i, kind, kind);
  }

  lemma AllSourceMirroredStep(guests: Guests, t: Table, j: InstanceId, e: Event)
    requires NatOk(guests, t) && TokensDiffer(guests) && j in guests && GuestOk(guests[j]) && Enabled(guests[j], e)
    requires NatEffect(t, j, guests[j], e).Some? && AllSourceMirrored(guests, t)
    ensures AllSourceMirrored(guests[j := Step(guests[j], e)], NatEffect(t, j, guests[j], e).value)
  {
    var t' := NatEffect(t, j, guests[j], e).value;
    forall i | i in guests && i != j ensures SourceMirrored(guests[i], i, t') {
      assert SourceMirrored(guests[i], i, t);
      if guests[i].fence.Held? {
        VisibleConserved(guests, t, j, e, i);
        OthersKeepTheirSource(guests, t, j, e, i, guests[i].fence.token);
      }
    }
    OwnSourceMirrored(guests, t, j, e);
  }

  lemma OwnSourceMirrored(guests: Guests, t: Table, i: InstanceId, e: Event)
    requires NatOk(guests, t) && TokensDiffer(guests) && i in guests && GuestOk(guests[i]) && Enabled(guests[i], e)
    requires NatEffect(t, i, guests[i], e).Some? && SourceMirrored(guests[i], i, t)
    ensures SourceMirrored(Step(guests[i], e), i, NatEffect(t, i, guests[i], e).value)
  {
    var g' := Step(guests[i], e);
    if e == Switch(true) {
      SwitchKeepsTheSource(guests, t, i);
    } else if g'.fence.Held? && HoldsSource(g', g'.fence.token) {
      HoldsSourceStep(guests[i], e, g'.fence.token);
    }
  }
}
