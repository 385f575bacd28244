/**
 Versioned agreement between the stored security groups and the firewall of one instance on its agent.

 Groups are edited at any time, without the lifecycle fence; every edit of a bound group bumps the
 revision of the instance and marks it pending in the same transaction. A fenced operation loads the
 instance row first and the bindings, groups and rules after it, each with a statement of its own,
 sends what it loaded, and acknowledges the revision by compare-and-set.
 */
module FirewallSync {
  import opened Common
  import opened FirewallMerge

  type GroupId = nat

  datatype Row = Row(ingress: string, egress: string)

  /** What is sent: the bound groups with their rules. The firewall is a function of it and the local rules. */
  type View = seq<Group>

  /** How far the operation holding the fence has come. */
  datatype Pc =
    | Idle  // the fence is free
    | Begun
    | HaveRow(rev: nat)
    | HaveBound(rev: nat, ids: seq<GroupId>)
    | HaveRows(rev: nat, ids: seq<GroupId>, rows: map<GroupId, Row>)
    | HaveRules(rev: nat, view: View)
    | Sent(rev: nat, view: View, ok: bool)

  datatype State = State(
    revision: nat, applied: nat, pending: bool,
    bound: seq<GroupId>,
    rows: map<GroupId, Row>,
    rules: map<GroupId, seq<Rule>>,
    pc: Pc,
    acknowledges: bool,  // false for operations that only carry the firewall along: power on, import
    held: View,        // what the agent enforces
    stray: set<View>)  // requests that failed and may still be applied

  datatype Event =
    | CreateGroup(group: GroupId, row: Row)
    | UpdateGroup(group: GroupId, row: Row)
    | ReplaceRules(group: GroupId, rules: seq<Rule>)
    | DeleteGroup(group: GroupId)
    | Begin(acknowledges: bool)
    | Bind(ids: seq<GroupId>)
    | ReadRow | ReadBindings | ReadGroups | ReadRules
    | Deliver(outcome: Outcome)
    | Acknowledge
    | SyncFailed(rev: nat)  // also from a caller that did not get the fence
    | Release
    | LateApply(view: View)

  function Compose(ids: seq<GroupId>, rows: map<GroupId, Row>, rules: map<GroupId, seq<Rule>>): View {
    if ids == [] then []
    else
      var g, rest := ids[0], Compose(ids[1..], rows, rules);
      if g in rows then
        [Group(g, rows[g].ingress, rows[g].egress, if g in rules then rules[g] else [])] + rest
      else rest
  }

  function Stored(s: State): View {
    Compose(s.bound, s.rows, s.rules)
  }

  predicate Enabled(s: State, e: Event) {
    match e
    case CreateGroup(g, _) => g !in s.rows && g !in s.bound
    case UpdateGroup(g, _) => g in s.rows
    case ReplaceRules(g, _) => g in s.rows
    case DeleteGroup(g) => g in s.rows && g !in s.bound
    case Begin(_) => s.pc.Idle?
    case Bind(ids) => s.pc.Begun? && forall g | g in ids :: g in s.rows
    case ReadRow => s.pc.Begun?
    case ReadBindings => s.pc.HaveRow?
    case ReadGroups => s.pc.HaveBound?
    case ReadRules => s.pc.HaveRows?
    case Deliver(_) => s.pc.HaveRules?
    case Acknowledge => s.pc.Sent? && s.pc.ok && s.acknowledges
    case SyncFailed(_) => true
    case Release => !s.pc.Idle?
    case LateApply(v) => v in s.stray
  }

  function Bumped(s: State): State {
    s.(revision := s.revision + 1, pending := true)
  }

  function BumpedIfBound(s: State, g: GroupId): State {
    if g in s.bound then Bumped(s) else s
  }

  function Step(s: State, e: Event): State
    requires Enabled(s, e)
  {
    match e
    case CreateGroup(g, row) => s.(rows := s.rows[g := row], rules := s.rules[g := []])
    case UpdateGroup(g, row) => BumpedIfBound(s, g).(rows := s.rows[g := row])
    case ReplaceRules(g, rules) => BumpedIfBound(s, g).(rules := s.rules[g := rules])
    case DeleteGroup(g) => s.(rows := s.rows - {g}, rules := s.rules - {g})
    case Begin(acknowledges) => s.(pc := Begun, acknowledges := acknowledges)
    case Bind(ids) => Bumped(s).(bound := ids)
    case ReadRow => s.(pc := HaveRow(s.revision))
    case ReadBindings => s.(pc := HaveBound(s.pc.rev, s.bound))
    case ReadGroups => s.(pc := HaveRows(s.pc.rev, s.pc.ids, s.rows))
    case ReadRules => s.(pc := HaveRules(s.pc.rev, Compose(s.pc.ids, s.pc.rows, s.rules)))
    case Deliver(outcome) =>
      var view := s.pc.view;
      s.(
        pc := Sent(s.pc.rev, view, outcome.Confirmed?),
        held := if outcome.Applied() then view else s.held,
        stray := if outcome.Refused? then s.stray + {view} else s.stray)
    case Acknowledge =>
      if s.revision == s.pc.rev then s.(pending := false, applied := s.revision) else s
    case SyncFailed(rev) => if s.revision == rev then s.(pending := true) else s
    case Release => s.(pc := Idle)
    case LateApply(v) => s.(held := v)
  }

  /** A new instance: bound groups are pending from the start, without any there is nothing to apply. */
  predicate Init(s: State) {
    && s.pc.Idle? && s.stray == {} && s.applied == 0
    && (forall g | g in s.bound :: g in s.rows)
    && s.pending == (s.bound != [])
    && (s.bound == [] ==> s.revision == 0 && s.held == [])
  }

  predicate Run(s: State, es: seq<Event>)
    decreases es
  {
    es == [] || (Enabled(s, es[0]) && Run(Step(s, es[0]), es[1..]))
  }

  function End(s: State, es: seq<Event>): State
    requires Run(s, es)
    decreases es
  {
    if es == [] then s else End(Step(s, es[0]), es[1..])
  }

  // ---------------------------------------------------------------- the loaded view belongs to the revision

  predicate Agree<T(==)>(ids: seq<GroupId>, a: map<GroupId, T>, b: map<GroupId, T>) {
    forall g | g in ids :: (g in a <==> g in b) && (g in a ==> a[g] == b[g])
  }

  lemma {:induction false} ComposeAgrees(ids: seq<GroupId>, rows: map<GroupId, Row>, rows': map<GroupId, Row>,
                                         rules: map<GroupId, seq<Rule>>, rules': map<GroupId, seq<Rule>>)
    requires Agree(ids, rows, rows') && Agree(ids, rules, rules')
    ensures Compose(ids, rows, rules) == Compose(ids, rows', rules')
  {
    if ids != [] {
      assert ids[0] in ids;
      assert forall g | g in ids[1..] :: g in ids;
      ComposeAgrees(ids[1..], rows, rows', rules, rules');
    }
  }

  predicate Loaded(pc: Pc) {
    !pc.Idle? && !pc.Begun?
  }

  /** What has been loaded is what is stored, unless an edit has bumped the revision since. */
  ghost predicate LoadedOk(s: State) {
    var pc := s.pc;
    && (Loaded(pc) ==> pc.rev <= s.revision && (pc.rev < s.revision ==> s.pending))
    && (Loaded(pc) && pc.rev == s.revision ==>
          match pc
          case HaveRow(_) => true
          case HaveBound(_, ids) => ids == s.bound
          case HaveRows(_, ids, rows) => ids == s.bound && Agree(ids, rows, s.rows)
          case HaveRules(_, view) => view == Stored(s)
          case Sent(_, view, _) => view == Stored(s))
  }

  ghost predicate Inv(s: State) {
    && (forall g | g in s.bound :: g in s.rows)
    && (!s.pending ==> s.applied == s.revision)
    && LoadedOk(s)
  }

  /** An edit of a group that is not bound leaves what is stored for the instance alone. */
  lemma UnboundEdit(s: State, t: State)
    requires t.bound == s.bound && Agree(s.bound, s.rows, t.rows) && Agree(s.bound, s.rules, t.rules)
    ensures Stored(t) == Stored(s)
  {
    ComposeAgrees(s.bound, s.rows, t.rows, s.rules, t.rules);
  }

  lemma InvStep(s: State, e: Event)
    requires Inv(s) && Enabled(s, e)
    ensures Inv(Step(s, e))
  {
    var t := Step(s, e);
    match e
    case CreateGroup(_, _) => UnboundEdit(s, t);
    case DeleteGroup(_) => UnboundEdit(s, t);
    case UpdateGroup(g, _) => if g !in s.bound { UnboundEdit(s, t); }
    case ReplaceRules(g, _) => if g !in s.bound { UnboundEdit(s, t); }
    case ReadRules =>
      var pc := s.pc;
      if pc.rev == s.revision {
        ComposeAgrees(pc.ids, pc.rows, s.rows, s.rules, s.rules);
      }
    case _ =>
  }

  lemma {:induction false} InvRun(s: State, es: seq<Event>)
    requires Inv(s) && Run(s, es)
    ensures Inv(End(s, es))
    decreases es
  {
    if es != [] {
      InvStep(s, es[0]);
      InvRun(Step(s, es[0]), es[1..]);
    }
  }

  lemma SameGroupsReflexive(view: View)
    ensures SameGroups(view, view)
  {
    forall g | g in view ensures HasTwin(g, view) {
      assert SameGroup(g, g);
    }
  }

  /** After any run, an acknowledgement that takes effect is about what is stored at that moment. */
  lemma AcknowledgedIsStored(s0: State, es: seq<Event>)
    requires Init(s0) && Run(s0, es)
    requires Enabled(End(s0, es), Acknowledge) && End(s0, es).pc.rev == End(s0, es).revision
    ensures End(s0, es).pc.view == Stored(End(s0, es))
  {
    InvRun(s0, es);
  }

  /** With the same local rules, equal views make the same list of rules and the same policy. */
  lemma SameViewSameFirewall(local: seq<Rule>, view: View, xs: seq<Sourced>, ys: seq<Sourced>,
                             p: Option<Policy>, q: Option<Policy>)
    requires IsMerge(local, view, xs) && IsMerge(local, view, ys) && IsPolicy(view, p) && IsPolicy(view, q)
    ensures xs == ys && p == q
  {
    SameGroupsReflexive(view);
    MergeIgnoresLoadOrder(local, view, local, view, xs, ys);
    PolicyIgnoresLoadOrder(view, view, p, q);
  }

  /** Not pending always means that the current revision is the applied one. */
  lemma NotPendingIsApplied(s0: State, es: seq<Event>)
    requires Init(s0) && Run(s0, es) && !End(s0, es).pending
    ensures End(s0, es).applied == End(s0, es).revision
  {
    InvRun(s0, es);
  }

  // ---------------------------------------------------------------- what the agent enforces

  predicate NoLateRequest(es: seq<Event>) {
    forall e | e in es :: !e.LateApply?
  }

  /** The promise to the user. */
  predicate Agrees(s: State) {
    !s.pending ==> s.held == Stored(s)
  }

  /** The delivery was confirmed and an acknowledgement would take effect. */
  predicate AboutToAcknowledge(s: State) {
    Enabled(s, Acknowledge) && s.pc.rev == s.revision
  }

  ghost predicate Settled(s: State) {
    Agrees(s) && (AboutToAcknowledge(s) ==> s.held == Stored(s))
  }

  lemma SettledStep(s: State, e: Event)
    requires Inv(s) && Settled(s) && Enabled(s, e) && !e.LateApply?
    ensures Settled(Step(s, e))
  {
    var t := Step(s, e);
    match e
    case CreateGroup(_, _) => UnboundEdit(s, t);
    case DeleteGroup(_) => UnboundEdit(s, t);
    case UpdateGroup(g, _) => if g !in s.bound { UnboundEdit(s, t); }
    case ReplaceRules(g, _) => if g !in s.bound { UnboundEdit(s, t); }
    case _ =>
  }

  lemma {:induction false} SettledRun(s: State, es: seq<Event>)
    requires Inv(s) && Settled(s) && Run(s, es) && NoLateRequest(es)
    ensures Settled(End(s, es))
    decreases es
  {
    if es != [] {
      InvStep(s, es[0]);
      SettledStep(s, es[0]);
      assert forall e | e in es[1..] :: e in es;
      SettledRun(Step(s, es[0]), es[1..]);
    }
  }

  /** As long as no failed request is applied late, an instance that is not pending enforces what is stored. */
  lemma NotPendingIsEnforced(s0: State, es: seq<Event>)
    requires Init(s0) && Run(s0, es) && NoLateRequest(es)
    requires !End(s0, es).pending
    ensures End(s0, es).held == Stored(End(s0, es))
  {
    SettledRun(s0, es);
  }

  // ---------------------------------------------------------------- a late request defeats the revision

  /** The late request carries what is stored; or the instance is pending, and not about to be acknowledged. */
  predicate Harmless(s: State, v: View) {
    v == Stored(s) || (s.pending && !AboutToAcknowledge(s))
  }

  ghost predicate StaysAgreed(s: State) {
    forall es | Run(s, es) && NoLateRequest(es) :: Agrees(End(s, es))
  }

  lemma SettledStaysAgreed(s: State)
    requires Inv(s) && Settled(s)
    ensures StaysAgreed(s)
  {
    forall es | Run(s, es) && NoLateRequest(es) ensures Agrees(End(s, es)) {
      SettledRun(s, es);
    }
  }

  /** Without agreement, or right before an acknowledgement of something else, the promise does not last. */
  lemma UnsettledDisagrees(s: State)
    requires Inv(s) && !Settled(s)
    ensures !StaysAgreed(s)
  {
    if !Agrees(s) {
      assert Run(s, []) && End(s, []) == s;
    } else {
      var es := [Acknowledge];
      var t := Step(s, Acknowledge);
      assert es[1..] == [] && Run(t, es[1..]) && End(t, es[1..]) == t;
      assert Run(s, es) && End(s, es) == t;
      assert !Agrees(t);
    }
  }

  /**
   In any state that is settled, wherever its operation has come to: a late request leaves the promise
   intact in every continuation without further ones if and only if it is harmless at its moment.
   */
  lemma LateRequestIsHarmlessIff(s: State, v: View)
    requires Inv(s) && Settled(s) && Enabled(s, LateApply(v))
    ensures StaysAgreed(Step(s, LateApply(v))) <==> Harmless(s, v)
  {
    var t := Step(s, LateApply(v));
    InvStep(s, LateApply(v));
    assert Stored(t) == Stored(s) && AboutToAcknowledge(t) == AboutToAcknowledge(s);
    if Settled(t) {
      SettledStaysAgreed(t);
    } else {
      UnsettledDisagrees(t);
    }
  }

  /** Every late request of the run was harmless when it was applied. */
  predicate HarmlessRun(s: State, es: seq<Event>)
    requires Run(s, es)
    decreases es
  {
    es == [] || ((es[0].LateApply? ==> Harmless(s, es[0].view)) && HarmlessRun(Step(s, es[0]), es[1..]))
  }

  lemma HarmlessStep(s: State, v: View)
    requires Settled(s) && Enabled(s, LateApply(v)) && Harmless(s, v)
    ensures Settled(Step(s, LateApply(v)))
  {
    var t := Step(s, LateApply(v));
    assert Stored(t) == Stored(s) && AboutToAcknowledge(t) == AboutToAcknowledge(s);
  }

  lemma {:induction false} HarmlessRunSettles(s: State, es: seq<Event>)
    requires Inv(s) && Settled(s) && Run(s, es) && HarmlessRun(s, es)
    ensures Inv(End(s, es)) && Settled(End(s, es))
    decreases es
  {
    if es != [] {
      InvStep(s, es[0]);
      if es[0].LateApply? {
        HarmlessStep(s, es[0].view);
      } else {
        SettledStep(s, es[0]);
      }
      HarmlessRunSettles(Step(s, es[0]), es[1..]);
    }
  }

  /** So after every run whose late requests were all harmless, not pending means that what is stored is enforced. */
  lemma HarmlessRunsAgree(s0: State, es: seq<Event>)
    requires Init(s0) && Run(s0, es) && HarmlessRun(s0, es) && !End(s0, es).pending
    ensures End(s0, es).held == Stored(End(s0, es))
  {
    HarmlessRunSettles(s0, es);
  }

  const OPEN := Row("accept", "accept")
  const SHUT := Row("drop", "accept")

  /** One bound group whose policy is about to be edited. */
  function Start(): State {
    State(1, 0, true, [7], map[7 := OPEN], map[7 := []], Idle, true, [], {})
  }

  ghost predicate Reaches(s: State, t: State) {
    exists es :: Run(s, es) && End(s, es) == t
  }

  lemma ReachesFirst(s: State, e: Event, t: State)
    requires Enabled(s, e) && Reaches(Step(s, e), t)
    ensures Reaches(s, t)
  {
    var es :| Run(Step(s, e), es) && End(Step(s, e), es) == t;
    var all := [e] + es;
    assert all[0] == e && all[1..] == es;
    assert Run(s, all) && End(s, all) == t;
  }

  /** One fenced synchronisation up to the reply of the agent. */
  function Synced(s: State, outcome: Outcome): State {
    s.(pc := Sent(s.revision, Stored(s), outcome.Confirmed?), acknowledges := true,
       held := if outcome.Applied() then Stored(s) else s.held,
       stray := if outcome.Refused? then s.stray + {Stored(s)} else s.stray)
  }

  lemma SyncReaches(s: State, outcome: Outcome, t: State)
    requires s.pc.Idle? && Reaches(Synced(s, outcome), t)
    ensures Reaches(s, t)
  {
    var s1 := Step(s, Begin(true));
    var s2 := Step(s1, ReadRow);
    var s3 := Step(s2, ReadBindings);
    var s4 := Step(s3, ReadGroups);
    var s5 := Step(s4, ReadRules);
    ReachesFirst(s5, Deliver(outcome), t);
    ReachesFirst(s4, ReadRules, t);
    ReachesFirst(s3, ReadGroups, t);
    ReachesFirst(s2, ReadBindings, t);
    ReachesFirst(s1, ReadRow, t);
    ReachesFirst(s, Begin(true), t);
  }

  /** A successful synchronisation, and then an older request after all. */
  function Overtaken(s: State, v: View): State {
    Synced(s, Confirmed).(pending := false, applied := s.revision, held := v)
  }

  lemma OvertakenReaches(s: State, v: View, t: State)
    requires s.pc.Idle? && v in s.stray && Reaches(Overtaken(s, v), t)
    ensures Reaches(s, t)
  {
    var s1 := Synced(s, Confirmed);
    var s2 := Step(s1, Acknowledge);
    ReachesFirst(s2, LateApply(v), t);
    ReachesFirst(s1, Acknowledge, t);
    SyncReaches(s, Confirmed, t);
  }

  /**
   A request that fails without having been applied, an edit, a successful synchronisation, and then the
   first request after all: not pending, current revision applied, old policy enforced.
   */
  lemma LateRequestDefeatsTheRevision()
    ensures Init(Start())
    ensures exists es ::
              && Run(Start(), es)
              && var s := End(Start(), es);
                 !s.pending && s.applied == s.revision && s.held != Stored(s)
  {
    var s0 := Start();
    var s1 := Synced(s0, Refused);
    var first := Stored(s0);
    var s2 := Step(s1, Release);
    var s3 := Step(s2, UpdateGroup(7, SHUT));
    var s6 := Overtaken(s3, first);
    assert first[0].ingressPolicy[0] == 'a' && Stored(s6)[0].ingressPolicy[0] == 'd';
    assert Run(s6, []) && Reaches(s6, s6);
    OvertakenReaches(s3, first, s6);
    ReachesFirst(s2, UpdateGroup(7, SHUT), s6);
    ReachesFirst(s1, Release, s6);
    SyncReaches(s0, Refused, s6);
  }
}
