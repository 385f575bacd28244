/**
 What the stored groups, the revision columns and the firewall on the agent owe to the requests of the user:
 in each of them the last writer has the last word, and an acknowledged firewall says what the groups say.
 */
module FirewallHistory {
  import opened Common
  import opened FirewallMerge
  import opened FirewallSync

  // ---------------------------------------------------------------- the last word

  /** What this event writes to the row of a group; None for a row that goes. */
  function WritesRow(e: Event, g: GroupId): Option<Option<Row>> {
    match e
    case CreateGroup(h, row) => if h == g then Some(Some(row)) else None
    case UpdateGroup(h, row) => if h == g then Some(Some(row)) else None
    case DeleteGroup(h) => if h == g then Some(None) else None
    case _ => None
  }

  function WritesRules(e: Event, g: GroupId): Option<Option<seq<Rule>>> {
    match e
    case CreateGroup(h, _) => if h == g then Some(Some([])) else None
    case ReplaceRules(h, rules) => if h == g then Some(Some(rules)) else None
    case DeleteGroup(h) => if h == g then Some(None) else None
    case _ => None
  }

  function WritesBindings(e: Event): Option<seq<GroupId>> {
    if e.Bind? then Some(e.ids) else None
  }

  function LastRow(es: seq<Event>, g: GroupId): Option<Option<Row>> {
    if es == [] then None
    else if LastRow(es[1..], g).Some? then LastRow(es[1..], g) else WritesRow(es[0], g)
  }

  function LastRules(es: seq<Event>, g: GroupId): Option<Option<seq<Rule>>> {
    if es == [] then None
    else if LastRules(es[1..], g).Some? then LastRules(es[1..], g) else WritesRules(es[0], g)
  }

  function LastBindings(es: seq<Event>): Option<seq<GroupId>> {
    if es == [] then None
    else if LastBindings(es[1..]).Some? then LastBindings(es[1..]) else WritesBindings(es[0])
  }

  lemma RowIsStored(s: State, e: Event, g: GroupId)
    requires Enabled(s, e)
    ensures Find(Step(s, e).rows, g) == GetOr(WritesRow(e, g), Find(s.rows, g))
  {
  }

  lemma RulesAreStored(s: State, e: Event, g: GroupId)
    requires Enabled(s, e)
    ensures Find(Step(s, e).rules, g) == GetOr(WritesRules(e, g), Find(s.rules, g))
  {
  }

  lemma BindingsAreStored(s: State, e: Event)
    requires Enabled(s, e)
    ensures Step(s, e).bound == GetOr(WritesBindings(e), s.bound)
  {
  }

  /** Whatever else happens, the tables hold what was last written to them. */
  lemma {:induction false} LastWriteIsStored(s: State, es: seq<Event>, g: GroupId)
    requires Run(s, es)
    ensures Find(End(s, es).rows, g) == GetOr(LastRow(es, g), Find(s.rows, g))
    ensures Find(End(s, es).rules, g) == GetOr(LastRules(es, g), Find(s.rules, g))
    ensures End(s, es).bound == GetOr(LastBindings(es), s.bound)
    decreases es
  {
    if es != [] {
      RowIsStored(s, es[0], g);
      RulesAreStored(s, es[0], g);
      BindingsAreStored(s, es[0]);
      LastWriteIsStored(Step(s, es[0]), es[1..], g);
    }
  }

  // ---------------------------------------------------------------- the revision columns

  /** An edit that concerns the firewall of this instance. */
  predicate Concerns(s: State, e: Event) {
    e.Bind? || (e.UpdateGroup? && e.group in s.bound) || (e.ReplaceRules? && e.group in s.bound)
  }

  /** What this event says about the instance: something is to be done, or all is done. */
  function Says(s: State, e: Event): Option<bool>
    requires Enabled(s, e)
  {
    if Concerns(s, e) || e == SyncFailed(s.revision) then Some(true)
    else if e.Acknowledge? && s.pc.rev == s.revision then Some(false)
    else None
  }

  function LastSaid(s: State, es: seq<Event>): Option<bool>
    requires Run(s, es)
    decreases es
  {
    if es == [] then None
    else
      var last := LastSaid(Step(s, es[0]), es[1..]);
      if last.Some? then last else Says(s, es[0])
  }

  function Edits(s: State, es: seq<Event>): nat
    requires Run(s, es)
    decreases es
  {
    if es == [] then 0 else (if Concerns(s, es[0]) then 1 else 0) + Edits(Step(s, es[0]), es[1..])
  }

  /** Pending says what was said last, and the revision counts the edits. */
  lemma {:induction false} PendingIsTheLastWord(s: State, es: seq<Event>)
    requires Run(s, es)
    ensures End(s, es).pending == GetOr(LastSaid(s, es), s.pending)
    ensures End(s, es).revision == s.revision + Edits(s, es)
    decreases es
  {
    if es != [] {
      PendingIsTheLastWord(Step(s, es[0]), es[1..]);
    }
  }

  /** Only an operation that was begun to acknowledge does so. */
  function BegunToAcknowledge(es: seq<Event>): Option<bool> {
    if es == [] then None
    else if BegunToAcknowledge(es[1..]).Some? then BegunToAcknowledge(es[1..])
    else if es[0].Begin? then Some(es[0].acknowledges) else None
  }

  lemma {:induction false} CarryingNeverAcknowledges(s: State, es: seq<Event>)
    requires Run(s, es)
    ensures End(s, es).acknowledges == GetOr(BegunToAcknowledge(es), s.acknowledges)
    ensures GetOr(BegunToAcknowledge(es), s.acknowledges) == false ==> !Enabled(End(s, es), Acknowledge)
    decreases es
  {
    if es != [] {
      CarryingNeverAcknowledges(Step(s, es[0]), es[1..]);
    }
  }

  // ---------------------------------------------------------------- the agent

  /** The firewall that this event puts on the agent. */
  function Puts(s: State, e: Event): Option<View>
    requires Enabled(s, e)
  {
    match e
    case Deliver(outcome) => if outcome.Refused? then None else Some(s.pc.view)
    case LateApply(view) => Some(view)
    case _ => None
  }

  function LastPut(s: State, es: seq<Event>): Option<View>
    requires Run(s, es)
    decreases es
  {
    if es == [] then None
    else
      var last := LastPut(Step(s, es[0]), es[1..]);
      if last.Some? then last else Puts(s, es[0])
  }

  lemma {:induction false} HeldIsTheLastPut(s: State, es: seq<Event>)
    requires Run(s, es)
    ensures End(s, es).held == GetOr(LastPut(s, es), s.held)
    decreases es
  {
    if es != [] {
      HeldIsTheLastPut(Step(s, es[0]), es[1..]);
    }
  }

  // ---------------------------------------------------------------- what a view says

  function RulesOf(rules: map<GroupId, seq<Rule>>, g: GroupId): seq<Rule> {
    if g in rules then rules[g] else []
  }

  /** A view has one group for each binding, in order, with the policies and rules of that group. */
  lemma {:induction false} ComposeEntry(ids: seq<GroupId>, rows: map<GroupId, Row>, rules: map<GroupId, seq<Rule>>,
                                        k: nat)
    requires k < |ids| && forall g | g in ids :: g in rows
    ensures var view := Compose(ids, rows, rules);
            && |view| == |ids|
            && view[k].id == ids[k] && view[k].rules == RulesOf(rules, ids[k])
            && view[k].ingressPolicy == rows[ids[k]].ingress && view[k].egressPolicy == rows[ids[k]].egress
    decreases ids
  {
    assert ids[0] in ids && forall g | g in ids[1..] :: g in ids;
    if |ids| == 1 {
      assert ids[1..] == [];
    } else {
      ComposeEntry(ids[1..], rows, rules, if k > 0 then k - 1 else 0);
    }
  }

  /** Whatever is loaded, groups that are gone are left out and no other. */
  lemma {:induction false} ComposeMembers(ids: seq<GroupId>, rows: map<GroupId, Row>, rules: map<GroupId, seq<Rule>>,
                                          h: Group)
    ensures h in Compose(ids, rows, rules) <==>
            && h.id in ids && h.id in rows && h.rules == RulesOf(rules, h.id)
            && h.ingressPolicy == rows[h.id].ingress && h.egressPolicy == rows[h.id].egress
    decreases ids
  {
    if ids != [] {
      ComposeMembers(ids[1..], rows, rules, h);
      assert ids == [ids[0]] + ids[1..];
    }
  }

  /** Some bound group does not accept. */
  predicate Refuses(s: State, inbound: bool) {
    exists g | g in s.bound :: g in s.rows && (if inbound then s.rows[g].ingress else s.rows[g].egress) != "accept"
  }

  predicate HasRule(s: State, x: Sourced) {
    exists g | g in s.bound :: x.rank == 1 + g && x.rule in RulesOf(s.rules, g)
  }

  lemma StoredEntry(s: State, k: nat)
    requires (forall g | g in s.bound :: g in s.rows) && k < |s.bound|
    ensures |Stored(s)| == |s.bound|
    ensures var g := s.bound[k];
            Stored(s)[k] == Group(g, s.rows[g].ingress, s.rows[g].egress, RulesOf(s.rules, g))
  {
    ComposeEntry(s.bound, s.rows, s.rules, k);
  }

  lemma StoredBlocks(s: State, inbound: bool)
    requires forall g | g in s.bound :: g in s.rows
    ensures Blocks(Stored(s), inbound) <==> Refuses(s, inbound)
  {
    if Blocks(Stored(s), inbound) {
      var h :| h in Stored(s) && BlocksOne(h, inbound);
      var k :| 0 <= k < |Stored(s)| && Stored(s)[k] == h;
      StoredLength(s);
      StoredEntry(s, k);
      assert s.bound[k] in s.bound;
    }
    if Refuses(s, inbound) {
      var g :| g in s.bound && (if inbound then s.rows[g].ingress else s.rows[g].egress) != "accept";
      var k :| 0 <= k < |s.bound| && s.bound[k] == g;
      StoredEntry(s, k);
      assert BlocksOne(Stored(s)[k], inbound) && Stored(s)[k] in Stored(s);
    }
  }

  lemma StoredLength(s: State)
    requires forall g | g in s.bound :: g in s.rows
    ensures |Stored(s)| == |s.bound|
  {
    if s.bound != [] {
      StoredEntry(s, 0);
    }
  }

  lemma StoredRules(s: State, x: Sourced)
    requires forall g | g in s.bound :: g in s.rows
    ensures FromGroup(Stored(s), x) <==> HasRule(s, x)
  {
    if FromGroup(Stored(s), x) {
      var h :| h in Stored(s) && Contributes(h, x);
      var k :| 0 <= k < |Stored(s)| && Stored(s)[k] == h;
      StoredLength(s);
      StoredEntry(s, k);
      assert s.bound[k] in s.bound;
    }
    if HasRule(s, x) {
      var g :| g in s.bound && x.rank == 1 + g && x.rule in RulesOf(s.rules, g);
      var k :| 0 <= k < |s.bound| && s.bound[k] == g;
      StoredEntry(s, k);
      assert Contributes(Stored(s)[k], x) && Stored(s)[k] in Stored(s);
    }
  }

  /** The firewall of these local rules and of what is stored, in the words of the user. */
  ghost predicate Faithful(s: State, local: seq<Rule>, xs: seq<Sourced>, p: Option<Policy>) {
    && (forall x :: x in xs <==> x.rule.enabled && if x.rank == 0 then x.rule in local else HasRule(s, x))
    && (p.None? <==> s.bound == [])
    && (p.Some? ==> (p.value.ingress == Drop <==> Refuses(s, true)) && (p.value.egress == Drop <==> Refuses(s, false)))
  }

  lemma StoredIsFaithful(s: State, local: seq<Rule>, xs: seq<Sourced>, p: Option<Policy>)
    requires forall g | g in s.bound :: g in s.rows
    requires IsMerge(local, Stored(s), xs) && IsPolicy(Stored(s), p)
    ensures Faithful(s, local, xs, p)
  {
    StoredLength(s);
    StoredBlocks(s, true);
    StoredBlocks(s, false);
    forall x ensures x in xs <==> x.rule.enabled && if x.rank == 0 then x.rule in local else HasRule(s, x) {
      StoredRules(s, x);
    }
  }

  /**
   After any run: what an effective acknowledgement is about lets in exactly what the stored groups let in, drops
   what one of them drops, and has the enabled rules of the instance and of its groups, and no others.
   */
  lemma AcknowledgedFirewallIsFaithful(s0: State, es: seq<Event>, local: seq<Rule>, xs: seq<Sourced>,
                                       p: Option<Policy>)
    requires Init(s0) && Run(s0, es) && AboutToAcknowledge(End(s0, es))
    requires IsMerge(local, End(s0, es).pc.view, xs) && IsPolicy(End(s0, es).pc.view, p)
    ensures Faithful(End(s0, es), local, xs, p)
  {
    InvRun(s0, es);
    StoredIsFaithful(End(s0, es), local, xs, p);
  }

  /** And so does the agent, whenever the instance is not pending and late requests were harmless. */
  lemma EnforcedFirewallIsFaithful(s0: State, es: seq<Event>, local: seq<Rule>, xs: seq<Sourced>, p: Option<Policy>)
    requires Init(s0) && Run(s0, es) && HarmlessRun(s0, es) && !End(s0, es).pending
    requires IsMerge(local, End(s0, es).held, xs) && IsPolicy(End(s0, es).held, p)
    ensures Faithful(End(s0, es), local, xs, p)
  {
    HarmlessRunsAgree(s0, es);
    InvRun(s0, es);
    StoredIsFaithful(End(s0, es), local, xs, p);
  }
}
