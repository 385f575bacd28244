/**
 The effective firewall of an instance: its own rules and those of its security groups, merged by
 loops and stable sorts into one list, and the combined policy.
 */
module FirewallMerge {
  import opened Common
  import StableSort

  datatype Match = Match(direction: string, action: string, protocol: string, portStart: int, portEnd: int,
      cidr: string, remark: string)

  datatype Rule = Rule(id: nat, priority: int, enabled: bool, spec: Match)

  datatype Group = Group(id: nat, ingressPolicy: string, egressPolicy: string, rules: seq<Rule>)

  datatype Verdict = Accept | Drop

  datatype Policy = Policy(ingress: Verdict, egress: Verdict)

  /** Only the word "accept" accepts. */
  predicate Accepts(policy: string) {
    policy == "accept"
  }

  /** A rule with its origin: 0 for a rule of the instance, 1 + id for a rule of that group. */
  datatype Sourced = Sourced(rank: nat, rule: Rule)

  function IdOfRule(r: Rule): int { r.id }
  function IdOfGroup(g: Group): int { g.id }
  function PriorityOf(r: Rule): int { r.priority }
  function SourcedPriority(s: Sourced): int { s.rule.priority }

  // ---------------------------------------------------------------- what the result has to be

  /** Primary keys are unique. */
  predicate DistinctRules(rs: seq<Rule>) {
    forall i, j | 0 <= i < j < |rs| :: rs[i].id != rs[j].id
  }

  predicate DistinctGroups(gs: seq<Group>) {
    && (forall i, j | 0 <= i < j < |gs| :: gs[i].id != gs[j].id)
    && (forall g | g in gs :: DistinctRules(g.rules))
  }

  /** x is an enabled rule of the instance or of one of its groups. */
  ghost predicate Effective(local: seq<Rule>, groups: seq<Group>, x: Sourced) {
    && x.rule.enabled
    && if x.rank == 0 then x.rule in local else FromGroup(groups, x)
  }

  predicate FromGroup(groups: seq<Group>, x: Sourced) {
    exists g | g in groups :: Contributes(g, x)
  }

  predicate Contributes(g: Group, x: Sourced) {
    1 + g.id == x.rank && x.rule in g.rules
  }

  /** By origin, then by rule id. */
  predicate Earlier(a: Sourced, b: Sourced) {
    a.rank < b.rank || (a.rank == b.rank && a.rule.id < b.rule.id)
  }

  /** By priority, local before group, by group id, by rule id. */
  predicate Precedes(a: Sourced, b: Sourced) {
    StableSort.Before(a, b, SourcedPriority, Earlier)
  }

  ghost predicate Ranked(xs: seq<Sourced>) {
    forall i, j | 0 <= i < j < |xs| :: Precedes(xs[i], xs[j])
  }

  ghost predicate IsMerge(local: seq<Rule>, groups: seq<Group>, xs: seq<Sourced>) {
    Ranked(xs) && forall x :: x in xs <==> Effective(local, groups, x)
  }

  lemma PrecedesIsStrict(a: Sourced, b: Sourced, c: Sourced)
    ensures !Precedes(a, a) && !(Precedes(a, b) && Precedes(b, a))
    ensures (Precedes(a, b) && Precedes(b, c) ==> Precedes(a, c))
  {
  }

  /** The order in full: priority, the instance before its groups, group id, rule id. */
  lemma PrecedesMeans(a: Sourced, b: Sourced)
    ensures Precedes(a, b) <==>
            || a.rule.priority < b.rule.priority
            || (a.rule.priority == b.rule.priority && a.rank < b.rank)
            || (a.rule.priority == b.rule.priority && a.rank == b.rank && a.rule.id < b.rule.id)
  {
  }

  /** A ranked list is determined by its members. */
  lemma {:induction false} RankedIsUnique(xs: seq<Sourced>, ys: seq<Sourced>)
    requires Ranked(xs) && Ranked(ys) && forall x :: x in xs <==> x in ys
    ensures xs == ys
  {
    assert ys != [] ==> ys[0] in xs;
    if xs != [] {
      assert xs[0] in ys && ys != [];
      assert ys[0] in xs;
      var i :| 0 <= i < |ys| && ys[i] == xs[0];
      var j :| 0 <= j < |xs| && xs[j] == ys[0];
      if i > 0 && j > 0 {
        assert Precedes(ys[0], ys[i]) && Precedes(xs[0], xs[j]);
        PrecedesIsStrict(xs[0], ys[0], xs[0]);
      }
      assert xs[0] == ys[0];
      TailMembers(xs, ys);
      RankedIsUnique(xs[1..], ys[1..]);
    }
  }

  lemma TailMembers(xs: seq<Sourced>, ys: seq<Sourced>)
    requires xs != [] && ys != [] && xs[0] == ys[0] && Ranked(xs) && Ranked(ys) && forall x :: x in xs <==> x in ys
    ensures Ranked(xs[1..]) && Ranked(ys[1..]) && forall x :: x in xs[1..] <==> x in ys[1..]
  {
    HeadIsOnce(xs);
    HeadIsOnce(ys);
  }

  lemma HeadIsOnce(xs: seq<Sourced>)
    requires xs != [] && Ranked(xs)
    ensures Ranked(xs[1..]) && forall x :: x in xs[1..] <==> x in xs && x != xs[0]
  {
    forall k | 0 < k < |xs| ensures xs[k] != xs[0] {
      assert Precedes(xs[0], xs[k]);
      PrecedesIsStrict(xs[0], xs[0], xs[0]);
    }
    assert forall k | 0 <= k < |xs| - 1 :: xs[1..][k] == xs[k + 1];
  }

  // ---------------------------------------------------------------- independence of the load order

  predicate SameRules(a: seq<Rule>, b: seq<Rule>) {
    (forall r | r in a :: r in b) && (forall r | r in b :: r in a)
  }

  predicate SameGroup(g: Group, h: Group) {
    g.id == h.id && g.ingressPolicy == h.ingressPolicy && g.egressPolicy == h.egressPolicy
        && SameRules(g.rules, h.rules)
  }

  ghost predicate SameGroups(a: seq<Group>, b: seq<Group>) {
    (forall g | g in a :: HasTwin(g, b)) && (forall h | h in b :: HasTwin(h, a))
  }

  predicate HasTwin(g: Group, gs: seq<Group>) {
    exists h | h in gs :: SameGroup(g, h)
  }

  /** Two loads of the same rows, in whatever order, have the same merge. */
  lemma MergeIgnoresLoadOrder(local: seq<Rule>, groups: seq<Group>, local': seq<Rule>, groups': seq<Group>,
                              xs: seq<Sourced>, xs': seq<Sourced>)
    requires SameRules(local, local') && SameGroups(groups, groups')
    requires IsMerge(local, groups, xs) && IsMerge(local', groups', xs')
    ensures xs == xs'
  {
    forall x ensures Effective(local, groups, x) <==> Effective(local', groups', x) {
      if Effective(local, groups, x) {
        EffectiveIgnoresLoadOrder(local, groups, local', groups', x);
      }
      if Effective(local', groups', x) {
        EffectiveIgnoresLoadOrder(local', groups', local, groups, x);
      }
    }
    RankedIsUnique(xs, xs');
  }

  lemma EffectiveIgnoresLoadOrder(local: seq<Rule>, groups: seq<Group>, local': seq<Rule>, groups': seq<Group>,
      x: Sourced)
    requires SameRules(local, local') && SameGroups(groups, groups') && Effective(local, groups, x)
    ensures Effective(local', groups', x)
  {
    if x.rank != 0 {
      var g :| g in groups && Contributes(g, x);
      assert HasTwin(g, groups');
      var h :| h in groups' && SameGroup(g, h);
      assert Contributes(h, x);
    }
  }

  // ---------------------------------------------------------------- what the code does

  function Tagged(rs: seq<Rule>, rank: nat): seq<Sourced> {
    if rs == [] then []
    else
      var last := rs[|rs| - 1];
      Tagged(rs[..|rs| - 1], rank) + if last.enabled then [Sourced(rank, last)] else []
  }

  function Untagged(xs: seq<Sourced>): seq<Rule> {
    seq(|xs|, k requires 0 <= k < |xs| => xs[k].rule)
  }

  /** The enabled rules of the sorted groups, group after group. */
  function GroupRules(gs: seq<Group>): seq<Sourced> {
    if gs == [] then []
    else
      var g := gs[|gs| - 1];
      GroupRules(gs[..|gs| - 1]) + Tagged(StableSort.Sort(g.rules, IdOfRule), 1 + g.id)
  }

  /** The list before the final sort. */
  function Unsorted(local: seq<Rule>, groups: seq<Group>): seq<Sourced> {
    Tagged(StableSort.Sort(local, IdOfRule), 0) + GroupRules(StableSort.Sort(groups, IdOfGroup))
  }

  predicate ById(rs: seq<Rule>) {
    forall i, j | 0 <= i < j < |rs| :: rs[i].id < rs[j].id
  }

  ghost predicate BySource(xs: seq<Sourced>) {
    forall i, j | 0 <= i < j < |xs| :: Earlier(xs[i], xs[j])
  }

  lemma SortedById(rs: seq<Rule>)
    requires DistinctRules(rs)
    ensures ById(StableSort.Sort(rs, IdOfRule))
    ensures forall r :: r in StableSort.Sort(rs, IdOfRule) <==> r in rs
  {
    var differ := (a: Rule, b: Rule) => a.id != b.id;
    assert StableSort.InOrder(rs, differ);
    StableSort.SortIsStable(rs, IdOfRule, differ);
    StableSort.SortMembers(rs, IdOfRule);
    var s := StableSort.Sort(rs, IdOfRule);
    forall i, j | 0 <= i < j < |s| ensures s[i].id < s[j].id {
      assert StableSort.Before(s[i], s[j], IdOfRule, differ);
    }
  }

  lemma GroupsSortedById(gs: seq<Group>)
    requires DistinctGroups(gs)
    ensures var s := StableSort.Sort(gs, IdOfGroup);
            GroupsById(s) && forall g :: g in s <==> g in gs
  {
    var differ := (a: Group, b: Group) => a.id != b.id;
    assert StableSort.InOrder(gs, differ);
    StableSort.SortIsStable(gs, IdOfGroup, differ);
    StableSort.SortMembers(gs, IdOfGroup);
    var s := StableSort.Sort(gs, IdOfGroup);
    forall i, j | 0 <= i < j < |s| ensures s[i].id < s[j].id {
      assert StableSort.Before(s[i], s[j], IdOfGroup, differ);
    }
  }

  lemma {:induction false} TaggedInOrder(rs: seq<Rule>, rank: nat)
    requires ById(rs)
    ensures BySource(Tagged(rs, rank))
    ensures forall x :: x in Tagged(rs, rank) <==> x.rank == rank && x.rule.enabled && x.rule in rs
  {
    if rs != [] {
      var init, last := rs[..|rs| - 1], rs[|rs| - 1];
      TaggedInOrder(init, rank);
      var t := Tagged(init, rank);
      assert forall x | x in t :: x.rule.id < last.id;
      assert rs == init + [last];
      if last.enabled {
        forall i, j | 0 <= i < j < |t| + 1 ensures Earlier((t + [Sourced(rank, last)])[i],
            (t + [Sourced(rank, last)])[j]) {
          if j == |t| {
            assert t[i] in t;
          }
        }
      }
    }
  }

  lemma BySourceAppend(a: seq<Sourced>, b: seq<Sourced>)
    requires BySource(a) && BySource(b) && forall x, y | x in a && y in b :: Earlier(x, y)
    ensures BySource(a + b)
  {
    var c := a + b;
    forall i, j | 0 <= i < j < |c| ensures Earlier(c[i], c[j]) {
      if i < |a| <= j {
        assert c[i] in a && c[j] in b;
      }
    }
  }

  lemma LaterGroup(gs: seq<Group>, g: Group, x: Sourced, y: Sourced)
    requires forall h | h in gs :: h.id < g.id
    requires FromGroup(gs, x) && y.rank == 1 + g.id
    ensures Earlier(x, y)
  {
  }

  predicate GroupsById(gs: seq<Group>) {
    forall i, j | 0 <= i < j < |gs| :: gs[i].id < gs[j].id
  }

  lemma GroupsByIdSnoc(gs: seq<Group>, g: Group)
    requires GroupsById(gs + [g])
    ensures GroupsById(gs) && forall h | h in gs :: h.id < g.id
  {
    var all := gs + [g];
    assert all[|gs|] == g;
    assert forall i | 0 <= i < |gs| :: all[i] == gs[i];
  }

  lemma FromGroupSnoc(gs: seq<Group>, g: Group, x: Sourced)
    ensures FromGroup(gs + [g], x) <==> FromGroup(gs, x) || Contributes(g, x)
  {
    if FromGroup(gs, x) {
      var h :| h in gs && Contributes(h, x);
      assert h in gs + [g];
    }
    if Contributes(g, x) {
      assert g in gs + [g];
    }
  }

  ghost predicate AreRulesOf(xs: seq<Sourced>, gs: seq<Group>) {
    forall x :: x in xs <==> x.rule.enabled && FromGroup(gs, x)
  }

  ghost predicate AreRulesOfOne(xs: seq<Sourced>, g: Group) {
    forall x :: x in xs <==> x.rule.enabled && Contributes(g, x)
  }

  lemma RulesOfOneMore(a: seq<Sourced>, b: seq<Sourced>, gs: seq<Group>, g: Group)
    requires AreRulesOf(a, gs) && AreRulesOfOne(b, g)
    ensures AreRulesOf(a + b, gs + [g])
  {
    forall x ensures x in a + b <==> x.rule.enabled && FromGroup(gs + [g], x) {
      FromGroupSnoc(gs, g, x);
    }
  }

  /** The rules of one more group are later than all those before. */
  lemma LaterRules(a: seq<Sourced>, b: seq<Sourced>, gs: seq<Group>, g: Group)
    requires AreRulesOf(a, gs) && AreRulesOfOne(b, g) && BySource(a) && BySource(b)
    requires forall h | h in gs :: h.id < g.id
    ensures BySource(a + b)
  {
    forall x, y | x in a && y in b ensures Earlier(x, y) {
      LaterGroup(gs, g, x, y);
    }
    BySourceAppend(a, b);
  }

  lemma RulesOfOneInOrder(g: Group)
    requires DistinctRules(g.rules)
    ensures var b := Tagged(StableSort.Sort(g.rules, IdOfRule), 1 + g.id); BySource(b) && AreRulesOfOne(b, g)
  {
    SortedById(g.rules);
    TaggedInOrder(StableSort.Sort(g.rules, IdOfRule), 1 + g.id);
  }

  ghost predicate InOrder(gs: seq<Group>) {
    BySource(GroupRules(gs)) && AreRulesOf(GroupRules(gs), gs)
  }

  lemma GroupRulesSnoc(gs: seq<Group>, g: Group)
    ensures GroupRules(gs + [g]) == GroupRules(gs) + Tagged(StableSort.Sort(g.rules, IdOfRule), 1 + g.id)
  {
    assert (gs + [g])[..|gs|] == gs;
  }

  lemma InOrderSnoc(gs: seq<Group>, g: Group)
    requires InOrder(gs) && DistinctRules(g.rules) && forall h | h in gs :: h.id < g.id
    ensures InOrder(gs + [g])
  {
    var b := Tagged(StableSort.Sort(g.rules, IdOfRule), 1 + g.id);
    RulesOfOneInOrder(g);
    LaterRules(GroupRules(gs), b, gs, g);
    RulesOfOneMore(GroupRules(gs), b, gs, g);
    GroupRulesSnoc(gs, g);
  }

  lemma {:induction false} GroupRulesInOrder(gs: seq<Group>)
    requires GroupsById(gs) && forall g | g in gs :: DistinctRules(g.rules)
    ensures InOrder(gs)
  {
    if gs == [] {
      assert GroupRules(gs) == [];
    } else {
      var init, g := gs[..|gs| - 1], gs[|gs| - 1];
      assert gs == init + [g];
      GroupsByIdSnoc(init, g);
      GroupRulesInOrder(init);
      InOrderSnoc(init, g);
    }
  }

  /** Three sorts by id and one stable sort by priority give the merge. */
  lemma FourSortsMerge(local: seq<Rule>, groups: seq<Group>)
    requires DistinctRules(local) && DistinctGroups(groups)
    ensures IsMerge(local, groups, StableSort.Sort(Unsorted(local, groups), SourcedPriority))
  {
    SortedById(local);
    GroupsSortedById(groups);
    var rs, gs := StableSort.Sort(local, IdOfRule), StableSort.Sort(groups, IdOfGroup);
    TaggedInOrder(rs, 0);
    GroupRulesInOrder(gs);
    BySourceAppend(Tagged(rs, 0), GroupRules(gs));
    var u := Unsorted(local, groups);
    assert StableSort.InOrder(u, Earlier);
    StableSort.SortIsStable(u, SourcedPriority, Earlier);
    StableSort.SortMembers(u, SourcedPriority);
    var xs := StableSort.Sort(u, SourcedPriority);
    forall i, j | 0 <= i < j < |xs| ensures Precedes(xs[i], xs[j]) {
      assert StableSort.Before(xs[i], xs[j], SourcedPriority, Earlier);
    }
    forall x ensures x in xs <==> Effective(local, groups, x) {
      if x.rank != 0 {
        SameMembersContribute(gs, groups, x);
      } else {
        assert !FromGroup(gs, x);
      }
    }
  }

  lemma SameMembersContribute(a: seq<Group>, b: seq<Group>, x: Sourced)
    requires forall g :: g in a <==> g in b
    ensures FromGroup(a, x) <==> FromGroup(b, x)
  {
  }

  // ---------------------------------------------------------------- tags do not matter to the code

  lemma {:induction false} InsertUntagged(xs: seq<Sourced>, x: Sourced)
    ensures Untagged(StableSort.Insert(xs, x, SourcedPriority)) == StableSort.Insert(Untagged(xs), x.rule, PriorityOf)
  {
    if xs != [] && SourcedPriority(xs[|xs| - 1]) > SourcedPriority(x) {
      InsertUntagged(xs[..|xs| - 1], x);
      assert Untagged(xs)[..|xs| - 1] == Untagged(xs[..|xs| - 1]);
    }
  }

  lemma {:induction false} SortUntagged(xs: seq<Sourced>)
    ensures Untagged(StableSort.Sort(xs, SourcedPriority)) == StableSort.Sort(Untagged(xs), PriorityOf)
  {
    if xs != [] {
      SortUntagged(xs[..|xs| - 1]);
      assert Untagged(xs)[..|xs| - 1] == Untagged(xs[..|xs| - 1]);
      InsertUntagged(StableSort.Sort(xs[..|xs| - 1], SourcedPriority), xs[|xs| - 1]);
    }
  }

  predicate Blocks(groups: seq<Group>, inbound: bool) {
    exists g | g in groups :: BlocksOne(g, inbound)
  }

  predicate BlocksOne(g: Group, inbound: bool) {
    !Accepts(if inbound then g.ingressPolicy else g.egressPolicy)
  }

  lemma BlocksIgnoresLoadOrder(a: seq<Group>, b: seq<Group>, inbound: bool)
    requires SameGroups(a, b) && Blocks(a, inbound)
    ensures Blocks(b, inbound)
  {
    var g :| g in a && BlocksOne(g, inbound);
    assert HasTwin(g, b);
    var h :| h in b && SameGroup(g, h);
    assert BlocksOne(h, inbound);
  }

  lemma SwapGroups(a: seq<Group>, b: seq<Group>)
    requires SameGroups(a, b)
    ensures SameGroups(b, a) && (a == [] <==> b == [])
  {
    assert a != [] ==> HasTwin(a[0], b);
    assert b != [] ==> HasTwin(b[0], a);
  }

  /** A policy drops as soon as one group does not accept; without groups there is none. */
  ghost predicate IsPolicy(groups: seq<Group>, p: Option<Policy>) {
    match p
    case None => groups == []
    case Some(q) =>
      && groups != []
      && q.ingress == (if Blocks(groups, true) then Drop else Accept)
      && q.egress == (if Blocks(groups, false) then Drop else Accept)
  }

  lemma PolicyIgnoresLoadOrder(groups: seq<Group>, groups': seq<Group>, p: Option<Policy>, p': Option<Policy>)
    requires SameGroups(groups, groups') && IsPolicy(groups, p) && IsPolicy(groups', p')
    ensures p == p'
  {
    SwapGroups(groups, groups');
    forall inbound ensures Blocks(groups, inbound) == Blocks(groups', inbound) {
      if Blocks(groups, inbound) {
        BlocksIgnoresLoadOrder(groups, groups', inbound);
      }
      if Blocks(groups', inbound) {
        BlocksIgnoresLoadOrder(groups', groups, inbound);
      }
    }
  }

  /** The policy after looking at these groups. */
  function Combined(gs: seq<Group>): Policy {
    if gs == [] then Policy(Accept, Accept)
    else
      var p, g := Combined(gs[..|gs| - 1]), gs[|gs| - 1];
      Policy(if !Accepts(g.ingressPolicy) then Drop else p.ingress, if !Accepts(g.egressPolicy) then Drop else p.egress)
  }

  lemma {:induction false} CombinedDrops(gs: seq<Group>)
    ensures Combined(gs).ingress == (if Blocks(gs, true) then Drop else Accept)
    ensures Combined(gs).egress == (if Blocks(gs, false) then Drop else Accept)
  {
    if gs != [] {
      var init, g := gs[..|gs| - 1], gs[|gs| - 1];
      CombinedDrops(init);
      assert gs == init + [g];
      assert forall x :: x in gs <==> x in init || x == g;
      assert forall inbound :: Blocks(gs, inbound) <==> Blocks(init, inbound) || BlocksOne(g, inbound);
    }
  }

  lemma Associative(a: seq<Sourced>, b: seq<Sourced>, c: seq<Sourced>)
    ensures (a + b) + c == a + (b + c)
  {
  }

  /** One more round of the loop over the groups, after own, the rules of the instance. */
  lemma OneMoreGroup(own: seq<Sourced>, gs: seq<Group>, k: nat)
    requires k < |gs|
    ensures var g, p := gs[k], Combined(gs[..k]);
            && own + GroupRules(gs[..k + 1]) == (own + GroupRules(gs[..k])) +
                Tagged(StableSort.Sort(g.rules, IdOfRule), 1 + g.id)
            && Combined(gs[..k + 1]) == Policy(if !Accepts(g.ingressPolicy) then Drop else p.ingress,
                                               if !Accepts(g.egressPolicy) then Drop else p.egress)
  {
    assert gs[..k + 1][..k] == gs[..k];
    Associative(own, GroupRules(gs[..k]), Tagged(StableSort.Sort(gs[k].rules, IdOfRule), 1 + gs[k].id));
  }

  lemma CombinedIsPolicy(groups: seq<Group>)
    ensures var s := StableSort.Sort(groups, IdOfGroup);
            IsPolicy(groups, if |s| > 0 then Some(Combined(s)) else None)
  {
    StableSort.SortMembers(groups, IdOfGroup);
    CombinedDrops(StableSort.Sort(groups, IdOfGroup));
  }

  lemma FinalSortMerges(local: seq<Rule>, groups: seq<Group>, rules: seq<Rule>)
    requires DistinctRules(local) && DistinctGroups(groups) && rules == Untagged(Unsorted(local, groups))
    ensures exists xs :: IsMerge(local, groups, xs) && StableSort.Sort(rules, PriorityOf) == Untagged(xs)
  {
    FourSortsMerge(local, groups);
    SortUntagged(Unsorted(local, groups));
    assert IsMerge(local, groups, StableSort.Sort(Unsorted(local, groups), SourcedPriority));
  }

  /** Appends the enabled ones of these rules. */
  method AppendEnabled(rules: seq<Rule>, rs: seq<Rule>, ghost xs: seq<Sourced>, ghost rank: nat)
    returns (rules': seq<Rule>, ghost xs': seq<Sourced>)
    requires rules == Untagged(xs)
    ensures xs' == xs + Tagged(rs, rank) && rules' == Untagged(xs')
  {
    rules', xs' := rules, xs;
    var i := 0;
    while i < |rs|
      invariant 0 <= i <= |rs|
      invariant xs' == xs + Tagged(rs[..i], rank) && rules' == Untagged(xs')
    {
      assert rs[..i + 1][..i] == rs[..i];
      if rs[i].enabled {
        rules' := rules' + [rs[i]];
        xs' := xs' + [Sourced(rank, rs[i])];
      }
      i := i + 1;
    }
    assert rs[..i] == rs;
  }

  /** One round of the loop over the groups. */
  method AddGroup(rules: seq<Rule>, policy: Policy, g: Group, ghost xs: seq<Sourced>)
    returns (rules': seq<Rule>, policy': Policy, ghost xs': seq<Sourced>)
    requires rules == Untagged(xs)
    ensures xs' == xs + Tagged(StableSort.Sort(g.rules, IdOfRule), 1 + g.id) && rules' == Untagged(xs')
    ensures policy' == Policy(if !Accepts(g.ingressPolicy) then Drop else policy.ingress,
                              if !Accepts(g.egressPolicy) then Drop else policy.egress)
  {
    policy' := policy;
    if !Accepts(g.ingressPolicy) {
      policy' := policy'.(ingress := Drop);
    }
    if !Accepts(g.egressPolicy) {
      policy' := policy'.(egress := Drop);
    }
    var groupRules := StableSort.Sort(g.rules, IdOfRule);
    rules', xs' := AppendEnabled(rules, groupRules, xs, 1 + g.id);
  }

  /** The loop over the sorted groups, after own, the rules of the instance. */
  method AddGroups(own: seq<Rule>, sorted: seq<Group>, ghost start: seq<Sourced>)
    returns (rules: seq<Rule>, policy: Policy)
    requires own == Untagged(start)
    ensures rules == Untagged(start + GroupRules(sorted)) && policy == Combined(sorted)
  {
    ghost var xs := start;
    rules, policy := own, Policy(Accept, Accept);
    assert start + GroupRules([]) == start;
    var k := 0;
    while k < |sorted|
      invariant 0 <= k <= |sorted|
      invariant xs == start + GroupRules(sorted[..k]) && rules == Untagged(xs) && policy == Combined(sorted[..k])
    {
      OneMoreGroup(start, sorted, k);
      rules, policy, xs := AddGroup(rules, policy, sorted[k], xs);
      k := k + 1;
    }
    assert sorted[..k] == sorted;
  }

  /** The merge as the code computes it, with its loops and in-place sorts of local copies. */
  method EffectiveFirewall(local: seq<Rule>, groups: seq<Group>) returns (rules: seq<Rule>, policy: Option<Policy>)
    requires DistinctRules(local) && DistinctGroups(groups)
    ensures exists xs :: IsMerge(local, groups, xs) && rules == Untagged(xs)
    ensures IsPolicy(groups, policy)
  {
    var own := StableSort.Sort(local, IdOfRule);
    ghost var xs: seq<Sourced>;
    rules, xs := AppendEnabled([], own, [], 0);
    assert xs == Tagged(own, 0);
    var sorted := StableSort.Sort(groups, IdOfGroup);
    var combined;
    rules, combined := AddGroups(rules, sorted, xs);
    policy := if |sorted| > 0 then Some(combined) else None;
    CombinedIsPolicy(groups);
    FinalSortMerges(local, groups, rules);
    rules := StableSort.Sort(rules, PriorityOf);
  }
}
