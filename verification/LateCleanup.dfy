/**
 What the cleanup after a failed closing read does to the references of migrations: whether unfinished
 migrations keep usable networks turns on that read, and on who else holds the former network.
 */
module LateCleanup {
  import opened Common
  import opened Lifecycle
  import opened Cluster
  import opened ClusterSafety
  import opened ClusterRuns
  import opened Eviction
  import Clearing
  import Net = VpcTable

  /** Both networks of every migration that is neither completed nor failed are usable. */
  ghost predicate UnfinishedUsable(s: State) {
    forall t | t in s.migs && !s.migs[t].Terminal() ::
      && Usable(s, s.migs[t].sourceVpc, s.migs[t].source)
      && Usable(s, s.migs[t].targetVpc, s.migs[t].target)
  }

  /** Whatever follows, as long as no later closing read fails. */
  ghost predicate StaysUsable(s: State) {
    forall es | Run(s, es) && AllClosingReadsSucceed(es) :: UnfinishedUsable(End(s, es))
  }

  lemma PunctualReferences(s: State)
    requires Inv(s) && Punctual(s)
    ensures UnfinishedUsable(s)
  {
    forall t | t in s.migs && !s.migs[t].Terminal()
      ensures Usable(s, s.migs[t].sourceVpc, s.migs[t].source) && Usable(s, s.migs[t].targetVpc, s.migs[t].target)
    {
      AvailableIsUsable(s, s.migs[t].sourceVpc, s.migs[t].source);
      AvailableIsUsable(s, s.migs[t].targetVpc, s.migs[t].target);
    }
  }

  lemma PunctualStaysUsable(s: State)
    requires Inv(s) && Punctual(s)
    ensures StaysUsable(s)
  {
    forall es | Run(s, es) && AllClosingReadsSucceed(es) ensures UnfinishedUsable(End(s, es)) {
      PunctualRun(s, es);
      PunctualReferences(End(s, es));
    }
  }

  // ---------------------------------------------------------------- one guest in its late cleanup

  /** The guest is not in a late cleanup, and has not ended in doubt in one. */
  predicate LateFree(g: Guest) {
    g.fence.Held? && g.fence.job.Migrating? ==>
      var phase := g.fence.job.phase;
      && (phase.CleaningUp? || phase.TargetDeleted? || phase.CleanedUp? ==> !phase.late)
      && (phase.Retained? && (phase.why.CleanupUnknown? || phase.why.ReservationsKept?) ==> !phase.why.late)
  }

  lemma LateFreeStep(g: Guest, e: Lifecycle.Event)
    requires LateFree(g) && Lifecycle.Enabled(g, e) && e != ClosingRead(false)
    ensures LateFree(Step(g, e))
  {
  }

  lemma LateStep(g: Guest, e: Lifecycle.Event)
    requires !LateFree(g) && Lifecycle.Enabled(g, e)
    ensures LateFree(Step(g, e)) || (Step(g, e).fence.Held? && Step(g, e).fence.token == g.fence.token)
    ensures Net.InLateDoubt(g, g.fence.token) ==> Net.InLateDoubt(Step(g, e), g.fence.token)
  {
  }

  /** Only guest i, under token t, can be in a late cleanup, and only its row can have been reopened. */
  ghost predicate OneLate(s: State, i: InstanceId, t: Token) {
    && (forall j | j in s.guests && j != i :: LateFree(s.guests[j]))
    && (i in s.guests && !LateFree(s.guests[i]) ==> s.guests[i].fence.token == t)
    && (forall u | u in s.migs && s.migs[u].reopened :: u == t && i in s.guests && Net.InLateDoubt(s.guests[i], t))
  }

  /** The guests, after an event of one of them. */
  lemma OneLateGuests(s: State, j: InstanceId, e: Lifecycle.Event, i: InstanceId, t: Token)
    requires OneLate(s, i, t) && GuestEnabled(s, j, e) && e != ClosingRead(false)
    ensures var guests := s.guests[j := Step(s.guests[j], e)];
            && (forall k | k in guests && k != i :: LateFree(guests[k]))
            && (i in guests && !LateFree(guests[i]) ==> guests[i].fence.token == t)
            && (i in s.guests && Net.InLateDoubt(s.guests[i], t) ==> Net.InLateDoubt(guests[i], t))
  {
    if LateFree(s.guests[j]) {
      LateFreeStep(s.guests[j], e);
    } else {
      LateStep(s.guests[j], e);
    }
  }

  lemma OneLateGuest(s: State, j: InstanceId, e: Lifecycle.Event, i: InstanceId, t: Token)
    requires Inv(s) && OneLate(s, i, t) && GuestEnabled(s, j, e) && e != ClosingRead(false)
    ensures OneLate(GuestApply(s, j, e), i, t)
  {
    Clearing.InvLinks(s, j);
    OneLateGuests(s, j, e, i, t);
    OneLateRows(s, j, e, i, t);
  }

  /** The rows, after an event of one guest. */
  lemma OneLateRows(s: State, j: InstanceId, e: Lifecycle.Event, i: InstanceId, t: Token)
    requires OneLate(s, i, t) && GuestEnabled(s, j, e) && e != ClosingRead(false)
    requires Net.Linked(s.guests[j], j, s.migs)
    ensures var migs, guests := GuestApply(s, j, e).migs, GuestApply(s, j, e).guests;
            forall u | u in migs && migs[u].reopened :: u == t && i in guests && Net.InLateDoubt(guests[i], t)
  {
    OneLateGuests(s, j, e, i, t);
    var migs := GuestApply(s, j, e).migs;
    forall u | u in migs && migs[u].reopened ensures u == t && Net.InLateDoubt(GuestApply(s, j, e).guests[i], t) {
      Net.ReopeningIsLate(s.guests[j], j, s.migs, e, u);
      if !(u in s.migs && s.migs[u].reopened) {
        assert !LateFree(s.guests[j]);
      }
    }
  }

  lemma OneLateStep(s: State, e: Cluster.Event, i: InstanceId, t: Token)
    requires Inv(s) && OneLate(s, i, t) && Cluster.Enabled(s, e) && !ClosingReadFails(e)
    ensures OneLate(Apply(s, e), i, t)
  {
    if e.GuestEvent? {
      OneLateGuest(s, e.i, e.e, i, t);
    } else {
      OneLateElsewhere(s, e, i, t);
    }
  }

  lemma OneLateElsewhere(s: State, e: Cluster.Event, i: InstanceId, t: Token)
    requires Inv(s) && OneLate(s, i, t) && Cluster.Enabled(s, e) && !e.GuestEvent?
    ensures OneLate(Apply(s, e), i, t)
  {
  }

  // ---------------------------------------------------------------- the former network is kept

  /** There is no former network, or it is there on its agent and somebody holds it for ever. */
  ghost predicate Kept(s: State, former: Option<VpcId>, agent: Agent) {
    former.Some? ==> Usable(s, former, agent) && Pinned(s, former.value, agent)
  }

  predicate IsRow(s: State, t: Token, former: Option<VpcId>, agent: Agent) {
    t in s.migs && s.migs[t].sourceVpc == former && s.migs[t].source == agent
  }

  lemma KeptStep(s: State, e: Cluster.Event, former: Option<VpcId>, agent: Agent)
    requires Inv(s) && Cluster.Enabled(s, e) && Kept(s, former, agent)
    ensures Kept(Apply(s, e), former, agent)
  {
    if former.Some? {
      PinnedStep(s, e, former.value, agent);
      PinnedStaysUsable(s, e, former.value, agent);
    }
  }

  lemma RowStep(s: State, e: Cluster.Event, t: Token, former: Option<VpcId>, agent: Agent)
    requires Cluster.Enabled(s, e) && IsRow(s, t, former, agent)
    ensures IsRow(Apply(s, e), t, former, agent)
  {
  }

  /** A reopened row refers to the kept former network, and to the network that its guest still uses. */
  lemma KeptReferences(s: State, i: InstanceId, t: Token, former: Option<VpcId>, agent: Agent)
    requires Inv(s) && OneLate(s, i, t) && IsRow(s, t, former, agent) && Kept(s, former, agent)
    ensures UnfinishedUsable(s)
  {
    forall u | u in s.migs && !s.migs[u].Terminal()
      ensures Usable(s, s.migs[u].sourceVpc, s.migs[u].source) && Usable(s, s.migs[u].targetVpc, s.migs[u].target)
    {
      if s.migs[u].reopened {
        Clearing.InvLinks(s, i);
        AvailableIsUsable(s, s.guests[i].vpc, s.guests[i].agent);
      } else {
        AvailableIsUsable(s, s.migs[u].sourceVpc, s.migs[u].source);
        AvailableIsUsable(s, s.migs[u].targetVpc, s.migs[u].target);
      }
    }
  }

  lemma {:induction false} KeptRun(s: State, es: seq<Cluster.Event>, i: InstanceId, t: Token, former: Option<VpcId>,
                                   agent: Agent)
    requires Inv(s) && OneLate(s, i, t) && IsRow(s, t, former, agent) && Kept(s, former, agent)
    requires Run(s, es) && AllClosingReadsSucceed(es)
    ensures UnfinishedUsable(End(s, es))
    decreases es
  {
    if es == [] {
      KeptReferences(s, i, t, former, agent);
    } else {
      assert es[0] in es && forall e | e in es[1..] :: e in es;
      InvStep(s, es[0]);
      OneLateStep(s, es[0], i, t);
      RowStep(s, es[0], t, former, agent);
      KeptStep(s, es[0], former, agent);
      KeptRun(Apply(s, es[0]), es[1..], i, t, former, agent);
    }
  }

  // ---------------------------------------------------------------- the former network is lost

  function Without(s: State, v: VpcId): State
    requires v in s.vpcs
  {
    s.(vpcs := s.vpcs - {v}, nets := s.nets - {(s.vpcs[v].agent, s.vpcs[v].name)})
  }

  lemma BeginDeletion(s: State, v: VpcId)
    requires v in s.vpcs && s.vpcs[v].state == Net.VpcAvailable
    requires Net.Unreferenced(s.guests, s.migs, v, s.vpcs[v].agent)
    ensures Cluster.Enabled(s, NetEvent(v, Net.BeginDelete))
    ensures var row := s.vpcs[v].(state := Net.VpcDeleting, job := Net.DeletingNet);
            Apply(s, NetEvent(v, Net.BeginDelete)) == s.(vpcs := s.vpcs[v := row])
  {
  }

  lemma EndDeletion(s: State, v: VpcId, t: State)
    requires v in s.vpcs && s.vpcs[v].job == Net.DeletingNet && Reaches(Without(s, v), t)
    ensures Reaches(s, t)
  {
    var e := NetEvent(v, Net.DeleteNet(Confirmed));
    var s1 := Apply(s, e);
    assert Apply(s1, NetEvent(v, Net.DropRow(true))).vpcs == Without(s, v).vpcs;
    ReachesFirst(s1, NetEvent(v, Net.DropRow(true)), t);
    ReachesFirst(s, e, t);
  }

  /** A network without users can be deleted without trouble. */
  lemma DeletionReaches(s: State, v: VpcId, t: State)
    requires v in s.vpcs && s.vpcs[v].state == Net.VpcAvailable
    requires Net.Unreferenced(s.guests, s.migs, v, s.vpcs[v].agent)
    requires Reaches(Without(s, v), t)
    ensures Reaches(s, t)
  {
    BeginDeletion(s, v);
    var s1 := Apply(s, NetEvent(v, Net.BeginDelete));
    assert Without(s1, v) == Without(s, v);
    EndDeletion(s1, v, t);
    ReachesFirst(s, NetEvent(v, Net.BeginDelete), t);
  }

  /** The deletion of the target fails, and that is recorded. */
  function Reopened(s: State, i: InstanceId): State
    requires i in s.guests && InPhase(s.guests[i], CleaningUp(true)) && s.guests[i].fence.token in s.migs
  {
    var t := s.guests[i].fence.token;
    s.(guests := s.guests[i := Enter(s.guests[i], Retained(CleanupUnknown(true)))],
       migs := s.migs[t := s.migs[t].(stage := Net.StageCleanupFailed,
                                      reopened := s.migs[t].reopened || s.migs[t].Terminal())])
  }

  /** The answer is an error, and the statement after it commits. */
  lemma FailedCleanup(s: State, i: InstanceId)
    requires i in s.guests && InPhase(s.guests[i], CleaningUp(true)) && s.guests[i].fence.token in s.migs
    ensures var s1 := s.(guests := s.guests[i := Enter(s.guests[i], Retained(CleanupUnknown(true)))]);
            && Cluster.Enabled(s, GuestEvent(i, DeleteTarget(Refused)))
            && Apply(s, GuestEvent(i, DeleteTarget(Refused))) == s1
  {
  }

  lemma RecordedCleanup(s: State, i: InstanceId)
    requires i in s.guests && InPhase(s.guests[i], Retained(CleanupUnknown(true))) && s.guests[i].fence.token in s.migs
    ensures var t := s.guests[i].fence.token;
            && Cluster.Enabled(s, GuestEvent(i, MarkCleanupFailed(true)))
            && Apply(s, GuestEvent(i, MarkCleanupFailed(true))) ==
               s.(migs := s.migs[t := s.migs[t].(stage := Net.StageCleanupFailed,
                                                 reopened := s.migs[t].reopened || s.migs[t].Terminal())])
  {
    assert s.guests[i := s.guests[i]] == s.guests;
  }

  lemma ReopenedIsReached(s: State, i: InstanceId)
    requires i in s.guests && InPhase(s.guests[i], CleaningUp(true)) && s.guests[i].fence.token in s.migs
    ensures Reaches(s, Reopened(s, i))
  {
    FailedCleanup(s, i);
    var s1 := Apply(s, GuestEvent(i, DeleteTarget(Refused)));
    RecordedCleanup(s1, i);
    ReachesSelf(Reopened(s, i));
    ReachesFirst(s1, GuestEvent(i, MarkCleanupFailed(true)), Reopened(s, i));
    ReachesFirst(s, GuestEvent(i, DeleteTarget(Refused)), Reopened(s, i));
  }

  /** The guest is in its late cleanup, and its row, still completed, has this former network. */
  ghost predicate InLateCleanup(s: State, i: InstanceId, former: Option<VpcId>, agent: Agent) {
    && Inv(s) && i in s.guests && InPhase(s.guests[i], CleaningUp(true))
    && s.guests[i].fence.job.plan.sourceVpc == former && s.guests[i].fence.job.plan.source == agent
  }

  lemma LateRow(s: State, i: InstanceId, former: Option<VpcId>, agent: Agent)
    requires InLateCleanup(s, i, former, agent)
    ensures var t := s.guests[i].fence.token;
            && IsRow(s, t, former, agent) && s.migs[t].Terminal()
            && s.guests[i].agent != agent && Usable(s, s.guests[i].vpc, s.guests[i].agent)
  {
    Clearing.InvLinks(s, i);
    AvailableIsUsable(s, s.guests[i].vpc, s.guests[i].agent);
  }

  /** Reopening a migration whose former network is not usable. */
  lemma UnusableNow(s: State, i: InstanceId, former: Option<VpcId>, agent: Agent)
    requires InLateCleanup(s, i, former, agent) && !Usable(s, former, agent)
    ensures !StaysUsable(s)
  {
    LateRow(s, i, former, agent);
    ReopenedIsReached(s, i);
    var d, t := Reopened(s, i), s.guests[i].fence.token;
    assert !d.migs[t].Terminal() && !Usable(d, d.migs[t].sourceVpc, d.migs[t].source);
    assert !UnfinishedUsable(d);
  }

  /** The state in which the former network is gone and the migration reopened. */
  lemma LoseNetwork(s: State, i: InstanceId, v: VpcId, agent: Agent) returns (d: State)
    requires InLateCleanup(s, i, Some(v), agent) && Usable(s, Some(v), agent) && !Pinned(s, v, agent)
    ensures Reaches(s, d)
    ensures var t := s.guests[i].fence.token;
            && t in d.migs && !d.migs[t].Terminal() && d.migs[t].sourceVpc == Some(v) && d.migs[t].source == agent
            && v !in d.vpcs
  {
    LateRow(s, i, Some(v), agent);
    var s1 := Clearing.Clear(s, i, v, agent);
    var s2 := Without(s1, v);
    d := Reopened(s2, i);
    ReopenedIsReached(s2, i);
    DeletionReaches(s1, v, d);
    ReachesTransitive(s, s1, d);
  }

  lemma UnusableLater(s: State, i: InstanceId, v: VpcId, agent: Agent)
    requires InLateCleanup(s, i, Some(v), agent) && Usable(s, Some(v), agent) && !Pinned(s, v, agent)
    ensures !StaysUsable(s)
  {
    var d := LoseNetwork(s, i, v, agent);
    var t := s.guests[i].fence.token;
    assert !Usable(d, d.migs[t].sourceVpc, d.migs[t].source);
    assert !UnfinishedUsable(d);
  }

  // ---------------------------------------------------------------- the closing read

  lemma ReadApplies(s: State, i: InstanceId, readOk: bool)
    requires i in s.guests && InPhase(s.guests[i], Closing)
    ensures Cluster.Enabled(s, GuestEvent(i, ClosingRead(readOk)))
    ensures Apply(s, GuestEvent(i, ClosingRead(readOk))) ==
            s.(guests := s.guests[i := Enter(s.guests[i], if readOk then Returned else CleaningUp(true))])
  {
  }

  /** The read itself changes neither the network nor who holds it. */
  lemma ReadKeeps(s: State, i: InstanceId, former: Option<VpcId>, agent: Agent)
    requires i in s.guests && InPhase(s.guests[i], Closing)
    ensures var s1 := s.(guests := s.guests[i := Enter(s.guests[i], CleaningUp(true))]);
            Kept(s, former, agent) <==> Kept(s1, former, agent)
  {
    var s1 := s.(guests := s.guests[i := Enter(s.guests[i], CleaningUp(true))]);
    if former.Some? {
      forall t ensures Carried(s.guests, t) == Carried(s1.guests, t) {
        SameCarriers(s, s1, i, t);
        SameCarriers(s1, s, i, t);
      }
      forall j | j in s.guests ensures Occupies(s.guests[j], former.value) == Occupies(s1.guests[j], former.value) {
      }
    }
  }

  lemma SameCarriers(s: State, s1: State, i: InstanceId, t: Token)
    requires s1.guests.Keys == s.guests.Keys && i in s.guests && (Carries(s.guests[i], t) ==> Carries(s1.guests[i], t))
    requires forall j | j in s.guests && j != i :: s1.guests[j] == s.guests[j]
    ensures Carried(s.guests, t) ==> Carried(s1.guests, t)
  {
    if j :| j in s.guests && Carries(s.guests[j], t) {
      assert Carries(s1.guests[j], t);
    }
  }

  lemma ReadKeepsPunctual(s: State, i: InstanceId)
    requires Inv(s) && Punctual(s) && Cluster.Enabled(s, GuestEvent(i, ClosingRead(true)))
    ensures Inv(Apply(s, GuestEvent(i, ClosingRead(true)))) && Punctual(Apply(s, GuestEvent(i, ClosingRead(true))))
  {
    InvStep(s, GuestEvent(i, ClosingRead(true)));
    PunctualStep(s, GuestEvent(i, ClosingRead(true)));
  }

  /** From a punctual state a failed read makes one late guest. */
  lemma FailedReadIsLate(s: State, i: InstanceId)
    requires Inv(s) && Punctual(s) && i in s.guests && InPhase(s.guests[i], Closing)
    ensures var s1 := s.(guests := s.guests[i := Enter(s.guests[i], CleaningUp(true))]);
            var plan := s.guests[i].fence.job.plan;
            InLateCleanup(s1, i, plan.sourceVpc, plan.source) && OneLate(s1, i, s.guests[i].fence.token)
  {
    ReadApplies(s, i, false);
    InvStep(s, GuestEvent(i, ClosingRead(false)));
  }

  /** After a failed read the references stay usable exactly if the former network is kept. */
  lemma LateStaysUsableIff(s: State, i: InstanceId, former: Option<VpcId>, agent: Agent)
    requires InLateCleanup(s, i, former, agent) && OneLate(s, i, s.guests[i].fence.token)
    ensures StaysUsable(s) <==> Kept(s, former, agent)
  {
    LateRow(s, i, former, agent);
    if Kept(s, former, agent) {
      forall es | Run(s, es) && AllClosingReadsSucceed(es) ensures UnfinishedUsable(End(s, es)) {
        KeptRun(s, es, i, s.guests[i].fence.token, former, agent);
      }
    } else if Usable(s, former, agent) {
      UnusableLater(s, i, former.value, agent);
    } else {
      UnusableNow(s, i, former, agent);
    }
  }

  /**
   At every closing read of a run that was punctual so far: unfinished migrations keep usable networks in
   every continuation if and only if the read succeeds, or the migration has no former network, or that
   network is still usable and somebody holds it for ever.
   */
  lemma NetworksTurnOnTheClosingRead(es: seq<Cluster.Event>, i: InstanceId, readOk: bool)
    requires Run(Empty(), es) && AllClosingReadsSucceed(es)
    requires i in End(Empty(), es).guests && InPhase(End(Empty(), es).guests[i], Closing)
    ensures var s := End(Empty(), es);
            && Cluster.Enabled(s, GuestEvent(i, ClosingRead(readOk)))
            && var plan := s.guests[i].fence.job.plan;
               StaysUsable(Apply(s, GuestEvent(i, ClosingRead(readOk)))) <==>
               readOk || Kept(s, plan.sourceVpc, plan.source)
  {
    PunctualRun(Empty(), es);
    var s := End(Empty(), es);
    var plan := s.guests[i].fence.job.plan;
    ReadApplies(s, i, readOk);
    if readOk {
      ReadKeepsPunctual(s, i);
      PunctualStaysUsable(Apply(s, GuestEvent(i, ClosingRead(true))));
    } else {
      FailedReadIsLate(s, i);
      ReadKeeps(s, i, plan.sourceVpc, plan.source);
      LateStaysUsableIff(Apply(s, GuestEvent(i, ClosingRead(false))), i, plan.sourceVpc, plan.source);
    }
  }
}
