/** Which states of the cluster lead to which others, without a closing read that fails. */
module ClusterRuns {
  import opened Cluster
  import opened ClusterSafety

  ghost predicate Reaches(s: State, t: State) {
    exists es :: Run(s, es) && AllClosingReadsSucceed(es) && End(s, es) == t
  }

  lemma ReachesSelf(s: State)
    ensures Reaches(s, s)
  {
    assert Run(s, []) && AllClosingReadsSucceed([]) && End(s, []) == s;
  }

  lemma ReachesFirst(s: State, e: Event, t: State)
    requires Enabled(s, e) && !ClosingReadFails(e) && Reaches(Apply(s, e), t)
    ensures Reaches(s, t)
  {
    var es :| Run(Apply(s, e), es) && AllClosingReadsSucceed(es) && End(Apply(s, e), es) == t;
    var all := [e] + es;
    assert all[0] == e && all[1..] == es;
    assert Run(s, all) && End(s, all) == t;
  }

  lemma {:induction false} AppendRun(s: State, es: seq<Event>, fs: seq<Event>)
    requires Run(s, es) && Run(End(s, es), fs)
    ensures Run(s, es + fs) && End(s, es + fs) == End(End(s, es), fs)
    decreases es
  {
    if es == [] {
      assert es + fs == fs;
    } else {
      assert (es + fs)[1..] == es[1..] + fs;
      AppendRun(Apply(s, es[0]), es[1..], fs);
    }
  }

  lemma ReachesTransitive(s: State, t: State, u: State)
    requires Reaches(s, t) && Reaches(t, u)
    ensures Reaches(s, u)
  {
    var es :| Run(s, es) && AllClosingReadsSucceed(es) && End(s, es) == t;
    var fs :| Run(t, fs) && AllClosingReadsSucceed(fs) && End(t, fs) == u;
    AppendRun(s, es, fs);
    assert AllClosingReadsSucceed(es + fs);
  }

  /** Once more with any event in between. */
  lemma RunThrough(s: State, t: State, e: Event, u: State)
    requires Reaches(s, t) && Enabled(t, e) && Reaches(Apply(t, e), u)
    ensures exists es :: Run(s, es) && End(s, es) == u
  {
    var es :| Run(s, es) && AllClosingReadsSucceed(es) && End(s, es) == t;
    var fs :| Run(Apply(t, e), fs) && AllClosingReadsSucceed(fs) && End(Apply(t, e), fs) == u;
    var rest := [e] + fs;
    assert rest[0] == e && rest[1..] == fs;
    assert Run(t, rest) && End(t, rest) == u;
    AppendRun(s, es, rest);
  }
}
