/**
 Session revocations: one table shared by all replicas, and in front of it one cache per replica.
 The first part is the code of one replica. The second part lets any number of replicas run, crash
 and restart, with every statement and every cache write as a step of its own.
 */
module Revocation {
  type Time = nat
  type Jti = string
  type Expiries = map<Jti, Time>

  // ---------------------------------------------------------------- what each statement computes

  predicate Live(m: Expiries, jti: Jti, now: Time) {
    jti in m && m[jti] > now
  }

  /** Insert or extend, never shorten. */
  function Extended(m: Expiries, jti: Jti, expiry: Time): Expiries {
    if jti in m && m[jti] >= expiry then m else m[jti := expiry]
  }

  function Put(m: Expiries, jti: Jti, expiry: Time): Expiries {
    m[jti := expiry]
  }

  function Unexpired(m: Expiries, now: Time): Expiries {
    map jti | jti in m && m[jti] > now :: m[jti]
  }

  /** What is cached and not yet over is in the table at least as long. */
  ghost predicate Backed(cache: Expiries, rows: Expiries, now: Time) {
    forall jti | Live(cache, jti, now) :: BackedEntry(jti, cache[jti], rows, now)
  }

  predicate BackedEntry(jti: Jti, until: Time, rows: Expiries, now: Time) {
    until > now ==> jti in rows && rows[jti] >= until
  }

  // ---------------------------------------------------------------- one replica

  class RevokedTokens {
    var rows: Expiries

    constructor ()
      ensures rows == map[]
    {
      rows := map[];
    }
  }

  class PersistentRevocationList {
    const db: RevokedTokens?
    var hot: Expiries

    ghost predicate Valid(now: Time)
      reads this, db
    {
      db != null ==> Backed(hot, db.rows, now)
    }

    /** `now` is the time of the warming query, `dbOk` says whether it succeeds. */
    constructor (db: RevokedTokens?, now: Time, dbOk: bool)
      ensures this.db == db && Valid(now)
      ensures hot == if db != null && dbOk then Unexpired(db.rows, now) else map[]
    {
      this.db := db;
      hot := map[];
      new;
      if db != null && dbOk {
        var live := Unexpired(db.rows, now);
        var todo := live.Keys;
        while todo != {}
          invariant todo <= live.Keys
          invariant hot == map jti | jti in live && jti !in todo :: live[jti]
          decreases |todo|
        {
          var jti :| jti in todo;
          hot := hot[jti := live[jti]];
          todo := todo - {jti};
        }
      }
    }

    /** Records jti until expiry. Success is reported only when the table has it, and nothing is ever shortened. */
    method Revoke(jti: Jti, expiry: Time, dbOk: bool, ghost now: Time) returns (ok: bool)
      requires Valid(now)
      modifies this`hot, db
      ensures Valid(now)
      ensures ok <==> jti == "" || (db != null && dbOk)
      ensures db != null ==> db.rows == if ok && jti != "" then Extended(old(db.rows), jti, expiry) else old(db.rows)
      ensures hot == if ok && jti != "" then Extended(old(hot), jti, expiry) else old(hot)
    {
      if jti == "" {
        return true;
      }
      if db == null || !dbOk {
        return false;
      }
      if jti !in db.rows {
        db.rows := db.rows[jti := expiry];
      }
      if db.rows[jti] < expiry {
        db.rows := db.rows[jti := expiry];
      }
      if jti !in hot || expiry > hot[jti] {
        hot := hot[jti := expiry];
      }
      return true;
    }

    /** The answer is the table's answer, whatever the cache holds; a failing table revokes everything. */
    method IsRevoked(jti: Jti, now: Time, dbOk: bool) returns (revoked: bool)
      requires Valid(now)
      modifies this`hot
      ensures Valid(now)
      ensures revoked <==> jti != "" && db != null && (dbOk ==> Live(db.rows, jti, now))
      ensures hot == old(hot) || (db != null && Live(db.rows, jti, now) && hot == Put(old(hot), jti, db.rows[jti]))
    {
      if jti == "" || db == null {
        return false;
      }
      if jti in hot && hot[jti] > now {
        return true;
      }
      if !dbOk {
        return true;
      }
      if !(jti in db.rows && db.rows[jti] > now) {
        return false;
      }
      hot := hot[jti := db.rows[jti]];
      return true;
    }

    /** Removes what is over at `now` from the table and from the cache. */
    method CleanupExpired(now: Time, dbOk: bool)
      requires Valid(now)
      modifies this`hot, db
      ensures Valid(now)
      ensures db != null ==> db.rows == if dbOk then Unexpired(old(db.rows), now) else old(db.rows)
      ensures hot == if db != null && dbOk then Unexpired(old(hot), now) else old(hot)
    {
      if db == null || !dbOk {
        return;
      }
      db.rows := Unexpired(db.rows, now);
      var todo := hot.Keys;
      while todo != {}
        invariant todo <= old(hot).Keys && db.rows == Unexpired(old(db.rows), now)
        invariant hot == map jti | jti in old(hot) && (jti in todo || old(hot)[jti] > now) :: old(hot)[jti]
        decreases |todo|
      {
        var jti :| jti in todo;
        todo := todo - {jti};
        if hot[jti] <= now {
          hot := hot - {jti};
        }
      }
    }
  }

  // ---------------------------------------------------------------- many replicas, step by step

  type Replica = nat

  /** What a request has still to do after its last statement. */
  datatype Pending =
    | CacheRevocation(replica: Replica, jti: Jti, until: Time)  // Revoke: committed, cache and reply to come
    | AskTable(replica: Replica, jti: Jti, asked: Time)         // IsRevoked: missed the cache
    | CacheHit(replica: Replica, jti: Jti, until: Time)         // IsRevoked: found the row, cache to be filled
    | CleanCache(replica: Replica, at: Time)                    // CleanupExpired: table done, cache to come

  /** `acked` are the revocations reported to a caller as successful. */
  datatype System = System(now: Time, rows: Expiries, caches: map<Replica, Expiries>, pending: map<nat, Pending>,
                           acked: set<(Jti, Time)>)

  datatype Event =
    | Tick(to: Time)
    | Start(r: Replica, warmed: bool)                    // (re)start: warm an empty cache if the query is served
    | CommitRevocation(k: nat, r: Replica, jti: Jti, expiry: Time)
    | FinishRevocation(k: nat)
    | MissCache(k: nat, r: Replica, jti: Jti)
    | ReadTable(k: nat)
    | FillCache(k: nat)
    | CommitCleanup(k: nat, r: Replica, at: Time)
    | FinishCleanup(k: nat)

  predicate Enabled(s: System, e: Event) {
    match e
    case Tick(to) => to >= s.now
    case Start(_, _) => true
    case CommitRevocation(k, r, jti, _) => k !in s.pending && r in s.caches && jti != ""
    case FinishRevocation(k) => k in s.pending && s.pending[k].CacheRevocation? && s.pending[k].replica in s.caches
    case MissCache(k, r, jti) => k !in s.pending && r in s.caches && jti != "" && !Live(s.caches[r], jti, s.now)
    case ReadTable(k) => k in s.pending && s.pending[k].AskTable?
    case FillCache(k) => k in s.pending && s.pending[k].CacheHit? && s.pending[k].replica in s.caches
    case CommitCleanup(k, r, at) => k !in s.pending && r in s.caches && at <= s.now
    case FinishCleanup(k) => k in s.pending && s.pending[k].CleanCache? && s.pending[k].replica in s.caches
  }

  /** What IsRevoked answers when it reads the table now, having missed the cache at time `asked`. */
  predicate TableAnswer(s: System, jti: Jti, asked: Time) {
    Live(s.rows, jti, asked)
  }

  function Step(s: System, e: Event): System
    requires Enabled(s, e)
  {
    match e
    case Tick(to) => s.(now := to)
    case Start(r, warmed) =>
      s.(caches := s.caches[r := if warmed then Unexpired(s.rows, s.now) else map[]],
         pending := map k | k in s.pending && s.pending[k].replica != r :: s.pending[k])
    case CommitRevocation(k, r, jti, expiry) =>
      s.(rows := Extended(s.rows, jti, expiry), pending := s.pending[k := CacheRevocation(r, jti, expiry)])
    case FinishRevocation(k) =>
      var p := s.pending[k];
      s.(caches := s.caches[p.replica := Extended(s.caches[p.replica], p.jti, p.until)],
         pending := s.pending - {k}, acked := s.acked + {(p.jti, p.until)})
    case MissCache(k, r, jti) => s.(pending := s.pending[k := AskTable(r, jti, s.now)])
    case ReadTable(k) =>
      var p := s.pending[k];
      if TableAnswer(s, p.jti, p.asked) then s.(pending := s.pending[k := CacheHit(p.replica, p.jti, s.rows[p.jti])])
      else s.(pending := s.pending - {k})
    case FillCache(k) =>
      var p := s.pending[k];
      s.(caches := s.caches[p.replica := Put(s.caches[p.replica], p.jti, p.until)], pending := s.pending - {k})
    case CommitCleanup(k, r, at) => s.(rows := Unexpired(s.rows, at), pending := s.pending[k := CleanCache(r, at)])
    case FinishCleanup(k) =>
      var p := s.pending[k];
      s.(caches := s.caches[p.replica := Unexpired(s.caches[p.replica], p.at)], pending := s.pending - {k})
  }

  predicate PendingOk(s: System, p: Pending) {
    match p
    case CacheRevocation(_, jti, until) => BackedEntry(jti, until, s.rows, s.now)
    case CacheHit(_, jti, until) => BackedEntry(jti, until, s.rows, s.now)
    case _ => true
  }

  ghost predicate Consistent(s: System) {
    && (forall r | r in s.caches :: Backed(s.caches[r], s.rows, s.now))
    && (forall k | k in s.pending :: PendingOk(s, s.pending[k]))
    && (forall a | a in s.acked :: BackedEntry(a.0, a.1, s.rows, s.now))
  }

  /** While it has not expired, an expiry in the table only ever moves later. */
  lemma RowsNeverShrink(s: System, e: Event, jti: Jti, until: Time)
    requires Enabled(s, e) && BackedEntry(jti, until, s.rows, s.now)
    ensures BackedEntry(jti, until, Step(s, e).rows, Step(s, e).now)
  {
  }

  lemma ConsistentStep(s: System, e: Event)
    requires Consistent(s) && Enabled(s, e)
    ensures Consistent(Step(s, e))
  {
    var s' := Step(s, e);
    forall a | a in s'.acked ensures BackedEntry(a.0, a.1, s'.rows, s'.now) {
      if e.FinishRevocation? {
        assert PendingOk(s, s.pending[e.k]);
      }
      RowsNeverShrink(s, e, a.0, a.1);
    }
    forall k | k in s'.pending ensures PendingOk(s', s'.pending[k]) {
      if k in s.pending && s'.pending[k] == s.pending[k] {
        assert PendingOk(s, s.pending[k]);
        if s.pending[k].CacheRevocation? || s.pending[k].CacheHit? {
          RowsNeverShrink(s, e, s.pending[k].jti, s.pending[k].until);
        }
      }
    }
    forall r | r in s'.caches ensures Backed(s'.caches[r], s'.rows, s'.now) {
      CacheBackedStep(s, e, r);
    }
  }

  lemma CacheBackedStep(s: System, e: Event, r: Replica)
    requires Consistent(s) && Enabled(s, e) && r in Step(s, e).caches
    ensures Backed(Step(s, e).caches[r], Step(s, e).rows, Step(s, e).now)
  {
    var s' := Step(s, e);
    forall jti | Live(s'.caches[r], jti, s'.now) ensures BackedEntry(jti, s'.caches[r][jti], s'.rows, s'.now) {
      if r in s.caches && jti in s.caches[r] && s.caches[r][jti] == s'.caches[r][jti] {
        assert Live(s.caches[r], jti, s.now);
        RowsNeverShrink(s, e, jti, s.caches[r][jti]);
      } else if e.FinishRevocation? || e.FillCache? {
        assert PendingOk(s, s.pending[e.k]);
      }
    }
  }

  predicate Legal(s: System, es: seq<Event>)
    decreases es
  {
    es == [] || (Enabled(s, es[0]) && Legal(Step(s, es[0]), es[1..]))
  }

  function After(s: System, es: seq<Event>): System
    requires Legal(s, es)
    decreases es
  {
    if es == [] then s else After(Step(s, es[0]), es[1..])
  }

  lemma {:induction false} ConsistentRun(s: System, es: seq<Event>)
    requires Consistent(s) && Legal(s, es)
    ensures Consistent(After(s, es)) && s.acked <= After(s, es).acked
    decreases es
  {
    if es != [] {
      ConsistentStep(s, es[0]);
      ConsistentRun(Step(s, es[0]), es[1..]);
    }
  }

  const BOOT := System(0, map[], map[], map[], {})

  /** A cache that says revoked agrees with the table at that moment; so the cache never changes an answer. */
  lemma CacheAgreesWithTable(es: seq<Event>, r: Replica, jti: Jti)
    requires Legal(BOOT, es) && r in After(BOOT, es).caches
    ensures var s := After(BOOT, es);
            Live(s.caches[r], jti, s.now) ==> Live(s.rows, jti, s.now)
  {
    ConsistentRun(BOOT, es);
    var s := After(BOOT, es);
    if Live(s.caches[r], jti, s.now) {
      assert Backed(s.caches[r], s.rows, s.now);
    }
  }

  /**
   A revocation that was acknowledged until `until` is honoured: however the system goes on, with
   other replicas, cleanups, restarts and shorter re-revocations, every answer that reads the table
   before `until` says revoked.
   */
  lemma AcknowledgedIsHonoured(es: seq<Event>, fs: seq<Event>, jti: Jti, until: Time, asked: Time)
    requires Legal(BOOT, es) && (jti, until) in After(BOOT, es).acked
    requires Legal(After(BOOT, es), fs)
    requires asked <= After(After(BOOT, es), fs).now < until
    ensures var s := After(After(BOOT, es), fs); TableAnswer(s, jti, asked) && s.rows[jti] >= until
  {
    ConsistentRun(BOOT, es);
    ConsistentRun(After(BOOT, es), fs);
    var s := After(After(BOOT, es), fs);
    assert BackedEntry((jti, until).0, (jti, until).1, s.rows, s.now);
  }

  /** A revocation that lasts beyond this time is committed. */
  predicate Revokes(e: Event, jti: Jti, at: Time) {
    e.CommitRevocation? && e.jti == jti && e.expiry > at
  }

  predicate Revoked(es: seq<Event>, jti: Jti, at: Time) {
    exists k :: 0 <= k < |es| && Revokes(es[k], jti, at)
  }

  lemma LiveStep(s: System, e: Event, jti: Jti, at: Time)
    requires Enabled(s, e)
    ensures Live(Step(s, e).rows, jti, at) ==> Live(s.rows, jti, at) || Revokes(e, jti, at)
    ensures at >= Step(s, e).now && (Live(s.rows, jti, at) || Revokes(e, jti, at)) ==> Live(Step(s, e).rows, jti, at)
    ensures Step(s, e).now >= s.now
  {
  }

  lemma {:induction false} LiveRun(s: System, es: seq<Event>, jti: Jti, at: Time)
    requires Legal(s, es)
    ensures After(s, es).now >= s.now
    ensures Live(After(s, es).rows, jti, at) ==> Live(s.rows, jti, at) || Revoked(es, jti, at)
    ensures at >= After(s, es).now && (Live(s.rows, jti, at) || Revoked(es, jti, at)) ==>
              Live(After(s, es).rows, jti, at)
    decreases es
  {
    if es != [] {
      LiveStep(s, es[0], jti, at);
      LiveRun(Step(s, es[0]), es[1..], jti, at);
      RevokedFirst(es, jti, at);
    }
  }

  lemma RevokedFirst(es: seq<Event>, jti: Jti, at: Time)
    requires es != []
    ensures Revoked(es, jti, at) <==> Revokes(es[0], jti, at) || Revoked(es[1..], jti, at)
  {
    if Revoked(es[1..], jti, at) {
      var k :| 0 <= k < |es[1..]| && Revokes(es[1..][k], jti, at);
      assert Revokes(es[k + 1], jti, at);
    }
    if Revoked(es, jti, at) {
      var k :| 0 <= k < |es| && Revokes(es[k], jti, at);
      assert k > 0 ==> es[1..][k - 1] == es[k];
    }
  }

  /**
   After any run the table says revoked exactly if some revocation that was ever committed lasts beyond now,
   and no answer says revoked without one that lasted beyond the time of the question.
   */
  lemma RevokedIffSomebodyRevoked(es: seq<Event>, jti: Jti, asked: Time)
    requires Legal(BOOT, es)
    ensures var s := After(BOOT, es);
            && (Live(s.rows, jti, s.now) <==> Revoked(es, jti, s.now))
            && (TableAnswer(s, jti, asked) ==> Revoked(es, jti, asked))
            && (forall r | r in s.caches :: Live(s.caches[r], jti, s.now) ==> Revoked(es, jti, s.now))
  {
    var s := After(BOOT, es);
    LiveRun(BOOT, es, jti, s.now);
    LiveRun(BOOT, es, jti, asked);
    forall r | r in s.caches ensures Live(s.caches[r], jti, s.now) ==> Revoked(es, jti, s.now) {
      CacheAgreesWithTable(es, r, jti);
    }
  }

  // ---------------------------------------------------------------- undisturbed requests

  /** A replica that starts with a served query knows exactly what is revoked, and none of its old requests goes on. */
  lemma StartIsClean(s: System, r: Replica, warmed: bool, jti: Jti)
    ensures var s' := Step(s, Start(r, warmed));
            && r in s'.caches
            && (warmed ==> (Live(s'.caches[r], jti, s'.now) <==> Live(s'.rows, jti, s'.now)))
            && (!warmed ==> s'.caches[r] == map[])
            && (forall k | k in s'.pending :: s'.pending[k].replica != r)
            && (forall k | k in s.pending && s.pending[k].replica != r ::
                  k in s'.pending && s'.pending[k] == s.pending[k])
  {
  }

  /** A revocation that is not disturbed is acknowledged, and table and cache have it at least as long. */
  lemma RevocationIsAcknowledged(s: System, k: nat, r: Replica, jti: Jti, expiry: Time)
    requires Enabled(s, CommitRevocation(k, r, jti, expiry))
    ensures var s1 := Step(s, CommitRevocation(k, r, jti, expiry));
            && Enabled(s1, FinishRevocation(k))
            && var s2 := Step(s1, FinishRevocation(k));
               && s2.acked == s.acked + {(jti, expiry)} && s2.pending == s.pending
               && jti in s2.rows && s2.rows[jti] >= expiry && jti in s2.caches[r] && s2.caches[r][jti] >= expiry
  {
    assert Step(Step(s, CommitRevocation(k, r, jti, expiry)), FinishRevocation(k)).pending == s.pending;
  }

  /** A lookup that finds the row answers from the cache the next time, for as long as the row lasts. */
  lemma LookupFillsTheCache(s: System, k: nat, r: Replica, jti: Jti)
    requires Enabled(s, MissCache(k, r, jti))
    ensures var s1 := Step(s, MissCache(k, r, jti));
            && Enabled(s1, ReadTable(k))
            && var s2 := Step(s1, ReadTable(k));
               if !Live(s.rows, jti, s.now) then s2 == s
               else
                 && Enabled(s2, FillCache(k))
                 && var s3 := Step(s2, FillCache(k));
                    && s3.pending == s.pending && s3.rows == s.rows
                    && jti in s3.caches[r] && s3.caches[r][jti] == s.rows[jti]
  {
    var s1 := Step(s, MissCache(k, r, jti));
    var s2 := Step(s1, ReadTable(k));
    if Live(s.rows, jti, s.now) {
      assert Step(s2, FillCache(k)).pending == s.pending;
    } else {
      assert s2.pending == s.pending;
    }
  }

  /** A cleanup takes exactly what was over at its time, from the table and from the cache of its replica. */
  lemma CleanupTakesWhatIsOver(s: System, k: nat, r: Replica, at: Time, jti: Jti)
    requires Enabled(s, CommitCleanup(k, r, at))
    ensures var s1 := Step(s, CommitCleanup(k, r, at));
            && Enabled(s1, FinishCleanup(k))
            && var s2 := Step(s1, FinishCleanup(k));
               && s2.pending == s.pending
               && (jti in s2.rows <==> jti in s.rows && s.rows[jti] > at)
               && (jti in s2.caches[r] <==> jti in s.caches[r] && s.caches[r][jti] > at)
  {
    assert Step(Step(s, CommitCleanup(k, r, at)), FinishCleanup(k)).pending == s.pending;
  }
}
