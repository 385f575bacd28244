/**
 The tracker of the login limiter against its history: what the maps hold after trimming and
 sweeping always answers like the complete list of failures would.
 */
module LoginHistory {
  import opened Common
  import opened LoginLimit
  import opened Powers

  datatype AccountRecord = AccountRecord(failures: nat, lockedUntil: Time, lastFailure: Time)

  datatype SourceRecord = SourceRecord(failures: seq<Time>, lockedUntil: Time, lastFailure: Time)

  /** What happened: a failure counted in the source window and, if `counted`, for the account; or a success. */
  datatype Event = Failure(account: Key, source: Key, at: Time, counted: bool) | Success(account: Key)

  type History = seq<Event>

  const NEW_ACCOUNT := AccountRecord(0, 0, 0)

  // ---------------------------------------------------------------- accounts

  function Later(a: Time, b: Time): Time {
    if b > a then b else a
  }

  /** One failure on an account record. */
  function AccountFailure(r: AccountRecord, now: Time): (r': AccountRecord)
    ensures r'.lockedUntil >= r.lockedUntil  // a lock never moves backwards while its record lives
  {
    var failures := (if Sub(now, r.lastFailure) > ACCOUNT_WINDOW then 0 else r.failures) + 1;
    if failures >= ACCOUNT_FAIL_LIMIT then
      LockIsCappedDoubling(failures);
      AccountRecord(failures, Later(r.lockedUntil, now + LockDuration(failures)), now)
    else
      AccountRecord(failures, r.lockedUntil, now)
  }

  /** The record of an account that is never swept. */
  function AccountOf(h: History, account: Key): AccountRecord {
    if h == [] then NEW_ACCOUNT
    else
      var r, e := AccountOf(h[..|h| - 1], account), h[|h| - 1];
      match e
      case Failure(a, _, at, counted) => if a == account && counted then AccountFailure(r, at) else r
      case Success(a) => if a == account then NEW_ACCOUNT else r
  }

  /** The counted failures of an account since its last success, in order. */
  function AttemptsOf(h: History, account: Key): seq<Time> {
    if h == [] then []
    else
      var ts, e := AttemptsOf(h[..|h| - 1], account), h[|h| - 1];
      match e
      case Failure(a, _, at, counted) => if a == account && counted then ts + [at] else ts
      case Success(a) => if a == account then [] else ts
  }

  /** How many failures at the end follow each other within an hour. */
  function Streak(ts: seq<Time>): nat {
    if ts == [] then 0
    else if |ts| > 1 && ts[|ts| - 1] - ts[|ts| - 2] <= ACCOUNT_WINDOW then Streak(ts[..|ts| - 1]) + 1
    else 1
  }

  /**
   When the lock set by the failure with index k ends: 15 minutes, doubled with every further failure, at
   most a day.
   */
  function LockEnd(ts: seq<Time>, k: nat): int
    requires k < |ts|
  {
    var n := Streak(ts[..k + 1]);
    if n >= ACCOUNT_FAIL_LIMIT then ts[k] + Min(ACCOUNT_LOCK_BASE * Pow2(n - ACCOUNT_FAIL_LIMIT), MAX_LOCK) else ts[k]
  }

  /** An account is locked at t exactly when some failure of the current run set a lock that still lasts. */
  ghost predicate AccountLocked(ts: seq<Time>, t: Time) {
    exists k | 0 <= k < |ts| :: t < LockEnd(ts, k)
  }

  /** One more attempt: what it does to the record, and what it adds to the locks. */
  lemma AttemptLocks(ts: seq<Time>, at: Time, t: Time)
    requires at <= t
    ensures AccountLocked(ts + [at], t) <==> AccountLocked(ts, t) || t < LockEnd(ts + [at], |ts|)
  {
    var all := ts + [at];
    assert all[..|ts| + 1] == all;
    forall k | 0 <= k < |ts| ensures LockEnd(all, k) == LockEnd(ts, k) {
      assert all[..k + 1] == ts[..k + 1];
    }
    if AccountLocked(ts, t) {
      var k :| 0 <= k < |ts| && t < LockEnd(ts, k);
      assert t < LockEnd(all, k);
    }
    if AccountLocked(all, t) {
      var k :| 0 <= k < |all| && t < LockEnd(all, k);
      assert k < |ts| ==> t < LockEnd(ts, k);
    }
  }

  predicate Summarises(r: AccountRecord, ts: seq<Time>) {
    r.failures == Streak(ts) && r.lastFailure == if ts == [] then 0 else ts[|ts| - 1]
  }

  lemma AttemptRecord(r: AccountRecord, ts: seq<Time>, at: Time, t: Time)
    requires Summarises(r, ts) && at <= t
    ensures Summarises(AccountFailure(r, at), ts + [at])
    ensures t < AccountFailure(r, at).lockedUntil <==> t < r.lockedUntil || t < LockEnd(ts + [at], |ts|)
  {
    var all := ts + [at];
    assert all[..|ts|] == ts && all[..|ts| + 1] == all;
    if Streak(all) >= ACCOUNT_FAIL_LIMIT {
      LockIsCappedDoubling(Streak(all));
    }
  }

  /** The running record summarises the attempts: their streak, the last one, and the lock that ends last. */
  lemma {:induction false} AccountIsItsAttempts(h: History, account: Key, t: Time)
    requires forall k | 0 <= k < |h| :: h[k].Failure? ==> h[k].at <= t
    ensures Summarises(AccountOf(h, account), AttemptsOf(h, account))
    ensures t < AccountOf(h, account).lockedUntil <==> AccountLocked(AttemptsOf(h, account), t)
  {
    if h != [] {
      var init, e := h[..|h| - 1], h[|h| - 1];
      assert forall k | 0 <= k < |init| :: init[k] == h[k];
      AccountIsItsAttempts(init, account, t);
      if e.Failure? && e.account == account && e.counted {
        AttemptLocks(AttemptsOf(init, account), e.at, t);
        AttemptRecord(AccountOf(init, account), AttemptsOf(init, account), e.at, t);
      }
    }
  }

  /** A lock that is over, or the same lock. */
  predicate SameLock(a: Time, b: Time, clock: Time) {
    a == b || (a <= clock && b <= clock)
  }

  /** The stored record, or its absence, stands for the reference record from `clock` on. */
  predicate AccountStands(r: Option<AccountRecord>, ref: AccountRecord, clock: Time) {
    match r
    case None => ref.lockedUntil <= clock && (ref == NEW_ACCOUNT || clock - ref.lastFailure > ACCOUNT_WINDOW)
    case Some(x) =>
      x.failures == ref.failures && x.lastFailure == ref.lastFailure && SameLock(x.lockedUntil, ref.lockedUntil, clock)
  }

  lemma AccountStandsLater(r: Option<AccountRecord>, ref: AccountRecord, clock: Time, now: Time)
    requires AccountStands(r, ref, clock) && clock <= now
    ensures AccountStands(r, ref, now)
  {
  }

  /** A failure keeps the two records in step, also when the stored one starts anew after a sweep. */
  lemma AccountFailureStands(r: Option<AccountRecord>, ref: AccountRecord, now: Time)
    requires AccountStands(r, ref, now) && ref.lastFailure <= now
    requires r.Some? ==> r.value.lastFailure <= now
    ensures AccountStands(Some(AccountFailure(if r.Some? then r.value else NEW_ACCOUNT, now)),
            AccountFailure(ref, now), now)
  {
    if r.None? {
      assert AccountFailure(NEW_ACCOUNT, now) == AccountRecord(1, 0, now);
    }
  }

  /** A swept record could not have mattered any more. */
  lemma SweptAccountStands(r: AccountRecord, ref: AccountRecord, now: Time)
    requires AccountStands(Some(r), ref, now) && Sub(now, r.lastFailure) > RECORD_TTL && now > r.lockedUntil
    ensures AccountStands(None, ref, now)
  {
  }

  // ---------------------------------------------------------------- sources

  /** The times of all failures of a source, in order. */
  function FailuresOf(h: History, source: Key): seq<Time> {
    if h == [] then []
    else
      FailuresOf(h[..|h| - 1], source) +
      match h[|h| - 1]
      case Failure(_, s, at, _) => if s == source then [at] else []
      case Success(_) => []
  }

  predicate Ordered(ts: seq<Time>) {
    forall i, j | 0 <= i < j < |ts| :: ts[i] <= ts[j]
  }

  /** How many of the failures lie within the hour that ends at `now`. */
  function Recent(ts: seq<Time>, now: Time): (n: nat)
    ensures n <= |ts|
  {
    if ts == [] then 0
    else Recent(ts[..|ts| - 1], now) + if now - ts[|ts| - 1] <= IP_WINDOW then 1 else 0
  }

  /** The failure with index k closed an hour with at least IP_FAIL_LIMIT failures. */
  predicate Closes(ts: seq<Time>, k: nat)
    requires k < |ts|
  {
    Recent(ts[..k + 1], ts[k]) >= IP_FAIL_LIMIT
  }

  /** A source is locked at t exactly when a failure in the last 15 minutes closed a full hour. */
  ghost predicate Locked(ts: seq<Time>, t: Time) {
    exists k | 0 <= k < |ts| :: Closes(ts, k) && ts[k] <= t < ts[k] + IP_LOCK
  }

  function LockedUntil(ts: seq<Time>): Time {
    if ts == [] then 0
    else if Closes(ts, |ts| - 1) then Later(LockedUntil(ts[..|ts| - 1]), ts[|ts| - 1] + IP_LOCK)
    else LockedUntil(ts[..|ts| - 1])
  }

  lemma {:induction false} LockedBeforeLockedUntil(ts: seq<Time>, t: Time)
    requires forall i | 0 <= i < |ts| :: ts[i] <= t
    ensures t < LockedUntil(ts) <==> Locked(ts, t)
  {
    if ts != [] {
      var init := ts[..|ts| - 1];
      LockedBeforeLockedUntil(init, t);
      LockedSnoc(ts, t);
    }
  }

  lemma LockedSnoc(ts: seq<Time>, t: Time)
    requires ts != []
    ensures var init, last := ts[..|ts| - 1], ts[|ts| - 1];
            Locked(ts, t) <==> Locked(init, t) || (Closes(ts, |init|) && last <= t < last + IP_LOCK)
  {
    var init := ts[..|ts| - 1];
    forall k | 0 <= k < |init| ensures Closes(init, k) == Closes(ts, k) {
      assert init[..k + 1] == ts[..k + 1];
    }
    if Locked(init, t) {
      var k :| 0 <= k < |init| && Closes(init, k) && init[k] <= t < init[k] + IP_LOCK;
      assert Closes(ts, k) && ts[k] == init[k];
    }
    if Locked(ts, t) {
      var k :| 0 <= k < |ts| && Closes(ts, k) && ts[k] <= t < ts[k] + IP_LOCK;
      assert k < |init| ==> Closes(init, k) && init[k] == ts[k];
    }
  }

  // ---------------------------------------------------------------- the window

  /** The filter loop: keeps the times within the hour that ends at `now`. */
  function Filtered(ts: seq<Time>, now: Time): seq<Time> {
    if ts == [] then []
    else Filtered(ts[..|ts| - 1], now) + if Sub(now, ts[|ts| - 1]) <= IP_WINDOW then [ts[|ts| - 1]] else []
  }

  /** One more round of the loop. */
  lemma FilteredNext(ts: seq<Time>, i: nat, now: Time)
    requires i < |ts|
    ensures Filtered(ts[..i + 1], now) == Filtered(ts[..i], now) + if Sub(now, ts[i]) <= IP_WINDOW then [ts[i]] else []
  {
    assert ts[..i + 1][..i] == ts[..i];
  }

  function Last(ts: seq<Time>, n: nat): seq<Time> {
    if |ts| > n then ts[|ts| - n..] else ts
  }

  /** The stored window after a failure at `now`. */
  function WindowAfter(window: seq<Time>, now: Time): seq<Time> {
    Last(Filtered(window, now) + [now], IP_FAIL_LIMIT)
  }

  /** The window of the reference: the last 50 of the failures within the hour that the last failure closes. */
  function RecentWindow(ts: seq<Time>): seq<Time> {
    if ts == [] then []
    else
      var n := Recent(ts, ts[|ts| - 1]);
      Last(ts, if n < IP_FAIL_LIMIT then n else IP_FAIL_LIMIT)
  }

  /** In an ordered list the recent failures are the last ones. */
  lemma {:induction false} RecentAreLast(ts: seq<Time>, now: Time)
    requires Ordered(ts)
    ensures forall i | 0 <= i < |ts| :: now - ts[i] <= IP_WINDOW <==> i >= |ts| - Recent(ts, now)
  {
    if ts != [] {
      var init, last := ts[..|ts| - 1], ts[|ts| - 1];
      RecentAreLast(init, now);
      assert forall i | 0 <= i < |init| :: ts[i] == init[i] && init[i] <= last;
      if now - last > IP_WINDOW && init != [] {
        assert init[|init| - 1] <= last;
      }
    }
  }

  /** When the last failure is too old, all earlier ones are. */
  lemma NothingRecent(init: seq<Time>, last: Time, now: Time)
    requires Ordered(init) && (init != [] ==> init[|init| - 1] <= last) && now - last > IP_WINDOW
    ensures Recent(init, now) == 0
  {
    RecentAreLast(init, now);
  }

  lemma InitOfOrdered(ts: seq<Time>)
    requires Ordered(ts) && ts != []
    ensures Ordered(ts[..|ts| - 1])
    ensures |ts| > 1 ==> ts[..|ts| - 1][|ts| - 2] <= ts[|ts| - 1]
  {
  }

  lemma SuffixWithLast(ts: seq<Time>, n: nat)
    requires ts != [] && n <= |ts| - 1
    ensures ts[..|ts| - 1][n..] + [ts[|ts| - 1]] == ts[n..]
  {
  }

  /** The loop keeps the last failure. */
  lemma FilterKeeps(ts: seq<Time>, now: Time, r: nat)
    requires ts != [] && r < |ts| && Sub(now, ts[|ts| - 1]) <= IP_WINDOW
    requires Filtered(ts[..|ts| - 1], now) == ts[..|ts| - 1][|ts| - 1 - r..]
    ensures Filtered(ts, now) == ts[|ts| - 1 - r..]
  {
    SuffixWithLast(ts, |ts| - 1 - r);
  }

  /** The loop drops the last failure, and has kept nothing before it. */
  lemma FilterDrops(ts: seq<Time>, now: Time)
    requires ts != [] && Sub(now, ts[|ts| - 1]) > IP_WINDOW && Filtered(ts[..|ts| - 1], now) == []
    ensures Filtered(ts, now) == []
  {
  }

  lemma FilteredStep(ts: seq<Time>, now: Time)
    requires ts != []
    requires var init := ts[..|ts| - 1]; Filtered(init, now) == init[|init| - Recent(init, now)..]
    requires now - ts[|ts| - 1] > IP_WINDOW ==> Recent(ts[..|ts| - 1], now) == 0
    ensures Filtered(ts, now) == ts[|ts| - Recent(ts, now)..]
  {
    if now - ts[|ts| - 1] <= IP_WINDOW {
      FilterKeeps(ts, now, Recent(ts[..|ts| - 1], now));
    } else {
      FilterDrops(ts, now);
    }
  }

  lemma {:induction false} FilteredIsSuffix(ts: seq<Time>, now: Time)
    requires Ordered(ts)
    ensures Filtered(ts, now) == ts[|ts| - Recent(ts, now)..]
  {
    if ts == [] {
      assert Filtered(ts, now) == [];
    } else {
      var init, last := ts[..|ts| - 1], ts[|ts| - 1];
      InitOfOrdered(ts);
      FilteredIsSuffix(init, now);
      if now - last > IP_WINDOW {
        NothingRecent(init, last, now);
      }
      FilteredStep(ts, now);
    }
  }

  /** The window is a suffix of the failures, and as long as it may be. */
  lemma WindowIsSuffix(ts: seq<Time>)
    requires ts != []
    ensures var n := Recent(ts, ts[|ts| - 1]);
            && |RecentWindow(ts)| == (if n < IP_FAIL_LIMIT then n else IP_FAIL_LIMIT)
            && RecentWindow(ts) == ts[|ts| - |RecentWindow(ts)|..]
  {
  }

  lemma OrderedSuffix(ts: seq<Time>, n: nat)
    requires Ordered(ts) && n <= |ts|
    ensures Ordered(ts[n..])
  {
  }

  lemma RecentSnoc(ts: seq<Time>, now: Time)
    ensures Recent(ts + [now], now) == Recent(ts, now) + 1
  {
    assert (ts + [now])[..|ts|] == ts;
  }

  /** Whatever is recent now was recent at the previous failure. */
  lemma {:induction false} RecentShrinks(ts: seq<Time>, before: Time, now: Time)
    requires before <= now
    ensures Recent(ts, now) <= Recent(ts, before)
  {
    if ts != [] {
      RecentShrinks(ts[..|ts| - 1], before, now);
    }
  }

  lemma SuffixOfSuffix(ts: seq<Time>, n: nat, c: nat)
    requires n + c <= |ts|
    ensures ts[n..][|ts| - n - c..] == ts[|ts| - c..]
  {
  }

  lemma OrderedPrefix(ts: seq<Time>, now: Time)
    requires Ordered(ts + [now])
    ensures Ordered(ts) && forall i | 0 <= i < |ts| :: ts[i] <= now
  {
    assert forall i | 0 <= i < |ts| :: ts[i] == (ts + [now])[i];
    assert (ts + [now])[|ts|] == now;
  }

  /** How much of the stored window is still recent. */
  lemma WindowFiltered(ts: seq<Time>, now: Time) returns (c: nat)
    requires Ordered(ts) && ts != [] && ts[|ts| - 1] <= now
    ensures c <= |ts| && Filtered(RecentWindow(ts), now) == ts[|ts| - c..]
    ensures c == Recent(ts, now) || (c == IP_FAIL_LIMIT < Recent(ts, now))
  {
    var w := RecentWindow(ts);
    var n := |ts| - |w|;
    WindowIsSuffix(ts);
    OrderedSuffix(ts, n);
    FilteredIsSuffix(w, now);
    RecentOfSuffix(ts, n, now);
    RecentShrinks(ts, ts[|ts| - 1], now);
    c := Recent(w, now);
    SuffixOfSuffix(ts, n, c);
  }

  /** Trimming to 50 and filtering again lose nothing that the next window needs. */
  lemma WindowRefines(ts: seq<Time>, now: Time)
    requires Ordered(ts + [now])
    ensures WindowAfter(RecentWindow(ts), now) == RecentWindow(ts + [now])
    ensures |RecentWindow(ts + [now])| >= IP_FAIL_LIMIT <==> Closes(ts + [now], |ts|)
  {
    var all := ts + [now];
    assert all[..|ts| + 1] == all;
    RecentSnoc(ts, now);
    WindowIsSuffix(all);
    OrderedPrefix(ts, now);
    if ts == [] {
      assert WindowAfter([], now) == [now];
    } else {
      var c := WindowFiltered(ts, now);
      SuffixSnoc(ts, now, c);
    }
  }

  /** Appending to a suffix and trimming it gives a suffix of the longer list. */
  lemma SuffixSnoc(ts: seq<Time>, now: Time, c: nat)
    requires c <= |ts|
    ensures var k := if c + 1 < IP_FAIL_LIMIT then c + 1 else IP_FAIL_LIMIT;
            Last(ts[|ts| - c..] + [now], IP_FAIL_LIMIT) == (ts + [now])[|ts| + 1 - k..]
  {
  }

  /** Of a suffix, as many are recent as of the whole list, or all of it. */
  lemma RecentOfSuffix(ts: seq<Time>, n: nat, now: Time)
    requires n <= |ts| && Ordered(ts)
    ensures Recent(ts[n..], now) == if Recent(ts, now) <= |ts| - n then Recent(ts, now) else |ts| - n
    decreases |ts|
  {
    if n < |ts| {
      var init := ts[..|ts| - 1];
      assert ts[n..][..|ts| - n - 1] == init[n..];
      RecentOfSuffix(init, n, now);
      RecentAreLast(ts, now);
      RecentAreLast(init, now);
    } else {
      assert ts[n..] == [];
    }
  }

  /** One failure on a source record. */
  function SourceFailure(r: SourceRecord, now: Time): SourceRecord {
    var window := WindowAfter(r.failures, now);
    SourceRecord(window, if |window| >= IP_FAIL_LIMIT then Later(r.lockedUntil, now + IP_LOCK) else r.lockedUntil, now)
  }

  const NEW_SOURCE := SourceRecord([], 0, 0)

  /** The stored record, or its absence, stands for the complete list of failures from `clock` on. */
  predicate SourceStands(r: Option<SourceRecord>, ts: seq<Time>, clock: Time) {
    match r
    case None => LockedUntil(ts) <= clock && (ts == [] || clock - ts[|ts| - 1] > IP_WINDOW)
    case Some(x) =>
      && ts != [] && x.failures == RecentWindow(ts) && x.lastFailure == ts[|ts| - 1]
      && SameLock(x.lockedUntil, LockedUntil(ts), clock)
  }

  lemma SourceFailureStands(r: Option<SourceRecord>, ts: seq<Time>, now: Time)
    requires SourceStands(r, ts, now) && Ordered(ts + [now])
    ensures SourceStands(Some(SourceFailure(if r.Some? then r.value else NEW_SOURCE, now)), ts + [now], now)
  {
    var all := ts + [now];
    assert all[..|ts|] == ts;
    WindowRefines(ts, now);
    OrderedPrefix(ts, now);
    if r.None? {
      RecentAreLast(ts, now);
      RecentSnoc(ts, now);
      WindowIsSuffix(all);
      assert WindowAfter([], now) == [now];
    }
  }

  lemma SweptSourceStands(r: SourceRecord, ts: seq<Time>, now: Time)
    requires SourceStands(Some(r), ts, now) && Sub(now, r.lastFailure) > IP_WINDOW && now > r.lockedUntil
    ensures SourceStands(None, ts, now)
  {
  }

  // ---------------------------------------------------------------- the maps

  type Accounts = map<Key, AccountRecord>
  type Sources = map<Key, SourceRecord>

  function Find<V>(m: map<Key, V>, k: Key): Option<V> {
    if k in m then Some(m[k]) else None
  }

  predicate AccountExpired(r: AccountRecord, now: Time) {
    Sub(now, r.lastFailure) > RECORD_TTL && now > r.lockedUntil
  }

  predicate SourceExpired(r: SourceRecord, now: Time) {
    Sub(now, r.lastFailure) > IP_WINDOW && now > r.lockedUntil
  }

  /** The saturating difference decides like the real one: a day, or an hour, and the lock is over. */
  lemma ExpiredMeans(r: AccountRecord, s: SourceRecord, now: Time)
    ensures AccountExpired(r, now) <==> now > r.lastFailure + 86_400_000_000_000 && now > r.lockedUntil
    ensures SourceExpired(s, now) <==> now > s.lastFailure + 3_600_000_000_000 && now > s.lockedUntil
  {
  }

  function LiveAccounts(m: Accounts, now: Time): Accounts {
    map k | k in m && !AccountExpired(m[k], now) :: m[k]
  }

  function LiveSources(m: Sources, now: Time): Sources {
    map k | k in m && !SourceExpired(m[k], now) :: m[k]
  }

  predicate AccountInPast(r: AccountRecord, clock: Time) {
    r.lastFailure <= clock && r.lockedUntil <= clock + MAX_LOCK
  }

  predicate SourceInPast(ts: seq<Time>, clock: Time) {
    Ordered(ts + [clock]) && LockedUntil(ts) <= clock + IP_LOCK
  }

  ghost predicate AccountsStand(m: Accounts, h: History, clock: Time) {
    forall k :: AccountStands(Find(m, k), AccountOf(h, k), clock) && AccountInPast(AccountOf(h, k), clock)
  }

  ghost predicate SourcesStand(m: Sources, h: History, clock: Time) {
    forall k :: SourceStands(Find(m, k), FailuresOf(h, k), clock) && SourceInPast(FailuresOf(h, k), clock)
  }

  function CountedFailure(m: Accounts, account: Key, now: Time): Accounts {
    m[account := AccountFailure(if account in m then m[account] else NEW_ACCOUNT, now)]
  }

  function SourceFailed(m: Sources, source: Key, now: Time): Sources {
    m[source := SourceFailure(if source in m then m[source] else NEW_SOURCE, now)]
  }

  /** Sweeping the accounts forgets nothing that the history would still show. */
  lemma SweepKeepsAccounts(m: Accounts, h: History, now: Time)
    requires AccountsStand(m, h, now)
    ensures AccountsStand(LiveAccounts(m, now), h, now)
  {
    forall k ensures AccountStands(Find(LiveAccounts(m, now), k), AccountOf(h, k), now) {
      assert AccountStands(Find(m, k), AccountOf(h, k), now);
      if k in m && AccountExpired(m[k], now) {
        SweptAccountStands(m[k], AccountOf(h, k), now);
      }
    }
  }

  lemma SweepKeepsSources(m: Sources, h: History, now: Time)
    requires SourcesStand(m, h, now)
    ensures SourcesStand(LiveSources(m, now), h, now)
  {
    forall k ensures SourceStands(Find(LiveSources(m, now), k), FailuresOf(h, k), now) {
      assert SourceStands(Find(m, k), FailuresOf(h, k), now);
      if k in m && SourceExpired(m[k], now) {
        SweptSourceStands(m[k], FailuresOf(h, k), now);
      }
    }
  }

  lemma TimePasses(accounts: Accounts, sources: Sources, h: History, clock: Time, now: Time)
    requires AccountsStand(accounts, h, clock) && SourcesStand(sources, h, clock) && clock <= now
    ensures AccountsStand(accounts, h, now) && SourcesStand(sources, h, now)
  {
    forall k ensures AccountStands(Find(accounts, k), AccountOf(h, k), now) && AccountInPast(AccountOf(h, k), now) {
      AccountStandsLater(Find(accounts, k), AccountOf(h, k), clock, now);
    }
    forall k ensures SourceStands(Find(sources, k), FailuresOf(h, k), now) && SourceInPast(FailuresOf(h, k), now) {
      assert SourceStands(Find(sources, k), FailuresOf(h, k), clock);
      OrderedPrefix(FailuresOf(h, k), clock);
    }
  }

  lemma FailureKeepsAccounts(m: Accounts, h: History, account: Key, source: Key, now: Time, counted: bool)
    requires AccountsStand(m, h, now)
    ensures var m' := if counted then CountedFailure(m, account, now) else m;
            AccountsStand(m', h + [Failure(account, source, now, counted)], now)
  {
    var m' := if counted then CountedFailure(m, account, now) else m;
    var h' := h + [Failure(account, source, now, counted)];
    assert h'[..|h|] == h;
    forall k ensures AccountStands(Find(m', k), AccountOf(h', k), now) && AccountInPast(AccountOf(h', k), now) {
      assert AccountStands(Find(m, k), AccountOf(h, k), now);
      if k == account && counted {
        AccountFailureStands(Find(m, k), AccountOf(h, k), now);
      }
    }
  }

  lemma FailureIsInPast(ts: seq<Time>, now: Time)
    requires SourceInPast(ts, now)
    ensures SourceInPast(ts + [now], now)
  {
    var all := ts + [now];
    assert all[..|ts|] == ts && all[|ts|] == now;
    OrderedSnoc(all, now);
    LockedUntilSnoc(ts, now);
  }

  lemma OrderedSnoc(ts: seq<Time>, now: Time)
    requires Ordered(ts) && (ts != [] ==> ts[|ts| - 1] <= now)
    ensures Ordered(ts + [now])
  {
    var all := ts + [now];
    forall i, j | 0 <= i < j < |all| ensures all[i] <= all[j] {
      if j == |ts| {
        assert all[j] == now && all[i] == ts[i] && ts[i] <= ts[|ts| - 1];
      } else {
        assert all[i] == ts[i] && all[j] == ts[j];
      }
    }
  }

  lemma LockedUntilSnoc(ts: seq<Time>, now: Time)
    ensures LockedUntil(ts + [now]) <= Later(LockedUntil(ts), now + IP_LOCK)
  {
    assert (ts + [now])[..|ts|] == ts;
  }

  lemma FailuresSnoc(h: History, e: Event, source: Key)
    ensures FailuresOf(h + [e], source) ==
            if e.Failure? && e.source == source then FailuresOf(h, source) + [e.at] else FailuresOf(h, source)
  {
    assert (h + [e])[..|h|] == h;
  }

  lemma FailureKeepsSources(m: Sources, h: History, account: Key, source: Key, now: Time, counted: bool)
    requires SourcesStand(m, h, now)
    ensures SourcesStand(SourceFailed(m, source, now), h + [Failure(account, source, now, counted)], now)
  {
    var m' := SourceFailed(m, source, now);
    var e := Failure(account, source, now, counted);
    forall k ensures SourceStands(Find(m', k), FailuresOf(h + [e], k), now)
        && SourceInPast(FailuresOf(h + [e], k), now) {
      assert SourceStands(Find(m, k), FailuresOf(h, k), now) && SourceInPast(FailuresOf(h, k), now);
      FailuresSnoc(h, e, k);
      if k == source {
        SourceFailureStands(Find(m, k), FailuresOf(h, k), now);
        FailureIsInPast(FailuresOf(h, k), now);
      }
    }
  }

  lemma SuccessKeeps(accounts: Accounts, sources: Sources, h: History, account: Key, clock: Time)
    requires AccountsStand(accounts, h, clock) && SourcesStand(sources, h, clock)
    ensures AccountsStand(accounts - {account}, h + [Success(account)], clock)
    ensures SourcesStand(sources, h + [Success(account)], clock)
  {
    var h' := h + [Success(account)];
    assert h'[..|h|] == h;
    forall k ensures AccountStands(Find(accounts - {account}, k), AccountOf(h', k), clock)
        && AccountInPast(AccountOf(h', k), clock) {
      assert AccountStands(Find(accounts, k), AccountOf(h, k), clock);
    }
    forall k ensures FailuresOf(h', k) == FailuresOf(h, k) {
    }
  }

  function Longer(a: int, b: int): int {
    if a < b then b else a
  }

  /** The refusal that the complete history calls for: the longer of the two remaining locks. */
  function WaitOf(h: History, account: Key, source: Key, now: Time): int {
    Longer(0, Longer(AccountOf(h, account).lockedUntil - now, LockedUntil(FailuresOf(h, source)) - now))
  }

  // ---------------------------------------------------------------- below the ceiling

  /** The accounts that ever failed. */
  function AccountsIn(h: History): set<Key> {
    if h == [] then {}
    else AccountsIn(h[..|h| - 1]) + match h[|h| - 1] case Failure(a, _, _, _) => {a} case Success(_) => {}
  }

  predicate AllCounted(h: History) {
    forall k | 0 <= k < |h| :: h[k].Failure? ==> h[k].counted
  }

  /** All failures of an account since its last success, counted or not. */
  function FailedAttemptsOf(h: History, account: Key): seq<Time> {
    if h == [] then []
    else
      var ts, e := FailedAttemptsOf(h[..|h| - 1], account), h[|h| - 1];
      match e
      case Failure(a, _, at, _) => if a == account then ts + [at] else ts
      case Success(a) => if a == account then [] else ts
  }

  lemma {:induction false} CountedAttemptsAreAll(h: History, account: Key)
    requires AllCounted(h)
    ensures AttemptsOf(h, account) == FailedAttemptsOf(h, account)
  {
    if h != [] {
      assert forall k | 0 <= k < |h| - 1 :: h[..|h| - 1][k] == h[k];
      CountedAttemptsAreAll(h[..|h| - 1], account);
    }
  }

  lemma {:induction false} SmallerSet(a: set<Key>, b: set<Key>)
    requires a <= b
    ensures |a| <= |b|
  {
    if a != {} {
      var x :| x in a;
      SmallerSet(a - {x}, b - {x});
    }
  }

  /** As long as no more accounts failed than the map may hold, there is room for the next record. */
  lemma RoomForAnother(m: Accounts, h: History, e: Event)
    requires m.Keys <= AccountsIn(h) && e.Failure? && e.account !in m && |AccountsIn(h + [e])| <= MAX_RECORDS
    ensures |m| < MAX_RECORDS
  {
    assert (h + [e])[..|h|] == h;
    SmallerSet(m.Keys + {e.account}, AccountsIn(h + [e]));
    assert |m.Keys + {e.account}| == |m.Keys| + 1;
  }

  /** Failing adds at most one account. */
  lemma AccountsInGrows(h: History, e: Event)
    ensures AccountsIn(h) <= AccountsIn(h + [e]) && |AccountsIn(h)| <= |AccountsIn(h + [e])|
    ensures e.Failure? ==> AccountsIn(h + [e]) == AccountsIn(h) + {e.account}
    ensures e.Success? ==> AccountsIn(h + [e]) == AccountsIn(h)
  {
    assert (h + [e])[..|h|] == h;
    SmallerSet(AccountsIn(h), AccountsIn(h + [e]));
  }

  // ---------------------------------------------------------------- one step of the tracker on the values of its maps

  /** The maps stand for the history; up to the ceiling every failure in it was counted. */
  ghost predicate Stands(accounts: Accounts, sources: Sources, h: History, clock: Time) {
    && AccountsStand(accounts, h, clock) && SourcesStand(sources, h, clock)
    && (forall k | 0 <= k < |h| :: h[k].Failure? ==> h[k].at <= clock)
    && accounts.Keys <= AccountsIn(h)
    && (|AccountsIn(h)| <= MAX_RECORDS ==> AllCounted(h))
  }

  /** A failure of an account without a record sweeps a full map first. */
  predicate Sweeps(accounts: Accounts, account: Key) {
    account !in accounts && |accounts| >= MAX_RECORDS
  }

  function SourcesLeft(accounts: Accounts, sources: Sources, account: Key, now: Time): Sources {
    if Sweeps(accounts, account) then LiveSources(sources, now) else sources
  }

  predicate Counted(accounts: Accounts, account: Key, now: Time) {
    account in accounts || |accounts| < MAX_RECORDS || |LiveAccounts(accounts, now)| < MAX_RECORDS
  }

  function AccountsLeft(accounts: Accounts, account: Key, now: Time): Accounts {
    if Sweeps(accounts, account) then LiveAccounts(accounts, now) else accounts
  }

  function AccountsAfter(accounts: Accounts, account: Key, now: Time): Accounts {
    var left := AccountsLeft(accounts, account, now);
    if Counted(accounts, account, now) then CountedFailure(left, account, now) else left
  }

  lemma FailureStands(accounts: Accounts, sources: Sources, h: History, clock: Time, account: Key, source: Key,
      now: Time)
    requires Stands(accounts, sources, h, clock) && clock <= now
    ensures var counted := Counted(accounts, account, now);
            && Stands(AccountsAfter(accounts, account, now),
                      SourceFailed(SourcesLeft(accounts, sources, account, now), source, now),
                      h + [Failure(account, source, now, counted)], now)
            && (|AccountsIn(h + [Failure(account, source, now, counted)])| <= MAX_RECORDS ==> counted)
  {
    var counted := Counted(accounts, account, now);
    var e := Failure(account, source, now, counted);
    var left := AccountsLeft(accounts, account, now);
    TimePasses(accounts, sources, h, clock, now);
    SweepKeepsAccounts(accounts, h, now);
    SweepKeepsSources(sources, h, now);
    FailureKeepsAccounts(left, h, account, source, now, counted);
    FailureKeepsSources(SourcesLeft(accounts, sources, account, now), h, account, source, now, counted);
    AccountsInGrows(h, e);
    if Sweeps(accounts, account) && |AccountsIn(h + [e])| <= MAX_RECORDS {
      RoomForAnother(accounts, h, e);
    }
  }

  lemma SuccessStands(accounts: Accounts, sources: Sources, h: History, clock: Time, account: Key)
    requires Stands(accounts, sources, h, clock)
    ensures Stands(accounts - {account}, sources, h + [Success(account)], clock)
  {
    SuccessKeeps(accounts, sources, h, account, clock);
    AccountsInGrows(h, Success(account));
  }

  lemma SweepStands(accounts: Accounts, sources: Sources, h: History, clock: Time, now: Time)
    requires Stands(accounts, sources, h, clock) && clock <= now
    ensures Stands(LiveAccounts(accounts, now), LiveSources(sources, now), h, now)
  {
    TimePasses(accounts, sources, h, clock, now);
    SweepKeepsAccounts(accounts, h, now);
    SweepKeepsSources(sources, h, now);
  }

  /** The waiting time of the two records is that of the two histories. */
  lemma WaitStands(r: Option<AccountRecord>, ref: AccountRecord, s: Option<SourceRecord>, ts: seq<Time>, now: Time)
    requires AccountStands(r, ref, now) && AccountInPast(ref, now) && SourceStands(s, ts, now) && SourceInPast(ts, now)
    ensures var a := if r.Some? then Longer(0, Sub(r.value.lockedUntil, now)) else 0;
            var b := if s.Some? then Longer(a, Sub(s.value.lockedUntil, now)) else a;
            b == Longer(0, Longer(ref.lockedUntil - now, LockedUntil(ts) - now))
  {
  }

  /** What the maps answer is what the history calls for. */
  lemma AnswerStands(accounts: Accounts, sources: Sources, h: History, clock: Time, account: Key, source: Key,
      now: Time)
    requires Stands(accounts, sources, h, clock) && clock <= now
    ensures var a := if account in accounts then Longer(0, Sub(accounts[account].lockedUntil, now)) else 0;
            var b := if source in sources then Longer(a, Sub(sources[source].lockedUntil, now)) else a;
            && b == WaitOf(h, account, source, now)
            && (b <= 0 <==> !AccountLocked(AttemptsOf(h, account), now) && !Locked(FailuresOf(h, source), now))
    ensures |AccountsIn(h)| <= MAX_RECORDS ==> AttemptsOf(h, account) == FailedAttemptsOf(h, account)
  {
    TimePasses(accounts, sources, h, clock, now);
    assert AccountStands(Find(accounts, account), AccountOf(h, account), now);
    assert SourceStands(Find(sources, source), FailuresOf(h, source), now);
    WaitStands(Find(accounts, account), AccountOf(h, account), Find(sources, source), FailuresOf(h, source), now);
    WaitMeansLocked(h, account, source, now);
    if |AccountsIn(h)| <= MAX_RECORDS {
      CountedAttemptsAreAll(h, account);
    }
  }

  lemma WaitMeansLocked(h: History, account: Key, source: Key, now: Time)
    requires SourceInPast(FailuresOf(h, source), now) && forall k | 0 <= k < |h| :: h[k].Failure? ==> h[k].at <= now
    ensures WaitOf(h, account, source, now) <= 0 <==>
              !AccountLocked(AttemptsOf(h, account), now) && !Locked(FailuresOf(h, source), now)
  {
    OrderedPrefix(FailuresOf(h, source), now);
    LockedBeforeLockedUntil(FailuresOf(h, source), now);
    AccountIsItsAttempts(h, account, now);
  }
}
