/** The tracker of the login limiter: its two maps, swept and unswept, answer like the complete history would. */
module LoginTracker {
  import opened Common
  import opened LoginLimit
  import opened LoginHistory
  import opened LoginSourceTable

  class Tracker {
    var accounts: Accounts
    const sources: SourceTable
    ghost var history: History
    ghost var clock: Time

    ghost predicate Owned()
      reads sources, sources.owner.Keys
    {
      this !in sources.owner && sources.Owned()
    }

    ghost predicate Valid()
      reads this, sources, sources.owner.Keys
    {
      Owned() && Stands(accounts, sources.table, history, clock)
    }

    constructor ()
      ensures Valid() && history == [] && clock == 0 && fresh(sources)
    {
      accounts, history, clock := map[], [], 0;
      sources := new SourceTable();
    }

    /**
     Answers from the maps what the complete history calls for; as long as no more accounts failed than
     the map may hold, every failure is part of that history.
     */
    method Check(account: Key, source: Key, now: Time) returns (ok: bool, wait: int)
      requires Valid() && clock <= now
      ensures wait == WaitOf(history, account, source, now)
      ensures ok <==> !AccountLocked(AttemptsOf(history, account), now) && !Locked(FailuresOf(history, source), now)
      ensures |AccountsIn(history)| <= MAX_RECORDS ==>
              AttemptsOf(history, account) == FailedAttemptsOf(history, account)
    {
      AnswerStands(accounts, sources.table, history, clock, account, source, now);
      wait := 0;
      if account in accounts {
        var d := Sub(accounts[account].lockedUntil, now);
        if d > wait {
          wait := d;
        }
      }
      if source in sources.records {
        var d := Sub(sources.LockedUntil(source), now);
        if d > wait {
          wait := d;
        }
      }
      ok := wait <= 0;
    }

    /** Counts a failure; the account is left out only when the map is full of live records. */
    method RecordFailure(account: Key, source: Key, now: Time) returns (counted: bool)
      requires Valid() && clock <= now
      modifies this, sources, sources.owner.Keys
      ensures Valid()
      ensures forall o | o in sources.owner :: o in old(sources.owner) || fresh(o)
      ensures clock == now && history == old(history) + [Failure(account, source, now, counted)]
      ensures counted <==> account in old(accounts) || |old(accounts)| < MAX_RECORDS
                           || |LiveAccounts(old(accounts), now)| < MAX_RECORDS
      ensures |AccountsIn(history)| <= MAX_RECORDS ==> counted
    {
      FailureStands(accounts, sources.table, history, clock, account, source, now);
      counted := Record(account, source, now);
      Remember(Failure(account, source, now, counted), now);
    }

    ghost method Remember(e: Event, now: Time)
      requires Owned()
      modifies this`history, this`clock
      ensures Owned() && history == old(history) + [e] && clock == now
    {
      history, clock := history + [e], now;
    }

    /** First the account, then the source. */
    method Record(account: Key, source: Key, now: Time) returns (counted: bool)
      requires Owned()
      modifies this`accounts, sources, sources.owner.Keys
      ensures Owned()
      ensures forall o | o in sources.owner :: o in old(sources.owner) || fresh(o)
      ensures sources.table == SourceFailed(SourcesLeft(old(accounts), old(sources.table), account, now), source, now)
      ensures counted == Counted(old(accounts), account, now)
      ensures accounts == AccountsAfter(old(accounts), account, now)
    {
      counted := RecordAccountFailure(account, now);
      sources.Fail(source, now);
    }

    /** A success clears the account and keeps the source history. */
    method RecordSuccess(account: Key)
      requires Valid()
      modifies this`accounts, this`history
      ensures Valid() && clock == old(clock) && history == old(history) + [Success(account)]
    {
      SuccessStands(accounts, sources.table, history, clock, account);
      accounts := accounts - {account};
      history := history + [Success(account)];
    }

    /** The record to count on, if there is one or room for one; a full map is swept first. */
    method FindRecord(account: Key, now: Time) returns (r: Option<AccountRecord>)
      requires Owned()
      modifies this`accounts, sources`records, sources`table
      ensures Owned()
      ensures sources.table == SourcesLeft(old(accounts), old(sources.table), account, now)
      ensures accounts == AccountsLeft(old(accounts), account, now)
      ensures r == if !Counted(old(accounts), account, now) then None
                   else Some(if account in accounts then accounts[account] else NEW_ACCOUNT)
    {
      if account in accounts {
        return Some(accounts[account]);
      }
      if |accounts| >= MAX_RECORDS {
        SweepLocked(now);
        if |accounts| >= MAX_RECORDS {
          return None;
        }
      }
      return Some(NEW_ACCOUNT);
    }

    method RecordAccountFailure(account: Key, now: Time) returns (counted: bool)
      requires Owned()
      modifies this`accounts, sources`records, sources`table
      ensures Owned()
      ensures sources.table == SourcesLeft(old(accounts), old(sources.table), account, now)
      ensures counted == Counted(old(accounts), account, now)
      ensures accounts == AccountsAfter(old(accounts), account, now)
    {
      var found := FindRecord(account, now);
      if found.None? {
        return false;
      }
      var r := CountOn(found.value, now);
      accounts := accounts[account := r];
      return true;
    }

    /** The steps on the record: window, counter, time, lock. */
    static method CountOn(before: AccountRecord, now: Time) returns (r: AccountRecord)
      ensures r == AccountFailure(before, now)
    {
      r := before;
      if Sub(now, r.lastFailure) > ACCOUNT_WINDOW {
        r := r.(failures := 0);
      }
      r := r.(failures := r.failures + 1, lastFailure := now);
      if r.failures >= ACCOUNT_FAIL_LIMIT {
        LockIsCappedDoubling(r.failures);
        var until := now + LockDuration(r.failures);
        if until > r.lockedUntil {
          r := r.(lockedUntil := until);
        }
      }
    }

    /** A tick of the sweeper: records go, the history that the answers follow does not change. */
    method SweepTick(now: Time)
      requires Valid() && clock <= now
      modifies this`accounts, sources`records, sources`table, this`clock
      ensures Valid() && clock == now && history == old(history)
      ensures accounts == LiveAccounts(old(accounts), now) && sources.table == LiveSources(old(sources.table), now)
    {
      SweepStands(accounts, sources.table, history, clock, now);
      SweepLocked(now);
      clock := now;
    }

    method SweepLocked(now: Time)
      requires Owned()
      modifies this`accounts, sources`records, sources`table
      ensures Owned()
      ensures accounts == LiveAccounts(old(accounts), now) && sources.table == LiveSources(old(sources.table), now)
    {
      SweepAccounts(now);
      sources.Sweep(now);
    }

    method SweepAccounts(now: Time)
      modifies this`accounts
      ensures accounts == LiveAccounts(old(accounts), now)
    {
      var todo := accounts.Keys;
      while todo != {}
        invariant todo <= old(accounts).Keys
        invariant accounts == map k | k in old(accounts) && (k in todo || !AccountExpired(old(accounts)[k], now)) ::
                                old(accounts)[k]
        decreases todo
      {
        var key :| key in todo;
        todo := todo - {key};
        if AccountExpired(accounts[key], now) {
          accounts := accounts - {key};
        }
      }
    }
  }
}
