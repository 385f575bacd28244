/** The record of one source: its failures in a slice that is filtered, extended and trimmed in place. */
module LoginSource {
  import opened LoginLimit
  import opened LoginHistory

  /** The filter loop: writes what it keeps over the part of the slice that it has already read. */
  method KeepRecent(buf: array<Time>, lo: nat, hi: nat, now: Time) returns (kept: nat)
    requires lo <= hi <= buf.Length
    modifies buf
    ensures lo + kept <= hi && buf[lo..lo + kept] == Filtered(old(buf[lo..hi]), now)
  {
    ghost var was := buf[lo..hi];
    var w, r := lo, lo;
    while r < hi
      invariant lo <= w <= r <= hi
      invariant buf[lo..w] == Filtered(was[..r - lo], now)
      invariant forall j | r <= j < hi :: buf[j] == was[j - lo]
    {
      FilteredNext(was, r - lo, now);
      var ts := buf[r];
      if Sub(now, ts) <= IP_WINDOW {
        buf[w] := ts;
        assert buf[lo..w + 1] == buf[lo..w] + [ts];
        w := w + 1;
      }
      r := r + 1;
    }
    assert was[..r - lo] == was;
    kept := w - lo;
  }

  /** The slice `failures` is buf[first..first + count]; what lies behind it is spare capacity. */
  class Source {
    var buf: array<Time>
    var first: nat
    var count: nat
    var lockedUntil: Time
    var lastFailure: Time

    ghost predicate Valid()
      reads this
    {
      first + count <= buf.Length
    }

    ghost function Window(): seq<Time>
      requires Valid()
      reads this, buf
    {
      buf[first..first + count]
    }

    ghost function Value(): SourceRecord
      requires Valid()
      reads this, buf
    {
      SourceRecord(Window(), lockedUntil, lastFailure)
    }

    constructor ()
      ensures Valid() && Value() == NEW_SOURCE && fresh(buf)
    {
      buf := new Time[0];
      first, count, lockedUntil, lastFailure := 0, 0, 0, 0;
    }

    /** Keeps the recent failures. */
    method Filter(now: Time)
      requires Valid()
      modifies this`count, buf
      ensures Valid() && Window() == Filtered(old(Window()), now)
    {
      count := KeepRecent(buf, first, first + count, now);
    }

    /** Appends in place if there is capacity, and to a larger copy otherwise. */
    method Append(now: Time)
      requires Valid()
      modifies this`buf, this`first, this`count, buf
      ensures Valid() && Window() == old(Window()) + [now]
      ensures buf == old(buf) || fresh(buf)
    {
      if first + count == buf.Length {
        var larger := new Time[2 * count + 1];
        forall k | 0 <= k < count {
          larger[k] := buf[first + k];
        }
        assert larger[..count] == buf[first..first + count];
        buf, first := larger, 0;
      }
      buf[first + count] := now;
      count := count + 1;
    }

    /** Keeps the last points by moving the start of the slice. */
    method Trim()
      requires Valid()
      modifies this`first, this`count
      ensures Valid() && Window() == Last(old(Window()), IP_FAIL_LIMIT)
    {
      if count > IP_FAIL_LIMIT {
        first, count := first + (count - IP_FAIL_LIMIT), IP_FAIL_LIMIT;
      }
    }

    /** The slice after a failure at `now`. */
    method Slide(now: Time)
      requires Valid()
      modifies this`buf, this`first, this`count, buf
      ensures Valid() && Window() == WindowAfter(old(Window()), now)
      ensures buf == old(buf) || fresh(buf)
    {
      Filter(now);
      Append(now);
      Trim();
    }

    /** A full slice locks, and a lock never moves backwards. */
    method Lock(now: Time)
      requires Valid()
      modifies this`lockedUntil
      ensures lockedUntil == if |Window()| >= IP_FAIL_LIMIT then Later(old(lockedUntil), now + IP_LOCK)
              else old(lockedUntil)
    {
      if count >= IP_FAIL_LIMIT {
        var until := now + IP_LOCK;
        if until > lockedUntil {
          lockedUntil := until;
        }
      }
    }

    /** One more failure: the slice, the time, and the lock if the slice is full. */
    method Fail(now: Time)
      requires Valid()
      modifies this, buf
      ensures Valid() && Value() == SourceFailure(old(Value()), now)
      ensures buf == old(buf) || fresh(buf)
    {
      Slide(now);
      Lock(now);
      lastFailure := now;
    }
  }
}
