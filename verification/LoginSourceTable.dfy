/** The map of the sources. Every source has a record and a buffer of its own. */
module LoginSourceTable {
  import opened LoginLimit
  import opened LoginHistory
  import opened LoginSource

  /** The record and its buffer belong to this key alone, and have this value. */
  ghost predicate Holds(s: Source, k: Key, value: SourceRecord, owner: map<object, Key>)
    reads s, s.buf
  {
    s in owner && owner[s] == k && s.buf in owner && owner[s.buf] == k && s.Valid() && s.Value() == value
  }

  lemma HoldsInLarger(s: Source, k: Key, value: SourceRecord, owner: map<object, Key>, larger: map<object, Key>)
    requires Holds(s, k, value, owner) && forall o | o in owner :: o in larger && larger[o] == owner[o]
    ensures Holds(s, k, value, larger)
  {
  }

  class SourceTable {
    var records: map<Key, Source>
    ghost var owner: map<object, Key>  // whose record, and whose buffer
    ghost var table: Sources           // the records as values

    ghost predicate Owned()
      reads this, owner.Keys
    {
      && this !in owner && records.Keys == table.Keys
      && forall k | k in records :: records[k] in owner && records[k].buf in owner
          && Holds(records[k], k, table[k], owner)
    }

    constructor ()
      ensures Owned() && table == map[] && owner == map[]
    {
      records, owner, table := map[], map[], map[];
    }

    function LockedUntil(source: Key): Time
      requires source in records
      reads this, records[source]
    {
      records[source].lockedUntil
    }

    /** A source without failures gets a record. */
    method Insert(source: Key)
      requires Owned() && source !in records
      modifies this
      ensures Owned() && source in records && table == old(table)[source := NEW_SOURCE]
      ensures forall o | o in owner :: o in old(owner) || fresh(o)
    {
      var s := new Source();
      ghost var before := owner;
      records, table := records[source := s], table[source := NEW_SOURCE];
      owner := owner[s := source][s.buf := source];
      forall k | k in records && k != source ensures Holds(records[k], k, table[k], owner) {
        HoldsInLarger(records[k], k, table[k], before, owner);
      }
    }

    /** One more failure of a source that has a record. */
    method Extend(source: Key, now: Time)
      requires Owned() && source in records
      modifies this`owner, this`table, records[source], records[source].buf
      ensures Owned() && table == old(table)[source := SourceFailure(old(table)[source], now)]
      ensures forall o | o in owner :: o in old(owner) || fresh(o)
    {
      var s := records[source];
      ghost var before := owner;
      assert Holds(s, source, table[source], before);
      s.Fail(now);
      forall k | k in records && k != source ensures Holds(records[k], k, table[k], before) {
        var o := records[k];
        assert old(Holds(o, k, table[k], before));
        assert o != s && o.buf == old(o.buf) && o.buf != old(s.buf);
        assert o.buf[..] == old(o.buf[..]);
      }
      assert s.buf in before || fresh(s.buf);
      Adopt(source, SourceFailure(table[source], now));
    }

    /** The record of a source has a new value, and perhaps a new buffer. */
    ghost method Adopt(source: Key, value: SourceRecord)
      requires this !in owner && records.Keys == table.Keys && source in records
      requires forall k | k in records && k != source ::
               records[k].buf in owner && Holds(records[k], k, table[k], owner)
      requires records[source] in owner && owner[records[source]] == source
      requires records[source].Valid() && records[source].Value() == value
      requires records[source].buf in owner ==> owner[records[source].buf] == source
      modifies this`owner, this`table
      ensures Owned() && table == old(table)[source := value]
      ensures forall o | o in owner :: o in old(owner) || o == records[source].buf
    {
      ghost var before := owner;
      owner := owner[records[source].buf := source];
      table := table[source := value];
      forall k | k in records && k != source ensures Holds(records[k], k, table[k], owner) {
        HoldsInLarger(records[k], k, table[k], before, owner);
      }
    }

    /** One failure, with or without a record before it. */
    method Fail(source: Key, now: Time)
      requires Owned()
      modifies this, owner.Keys
      ensures Owned()
      ensures forall o | o in owner :: o in old(owner) || fresh(o)
      ensures table == SourceFailed(old(table), source, now)
    {
      if source !in records {
        FailedAnew(table, source, now);
        Insert(source);
      }
      Extend(source, now);
    }

    /** Drops the records that are expired. */
    method Sweep(now: Time)
      requires Owned()
      modifies this`records, this`table
      ensures Owned() && table == LiveSources(old(table), now)
    {
      SweepEnds(table, now);
      var todo := records.Keys;
      while todo != {}
        invariant Owned() && todo <= table.Keys
        invariant table == Swept(old(table), todo, now)
        decreases todo
      {
        var key :| key in todo;
        SweepOne(old(table), todo, key, now);
        todo := todo - {key};
        var s := records[key];
        assert Holds(s, key, table[key], owner);
        if Sub(now, s.lastFailure) > IP_WINDOW && now > s.lockedUntil {
          Remove(key);
        }
      }
    }

    method Remove(key: Key)
      requires Owned() && key in records
      modifies this`records, this`table
      ensures Owned() && table == old(table) - {key}
    {
      records, table := records - {key}, table - {key};
    }
  }

  /** What is left while these keys have still to be looked at. */
  function Swept(m: Sources, todo: set<Key>, now: Time): Sources {
    map k | k in m && (k in todo || !SourceExpired(m[k], now)) :: m[k]
  }

  lemma SweepEnds(m: Sources, now: Time)
    ensures Swept(m, m.Keys, now) == m && Swept(m, {}, now) == LiveSources(m, now)
  {
  }

  lemma FailedAnew(m: Sources, source: Key, now: Time)
    requires source !in m
    ensures m[source := NEW_SOURCE][source := SourceFailure(NEW_SOURCE, now)] == SourceFailed(m, source, now)
  {
  }

  lemma SweepOne(m: Sources, todo: set<Key>, key: Key, now: Time)
    requires key in todo && key in m
    ensures Swept(m, todo - {key}, now) == if SourceExpired(m[key], now) then Swept(m, todo, now) - {key}
            else Swept(m, todo, now)
  {
  }
}
