/**
 Beginning and finishing one operation as one process runs it, statement by statement, against the
 state machine of all processes. The begin is not interrupted here; what interruptions do is the
 subject of the state machine.
 */
module GuardedOperation {
  import opened Common
  import opened OperationGuard

  /** Whether the database serves each statement, in the order of asking. */
  datatype Answers = Answers(read: bool, counted: bool, revived: bool, taken: bool, inserted: bool, logged: bool,
                             givenBack: bool)
  {
    predicate AllServed() { read && counted && revived && taken && inserted && logged }
  }

  datatype Why = OtherAction | FailedBefore | StillFenced | ActiveHere | NotFree | IdInUse | NotServed

  datatype Begun = Claimed(token: Token) | Replay(token: Token) | Denied(why: Why)

  predicate Succeeded(rs: seq<Record>, caller: Option<CallerRef>, action: Action) {
    && caller.Some? && Lookup(rs, caller.value).Some?
    && var x := Lookup(rs, caller.value).value; x.action == action && x.state.SucceededState?
  }

  predicate NewOrLeftRunning(rs: seq<Record>, caller: Option<CallerRef>, action: Action) {
    caller.Some? && Lookup(rs, caller.value).Some? ==>
      var x := Lookup(rs, caller.value).value; x.action == action && x.state.RunningState?
  }

  ghost predicate NothingBegins(s: State) {
    forall x | x in s.requests :: !MidBegin(s, x)
  }

  lemma {:induction false} Snoc(s: State, es: seq<Event>, e: Event)
    requires AtomicRun(s, es) && Legal(s, es) && Enabled(After(s, es), e) && Uninterrupted(After(s, es), e)
    ensures AtomicRun(s, es + [e]) && Legal(s, es + [e]) && After(s, es + [e]) == Step(After(s, es), e)
    decreases es
  {
    if es == [] {
      assert es + [e] == [e] && [e][1..] == [];
    } else {
      assert (es + [e])[1..] == es[1..] + [e];
      Snoc(Step(s, es[0]), es[1..], e);
    }
  }

  class Service {
    const process: ProcessId
    var busy: Option<Token>      // the column busy_operation
    var records: seq<Record>     // the idempotency table of the instance
    var active: bool             // whether activeOperations has the instance
    ghost const start: State
    ghost var trace: seq<Event>
    ghost var shadow: State

    ghost predicate Tracks()
      reads this
    {
      && AtomicRun(start, trace) && Legal(start, trace) && After(start, trace) == shadow
      && shadow.busy == busy && shadow.records == records && (active <==> process in shadow.memory)
    }

    /** The state machine takes the step that the code has just taken. */
    ghost method Follow(e: Event)
      requires AtomicRun(start, trace) && Legal(start, trace) && After(start, trace) == shadow
      requires Enabled(shadow, e) && Uninterrupted(shadow, e)
      modifies this`trace, this`shadow
      ensures AtomicRun(start, trace) && Legal(start, trace) && After(start, trace) == shadow
      ensures shadow == Step(old(shadow), e)
    {
      Snoc(start, trace, e);
      trace := trace + [e];
      shadow := Step(shadow, e);
    }

    /** The request is the only one between its lookup and its claim, and has come this far. */
    ghost predicate At(q: RequestId, caller: Option<CallerRef>, action: Action, pc: Pc)
      reads this
    {
      && q in shadow.requests && shadow.requests[q] == Request(process, caller, action, pc)
      && forall x | x in shadow.requests && x != q :: !MidBegin(shadow, x)
    }

    constructor (process: ProcessId, s: State)
      requires NothingBegins(s)
      ensures Tracks() && shadow == start == s && this.process == process
    {
      this.process, busy, records, active := process, s.busy, s.records, process in s.memory;
      start, trace, shadow := s, [], s;
    }

    /** The rollback of a claim. */
    method RollBack(q: RequestId, caller: Option<CallerRef>, action: Action, token: Token, ok: bool)
      requires Tracks() && At(q, caller, action, GiveBack(token))
      modifies this`busy, this`active, this`trace, this`shadow
      ensures Tracks() && At(q, caller, action, Over) && !active
      ensures busy == if ok && old(busy) == Some(token) then None else old(busy)
    {
      if ok && busy == Some(token) {
        busy := None;
      }
      active := false;
      Follow(Go(q, ok));
    }

    method EnterActive(q: RequestId, caller: Option<CallerRef>, action: Action, reuse: Option<Token>)
      returns (entered: bool, token: Token)
      requires Tracks() && At(q, caller, action, EnterMemory(reuse))
      modifies this`active, this`trace, this`shadow
      ensures Tracks() && active && entered == !old(active) && token == (if reuse.Some? then reuse.value else q)
      ensures At(q, caller, action, if entered then TakeFence(token, reuse.Some?) else Over)
    {
      token := if reuse.Some? then reuse.value else q;
      entered := !active;
      active := true;
      Follow(Go(q, true));
    }

    /** The compare-and-set on the column. */
    method SetBusy(q: RequestId, caller: Option<CallerRef>, action: Action, token: Token, reused: bool, ok: bool)
      returns (taken: bool)
      requires Tracks() && active && At(q, caller, action, TakeFence(token, reused))
      modifies this`busy, this`active, this`trace, this`shadow
      ensures Tracks() && taken == (ok && old(busy) == None) && active == taken
      ensures At(q, caller, action, if !taken then Over else if caller.Some? && !reused then InsertRecord(token)
              else LogStart(token))
      ensures busy == if taken then Some(token) else old(busy)
    {
      taken := ok && busy == None;
      if taken {
        busy := Some(token);
      } else {
        active := false;
      }
      Follow(Go(q, ok));
    }

    /** The insert under the unique index. */
    method Insert(q: RequestId, caller: CallerRef, action: Action, token: Token, ok: bool) returns (inserted: bool)
      requires Tracks() && At(q, Some(caller), action, InsertRecord(token))
      modifies this`records, this`trace, this`shadow
      ensures Tracks() && inserted == (ok && !Duplicate(old(records), caller, action))
      ensures At(q, Some(caller), action, if inserted then LogStart(token) else GiveBack(token))
      ensures records == if inserted then old(records) + [Record(caller, action, token, RunningState)] else old(records)
    {
      inserted := ok && !Duplicate(records, caller, action);
      if inserted {
        records := records + [Record(caller, action, token, RunningState)];
      }
      Follow(Go(q, ok));
    }

    /** The log of the start, or the rollback. */
    method WriteLog(q: RequestId, caller: Option<CallerRef>, action: Action, token: Token, a: Answers)
        returns (started: bool)
      requires Tracks() && At(q, caller, action, LogStart(token)) && active && busy == Some(token)
      modifies this`busy, this`active, this`trace, this`shadow
      ensures Tracks() && started == a.logged
      ensures At(q, caller, action, if started then Body(token) else Over)
      ensures if started then active && busy == Some(token) else !active && (a.givenBack ==> busy == None)
    {
      Follow(Go(q, a.logged));
      if !a.logged {
        RollBack(q, caller, action, token, a.givenBack);
      }
      started := a.logged;
    }

    /** With the fence taken: the record, if there is a caller id without one, and the log. */
    method Register(q: RequestId, caller: Option<CallerRef>, action: Action, token: Token, reused: bool, a: Answers)
        returns (r: Begun)
      requires Tracks() && active && busy == Some(token)
      requires At(q, caller, action, if caller.Some? && !reused then InsertRecord(token) else LogStart(token))
      modifies this`busy, this`active, this`records, this`trace, this`shadow
      ensures Tracks() && (r.Claimed? ==> r.token == token) && !r.Replay? && old(records) <= records
      ensures At(q, caller, action, if r.Claimed? then Body(token) else Over)
      ensures if r.Claimed? then active && busy == Some(token) else !active && (a.givenBack ==> busy == None)
      ensures a.inserted && a.logged && (caller.None? || reused || !Duplicate(old(records), caller.value, action)) ==>
                r.Claimed?
    {
      var ok := true;
      if caller.Some? && !reused {
        ok := Insert(q, caller.value, action, token, a.inserted);
        if !ok {
          RollBack(q, caller, action, token, a.givenBack);
          return Denied(IdInUse);
        }
      }
      ok := WriteLog(q, caller, action, token, a);
      return if ok then Claimed(token) else Denied(NotServed);
    }

    /** Fence, record and log, in this order; a failure after the fence gives it back. */
    method ClaimFence(q: RequestId, caller: Option<CallerRef>, action: Action, reuse: Option<Token>, a: Answers)
        returns (r: Begun)
      requires Tracks() && At(q, caller, action, EnterMemory(reuse))
      modifies this`busy, this`active, this`records, this`trace, this`shadow
      ensures Tracks() && !r.Replay? && old(records) <= records
      ensures At(q, caller, action, if r.Claimed? then Body(r.token) else Over)
      ensures r.Claimed? ==> !old(active) && active && old(busy) == None && busy == Some(r.token)
      ensures r.Claimed? ==> r.token == if reuse.Some? then reuse.value else q
      ensures !r.Claimed? && a.givenBack ==> busy == old(busy) && active == old(active)
      ensures a.AllServed() && (caller.Some? && reuse.None? ==> !Duplicate(old(records), caller.value, action)) ==>
                (r.Claimed? <==> !old(active) && old(busy) == None)
    {
      var entered, token := EnterActive(q, caller, action, reuse);
      if !entered {
        return Denied(ActiveHere);
      }
      var taken := SetBusy(q, caller, action, token, reuse.Some?, a.taken);
      if !taken {
        return Denied(NotFree);
      }
      r := Register(q, caller, action, token, reuse.Some?, a);
    }

    method CountFence(q: RequestId, caller: Option<CallerRef>, action: Action, token: Token, ok: bool)
        returns (refusal: Option<Why>)
      requires Tracks() && At(q, caller, action, Pc.CountFence(token))
      modifies this`trace, this`shadow
      ensures Tracks() && At(q, caller, action, if refusal.None? then ReviveRecord(token) else Over)
      ensures refusal.None? <==> ok && busy != Some(token)
      ensures refusal.Some? ==> refusal == Some(NotServed) || (refusal == Some(StillFenced) && busy == Some(token))
    {
      Follow(Go(q, ok));
      refusal := if !ok then Some(NotServed) else if busy == Some(token) then Some(StillFenced) else None;
    }

    /** The record of the caller id, and whether its fence is still held. */
    method LookUp(q: RequestId, caller: CallerRef, action: Action, a: Answers)
        returns (r: Option<Begun>, reuse: Option<Token>)
      requires Tracks() && At(q, Some(caller), action, ReadRecord)
      modifies this`trace, this`shadow
      ensures Tracks()
      ensures At(q, Some(caller), action,
                 if r.None? then if reuse.Some? then ReviveRecord(reuse.value) else EnterMemory(None)
                 else if r.value.Replay? then Replayed(r.value.token) else Over)
      ensures r.Some? && r.value.Replay? <==> a.read && Succeeded(records, Some(caller), action)
      ensures r == None ==> NewOrLeftRunning(records, Some(caller), action)
      ensures r == None ==> (reuse == None <==> Lookup(records, caller) == None)
      ensures a.read && a.counted && busy == None && NewOrLeftRunning(records, Some(caller), action) ==> r == None
      ensures r.Some? ==> !r.value.Claimed?
      ensures r == Some(Denied(OtherAction)) <==>
              a.read && Lookup(records, caller).Some? && Lookup(records, caller).value.action != action
    {
      reuse := None;
      Follow(Go(q, a.read));
      if !a.read {
        return Some(Denied(NotServed)), None;
      }
      var existing := Lookup(records, caller);
      if existing.None? {
        return None, None;
      }
      var record := existing.value;
      if record.action != action {
        return Some(Denied(OtherAction)), None;
      }
      if record.state.SucceededState? {
        return Some(Replay(record.token)), None;
      }
      if record.state.FailedState? {
        return Some(Denied(FailedBefore)), None;
      }
      var refusal := CountFence(q, Some(caller), action, record.token, a.counted);
      if refusal.Some? {
        return Some(Denied(refusal.value)), None;
      }
      return None, Some(record.token);
    }

    /** The record is written back as running before its token is claimed again. */
    method Revive(q: RequestId, caller: CallerRef, action: Action, token: Token, ok: bool)
      requires Tracks() && At(q, Some(caller), action, ReviveRecord(token))
      modifies this`records, this`trace, this`shadow
      ensures Tracks() && At(q, Some(caller), action, if ok then EnterMemory(Some(token)) else Over)
      ensures records == if ok then SetByToken(old(records), token, RunningState) else old(records)
    {
      if ok {
        records := SetByToken(records, token, RunningState);
      }
      Follow(Go(q, ok));
    }

    /** What an earlier request with this caller id decides; None if it is left to claim. */
    method Resolve(q: RequestId, caller: CallerRef, action: Action, a: Answers)
        returns (r: Option<Begun>, reuse: Option<Token>)
      requires Tracks() && At(q, Some(caller), action, ReadRecord)
      modifies this`records, this`trace, this`shadow
      ensures Tracks()
      ensures At(q, Some(caller), action,
                 if r.None? then EnterMemory(reuse) else if r.value.Replay? then Replayed(r.value.token) else Over)
      ensures r.Some? ==> !r.value.Claimed? && (r.value.Replay? ==> records == old(records))
      ensures r.Some? && r.value.Replay? <==> a.read && Succeeded(old(records), Some(caller), action)
      ensures r == None ==> NewOrLeftRunning(old(records), Some(caller), action)
      ensures r == None && reuse == None ==> Lookup(records, caller) == None && records == old(records)
      ensures a.read && a.counted && a.revived && busy == None ==>
                NewOrLeftRunning(old(records), Some(caller), action) ==> r == None
    {
      r, reuse := LookUp(q, caller, action, a);
      if r.None? && reuse.Some? {
        Revive(q, caller, action, reuse.value, a.revived);
        if !a.revived {
          return Some(Denied(NotServed)), None;
        }
      }
    }

    /**
     The whole begin. It claims exactly when the instance is free and the caller id is new or was left
     running, replays exactly a success of the same action, and otherwise leaves the fence as it was.
     */
    method BeginOperation(q: RequestId, caller: Option<CallerRef>, action: Action, a: Answers) returns (r: Begun)
      requires Tracks() && NothingBegins(shadow) && q !in shadow.requests
      modifies this`busy, this`active, this`records, this`trace, this`shadow
      ensures Tracks() && NothingBegins(shadow)
      ensures At(q, caller, action,
              match r case Claimed(t) => Body(t) case Replay(t) => Replayed(t) case Denied(_) => Over)
      ensures r.Claimed? ==> !old(active) && active && old(busy) == None && busy == Some(r.token)
      ensures r.Replay? ==> busy == old(busy) && active == old(active) && records == old(records)
      ensures r.Denied? && a.givenBack ==> busy == old(busy) && active == old(active)
      ensures r.Replay? <==> a.read && Succeeded(old(records), caller, action)
      ensures a.AllServed() ==>
                (r.Claimed? <==> !old(active) && old(busy) == None && NewOrLeftRunning(old(records), caller, action))
    {
      Follow(Arrive(q, process, caller, action));
      var reuse: Option<Token> := None;
      if caller.Some? {
        LookupFinds(records, caller.value);
        var answer;
        answer, reuse := Resolve(q, caller.value, action, a);
        if answer.Some? {
          return answer.value;
        }
      }
      r := ClaimFence(q, caller, action, reuse, a);
    }

    /** The outcome is recorded under the caller id; if that fails the fence has to stay. */
    method Complete(q: RequestId, caller: Option<CallerRef>, action: Action, token: Token, succeeded: bool,
        retain: bool, ok: bool)
      returns (retained: bool)
      requires Tracks() && NothingBegins(shadow) && At(q, caller, action, CompleteRecord(token, succeeded, retain))
      modifies this`records, this`trace, this`shadow
      ensures Tracks() && NothingBegins(shadow) && At(q, caller, action, ReleaseFence(token, retained))
      ensures retained <==> retain || (caller.Some? && !ok)
      ensures caller.Some? && ok ==> CallerIn(records, caller.value,
              {if succeeded then SucceededState else FailedState})
      ensures caller.None? || !ok ==> records == old(records)
    {
      retained := retain;
      if caller.Some? {
        SetByCallerRecords(records, caller.value, if succeeded then SucceededState else FailedState);
        if ok {
          records := SetByCaller(records, caller.value, if succeeded then SucceededState else FailedState);
        } else {
          retained := true;
        }
      }
      Follow(Go(q, ok));
    }

    method Release(q: RequestId, caller: Option<CallerRef>, action: Action, token: Token, retain: bool, ok: bool)
      requires Tracks() && NothingBegins(shadow) && At(q, caller, action, ReleaseFence(token, retain))
      modifies this`busy, this`trace, this`shadow
      ensures Tracks() && NothingBegins(shadow) && At(q, caller, action, UnlockMemory)
      ensures busy == if !retain && ok && old(busy) == Some(token) then None else old(busy)
    {
      if !retain && ok && busy == Some(token) {
        busy := None;
      }
      Follow(Go(q, ok));
    }

    method LeaveActive(q: RequestId, caller: Option<CallerRef>, action: Action)
      requires Tracks() && NothingBegins(shadow) && At(q, caller, action, UnlockMemory)
      modifies this`active, this`trace, this`shadow
      ensures Tracks() && NothingBegins(shadow) && At(q, caller, action, Over) && !active
    {
      active := false;
      Follow(Go(q, true));
    }

    /** The body returns and its outcome is logged; without the log the fence has to stay. */
    ghost method LogOutcome(q: RequestId, caller: Option<CallerRef>, action: Action, token: Token, ok: bool,
        retain: bool, logged: bool)
      requires Tracks() && NothingBegins(shadow) && At(q, caller, action, Body(token))
      modifies this`trace, this`shadow
      ensures Tracks() && NothingBegins(shadow)
      ensures At(q, caller, action, CompleteRecord(token, logged && ok, !logged || retain))
    {
      Follow(EndBody(q, ok, retain));
      Follow(Go(q, logged));
    }

    /**
     The end of an operation: log, record, release, in this order. The fence is given back exactly if
     nothing was retained and the outcome was logged and recorded, so a free fence means an ended record.
     */
    method FinishOperation(q: RequestId, caller: Option<CallerRef>, action: Action, token: Token, ok: bool,
        retain: bool,
                           logged: bool, recorded: bool, released: bool) returns (retained: bool)
      requires Tracks() && NothingBegins(shadow) && At(q, caller, action, Body(token)) && busy == Some(token)
      modifies this`busy, this`active, this`records, this`trace, this`shadow
      ensures Tracks() && NothingBegins(shadow) && At(q, caller, action, Over) && !active
      ensures retained <==> retain || !logged || (caller.Some? && !recorded)
      ensures busy == if !retained && released then None else Some(token)
      ensures caller.Some? && recorded ==> CallerIn(records, caller.value,
              {if ok && logged then SucceededState else FailedState})
      ensures caller.Some? && busy == None ==> CallerIn(records, caller.value, ENDED)
    {
      LogOutcome(q, caller, action, token, ok, retain, logged);
      retained := Complete(q, caller, action, token, logged && ok, !logged || retain, recorded);
      Release(q, caller, action, token, retained, released);
      LeaveActive(q, caller, action);
    }
  }

  /** What a claim means: the record is this request's alone and running, and its body began once. */
  lemma ClaimedIsOwned(s: Service, q: RequestId, caller: CallerRef, action: Action, token: Token)
    requires Once(s.start) && AllStand(s.start) && s.Tracks() && s.At(q, Some(caller), action, Body(token))
    ensures Mine(s.records, token, caller, action) && CallerIn(s.records, caller, {RunningState})
    ensures s.busy == Some(token) && s.shadow.started[caller] == 1
  {
    AtomicRunIsFresh(s.start, s.trace);
    OnceRun(s.start, s.trace);
    assert RequestOk(s.shadow, q);
  }
}
