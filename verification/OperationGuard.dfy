/**
 The operation guard of one instance: the durable fence (busy_operation), the idempotency records
 keyed by the caller's operation id, and the in-memory set of each master process. Any number of
 processes serve any number of requests; one event is one statement of one request.

 Tokens are random, so the token that request `q` draws is modelled as `q` itself.
 */
module OperationGuard {
  import opened Common

  type RequestId = nat
  type Token = RequestId
  type ProcessId = nat
  type CallerRef = nat
  type Action = nat

  datatype RecordState = RunningState | SucceededState | FailedState

  /** Records are kept in primary key order. */
  datatype Record = Record(caller: CallerRef, action: Action, token: Token, state: RecordState)

  datatype Pc =
    | ReadRecord                                    // look the caller id up
    | CountFence(token: Token)                      // saw it running: is its fence still held?
    | ReviveRecord(token: Token)                    // it is not: write it back as running
    | EnterMemory(reuse: Option<Token>)             // the in-memory set of this process
    | TakeFence(token: Token, reused: bool)         // compare-and-set on busy_operation
    | InsertRecord(token: Token)                    // unique on (caller id, action)
    | LogStart(token: Token)
    | GiveBack(token: Token)                        // roll the fence back
    | Body(token: Token)                            // the operation itself
    | LogEnd(token: Token, ok: bool, retain: bool)
    | CompleteRecord(token: Token, ok: bool, retain: bool)
    | ReleaseFence(token: Token, retain: bool)
    | UnlockMemory
    | Replayed(token: Token)                        // answered from a succeeded record
    | Over                                          // returned, refused or died

  datatype Request = Request(process: ProcessId, caller: Option<CallerRef>, action: Action, pc: Pc)

  /** `started` counts, per caller id, how often an operation body began. */
  datatype State = State(busy: Option<Token>, records: seq<Record>, memory: set<ProcessId>,
                         requests: map<RequestId, Request>,
                         started: multiset<CallerRef>)

  datatype Event =
    | Arrive(q: RequestId, process: ProcessId, caller: Option<CallerRef>, action: Action)
    | Go(q: RequestId, ok: bool)                    // the next statement of q, `ok` if the database serves it
    | EndBody(q: RequestId, ok: bool, retain: bool)
    | Crash(process: ProcessId)

  /** First record with this caller id; the lookup does not filter on the action. */
  function Lookup(rs: seq<Record>, caller: CallerRef): Option<Record> {
    if rs == [] then None else if rs[0].caller == caller then Some(rs[0]) else Lookup(rs[1..], caller)
  }

  /** The update by primary key; tokens identify records. */
  function SetByToken(rs: seq<Record>, token: Token, state: RecordState): seq<Record> {
    seq(|rs|, k requires 0 <= k < |rs| => if rs[k].token == token then rs[k].(state := state) else rs[k])
  }

  /** The completing update: it selects on the caller id and the instance only. */
  function SetByCaller(rs: seq<Record>, caller: CallerRef, state: RecordState): seq<Record> {
    seq(|rs|, k requires 0 <= k < |rs| => if rs[k].caller == caller then rs[k].(state := state) else rs[k])
  }

  predicate Duplicate(rs: seq<Record>, caller: CallerRef, action: Action) {
    exists r | r in rs :: r.caller == caller && r.action == action
  }

  function At(s: State, q: RequestId, pc: Pc): State
    requires q in s.requests
  {
    s.(requests := s.requests[q := s.requests[q].(pc := pc)])
  }

  predicate Enabled(s: State, e: Event) {
    match e
    case Arrive(q, _, _, _) => q !in s.requests
    case Go(q, _) => q in s.requests && !s.requests[q].pc.Body? && !s.requests[q].pc.Over?
        && !s.requests[q].pc.Replayed?
    case EndBody(q, _, _) => q in s.requests && s.requests[q].pc.Body?
    case Crash(_) => true
  }

  function AfterRead(s: State, q: RequestId): Pc
    requires q in s.requests && s.requests[q].caller.Some?
  {
    match Lookup(s.records, s.requests[q].caller.value)
    case None => EnterMemory(None)
    case Some(r) =>
      if r.action != s.requests[q].action then Over
      else match r.state
           case SucceededState => Replayed(r.token)
           case FailedState => Over
           case RunningState => CountFence(r.token)
  }

  /** Leaves the in-memory set of the process and returns. */
  function Leave(s: State, q: RequestId): State
    requires q in s.requests
  {
    At(s, q, Over).(memory := s.memory - {s.requests[q].process})
  }

  function Release(s: State, token: Token, ok: bool): State {
    if ok && s.busy == Some(token) then s.(busy := None) else s
  }

  function GoStep(s: State, q: RequestId, ok: bool): State
    requires Enabled(s, Go(q, ok))
  {
    var r := s.requests[q];
    match r.pc
    case ReadRecord => At(s, q, if ok && r.caller.Some? then AfterRead(s, q) else Over)
    case CountFence(token) => At(s, q, if ok && s.busy != Some(token) then ReviveRecord(token) else Over)
    case ReviveRecord(token) =>
      if ok then At(s, q, EnterMemory(Some(token))).(records := SetByToken(s.records, token, RunningState))
          else At(s, q, Over)
    case EnterMemory(reuse) =>
      if r.process in s.memory then At(s, q, Over)
      else At(s, q, match reuse case None => TakeFence(q, false) case Some(t) => TakeFence(t, true))
           .(memory := s.memory + {r.process})
    case TakeFence(token, reused) =>
      if ok && s.busy == None then
        At(s, q, if r.caller.Some? && !reused then InsertRecord(token) else LogStart(token)).(busy := Some(token))
      else Leave(s, q)
    case InsertRecord(token) =>
      if ok && r.caller.Some? && !Duplicate(s.records, r.caller.value, r.action) then
        At(s, q, LogStart(token)).(records := s.records + [Record(r.caller.value, r.action, token, RunningState)])
      else At(s, q, GiveBack(token))
    case LogStart(token) =>
      if ok then
        At(s, q, Body(token)).(started := if r.caller.Some? then s.started + multiset{r.caller.value} else s.started)
      else At(s, q, GiveBack(token))
    case GiveBack(token) => Leave(Release(s, token, ok), q)
    case LogEnd(token, result, retain) => At(s, q, CompleteRecord(token, ok && result, !ok || retain))
    case CompleteRecord(token, result, retain) =>
      if r.caller.None? then At(s, q, ReleaseFence(token, retain))
      else if ok then
        At(s, q, ReleaseFence(token, retain))
        .(records := SetByCaller(s.records, r.caller.value, if result then SucceededState else FailedState))
      else At(s, q, ReleaseFence(token, true))
    case ReleaseFence(token, retain) => At(if retain then s else Release(s, token, ok), q, UnlockMemory)
    case UnlockMemory => Leave(s, q)
    case _ => s
  }

  function Step(s: State, e: Event): State
    requires Enabled(s, e)
  {
    match e
    case Arrive(q, process, caller, action) =>
      var pc := if caller.Some? then ReadRecord else EnterMemory(None);
      s.(requests := s.requests[q := Request(process, caller, action, pc)])
    case Go(q, ok) => GoStep(s, q, ok)
    case EndBody(q, ok, retain) => At(s, q, LogEnd(s.requests[q].pc.token, ok, retain))
    case Crash(p) =>
      s.(memory := s.memory - {p},
         requests := map q | q in s.requests ::
                       if s.requests[q].process == p then s.requests[q].(pc := Over) else s.requests[q])
  }

  /** The creating request inserts the row with the fence already held and never enters the in-memory set. */
  function Created(creator: RequestId, process: ProcessId, action: Action): State {
    State(Some(creator), [], {}, map[creator := Request(process, None, action, Body(creator))], multiset{})
  }

  // ---------------------------------------------------------------- exclusion

  /** This request believes that it owns the fence with this token. */
  predicate Holds(pc: Pc) {
    pc.InsertRecord? || pc.LogStart? || pc.GiveBack? || pc.Body? || pc.LogEnd? || pc.CompleteRecord? || pc.ReleaseFence?
  }

  ghost predicate Exclusive(s: State) {
    && (forall q | q in s.requests && Holds(s.requests[q].pc) :: s.busy == Some(s.requests[q].pc.token))
    && (forall a, b | a in s.requests && b in s.requests && Holds(s.requests[a].pc) && Holds(s.requests[b].pc) ::
        a == b)
  }

  /** One statement moves one request and touches the fence only by its own token. */
  ghost predicate FenceMove(s: State, q: RequestId, s': State)
    requires q in s.requests
  {
    && q in s'.requests
    && var pc, pc' := s.requests[q].pc, s'.requests[q].pc;
       && s'.requests == s.requests[q := s.requests[q].(pc := pc')]
       && (if Holds(pc) then
             && (s'.busy == s.busy || (s.busy == Some(pc.token) && s'.busy == None && !Holds(pc')))
             && (Holds(pc') ==> pc'.token == pc.token)
           else if Holds(pc') then s.busy == None && s'.busy == Some(pc'.token)
           else s'.busy == s.busy)
  }

  lemma GoMovesOneRequest(s: State, q: RequestId, ok: bool)
    requires Enabled(s, Go(q, ok))
    ensures FenceMove(s, q, GoStep(s, q, ok))
  {
  }

  lemma ExclusiveStep(s: State, e: Event)
    requires Exclusive(s) && Enabled(s, e)
    ensures Exclusive(Step(s, e))
  {
    match e
    case Go(q, ok) => GoMovesOneRequest(s, q, ok);
    case _ =>
  }

  ghost predicate Legal(s: State, es: seq<Event>)
    decreases es
  {
    es == [] || (Enabled(s, es[0]) && Legal(Step(s, es[0]), es[1..]))
  }

  function After(s: State, es: seq<Event>): State
    requires Legal(s, es)
    decreases es
  {
    if es == [] then s else After(Step(s, es[0]), es[1..])
  }

  /**
   The compare-and-set alone keeps two operations apart: after any run of any number of processes,
   with crashes and failing statements anywhere, at most one request holds the fence, under its own
   token. This includes the creating request, which is not in any in-memory set and whose end may
   remove the entry of another request.
   */
  lemma {:induction false} AtMostOneHolder(s: State, es: seq<Event>)
    requires Exclusive(s) && Legal(s, es)
    ensures Exclusive(After(s, es))
    decreases es
  {
    if es != [] {
      ExclusiveStep(s, es[0]);
      AtMostOneHolder(Step(s, es[0]), es[1..]);
    }
  }

  /** A token whose holder is gone, retained or crashed, stays on the row for ever. */
  ghost predicate Abandoned(s: State, token: Token) {
    s.busy == Some(token) && forall q | q in s.requests :: !Holds(s.requests[q].pc)
  }

  lemma AbandonedStep(s: State, e: Event, token: Token)
    requires Abandoned(s, token) && Enabled(s, e)
    ensures Abandoned(Step(s, e), token)
  {
    match e
    case Go(q, ok) => GoMovesOneRequest(s, q, ok);
    case _ =>
  }

  lemma {:induction false} AbandonedForEver(s: State, es: seq<Event>, token: Token)
    requires Abandoned(s, token) && Legal(s, es)
    ensures Abandoned(After(s, es), token) && After(s, es).started == s.started
    decreases es
  {
    if es != [] {
      AbandonedStep(s, es[0], token);
      AbandonedForEver(Step(s, es[0]), es[1..], token);
    }
  }

  /** A retained fence is abandoned as soon as its request leaves, and so is the fence of a crashed process. */
  lemma RetainingAndCrashingAbandon(s: State, q: RequestId, ok: bool)
    requires Exclusive(s) && q in s.requests && Holds(s.requests[q].pc)
    ensures Abandoned(Step(s, Crash(s.requests[q].process)), s.requests[q].pc.token)
    ensures s.requests[q].pc.ReleaseFence? && s.requests[q].pc.retain ==>
              Abandoned(Step(s, Go(q, ok)), s.requests[q].pc.token)
  {
    if s.requests[q].pc.ReleaseFence? && s.requests[q].pc.retain {
      GoMovesOneRequest(s, q, ok);
    }
  }

  /** A process that has died and come back is not kept out by what it had in memory. */
  lemma RestartedProcessMayEnter(s: State, q: RequestId, process: ProcessId, action: Action)
    requires q !in s.requests
    ensures var s2 := Step(Step(s, Crash(process)), Arrive(q, process, None, action));
            Enabled(s2, Go(q, true)) && Step(s2, Go(q, true)).requests[q].pc == TakeFence(q, false)
  {
  }

  // ---------------------------------------------------------------- at most once

  /**
   Between the lookup and the claim nothing happened that invalidates the lookup. Taking the whole
   of begin as one step implies this for every event.
   */
  predicate Fresh(s: State, e: Event) {
    e.Go? && e.ok && e.q in s.requests ==>
      match s.requests[e.q].pc
      case ReviveRecord(token) => TokenIn(s.records, token, {RunningState})
      case TakeFence(token, reused) => s.busy == None && reused ==> TokenIn(s.records, token, {RunningState})
      case InsertRecord(_) =>
        s.requests[e.q].caller.Some? && !Duplicate(s.records, s.requests[e.q].caller.value, s.requests[e.q].action) ==>
          !Known(s.records, s.requests[e.q].caller.value)
      case _ => true
  }

  predicate Known(rs: seq<Record>, caller: CallerRef) {
    exists r | r in rs :: r.caller == caller
  }

  predicate TokenIn(rs: seq<Record>, token: Token, states: set<RecordState>) {
    forall r | r in rs && r.token == token :: r.state in states
  }

  predicate CallerIn(rs: seq<Record>, caller: CallerRef, states: set<RecordState>) {
    forall r | r in rs && r.caller == caller :: r.state in states
  }

  predicate NoToken(rs: seq<Record>, token: Token) {
    forall r | r in rs :: r.token != token
  }

  /** The one record with this token is the one record of this caller id, and it is for this action. */
  predicate Mine(rs: seq<Record>, token: Token, caller: CallerRef, action: Action) {
    && Known(rs, caller)
    && forall r | r in rs :: (r.token == token <==> r.caller == caller) && (r.caller == caller ==> r.action == action)
  }

  predicate OwnRecord(s: State, q: RequestId, token: Token, states: set<RecordState>)
    requires q in s.requests
  {
    match s.requests[q].caller
    case None => NoToken(s.records, token)
    case Some(c) => Mine(s.records, token, c, s.requests[q].action) && CallerIn(s.records, c, states)
  }

  predicate Began(s: State, q: RequestId)
    requires q in s.requests
  {
    s.requests[q].caller.Some? ==> s.started[s.requests[q].caller.value] == 1
  }

  const ENDED := {SucceededState, FailedState}

  ghost predicate RequestOk(s: State, q: RequestId)
    requires q in s.requests
  {
    var r := s.requests[q];
    match r.pc
    case ReadRecord => r.caller.Some? && NoToken(s.records, q)
    case CountFence(token) => r.caller.Some? && Mine(s.records, token, r.caller.value, r.action)
    case ReviveRecord(token) => r.caller.Some? && Mine(s.records, token, r.caller.value, r.action)
    case EnterMemory(reuse) =>
      if reuse.None? then NoToken(s.records, q)
      else r.caller.Some? && Mine(s.records, reuse.value, r.caller.value, r.action)
    case TakeFence(token, reused) =>
      if reused then r.caller.Some? && Mine(s.records, token, r.caller.value, r.action)
      else token == q && NoToken(s.records, q)
    case InsertRecord(token) => r.caller.Some? && token == q && NoToken(s.records, q)
    case LogStart(token) =>
      OwnRecord(s, q, token, {RunningState}) && (r.caller.Some? ==> s.started[r.caller.value] == 0)
    case GiveBack(token) => forall x | x in s.records && x.token == token :: s.started[x.caller] == 0
    case Body(token) => OwnRecord(s, q, token, {RunningState}) && Began(s, q)
    case LogEnd(token, _, _) => OwnRecord(s, q, token, {RunningState}) && Began(s, q)
    case CompleteRecord(token, _, _) => OwnRecord(s, q, token, {RunningState}) && Began(s, q)
    case ReleaseFence(token, retain) => OwnRecord(s, q, token, if retain then {RunningState} + ENDED else ENDED)
    case Replayed(token) =>
      r.caller.Some? && Mine(s.records, token, r.caller.value, r.action)
          && CallerIn(s.records, r.caller.value, {SucceededState})
    case _ => true
  }

  predicate OneRecordPerCaller(rs: seq<Record>) {
    forall a, b | 0 <= a < b < |rs| :: rs[a].caller != rs[b].caller
  }

  /** A body that began leaves a record that ended, or it still holds its fence. */
  predicate RecordOk(s: State, r: Record) {
    && r.token in s.requests && s.requests[r.token].caller == Some(r.caller)
    && (s.started[r.caller] == 0 || r.state in ENDED || s.busy == Some(r.token))
    && (r.state in ENDED ==> s.started[r.caller] == 1)
  }

  ghost predicate Once(s: State) {
    && Exclusive(s)
    && OneRecordPerCaller(s.records)
    && (forall r | r in s.records :: RecordOk(s, r))
    && (forall q | q in s.requests :: RequestOk(s, q))
    && (forall c | c in s.started :: s.started[c] == 1 && Known(s.records, c))
  }

  /** What a statement does to the records. */
  lemma SetByTokenRecords(rs: seq<Record>, token: Token)
    requires TokenIn(rs, token, {RunningState})
    ensures SetByToken(rs, token, RunningState) == rs
  {
    forall k | 0 <= k < |rs| ensures SetByToken(rs, token, RunningState)[k] == rs[k] {
      assert rs[k] in rs;
    }
  }

  lemma SetByCallerRecords(rs: seq<Record>, caller: CallerRef, state: RecordState)
    ensures var rs' := SetByCaller(rs, caller, state);
            && |rs'| == |rs|
            && (forall x :: x in rs' <==> exists r | r in rs :: x == if r.caller == caller then r.(state := state)
                else r)
            && (forall c :: Known(rs', c) == Known(rs, c))
  {
    var rs' := SetByCaller(rs, caller, state);
    forall r | r in rs ensures (if r.caller == caller then r.(state := state) else r) in rs' {
      var k :| 0 <= k < |rs| && rs[k] == r;
      assert rs'[k] in rs';
    }
    forall x | x in rs' ensures exists r | r in rs :: x == if r.caller == caller then r.(state := state) else r {
      var k :| 0 <= k < |rs'| && rs'[k] == x;
      assert rs[k] in rs;
    }
    forall c ensures Known(rs', c) == Known(rs, c) {
      if Known(rs, c) {
        var r :| r in rs && r.caller == c;
        assert (if r.caller == caller then r.(state := state) else r) in rs';
      }
      if Known(rs', c) {
        var x :| x in rs' && x.caller == c;
      }
    }
  }

  /** Requests look at the records, at the counters and at themselves. */
  lemma RequestFrame(s: State, s': State, q: RequestId)
    requires q in s.requests && q in s'.requests && s'.requests[q] == s.requests[q] && RequestOk(s, q)
    requires s'.records == s.records && s'.started == s.started
    ensures RequestOk(s', q)
  {
  }

  lemma LookupFinds(rs: seq<Record>, caller: CallerRef)
    ensures match Lookup(rs, caller)
            case None => !Known(rs, caller)
            case Some(r) => r in rs && r.caller == caller
  {
    if rs != [] && rs[0].caller != caller {
      LookupFinds(rs[1..], caller);
      assert forall r | r in rs :: r == rs[0] || r in rs[1..];
    }
  }

  /** A looked-up record is the only one of its caller, and the only one with its token. */
  lemma LookupIsMine(s: State, caller: CallerRef)
    requires Once(s) && Lookup(s.records, caller).Some?
    ensures var r := Lookup(s.records, caller).value;
            Mine(s.records, r.token, caller, r.action) && CallerIn(s.records, caller, {r.state})
  {
    var r := Lookup(s.records, caller).value;
    LookupFinds(s.records, caller);
    forall x | x in s.records ensures (x.token == r.token <==> x.caller == caller) && (x.caller == caller ==> x == r) {
      var a :| 0 <= a < |s.records| && s.records[a] == x;
      var b :| 0 <= b < |s.records| && s.records[b] == r;
      if x.caller == caller {
        assert a == b;
      } else {
        assert RecordOk(s, x) && RecordOk(s, r);
      }
    }
  }

  /** The statements that leave records, counters and fence alone. */
  predicate Quiet(s: State, q: RequestId, ok: bool)
    requires Enabled(s, Go(q, ok))
  {
    match s.requests[q].pc
    case TakeFence(_, _) => !(ok && s.busy == None)
    case InsertRecord(_) => !ok || s.requests[q].caller.None? ||
        Duplicate(s.records, s.requests[q].caller.value, s.requests[q].action)
    case LogStart(_) => !ok
    case GiveBack(_) => !ok
    case CompleteRecord(_, _, _) => !ok || s.requests[q].caller.None?
    case ReleaseFence(_, retain) => !ok || retain
    case _ => true
  }

  ghost predicate QuietlyMoved(s: State, q: RequestId, s': State) {
    s'.records == s.records && s'.started == s.started && s'.busy == s.busy && q in s'.requests && RequestOk(s', q)
  }

  lemma ReadStep(s: State, q: RequestId, ok: bool)
    requires Once(s) && Enabled(s, Go(q, ok)) && s.requests[q].pc.ReadRecord? && RequestOk(s, q)
    ensures QuietlyMoved(s, q, GoStep(s, q, ok))
  {
    var c := s.requests[q].caller.value;
    if ok && Lookup(s.records, c).Some? {
      LookupIsMine(s, c);
      ReadFound(s, q, c, Lookup(s.records, c).value);
    }
  }

  lemma ReadFound(s: State, q: RequestId, c: CallerRef, r: Record)
    requires Enabled(s, Go(q, true)) && s.requests[q].pc.ReadRecord? && s.requests[q].caller == Some(c)
    requires Lookup(s.records, c) == Some(r) && Mine(s.records, r.token, c, r.action)
    requires CallerIn(s.records, c, {r.state})
    ensures QuietlyMoved(s, q, GoStep(s, q, true))
  {
  }

  lemma WaitingStep(s: State, q: RequestId, ok: bool)
    requires Enabled(s, Go(q, ok)) && Fresh(s, Go(q, ok)) && Quiet(s, q, ok) && RequestOk(s, q)
    requires !Holds(s.requests[q].pc) && !s.requests[q].pc.ReadRecord?
    ensures QuietlyMoved(s, q, GoStep(s, q, ok))
  {
    if s.requests[q].pc.ReviveRecord? && ok {
      SetByTokenRecords(s.records, s.requests[q].pc.token);
    }
  }

  lemma HoldingStep(s: State, q: RequestId, ok: bool)
    requires Enabled(s, Go(q, ok)) && Quiet(s, q, ok) && RequestOk(s, q) && Holds(s.requests[q].pc)
    ensures QuietlyMoved(s, q, GoStep(s, q, ok))
  {
  }

  lemma QuietStep(s: State, q: RequestId, ok: bool)
    requires Once(s) && Enabled(s, Go(q, ok)) && Fresh(s, Go(q, ok)) && Quiet(s, q, ok)
    ensures QuietlyMoved(s, q, GoStep(s, q, ok))
  {
    assert RequestOk(s, q);
    if s.requests[q].pc.ReadRecord? {
      ReadStep(s, q, ok);
    } else if Holds(s.requests[q].pc) {
      HoldingStep(s, q, ok);
    } else {
      WaitingStep(s, q, ok);
    }
  }

  /** Carries the invariant over a statement that leaves the records and the counters alone. */
  lemma OnceFrame(s: State, q: RequestId, s': State)
    requires Once(s) && q in s.requests && FenceMove(s, q, s') && Exclusive(s')
    requires s'.records == s.records && s'.started == s.started && RequestOk(s', q)
    requires forall r | r in s.records && s.busy == Some(r.token) && s'.busy != s.busy ::
               s.started[r.caller] == 0 || r.state in ENDED
    ensures Once(s')
  {
    forall r | r in s'.records ensures RecordOk(s', r) {
      assert RecordOk(s, r);
    }
    forall x | x in s'.requests ensures RequestOk(s', x) {
      if x != q {
        RequestFrame(s, s', x);
      }
    }
  }

  lemma TakeStep(s: State, q: RequestId)
    requires Once(s) && Enabled(s, Go(q, true)) && Fresh(s, Go(q, true))
    requires s.requests[q].pc.TakeFence? && s.busy == None
    ensures Once(GoStep(s, q, true))
  {
    var s' := GoStep(s, q, true);
    GoMovesOneRequest(s, q, true);
    ExclusiveStep(s, Go(q, true));
    assert RequestOk(s, q);
    var r := s.requests[q];
    if r.pc.reused {
      var c := r.caller.value;
      var x :| x in s.records && x.caller == c;
      assert RecordOk(s, x);
    }
    OnceFrame(s, q, s');
  }

  lemma ReleaseStep(s: State, q: RequestId)
    requires Once(s) && Enabled(s, Go(q, true))
    requires s.requests[q].pc.GiveBack? || (s.requests[q].pc.ReleaseFence? && !s.requests[q].pc.retain)
    ensures Once(GoStep(s, q, true))
  {
    var s' := GoStep(s, q, true);
    GoMovesOneRequest(s, q, true);
    ExclusiveStep(s, Go(q, true));
    assert RequestOk(s, q);
    OnceFrame(s, q, s');
  }

  lemma LogStartStep(s: State, q: RequestId)
    requires Once(s) && Enabled(s, Go(q, true)) && s.requests[q].pc.LogStart?
    ensures Once(GoStep(s, q, true))
  {
    var s' := GoStep(s, q, true);
    GoMovesOneRequest(s, q, true);
    ExclusiveStep(s, Go(q, true));
    assert RequestOk(s, q);
    forall r | r in s'.records ensures RecordOk(s', r) {
      assert RecordOk(s, r);
    }
    forall x | x in s'.requests ensures RequestOk(s', x) {
      if x != q {
        assert RequestOk(s, x) && !Holds(s.requests[x].pc);
      }
    }
  }

  /** The new record is alone with its caller id and its token, and the old ones stay as they were. */
  lemma InsertedRecords(s: State, s': State, added: Record)
    requires (forall r | r in s.records :: RecordOk(s, r)) && OneRecordPerCaller(s.records)
    requires s'.records == s.records + [added] && s'.started == s.started && s'.busy == s.busy
    requires s'.requests.Keys == s.requests.Keys && forall x | x in s.requests ::
             s'.requests[x].caller == s.requests[x].caller
    requires !Known(s.records, added.caller) && RecordOk(s', added)
    ensures (forall r | r in s'.records :: RecordOk(s', r)) && OneRecordPerCaller(s'.records)
    ensures forall d | Known(s.records, d) :: Known(s'.records, d)
  {
    forall r | r in s'.records ensures RecordOk(s', r) {
      assert r in s.records || r == added;
      assert r in s.records ==> RecordOk(s, r);
    }
    forall d | Known(s.records, d) ensures Known(s'.records, d) {
      var r :| r in s.records && r.caller == d;
      assert r in s'.records;
    }
    assert forall k | 0 <= k < |s.records| :: s.records[k] in s.records;
  }

  lemma InsertStep(s: State, q: RequestId)
    requires Once(s) && Enabled(s, Go(q, true)) && Fresh(s, Go(q, true)) && s.requests[q].pc.InsertRecord?
    requires !Quiet(s, q, true)
    ensures Once(GoStep(s, q, true))
  {
    var s' := GoStep(s, q, true);
    GoMovesOneRequest(s, q, true);
    ExclusiveStep(s, Go(q, true));
    assert RequestOk(s, q);
    var c := s.requests[q].caller.value;
    var added := Record(c, s.requests[q].action, q, RunningState);
    assert s'.records == s.records + [added];
    assert s.started[c] == 0;
    InsertedRecords(s, s', added);
    assert added in s'.records;
    forall x | x in s'.requests ensures RequestOk(s', x) {
      if x != q {
        assert RequestOk(s, x) && !Holds(s.requests[x].pc);
        OthersAfterInsert(s, s', added, x);
      } else {
        OwnAfterInsert(s, s', added);
      }
    }
  }

  lemma OwnAfterInsert(s: State, s': State, added: Record)
    requires added.token in s'.requests && s'.requests[added.token].pc == LogStart(added.token)
    requires s'.requests[added.token].caller == Some(added.caller) && s'.requests[added.token].action == added.action
    requires s'.records == s.records + [added] && added.state == RunningState && s'.started[added.caller] == 0
    requires !Known(s.records, added.caller) && NoToken(s.records, added.token)
    ensures RequestOk(s', added.token)
  {
    assert forall r :: r in s'.records <==> r in s.records || r == added;
    assert added in s'.records;
  }

  /** A request that does not hold the fence is not affected by the record of a new caller id. */
  lemma OthersAfterInsert(s: State, s': State, added: Record, x: RequestId)
    requires x in s.requests && x in s'.requests && s'.requests[x] == s.requests[x] && RequestOk(s, x)
    requires !Holds(s.requests[x].pc) && x != added.token && s'.records == s.records + [added]
    requires s'.started == s.started
    requires !Known(s.records, added.caller) && NoToken(s.records, added.token)
    ensures RequestOk(s', x)
  {
    assert forall r :: r in s'.records <==> r in s.records || r == added;
    forall token, c, a | Mine(s.records, token, c, a) ensures Mine(s'.records, token, c, a) {
      var r :| r in s.records && r.caller == c;
      assert r in s'.records;
    }
  }

  lemma CompletedRecords(s: State, s': State, c: CallerRef, state: RecordState)
    requires (forall r | r in s.records :: RecordOk(s, r)) && state in ENDED && s.started[c] == 1
    requires s'.records == SetByCaller(s.records, c, state) && s'.started == s.started && s'.busy == s.busy
    requires s'.requests.Keys == s.requests.Keys && forall x | x in s.requests ::
             s'.requests[x].caller == s.requests[x].caller
    ensures forall r | r in s'.records :: RecordOk(s', r)
  {
    SetByCallerRecords(s.records, c, state);
    forall r | r in s'.records ensures RecordOk(s', r) {
      var r0 :| r0 in s.records && r == if r0.caller == c then r0.(state := state) else r0;
      assert RecordOk(s, r0);
    }
  }

  lemma CompletedOwn(s: State, c: CallerRef, action: Action, state: RecordState, token: Token)
    requires Mine(s.records, token, c, action) && state in ENDED
    ensures Mine(SetByCaller(s.records, c, state), token, c, action)
    ensures CallerIn(SetByCaller(s.records, c, state), c, ENDED)
  {
    SetByCallerRecords(s.records, c, state);
  }

  lemma CompletedUnique(rs: seq<Record>, c: CallerRef, state: RecordState)
    requires OneRecordPerCaller(rs)
    ensures OneRecordPerCaller(SetByCaller(rs, c, state))
  {
  }

  lemma CompleteStep(s: State, q: RequestId)
    requires Once(s) && Enabled(s, Go(q, true)) && s.requests[q].pc.CompleteRecord? && s.requests[q].caller.Some?
    ensures Once(GoStep(s, q, true))
  {
    GoMovesOneRequest(s, q, true);
    ExclusiveStep(s, Go(q, true));
    assert RequestOk(s, q);
    var state := if s.requests[q].pc.ok then SucceededState else FailedState;
    OnceAfterComplete(s, q, GoStep(s, q, true), s.requests[q].caller.value, state);
  }

  lemma OnceAfterComplete(s: State, q: RequestId, s': State, c: CallerRef, state: RecordState)
    requires Once(s) && q in s.requests && s.requests[q].caller == Some(c) && Holds(s.requests[q].pc)
    requires OwnRecord(s, q, s.requests[q].pc.token, {RunningState}) && Began(s, q)
    requires FenceMove(s, q, s') && Exclusive(s') && s'.busy == s.busy && s'.started == s.started && state in ENDED
    requires s'.records == SetByCaller(s.records, c, state)
    requires s'.requests[q].pc.ReleaseFence?
    ensures Once(s')
  {
    var token := s.requests[q].pc.token;
    CompletedRecords(s, s', c, state);
    CompletedOwn(s, c, s.requests[q].action, state, token);
    CompletedUnique(s.records, c, state);
    SetByCallerRecords(s.records, c, state);
    forall x | x in s'.requests ensures RequestOk(s', x) {
      if x != q {
        assert RequestOk(s, x) && !Holds(s.requests[x].pc);
        OthersAfterComplete(s, s', c, state, x);
      }
    }
  }

  lemma OthersAfterComplete(s: State, s': State, c: CallerRef, state: RecordState, x: RequestId)
    requires x in s.requests && x in s'.requests && s'.requests[x] == s.requests[x] && RequestOk(s, x)
    requires !Holds(s.requests[x].pc) && s'.records == SetByCaller(s.records, c, state) && s'.started == s.started
    requires CallerIn(s.records, c, {RunningState})
    ensures RequestOk(s', x)
  {
    SetByCallerRecords(s.records, c, state);
    forall token, d, a | Mine(s.records, token, d, a) ensures Mine(s'.records, token, d, a) {
    }
  }

  lemma OnceStep(s: State, e: Event)
    requires Once(s) && Enabled(s, e) && Fresh(s, e)
    ensures Once(Step(s, e))
  {
    ExclusiveStep(s, e);
    match e
    case Go(q, ok) =>
      GoMovesOneRequest(s, q, ok);
      if Quiet(s, q, ok) {
        QuietStep(s, q, ok);
        OnceFrame(s, q, GoStep(s, q, ok));
      } else {
        match s.requests[q].pc
        case TakeFence(_, _) => TakeStep(s, q);
        case InsertRecord(_) => InsertStep(s, q);
        case LogStart(_) => LogStartStep(s, q);
        case CompleteRecord(_, _, _) => CompleteStep(s, q);
        case _ => ReleaseStep(s, q);
      }
    case EndBody(q, _, _) =>
      assert RequestOk(s, q);
      OnceFrame(s, q, Step(s, e));
    case _ => OnceArriveOrCrash(s, e);
  }

  lemma OnceArriveOrCrash(s: State, e: Event)
    requires Once(s) && Enabled(s, e) && (e.Arrive? || e.Crash?) && Exclusive(Step(s, e))
    ensures Once(Step(s, e))
  {
    var s' := Step(s, e);
    forall r | r in s'.records ensures RecordOk(s', r) {
      assert RecordOk(s, r);
    }
    forall x | x in s'.requests ensures RequestOk(s', x) {
      if x in s.requests {
        assert RequestOk(s, x);
        if s'.requests[x] == s.requests[x] {
          RequestFrame(s, s', x);
        }
      } else {
        forall r | r in s.records ensures r.token != x {
          assert RecordOk(s, r);
        }
      }
    }
  }

  // ---------------------------------------------------------------- the contract of the caller id

  ghost predicate FreshRun(s: State, es: seq<Event>)
    decreases es
  {
    es == [] || (Enabled(s, es[0]) && Fresh(s, es[0]) && FreshRun(Step(s, es[0]), es[1..]))
  }

  lemma {:induction false} OnceRun(s: State, es: seq<Event>)
    requires Once(s) && FreshRun(s, es)
    ensures Legal(s, es) && Once(After(s, es))
    decreases es
  {
    if es != [] {
      OnceStep(s, es[0]);
      OnceRun(Step(s, es[0]), es[1..]);
    }
  }

  /** What the invariant says about one caller id. */
  ghost predicate AtMostOnce(s: State, c: CallerRef) {
    && s.started[c] <= 1
    && (forall a, b | Answers(s, a, c) && Answers(s, b, c) :: s.requests[a].action == s.requests[b].action)
    && (forall q | Answers(s, q, c) && s.requests[q].pc.Replayed? ::
          s.started[c] == 1 && CallerIn(s.records, c, {SucceededState}))
  }

  /** This request runs the body or answers from the record of caller id `c`. */
  predicate Answers(s: State, q: RequestId, c: CallerRef) {
    q in s.requests && s.requests[q].caller == Some(c) && (s.requests[q].pc.Body? || s.requests[q].pc.Replayed?)
  }

  lemma SameAction(s: State, a: RequestId, b: RequestId, c: CallerRef)
    requires Answers(s, a, c) && Answers(s, b, c) && RequestOk(s, a) && RequestOk(s, b)
    ensures s.requests[a].action == s.requests[b].action
  {
    var r :| r in s.records && r.caller == c;
  }

  lemma ReplayedAfterSuccess(s: State, q: RequestId, c: CallerRef)
    requires Answers(s, q, c) && s.requests[q].pc.Replayed? && RequestOk(s, q)
    requires forall r | r in s.records :: RecordOk(s, r)
    ensures s.started[c] == 1 && CallerIn(s.records, c, {SucceededState})
  {
    var r :| r in s.records && r.caller == c;
    assert RecordOk(s, r);
  }

  lemma OnceMeans(s: State, c: CallerRef)
    requires Once(s)
    ensures AtMostOnce(s, c)
  {
    assert c !in s.started ==> s.started[c] == 0;
    forall a, b | Answers(s, a, c) && Answers(s, b, c) ensures s.requests[a].action == s.requests[b].action {
      SameAction(s, a, b, c);
    }
    forall q | Answers(s, q, c) && s.requests[q].pc.Replayed?
      ensures s.started[c] == 1 && CallerIn(s.records, c, {SucceededState})
    {
      ReplayedAfterSuccess(s, q, c);
    }
  }

  /**
   With begin taken as one step: over any run with retries, crashes and failing statements, the body
   under one caller id begins at most once; everything that runs or is replayed under that id is for
   one action; and a replay is answered only from a body that began and was recorded as succeeded.
   */
  lemma BodyRunsAtMostOnce(creator: RequestId, process: ProcessId, action: Action, es: seq<Event>, c: CallerRef)
    requires FreshRun(Created(creator, process, action), es)
    ensures Legal(Created(creator, process, action), es)
    ensures AtMostOnce(After(Created(creator, process, action), es), c)
  {
    var s0 := Created(creator, process, action);
    assert Once(s0);
    OnceRun(s0, es);
    OnceMeans(After(s0, es), c);
  }

  predicate EndedKept(before: seq<Record>, after: seq<Record>) {
    |before| <= |after| && forall k | 0 <= k < |before| && before[k].state in ENDED :: after[k] == before[k]
  }

  predicate NoSecondBody(s: State) {
    forall q | q in s.requests && s.requests[q].pc.LogStart? && s.requests[q].caller.Some? ::
      s.started[s.requests[q].caller.value] == 0
  }

  /** The contract survives this event: ended records stay, one record per caller id, no second body is on its way. */
  predicate Sound(s: State, e: Event)
    requires Enabled(s, e)
  {
    EndedKept(s.records, Step(s, e).records) && OneRecordPerCaller(Step(s, e).records) && NoSecondBody(Step(s, e))
  }

  lemma FreshKeepsEnded(s: State, e: Event)
    requires Once(s) && Enabled(s, e) && Fresh(s, e)
    ensures EndedKept(s.records, Step(s, e).records)
  {
    if e.Go? {
      assert RequestOk(s, e.q);
      var r := s.requests[e.q];
      if r.pc.ReviveRecord? && e.ok {
        SetByTokenRecords(s.records, r.pc.token);
      } else if r.pc.CompleteRecord? && r.caller.Some? {
        forall k | 0 <= k < |s.records| && s.records[k].state in ENDED ensures s.records[k].caller != r.caller.value {
          assert s.records[k] in s.records;
        }
      }
    }
  }

  /** Succeeded and failed are final. */
  lemma {:induction false} EndedForEver(s: State, es: seq<Event>)
    requires Once(s) && FreshRun(s, es)
    ensures Legal(s, es) && EndedKept(s.records, After(s, es).records)
    decreases es
  {
    if es != [] {
      FreshKeepsEnded(s, es[0]);
      OnceStep(s, es[0]);
      EndedForEver(Step(s, es[0]), es[1..]);
    }
  }

  /** A claim that takes the fence for a record that has ended has a second body on its way. */
  lemma StaleTake(s: State, q: RequestId)
    requires Once(s) && Enabled(s, Go(q, true)) && !Fresh(s, Go(q, true)) && s.requests[q].pc.TakeFence?
    ensures !NoSecondBody(Step(s, Go(q, true)))
  {
    assert RequestOk(s, q);
    var r := s.requests[q];
    var x :| x in s.records && x.token == r.pc.token && x.state !in {RunningState};
    assert x.caller == r.caller.value;
    assert x.state.SucceededState? || x.state.FailedState?;
    assert RecordOk(s, x);
    var s' := Step(s, Go(q, true));
    assert s'.requests[q] == r.(pc := LogStart(r.pc.token)) && s'.started == s.started;
  }

  /** A claim that writes an ended record back as running reopens it. */
  lemma StaleRevive(s: State, q: RequestId)
    requires Enabled(s, Go(q, true)) && !Fresh(s, Go(q, true)) && s.requests[q].pc.ReviveRecord?
    ensures !EndedKept(s.records, Step(s, Go(q, true)).records)
  {
    var x :| x in s.records && x.token == s.requests[q].pc.token && x.state !in {RunningState};
    var k :| 0 <= k < |s.records| && s.records[k] == x;
    assert x.state.SucceededState? || x.state.FailedState?;
    assert Step(s, Go(q, true)).records[k].state == RunningState;
  }

  /** A claim that inserts although the caller id is known gives it a second record. */
  lemma StaleInsert(s: State, q: RequestId)
    requires Enabled(s, Go(q, true)) && !Fresh(s, Go(q, true)) && s.requests[q].pc.InsertRecord?
    ensures !OneRecordPerCaller(Step(s, Go(q, true)).records)
  {
    var rs' := Step(s, Go(q, true)).records;
    var x :| x in s.records && x.caller == s.requests[q].caller.value;
    var k :| 0 <= k < |s.records| && s.records[k] == x;
    assert rs'[k].caller == rs'[|s.records|].caller;
  }

  /** Freshness is exactly what the contract needs, event by event. */
  lemma FreshIffSound(s: State, e: Event)
    requires Once(s) && Enabled(s, e)
    ensures Fresh(s, e) <==> Sound(s, e)
  {
    if Fresh(s, e) {
      FreshKeepsEnded(s, e);
      OnceStep(s, e);
      forall q | q in Step(s, e).requests ensures RequestOk(Step(s, e), q) {
      }
    } else {
      if s.requests[e.q].pc.TakeFence? {
        StaleTake(s, e.q);
      } else if s.requests[e.q].pc.ReviveRecord? {
        StaleRevive(s, e.q);
      } else {
        StaleInsert(s, e.q);
      }
    }
  }

  // ---------------------------------------------------------------- begin as one step

  /** Between the lookup of its caller id and the claim. */
  predicate MidBegin(s: State, q: RequestId) {
    && q in s.requests && s.requests[q].caller.Some?
    && var pc := s.requests[q].pc;
       pc.CountFence? || pc.ReviveRecord? || pc.EnterMemory? || pc.TakeFence? || pc.InsertRecord?
  }

  /** While a begin is under way nothing else happens, except that processes may die. */
  predicate Uninterrupted(s: State, e: Event) {
    e.Crash? || forall q | q in s.requests && MidBegin(s, q) :: e.Go? && e.q == q
  }

  ghost predicate AtomicRun(s: State, es: seq<Event>)
    decreases es
  {
    es == [] || (Enabled(s, es[0]) && Uninterrupted(s, es[0]) && AtomicRun(Step(s, es[0]), es[1..]))
  }

  /** The lookup still stands: the record it found is running, or there is still none. */
  predicate Stands(s: State, q: RequestId)
    requires MidBegin(s, q)
  {
    var r := s.requests[q];
    match r.pc
    case CountFence(token) => TokenIn(s.records, token, {RunningState})
    case ReviveRecord(token) => TokenIn(s.records, token, {RunningState})
    case EnterMemory(reuse) =>
      if reuse.Some? then TokenIn(s.records, reuse.value, {RunningState}) else !Known(s.records, r.caller.value)
    case TakeFence(token, reused) =>
      if reused then TokenIn(s.records, token, {RunningState}) else !Known(s.records, r.caller.value)
    case _ => !Known(s.records, r.caller.value)
  }

  ghost predicate AllStand(s: State) {
    forall q | q in s.requests && MidBegin(s, q) :: Stands(s, q)
  }

  lemma LookupStands(s: State, q: RequestId)
    requires Once(s) && Enabled(s, Go(q, true)) && s.requests[q].pc.ReadRecord? && s.requests[q].caller.Some?
    ensures MidBegin(GoStep(s, q, true), q) ==> Stands(GoStep(s, q, true), q)
  {
    var c := s.requests[q].caller.value;
    LookupFinds(s.records, c);
    if Lookup(s.records, c).Some? {
      LookupIsMine(s, c);
      FoundStands(s, q, c, Lookup(s.records, c).value);
    } else {
      NothingFoundStands(s, q, c);
    }
  }

  lemma FoundStands(s: State, q: RequestId, c: CallerRef, r: Record)
    requires Enabled(s, Go(q, true)) && s.requests[q].pc.ReadRecord? && s.requests[q].caller == Some(c)
    requires Lookup(s.records, c) == Some(r) && Mine(s.records, r.token, c, r.action)
    requires CallerIn(s.records, c, {r.state})
    ensures MidBegin(GoStep(s, q, true), q) ==> Stands(GoStep(s, q, true), q)
  {
  }

  lemma NothingFoundStands(s: State, q: RequestId, c: CallerRef)
    requires Enabled(s, Go(q, true)) && s.requests[q].pc.ReadRecord? && s.requests[q].caller == Some(c)
    requires Lookup(s.records, c) == None && !Known(s.records, c)
    ensures MidBegin(GoStep(s, q, true), q) ==> Stands(GoStep(s, q, true), q)
  {
  }

  lemma StandsOn(s: State, q: RequestId, ok: bool)
    requires MidBegin(s, q) && Stands(s, q) && Enabled(s, Go(q, ok))
    ensures Fresh(s, Go(q, ok))
    ensures MidBegin(GoStep(s, q, ok), q) ==> Stands(GoStep(s, q, ok), q)
  {
    if s.requests[q].pc.ReviveRecord? {
      SetByTokenRecords(s.records, s.requests[q].pc.token);
    }
  }

  lemma GoStands(s: State, q: RequestId, ok: bool)
    requires Once(s) && Enabled(s, Go(q, ok)) && (MidBegin(s, q) ==> Stands(s, q))
    ensures Fresh(s, Go(q, ok))
    ensures MidBegin(GoStep(s, q, ok), q) ==> Stands(GoStep(s, q, ok), q)
  {
    if MidBegin(s, q) {
      StandsOn(s, q, ok);
    } else {
      assert RequestOk(s, q);
      if s.requests[q].pc.ReadRecord? && ok {
        LookupStands(s, q);
      }
    }
  }

  lemma AtomicGo(s: State, q: RequestId, ok: bool)
    requires Once(s) && AllStand(s) && Enabled(s, Go(q, ok)) && forall x | x in s.requests && MidBegin(s, x) :: x == q
    ensures Fresh(s, Go(q, ok)) && AllStand(GoStep(s, q, ok))
  {
    GoStands(s, q, ok);
    GoMovesOneRequest(s, q, ok);
    var s' := GoStep(s, q, ok);
    forall x | x in s'.requests && MidBegin(s', x) ensures Stands(s', x) {
      assert x == q || MidBegin(s, x);
    }
  }

  lemma AtomicStep(s: State, e: Event)
    requires Once(s) && AllStand(s) && Enabled(s, e) && Uninterrupted(s, e)
    ensures Fresh(s, e) && AllStand(Step(s, e))
  {
    match e
    case Go(q, ok) => AtomicGo(s, q, ok);
    case Crash(_) => CrashStands(s, e);
    case _ =>
  }

  lemma CrashStands(s: State, e: Event)
    requires AllStand(s) && Enabled(s, e) && e.Crash?
    ensures AllStand(Step(s, e))
  {
    var s' := Step(s, e);
    forall x | x in s'.requests && MidBegin(s', x) ensures Stands(s', x) {
      assert MidBegin(s, x) && Stands(s, x);
    }
  }

  lemma {:induction false} AtomicRunIsFresh(s: State, es: seq<Event>)
    requires Once(s) && AllStand(s) && AtomicRun(s, es)
    ensures FreshRun(s, es)
    decreases es
  {
    if es != [] {
      AtomicStep(s, es[0]);
      OnceStep(s, es[0]);
      AtomicRunIsFresh(Step(s, es[0]), es[1..]);
    }
  }

  /** So in every run whose begins are not interrupted the body runs at most once, whatever fails or dies. */
  lemma UninterruptedBeginsRunOnce(creator: RequestId, process: ProcessId, action: Action, es: seq<Event>, c: CallerRef)
    requires AtomicRun(Created(creator, process, action), es)
    ensures Legal(Created(creator, process, action), es)
    ensures AtMostOnce(After(Created(creator, process, action), es), c)
  {
    var s0 := Created(creator, process, action);
    assert Once(s0) && AllStand(s0);
    AtomicRunIsFresh(s0, es);
    BodyRunsAtMostOnce(creator, process, action, es, c);
  }

  // ---------------------------------------------------------------- why begin has to be one step

  lemma {:induction false} Extend(s: State, es: seq<Event>, e: Event)
    requires Legal(s, es) && Enabled(After(s, es), e)
    ensures Legal(s, es + [e]) && After(s, es + [e]) == Step(After(s, es), e)
    decreases es
  {
    if es == [] {
      assert es + [e] == [e] && [e][1..] == [];
    } else {
      assert (es + [e])[1..] == es[1..] + [e];
      Extend(Step(s, es[0]), es[1..], e);
    }
  }

  /** Five further events that all succeed. */
  lemma Extend5(s: State, es: seq<Event>, f: seq<Event>)
    requires Legal(s, es) && |f| == 5 && FiveEnabled(After(s, es), f)
    ensures Legal(s, es + f) && After(s, es + f) == FiveSteps(After(s, es), f)
  {
    var t := After(s, es);
    Extend(s, es, f[0]);
    Extend(s, es + [f[0]], f[1]);
    Extend(s, es + [f[0]] + [f[1]], f[2]);
    Extend(s, es + [f[0]] + [f[1]] + [f[2]], f[3]);
    Extend(s, es + [f[0]] + [f[1]] + [f[2]] + [f[3]], f[4]);
    assert es + [f[0]] + [f[1]] + [f[2]] + [f[3]] + [f[4]] == es + f;
  }

  predicate FiveEnabled(s: State, f: seq<Event>)
    requires |f| == 5
  {
    && Enabled(s, f[0])
    && var s1 := Step(s, f[0]);
    && Enabled(s1, f[1])
    && var s2 := Step(s1, f[1]);
    && Enabled(s2, f[2])
    && var s3 := Step(s2, f[2]);
    && Enabled(s3, f[3])
    && var s4 := Step(s3, f[3]);
       Enabled(s4, f[4])
  }

  function FiveSteps(s: State, f: seq<Event>): State
    requires |f| == 5 && FiveEnabled(s, f)
  {
    Step(Step(Step(Step(Step(s, f[0]), f[1]), f[2]), f[3]), f[4])
  }

  /** A body that ends well, completes its record and releases the fence. */
  function Ending(q: RequestId): seq<Event> {
    [EndBody(q, true, false), Go(q, true), Go(q, true), Go(q, true), Go(q, true)]
  }

  lemma BodyEnds(s: State, q: RequestId)
    requires q in s.requests && s.requests[q].pc.Body?
    ensures Enabled(s, EndBody(q, true, false))
    ensures Step(s, EndBody(q, true, false)) == At(s, q, LogEnd(s.requests[q].pc.token, true, false))
  {
  }

  lemma EndIsLogged(s: State, q: RequestId, token: Token)
    requires q in s.requests && s.requests[q].pc == LogEnd(token, true, false)
    ensures Enabled(s, Go(q, true)) && Step(s, Go(q, true)) == At(s, q, CompleteRecord(token, true, false))
  {
  }

  lemma RecordEnds(s: State, q: RequestId, token: Token)
    requires q in s.requests && s.requests[q].pc == CompleteRecord(token, true, false)
    ensures var caller := s.requests[q].caller;
            && Enabled(s, Go(q, true))
            && Step(s, Go(q, true)) ==
               At(s, q, ReleaseFence(token, false)).(
                 records := if caller.Some? then SetByCaller(s.records, caller.value, SucceededState) else s.records)
  {
  }

  lemma FenceGoes(s: State, q: RequestId, token: Token)
    requires q in s.requests && s.requests[q].pc == ReleaseFence(token, false) && s.busy == Some(token)
    ensures Enabled(s, Go(q, true)) && Step(s, Go(q, true)) == At(s, q, UnlockMemory).(busy := None)
  {
  }

  lemma MemoryGoes(s: State, q: RequestId)
    requires q in s.requests && s.requests[q].pc == UnlockMemory
    ensures Enabled(s, Go(q, true))
    ensures Step(s, Go(q, true)) == At(s, q, Over).(memory := s.memory - {s.requests[q].process})
  {
  }

  lemma EndingEnds(s: State, q: RequestId)
    requires q in s.requests && s.requests[q].pc.Body? && s.busy == Some(s.requests[q].pc.token)
    ensures FiveEnabled(s, Ending(q))
    ensures var r := s.requests[q];
            FiveSteps(s, Ending(q)) ==
            State(None, if r.caller.Some? then SetByCaller(s.records, r.caller.value, SucceededState) else s.records,
                  s.memory - {r.process}, s.requests[q := r.(pc := Over)], s.started)
  {
    var token := s.requests[q].pc.token;
    BodyEnds(s, q);
    var s1 := At(s, q, LogEnd(token, true, false));
    EndIsLogged(s1, q, token);
    var s2 := At(s1, q, CompleteRecord(token, true, false));
    RecordEnds(s2, q, token);
    var s3 := Step(s2, Go(q, true));
    FenceGoes(s3, q, token);
    var s4 := Step(s3, Go(q, true));
    MemoryGoes(s4, q);
  }

  /** An operation whose body succeeds ends and gives its fence back. */
  lemma EndingReaches(s: State, es: seq<Event>, q: RequestId)
    requires Legal(s, es)
    requires var t := After(s, es); q in t.requests && t.requests[q].pc.Body? && t.busy == Some(t.requests[q].pc.token)
    ensures Legal(s, es + Ending(q))
    ensures var t := After(s, es);
            var r := t.requests[q];
            After(s, es + Ending(q)) ==
            State(None, if r.caller.Some? then SetByCaller(t.records, r.caller.value, SucceededState) else t.records,
                  t.memory - {r.process}, t.requests[q := r.(pc := Over)], t.started)
  {
    EndingEnds(After(s, es), q);
    Extend5(s, es, Ending(q));
  }

  /** The statements of a first request after its lookup was asked for: it claims, records and starts its body. */
  function Claiming(q: RequestId): seq<Event> {
    [Go(q, true), Go(q, true), Go(q, true), Go(q, true), Go(q, true)]
  }

  lemma ClaimingStarts(s: State, q: RequestId)
    requires q in s.requests && s.requests[q].pc.ReadRecord? && s.requests[q].caller.Some? && s.records == []
    requires s.busy == None && s.requests[q].process !in s.memory
    ensures FiveEnabled(s, Claiming(q))
    ensures var r := s.requests[q];
            FiveSteps(s, Claiming(q)) ==
            State(Some(q), [Record(r.caller.value, r.action, q, RunningState)], s.memory + {r.process},
                  s.requests[q := r.(pc := Body(q))], s.started + multiset{r.caller.value})
  {
  }

  /** The statements of a retry that saw the record running and counts the fence after its release. */
  lemma RetryStartsAgain(s: State, q: RequestId)
    requires q in s.requests && s.requests[q].pc.CountFence? && s.requests[q].caller.Some?
    requires s.busy == None && s.requests[q].process !in s.memory
    ensures FiveEnabled(s, Claiming(q))
    ensures FiveSteps(s, Claiming(q)).started == s.started + multiset{s.requests[q].caller.value}
  {
  }

  lemma CreatorLeaves(creator: RequestId, process: ProcessId, action: Action)
    ensures Legal(Created(creator, process, action), Ending(creator))
    ensures After(Created(creator, process, action), Ending(creator)) ==
            State(None, [], {}, map[creator := Request(process, None, action, Over)], multiset{})
  {
    var s0 := Created(creator, process, action);
    EndingReaches(s0, [], creator);
    assert [] + Ending(creator) == Ending(creator);
    assert s0.requests[creator := Request(process, None, action, Over)] ==
           map[creator := Request(process, None, action, Over)];
  }

  lemma FirstAttemptArrives() returns (es: seq<Event>)
    ensures Legal(Created(0, 0, 0), es)
    ensures After(Created(0, 0, 0), es) ==
            State(None, [], {}, map[0 := Request(0, None, 0, Over), 1 := Request(0, Some(5), 9, ReadRecord)],
                multiset{})
  {
    CreatorLeaves(0, 0, 0);
    Extend(Created(0, 0, 0), Ending(0), Arrive(1, 0, Some(5), 9));
    es := Ending(0) + [Arrive(1, 0, Some(5), 9)];
  }

  /** The first attempt runs its body. */
  lemma FirstAttemptRuns() returns (es: seq<Event>)
    ensures Legal(Created(0, 0, 0), es)
    ensures After(Created(0, 0, 0), es) ==
            State(Some(1), [Record(5, 9, 1, RunningState)], {0},
                  map[0 := Request(0, None, 0, Over), 1 := Request(0, Some(5), 9, Body(1))], multiset{5})
  {
    es := FirstAttemptArrives();
    ClaimingStarts(After(Created(0, 0, 0), es), 1);
    Extend5(Created(0, 0, 0), es, Claiming(1));
    es := es + Claiming(1);
  }

  /** Meanwhile a retry in another process reads its record. */
  lemma RetryReadsWhileRunning() returns (es: seq<Event>)
    ensures Legal(Created(0, 0, 0), es)
    ensures var s := After(Created(0, 0, 0), es);
            && s.busy == Some(1) && s.memory == {0} && s.started == multiset{5}
            && s.requests == map[0 := Request(0, None, 0, Over), 1 := Request(0, Some(5), 9, Body(1)),
                                 2 := Request(1, Some(5), 9, CountFence(1))]
  {
    var s0 := Created(0, 0, 0);
    es := FirstAttemptRuns();
    Extend(s0, es, Arrive(2, 1, Some(5), 9));
    es := es + [Arrive(2, 1, Some(5), 9)];
    Extend(s0, es, Go(2, true));
    es := es + [Go(2, true)];
  }

  /**
   A concrete run in which the same request body runs twice: the retry reads the record while the
   first attempt runs, and counts the fence after the first attempt succeeded and released it.
   */
  lemma StaleRetryRunsTheBodyTwice() returns (es: seq<Event>)
    ensures Legal(Created(0, 0, 0), es) && After(Created(0, 0, 0), es).started[5] == 2
  {
    var s0 := Created(0, 0, 0);
    es := RetryReadsWhileRunning();
    EndingEnds(After(s0, es), 1);
    Extend5(s0, es, Ending(1));
    es := es + Ending(1);
    RetryStartsAgain(After(s0, es), 2);
    Extend5(s0, es, Claiming(2));
    es := es + Claiming(2);
  }
}
