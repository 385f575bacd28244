/** Resizing: normalisation of a specification, its validation, and interleaved resizes of one instance. */
module Resize {
  import opened Common

  datatype Arch = Unnamed | Amd64 | X86_64 | Arm64 | Aarch64 | OtherArch(name: string)

  datatype Spec = Spec(cpu: int, cpuMilli: int, memory: int, disk: int, arch: Arch)

  const MIN_RESIZE_MEMORY := 128

  function CanonicalArch(a: Arch): Arch {
    match a
    case Amd64 => X86_64
    case Arm64 => Aarch64
    case _ => a
  }

  // ---------------------------------------------------------------- normalisation

  /** A specification as it is stored. */
  predicate Normal(s: Spec) {
    && (if s.cpuMilli > 0 then 100 <= s.cpuMilli <= 64000 && 1000 * (s.cpu - 1) < s.cpuMilli <= 1000 * s.cpu
        else 1 <= s.cpu <= 64)
    && 1 <= s.memory <= 262144 && 1 <= s.disk <= 4096 && !s.arch.Unnamed?
  }

  /** What a normal form keeps of the request: every amount asked for, and defaults elsewhere. */
  predicate Honours(s: Spec, n: Spec) {
    && n.cpuMilli == s.cpuMilli
    && (s.cpuMilli <= 0 ==> n.cpu == if s.cpu > 0 then s.cpu else 1)
    && n.memory == (if s.memory > 0 then s.memory else 1024)
    && n.disk == (if s.disk > 0 then s.disk else 20)
    && n.arch == (if s.arch.Unnamed? then X86_64 else s.arch)
  }

  predicate WithinLimits(s: Spec) {
    && (if s.cpuMilli > 0 then 100 <= s.cpuMilli <= 64000 else s.cpu <= 64)
    && s.memory <= 262144 && s.disk <= 4096
  }

  function Normalized(s: Spec): Option<Spec> {
    if !WithinLimits(s) then None
    else Some(Spec(
      if s.cpuMilli > 0 then (s.cpuMilli + 999) / 1000 else if s.cpu > 0 then s.cpu else 1,
      s.cpuMilli,
      if s.memory > 0 then s.memory else 1024,
      if s.disk > 0 then s.disk else 20,
      if s.arch.Unnamed? then X86_64 else s.arch))
  }

  /** The two conditions pin the normal form down, and milli-cores are rounded up to whole cores. */
  lemma NormalFormIsUnique(s: Spec, n: Spec)
    ensures Normalized(s) == Some(n) <==> Normal(n) && Honours(s, n)
  {
    if s.cpuMilli > 0 {
      RoundUp(s.cpuMilli, n.cpu);
    }
  }

  lemma RoundUp(milli: int, cpu: int)
    requires milli > 0
    ensures (milli + 999) / 1000 == cpu <==> 1000 * (cpu - 1) < milli <= 1000 * cpu
  {
  }

  lemma NormalizationIsIdempotent(s: Spec)
    requires Normalized(s).Some?
    ensures Normalized(Normalized(s).value) == Normalized(s)
  {
    var n := Normalized(s).value;
    NormalFormIsUnique(s, n);
    NormalFormIsUnique(n, n);
  }

  /** The assignments to the local copy, in their order. */
  method NormalizeInstanceSpec(given: Spec) returns (spec: Spec, ok: bool)
    ensures ok <==> WithinLimits(given)
    ensures ok ==> Normal(spec) && Honours(given, spec)
  {
    spec := given;
    if spec.cpuMilli > 0 {
      if spec.cpuMilli < 100 || spec.cpuMilli > 64000 {
        return spec, false;
      }
      spec := spec.(cpu := (spec.cpuMilli + 999) / 1000);
    } else {
      if spec.cpu <= 0 {
        spec := spec.(cpu := 1);
      }
      if spec.cpu > 64 {
        return spec, false;
      }
    }
    if spec.memory <= 0 {
      spec := spec.(memory := 1024);
    }
    if spec.memory > 262144 {
      return spec, false;
    }
    if spec.disk <= 0 {
      spec := spec.(disk := 20);
    }
    if spec.disk > 4096 {
      return spec, false;
    }
    if spec.arch.Unnamed? {
      spec := spec.(arch := X86_64);
    }
    return spec, true;
  }

  // ---------------------------------------------------------------- validation

  datatype Complaint = NotPositive | OutOfLimits | TooLittleMemory | ShrinksOrChangesArch

  datatype Verdict = Ok(spec: Spec) | Rejected(why: Complaint)

  /** Neither a smaller disk nor another architecture than the row has. */
  predicate Respects(spec: Spec, row: Spec) {
    spec.disk >= row.disk && CanonicalArch(spec.arch) == CanonicalArch(row.arch)
  }

  predicate Pair(a: Arch, b: Arch, x: Arch, y: Arch) {
    (a == x && b == y) || (a == y && b == x)
  }

  /** Names of one and the same architecture. */
  predicate SameArch(a: Arch, b: Arch) {
    a == b || Pair(a, b, Amd64, X86_64) || Pair(a, b, Arm64, Aarch64)
  }

  lemma CanonicalMeansSame(a: Arch, b: Arch)
    ensures CanonicalArch(a) == CanonicalArch(b) <==> SameArch(a, b)
  {
  }

  function Validate(req: Spec, row: Spec): Verdict {
    if req.cpuMilli < 0 || (req.cpu < 1 && req.cpuMilli == 0) || req.memory < 1 || req.disk < 1 then
      Rejected(NotPositive)
    else
      var n := Normalized(if req.arch.Unnamed? then req.(arch := row.arch) else req);
      if n.None? then Rejected(OutOfLimits)
      else if n.value.memory < MIN_RESIZE_MEMORY then Rejected(TooLittleMemory)
      else if !Respects(n.value, row) then Rejected(ShrinksOrChangesArch)
      else Ok(n.value)
  }

  /** An accepted request is normal, respects the row, and is what was asked for. */
  lemma AcceptedRespectsTheRow(req: Spec, row: Spec)
    requires Validate(req, row).Ok?
    ensures var spec := Validate(req, row).spec;
            && Normal(spec) && Respects(spec, row) && spec.memory >= MIN_RESIZE_MEMORY
            && spec.memory == req.memory && spec.disk == req.disk && spec.cpuMilli == req.cpuMilli
            && (req.cpuMilli == 0 ==> spec.cpu == req.cpu)
  {
    var asked := if req.arch.Unnamed? then req.(arch := row.arch) else req;
    NormalFormIsUnique(asked, Normalized(asked).value);
  }

  predicate Positive(req: Spec) {
    req.cpuMilli >= 0 && (req.cpu >= 1 || req.cpuMilli > 0) && req.memory >= 1 && req.disk >= 1
  }

  /** A request is accepted exactly so, and refused with the first reason that applies. */
  lemma AcceptedIff(req: Spec, row: Spec)
    ensures Validate(req, row).Ok? <==>
              && Positive(req) && WithinLimits(req) && req.memory >= 128 && req.disk >= row.disk
              && (if req.arch.Unnamed? then !row.arch.Unnamed? else SameArch(req.arch, row.arch))
    ensures Validate(req, row) == Rejected(NotPositive) <==> !Positive(req)
    ensures Validate(req, row) == Rejected(OutOfLimits) <==> Positive(req) && !WithinLimits(req)
    ensures Validate(req, row) == Rejected(TooLittleMemory) <==>
              Positive(req) && WithinLimits(req) && req.memory < 128
  {
    CanonicalMeansSame(req.arch, row.arch);
  }

  /** Asking for what a stored row already has changes nothing, so no request is sent for it. */
  lemma ResizeToTheSameIsTheSame(row: Spec)
    requires Normal(row) && row.memory >= MIN_RESIZE_MEMORY && row.cpuMilli >= 0
    ensures Validate(row, row) == Ok(row)
    ensures Validate(row.(arch := Unnamed), row) == Ok(row)
  {
    NormalFormIsUnique(row, row);
  }

  // ---------------------------------------------------------------- interleaved resizes

  type ProcessId = nat

  datatype Pc =
    | Prechecked         // accepted against a row read before the fence
    | Holding            // has the fence
    | Checked(spec: Spec)  // accepted again under the fence, about to be sent
    | Applied(spec: Spec)  // the agent has confirmed it
    | Kept               // failed after sending, the fence is retained
    | Done

  datatype Process = Process(req: Spec, pc: Pc)

  datatype State = State(row: Spec, busy: Option<ProcessId>, processes: map<ProcessId, Process>)

  datatype Event =
    | Precheck(p: ProcessId, req: Spec)
    | Begin(p: ProcessId)
    | Recheck(p: ProcessId, sameNetwork: bool, logged: bool)
    | Send(p: ProcessId, outcome: Outcome, echoed: bool)
    | Persist(p: ProcessId, committed: bool)

  predicate Enabled(s: State, e: Event) {
    match e
    case Precheck(p, req) => p !in s.processes && Validate(req, s.row).Ok?
    case Begin(p) => p in s.processes && s.processes[p].pc.Prechecked? && s.busy.None?
    case Recheck(p, _, _) => p in s.processes && s.processes[p].pc.Holding?
    case Send(p, _, _) => p in s.processes && s.processes[p].pc.Checked?
    case Persist(p, _) => p in s.processes && s.processes[p].pc.Applied?
  }

  function Moved(s: State, p: ProcessId, pc: Pc): State
    requires p in s.processes
  {
    s.(processes := s.processes[p := s.processes[p].(pc := pc)])
  }

  function Step(s: State, e: Event): State
    requires Enabled(s, e)
  {
    match e
    case Precheck(p, req) => s.(processes := s.processes[p := Process(req, Prechecked)])
    case Begin(p) => Moved(s, p, Holding).(busy := Some(p))
    case Recheck(p, sameNetwork, logged) =>
      var v := Validate(s.processes[p].req, s.row);
      if v.Rejected? || (v.spec == s.row && sameNetwork) || !logged then Moved(s, p, Done).(busy := None)
      else Moved(s, p, Checked(v.spec))
    case Send(p, outcome, echoed) =>
      if outcome.Confirmed? && echoed then Moved(s, p, Applied(s.processes[p].pc.spec)) else Moved(s, p, Kept)
    case Persist(p, committed) =>
      if committed then Moved(s, p, Done).(row := s.processes[p].pc.spec, busy := None) else Moved(s, p, Kept)
  }

  predicate Run(s: State, es: seq<Event>)
    decreases es
  {
    es == [] || (Enabled(s, es[0]) && Run(Step(s, es[0]), es[1..]))
  }

  function End(s: State, es: seq<Event>): State
    requires Run(s, es)
    decreases es
  {
    if es == [] then s else End(Step(s, es[0]), es[1..])
  }

  predicate Init(s: State) {
    Normal(s.row) && s.busy.None? && s.processes == map[]
  }

  ghost predicate ProcessOk(s: State, p: ProcessId)
    requires p in s.processes
  {
    var pc := s.processes[p].pc;
    && (pc.Holding? || pc.Checked? || pc.Applied? || pc.Kept? ==> s.busy == Some(p))
    && (pc.Checked? || pc.Applied? ==>
          Normal(pc.spec) && Respects(pc.spec, s.row) && pc.spec.memory >= MIN_RESIZE_MEMORY)
  }

  ghost predicate Inv(s: State) {
    Normal(s.row) && forall p | p in s.processes :: ProcessOk(s, p)
  }

  lemma InvStep(s: State, e: Event)
    requires Inv(s) && Enabled(s, e)
    ensures Inv(Step(s, e)) && Respects(Step(s, e).row, s.row)
  {
    if !e.Precheck? {
      assert ProcessOk(s, e.p);
    }
    if e.Recheck? && Validate(s.processes[e.p].req, s.row).Ok? {
      AcceptedRespectsTheRow(s.processes[e.p].req, s.row);
    }
  }

  /** Over every run of interleaved resizes the disk never shrinks and the architecture stays. */
  lemma {:induction false} DiskNeverShrinks(s: State, es: seq<Event>)
    requires Inv(s) && Run(s, es)
    ensures Inv(End(s, es)) && Respects(End(s, es).row, s.row)
    decreases es
  {
    if es != [] {
      InvStep(s, es[0]);
      DiskNeverShrinks(Step(s, es[0]), es[1..]);
    }
  }

  /** What is sent respects the row at the moment of sending, and nobody else can write it until the reply. */
  lemma SentRespectsTheRow(s0: State, es: seq<Event>, p: ProcessId, outcome: Outcome, echoed: bool)
    requires Init(s0) && Run(s0, es) && Enabled(End(s0, es), Send(p, outcome, echoed))
    ensures var s := End(s0, es);
            && var spec := s.processes[p].pc.spec;
            && Normal(spec) && Respects(spec, s.row) && Respects(spec, s0.row) && spec.memory >= MIN_RESIZE_MEMORY
            && s.busy == Some(p)
            && forall e | Enabled(s, e) && e.p != p :: Step(s, e).row == s.row
  {
    DiskNeverShrinks(s0, es);
    var s := End(s0, es);
    assert ProcessOk(s, p);
    assert forall q | q in s.processes && q != p :: ProcessOk(s, q) && !s.processes[q].pc.Applied?;
  }

  ghost predicate Reaches(s: State, t: State) {
    exists es :: Run(s, es) && End(s, es) == t
  }

  lemma ReachesFirst(s: State, e: Event, t: State)
    requires Enabled(s, e) && Reaches(Step(s, e), t)
    ensures Reaches(s, t)
  {
    var es :| Run(Step(s, e), es) && End(Step(s, e), es) == t;
    var all := [e] + es;
    assert all[0] == e && all[1..] == es;
    assert Run(s, all) && End(s, all) == t;
  }

  lemma ReachesSelf(s: State)
    ensures Reaches(s, s)
  {
    assert Run(s, []) && End(s, []) == s;
  }

  lemma SmallerThanTheRow(req: Spec, row: Spec)
    requires req.disk < row.disk
    ensures Validate(req, row).Rejected?
  {
    if Validate(req, row).Ok? {
      AcceptedRespectsTheRow(req, row);
      assert false;
    }
  }

  /** A process that has been accepted resizes the row without trouble. */
  lemma ResizeReaches(s: State, p: ProcessId, t: State)
    requires s.busy.None? && p in s.processes && s.processes[p].pc.Prechecked?
    requires Validate(s.processes[p].req, s.row).Ok?
    requires var spec := Validate(s.processes[p].req, s.row).spec;
             Reaches(Moved(s, p, Done).(row := spec), t)
    ensures Reaches(s, t)
  {
    var s1 := Step(s, Begin(p));
    var s2 := Step(s1, Recheck(p, false, true));
    var s3 := Step(s2, Send(p, Confirmed, true));
    assert Step(s3, Persist(p, true)) == Moved(s, p, Done).(row := Validate(s.processes[p].req, s.row).spec);
    ReachesFirst(s3, Persist(p, true), t);
    ReachesFirst(s2, Send(p, Confirmed, true), t);
    ReachesFirst(s1, Recheck(p, false, true), t);
    ReachesFirst(s, Begin(p), t);
  }

  /** How an operation ends that is not disturbed, whatever is answered. */
  datatype Ending = Declined | Unchanged | InDoubt | Resized

  /**
   Declined or with nothing to do, it gives the fence back and leaves the row; it resizes only what the agent
   has echoed and the database stored; after sending, any failure keeps the fence.
   */
  lemma ResizeEnds(s: State, p: ProcessId, sameNetwork: bool, logged: bool, outcome: Outcome, echoed: bool,
                   committed: bool)
    returns (ending: Ending)
    requires Enabled(s, Begin(p))
    ensures var v := Validate(s.processes[p].req, s.row);
            && (ending.Declined? <==> v.Rejected? || (!ending.Unchanged? && !logged))
            && (ending.Unchanged? <==> v == Ok(s.row) && sameNetwork)
            && (ending.Resized? <==> v.Ok? && !ending.Unchanged? && logged && outcome.Confirmed? && echoed && committed)
    ensures var t := if ending.Resized? then Moved(s, p, Done).(row := Validate(s.processes[p].req, s.row).spec)
                     else if ending.InDoubt? then Moved(s, p, Kept).(busy := Some(p))
                     else Moved(s, p, Done);
            Reaches(s, t)
  {
    var v := Validate(s.processes[p].req, s.row);
    var s1 := Step(s, Begin(p));
    var s2 := Step(s1, Recheck(p, sameNetwork, logged));
    var t := s2;
    ending := if v.Ok? && v.spec == s.row && sameNetwork then Unchanged else Declined;
    if s2.processes[p].pc.Checked? {
      var s3 := Step(s2, Send(p, outcome, echoed));
      t := s3;
      ending := InDoubt;
      if s3.processes[p].pc.Applied? {
        t := Step(s3, Persist(p, committed));
        ending := if committed then Resized else InDoubt;
        ReachesSelf(t);
        ReachesFirst(s3, Persist(p, committed), t);
      }
      ReachesSelf(s3);
      ReachesFirst(s2, Send(p, outcome, echoed), t);
    }
    ReachesSelf(s2);
    ReachesFirst(s1, Recheck(p, sameNetwork, logged), t);
    ReachesFirst(s, Begin(p), t);
  }

  /** Without the second validation this would fail: what was accepted before the fence may have become a shrink. */
  lemma PrecheckGoesStale(row: Spec, larger: Spec, req: Spec)
    requires Validate(req, row).Ok? && Validate(larger, row).Ok? && req.disk < larger.disk
    ensures exists t ::
              && Reaches(State(row, None, map[]), t)
              && 1 in t.processes && t.processes[1] == Process(req, Holding) && Validate(req, t.row).Rejected?
  {
    var s0 := State(row, None, map[]);
    var s1 := Step(s0, Precheck(1, req));
    var s2 := Step(s1, Precheck(2, larger));
    var s3 := Moved(s2, 2, Done).(row := Validate(larger, row).spec);
    var t := Step(s3, Begin(1));
    AcceptedRespectsTheRow(larger, row);
    SmallerThanTheRow(req, t.row);
    assert Run(t, []) && Reaches(t, t);
    ReachesFirst(s3, Begin(1), t);
    ResizeReaches(s2, 2, t);
    ReachesFirst(s1, Precheck(2, larger), t);
    ReachesFirst(s0, Precheck(1, req), t);
  }
}
