/** Ticks and rounds as runs of the protocol's step machine: what is proved of ticks over record files that nobody
    contends for is about processes that make system calls. */
module TickRuns {
  import opened Basics
  import opened LeaseFaults
  import opened LeaseSafety
  import opened Protocol
  import opened Records
  import C = Coverage
  import O = Ordering
  import T = TickSteps

  /** Process `p` is between operations with the given groups held, the files are those of `w`, nobody is inside a
      critical section, and the clock has not passed the next reading. */
  ghost predicate Matches(cfg: Config, s: State, p: Pid, clock: nat -> Time, w: C.World, held: set<Sg>) {
    && Procs(cfg, s) && p in s.procs
    && s.procs[p].pc.Idle? && s.procs[p].held.Keys == held
    && Agrees(s, clock, w)
  }

  ghost predicate Agrees(s: State, clock: nat -> Time, w: C.World) {
    && (forall g :: File(s, g) == C.FileOf(w, g))
    && (forall q :: !InPhase(s, q))
    && s.clock <= clock(w.readings)
  }

  /** From `s` to `s'` no process but `p` has moved. */
  ghost predicate OthersStay(s: State, s': State, p: Pid) {
    && s'.procs.Keys == s.procs.Keys
    && (forall q :: q in s.procs && q != p ==> s'.procs[q] == s.procs[q])
  }

  /** The clock does not go back. */
  ghost predicate Rises(clock: nat -> Time, n: nat) {
    clock(n) <= clock(n + 1)
  }

  ghost predicate Rising(clock: nat -> Time) {
    forall n: nat {:trigger Rises(clock, n)} :: Rises(clock, n)
  }

  /** What is held after an operation of a lease. */
  function HeldAfter(op: Op, held: set<Sg>, g: Sg, a: Answer): set<Sg> {
    match op
    case Acquire => if a.Owned() then held + {g} else held
    case Renew => if a.Owned() then held else held - {g}
    case Release => if a.kind.Released? then held - {g} else held
  }

  lemma BelieveKeys(op: Op, g: Sg, held: map<Sg, Time>, a: Answer)
    requires !a.kind.Raised? && (op.Renew? ==> g in held)
    ensures Believe(LeaseRole, op, g, held, a).Keys == HeldAfter(op, held.Keys, g, a)
  {
  }

  /** The clock moves on to the next reading. */
  lemma WaitFor(cfg: Config, s0: State, s: State, p: Pid, clock: nat -> Time, w: C.World, held: set<Sg>)
    returns (s': State)
    requires Reaches(cfg, s0, s, Cleanly) && Matches(cfg, s, p, clock, w, held)
    ensures s' == s.(clock := clock(w.readings))
    ensures Reaches(cfg, s0, s', Cleanly) && Matches(cfg, s', p, clock, w, held)
  {
    var d := clock(w.readings) - s.clock;
    s' := s.(clock := clock(w.readings));
    WaitMoves(cfg, s, d, p, 0);
    assert s' == Apply(cfg, s, Wait(d));
    ReachesStep(cfg, s0, s, Wait(d), Cleanly);
    forall q ensures !InPhase(s', q) {
      assert !InPhase(s, q);
    }
  }

  /** `p` has done an operation on `g` with answer `a`, which has left the files of `g` as `f`. */
  ghost predicate HasRun(cfg: Config, s: State, s': State, p: Pid, op: Op, g: Sg, now: Time, f: FileState, a: Answer) {
    && Procs(cfg, s') && OnlyMoved(s, s', p, g) && s'.clock <= now && p in s.procs && p in s'.procs
    && File(s', g) == f
    && s'.procs[p] == Proc(Believe(cfg.role, op, g, s.procs[p].held, a), Idle)
  }

  lemma SoloArrives(cfg: Config, s: State, p: Pid, op: Op, g: Sg, pause: Time, tried: Time, now: Time, f: FileState,
                    a: Answer)
    returns (steps: seq<Step>)
    requires Procs(cfg, s) && Starts(cfg, s, p, op, g) && 0.0 <= pause && s.clock == tried && now == tried + pause
    requires LockOpen(File(s, g).lock, cfg.ttls[p], tried)
    requires (f, a) == RunOp(op, Id(cfg, p), File(s, g), tried, now)
    ensures Arrives(cfg, s, steps, p, g, Believe(cfg.role, op, g, s.procs[p].held, a), f, now)
  {
    SoloIsRunOp(cfg, s, p, op, g, pause, tried, now);
    steps := Solo(cfg, s, p, op, g, pause, now);
  }

  lemma OpAlone(cfg: Config, s0: State, s: State, p: Pid, op: Op, g: Sg, tried: Time, now: Time, f: FileState,
                a: Answer)
    returns (s': State)
    requires Reaches(cfg, s0, s, Cleanly) && Procs(cfg, s) && Starts(cfg, s, p, op, g) && Alone(s, p, g)
    requires s.clock == tried <= now && LockOpen(File(s, g).lock, cfg.ttls[p], tried)
    requires (f, a) == RunOp(op, Id(cfg, p), File(s, g), tried, now)
    ensures Reaches(cfg, s0, s', Cleanly) && HasRun(cfg, s, s', p, op, g, now, f, a)
  {
    var held := Believe(cfg.role, op, g, s.procs[p].held, a);
    var steps := SoloArrives(cfg, s, p, op, g, now - tried, tried, now, f, a);
    s' := ReachArrived(cfg, s0, s, steps, p, op, g, now, held, f, a);
  }

  lemma ReachArrived(cfg: Config, s0: State, s: State, steps: seq<Step>, p: Pid, op: Op, g: Sg, now: Time,
                     held: map<Sg, Time>, f: FileState, a: Answer)
    returns (s': State)
    requires Reaches(cfg, s0, s, Cleanly) && Arrives(cfg, s, steps, p, g, held, f, now)
    requires Alone(s, p, g) && p in s.procs
    requires held == Believe(cfg.role, op, g, s.procs[p].held, a)
    ensures Reaches(cfg, s0, s', Cleanly) && HasRun(cfg, s, s', p, op, g, now, f, a)
  {
    ReachesRun(cfg, s0, s, steps, Cleanly);
    s' := Final(cfg, s, steps);
  }

  lemma OpBusy(cfg: Config, s0: State, s: State, p: Pid, op: Op, g: Sg, now: Time) returns (s': State)
    requires Reaches(cfg, s0, s, Cleanly) && Procs(cfg, s) && Starts(cfg, s, p, op, g) && s.clock <= now
    ensures Reaches(cfg, s0, s', Cleanly) && HasRun(cfg, s, s', p, op, g, now, File(s, g), BUSY)
  {
    s' := BounceMoves(cfg, s, p, op, g);
    ReachesStep(cfg, s0, s, Bounce(p, op, g), Cleanly);
  }

  lemma BounceMoves(cfg: Config, s: State, p: Pid, op: Op, g: Sg) returns (s': State)
    requires Procs(cfg, s) && Starts(cfg, s, p, op, g)
    ensures Enabled(cfg, s, Bounce(p, op, g)) && s' == Apply(cfg, s, Bounce(p, op, g)) && Clean(s, Bounce(p, op, g))
    ensures HasRun(cfg, s, s', p, op, g, s.clock, File(s, g), BUSY)
  {
    s' := Back(s, p, Believe(cfg.role, op, g, s.procs[p].held, BUSY));
  }

  /** The operation itself, the clock being at its first reading: its system calls, or the busy answer. */
  lemma OpFrom(cfg: Config, s0: State, s: State, p: Pid, op: Op, g: Sg, tried: Time, now: Time, f: FileState, a: Answer)
    returns (s': State)
    requires Reaches(cfg, s0, s, Cleanly) && Procs(cfg, s) && Starts(cfg, s, p, op, g) && forall q :: !InPhase(s, q)
    requires s.clock == tried <= now
    requires (f, a) == RunOp(op, Id(cfg, p), File(s, g), tried, now)
    ensures Reaches(cfg, s0, s', Cleanly) && HasRun(cfg, s, s', p, op, g, now, f, a)
  {
    if LockOpen(File(s, g).lock, cfg.ttls[p], tried) {
      s' := OpAlone(cfg, s0, s, p, op, g, tried, now, f, a);
    } else {
      s' := OpBusy(cfg, s0, s, p, op, g, now);
    }
  }

  lemma AgreesAfter(s: State, s': State, p: Pid, clock: nat -> Time, w: C.World, g: Sg, w': C.World)
    requires Agrees(s, clock, w) && OnlyMoved(s, s', p, g) && p in s'.procs && s'.procs[p].pc.Idle?
    requires s'.procs.Keys == s.procs.Keys && s'.clock <= clock(w'.readings)
    requires w'.files == w.files[g := File(s', g)]
    ensures Agrees(s', clock, w')
  {
    forall h ensures File(s', h) == C.FileOf(w', h) {
      assert File(s, h) == C.FileOf(w, h);
    }
    forall q ensures !InPhase(s', q) {
      assert !InPhase(s, q);
    }
  }

  /** What an operation of the file service comes to. */
  lemma OperateIs(op: Op, id: Identity, clock: nat -> Time, w: C.World, g: Sg, f: FileState, a: Answer)
    requires (f, a) == RunOp(op, id, C.FileOf(w, g), clock(w.readings), clock(w.readings + 1))
    ensures C.Operate(op, id, clock, w, g) == (C.World(w.files[g := f], w.readings + 2), a)
    ensures !a.kind.Raised? && (op.Renew? ==> (a.Owned() <==> a.kind.Renewed?))
  {
  }

  lemma OpConcludes(cfg: Config, s: State, s': State, p: Pid, clock: nat -> Time, op: Op, w: C.World, held: set<Sg>,
                    g: Sg, f: FileState, a: Answer)
    requires cfg.role.LeaseRole? && Matches(cfg, s, p, clock, w, held) && (op.Acquire? || g in held)
    requires HasRun(cfg, s, s', p, op, g, clock(w.readings + 1), f, a) && Rises(clock, w.readings + 1)
    requires !a.kind.Raised?
    ensures OthersStay(s, s', p)
    ensures Matches(cfg, s', p, clock, C.World(w.files[g := f], w.readings + 2), HeldAfter(op, held, g, a))
  {
    BelieveKeys(op, g, s.procs[p].held, a);
    AgreesAfter(s, s', p, clock, w, g, C.World(w.files[g := f], w.readings + 2));
  }

  /** One operation of the file service, with result `f` and `a`, is a run. */
  lemma OpIsRun(cfg: Config, s0: State, s: State, p: Pid, clock: nat -> Time, op: Op, w: C.World,
                held: set<Sg>, g: Sg, f: FileState, a: Answer)
    returns (s': State)
    requires cfg.role.LeaseRole? && Reaches(cfg, s0, s, Cleanly) && Matches(cfg, s, p, clock, w, held)
    requires op.Acquire? || g in held
    requires Rising(clock) && !a.kind.Raised?
    requires (f, a) == RunOp(op, Id(cfg, p), C.FileOf(w, g), clock(w.readings), clock(w.readings + 1))
    ensures Reaches(cfg, s0, s', Cleanly) && OthersStay(s, s', p)
    ensures Matches(cfg, s', p, clock, C.World(w.files[g := f], w.readings + 2), HeldAfter(op, held, g, a))
  {
    var r := w.readings;
    var s1 := WaitFor(cfg, s0, s, p, clock, w, held);
    assert Starts(cfg, s1, p, op, g) && File(s1, g) == C.FileOf(w, g);
    assert Rises(clock, r) && Rises(clock, r + 1);
    s' := OpFrom(cfg, s0, s1, p, op, g, clock(r), clock(r + 1), f, a);
    OpConcludes(cfg, s1, s', p, clock, op, w, held, g, f, a);
  }

  // ---- one tick ---------------------------------------------------------------------------

  /** A tick of `p` has come from `s` to `s'`, where its bookkeeping is `st`. */
  ghost predicate Ticking(cfg: Config, s0: State, s: State, s': State, p: Pid, clock: nat -> Time,
                          st: T.TickState<C.World>)
  {
    && Reaches(cfg, s0, s', Cleanly) && OthersStay(s, s', p)
    && Matches(cfg, s', p, clock, st.env, st.held)
  }

  ghost predicate Pace(cfg: Config, clock: nat -> Time) {
    cfg.role.LeaseRole? && Rising(clock)
  }

  /** What a step of the bookkeeping does with an operation's result. */
  ghost predicate Steps(op: Op, id: Identity, clock: nat -> Time, st: T.TickState<C.World>, g: Sg,
                        st': T.TickState<C.World>)
  {
    var (w', a) := C.Operate(op, id, clock, st.env, g);
    st'.env == w' && st'.held == HeldAfter(op, st.held, g, a)
  }

  lemma BookkeepingSteps(id: Identity, clock: nat -> Time, st: T.TickState<C.World>, g: Sg)
    ensures g in st.held ==> Steps(Renew, id, clock, st, g, T.RenewOne(C.FileService(id, clock), st, g))
    ensures Steps(Release, id, clock, st, g, T.ReleaseOne(C.FileService(id, clock), st, g))
    ensures Steps(Acquire, id, clock, st, g, T.AcquireOne(C.FileService(id, clock), st, g))
  {
    var (f, a) := RunOp(Renew, id, C.FileOf(st.env, g), clock(st.env.readings), clock(st.env.readings + 1));
    OperateIs(Renew, id, clock, st.env, g, f, a);
  }

  lemma OpTicks(cfg: Config, s0: State, s: State, s1: State, p: Pid, clock: nat -> Time, op: Op,
                st: T.TickState<C.World>, g: Sg, st': T.TickState<C.World>)
    returns (s2: State)
    requires Pace(cfg, clock) && Ticking(cfg, s0, s, s1, p, clock, st) && (op.Acquire? || g in st.held)
    requires Steps(op, Id(cfg, p), clock, st, g, st')
    ensures Ticking(cfg, s0, s, s2, p, clock, st')
  {
    var r := st.env.readings;
    var (f, a) := RunOp(op, Id(cfg, p), C.FileOf(st.env, g), clock(r), clock(r + 1));
    OperateIs(op, Id(cfg, p), clock, st.env, g, f, a);
    s2 := OpIsRun(cfg, s0, s1, p, clock, op, st.env, st.held, g, f, a);
  }

  lemma {:induction false} RenewAllTicks(cfg: Config, s0: State, s: State, s1: State, p: Pid, clock: nat -> Time,
                                         st: T.TickState<C.World>, todo: seq<Sg>)
    returns (s2: State)
    requires Pace(cfg, clock) && Ticking(cfg, s0, s, s1, p, clock, st)
    requires O.Distinct(todo) && O.Elements(todo) <= st.held
    ensures Ticking(cfg, s0, s, s2, p, clock, T.RenewAll(C.FileService(Id(cfg, p), clock), st, todo))
    decreases |todo|
  {
    if todo == [] {
      s2 := s1;
    } else {
      assert todo == [todo[0]] + todo[1..];
      O.ConsElements(todo[0], todo[1..]);
      assert todo[0] in O.Elements(todo) && todo[0] !in O.Elements(todo[1..]);
      var st' := T.RenewOne(C.FileService(Id(cfg, p), clock), st, todo[0]);
      BookkeepingSteps(Id(cfg, p), clock, st, todo[0]);
      s2 := OpTicks(cfg, s0, s, s1, p, clock, Renew, st, todo[0], st');
      s2 := RenewAllTicks(cfg, s0, s, s2, p, clock, st', todo[1..]);
    }
  }

  lemma {:induction false} ReleaseDownTicks(cfg: Config, s0: State, s: State, s1: State, p: Pid, clock: nat -> Time,
                                            st: T.TickState<C.World>, todo: seq<Sg>, target: nat)
    returns (s2: State)
    requires Pace(cfg, clock) && Ticking(cfg, s0, s, s1, p, clock, st)
    requires O.Distinct(todo) && O.Elements(todo) <= st.held
    ensures Ticking(cfg, s0, s, s2, p, clock, T.ReleaseDown(C.FileService(Id(cfg, p), clock), st, todo, target))
    decreases |todo|
  {
    if todo == [] || |st.held| <= target {
      s2 := s1;
    } else {
      assert todo == [todo[0]] + todo[1..];
      O.ConsElements(todo[0], todo[1..]);
      assert todo[0] in O.Elements(todo) && todo[0] !in O.Elements(todo[1..]);
      var st' := T.ReleaseOne(C.FileService(Id(cfg, p), clock), st, todo[0]);
      BookkeepingSteps(Id(cfg, p), clock, st, todo[0]);
      s2 := OpTicks(cfg, s0, s, s1, p, clock, Release, st, todo[0], st');
      s2 := ReleaseDownTicks(cfg, s0, s, s2, p, clock, st', todo[1..], target);
    }
  }

  lemma {:induction false} AcquireUpTicks(cfg: Config, s0: State, s: State, s1: State, p: Pid, clock: nat -> Time,
                                          st: T.TickState<C.World>, todo: seq<Sg>, target: nat)
    returns (s2: State)
    requires Pace(cfg, clock) && Ticking(cfg, s0, s, s1, p, clock, st)
    ensures Ticking(cfg, s0, s, s2, p, clock, T.AcquireUp(C.FileService(Id(cfg, p), clock), st, todo, target, {}))
    decreases |todo|
  {
    if todo == [] || |st.held| >= target {
      s2 := s1;
    } else if todo[0] in st.held {
      s2 := AcquireUpTicks(cfg, s0, s, s1, p, clock, st, todo[1..], target);
    } else {
      var st' := T.AcquireOne(C.FileService(Id(cfg, p), clock), st, todo[0]);
      BookkeepingSteps(Id(cfg, p), clock, st, todo[0]);
      s2 := OpTicks(cfg, s0, s, s1, p, clock, Acquire, st, todo[0], st');
      s2 := AcquireUpTicks(cfg, s0, s, s2, p, clock, st', todo[1..], target);
    }
  }

  /** An uncontended tick over the record files is a run of the step machine, after which the process holds what the
      tick holds and the files are those the tick leaves; no other process has moved. */
  lemma TickIsRun(cfg: Config, s0: State, s: State, p: Pid, clock: nat -> Time, w: C.World, held: set<Sg>,
                  target: nat, mode: O.ShardMode, score: Sg -> int, groups: seq<Sg>)
    returns (s': State)
    requires cfg.role.LeaseRole? && Reaches(cfg, s0, s, Cleanly) && Matches(cfg, s, p, clock, w, held)
    requires Rising(clock)
    ensures var svc := C.FileService(Id(cfg, p), clock);
            var t := T.Tick(svc, w, held, target, O.Candidates(mode, score, groups), O.ById(groups));
            && Reaches(cfg, s0, s', Cleanly) && OthersStay(s, s', p)
            && Matches(cfg, s', p, clock, t.env, t.held)
  {
    var svc := C.FileService(Id(cfg, p), clock);
    T.TickWithoutFallback(svc, w, held, target, mode, score, groups);
    O.AscendingOrder(held);
    s' := RenewAllTicks(cfg, s0, s, s, p, clock, T.Begin(w, held), O.Ascending(held));
    var st := T.Renewals(svc, w, held);
    if |st.held| > target {
      O.DescendingOrder(st.held);
      s' := ReleaseDownTicks(cfg, s0, s, s', p, clock, st, O.Descending(st.held), target);
    }
    var st' := T.Releases(svc, st, target);
    if |st'.held| < target {
      s' := AcquireUpTicks(cfg, s0, s, s', p, clock, st', O.Candidates(mode, score, groups), target);
    }
  }

  // ---- a round ----------------------------------------------------------------------------

  /** The processes of a configuration are the managers of a team. */
  ghost predicate Staffed(cfg: Config, tm: C.Team) {
    && cfg.role.LeaseRole? && cfg.accepts == C.ANYBODY && cfg.owners.Keys == cfg.ttls.Keys
    && (forall j: nat :: j < |tm.managers| ==> Employs(cfg, tm, j))
  }

  ghost predicate Employs(cfg: Config, tm: C.Team, j: nat)
    requires j < |tm.managers|
  {
    j in cfg.owners && j in cfg.ttls && Id(cfg, j) == C.Lessee(tm.managers[j].owner, tm.managers[j].ttl)
  }

  /** Every manager's process is between operations and holds what the stage says, over the stage's files. */
  ghost predicate Lined(cfg: Config, tm: C.Team, s: State, stage: C.Stage) {
    && Procs(cfg, s) && |stage.held| == |tm.managers|
    && (forall j: nat :: j < |tm.managers| ==> Waits(s, j, stage.held[j]))
    && Agrees(s, tm.clock, stage.world)
  }

  ghost predicate Waits(s: State, j: Pid, held: set<Sg>) {
    j in s.procs && s.procs[j].pc.Idle? && s.procs[j].held.Keys == held
  }

  lemma LinedNext(cfg: Config, tm: C.Team, s: State, s': State, stage: C.Stage, stage': C.Stage, i: nat)
    requires Lined(cfg, tm, s, stage) && OthersStay(s, s', i) && i < |tm.managers| && |stage'.held| == |stage.held|
    requires Matches(cfg, s', i, tm.clock, stage'.world, stage'.held[i])
    requires stage'.held == stage.held[i := stage'.held[i]]
    ensures Lined(cfg, tm, s', stage')
  {
    forall j: nat | j < |tm.managers| ensures Waits(s', j, stage'.held[j]) {
      assert Waits(s, j, stage.held[j]);
    }
  }

  lemma TurnIsRun(cfg: Config, tm: C.Team, s0: State, s: State, stage: C.Stage, i: nat, stage': C.Stage)
    returns (s': State)
    requires Staffed(cfg, tm) && i < |tm.managers| == |stage.held|
    requires Reaches(cfg, s0, s, Cleanly) && Lined(cfg, tm, s, stage)
    requires Rising(tm.clock)
    requires stage' == C.TurnOf(tm, stage, i)
    ensures Reaches(cfg, s0, s', Cleanly) && Lined(cfg, tm, s', stage')
  {
    var m := tm.managers[i];
    assert Employs(cfg, tm, i) && Waits(s, i, stage.held[i]);
    s' := TickIsRun(cfg, s0, s, i, tm.clock, stage.world, stage.held[i], tm.target, m.mode, m.score, tm.groups);
    LinedNext(cfg, tm, s, s', stage, stage', i);
  }

  /** A run from `s0` leads to the stage. */
  ghost predicate Comes(cfg: Config, tm: C.Team, s0: State, stage: C.Stage) {
    exists s :: Reaches(cfg, s0, s, Cleanly) && Lined(cfg, tm, s, stage)
  }

  ghost predicate Advances(cfg: Config, tm: C.Team, s0: State, st: seq<C.Stage>, k: nat)
    requires k + 1 < |st|
  {
    Comes(cfg, tm, s0, st[k]) ==> Comes(cfg, tm, s0, st[k + 1])
  }

  lemma {:induction false} AllCome(cfg: Config, tm: C.Team, s0: State, st: seq<C.Stage>, i: nat)
    requires i < |st| && Comes(cfg, tm, s0, st[0])
    requires forall k: nat :: k < i ==> Advances(cfg, tm, s0, st, k)
    ensures Comes(cfg, tm, s0, st[i])
  {
    if i > 0 {
      AllCome(cfg, tm, s0, st, i - 1);
      assert Advances(cfg, tm, s0, st, i - 1);
    }
  }

  lemma TurnAdvances(cfg: Config, tm: C.Team, s0: State, st: seq<C.Stage>, k: nat)
    requires Staffed(cfg, tm) && C.Round(tm, st) && k < |tm.managers| && Rising(tm.clock)
    ensures Advances(cfg, tm, s0, st, k)
  {
    if Comes(cfg, tm, s0, st[k]) {
      var s :| Reaches(cfg, s0, s, Cleanly) && Lined(cfg, tm, s, st[k]);
      var s' := TurnIsRun(cfg, tm, s0, s, st[k], k, st[k + 1]);
      assert Comes(cfg, tm, s0, st[k + 1]);
    }
  }

  /** A round of ticks is a run of the step machine, stage by stage. */
  lemma RoundIsRun(cfg: Config, tm: C.Team, s0: State, s: State, st: seq<C.Stage>, i: nat)
    returns (s': State)
    requires Staffed(cfg, tm) && C.Round(tm, st) && i <= |tm.managers|
    requires Reaches(cfg, s0, s, Cleanly) && Lined(cfg, tm, s, st[0])
    requires Rising(tm.clock)
    ensures Reaches(cfg, s0, s', Cleanly) && Lined(cfg, tm, s', st[i])
  {
    forall k: nat | k < i ensures Advances(cfg, tm, s0, st, k) {
      TurnAdvances(cfg, tm, s0, st, k);
    }
    AllCome(cfg, tm, s0, st, i);
    s' :| Reaches(cfg, s0, s', Cleanly) && Lined(cfg, tm, s', st[i]);
  }
}
