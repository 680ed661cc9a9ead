/** Where the protocol's guarantee ends, exactly: processes that share an owner id, a read that fails, a lease's replace
    that fails and is not reported, and a stale lock broken while somebody is inside. */
module LeaseFaults {
  import opened Basics
  import opened Records
  import opened Protocol
  import opened LeaseInvariant
  import opened LeaseSafety

  lemma {:induction false} Append(cfg: Config, s: State, a: seq<Step>, b: seq<Step>, care: Care)
    requires Procs(cfg, s) && Run(cfg, s, a) && Run(cfg, Final(cfg, s, a), b)
    ensures Run(cfg, s, a + b) && Final(cfg, s, a + b) == Final(cfg, Final(cfg, s, a), b)
    ensures KeptRun(cfg, s, a, care) && KeptRun(cfg, Final(cfg, s, a), b, care) ==> KeptRun(cfg, s, a + b, care)
    decreases |a|
  {
    if a == [] {
      assert a + b == b;
    } else {
      Append(cfg, Apply(cfg, s, a[0]), a[1..], b, care);
      assert (a + b)[1..] == a[1..] + b;
    }
  }

  lemma ReachesRun(cfg: Config, s0: State, s: State, steps: seq<Step>, care: Care)
    requires Reaches(cfg, s0, s, care) && Procs(cfg, s) && Run(cfg, s, steps) && KeptRun(cfg, s, steps, care)
    ensures Reaches(cfg, s0, Final(cfg, s, steps), care)
  {
    var before: seq<Step> :|
      && Procs(cfg, s0) && Run(cfg, s0, before)
      && KeptRun(cfg, s0, before, care) && Final(cfg, s0, before) == s;
    Append(cfg, s0, before, steps, care);
  }

  lemma ReachesStep(cfg: Config, s0: State, s: State, step: Step, care: Care)
    requires Reaches(cfg, s0, s, care) && Procs(cfg, s) && Enabled(cfg, s, step)
    requires StateKept(s, care) && StepKept(s, step, care) && StateKept(Apply(cfg, s, step), care)
    ensures Reaches(cfg, s0, Apply(cfg, s, step), care)
  {
    assert KeptRun(cfg, Apply(cfg, s, step), [], care);
    Cons(cfg, s, step, []);
    assert [step] + [] == [step];
    ReachesRun(cfg, s0, s, [step], care);
  }

  /** Everybody idle in a directory without readable records, at time 0. */
  function Start(cfg: Config, files: map<Sg, FileState>): State {
    State(0.0, files, map[], map[], map p | p in cfg.owners :: Proc(map[], Idle))
  }

  lemma StartReaches(cfg: Config, files: map<Sg, FileState>, care: Care)
    requires SoundConfig(cfg) && forall g :: g in files ==> !files[g].cell.Written?
    ensures Init(cfg, Start(cfg, files)) && Reaches(cfg, Start(cfg, files), Start(cfg, files), care)
  {
    var s0 := Start(cfg, files);
    forall g ensures InitialRecord(cfg, s0, g) {
    }
    assert Run(cfg, s0, []) && Final(cfg, s0, []) == s0;
  }

  ghost predicate BothHold(s: State, p: Pid, q: Pid, g: Sg) {
    Believes(s, p, g) && Believes(s, q, g)
  }

  /** A whole acquire of `p` on `g`, alone. */
  lemma AcquireAlone(cfg: Config, s0: State, s: State, p: Pid, g: Sg, held: map<Sg, Time>) returns (s': State)
    requires Reaches(cfg, s0, s, Cleanly) && Procs(cfg, s) && p in s.procs && s.procs[p] == Proc(held, Idle)
    requires LockOpen(File(s, g).lock, cfg.ttls[p], s.clock) && Alone(s, p, g)
    ensures Reaches(cfg, s0, s', Cleanly) && Procs(cfg, s') && s'.clock == s.clock && OnlyMoved(s, s', p, g)
    ensures var (f, a) := RunOp(Acquire, Id(cfg, p), File(s, g), s.clock, s.clock);
            && File(s', g) == f
            && p in s'.procs && s'.procs[p] == Proc(Believe(cfg.role, Acquire, g, held, a), Idle)
  {
    var steps := Solo(cfg, s, p, Acquire, g, 0.0, s.clock);
    SoloIsRunOp(cfg, s, p, Acquire, g, 0.0, s.clock, s.clock);
    ReachesRun(cfg, s0, s, steps, Cleanly);
    s' := Final(cfg, s, steps);
  }

  lemma FirstHolder(cfg: Config, p: Pid, g: Sg) returns (s: State)
    requires SoundConfig(cfg) && p in cfg.owners
    ensures Reaches(cfg, Start(cfg, map[]), s, Cleanly) && Procs(cfg, s) && s.clock == 0.0 && Believes(s, p, g)
    ensures File(s, g).lock == None && p in s.procs && s.procs[p].pc.Idle?
    ensures File(s, g).cell == Written(Record(cfg.owners[p], 0.0, Lifetime(cfg.ttls[p])))
    ensures forall q :: q in s.procs && q != p ==> s.procs[q] == Proc(map[], Idle)
  {
    var s0 := Start(cfg, map[]);
    StartReaches(cfg, map[], Cleanly);
    FreeAcquire(Id(cfg, p), File(s0, g), 0.0);
    LifetimeMonotone(cfg, p);
    s := AcquireAlone(cfg, s0, s0, p, g, map[]);
  }

  /** Two processes with one owner id both hold a group: to the second the record is its own. */
  lemma SharedOwner(cfg: Config, p: Pid, q: Pid, g: Sg) returns (s: State)
    requires SoundConfig(cfg) && p in cfg.owners && q in cfg.owners && p != q && cfg.owners[p] == cfg.owners[q]
    ensures Reaches(cfg, Start(cfg, map[]), s, Cleanly) && BothHold(s, p, q, g)
  {
    var s1 := FirstHolder(cfg, p, g);
    LifetimeMonotone(cfg, p);
    assert Live(File(s1, g).cell, cfg.accepts, 0.0);
    ReacquireKeepsExpiry(Id(cfg, q), File(s1, g), 0.0, 0.0);
    s := AcquireAlone(cfg, Start(cfg, map[]), s1, q, g, map[]);
  }

  /** `q` cannot read the record that `p` has written, takes it for none and replaces it. */
  lemma FailedRead(cfg: Config, p: Pid, q: Pid, g: Sg) returns (s: State)
    requires SoundConfig(cfg) && cfg.readsMayFail && p in cfg.owners && q in cfg.owners && p != q
    ensures Reaches(cfg, Start(cfg, map[]), s, Cleanly) && BothHold(s, p, q, g)
  {
    var s0 := Start(cfg, map[]);
    var s1 := FirstHolder(cfg, p, g);
    var s4 := EnterBlind(cfg, s0, s1, q, g);
    s := LateWrite(cfg, s0, s4, q, g, s4.clock, Unreadable, Cleanly);
  }

  /** `q` gets in, its read fails, and it reads the clock. */
  lemma EnterBlind(cfg: Config, s0: State, s: State, q: Pid, g: Sg) returns (s3: State)
    requires cfg.readsMayFail && Reaches(cfg, s0, s, Cleanly) && Procs(cfg, s)
    requires q in s.procs && s.procs[q] == Proc(map[], Idle) && File(s, g).lock == None
    ensures Reaches(cfg, s0, s3, Cleanly) && Procs(cfg, s3) && s3.clock == s.clock && OnlyMoved(s, s3, q, g)
    ensures q in s3.procs && s3.procs[q] == Proc(map[], In(Acquire, g, s.clock, Timed(Unreadable, s.clock)))
    ensures File(s3, g).cell == File(s, g).cell
  {
    var s1 := EnterMoves(cfg, s, Mkdir(q, Acquire, g), q, Acquire, g);
    ReachesStep(cfg, s0, s, Mkdir(q, Acquire, g), Cleanly);
    var f := File(s, g).(lock := Some(s.clock));
    var s2 := BlindMoves(cfg, s1, q, In(Acquire, g, s.clock, Entered), map[], f);
    ReachesStep(cfg, s0, s1, FailRead(q), Cleanly);
    s3 := ReadMoves(cfg, s2, ReadClock(q), q, In(Acquire, g, s.clock, Loaded(Unreadable)), map[], f);
    ReachesStep(cfg, s0, s2, ReadClock(q), Cleanly);
    MovedTwice(s, s1, s2, q, g);
    MovedTwice(s, s2, s3, q, g);
  }

  lemma BlindMoves(cfg: Config, s: State, p: Pid, pc: Pc, held: map<Sg, Time>, f: FileState) returns (s': State)
    requires Inside(cfg, s, p, pc, held, f) && Enabled(cfg, s, FailRead(p))
    ensures MovesInside(cfg, s, FailRead(p), s', p, pc, held)
    ensures Inside(cfg, s', p, pc.(phase := Loaded(Unreadable)), held, f)
  {
    s' := Move(s, p, Loaded(Unreadable));
  }

  lemma MovedTwice(s: State, s1: State, s2: State, p: Pid, g: Sg)
    requires OnlyMoved(s, s1, p, g) && OnlyMoved(s1, s2, p, g)
    ensures OnlyMoved(s, s2, p, g)
  {
  }

  /** Over a damaged file `p` is told it owns a record that a failed replace has not written, and then `q` acquires. */
  lemma SwallowedReplace(cfg: Config, p: Pid, q: Pid, g: Sg) returns (s0: State, s: State)
    requires SoundConfig(cfg) && cfg.role.LeaseRole? && cfg.replacesMayFail
    requires p in cfg.owners && q in cfg.owners && p != q
    ensures Init(cfg, s0) && Reaches(cfg, s0, s, Cleanly) && BothHold(s, p, q, g)
  {
    var files := map[g := FileState(Unreadable, Absent, None)];
    s0 := Start(cfg, files);
    StartReaches(cfg, files, Cleanly);
    var s3 := EnterReading(cfg, s0, s0, p, g);
    var s6 := Swallow(cfg, s0, s3, p, g);
    s := SecondHolder(cfg, s0, s6, p, q, g);
  }

  /** Where no record is live `q` acquires what `p` believes it holds. */
  lemma SecondHolder(cfg: Config, s0: State, s: State, p: Pid, q: Pid, g: Sg) returns (s': State)
    requires SoundConfig(cfg) && Reaches(cfg, s0, s, Cleanly) && Procs(cfg, s) && p != q
    requires q in s.procs && s.procs[q] == Proc(map[], Idle) && Believes(s, p, g) && Alone(s, q, g)
    requires !File(s, g).cell.Written? && File(s, g).lock == None
    ensures Reaches(cfg, s0, s', Cleanly) && BothHold(s', p, q, g)
  {
    FreeAcquire(Id(cfg, q), File(s, g), s.clock);
    LifetimeMonotone(cfg, q);
    s' := AcquireAlone(cfg, s0, s, q, g, map[]);
  }

  lemma Swallow(cfg: Config, s0: State, s: State, p: Pid, g: Sg) returns (s': State)
    requires SoundConfig(cfg) && cfg.role.LeaseRole? && cfg.replacesMayFail
    requires Reaches(cfg, s0, s, Cleanly) && Procs(cfg, s) && p in s.procs && File(s, g).cell == Unreadable
    requires s.procs[p] == Proc(map[], In(Acquire, g, s.clock, Timed(Unreadable, s.clock)))
    ensures Reaches(cfg, s0, s', Cleanly) && Procs(cfg, s') && s'.clock == s.clock && OnlyMoved(s, s', p, g)
    ensures Believes(s', p, g) && File(s', g).cell == Unreadable && File(s', g).lock == None
    ensures p in s'.procs && s'.procs[p].pc.Idle?
  {
    var s1, rec, a := ActStages(cfg, s, p, g);
    ReachesStep(cfg, s0, s, Act(p), Cleanly);
    s' := SwallowAndReturn(cfg, s0, s1, p, In(Acquire, g, s.clock, Staged(rec, a)));
    MovedTwice(s, s1, s', p, g);
  }

  lemma ActStages(cfg: Config, s: State, p: Pid, g: Sg) returns (s': State, rec: Record, a: Answer)
    requires SoundConfig(cfg) && Procs(cfg, s) && p in s.procs && File(s, g).cell == Unreadable
    requires s.procs[p] == Proc(map[], In(Acquire, g, s.clock, Timed(Unreadable, s.clock)))
    ensures Enabled(cfg, s, Act(p)) && s' == Apply(cfg, s, Act(p)) && OnlyMoved(s, s', p, g) && s'.clock == s.clock
    ensures p in s'.procs && s'.procs[p] == Proc(map[], In(Acquire, g, s.clock, Staged(rec, a)))
    ensures a.Owned() && s.clock < a.expiresAt && File(s', g).cell == Unreadable
  {
    LifetimeMonotone(cfg, p);
    s' := DoAct(cfg, s, p);
    rec, a := s'.procs[p].pc.phase.rec, s'.procs[p].pc.phase.answer;
  }

  /** A step of `p` inside `g` that takes no time keeps what is asked of states. */
  lemma StillKept(s: State, s': State, p: Pid, g: Sg, care: Care)
    requires StateKept(s, care) && OnlyMoved(s, s', p, g) && s'.procs.Keys == s.procs.Keys && s'.clock == s.clock
    requires InPhase(s', p) ==> InPhase(s, p) && s'.procs[p].pc.since == s.procs[p].pc.since
    ensures StateKept(s', care)
  {
  }

  lemma ReturnMoves(cfg: Config, s: State, p: Pid, pc: Pc, held: map<Sg, Time>) returns (s': State)
    requires Procs(cfg, s) && p in s.procs
    requires s.procs[p] == Proc(held, pc) && pc.In? && pc.phase.Finished?
    ensures Enabled(cfg, s, Return(p)) && s' == Apply(cfg, s, Return(p))
    ensures s'.clock == s.clock && OnlyMoved(s, s', p, pc.g) && s'.procs.Keys == s.procs.Keys
    ensures s'.procs[p] == Proc(Believe(cfg.role, pc.op, pc.g, held, pc.phase.answer), Idle)
    ensures File(s', pc.g) == File(s, pc.g).(lock := None)
  {
    s' := DoReturn(cfg, s, p, true);
  }

  lemma ReturnAndReach(cfg: Config, s0: State, s: State, p: Pid, pc: Pc, held: map<Sg, Time>, care: Care)
    returns (s': State)
    requires Reaches(cfg, s0, s, care) && Procs(cfg, s) && p in s.procs && StateKept(s, care)
    requires s.procs[p] == Proc(held, pc) && pc.In? && pc.phase.Finished?
    ensures Reaches(cfg, s0, s', care) && Procs(cfg, s') && s'.clock == s.clock && OnlyMoved(s, s', p, pc.g)
    ensures p in s'.procs && s'.procs[p] == Proc(Believe(cfg.role, pc.op, pc.g, held, pc.phase.answer), Idle)
    ensures File(s', pc.g) == File(s, pc.g).(lock := None) && StateKept(s', care)
  {
    s' := ReturnMoves(cfg, s, p, pc, held);
    StillKept(s, s', p, pc.g, care);
    ReachesStep(cfg, s0, s, Return(p), care);
  }

  lemma ReplaceFails(cfg: Config, s: State, p: Pid, pc: Pc) returns (s': State)
    requires cfg.role.LeaseRole? && cfg.replacesMayFail && Procs(cfg, s) && p in s.procs
    requires s.procs[p] == Proc(map[], pc) && pc.In? && pc.phase.Staged?
    ensures Enabled(cfg, s, FailReplace(p, true)) && s' == Apply(cfg, s, FailReplace(p, true))
    ensures Clean(s, FailReplace(p, true))
    ensures Procs(cfg, s') && s'.clock == s.clock && OnlyMoved(s, s', p, pc.g) && p in s'.procs
    ensures s'.procs[p] == Proc(map[], pc.(phase := Finished(pc.phase.answer))) && File(s', pc.g) == File(s, pc.g)
  {
    s' := DoFailReplace(cfg, s, p, true);
  }

  lemma SwallowAndReturn(cfg: Config, s0: State, s: State, p: Pid, pc: Pc) returns (s': State)
    requires cfg.role.LeaseRole? && cfg.replacesMayFail
    requires Reaches(cfg, s0, s, Cleanly) && Procs(cfg, s) && p in s.procs
    requires s.procs[p] == Proc(map[], pc) && pc.In? && pc.op == Acquire && pc.phase.Staged?
    requires pc.phase.answer.Owned()
    ensures Reaches(cfg, s0, s', Cleanly) && Procs(cfg, s') && s'.clock == s.clock && OnlyMoved(s, s', p, pc.g)
    ensures p in s'.procs && s'.procs[p] == Proc(map[pc.g := pc.phase.answer.expiresAt], Idle)
    ensures File(s', pc.g).cell == File(s, pc.g).cell && File(s', pc.g).lock == None
  {
    var s1 := ReplaceFails(cfg, s, p, pc);
    ReachesStep(cfg, s0, s, FailReplace(p, true), Cleanly);
    s' := ReturnAndReach(cfg, s0, s1, p, pc.(phase := Finished(pc.phase.answer)), map[], Cleanly);
    MovedTwice(s, s1, s', p, pc.g);
  }

  /** From a free lock, `p` enters for an acquire, reads the record and the clock. */
  lemma EnterReading(cfg: Config, s0: State, s: State, p: Pid, g: Sg) returns (s3: State)
    requires Reaches(cfg, s0, s, Cleanly) && Procs(cfg, s)
    requires p in s.procs && s.procs[p] == Proc(map[], Idle) && File(s, g).lock == None
    ensures Reaches(cfg, s0, s3, Cleanly) && Procs(cfg, s3) && s3.clock == s.clock && OnlyMoved(s, s3, p, g)
    ensures p in s3.procs && s3.procs[p] == Proc(map[], In(Acquire, g, s.clock, Timed(File(s, g).cell, s.clock)))
    ensures File(s3, g) == File(s, g).(lock := Some(s.clock))
  {
    var s1 := EnterMoves(cfg, s, Mkdir(p, Acquire, g), p, Acquire, g);
    ReachesStep(cfg, s0, s, Mkdir(p, Acquire, g), Cleanly);
    var f := File(s, g).(lock := Some(s.clock));
    var s2 := ReadMoves(cfg, s1, Load(p), p, In(Acquire, g, s.clock, Entered), map[], f);
    ReachesStep(cfg, s0, s1, Load(p), Cleanly);
    s3 := ReadMoves(cfg, s2, ReadClock(p), p, In(Acquire, g, s.clock, Loaded(f.cell)), map[], f);
    ReachesStep(cfg, s0, s2, ReadClock(p), Cleanly);
    MovedTwice(s, s1, s2, p, g);
    MovedTwice(s, s2, s3, p, g);
  }

  /** Some clean run has both hold a group when a read or a lease's replace may fail. */
  lemma UntrustedBothHold(cfg: Config, p: Pid, q: Pid) returns (s0: State, s: State)
    requires SoundConfig(cfg) && !Trusted(cfg) && p in cfg.owners && q in cfg.owners && p != q
    ensures Init(cfg, s0) && Reaches(cfg, s0, s, Cleanly) && BothHold(s, p, q, 0)
  {
    if cfg.readsMayFail {
      s0 := Start(cfg, map[]);
      StartReaches(cfg, map[], Cleanly);
      s := FailedRead(cfg, p, q, 0);
    } else {
      s0, s := SwallowedReplace(cfg, p, q, 0);
    }
  }

  /** For any two of the processes: with distinct owner ids, no clean run ever has both hold a group if and only if
      reads, and a lease's replaces, cannot fail. Every other call may. */
  lemma SafeExactlyWhenTrusted(cfg: Config, p: Pid, q: Pid)
    requires GoodConfig(cfg) && p in cfg.owners && q in cfg.owners && p != q
    ensures Trusted(cfg) <==>
              (forall s0, s, g :: Init(cfg, s0) && Reaches(cfg, s0, s, Cleanly) ==> !BothHold(s, p, q, g))
  {
    if Trusted(cfg) {
      forall s0, s, g | Init(cfg, s0) && Reaches(cfg, s0, s, Cleanly) ensures !BothHold(s, p, q, g) {
        assert Reachable(cfg, s);
        NeverBothHold(cfg, s, p, q, g);
      }
    } else {
      var s0, s := UntrustedBothHold(cfg, p, q);
      assert BothHold(s, p, q, 0);
    }
  }

  /** No clean run ever has two processes hold the same group. */
  ghost predicate Safe(cfg: Config) {
    forall p, q, s0, s, g :: p != q && Init(cfg, s0) && Reaches(cfg, s0, s, Cleanly) ==> !BothHold(s, p, q, g)
  }

  /** Two or more processes are safe over all clean runs if and only if their owner ids are distinct and reads, and a
      lease's replaces, cannot fail. */
  lemma SafeExactly(cfg: Config, p: Pid, q: Pid)
    requires SoundConfig(cfg) && p in cfg.owners && q in cfg.owners && p != q
    ensures Safe(cfg) <==> Trusted(cfg) && AllDistinct(cfg)
  {
    if Trusted(cfg) && AllDistinct(cfg) {
      forall p, q, s0, s, g | p != q && Init(cfg, s0) && Reaches(cfg, s0, s, Cleanly) ensures !BothHold(s, p, q, g) {
        assert Reachable(cfg, s);
        NeverBothHold(cfg, s, p, q, g);
      }
    } else if !Trusted(cfg) {
      var s0, s := UntrustedBothHold(cfg, p, q);
      assert BothHold(s, p, q, 0);
    } else {
      var a, b :| !Distinct(cfg, a, b);
      StartReaches(cfg, map[], Cleanly);
      var s := SharedOwner(cfg, a, b, 0);
      assert BothHold(s, a, b, 0);
    }
  }

  // ---- a late write -----------------------------------------------------------------------

  /** `q`, which found no record, writes over whatever is there by now, and comes out holding the group. */
  lemma LateWrite(cfg: Config, s0: State, s: State, q: Pid, g: Sg, since: Time, seen: Cell, care: Care)
    returns (s': State)
    requires SoundConfig(cfg) && Reaches(cfg, s0, s, care) && Procs(cfg, s) && StateKept(s, care) && !seen.Written?
    requires q in s.procs && s.procs[q] == Proc(map[], In(Acquire, g, since, Timed(seen, s.clock)))
    ensures Reaches(cfg, s0, s', care) && Procs(cfg, s') && s'.clock == s.clock && OnlyMoved(s, s', q, g)
    ensures StateKept(s', care) && Believes(s', q, g)
  {
    var pc := In(Acquire, g, since, Timed(seen, s.clock));
    var s1, phase := LateAct(cfg, s, q, g, since, seen);
    StillKept(s, s1, q, g, care);
    ReachesStep(cfg, s0, s, Act(q), care);
    s' := FinishAndHold(cfg, s0, s1, q, pc.(phase := phase), care);
    MovedTwice(s, s1, s', q, g);
  }

  lemma LateAct(cfg: Config, s: State, q: Pid, g: Sg, since: Time, seen: Cell) returns (s': State, phase: Phase)
    requires SoundConfig(cfg) && Procs(cfg, s) && !seen.Written?
    requires q in s.procs && s.procs[q] == Proc(map[], In(Acquire, g, since, Timed(seen, s.clock)))
    ensures Enabled(cfg, s, Act(q)) && s' == Apply(cfg, s, Act(q)) && s'.clock == s.clock && OnlyMoved(s, s', q, g)
    ensures Procs(cfg, s') && s'.procs[q] == Proc(map[], In(Acquire, g, since, phase))
    ensures phase.Creating? || (phase.Staged? && File(s', g).tmp == Written(phase.rec))
    ensures phase.answer.Owned() && s'.clock < phase.answer.expiresAt
  {
    LifetimeMonotone(cfg, q);
    s' := DoAct(cfg, s, q);
    phase := s'.procs[q].pc.phase;
  }

  lemma FinishAndHold(cfg: Config, s0: State, s: State, q: Pid, pc: Pc, care: Care) returns (s': State)
    requires Reaches(cfg, s0, s, care) && Procs(cfg, s) && q in s.procs && StateKept(s, care)
    requires s.procs[q] == Proc(map[], pc) && pc.In? && pc.op == Acquire
    requires pc.phase.Creating? || (pc.phase.Staged? && File(s, pc.g).tmp == Written(pc.phase.rec))
    requires pc.phase.answer.Owned() && s.clock < pc.phase.answer.expiresAt
    ensures Reaches(cfg, s0, s', care) && Procs(cfg, s') && s'.clock == s.clock && OnlyMoved(s, s', q, pc.g)
    ensures StateKept(s', care) && Believes(s', q, pc.g)
  {
    var s1 := FinishMoves(cfg, s, q, pc, map[], File(s, pc.g));
    StillKept(s, s1, q, pc.g, care);
    ReachesStep(cfg, s0, s, Finish(q), care);
    s' := ReturnAndReach(cfg, s0, s1, q, pc.(phase := Finished(pc.phase.answer)), map[], care);
    MovedTwice(s, s1, s', q, pc.g);
  }
}
