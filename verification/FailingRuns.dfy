/** Operations in which system calls fail, as runs of the step machine. */
module FailingRuns {
  import opened Basics
  import opened LeaseInvariant
  import opened LeaseSafety
  import opened Protocol
  import opened Records
  import X = Failures

  /** The machine has these failures: a failing read or a failing replace of a lease only where the configuration
      says. */
  ghost predicate Permits(cfg: Config, failing: set<X.Call>) {
    && (X.Read in failing ==> cfg.readsMayFail)
    && ((X.Stage in failing || X.Replace in failing) && cfg.role.LeaseRole? ==> cfg.replacesMayFail)
  }

  /** Inside `g`, `p` takes a step that leads to `phase` with the files as `f`. */
  ghost predicate Goes(cfg: Config, s: State, step: Step, s': State, p: Pid, pc: Pc, held: map<Sg, Time>, phase: Phase,
                       f: FileState)
  {
    && Procs(cfg, s) && Enabled(cfg, s, step) && pc.In?
    && s' == Apply(cfg, s, step) && Clean(s, step) && OnlyMoved(s, s', p, pc.g) && s'.clock == s.clock
    && Inside(cfg, s', p, pc.(phase := phase), held, f)
  }

  lemma ArrivesGoing(cfg: Config, s: State, step: Step, s': State, p: Pid, pc: Pc, held: map<Sg, Time>, phase: Phase,
                     f: FileState, rest: seq<Step>, held': map<Sg, Time>, f': FileState)
    requires Goes(cfg, s, step, s', p, pc, held, phase, f)
    requires Arrives(cfg, s', rest, p, pc.g, held', f', s.clock)
    ensures Arrives(cfg, s, [step] + rest, p, pc.g, held', f', s.clock)
  {
    ArrivesAfter(cfg, s, step, s', rest, p, pc.g, held', f', s.clock);
  }

  // ---- single steps -------------------------------------------------------------------------

  lemma ReadGoes(cfg: Config, s: State, p: Pid, pc: Pc, held: map<Sg, Time>, f: FileState, failing: set<X.Call>)
    returns (step: Step, s': State)
    requires Inside(cfg, s, p, pc, held, f) && pc.phase.Entered? && Permits(cfg, failing)
    ensures Goes(cfg, s, step, s', p, pc, held, Loaded(X.ReadFile(f.cell, failing)), f)
  {
    if X.Read in failing && f.cell.Written? {
      step := FailRead(p);
      s' := Move(s, p, Loaded(Unreadable));
    } else {
      step := Load(p);
      s' := Move(s, p, Loaded(f.cell));
    }
  }

  lemma ClockGoes(cfg: Config, s: State, p: Pid, pc: Pc, held: map<Sg, Time>, f: FileState) returns (s': State)
    requires Inside(cfg, s, p, pc, held, f) && pc.phase.Loaded?
    ensures Goes(cfg, s, ReadClock(p), s', p, pc, held, Timed(pc.phase.seen, s.clock), f)
  {
    s' := Move(s, p, Timed(pc.phase.seen, s.clock));
  }

  /** What acting leads to when its first call does not fail. */
  function ActedPhase(f: FileState, effect: Effect, a: Answer): Phase {
    match effect
    case Keep => Finished(a)
    case Unlink => Finished(a)
    case Store(rec, exclusive) => if exclusive && f.cell.Absent? then Creating(rec, a) else Staged(rec, a)
  }

  function ActedFile(f: FileState, effect: Effect): FileState {
    match effect
    case Keep => f
    case Unlink => f.(cell := Absent)
    case Store(rec, exclusive) =>
      if exclusive && f.cell.Absent? then f.(cell := Unreadable) else f.(tmp := Written(rec))
  }

  lemma ActGoes(cfg: Config, s: State, p: Pid, pc: Pc, held: map<Sg, Time>, f: FileState) returns (s': State)
    requires Inside(cfg, s, p, pc, held, f) && pc.phase.Timed?
    ensures var (effect, a) := Decided(cfg, s, p);
            Goes(cfg, s, Act(p), s', p, pc, held, ActedPhase(f, effect, a), ActedFile(f, effect))
  {
    s' := DoAct(cfg, s, p);
    ActLocal(cfg, s, p, pc.g);
    LocalMoves(cfg, s, s', p, pc.g);
  }

  lemma FailActGoes(cfg: Config, s: State, p: Pid, pc: Pc, held: map<Sg, Time>, f: FileState) returns (s': State)
    requires Inside(cfg, s, p, pc, held, f) && pc.phase.Timed? && Fallible(Decided(cfg, s, p).0)
    ensures Goes(cfg, s, FailAct(p), s', p, pc, held,
                 Finished(if Decided(cfg, s, p).0.Unlink? then Answer(ReleaseFailed, cfg.owners[p], 0.0, 0.0, 0.0)
                          else RAISED), f)
  {
    s' := DoFailAct(cfg, s, p);
  }

  lemma FinishGoes(cfg: Config, s: State, p: Pid, pc: Pc, held: map<Sg, Time>, f: FileState) returns (s': State)
    requires Inside(cfg, s, p, pc, held, f)
    requires pc.phase.Creating? || (pc.phase.Staged? && f.tmp == Written(pc.phase.rec))
    ensures Goes(cfg, s, Finish(p), s', p, pc, held, Finished(pc.phase.answer),
                 if pc.phase.Creating? then f.(cell := Written(pc.phase.rec))
                 else f.(cell := Written(pc.phase.rec), tmp := Absent))
  {
    s' := DoFinish(cfg, s, p);
  }

  lemma FailCreateGoes(cfg: Config, s: State, p: Pid, pc: Pc, held: map<Sg, Time>, f: FileState, left: bool)
    returns (s': State)
    requires Inside(cfg, s, p, pc, held, f) && pc.phase.Creating?
    ensures Goes(cfg, s, FailCreate(p, left), s', p, pc, held, Staged(pc.phase.rec, pc.phase.answer),
                 f.(cell := if left then Unreadable else Absent, tmp := Written(pc.phase.rec)))
  {
    s' := DoFailCreate(cfg, s, p, left);
  }

  lemma FailReplaceGoes(cfg: Config, s: State, p: Pid, pc: Pc, held: map<Sg, Time>, f: FileState, staged: bool)
    returns (s': State)
    requires Inside(cfg, s, p, pc, held, f) && pc.phase.Staged? && (cfg.role.LeaseRole? ==> cfg.replacesMayFail)
    ensures Goes(cfg, s, FailReplace(p, staged), s', p, pc, held,
                 Finished(if cfg.role.LeaseRole? then pc.phase.answer else RAISED),
                 if staged then f else f.(tmp := Unreadable))
  {
    s' := DoFailReplace(cfg, s, p, staged);
  }

  // ---- from a phase to the return -------------------------------------------------------------

  lemma ReturnRuns(cfg: Config, s: State, p: Pid, pc: Pc, held: map<Sg, Time>, f: FileState, failing: set<X.Call>)
    returns (steps: seq<Step>)
    requires Inside(cfg, s, p, pc, held, f) && pc.phase.Finished?
    ensures Arrives(cfg, s, steps, p, pc.g, Believe(cfg.role, pc.op, pc.g, held, pc.phase.answer),
                    X.Unlocked(f, failing), s.clock)
  {
    var held' := Believe(cfg.role, pc.op, pc.g, held, pc.phase.answer);
    if X.Unlock in failing {
      var s' := Apply(cfg, s, FailUnlock(p));
      assert Arrives(cfg, s', [], p, pc.g, held', f, s.clock);
      ArrivesAfter(cfg, s, FailUnlock(p), s', [], p, pc.g, held', f, s.clock);
      steps := [FailUnlock(p)] + [];
    } else {
      ReturnFrom(cfg, s, p, pc, held, f, held');
      steps := [Return(p)];
    }
  }

  /** From a staged record on. */
  lemma StagedRuns(cfg: Config, s: State, p: Pid, pc: Pc, held: map<Sg, Time>, f: FileState, failing: set<X.Call>,
                   a: Answer, f': FileState)
    returns (steps: seq<Step>)
    requires Inside(cfg, s, p, pc, held, f) && pc.phase.Staged? && f.tmp == Written(pc.phase.rec)
    requires Permits(cfg, failing)
    requires var (stored, raised) := X.TryReplace(f, pc.phase.rec, cfg.role.LeaderRole?, failing);
             f' == stored && a == if raised then RAISED else pc.phase.answer
    ensures Arrives(cfg, s, steps, p, pc.g, Believe(cfg.role, pc.op, pc.g, held, a), X.Unlocked(f', failing), s.clock)
  {
    var held' := Believe(cfg.role, pc.op, pc.g, held, a);
    var step, s1 := Finish(p), s;
    if X.Stage in failing {
      step := FailReplace(p, false);
      s1 := FailReplaceGoes(cfg, s, p, pc, held, f, false);
    } else if X.Replace in failing {
      step := FailReplace(p, true);
      s1 := FailReplaceGoes(cfg, s, p, pc, held, f, true);
    } else {
      s1 := FinishGoes(cfg, s, p, pc, held, f);
    }
    assert Goes(cfg, s, step, s1, p, pc, held, Finished(a), f');
    var rest := ReturnRuns(cfg, s1, p, pc.(phase := Finished(a)), held, f', failing);
    ArrivesGoing(cfg, s, step, s1, p, pc, held, Finished(a), f', rest, held', X.Unlocked(f', failing));
    steps := [step] + rest;
  }

  /** From an exclusive create under way on. */
  lemma CreatingRuns(cfg: Config, s: State, p: Pid, pc: Pc, held: map<Sg, Time>, f: FileState, failing: set<X.Call>,
                     a: Answer, f': FileState)
    returns (steps: seq<Step>)
    requires Inside(cfg, s, p, pc, held, f) && pc.phase.Creating? && f.cell == Unreadable
    requires Permits(cfg, failing)
    requires if X.Write in failing
             then var (stored, raised) := X.TryReplace(f.(cell := if X.Unlink in failing then Unreadable else Absent),
                                                       pc.phase.rec, cfg.role.LeaderRole?, failing);
                  f' == stored && a == if raised then RAISED else pc.phase.answer
             else f' == f.(cell := Written(pc.phase.rec)) && a == pc.phase.answer
    ensures Arrives(cfg, s, steps, p, pc.g, Believe(cfg.role, pc.op, pc.g, held, a), X.Unlocked(f', failing), s.clock)
  {
    var held' := Believe(cfg.role, pc.op, pc.g, held, a);
    if X.Write in failing {
      var left := X.Unlink in failing;
      var s1 := FailCreateGoes(cfg, s, p, pc, held, f, left);
      var staged := Staged(pc.phase.rec, pc.phase.answer);
      var f1 := f.(cell := if left then Unreadable else Absent, tmp := Written(pc.phase.rec));
      var rest := StagedRuns(cfg, s1, p, pc.(phase := staged), held, f1, failing, a, f');
      ArrivesGoing(cfg, s, FailCreate(p, left), s1, p, pc, held, staged, f1, rest, held', X.Unlocked(f', failing));
      steps := [FailCreate(p, left)] + rest;
    } else {
      var s1 := FinishGoes(cfg, s, p, pc, held, f);
      var rest := ReturnRuns(cfg, s1, p, pc.(phase := Finished(a)), held, f', failing);
      ArrivesGoing(cfg, s, Finish(p), s1, p, pc, held, Finished(a), f', rest, held', X.Unlocked(f', failing));
      steps := [Finish(p)] + rest;
    }
  }

  /** The first call of the decision fails. */
  ghost predicate FirstFails(effect: Effect, failing: set<X.Call>) {
    (effect.Unlink? && X.Unlink in failing) || (effect.Store? && effect.exclusive && X.Open in failing)
  }

  lemma FailedActRuns(cfg: Config, s: State, p: Pid, pc: Pc, held: map<Sg, Time>, f: FileState, failing: set<X.Call>,
                      effect: Effect, a: Answer, b: Answer, f': FileState)
    returns (steps: seq<Step>)
    requires Inside(cfg, s, p, pc, held, f) && pc.phase.Timed? && (effect, a) == Decided(cfg, s, p)
    requires FirstFails(effect, failing)
    requires (f', b) == X.Carry(f, effect, Id(cfg, p), a, cfg.role.LeaderRole?, failing)
    ensures Arrives(cfg, s, steps, p, pc.g, Believe(cfg.role, pc.op, pc.g, held, b), X.Unlocked(f', failing), s.clock)
  {
    var s1 := FailActGoes(cfg, s, p, pc, held, f);
    assert f' == f && Goes(cfg, s, FailAct(p), s1, p, pc, held, Finished(b), f);
    var rest := ReturnRuns(cfg, s1, p, pc.(phase := Finished(b)), held, f, failing);
    ArrivesGoing(cfg, s, FailAct(p), s1, p, pc, held, Finished(b), f, rest,
                 Believe(cfg.role, pc.op, pc.g, held, b), X.Unlocked(f, failing));
    steps := [FailAct(p)] + rest;
  }

  lemma ActedRuns(cfg: Config, s: State, p: Pid, pc: Pc, held: map<Sg, Time>, f: FileState, failing: set<X.Call>,
                  effect: Effect, a: Answer, b: Answer, f': FileState)
    returns (steps: seq<Step>)
    requires Permits(cfg, failing) && !FirstFails(effect, failing)
    requires pc.In? && pc.phase == ActedPhase(f, effect, a)
    requires Inside(cfg, s, p, pc, held, ActedFile(f, effect))
    requires (f', b) == X.Carry(f, effect, Id(cfg, p), a, cfg.role.LeaderRole?, failing)
    ensures Arrives(cfg, s, steps, p, pc.g, Believe(cfg.role, pc.op, pc.g, held, b), X.Unlocked(f', failing), s.clock)
  {
    if pc.phase.Finished? {
      steps := ReturnRuns(cfg, s, p, pc, held, f', failing);
    } else if pc.phase.Creating? {
      steps := CreatingRuns(cfg, s, p, pc, held, ActedFile(f, effect), failing, b, f');
    } else {
      steps := StagedRuns(cfg, s, p, pc, held, ActedFile(f, effect), failing, b, f');
    }
  }

  lemma TimedRuns(cfg: Config, s: State, p: Pid, pc: Pc, held: map<Sg, Time>, f: FileState, failing: set<X.Call>,
                  effect: Effect, a: Answer, b: Answer, f': FileState)
    returns (steps: seq<Step>)
    requires Inside(cfg, s, p, pc, held, f) && pc.phase.Timed? && Permits(cfg, failing)
    requires (effect, a) == Decided(cfg, s, p)
    requires (f', b) == X.Carry(f, effect, Id(cfg, p), a, cfg.role.LeaderRole?, failing)
    ensures Arrives(cfg, s, steps, p, pc.g, Believe(cfg.role, pc.op, pc.g, held, b), X.Unlocked(f', failing), s.clock)
  {
    if FirstFails(effect, failing) {
      steps := FailedActRuns(cfg, s, p, pc, held, f, failing, effect, a, b, f');
    } else {
      var phase, f1 := ActedPhase(f, effect, a), ActedFile(f, effect);
      var s1 := ActGoes(cfg, s, p, pc, held, f);
      var rest := ActedRuns(cfg, s1, p, pc.(phase := phase), held, f, failing, effect, a, b, f');
      ArrivesGoing(cfg, s, Act(p), s1, p, pc, held, phase, f1, rest,
                   Believe(cfg.role, pc.op, pc.g, held, b), X.Unlocked(f', failing));
      steps := [Act(p)] + rest;
    }
  }

  /** From the lock on: read, clock, decision. */
  lemma EnteredRuns(cfg: Config, s: State, p: Pid, pc: Pc, held: map<Sg, Time>, f: FileState, failing: set<X.Call>,
                    effect: Effect, a: Answer, b: Answer, f': FileState)
    returns (steps: seq<Step>)
    requires Inside(cfg, s, p, pc, held, f) && pc.phase.Entered? && Permits(cfg, failing)
    requires (effect, a) == Decide(pc.op, Id(cfg, p), X.ReadFile(f.cell, failing), s.clock)
    requires (f', b) == X.Carry(f, effect, Id(cfg, p), a, cfg.role.LeaderRole?, failing)
    ensures Arrives(cfg, s, steps, p, pc.g, Believe(cfg.role, pc.op, pc.g, held, b), X.Unlocked(f', failing), s.clock)
  {
    var held', f2 := Believe(cfg.role, pc.op, pc.g, held, b), X.Unlocked(f', failing);
    var seen := X.ReadFile(f.cell, failing);
    var step, s1 := ReadGoes(cfg, s, p, pc, held, f, failing);
    var loaded := pc.(phase := Loaded(seen));
    var s2 := ClockGoes(cfg, s1, p, loaded, held, f);
    var timed := pc.(phase := Timed(seen, s.clock));
    var rest := TimedRuns(cfg, s2, p, timed, held, f, failing, effect, a, b, f');
    ArrivesGoing(cfg, s1, ReadClock(p), s2, p, loaded, held, timed.phase, f, rest, held', f2);
    ArrivesGoing(cfg, s, step, s1, p, pc, held, loaded.phase, f, [ReadClock(p)] + rest, held', f2);
    steps := [step] + ([ReadClock(p)] + rest);
  }

  /** With time passing between the lock and the read. */
  lemma PausedRuns(cfg: Config, s: State, p: Pid, pc: Pc, held: map<Sg, Time>, f: FileState, failing: set<X.Call>,
                   pause: Time, now: Time, effect: Effect, a: Answer, b: Answer, f': FileState)
    returns (steps: seq<Step>)
    requires Inside(cfg, s, p, pc, held, f) && pc.phase.Entered? && Permits(cfg, failing)
    requires 0.0 <= pause && now == s.clock + pause
    requires (effect, a) == Decide(pc.op, Id(cfg, p), X.ReadFile(f.cell, failing), now)
    requires (f', b) == X.Carry(f, effect, Id(cfg, p), a, cfg.role.LeaderRole?, failing)
    ensures Arrives(cfg, s, steps, p, pc.g, Believe(cfg.role, pc.op, pc.g, held, b), X.Unlocked(f', failing), now)
  {
    var later := s.(clock := now);
    var rest := EnteredRuns(cfg, later, p, pc, held, f, failing, effect, a, b, f');
    WaitMoves(cfg, s, pause, p, pc.g);
    ArrivesAfter(cfg, s, Wait(pause), later, rest, p, pc.g,
                 Believe(cfg.role, pc.op, pc.g, held, b), X.Unlocked(f', failing), now);
    steps := [Wait(pause)] + rest;
  }

  // ---- getting in -------------------------------------------------------------------------------

  /** The operation from the mkdir that succeeds. */
  lemma EnterRuns(cfg: Config, s: State, step: Step, p: Pid, op: Op, g: Sg, failing: set<X.Call>, pause: Time,
                  now: Time,
                  effect: Effect, a: Answer, b: Answer, f': FileState)
    returns (steps: seq<Step>)
    requires Enters(cfg, s, step, p, op, g) && Permits(cfg, failing) && 0.0 <= pause && now == s.clock + pause
    requires (effect, a) == Decide(op, Id(cfg, p), X.ReadFile(File(s, g).cell, failing), now)
    requires (f', b) == X.Carry(File(s, g).(lock := Some(s.clock)), effect, Id(cfg, p), a, cfg.role.LeaderRole?,
                                 failing)
    ensures Arrives(cfg, s, steps, p, g, Believe(cfg.role, op, g, s.procs[p].held, b), X.Unlocked(f', failing), now)
  {
    var s1 := EnterMoves(cfg, s, step, p, op, g);
    var held, pc := s.procs[p].held, In(op, g, s.clock, Entered);
    var f := File(s, g).(lock := Some(s.clock));
    var rest := PausedRuns(cfg, s1, p, pc, held, f, failing, pause, now, effect, a, b, f');
    ArrivesAfter(cfg, s, step, s1, rest, p, g, Believe(cfg.role, op, g, held, b), X.Unlocked(f', failing), now);
    steps := [step] + rest;
  }

  lemma BounceRuns(cfg: Config, s: State, p: Pid, op: Op, g: Sg) returns (steps: seq<Step>)
    requires Procs(cfg, s) && Starts(cfg, s, p, op, g)
    ensures Arrives(cfg, s, steps, p, g, Believe(cfg.role, op, g, s.procs[p].held, BUSY), File(s, g), s.clock)
  {
    var held' := Believe(cfg.role, op, g, s.procs[p].held, BUSY);
    var s' := Back(s, p, held');
    assert Arrives(cfg, s', [], p, g, held', File(s, g), s.clock);
    ArrivesAfter(cfg, s, Bounce(p, op, g), s', [], p, g, held', File(s, g), s.clock);
    steps := [Bounce(p, op, g)] + [];
  }

  /** The stale lock is gone and the second mkdir raises. */
  lemma FailRemakeRuns(cfg: Config, s: State, p: Pid, op: Op, g: Sg, held: map<Sg, Time>) returns (steps: seq<Step>)
    requires Procs(cfg, s) && p in s.procs && s.procs[p] == Proc(held, Cleared(op, g))
    ensures Arrives(cfg, s, steps, p, g, held, File(s, g), s.clock)
  {
    var s' := Back(s, p, held);
    assert Arrives(cfg, s', [], p, g, held, File(s, g), s.clock);
    ArrivesAfter(cfg, s, FailRemake(p), s', [], p, g, held, File(s, g), s.clock);
    steps := [FailRemake(p)] + [];
  }

  /** The operation on a stale lock whose removal succeeds. */
  lemma AfterBreak(cfg: Config, s: State, s2: State, p: Pid, op: Op, g: Sg, failing: set<X.Call>, pause: Time,
                   tried: Time, now: Time, f: FileState, a: Answer)
    returns (rest: seq<Step>, until: Time)
    requires Procs(cfg, s) && p in s.procs && Permits(cfg, failing)
    requires Enters(cfg, s2, Remake(p), p, op, g) && s2.procs[p] == Proc(s.procs[p].held, Cleared(op, g))
    requires File(s2, g) == File(s, g).(lock := None)
    requires s2.clock == tried && 0.0 <= pause && now == tried + pause
    requires File(s, g).lock.Some? && Stale(File(s, g).lock.value, cfg.ttls[p], tried)
    requires X.Mkdir !in failing && X.Stat !in failing && X.Rmdir !in failing
    requires (f, a) == X.RunFailing(op, Id(cfg, p), cfg.role.LeaderRole?, File(s, g), tried, now, failing)
    ensures until == tried || until == now
    ensures Arrives(cfg, s2, rest, p, g, Believe(cfg.role, op, g, s.procs[p].held, a), f, until)
  {
    if X.Remake in failing {
      until := tried;
      rest := FailRemakeRuns(cfg, s2, p, op, g, s.procs[p].held);
    } else {
      until := now;
      rest := RemakeRuns(cfg, s, s2, p, op, g, failing, pause, tried, now, f, a);
    }
  }

  lemma RemakeRuns(cfg: Config, s: State, s2: State, p: Pid, op: Op, g: Sg, failing: set<X.Call>, pause: Time,
                   tried: Time, now: Time, f: FileState, a: Answer)
    returns (steps: seq<Step>)
    requires p in s.procs && Enters(cfg, s2, Remake(p), p, op, g) && Permits(cfg, failing)
    requires File(s2, g) == File(s, g).(lock := None) && s2.procs[p].held == s.procs[p].held
    requires s2.clock == tried && 0.0 <= pause && now == tried + pause
    requires File(s, g).lock.Some? && Stale(File(s, g).lock.value, cfg.ttls[p], tried)
    requires X.Mkdir !in failing && X.Stat !in failing && X.Rmdir !in failing && X.Remake !in failing
    requires (f, a) == X.RunFailing(op, Id(cfg, p), cfg.role.LeaderRole?, File(s, g), tried, now, failing)
    ensures Arrives(cfg, s2, steps, p, g, Believe(cfg.role, op, g, s.procs[p].held, a), f, now)
  {
    var (effect, answer) := Decide(op, Id(cfg, p), X.ReadFile(File(s, g).cell, failing), now);
    var (f', b) := X.Carry(File(s, g).(lock := Some(tried)), effect, Id(cfg, p), answer, cfg.role.LeaderRole?, failing);
    steps := EnterRuns(cfg, s2, Remake(p), p, op, g, failing, pause, now, effect, answer, b, f');
  }

  lemma BreakRuns(cfg: Config, s: State, p: Pid, op: Op, g: Sg, failing: set<X.Call>, pause: Time, tried: Time,
                  now: Time, f: FileState, a: Answer)
    returns (steps: seq<Step>, until: Time)
    requires Procs(cfg, s) && Starts(cfg, s, p, op, g) && Permits(cfg, failing)
    requires s.clock == tried && 0.0 <= pause && now == tried + pause
    requires File(s, g).lock.Some? && Stale(File(s, g).lock.value, cfg.ttls[p], tried)
    requires X.Mkdir !in failing && X.Stat !in failing && X.Rmdir !in failing
    requires (f, a) == X.RunFailing(op, Id(cfg, p), cfg.role.LeaderRole?, File(s, g), tried, now, failing)
    ensures until == tried || until == now
    ensures Arrives(cfg, s, steps, p, g, Believe(cfg.role, op, g, s.procs[p].held, a), f, until)
  {
    var s1, s2 := BreakMoves(cfg, s, p, op, g);
    var rest;
    rest, until := AfterBreak(cfg, s, s2, p, op, g, failing, pause, tried, now, f, a);
    BreakFirst(cfg, s, s1, s2, rest, p, op, g, Believe(cfg.role, op, g, s.procs[p].held, a), f, until);
    steps := [Suspect(p, op, g)] + ([Rmdir(p)] + rest);
  }

  /** Whatever calls of an operation fail, run alone it is a run of the machine with the matching steps: the same files,
      the same answer taken in, at the time the operation got to. */
  lemma SoloIsRunFailing(cfg: Config, s: State, p: Pid, op: Op, g: Sg, failing: set<X.Call>, pause: Time, tried: Time,
                         now: Time)
    returns (steps: seq<Step>, until: Time)
    requires Procs(cfg, s) && Starts(cfg, s, p, op, g) && Permits(cfg, failing)
    requires s.clock == tried && 0.0 <= pause && now == tried + pause
    ensures until == tried || until == now
    ensures var (f, a) := X.RunFailing(op, Id(cfg, p), cfg.role.LeaderRole?, File(s, g), tried, now, failing);
            Arrives(cfg, s, steps, p, g, Believe(cfg.role, op, g, s.procs[p].held, a), f, until)
  {
    var f, held := File(s, g), s.procs[p].held;
    var (f2, a) := X.RunFailing(op, Id(cfg, p), cfg.role.LeaderRole?, f, tried, now, failing);
    var locking := X.TryLock(f, cfg.ttls[p], tried, failing);
    until := tried;
    if locking.1.Refused? {
      steps := BounceRuns(cfg, s, p, op, g);
    } else if X.Rmdir in failing && f.lock.Some? {
      steps := [];
      assert Run(cfg, s, steps) && KeptRun(cfg, s, steps, Cleanly) && Final(cfg, s, steps) == s;
    } else if f.lock.Some? {
      steps, until := BreakRuns(cfg, s, p, op, g, failing, pause, tried, now, f2, a);
    } else {
      until := now;
      var (effect, answer) := Decide(op, Id(cfg, p), X.ReadFile(f.cell, failing), now);
      var (f', b) := X.Carry(f.(lock := Some(tried)), effect, Id(cfg, p), answer, cfg.role.LeaderRole?, failing);
      steps := EnterRuns(cfg, s, Mkdir(p, op, g), p, op, g, failing, pause, now, effect, answer, b, f');
    }
  }

  /** What the leader role makes of a turn whose operations these calls fail in: its answer aside from an exception, the
      process believes to lead exactly when the turn reports it as leader, and until the expiry that is reported. */
  lemma LeaderBelieves(id: Identity, g: Sg, held: map<Sg, Time>, f: FileState, at: seq<Time>,
                       acquiring: set<X.Call>, renewing: set<X.Call>)
    requires |at| == 4
    ensures var (f1, a1) := X.RunFailing(Acquire, id, true, f, at[0], at[1], acquiring);
            var held1 := Believe(LeaderRole, Acquire, g, held, a1);
            var a2 := X.RunFailing(Renew, id, true, f1, at[2], at[3], renewing).1;
            var held2 := if a1.kind.AlreadyOwner? then Believe(LeaderRole, Renew, g, held1, a2) else held1;
            var a := X.LeaderTurnFailing(id, f, at, acquiring, renewing).1;
            && held2 - {g} == held - {g}
            && (!a.kind.Raised? ==> (g in held2 <==> a.Owned()))
            && (a.Owned() ==> g in held2 && held2[g] == a.expiresAt)
            && (a1.kind.Raised? ==> held2 == held)
            && (!a1.kind.Raised? && a.kind.Raised? ==> held2 == held1)
  {
  }
}
