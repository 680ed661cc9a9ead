/** Exclusion of the critical sections, whoever shares an id and whichever calls fail. */
module LeaseLocks {
  import opened Basics
  import opened Records
  import opened Protocol
  import opened LeaseInvariant

  /** A step of `p` that takes no time; of the locks, at most the one of `g` changes, and then nobody else is inside. */
  ghost predicate Shifts(cfg: Config, s: State, s': State, p: Pid, g: Sg) {
    && Procs(cfg, s) && Procs(cfg, s') && s'.clock == s.clock
    && (forall q :: q in s.procs && q != p ==> s'.procs[q] == s.procs[q])
    && (forall h :: h == g || SameLock(s, s', h))
    && (SameLock(s, s', g) || forall q :: q != p && InPhase(s, q) ==> s.procs[q].pc.g != g)
  }

  lemma ShiftKeeps(cfg: Config, s: State, s': State, p: Pid, g: Sg)
    requires LockInv(cfg, s) && Shifts(cfg, s, s', p, g) && p in s.procs && LockOk(cfg, s', p)
    ensures LockInv(cfg, s')
  {
    forall q | q in s'.procs ensures LockOk(cfg, s', q) {
      assert LockOk(cfg, s, q);
      if q != p && InPhase(s, q) {
        assert SameLock(s, s', s.procs[q].pc.g);
      }
    }
  }

  lemma EnterLocks(cfg: Config, s: State, p: Pid, op: Op, g: Sg)
    requires LockInv(cfg, s) && p in s.procs && !s.procs[p].pc.In? && File(s, g).lock == None
    ensures LockInv(cfg, Enter(s, p, op, g))
  {
    forall q | q != p && InPhase(s, q) ensures s.procs[q].pc.g != g {
      assert LockOk(cfg, s, q);
    }
    ShiftKeeps(cfg, s, Enter(s, p, op, g), p, g);
  }

  /** `p` goes on outside, with no lock touched. */
  lemma OutsideLocks(cfg: Config, s: State, p: Pid, proc: Proc)
    requires LockInv(cfg, s) && p in s.procs && !proc.pc.In?
    requires proc.pc.Suspecting? ==> s.clock - proc.pc.mtime > Lifetime(cfg.leastTtl) * 2.0
    ensures LockInv(cfg, s.(procs := s.procs[p := proc]))
  {
    ShiftKeeps(cfg, s, s.(procs := s.procs[p := proc]), p, 0);
  }

  lemma SuspectLocks(cfg: Config, s: State, p: Pid, op: Op, g: Sg)
    requires LockInv(cfg, s) && Enabled(cfg, s, Suspect(p, op, g))
    ensures LockInv(cfg, At(s, p, Suspecting(op, g, File(s, g).lock.value)))
  {
    LifetimeMonotone(cfg, p);
    OutsideLocks(cfg, s, p, s.procs[p].(pc := Suspecting(op, g, File(s, g).lock.value)));
  }

  lemma RmdirLocks(cfg: Config, s: State, p: Pid, s': State)
    requires LockInv(cfg, s) && Enabled(cfg, s, Rmdir(p)) && Clean(s, Rmdir(p)) && s' == Apply(cfg, s, Rmdir(p))
    ensures LockInv(cfg, s')
  {
    ShiftKeeps(cfg, s, s', p, s.procs[p].pc.g);
  }

  lemma RemakeLocks(cfg: Config, s: State, p: Pid)
    requires LockInv(cfg, s) && Enabled(cfg, s, Remake(p))
    ensures LockInv(cfg, Apply(cfg, s, Remake(p)))
  {
    var pc := s.procs[p].pc;
    if File(s, pc.g).lock.None? {
      EnterLocks(cfg, s, p, pc.op, pc.g);
    } else {
      OutsideLocks(cfg, s, p, Proc(Believe(cfg.role, pc.op, pc.g, s.procs[p].held, BUSY), Idle));
    }
  }

  /** `p` stays inside `g`, and locks and makers are as they were. */
  ghost predicate StaysInside(cfg: Config, s: State, s': State, p: Pid) {
    && Procs(cfg, s) && Procs(cfg, s') && s'.clock == s.clock && s'.maker == s.maker
    && InPhase(s, p) && InPhase(s', p)
    && s'.procs[p].pc.g == s.procs[p].pc.g && s'.procs[p].pc.since == s.procs[p].pc.since
    && (forall q :: q in s.procs && q != p ==> s'.procs[q] == s.procs[q])
    && (forall h :: SameLock(s, s', h))
  }

  lemma InsideLocks(cfg: Config, s: State, s': State, p: Pid)
    requires LockInv(cfg, s) && StaysInside(cfg, s, s', p)
    ensures LockInv(cfg, s')
  {
    assert LockOk(cfg, s, p) && SameLock(s, s', s.procs[p].pc.g);
    ShiftKeeps(cfg, s, s', p, s.procs[p].pc.g);
  }

  lemma MoveStays(cfg: Config, s: State, p: Pid, f: FileState, log: map<Sg, seq<Tenure>>, phase: Phase)
    requires Procs(cfg, s) && InPhase(s, p) && f.lock == File(s, s.procs[p].pc.g).lock
    ensures StaysInside(cfg, s, Move(s, p, phase), p)
    ensures StaysInside(cfg, s, Move(Put(s, s.procs[p].pc.g, f), p, phase), p)
    ensures StaysInside(cfg, s, Move(Put(s, s.procs[p].pc.g, f), p, phase).(log := log), p)
  {
  }

  lemma ActLocks(cfg: Config, s: State, p: Pid)
    requires LockInv(cfg, s) && Enabled(cfg, s, Act(p))
    ensures LockInv(cfg, DoAct(cfg, s, p))
  {
    var s', g := DoAct(cfg, s, p), s.procs[p].pc.g;
    MoveStays(cfg, s, p, File(s', g), s'.log, s'.procs[p].pc.phase);
    assert s' == Move(s, p, s'.procs[p].pc.phase)
        || s' == Move(Put(s, g, File(s', g)), p, s'.procs[p].pc.phase)
        || s' == Move(Put(s, g, File(s', g)), p, s'.procs[p].pc.phase).(log := s'.log);
    InsideLocks(cfg, s, s', p);
  }

  lemma FinishLocks(cfg: Config, s: State, p: Pid)
    requires LockInv(cfg, s) && Enabled(cfg, s, Finish(p))
    ensures LockInv(cfg, DoFinish(cfg, s, p))
  {
    var s', g := DoFinish(cfg, s, p), s.procs[p].pc.g;
    MoveStays(cfg, s, p, File(s', g), s'.log, s'.procs[p].pc.phase);
    assert s' == Move(Put(s, g, File(s', g)), p, s'.procs[p].pc.phase).(log := s'.log);
    InsideLocks(cfg, s, s', p);
  }

  lemma PhaseLocks(cfg: Config, s: State, p: Pid, phase: Phase)
    requires LockInv(cfg, s) && InPhase(s, p)
    ensures LockInv(cfg, Move(s, p, phase))
  {
    MoveStays(cfg, s, p, File(s, s.procs[p].pc.g), s.log, phase);
    InsideLocks(cfg, s, Move(s, p, phase), p);
  }

  lemma CreateLocks(cfg: Config, s: State, p: Pid, left: bool)
    requires LockInv(cfg, s) && Enabled(cfg, s, FailCreate(p, left))
    ensures LockInv(cfg, DoFailCreate(cfg, s, p, left))
  {
    var s', g := DoFailCreate(cfg, s, p, left), s.procs[p].pc.g;
    MoveStays(cfg, s, p, File(s', g), s.log, s'.procs[p].pc.phase);
    InsideLocks(cfg, s, s', p);
  }

  lemma ReplaceLocks(cfg: Config, s: State, p: Pid, staged: bool)
    requires LockInv(cfg, s) && Enabled(cfg, s, FailReplace(p, staged))
    ensures LockInv(cfg, DoFailReplace(cfg, s, p, staged))
  {
    var s', g := DoFailReplace(cfg, s, p, staged), s.procs[p].pc.g;
    MoveStays(cfg, s, p, File(s', g), s.log, s'.procs[p].pc.phase);
    InsideLocks(cfg, s, s', p);
  }

  lemma ReturnLocks(cfg: Config, s: State, p: Pid, unlocked: bool)
    requires LockInv(cfg, s) && Enabled(cfg, s, Return(p))
    ensures LockInv(cfg, DoReturn(cfg, s, p, unlocked))
  {
    var g := s.procs[p].pc.g;
    assert LockOk(cfg, s, p);
    forall q | q != p && InPhase(s, q) ensures s.procs[q].pc.g != g {
      assert LockOk(cfg, s, q);
    }
    ShiftKeeps(cfg, s, DoReturn(cfg, s, p, unlocked), p, g);
  }

  lemma WaitLocks(cfg: Config, s: State, d: Time)
    requires LockInv(cfg, s) && 0.0 <= d
    ensures LockInv(cfg, s.(clock := s.clock + d))
  {
    forall q | q in s.procs ensures LockOk(cfg, s.(clock := s.clock + d), q) {
      assert LockOk(cfg, s, q);
    }
  }

  lemma OuterLocksKeep(cfg: Config, s: State, step: Step)
    requires LockInv(cfg, s) && Enabled(cfg, s, step) && Clean(s, step)
    requires step.Mkdir? || step.Bounce? || step.Suspect? || step.Rmdir? || step.Remake? || step.FailRemake?
    ensures LockInv(cfg, Apply(cfg, s, step))
  {
    match step {
      case Mkdir(p, op, g) => EnterLocks(cfg, s, p, op, g);
      case Bounce(p, op, g) => OutsideLocks(cfg, s, p, Proc(Believe(cfg.role, op, g, s.procs[p].held, BUSY), Idle));
      case Suspect(p, op, g) => SuspectLocks(cfg, s, p, op, g);
      case Rmdir(p) => RmdirLocks(cfg, s, p, Apply(cfg, s, step));
      case Remake(p) => RemakeLocks(cfg, s, p);
      case FailRemake(p) => OutsideLocks(cfg, s, p, Proc(s.procs[p].held, Idle));
      case _ =>
    }
  }

  lemma InnerLocksKeep(cfg: Config, s: State, step: Step)
    requires LockInv(cfg, s) && Enabled(cfg, s, step)
    requires step.Load? || step.ReadClock? || step.Act? || step.Finish? || step.Return? || step.FailUnlock?
    ensures LockInv(cfg, Apply(cfg, s, step))
  {
    match step {
      case Load(p) => PhaseLocks(cfg, s, p, Loaded(File(s, s.procs[p].pc.g).cell));
      case ReadClock(p) => PhaseLocks(cfg, s, p, Timed(s.procs[p].pc.phase.seen, s.clock));
      case Act(p) => ActLocks(cfg, s, p);
      case Finish(p) => FinishLocks(cfg, s, p);
      case Return(p) => ReturnLocks(cfg, s, p, true);
      case FailUnlock(p) => ReturnLocks(cfg, s, p, false);
      case _ =>
    }
  }

  lemma FailActLocks(cfg: Config, s: State, p: Pid)
    requires LockInv(cfg, s) && Enabled(cfg, s, FailAct(p))
    ensures LockInv(cfg, DoFailAct(cfg, s, p))
  {
    PhaseLocks(cfg, s, p, DoFailAct(cfg, s, p).procs[p].pc.phase);
  }

  lemma FailureLocksKeep(cfg: Config, s: State, step: Step)
    requires LockInv(cfg, s) && Enabled(cfg, s, step)
    requires step.FailRead? || step.FailAct? || step.FailCreate? || step.FailReplace?
    ensures LockInv(cfg, Apply(cfg, s, step))
  {
    match step {
      case FailRead(p) => PhaseLocks(cfg, s, p, Loaded(Unreadable));
      case FailAct(p) => FailActLocks(cfg, s, p);
      case FailCreate(p, left) => CreateLocks(cfg, s, p, left);
      case FailReplace(p, staged) => ReplaceLocks(cfg, s, p, staged);
      case _ =>
    }
  }

  /** Every step whose break, if it is one, finds nobody inside keeps exclusion. */
  lemma LocksKeep(cfg: Config, s: State, step: Step)
    requires LockInv(cfg, s) && Enabled(cfg, s, step) && Clean(s, step)
    ensures LockInv(cfg, Apply(cfg, s, step))
  {
    if step.Mkdir? || step.Bounce? || step.Suspect? || step.Rmdir? || step.Remake? || step.FailRemake? {
      OuterLocksKeep(cfg, s, step);
    } else if step.Crash? {
      OutsideLocks(cfg, s, step.p, Proc(map[], Dead));
    } else if step.Restart? {
      OutsideLocks(cfg, s, step.p, Proc(map[], Idle));
    } else if step.Wait? {
      WaitLocks(cfg, s, step.d);
    } else if step.FailRead? || step.FailAct? || step.FailCreate? || step.FailReplace? {
      FailureLocksKeep(cfg, s, step);
    } else {
      InnerLocksKeep(cfg, s, step);
    }
  }

  lemma {:induction false} RunLocks(cfg: Config, s: State, steps: seq<Step>)
    requires LockInv(cfg, s) && Run(cfg, s, steps) && KeptRun(cfg, s, steps, Cleanly)
    ensures LockInv(cfg, Final(cfg, s, steps))
    decreases |steps|
  {
    if steps != [] {
      LocksKeep(cfg, s, steps[0]);
      RunLocks(cfg, Apply(cfg, s, steps[0]), steps[1..]);
    }
  }
}
