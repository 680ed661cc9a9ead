/** Breaking a stale lock: when it is harmless, and how long a critical section may last for that. */
module LeaseBreaks {
  import opened Basics
  import opened Records
  import opened Protocol
  import opened LeaseInvariant
  import opened LeaseLocks
  import opened LeaseSafety
  import opened LeaseFaults

  // ---- one break --------------------------------------------------------------------------

  /** A break that removes the directory whose age was tested finds nobody inside, provided critical sections last no
      longer than twice the least TTL: who was inside has had to leave since. */
  lemma TestedIsClean(cfg: Config, s: State, step: Step)
    requires LockInv(cfg, s) && Enabled(cfg, s, step) && Tested(s, step)
    requires Timely(s, Lifetime(cfg.leastTtl) * 2.0)
    ensures Clean(s, step)
  {
    if step.Rmdir? {
      assert LockOk(cfg, s, step.p);
      forall q | InPhase(s, q) ensures s.procs[q].pc.g != s.procs[step.p].pc.g {
        assert LockOk(cfg, s, q);
      }
    }
  }

  /** A break keeps the invariant exactly when nobody is inside. */
  lemma BreakKeepsExactly(cfg: Config, s: State, p: Pid)
    requires Inv(cfg, s) && Enabled(cfg, s, Rmdir(p))
    ensures Inv(cfg, Apply(cfg, s, Rmdir(p))) <==> Vacant(s, s.procs[p].pc.g)
  {
    if Vacant(s, s.procs[p].pc.g) {
      RmdirKeeps(cfg, s, p);
    } else {
      var q :| InPhase(s, q) && s.procs[q].pc.g == s.procs[p].pc.g;
      var s' := Apply(cfg, s, Rmdir(p));
      assert !ProcOk(cfg, s', q);
    }
  }

  /** The invariant holds at every state of the run. */
  ghost predicate Throughout(cfg: Config, s: State, steps: seq<Step>)
    requires Procs(cfg, s) && Run(cfg, s, steps)
    decreases |steps|
  {
    Inv(cfg, s) && (steps == [] || Throughout(cfg, Apply(cfg, s, steps[0]), steps[1..]))
  }

  /** A run keeps the invariant throughout exactly when it never breaks a lock while somebody is inside. */
  lemma {:induction false} CleanExactly(cfg: Config, s: State, steps: seq<Step>)
    requires Inv(cfg, s) && Trusted(cfg) && Run(cfg, s, steps)
    ensures KeptRun(cfg, s, steps, Cleanly) <==> Throughout(cfg, s, steps)
    decreases |steps|
  {
    if steps != [] {
      var s' := Apply(cfg, s, steps[0]);
      if Clean(s, steps[0]) {
        StepKeeps(cfg, s, steps[0]);
        CleanExactly(cfg, s', steps[1..]);
      } else {
        BreakKeepsExactly(cfg, s, steps[0].p);
      }
    }
  }

  // ---- runs with prompt critical sections ---------------------------------------------------

  /** With critical sections of at most twice the least TTL, breaks of what was tested are clean throughout. */
  lemma {:induction false} PromptIsClean(cfg: Config, s: State, steps: seq<Step>, limit: Time)
    requires LockInv(cfg, s) && limit <= Lifetime(cfg.leastTtl) * 2.0
    requires Run(cfg, s, steps) && KeptRun(cfg, s, steps, Promptly(limit))
    ensures KeptRun(cfg, s, steps, Cleanly)
    decreases |steps|
  {
    if steps != [] {
      assert Timely(s, limit);
      TestedIsClean(cfg, s, steps[0]);
      LocksKeep(cfg, s, steps[0]);
      PromptIsClean(cfg, Apply(cfg, s, steps[0]), steps[1..], limit);
    }
  }

  lemma PromptReaches(cfg: Config, s0: State, s: State, limit: Time)
    requires SoundConfig(cfg) && Init(cfg, s0) && limit <= Lifetime(cfg.leastTtl) * 2.0
    requires Reaches(cfg, s0, s, Promptly(limit))
    ensures Reaches(cfg, s0, s, Cleanly)
  {
    var steps: seq<Step> :|
      Procs(cfg, s0) && Run(cfg, s0, steps) && KeptRun(cfg, s0, steps, Promptly(limit)) && Final(cfg, s0, steps) == s;
    PromptIsClean(cfg, s0, steps, limit);
  }

  ghost predicate BothInside(s: State, p: Pid, q: Pid, g: Sg) {
    InPhase(s, p) && InPhase(s, q) && s.procs[p].pc.g == s.procs[q].pc.g == g
  }

  /** Two processes, the first inside and the other in some state, over a record that is not there. */
  ghost predicate Pair(cfg: Config, s: State, p: Pid, pcP: Pc, q: Pid, pcQ: Pc, g: Sg, lock: Option<Time>, now: Time,
                       care: Care)
  {
    && Procs(cfg, s) && p in s.procs && q in s.procs
    && s.procs[p] == Proc(map[], pcP) && s.procs[q] == Proc(map[], pcQ)
    && File(s, g) == FileState(Absent, Absent, lock) && s.clock == now && StateKept(s, care)
  }

  /** `q` is inside for as long as the limit allows; then its lock is older than twice `p`'s TTL, and `p` breaks it and
      gets in, too. */
  lemma Overstay(cfg: Config, p: Pid, q: Pid, g: Sg, limit: Time) returns (s0: State, s: State)
    requires SoundConfig(cfg) && p in cfg.owners && q in cfg.owners && p != q && limit > Lifetime(cfg.ttls[p]) * 2.0
    ensures s0 == Start(cfg, map[]) && Reaches(cfg, s0, s, Promptly(limit))
    ensures Pair(cfg, s, p, In(Acquire, g, limit, Entered), q, In(Acquire, g, 0.0, Entered), g, Some(limit), limit,
                 Promptly(limit))
  {
    var care := Promptly(limit);
    s0 := Start(cfg, map[]);
    StartReaches(cfg, map[], care);
    LifetimeMonotone(cfg, p);
    var inside := In(Acquire, g, 0.0, Entered);
    var s1 := Enter(s0, q, Acquire, g);
    ReachesStep(cfg, s0, s0, Mkdir(q, Acquire, g), care);
    assert Pair(cfg, s1, p, Idle, q, inside, g, Some(0.0), 0.0, care);
    var s2 := s1.(clock := limit);
    assert s2 == Apply(cfg, s1, Wait(limit));
    assert Pair(cfg, s2, p, Idle, q, inside, g, Some(0.0), limit, care);
    ReachesStep(cfg, s0, s1, Wait(limit), care);
    s := BreakIn(cfg, s0, s2, p, q, g, inside, limit);
  }

  lemma BreakIn(cfg: Config, s0: State, s: State, p: Pid, q: Pid, g: Sg, pcQ: Pc, limit: Time) returns (s': State)
    requires Reaches(cfg, s0, s, Promptly(limit)) && p != q && limit >= 0.0
    requires Pair(cfg, s, p, Idle, q, pcQ, g, Some(0.0), limit, Promptly(limit)) && Stale(0.0, cfg.ttls[p], limit)
    ensures Reaches(cfg, s0, s', Promptly(limit))
    ensures Pair(cfg, s', p, In(Acquire, g, limit, Entered), q, pcQ, g, Some(limit), limit, Promptly(limit))
  {
    var care := Promptly(limit);
    var s1 := SuspectPair(cfg, s, p, q, g, 0.0, pcQ, limit, care);
    ReachesStep(cfg, s0, s, Suspect(p, Acquire, g), care);
    s' := ClearAndEnter(cfg, s0, s1, p, q, g, 0.0, pcQ, Some(0.0), limit, care);
  }

  lemma SuspectPair(cfg: Config, s: State, p: Pid, q: Pid, g: Sg, mtime: Time, pcQ: Pc, now: Time, care: Care)
    returns (s': State)
    requires p != q && Pair(cfg, s, p, Idle, q, pcQ, g, Some(mtime), now, care) && Stale(mtime, cfg.ttls[p], now)
    ensures Enabled(cfg, s, Suspect(p, Acquire, g)) && s' == Apply(cfg, s, Suspect(p, Acquire, g))
    ensures StepKept(s, Suspect(p, Acquire, g), care)
    ensures Pair(cfg, s', p, Suspecting(Acquire, g, mtime), q, pcQ, g, Some(mtime), now, care)
  {
    s' := At(s, p, Suspecting(Acquire, g, mtime));
  }

  lemma ClearAndEnter(cfg: Config, s0: State, s: State, p: Pid, q: Pid, g: Sg, mtime: Time, pcQ: Pc,
                      lock: Option<Time>, now: Time, care: Care)
    returns (s': State)
    requires Reaches(cfg, s0, s, care) && p != q && !care.Cleanly?
    requires care.Promptly? ==> lock == Some(mtime) && care.limit >= 0.0
    requires Pair(cfg, s, p, Suspecting(Acquire, g, mtime), q, pcQ, g, lock, now, care)
    ensures Reaches(cfg, s0, s', care)
    ensures Pair(cfg, s', p, In(Acquire, g, now, Entered), q, pcQ, g, Some(now), now, care)
  {
    var s1 := ClearPair(cfg, s, p, q, g, mtime, pcQ, lock, now, care);
    ReachesStep(cfg, s0, s, Rmdir(p), care);
    s' := EnterPair(cfg, s1, p, q, g, pcQ, now, care);
    ReachesStep(cfg, s0, s1, Remake(p), care);
  }

  lemma ClearPair(cfg: Config, s: State, p: Pid, q: Pid, g: Sg, mtime: Time, pcQ: Pc, lock: Option<Time>, now: Time,
                  care: Care)
    returns (s': State)
    requires p != q && Pair(cfg, s, p, Suspecting(Acquire, g, mtime), q, pcQ, g, lock, now, care)
    requires !care.Cleanly? && (care.Promptly? ==> lock == Some(mtime))
    ensures Enabled(cfg, s, Rmdir(p)) && s' == Apply(cfg, s, Rmdir(p)) && StepKept(s, Rmdir(p), care)
    ensures Pair(cfg, s', p, Cleared(Acquire, g), q, pcQ, g, None, now, care)
  {
    s' := At(Put(s, g, File(s, g).(lock := None)), p, Cleared(Acquire, g));
  }

  lemma EnterPair(cfg: Config, s: State, p: Pid, q: Pid, g: Sg, pcQ: Pc, now: Time, care: Care) returns (s': State)
    requires p != q && Pair(cfg, s, p, Cleared(Acquire, g), q, pcQ, g, None, now, care)
    requires care.Promptly? ==> care.limit >= 0.0
    ensures Enabled(cfg, s, Remake(p)) && s' == Apply(cfg, s, Remake(p)) && StepKept(s, Remake(p), care)
    ensures Pair(cfg, s', p, In(Acquire, g, now, Entered), q, pcQ, g, Some(now), now, care)
  {
    s' := Enter(s, p, Acquire, g);
  }

  lemma ReadAbsent(cfg: Config, s0: State, s: State, p: Pid, since: Time, q: Pid, g: Sg, pcQ: Pc, lock: Option<Time>,
                   now: Time, care: Care)
    returns (s': State)
    requires Reaches(cfg, s0, s, care) && p != q
    requires Pair(cfg, s, p, In(Acquire, g, since, Entered), q, pcQ, g, lock, now, care)
    ensures Reaches(cfg, s0, s', care)
    ensures Pair(cfg, s', p, In(Acquire, g, since, Timed(Absent, now)), q, pcQ, g, lock, now, care)
  {
    var f := FileState(Absent, Absent, lock);
    var pc := In(Acquire, g, since, Entered);
    var s1 := ReadMoves(cfg, s, Load(p), p, pc, map[], f);
    StillKept(s, s1, p, g, care);
    ReachesStep(cfg, s0, s, Load(p), care);
    s' := ReadMoves(cfg, s1, ReadClock(p), p, pc.(phase := Loaded(Absent)), map[], f);
    StillKept(s1, s', p, g, care);
    ReachesStep(cfg, s0, s1, ReadClock(p), care);
  }

  /** Two processes inside, one of them for `since`, both find no record and both come out holding the group. */
  lemma BothComeOut(cfg: Config, s0: State, s: State, p: Pid, sinceP: Time, q: Pid, sinceQ: Time, g: Sg,
                    lock: Option<Time>, now: Time, care: Care)
    returns (s': State)
    requires SoundConfig(cfg) && Reaches(cfg, s0, s, care) && p != q
    requires Pair(cfg, s, p, In(Acquire, g, sinceP, Entered), q, In(Acquire, g, sinceQ, Entered), g, lock, now, care)
    ensures Reaches(cfg, s0, s', care) && BothHold(s', p, q, g)
  {
    var read := In(Acquire, g, sinceP, Timed(Absent, now));
    var s1 := ReadAbsent(cfg, s0, s, p, sinceP, q, g, In(Acquire, g, sinceQ, Entered), lock, now, care);
    var s2 := ReadAbsent(cfg, s0, s1, q, sinceQ, p, g, read, lock, now, care);
    var s3 := LateWrite(cfg, s0, s2, p, g, sinceP, Absent, care);
    s' := LateWrite(cfg, s0, s3, q, g, sinceQ, Absent, care);
  }

  /** Over runs whose breaks remove what was tested and whose critical sections last at most `limit`, no two processes
      are ever inside together. */
  ghost predicate Exclusive(cfg: Config, limit: Time) {
    forall p, q, g, s0, s ::
      p != q && Init(cfg, s0) && Reaches(cfg, s0, s, Promptly(limit)) ==> !BothInside(s, p, q, g)
  }

  /** Likewise, no two processes ever hold the same group. */
  ghost predicate SafelyHeld(cfg: Config, limit: Time) {
    forall p, q, g, s0, s ::
      p != q && Init(cfg, s0) && Reaches(cfg, s0, s, Promptly(limit)) ==> !BothHold(s, p, q, g)
  }

  /** Exclusion holds over those runs if and only if the limit is at most twice the least TTL, whichever calls fail and
      whoever shares an id. `p` has the least TTL. */
  lemma ExclusiveExactly(cfg: Config, p: Pid, q: Pid, limit: Time)
    requires SoundConfig(cfg) && p in cfg.owners && q in cfg.owners && p != q && cfg.ttls[p] == cfg.leastTtl
    ensures Exclusive(cfg, limit) <==> limit <= Lifetime(cfg.leastTtl) * 2.0
  {
    if limit <= Lifetime(cfg.leastTtl) * 2.0 {
      forall p, q, g, s0, s | p != q && Init(cfg, s0) && Reaches(cfg, s0, s, Promptly(limit))
        ensures !BothInside(s, p, q, g)
      {
        PromptReaches(cfg, s0, s, limit);
        ReachesLocks(cfg, s0, s);
        assert InPhase(s, p) && InPhase(s, q) ==> LockOk(cfg, s, p) && LockOk(cfg, s, q);
      }
    } else {
      StartReaches(cfg, map[], Anyhow);
      var s0, s := Overstay(cfg, p, q, 0, limit);
      assert BothInside(s, p, q, 0);
    }
  }

  /** For distinct owner ids, with reads and a lease's replaces not failing, no two processes ever hold one group over
      those runs if and only if the limit is at most twice the least TTL. */
  lemma SafelyHeldExactly(cfg: Config, p: Pid, q: Pid, limit: Time)
    requires GoodConfig(cfg) && Trusted(cfg)
    requires p in cfg.owners && q in cfg.owners && p != q && cfg.ttls[p] == cfg.leastTtl
    ensures SafelyHeld(cfg, limit) <==> limit <= Lifetime(cfg.leastTtl) * 2.0
  {
    if limit <= Lifetime(cfg.leastTtl) * 2.0 {
      forall p, q, g, s0, s | p != q && Init(cfg, s0) && Reaches(cfg, s0, s, Promptly(limit))
        ensures !BothHold(s, p, q, g)
      {
        PromptReaches(cfg, s0, s, limit);
        NeverBothHold(cfg, s, p, q, g);
      }
    } else {
      StartReaches(cfg, map[], Anyhow);
      var s0, s := Overstay(cfg, p, q, 0, limit);
      var s' := BothComeOut(cfg, s0, s, p, limit, q, 0.0, 0, Some(limit), limit, Promptly(limit));
      assert BothHold(s', p, q, 0);
    }
  }

  // ---- a stale lock tested twice --------------------------------------------------------------

  /** The staleness test, the rmdir and the mkdir are separate calls, so any two processes can both find the lock a
      crashed one left, one removes it and makes its own, the other removes that, and both come out holding the
      group, without any passing of time. */
  lemma UncleanBreak(cfg: Config, p: Pid, q: Pid, g: Sg, mtime: Time) returns (s: State, s': State)
    requires SoundConfig(cfg) && p in cfg.owners && q in cfg.owners && p != q
    requires Stale(mtime, cfg.ttls[p], 0.0) && Stale(mtime, cfg.ttls[q], 0.0)
    ensures var s0 := Start(cfg, map[g := FileState(Absent, Absent, Some(mtime))]);
            Init(cfg, s0) && Reaches(cfg, s0, s, Anyhow) && Reaches(cfg, s0, s', Anyhow)
    ensures BothInside(s, p, q, g) && BothHold(s', p, q, g)
  {
    var files := map[g := FileState(Absent, Absent, Some(mtime))];
    var s0 := Start(cfg, files);
    StartReaches(cfg, files, Anyhow);
    var sus, inside := Suspecting(Acquire, g, mtime), In(Acquire, g, 0.0, Entered);
    var s1 := SuspectPair(cfg, s0, p, q, g, mtime, Idle, 0.0, Anyhow);
    ReachesStep(cfg, s0, s0, Suspect(p, Acquire, g), Anyhow);
    var s2 := SuspectPair(cfg, s1, q, p, g, mtime, sus, 0.0, Anyhow);
    ReachesStep(cfg, s0, s1, Suspect(q, Acquire, g), Anyhow);
    var s4 := ClearAndEnter(cfg, s0, s2, p, q, g, mtime, sus, Some(mtime), 0.0, Anyhow);
    s := ClearAndEnter(cfg, s0, s4, q, p, g, mtime, inside, Some(0.0), 0.0, Anyhow);
    s' := BothComeOut(cfg, s0, s, q, 0.0, p, 0.0, g, Some(0.0), 0.0, Anyhow);
  }
}
