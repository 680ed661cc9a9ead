/** What the lease and leader protocol guarantees over every run, and that no crash wedges it. */
module LeaseSafety {
  import opened Basics
  import opened Records
  import opened Protocol
  import opened LeaseInvariant
  import opened LeaseLocks

  /** A run kept with care leads from `s0` to `s`. */
  ghost predicate Reaches(cfg: Config, s0: State, s: State, care: Care) {
    exists steps: seq<Step> ::
      && Procs(cfg, s0) && Run(cfg, s0, steps)
      && KeptRun(cfg, s0, steps, care)
      && Final(cfg, s0, steps) == s
  }

  /** The states of all clean runs of well-configured processes whose reads, and as leases whose replaces, succeed. */
  ghost predicate Reachable(cfg: Config, s: State) {
    GoodConfig(cfg) && Trusted(cfg) && exists s0 :: Init(cfg, s0) && Reaches(cfg, s0, s, Cleanly)
  }

  lemma ReachableInv(cfg: Config, s: State)
    requires Reachable(cfg, s)
    ensures Inv(cfg, s)
  {
    var s0 :| Init(cfg, s0) && Reaches(cfg, s0, s, Cleanly);
    var steps: seq<Step> :|
      Procs(cfg, s0) && Run(cfg, s0, steps) && KeptRun(cfg, s0, steps, Cleanly) && Final(cfg, s0, steps) == s;
    InitInv(cfg, s0);
    RunKeeps(cfg, s0, steps);
  }

  /** A manager that holds `g` with its returned expiry still ahead owns the record with exactly that expiry, also in
      the middle of an operation on `g`, until that operation has taken effect. */
  lemma HeldIsOwned(cfg: Config, s: State, p: Pid, g: Sg)
    requires Reachable(cfg, s)
    requires Believes(s, p, g) && !Pending(s, p, g)
    ensures p in cfg.owners
    ensures Live(File(s, g).cell, cfg.accepts, s.clock)
    ensures File(s, g).cell.rec.owner == cfg.owners[p]
    ensures File(s, g).cell.rec.expiresAt == s.procs[p].held[g]
  {
    ReachableInv(cfg, s);
    assert BeliefOk(cfg, s, p, g);
  }

  /** From then until it returns its answer is borne out: what it reports as owned is in the record with the reported
      expiry, and what it reports as released is gone. */
  lemma PendingIsDone(cfg: Config, s: State, p: Pid, g: Sg)
    requires Reachable(cfg, s)
    requires Pending(s, p, g)
    ensures p in cfg.owners
    ensures var a := s.procs[p].pc.phase.answer;
            && (a.Owned() ==> Owns(cfg, s, p, g, a.expiresAt))
            && (a.kind.Released? ==> File(s, g).cell == Absent)
  {
    ReachableInv(cfg, s);
    assert ProcOk(cfg, s, p);
  }

  /** Two managers never both hold the same group with time left, at whatever step each of them is. */
  lemma NeverBothHold(cfg: Config, s: State, p: Pid, q: Pid, g: Sg)
    requires Reachable(cfg, s)
    requires p != q
    ensures !(Believes(s, p, g) && Believes(s, q, g))
  {
    ReachableInv(cfg, s);
    if p in s.procs && q in s.procs {
      assert BeliefOk(cfg, s, p, g) && BeliefOk(cfg, s, q, g);
      assert ProcOk(cfg, s, p) && ProcOk(cfg, s, q);
      assert Distinct(cfg, p, q);
    }
  }

  lemma ReachesLocks(cfg: Config, s0: State, s: State)
    requires SoundConfig(cfg) && Init(cfg, s0) && Reaches(cfg, s0, s, Cleanly)
    ensures LockInv(cfg, s)
  {
    var steps: seq<Step> :|
      Procs(cfg, s0) && Run(cfg, s0, steps) && KeptRun(cfg, s0, steps, Cleanly) && Final(cfg, s0, steps) == s;
    RunLocks(cfg, s0, steps);
  }

  /** Over clean runs, whoever shares an id and whichever calls fail, at most one live process is between a successful
      lock and its removal, and the directory that process removes when it returns is the one it made. */
  lemma LockIsExclusive(cfg: Config, s0: State, s: State, p: Pid, q: Pid)
    requires SoundConfig(cfg) && Init(cfg, s0) && Reaches(cfg, s0, s, Cleanly)
    requires InPhase(s, p)
    ensures var g := s.procs[p].pc.g;
            && File(s, g).lock == Some(s.procs[p].pc.since)
            && g in s.maker && s.maker[g] == p
    ensures InPhase(s, q) && s.procs[q].pc.g == s.procs[p].pc.g ==> p == q
  {
    ReachesLocks(cfg, s0, s);
    assert LockOk(cfg, s, p) && (InPhase(s, q) ==> LockOk(cfg, s, q));
  }

  /** The file holds the last tenure or, once that is over, none. */
  ghost predicate HoldsLast(cfg: Config, s: State, g: Sg) {
    var log, cell := Log(s, g), File(s, g).cell;
    if Valid(cfg, cell)
    then log != [] && log[|log| - 1] == Tenure(cell.rec.owner, cell.rec.acquiredAt, cell.rec.expiresAt)
    else log == [] || log[|log| - 1].until <= s.clock
  }

  lemma FileHoldsLast(cfg: Config, s: State, g: Sg)
    requires Reachable(cfg, s)
    ensures HoldsLast(cfg, s, g)
  {
    ReachableInv(cfg, s);
    assert LogOk(cfg, s, g);
  }

  /** Tenures follow one another: each is over, by expiry or release, before the next one starts, so at any
      moment at most one is running; and the file holds the last of them or, once that is over, none. */
  lemma TenuresAreDisjoint(cfg: Config, s: State, g: Sg, i: nat, j: nat)
    requires Reachable(cfg, s)
    requires i < j < |Log(s, g)|
    ensures Log(s, g)[i].start <= Log(s, g)[i].until <= Log(s, g)[j].start <= s.clock
    ensures HoldsLast(cfg, s, g)
  {
    ReachableInv(cfg, s);
    assert LogOk(cfg, s, g);
  }

  /** How one step may change a record's tenures: not at all; a new one, never before the end of the last;
      or a new end for the last one, whose owner and start stay. */
  ghost predicate LogStep(before: seq<Tenure>, after: seq<Tenure>, clock: Time) {
    || after == before
    || (exists t: Tenure :: after == before + [t] && t.start <= clock && EndedBy(before, t.start))
    || (&& before != [] && |after| == |before|
        && after[..|before| - 1] == before[..|before| - 1]
        && after[|before| - 1].owner == before[|before| - 1].owner
        && after[|before| - 1].start == before[|before| - 1].start)
  }

  lemma EndedIsLogStep(log: seq<Tenure>, clock: Time)
    ensures LogStep(log, Ended(log, clock), clock)
  {
  }

  lemma StepLog(cfg: Config, s: State, step: Step, g: Sg)
    requires Reachable(cfg, s)
    requires Enabled(cfg, s, step)
    ensures LogStep(Log(s, g), Log(Apply(cfg, s, step), g), s.clock)
  {
    ReachableInv(cfg, s);
    if step.Finish? && s.procs[step.p].pc.g == g {
      FinishLog(cfg, s, step.p, g);
    } else {
      OtherLog(cfg, s, step, g);
      EndedIsLogStep(Log(s, g), s.clock);
    }
  }

  lemma QuietLog(cfg: Config, s: State, step: Step, g: Sg)
    requires Procs(cfg, s) && Enabled(cfg, s, step) && !step.Finish? && !step.Act?
    ensures Log(Apply(cfg, s, step), g) == Log(s, g)
  {
    if step.Load? || step.ReadClock? || step.FailRead? || step.FailAct? || step.FailCreate? || step.FailReplace? {
      InnerLogs(cfg, s, step);
    } else {
      OuterLogs(cfg, s, step);
    }
  }

  lemma InnerLogs(cfg: Config, s: State, step: Step)
    requires Procs(cfg, s) && Enabled(cfg, s, step)
    requires step.Load? || step.ReadClock? || step.FailRead? || step.FailAct? || step.FailCreate? || step.FailReplace?
    ensures Apply(cfg, s, step).log == s.log
  {
  }

  lemma OuterLogs(cfg: Config, s: State, step: Step)
    requires Procs(cfg, s) && Enabled(cfg, s, step) && !step.Finish? && !step.Act? && !step.Load? && !step.ReadClock?
    requires !step.FailRead? && !step.FailAct? && !step.FailCreate? && !step.FailReplace?
    ensures Apply(cfg, s, step).log == s.log
  {
  }

  lemma OtherLog(cfg: Config, s: State, step: Step, g: Sg)
    requires Procs(cfg, s) && Enabled(cfg, s, step)
    requires !(step.Finish? && s.procs[step.p].pc.g == g)
    ensures var after := Log(Apply(cfg, s, step), g);
            after == Log(s, g) || after == Ended(Log(s, g), s.clock)
  {
    if !step.Finish? && !step.Act? {
      QuietLog(cfg, s, step, g);
    }
  }

  lemma FinishLog(cfg: Config, s: State, p: Pid, g: Sg)
    requires Inv(cfg, s) && Enabled(cfg, s, Finish(p)) && s.procs[p].pc.g == g
    ensures LogStep(Log(s, g), Log(DoFinish(cfg, s, p), g), s.clock)
  {
    assert ProcOk(cfg, s, p) && LogOk(cfg, s, g);
    var pc := s.procs[p].pc;
    var t := Tenure(pc.phase.rec.owner, pc.phase.rec.acquiredAt, pc.phase.rec.expiresAt);
    var after := Log(DoFinish(cfg, s, p), g);
    assert after == Logged(Log(s, g), pc.op, pc.phase.rec);
    if pc.op.Acquire? {
      assert after == Log(s, g) + [t];
    }
  }

  // ---- one process alone ------------------------------------------------------------------

  lemma Cons(cfg: Config, s: State, step: Step, rest: seq<Step>)
    requires Procs(cfg, s) && Enabled(cfg, s, step) && Run(cfg, Apply(cfg, s, step), rest)
    ensures Run(cfg, s, [step] + rest)
    ensures Final(cfg, s, [step] + rest) == Final(cfg, Apply(cfg, s, step), rest)
    ensures forall care ::
              StateKept(s, care) && StepKept(s, step, care) && KeptRun(cfg, Apply(cfg, s, step), rest, care)
              ==> KeptRun(cfg, s, [step] + rest, care)
  {
    assert ([step] + rest)[1..] == rest;
  }

  /** `p` is inside `g` in the given phase, and the record's files are `f`. */
  ghost predicate Inside(cfg: Config, s: State, p: Pid, pc: Pc, held: map<Sg, Time>, f: FileState) {
    Procs(cfg, s) && p in s.procs && s.procs[p] == Proc(held, pc) && pc.In? && File(s, pc.g) == f
  }

  /** Nobody but possibly `p` is inside `g`. */
  ghost predicate Alone(s: State, p: Pid, g: Sg) {
    forall q :: q != p && InPhase(s, q) ==> s.procs[q].pc.g != g
  }

  /** From `s` to `s'` only `p` and the files of `g` have moved. */
  ghost predicate OnlyMoved(s: State, s': State, p: Pid, g: Sg) {
    && (forall q :: q in s.procs && q != p ==> q in s'.procs && s'.procs[q] == s.procs[q])
    && (forall h :: h != g ==> File(s', h) == File(s, h))
  }

  /** `steps` can be run from `s`, break nobody's lock when `p` is alone, move only `p` and the files of `g`, and
      leave `p` idle with `held`, the files of `g` as `f` and the clock at `until`. */
  ghost predicate Arrives(cfg: Config, s: State, steps: seq<Step>, p: Pid, g: Sg, held: map<Sg, Time>, f: FileState,
                          until: Time)
  {
    && Procs(cfg, s)
    && Run(cfg, s, steps) && (Alone(s, p, g) ==> KeptRun(cfg, s, steps, Cleanly))
    && var s' := Final(cfg, s, steps);
    && p in s'.procs && s'.procs[p] == Proc(held, Idle)
    && s'.clock == until
    && File(s', g) == f
    && OnlyMoved(s, s', p, g)
  }

  lemma ArrivesAfter(cfg: Config, s: State, step: Step, s': State, rest: seq<Step>, p: Pid, g: Sg,
                     held: map<Sg, Time>, f: FileState, until: Time)
    requires Procs(cfg, s) && Enabled(cfg, s, step) && s' == Apply(cfg, s, step)
    requires Alone(s, p, g) ==> Clean(s, step)
    requires OnlyMoved(s, s', p, g)
    requires Arrives(cfg, s', rest, p, g, held, f, until)
    ensures Arrives(cfg, s, [step] + rest, p, g, held, f, until)
  {
    Cons(cfg, s, step, rest);
  }

  /** `p`, inside `g`, takes the step that comes next. */
  ghost predicate MovesInside(cfg: Config, s: State, step: Step, s': State, p: Pid, pc: Pc, held: map<Sg, Time>) {
    && Procs(cfg, s) && Enabled(cfg, s, step) && pc.In?
    && s' == Apply(cfg, s, step) && Clean(s, step) && OnlyMoved(s, s', p, pc.g) && s'.clock == s.clock
    && p in s'.procs && s'.procs[p].held == held && s'.procs[p].pc.In?
    && s'.procs[p].pc == pc.(phase := s'.procs[p].pc.phase)
  }

  lemma ReadMoves(cfg: Config, s: State, step: Step, p: Pid, pc: Pc, held: map<Sg, Time>, f: FileState)
    returns (s': State)
    requires Inside(cfg, s, p, pc, held, f) && Enabled(cfg, s, step) && (step == Load(p) || step == ReadClock(p))
    ensures MovesInside(cfg, s, step, s', p, pc, held)
  {
    s' := Apply(cfg, s, step);
  }

  lemma ActMoves(cfg: Config, s: State, p: Pid, pc: Pc, held: map<Sg, Time>, f: FileState) returns (s': State)
    requires Inside(cfg, s, p, pc, held, f) && Enabled(cfg, s, Act(p))
    ensures MovesInside(cfg, s, Act(p), s', p, pc, held)
  {
    var _, _, phase := ActShape(cfg, s, p, pc.g);
    s' := DoAct(cfg, s, p);
    assert s'.procs[p] == Proc(held, pc.(phase := phase));
    assert OnlyMoved(s, s', p, pc.g) by {
      ActLocal(cfg, s, p, pc.g);
      LocalMoves(cfg, s, s', p, pc.g);
    }
  }

  lemma LocalMoves(cfg: Config, s: State, s': State, p: Pid, g: Sg)
    requires Local(cfg, s, s', p, g)
    ensures OnlyMoved(s, s', p, g)
  {
    forall h | h != g ensures File(s', h) == File(s, h) {
      assert SameGroup(s, s', h);
    }
  }

  lemma FinishMoves(cfg: Config, s: State, p: Pid, pc: Pc, held: map<Sg, Time>, f: FileState) returns (s': State)
    requires Inside(cfg, s, p, pc, held, f) && Enabled(cfg, s, Finish(p))
    ensures MovesInside(cfg, s, Finish(p), s', p, pc, held)
  {
    s' := DoFinish(cfg, s, p);
  }

  lemma ReturnFrom(cfg: Config, s: State, p: Pid, pc: Pc, held: map<Sg, Time>, f: FileState, held': map<Sg, Time>)
    requires Inside(cfg, s, p, pc, held, f) && pc.phase.Finished?
    requires held' == Believe(cfg.role, pc.op, pc.g, held, pc.phase.answer)
    ensures Arrives(cfg, s, [Return(p)], p, pc.g, held', f.(lock := None), s.clock)
  {
    var s' := Apply(cfg, s, Return(p));
    assert Arrives(cfg, s', [], p, pc.g, held', f.(lock := None), s.clock);
    ArrivesAfter(cfg, s, Return(p), s', [], p, pc.g, held', f.(lock := None), s.clock);
    assert [Return(p)] + [] == [Return(p)];
  }

  lemma FinishFrom(cfg: Config, s: State, p: Pid, pc: Pc, held: map<Sg, Time>, f: FileState, held': map<Sg, Time>,
                   f': FileState)
    requires Inside(cfg, s, p, pc, held, f)
    requires pc.phase.Creating? || (pc.phase.Staged? && f.tmp == Written(pc.phase.rec))
    requires held' == Believe(cfg.role, pc.op, pc.g, held, pc.phase.answer)
    requires f' == FileState(Written(pc.phase.rec), if pc.phase.Creating? then f.tmp else Absent, None)
    ensures Arrives(cfg, s, [Finish(p), Return(p)], p, pc.g, held', f', s.clock)
  {
    var s' := FinishMoves(cfg, s, p, pc, held, f);
    ReturnFrom(cfg, s', p, pc.(phase := Finished(pc.phase.answer)), held, f'.(lock := f.lock), held');
    ArrivesAfter(cfg, s, Finish(p), s', [Return(p)], p, pc.g, held', f', s.clock);
    assert [Finish(p)] + [Return(p)] == [Finish(p), Return(p)];
  }

  function Tail(effect: Effect, p: Pid): seq<Step> {
    if effect.Store? then [Finish(p), Return(p)] else [Return(p)]
  }

  /** From `pc` on, once a decision has been made, `p` carries it out and returns. */
  ghost predicate CarriesOut(cfg: Config, p: Pid, pc: Pc, held: map<Sg, Time>, f: FileState, effect: Effect, a: Answer,
                             held': map<Sg, Time>, f': FileState)
  {
    && p in cfg.owners && p in cfg.ttls && pc.In?
    && held' == Believe(cfg.role, pc.op, pc.g, held, a)
    && f' == Settle(f, effect)
  }

  lemma ActUnstored(cfg: Config, s: State, p: Pid, pc: Pc, held: map<Sg, Time>, f: FileState, effect: Effect,
                    a: Answer, held': map<Sg, Time>, f': FileState)
    requires Inside(cfg, s, p, pc, held, f) && pc.phase == Timed(f.cell, s.clock)
    requires (effect, a) == Decide(pc.op, Id(cfg, p), f.cell, s.clock) && !effect.Store?
    requires CarriesOut(cfg, p, pc, held, f, effect, a, held', f')
    ensures Arrives(cfg, s, [Act(p)] + [Return(p)], p, pc.g, held', f', s.clock)
  {
    var s' := ActMoves(cfg, s, p, pc, held, f);
    ReturnFrom(cfg, s', p, pc.(phase := Finished(a)), held, if effect.Keep? then f else f.(cell := Absent), held');
    ArrivesAfter(cfg, s, Act(p), s', [Return(p)], p, pc.g, held', f', s.clock);
  }

  lemma ActStored(cfg: Config, s: State, p: Pid, pc: Pc, held: map<Sg, Time>, f: FileState, effect: Effect,
                  a: Answer, held': map<Sg, Time>, f': FileState)
    requires Inside(cfg, s, p, pc, held, f) && pc.phase == Timed(f.cell, s.clock)
    requires (effect, a) == Decide(pc.op, Id(cfg, p), f.cell, s.clock) && effect.Store?
    requires CarriesOut(cfg, p, pc, held, f, effect, a, held', f')
    ensures Arrives(cfg, s, [Act(p)] + [Finish(p), Return(p)], p, pc.g, held', f', s.clock)
  {
    var create := effect.exclusive && f.cell.Absent?;
    var phase := if create then Creating(effect.rec, a) else Staged(effect.rec, a);
    var s' := ActMoves(cfg, s, p, pc, held, f);
    FinishFrom(cfg, s', p, pc.(phase := phase), held,
               if create then f.(cell := Unreadable) else f.(tmp := Written(effect.rec)), held', f');
    ArrivesAfter(cfg, s, Act(p), s', [Finish(p), Return(p)], p, pc.g, held', f', s.clock);
  }

  lemma ActFrom(cfg: Config, s: State, p: Pid, pc: Pc, held: map<Sg, Time>, f: FileState, effect: Effect,
                a: Answer, held': map<Sg, Time>, f': FileState)
    requires Inside(cfg, s, p, pc, held, f) && pc.phase == Timed(f.cell, s.clock)
    requires (effect, a) == Decide(pc.op, Id(cfg, p), f.cell, s.clock)
    requires CarriesOut(cfg, p, pc, held, f, effect, a, held', f')
    ensures Arrives(cfg, s, [Act(p)] + Tail(effect, p), p, pc.g, held', f', s.clock)
  {
    if effect.Store? {
      ActStored(cfg, s, p, pc, held, f, effect, a, held', f');
    } else {
      ActUnstored(cfg, s, p, pc, held, f, effect, a, held', f');
    }
  }

  function Body(effect: Effect, p: Pid): seq<Step> {
    [Load(p)] + ([ReadClock(p)] + ([Act(p)] + Tail(effect, p)))
  }

  lemma LoadFrom(cfg: Config, s: State, p: Pid, pc: Pc, held: map<Sg, Time>, f: FileState, effect: Effect,
                 a: Answer, held': map<Sg, Time>, f': FileState)
    requires Inside(cfg, s, p, pc, held, f) && pc.phase.Entered?
    requires (effect, a) == Decide(pc.op, Id(cfg, p), f.cell, s.clock)
    requires CarriesOut(cfg, p, pc, held, f, effect, a, held', f')
    ensures Arrives(cfg, s, Body(effect, p), p, pc.g, held', f', s.clock)
  {
    var s1 := ReadMoves(cfg, s, Load(p), p, pc, held, f);
    var s2 := ReadMoves(cfg, s1, ReadClock(p), p, pc.(phase := Loaded(f.cell)), held, f);
    ActFrom(cfg, s2, p, pc.(phase := Timed(f.cell, s.clock)), held, f, effect, a, held', f');
    ArrivesAfter(cfg, s1, ReadClock(p), s2, [Act(p)] + Tail(effect, p), p, pc.g, held', f', s.clock);
    ArrivesAfter(cfg, s, Load(p), s1, [ReadClock(p)] + ([Act(p)] + Tail(effect, p)), p, pc.g, held', f', s.clock);
  }

  /** Time spent inside the critical section before the record is read and judged. */
  function PausedBody(effect: Effect, p: Pid, pause: Time): seq<Step> {
    if pause == 0.0 then Body(effect, p) else [Wait(pause)] + Body(effect, p)
  }

  lemma WaitMoves(cfg: Config, s: State, pause: Time, p: Pid, g: Sg)
    requires Procs(cfg, s) && 0.0 <= pause
    ensures var later := s.(clock := s.clock + pause);
            && Enabled(cfg, s, Wait(pause)) && later == Apply(cfg, s, Wait(pause))
            && Clean(s, Wait(pause)) && OnlyMoved(s, later, p, g)
  {
  }

  lemma PausedFrom(cfg: Config, s: State, p: Pid, pc: Pc, held: map<Sg, Time>, f: FileState, pause: Time, now: Time,
                   effect: Effect, a: Answer, held': map<Sg, Time>, f': FileState)
    requires Inside(cfg, s, p, pc, held, f) && pc.phase.Entered?
    requires now == s.clock + pause && 0.0 <= pause
    requires (effect, a) == Decide(pc.op, Id(cfg, p), f.cell, now)
    requires CarriesOut(cfg, p, pc, held, f, effect, a, held', f')
    ensures Arrives(cfg, s, PausedBody(effect, p, pause), p, pc.g, held', f', now)
  {
    var later := s.(clock := now);
    assert Arrives(cfg, later, Body(effect, p), p, pc.g, held', f', later.clock) by {
      LoadFrom(cfg, later, p, pc, held, f, effect, a, held', f');
    }
    if pause == 0.0 {
      assert later == s;
    } else {
      WaitMoves(cfg, s, pause, p, pc.g);
      ArrivesAfter(cfg, s, Wait(pause), later, Body(effect, p), p, pc.g, held', f', now);
    }
  }

  /** The mkdir that gets `p` inside, the first one or the one after a removal. */
  ghost predicate Enters(cfg: Config, s: State, step: Step, p: Pid, op: Op, g: Sg) {
    && Procs(cfg, s) && p in s.procs && File(s, g).lock == None
    && ((step == Mkdir(p, op, g) && Starts(cfg, s, p, op, g)) || (step == Remake(p) && s.procs[p].pc == Cleared(op, g)))
  }

  lemma EnterMoves(cfg: Config, s: State, step: Step, p: Pid, op: Op, g: Sg) returns (s': State)
    requires Enters(cfg, s, step, p, op, g)
    ensures Enabled(cfg, s, step) && s' == Apply(cfg, s, step) && Clean(s, step) && OnlyMoved(s, s', p, g)
    ensures s'.clock == s.clock
    ensures Inside(cfg, s', p, In(op, g, s.clock, Entered), s.procs[p].held, File(s, g).(lock := Some(s.clock)))
  {
    s' := Enter(s, p, op, g);
  }

  /** From the successful mkdir on. */
  lemma SoloEntering(cfg: Config, s: State, step: Step, p: Pid, op: Op, g: Sg, pause: Time, now: Time,
                     effect: Effect, a: Answer, held': map<Sg, Time>, f': FileState)
    requires Enters(cfg, s, step, p, op, g) && 0.0 <= pause && now == s.clock + pause
    requires (effect, a) == Decide(op, Id(cfg, p), File(s, g).cell, now)
    requires held' == Believe(cfg.role, op, g, s.procs[p].held, a) && f' == Settle(File(s, g), effect)
    ensures Arrives(cfg, s, [step] + PausedBody(effect, p, pause), p, g, held', f', now)
  {
    var s' := EnterMoves(cfg, s, step, p, op, g);
    var rest := PausedBody(effect, p, pause);
    assert Arrives(cfg, s', rest, p, g, held', f', now) by {
      var f := File(s, g).(lock := Some(s.clock));
      PausedFrom(cfg, s', p, In(op, g, s.clock, Entered), s.procs[p].held, f, pause, now, effect, a, held', f');
    }
    ArrivesAfter(cfg, s, step, s', rest, p, g, held', f', now);
  }

  /** A stale lock is tested and removed. */
  lemma BreakMoves(cfg: Config, s: State, p: Pid, op: Op, g: Sg) returns (s1: State, s2: State)
    requires Procs(cfg, s) && Starts(cfg, s, p, op, g)
    requires File(s, g).lock.Some? && Stale(File(s, g).lock.value, cfg.ttls[p], s.clock)
    ensures Enabled(cfg, s, Suspect(p, op, g)) && s1 == Apply(cfg, s, Suspect(p, op, g)) && OnlyMoved(s, s1, p, g)
    ensures Enabled(cfg, s1, Rmdir(p)) && s2 == Apply(cfg, s1, Rmdir(p)) && OnlyMoved(s1, s2, p, g)
    ensures Alone(s1, p, g) ==> Clean(s1, Rmdir(p))
    ensures Enters(cfg, s2, Remake(p), p, op, g) && s2.clock == s.clock
    ensures s2.procs[p].held == s.procs[p].held && File(s2, g) == File(s, g).(lock := None)
  {
    s1 := At(s, p, Suspecting(op, g, File(s, g).lock.value));
    s2 := At(Put(s1, g, File(s, g).(lock := None)), p, Cleared(op, g));
  }

  lemma BreakFirst(cfg: Config, s: State, s1: State, s2: State, rest: seq<Step>, p: Pid, op: Op, g: Sg,
                   held: map<Sg, Time>, f: FileState, until: Time)
    requires Procs(cfg, s) && Enabled(cfg, s, Suspect(p, op, g)) && s1 == Apply(cfg, s, Suspect(p, op, g))
    requires OnlyMoved(s, s1, p, g) && Enabled(cfg, s1, Rmdir(p)) && s2 == Apply(cfg, s1, Rmdir(p))
    requires OnlyMoved(s1, s2, p, g) && (Alone(s1, p, g) ==> Clean(s1, Rmdir(p)))
    requires Arrives(cfg, s2, rest, p, g, held, f, until)
    ensures Arrives(cfg, s, [Suspect(p, op, g)] + ([Rmdir(p)] + rest), p, g, held, f, until)
  {
    ArrivesAfter(cfg, s1, Rmdir(p), s2, rest, p, g, held, f, until);
    ArrivesAfter(cfg, s, Suspect(p, op, g), s1, [Rmdir(p)] + rest, p, g, held, f, until);
  }

  lemma SoloStale(cfg: Config, s: State, p: Pid, op: Op, g: Sg, pause: Time, now: Time, effect: Effect, a: Answer,
                  held': map<Sg, Time>, f': FileState)
    requires Procs(cfg, s) && Starts(cfg, s, p, op, g) && 0.0 <= pause && now == s.clock + pause
    requires File(s, g).lock.Some? && Stale(File(s, g).lock.value, cfg.ttls[p], s.clock)
    requires (effect, a) == Decide(op, Id(cfg, p), File(s, g).cell, now)
    requires held' == Believe(cfg.role, op, g, s.procs[p].held, a) && f' == Settle(File(s, g), effect)
    ensures Arrives(cfg, s, [Suspect(p, op, g)] + ([Rmdir(p)] + ([Remake(p)] + PausedBody(effect, p, pause))), p, g,
                    held', f', now)
  {
    var s1, s2 := BreakMoves(cfg, s, p, op, g);
    var rest := [Remake(p)] + PausedBody(effect, p, pause);
    assert Arrives(cfg, s2, rest, p, g, held', f', now) by {
      assert Settle(File(s2, g), effect) == f';
      SoloEntering(cfg, s2, Remake(p), p, op, g, pause, now, effect, a, held', f');
    }
    BreakFirst(cfg, s, s1, s2, rest, p, op, g, held', f', now);
  }

  /** The system calls of one whole operation of `p` on `g` with nobody else moving. */
  function Solo(cfg: Config, s: State, p: Pid, op: Op, g: Sg, pause: Time, now: Time): seq<Step>
    requires p in cfg.owners && p in cfg.ttls
  {
    var body := PausedBody(Decide(op, Id(cfg, p), File(s, g).cell, now).0, p, pause);
    if File(s, g).lock.None? then [Mkdir(p, op, g)] + body
    else [Suspect(p, op, g)] + ([Rmdir(p)] + ([Remake(p)] + body))
  }

  /** Run alone, the system calls of an operation add up to the sequential operation, with the lock tried now and the
      record judged after a pause. */
  lemma SoloIsRunOp(cfg: Config, s: State, p: Pid, op: Op, g: Sg, pause: Time, tried: Time, now: Time)
    requires Procs(cfg, s) && Starts(cfg, s, p, op, g) && 0.0 <= pause
    requires s.clock == tried && now == tried + pause
    requires LockOpen(File(s, g).lock, cfg.ttls[p], tried)
    ensures var (f, a) := RunOp(op, Id(cfg, p), File(s, g), tried, now);
            Arrives(cfg, s, Solo(cfg, s, p, op, g, pause, now), p, g,
                    Believe(cfg.role, op, g, s.procs[p].held, a), f, now)
  {
    var (effect, a) := Decide(op, Id(cfg, p), File(s, g).cell, now);
    var held', f' := Believe(cfg.role, op, g, s.procs[p].held, a), Settle(File(s, g), effect);
    assert Arrives(cfg, s, Solo(cfg, s, p, op, g, pause, now), p, g, held', f', now) by {
      if File(s, g).lock.None? {
        SoloEntering(cfg, s, Mkdir(p, op, g), p, op, g, pause, now, effect, a, held', f');
      } else {
        SoloStale(cfg, s, p, op, g, pause, now, effect, a, held', f');
      }
    }
  }

  /** How long until the lock is stale for a process with this TTL and any record in the file has expired. */
  function Patience(f: FileState, ttl: int, now: Time): (wait: Time)
    ensures 0.0 <= wait && LockOpen(f.lock, ttl, now + wait)
    ensures f.cell.Written? ==> IsExpired(f.cell.rec, now + wait)
  {
    var unlock := if f.lock.None? then 0.0 else f.lock.value + Lifetime(ttl) * 2.0 + 1.0 - now;
    var expire := if f.cell.Written? then f.cell.rec.expiresAt - now else 0.0;
    if unlock <= 0.0 && expire <= 0.0 then 0.0 else if unlock <= expire then expire else unlock
  }

  /** `p` alone runs a whole acquire of `g`, ends up holding it for a full TTL, removes the lock and
      reads the file back as its own; nobody's lock is broken if nobody is inside. */
  ghost predicate Acquires(cfg: Config, s: State, p: Pid, g: Sg)
    requires Procs(cfg, s) && p in s.procs
  {
    var steps := Solo(cfg, s, p, Acquire, g, 0.0, s.clock);
    var until := s.clock + Lifetime(cfg.ttls[p]);
    && Run(cfg, s, steps) && (Vacant(s, g) ==> KeptRun(cfg, s, steps, Cleanly))
    && var s' := Final(cfg, s, steps);
    && Believes(s', p, g) && s'.procs[p].held[g] == until
    && File(s', g).lock == None
    && Status(Id(cfg, p), File(s', g).cell, s'.clock) == (true, Some(Record(cfg.owners[p], s.clock, until)))
  }

  lemma FreeAcquire(id: Identity, f: FileState, now: Time)
    requires LockOpen(f.lock, id.ttl, now) && !Live(f.cell, id.accepts, now) && id.accepts(id.me)
    ensures var (f', a) := RunOp(Acquire, id, f, now, now);
            var rec := Record(id.me, now, now + Lifetime(id.ttl));
            && a.Owned() && a.expiresAt == rec.expiresAt && f'.cell == Written(rec) && f'.lock == None
            && (id.ttl >= 1 ==> Status(id, f'.cell, now) == (true, Some(rec)))
  {
  }

  lemma SoloAcquires(cfg: Config, s: State, p: Pid, g: Sg)
    requires SoundConfig(cfg) && Procs(cfg, s) && p in s.procs && s.procs[p].pc.Idle?
    requires LockOpen(File(s, g).lock, cfg.ttls[p], s.clock)
    requires !Live(File(s, g).cell, cfg.accepts, s.clock)
    ensures Acquires(cfg, s, p, g)
  {
    FreeAcquire(Id(cfg, p), File(s, g), s.clock);
    LifetimeMonotone(cfg, p);
    var f := RunOp(Acquire, Id(cfg, p), File(s, g), s.clock, s.clock).0;
    var held := s.procs[p].held[g := s.clock + Lifetime(cfg.ttls[p])];
    assert Arrives(cfg, s, Solo(cfg, s, p, Acquire, g, 0.0, s.clock), p, g, held, f, s.clock) by {
      SoloIsRunOp(cfg, s, p, Acquire, g, 0.0, s.clock, s.clock);
    }
  }

  ghost predicate Recovers(cfg: Config, s: State, p: Pid, g: Sg)
    requires Procs(cfg, s) && p in s.procs
  {
    var wait := Wait(Patience(File(s, g), cfg.ttls[p], s.clock));
    Enabled(cfg, s, wait) && Acquires(cfg, Apply(cfg, s, wait), p, g)
  }

  lemma WaitAcquires(cfg: Config, s: State, p: Pid, g: Sg)
    requires GoodConfig(cfg) && Procs(cfg, s) && p in s.procs && s.procs[p].pc.Idle?
    requires forall q :: q in s.procs ==> !s.procs[q].pc.In?
    ensures Recovers(cfg, s, p, g) && Vacant(s, g)
  {
    var wait := Patience(File(s, g), cfg.ttls[p], s.clock);
    var later := s.(clock := s.clock + wait);
    assert later == Apply(cfg, s, Wait(wait));
    assert File(later, g) == File(s, g);
    SoloAcquires(cfg, later, p, g);
  }

  /** Whatever crashed processes left behind, made or half made, once nobody is inside a critical section
      an idle process that waits for the lock to go stale and the record to expire acquires the group; and the
      record it finds meanwhile is missing, unreadable or the complete last tenure. */
  lemma NoCrashWedges(cfg: Config, s: State, p: Pid, g: Sg)
    requires Reachable(cfg, s)
    requires p in s.procs && s.procs[p].pc.Idle?
    requires forall q :: q in s.procs ==> !s.procs[q].pc.In?
    ensures GoodConfig(cfg) && Procs(cfg, s) && Recovers(cfg, s, p, g)
    ensures Valid(cfg, File(s, g).cell) ==>
              var r, log := File(s, g).cell.rec, Log(s, g);
              log != [] && log[|log| - 1] == Tenure(r.owner, r.acquiredAt, r.expiresAt)
  {
    ReachableInv(cfg, s);
    FileHoldsLast(cfg, s, g);
    WaitAcquires(cfg, s, p, g);
  }
}
