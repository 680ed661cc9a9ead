/** The invariant of the lease protocol, and that every step keeps it. */
module LeaseInvariant {
  import opened Basics
  import opened Records
  import opened Protocol

  ghost predicate EndedBy(log: seq<Tenure>, t: Time) {
    log == [] || log[|log| - 1].until <= t
  }

  ghost predicate Ordered(log: seq<Tenure>, clock: Time) {
    && (forall i :: 0 <= i < |log| ==> log[i].start <= log[i].until && log[i].start <= clock)
    && (forall i, j :: 0 <= i < j < |log| ==> log[i].until <= log[j].start)
  }

  ghost predicate Valid(cfg: Config, cell: Cell) {
    ReadRecord(cell, cfg.accepts).Some?
  }

  /** What a process inside its critical section may rely on, phase by phase. */
  ghost predicate PhaseOk(cfg: Config, me: Owner, op: Op, f: FileState, log: seq<Tenure>, clock: Time, phase: Phase) {
    match phase
    case Entered => true
    case Loaded(seen) => seen == f.cell
    case Timed(seen, now) =>
      && seen == f.cell
      && now <= clock
      && (Valid(cfg, seen) ==> seen.rec.acquiredAt <= now)
      && (!Valid(cfg, seen) ==> EndedBy(log, now))
    case Creating(rec, a) =>
      && op.Acquire?
      && f.cell == Unreadable
      && Claims(me, rec, a, clock)
      && EndedBy(log, rec.acquiredAt)
    case Staged(rec, a) =>
      && f.tmp == Written(rec)
      && Claims(me, rec, a, clock)
      && (op.Acquire? ==>
            EndedBy(log, rec.acquiredAt) && (Valid(cfg, f.cell) ==> f.cell.rec.expiresAt <= rec.acquiredAt))
      && (op.Renew? ==> f.cell.Written? && f.cell.rec.owner == me && rec == f.cell.rec.(expiresAt := rec.expiresAt))
      && !op.Release?
    case Finished(a) =>
      && (a.Owned() ==>
            !op.Release? && f.cell.Written? && f.cell.rec.owner == me && f.cell.rec.expiresAt == a.expiresAt)
      && (a.kind.Released? ==> op.Release? && f.cell.Absent?)
  }

  ghost predicate Claims(me: Owner, rec: Record, a: Answer, clock: Time) {
    && rec.owner == me
    && rec.acquiredAt <= clock
    && rec.acquiredAt <= rec.expiresAt
    && a.Owned()
    && a.expiresAt == rec.expiresAt
  }

  /** Who has tested a lock found it older than twice the least TTL; who is inside has its own lock on the record. */
  ghost predicate LockOk(cfg: Config, s: State, p: Pid)
    requires p in s.procs
  {
    match s.procs[p].pc
    case Suspecting(op, g, mtime) => s.clock - mtime > Lifetime(cfg.leastTtl) * 2.0
    case In(op, g, since, phase) =>
      since <= s.clock && File(s, g).lock == Some(since) && g in s.maker && s.maker[g] == p
    case _ => true
  }

  ghost predicate ProcOk(cfg: Config, s: State, p: Pid)
    requires Procs(cfg, s) && p in s.procs
  {
    && LockOk(cfg, s, p)
    && (InPhase(s, p) ==>
          var pc := s.procs[p].pc;
          PhaseOk(cfg, cfg.owners[p], pc.op, File(s, pc.g), Log(s, pc.g), s.clock, pc.phase))
  }

  ghost predicate LogOk(cfg: Config, s: State, g: Sg) {
    var log, cell := Log(s, g), File(s, g).cell;
    && Ordered(log, s.clock)
    && (Valid(cfg, cell) ==>
          log != [] && log[|log| - 1] == Tenure(cell.rec.owner, cell.rec.acquiredAt, cell.rec.expiresAt))
    && (!Valid(cfg, cell) ==> EndedBy(log, s.clock))
  }

  /** The operation has taken effect on the record and has not yet returned to the manager. */
  ghost predicate Pending(s: State, p: Pid, g: Sg) {
    && InPhase(s, p)
    && s.procs[p].pc.g == g
    && s.procs[p].pc.phase.Finished?
    && (s.procs[p].pc.phase.answer.Owned() || s.procs[p].pc.phase.answer.kind.Released?)
  }

  ghost predicate Believes(s: State, p: Pid, g: Sg) {
    p in s.procs && g in s.procs[p].held && s.clock < s.procs[p].held[g]
  }

  ghost predicate Owns(cfg: Config, s: State, p: Pid, g: Sg, until: Time)
    requires p in cfg.owners
  {
    var cell := File(s, g).cell;
    cell.Written? && cell.rec.owner == cfg.owners[p] && cell.rec.expiresAt == until
  }

  ghost predicate BeliefOk(cfg: Config, s: State, p: Pid, g: Sg)
    requires Procs(cfg, s)
  {
    Believes(s, p, g) && !Pending(s, p, g) ==> Owns(cfg, s, p, g, s.procs[p].held[g])
  }

  ghost predicate Inv(cfg: Config, s: State) {
    && GoodConfig(cfg)
    && Procs(cfg, s)
    && (forall p :: p in s.procs ==> ProcOk(cfg, s, p))
    && (forall g :: LogOk(cfg, s, g))
    && (forall p, g :: BeliefOk(cfg, s, p, g))
  }

  /** Of the failing calls only two kinds are more than the invariant survives: a read, which makes a live record
      look like none, and the replace of a lease, which is swallowed. */
  ghost predicate Trusted(cfg: Config) {
    !cfg.readsMayFail && (cfg.role.LeaseRole? ==> !cfg.replacesMayFail)
  }

  lemma InitInv(cfg: Config, s: State)
    requires GoodConfig(cfg) && Init(cfg, s)
    ensures Inv(cfg, s)
  {
    forall g ensures LogOk(cfg, s, g) {
      assert InitialRecord(cfg, s, g);
    }
  }

  /** What exclusion rests on alone: no premise on ids, and any call may fail. */
  ghost predicate LockInv(cfg: Config, s: State) {
    SoundConfig(cfg) && Procs(cfg, s) && forall p :: p in s.procs ==> LockOk(cfg, s, p)
  }

  lemma LifetimeMonotone(cfg: Config, p: Pid)
    requires SoundConfig(cfg) && p in cfg.ttls
    ensures 0.0 < Lifetime(cfg.leastTtl) <= Lifetime(cfg.ttls[p])
  {
  }

  /** At most one process is inside the critical section of a record. */
  lemma Exclusion(cfg: Config, s: State, p: Pid, q: Pid)
    requires Inv(cfg, s)
    requires InPhase(s, p) && InPhase(s, q) && s.procs[p].pc.g == s.procs[q].pc.g
    ensures p == q
  {
    assert ProcOk(cfg, s, p) && ProcOk(cfg, s, q);
  }

  /** A step of `p` that leaves every record file and log alone; of the locks, at most the one of `g`
      changes, and then nobody else is inside `g`. */
  ghost predicate Quiet(cfg: Config, s: State, s': State, p: Pid, g: Sg) {
    && Procs(cfg, s) && Procs(cfg, s') && s'.clock == s.clock
    && (forall q :: q in s.procs && q != p ==> s'.procs[q] == s.procs[q])
    && (forall h :: SameRecord(s, s', h))
    && (forall h :: h == g || SameLock(s, s', h))
    && (SameLock(s, s', g) || forall q :: q != p && InPhase(s, q) ==> s.procs[q].pc.g != g)
  }

  ghost predicate SameRecord(s: State, s': State, h: Sg) {
    File(s', h).cell == File(s, h).cell && File(s', h).tmp == File(s, h).tmp && Log(s', h) == Log(s, h)
  }

  ghost predicate SameLock(s: State, s': State, h: Sg) {
    && File(s', h).lock == File(s, h).lock
    && (h in s.maker ==> h in s'.maker && s'.maker[h] == s.maker[h])
  }

  lemma QuietProc(cfg: Config, s: State, s': State, p: Pid, g: Sg, q: Pid)
    requires Quiet(cfg, s, s', p, g) && q in s.procs && q != p && ProcOk(cfg, s, q)
    ensures ProcOk(cfg, s', q)
  {
    if InPhase(s, q) {
      var h := s.procs[q].pc.g;
      assert SameRecord(s, s', h);
      assert SameLock(s, s', h);
    }
  }

  lemma QuietBelief(cfg: Config, s: State, s': State, p: Pid, g: Sg, q: Pid, h: Sg)
    requires Quiet(cfg, s, s', p, g) && q != p && BeliefOk(cfg, s, q, h)
    ensures BeliefOk(cfg, s', q, h)
  {
    assert SameRecord(s, s', h);
  }

  lemma QuietKeeps(cfg: Config, s: State, s': State, p: Pid, g: Sg)
    requires Inv(cfg, s) && Quiet(cfg, s, s', p, g) && p in s.procs
    requires ProcOk(cfg, s', p)
    requires !s'.procs[p].pc.In? || !s'.procs[p].pc.phase.Finished?
    requires !s.procs[p].pc.In? || s'.procs[p].held == map[]
    requires forall h :: Believes(s', p, h) ==> Believes(s, p, h) && s'.procs[p].held[h] == s.procs[p].held[h]
    ensures Inv(cfg, s')
  {
    forall q | q in s'.procs ensures ProcOk(cfg, s', q) {
      if q != p {
        QuietProc(cfg, s, s', p, g, q);
      }
    }
    forall h ensures LogOk(cfg, s', h) {
      assert LogOk(cfg, s, h) && SameRecord(s, s', h);
    }
    forall q, h ensures BeliefOk(cfg, s', q, h) {
      assert BeliefOk(cfg, s, q, h) && SameRecord(s, s', h);
      if q != p {
        QuietBelief(cfg, s, s', p, g, q, h);
      }
    }
  }

  lemma Unlocked(cfg: Config, s: State, g: Sg)
    requires Inv(cfg, s) && File(s, g).lock == None
    ensures Vacant(s, g)
  {
    forall q | InPhase(s, q) ensures s.procs[q].pc.g != g {
      assert ProcOk(cfg, s, q);
    }
  }

  lemma EnterKeeps(cfg: Config, s: State, p: Pid, op: Op, g: Sg)
    requires Inv(cfg, s) && p in s.procs && !s.procs[p].pc.In? && !s.procs[p].pc.Dead?
    requires File(s, g).lock == None
    ensures Inv(cfg, Enter(s, p, op, g))
  {
    LifetimeMonotone(cfg, p);
    Unlocked(cfg, s, g);
    QuietKeeps(cfg, s, Enter(s, p, op, g), p, g);
  }

  /** `p` goes back to its manager, which may lose groups but holds none anew. */
  lemma BackKeeps(cfg: Config, s: State, p: Pid, g: Sg, held: map<Sg, Time>)
    requires Inv(cfg, s) && p in s.procs && !s.procs[p].pc.In? && !s.procs[p].pc.Dead?
    requires forall h :: h in held ==> h in s.procs[p].held && held[h] == s.procs[p].held[h]
    ensures Inv(cfg, Back(s, p, held))
  {
    QuietKeeps(cfg, s, Back(s, p, held), p, g);
  }

  lemma ResetKeeps(cfg: Config, s: State, p: Pid, pc: Pc)
    requires Inv(cfg, s) && p in s.procs && (pc.Idle? || pc.Dead?)
    ensures Inv(cfg, s.(procs := s.procs[p := Proc(map[], pc)]))
  {
    QuietKeeps(cfg, s, s.(procs := s.procs[p := Proc(map[], pc)]), p, 0);
  }

  lemma WaitKeeps(cfg: Config, s: State, d: Time)
    requires Inv(cfg, s) && 0.0 <= d
    ensures Inv(cfg, s.(clock := s.clock + d))
  {
    var s' := s.(clock := s.clock + d);
    forall q | q in s'.procs ensures ProcOk(cfg, s', q) {
      assert ProcOk(cfg, s, q);
      assert InPhase(s, q) == InPhase(s', q);
    }
    forall h ensures LogOk(cfg, s', h) {
      assert LogOk(cfg, s, h);
    }
    forall q, h ensures BeliefOk(cfg, s', q, h) {
      assert BeliefOk(cfg, s, q, h);
      assert Pending(s, q, h) == Pending(s', q, h);
    }
  }

  lemma SuspectKeeps(cfg: Config, s: State, p: Pid, op: Op, g: Sg)
    requires Inv(cfg, s) && Enabled(cfg, s, Suspect(p, op, g))
    ensures Inv(cfg, Apply(cfg, s, Suspect(p, op, g)))
  {
    LifetimeMonotone(cfg, p);
    QuietKeeps(cfg, s, Apply(cfg, s, Suspect(p, op, g)), p, g);
  }

  lemma RmdirKeeps(cfg: Config, s: State, p: Pid)
    requires Inv(cfg, s) && Enabled(cfg, s, Rmdir(p)) && Clean(s, Rmdir(p))
    ensures Inv(cfg, Apply(cfg, s, Rmdir(p)))
  {
    assert ProcOk(cfg, s, p);
    QuietKeeps(cfg, s, Apply(cfg, s, Rmdir(p)), p, s.procs[p].pc.g);
  }

  /** A step that only `p` takes inside its critical section of `g`: everyone else is untouched. */
  ghost predicate Local(cfg: Config, s: State, s': State, p: Pid, g: Sg) {
    && Procs(cfg, s) && Procs(cfg, s')
    && s'.clock == s.clock && s'.maker == s.maker
    && InPhase(s, p) && s.procs[p].pc.g == g
    && (forall q :: q in s.procs && q != p ==> s'.procs[q] == s.procs[q])
    && (forall h {:trigger SameGroup(s, s', h)} :: h == g || SameGroup(s, s', h))
  }

  ghost predicate SameGroup(s: State, s': State, h: Sg) {
    File(s', h) == File(s, h) && Log(s', h) == Log(s, h)
  }

  lemma LocalProc(cfg: Config, s: State, s': State, p: Pid, g: Sg, q: Pid)
    requires Local(cfg, s, s', p, g) && q in s.procs && q != p
    requires ProcOk(cfg, s, p) && ProcOk(cfg, s, q)
    ensures ProcOk(cfg, s', q)
  {
    if InPhase(s, q) {
      assert s.procs[q].pc.g == g || SameGroup(s, s', s.procs[q].pc.g);
    }
  }

  lemma LocalBelief(cfg: Config, s: State, s': State, p: Pid, g: Sg, q: Pid, h: Sg)
    requires Local(cfg, s, s', p, g) && q in s.procs && q != p
    requires ProcOk(cfg, s, p) && ProcOk(cfg, s, q) && BeliefOk(cfg, s, q, h)
    requires Believes(s, q, g) && Owns(cfg, s, q, g, s.procs[q].held[g]) ==> File(s', g).cell == File(s, g).cell
    ensures BeliefOk(cfg, s', q, h)
  {
    assert h == g || SameGroup(s, s', h);
    assert Pending(s, q, h) == Pending(s', q, h);
  }

  lemma LocalKeeps(cfg: Config, s: State, s': State, p: Pid, g: Sg)
    requires Inv(cfg, s) && Local(cfg, s, s', p, g)
    requires ProcOk(cfg, s', p) && LogOk(cfg, s', g)
    requires forall h :: BeliefOk(cfg, s', p, h)
    requires forall q :: q != p && Believes(s, q, g) && Owns(cfg, s, q, g, s.procs[q].held[g])
                         ==> File(s', g).cell == File(s, g).cell
    ensures Inv(cfg, s')
  {
    forall q | q in s'.procs ensures ProcOk(cfg, s', q) {
      if q != p {
        LocalProc(cfg, s, s', p, g, q);
      }
    }
    forall h ensures LogOk(cfg, s', h) {
      assert LogOk(cfg, s, h) && (h == g || SameGroup(s, s', h));
    }
    forall q, h ensures BeliefOk(cfg, s', q, h) {
      if q in s.procs && q != p {
        assert BeliefOk(cfg, s, q, h);
        LocalBelief(cfg, s, s', p, g, q, h);
      }
    }
  }

  lemma LoadKeeps(cfg: Config, s: State, p: Pid)
    requires Inv(cfg, s) && Enabled(cfg, s, Load(p))
    ensures Inv(cfg, Apply(cfg, s, Load(p)))
  {
    var s' := Apply(cfg, s, Load(p));
    var g := s.procs[p].pc.g;
    assert ProcOk(cfg, s, p) && LogOk(cfg, s, g);
    forall h ensures BeliefOk(cfg, s', p, h) {
      assert BeliefOk(cfg, s, p, h);
    }
    LocalKeeps(cfg, s, s', p, g);
  }

  lemma ReadClockKeeps(cfg: Config, s: State, p: Pid)
    requires Inv(cfg, s) && Enabled(cfg, s, ReadClock(p))
    ensures Inv(cfg, Apply(cfg, s, ReadClock(p)))
  {
    var s' := Apply(cfg, s, ReadClock(p));
    var g := s.procs[p].pc.g;
    assert ProcOk(cfg, s, p) && LogOk(cfg, s, g);
    forall h ensures BeliefOk(cfg, s', p, h) {
      assert BeliefOk(cfg, s, p, h);
    }
    LocalKeeps(cfg, s, s', p, g);
  }

  /** Where a decision on a record just read leaves the process, whatever it decides. */
  lemma ActPhase(cfg: Config, id: Identity, op: Op, f: FileState, log: seq<Tenure>, clock: Time, now: Time)
    requires id.accepts == cfg.accepts && id.ttl >= 1
    requires PhaseOk(cfg, id.me, op, f, log, clock, Timed(f.cell, now))
    requires Valid(cfg, f.cell) ==> log != [] && log[|log| - 1].until == f.cell.rec.expiresAt
    ensures var (effect, a) := Decide(op, id, f.cell, now);
            match effect
            case Keep => PhaseOk(cfg, id.me, op, f, log, clock, Finished(a))
            case Unlink => PhaseOk(cfg, id.me, op, f.(cell := Absent), Ended(log, clock), clock, Finished(a))
            case Store(rec, exclusive) =>
              if exclusive && f.cell.Absent?
              then PhaseOk(cfg, id.me, op, f.(cell := Unreadable), log, clock, Creating(rec, a))
              else PhaseOk(cfg, id.me, op, f.(tmp := Written(rec)), log, clock, Staged(rec, a))
  {
  }

  lemma ActOwn(cfg: Config, s: State, p: Pid, g: Sg)
    requires GoodConfig(cfg) && Procs(cfg, s) && Enabled(cfg, s, Act(p)) && s.procs[p].pc.g == g
    requires ProcOk(cfg, s, p) && LogOk(cfg, s, g)
    ensures ProcOk(cfg, DoAct(cfg, s, p), p)
  {
    LifetimeMonotone(cfg, p);
    ActPhase(cfg, Id(cfg, p), s.procs[p].pc.op, File(s, g), Log(s, g), s.clock, s.procs[p].pc.phase.now);
  }

  lemma EndedOk(log: seq<Tenure>, clock: Time)
    requires Ordered(log, clock)
    ensures Ordered(Ended(log, clock), clock) && EndedBy(Ended(log, clock), clock)
  {
  }

  lemma ActLog(cfg: Config, s: State, p: Pid, g: Sg)
    requires GoodConfig(cfg) && Procs(cfg, s) && Enabled(cfg, s, Act(p)) && s.procs[p].pc.g == g
    requires ProcOk(cfg, s, p) && LogOk(cfg, s, g)
    ensures LogOk(cfg, DoAct(cfg, s, p), g)
  {
    EndedOk(Log(s, g), s.clock);
  }

  lemma ActForeign(cfg: Config, s: State, p: Pid, g: Sg, q: Pid)
    requires GoodConfig(cfg) && Procs(cfg, s) && Enabled(cfg, s, Act(p)) && s.procs[p].pc.g == g
    requires ProcOk(cfg, s, p) && q in s.procs && q != p && Believes(s, q, g) && Owns(cfg, s, q, g, s.procs[q].held[g])
    ensures File(DoAct(cfg, s, p), g).cell == File(s, g).cell
  {
    assert Distinct(cfg, p, q);
  }

  lemma ActBelief(cfg: Config, s: State, p: Pid, h: Sg)
    requires GoodConfig(cfg) && Procs(cfg, s) && Enabled(cfg, s, Act(p))
    requires ProcOk(cfg, s, p) && BeliefOk(cfg, s, p, h)
    ensures BeliefOk(cfg, DoAct(cfg, s, p), p, h)
  {
  }

  /** Within `g`, a move of `p` with or without new files and a new log of `g`. */
  lemma MoveLocal(cfg: Config, s: State, p: Pid, g: Sg, f: FileState, log: seq<Tenure>, phase: Phase)
    requires Procs(cfg, s) && InPhase(s, p) && s.procs[p].pc.g == g
    ensures Local(cfg, s, Move(s, p, phase), p, g)
    ensures Local(cfg, s, Move(Put(s, g, f), p, phase), p, g)
    ensures Local(cfg, s, Move(Put(s, g, f), p, phase).(log := s.log[g := log]), p, g)
  {
  }

  /** Acting is such a move. */
  lemma ActShape(cfg: Config, s: State, p: Pid, g: Sg) returns (f: FileState, log: seq<Tenure>, phase: Phase)
    requires Procs(cfg, s) && Enabled(cfg, s, Act(p)) && s.procs[p].pc.g == g
    ensures var s' := DoAct(cfg, s, p);
            || s' == Move(s, p, phase)
            || s' == Move(Put(s, g, f), p, phase)
            || s' == Move(Put(s, g, f), p, phase).(log := s.log[g := log])
  {
    var s' := DoAct(cfg, s, p);
    f, log, phase := File(s', g), Log(s', g), s'.procs[p].pc.phase;
  }

  lemma ActLocal(cfg: Config, s: State, p: Pid, g: Sg)
    requires Procs(cfg, s) && Enabled(cfg, s, Act(p)) && s.procs[p].pc.g == g
    ensures Local(cfg, s, DoAct(cfg, s, p), p, g)
  {
    var f, log, phase := ActShape(cfg, s, p, g);
    MoveLocal(cfg, s, p, g, f, log, phase);
  }

  lemma ActKeeps(cfg: Config, s: State, p: Pid)
    requires Inv(cfg, s) && Enabled(cfg, s, Act(p))
    ensures Inv(cfg, DoAct(cfg, s, p))
  {
    var s' := DoAct(cfg, s, p);
    var g := s.procs[p].pc.g;
    assert ProcOk(cfg, s, p) && LogOk(cfg, s, g);
    ActLocal(cfg, s, p, g);
    ActOwn(cfg, s, p, g);
    ActLog(cfg, s, p, g);
    forall h ensures BeliefOk(cfg, s', p, h) {
      assert BeliefOk(cfg, s, p, h);
      ActBelief(cfg, s, p, h);
    }
    forall q | q != p && Believes(s, q, g) && Owns(cfg, s, q, g, s.procs[q].held[g])
      ensures File(s', g).cell == File(s, g).cell
    {
      ActForeign(cfg, s, p, g, q);
    }
    LocalKeeps(cfg, s, s', p, g);
  }

  lemma FinishOwn(cfg: Config, s: State, p: Pid, g: Sg)
    requires GoodConfig(cfg) && Procs(cfg, s) && Enabled(cfg, s, Finish(p)) && s.procs[p].pc.g == g
    requires ProcOk(cfg, s, p) && LogOk(cfg, s, g)
    ensures ProcOk(cfg, DoFinish(cfg, s, p), p) && LogOk(cfg, DoFinish(cfg, s, p), g)
  {
  }

  lemma FinishForeign(cfg: Config, s: State, p: Pid, g: Sg, q: Pid)
    requires GoodConfig(cfg) && Procs(cfg, s) && Enabled(cfg, s, Finish(p)) && s.procs[p].pc.g == g
    requires ProcOk(cfg, s, p) && q in s.procs && q != p
    ensures Believes(s, q, g) && Owns(cfg, s, q, g, s.procs[q].held[g])
            ==> File(DoFinish(cfg, s, p), g).cell == File(s, g).cell
  {
    assert Distinct(cfg, p, q);
  }

  lemma FinishBelief(cfg: Config, s: State, p: Pid, h: Sg)
    requires GoodConfig(cfg) && Procs(cfg, s) && Enabled(cfg, s, Finish(p))
    requires ProcOk(cfg, s, p) && BeliefOk(cfg, s, p, h)
    ensures BeliefOk(cfg, DoFinish(cfg, s, p), p, h)
  {
  }

  lemma FinishLocal(cfg: Config, s: State, p: Pid, g: Sg)
    requires Procs(cfg, s) && Enabled(cfg, s, Finish(p)) && s.procs[p].pc.g == g
    ensures Local(cfg, s, DoFinish(cfg, s, p), p, g)
  {
  }

  lemma FinishKeeps(cfg: Config, s: State, p: Pid)
    requires Inv(cfg, s) && Enabled(cfg, s, Finish(p))
    ensures Inv(cfg, DoFinish(cfg, s, p))
  {
    var s' := DoFinish(cfg, s, p);
    var g := s.procs[p].pc.g;
    assert ProcOk(cfg, s, p) && LogOk(cfg, s, g);
    FinishLocal(cfg, s, p, g);
    FinishOwn(cfg, s, p, g);
    forall h ensures BeliefOk(cfg, s', p, h) {
      assert BeliefOk(cfg, s, p, h);
      FinishBelief(cfg, s, p, h);
    }
    forall q | q in s.procs && q != p
      ensures Believes(s, q, g) && Owns(cfg, s, q, g, s.procs[q].held[g]) ==> File(s', g).cell == File(s, g).cell
    {
      FinishForeign(cfg, s, p, g, q);
    }
    LocalKeeps(cfg, s, s', p, g);
  }

  lemma FailCreateOwn(cfg: Config, s: State, p: Pid, left: bool, g: Sg)
    requires GoodConfig(cfg) && Procs(cfg, s) && Enabled(cfg, s, FailCreate(p, left)) && s.procs[p].pc.g == g
    requires ProcOk(cfg, s, p) && LogOk(cfg, s, g)
    ensures ProcOk(cfg, DoFailCreate(cfg, s, p, left), p) && LogOk(cfg, DoFailCreate(cfg, s, p, left), g)
  {
  }

  lemma FailCreateBelief(cfg: Config, s: State, p: Pid, left: bool, h: Sg)
    requires GoodConfig(cfg) && Procs(cfg, s) && Enabled(cfg, s, FailCreate(p, left))
    requires ProcOk(cfg, s, p) && BeliefOk(cfg, s, p, h)
    ensures BeliefOk(cfg, DoFailCreate(cfg, s, p, left), p, h)
  {
  }

  lemma FailCreateLocal(cfg: Config, s: State, p: Pid, left: bool, g: Sg)
    requires Procs(cfg, s) && Enabled(cfg, s, FailCreate(p, left)) && s.procs[p].pc.g == g
    ensures Local(cfg, s, DoFailCreate(cfg, s, p, left), p, g)
  {
  }

  lemma FailCreateKeeps(cfg: Config, s: State, p: Pid, left: bool)
    requires Inv(cfg, s) && Enabled(cfg, s, FailCreate(p, left))
    ensures Inv(cfg, DoFailCreate(cfg, s, p, left))
  {
    var s' := DoFailCreate(cfg, s, p, left);
    var g := s.procs[p].pc.g;
    assert ProcOk(cfg, s, p) && LogOk(cfg, s, g);
    FailCreateLocal(cfg, s, p, left, g);
    FailCreateOwn(cfg, s, p, left, g);
    forall h ensures BeliefOk(cfg, s', p, h) {
      assert BeliefOk(cfg, s, p, h);
      FailCreateBelief(cfg, s, p, left, h);
    }
    LocalKeeps(cfg, s, s', p, g);
  }

  /** An operation that gives up before it has taken effect, with an answer that claims nothing; the temporary file may
      have changed. */
  lemma GiveUpKeeps(cfg: Config, s: State, p: Pid, s': State, tmp: Cell, a: Answer)
    requires Inv(cfg, s) && InPhase(s, p) && !s.procs[p].pc.phase.Finished?
    requires !a.Owned() && !a.kind.Released?
    requires var g := s.procs[p].pc.g;
             || s' == Move(s, p, Finished(a))
             || s' == Move(Put(s, g, File(s, g).(tmp := tmp)), p, Finished(a))
    ensures Inv(cfg, s')
  {
    var g := s.procs[p].pc.g;
    assert ProcOk(cfg, s, p) && LogOk(cfg, s, g);
    MoveLocal(cfg, s, p, g, File(s, g).(tmp := tmp), Log(s, g), Finished(a));
    forall h ensures BeliefOk(cfg, s', p, h) {
      assert BeliefOk(cfg, s, p, h);
    }
    LocalKeeps(cfg, s, s', p, g);
  }

  lemma ReturnBelief(cfg: Config, s: State, p: Pid, unlocked: bool, h: Sg)
    requires GoodConfig(cfg) && Procs(cfg, s) && Enabled(cfg, s, Return(p))
    requires ProcOk(cfg, s, p) && BeliefOk(cfg, s, p, h)
    ensures BeliefOk(cfg, DoReturn(cfg, s, p, unlocked), p, h)
  {
  }

  lemma ReturnKeeps(cfg: Config, s: State, p: Pid, unlocked: bool)
    requires Inv(cfg, s) && Enabled(cfg, s, Return(p))
    ensures Inv(cfg, DoReturn(cfg, s, p, unlocked))
  {
    var s' := DoReturn(cfg, s, p, unlocked);
    var g := s.procs[p].pc.g;
    assert ProcOk(cfg, s, p) && LogOk(cfg, s, g);
    forall h ensures BeliefOk(cfg, s', p, h) {
      assert BeliefOk(cfg, s, p, h);
      ReturnBelief(cfg, s, p, unlocked, h);
    }
    LocalKeeps(cfg, s, s', p, g);
  }

  lemma InnerStepKeeps(cfg: Config, s: State, step: Step)
    requires Inv(cfg, s) && Enabled(cfg, s, step)
    requires step.Load? || step.ReadClock? || step.Act? || step.Finish? || step.Return?
    ensures Inv(cfg, Apply(cfg, s, step))
  {
    match step {
      case Load(p) => LoadKeeps(cfg, s, p);
      case ReadClock(p) => ReadClockKeeps(cfg, s, p);
      case Act(p) => ActKeeps(cfg, s, p);
      case Finish(p) => FinishKeeps(cfg, s, p);
      case Return(p) => ReturnKeeps(cfg, s, p, true);
      case _ =>
    }
  }

  lemma FailActKeeps(cfg: Config, s: State, p: Pid)
    requires Inv(cfg, s) && Enabled(cfg, s, FailAct(p))
    ensures Inv(cfg, DoFailAct(cfg, s, p))
  {
    GiveUpKeeps(cfg, s, p, DoFailAct(cfg, s, p), Absent,
                if Decided(cfg, s, p).0.Unlink? then Answer(ReleaseFailed, cfg.owners[p], 0.0, 0.0, 0.0) else RAISED);
  }

  lemma FailReplaceKeeps(cfg: Config, s: State, p: Pid, staged: bool)
    requires Inv(cfg, s) && Trusted(cfg) && Enabled(cfg, s, FailReplace(p, staged))
    ensures Inv(cfg, DoFailReplace(cfg, s, p, staged))
  {
    var f := File(s, s.procs[p].pc.g);
    assert f.(tmp := f.tmp) == f;
    GiveUpKeeps(cfg, s, p, DoFailReplace(cfg, s, p, staged), if staged then f.tmp else Unreadable, RAISED);
  }

  lemma FailureKeeps(cfg: Config, s: State, step: Step)
    requires Inv(cfg, s) && Trusted(cfg) && Enabled(cfg, s, step)
    requires step.FailAct? || step.FailCreate? || step.FailReplace? || step.FailRemake? || step.FailUnlock?
    ensures Inv(cfg, Apply(cfg, s, step))
  {
    match step {
      case FailAct(p) => FailActKeeps(cfg, s, p);
      case FailCreate(p, left) => FailCreateKeeps(cfg, s, p, left);
      case FailReplace(p, staged) => FailReplaceKeeps(cfg, s, p, staged);
      case FailRemake(p) => BackKeeps(cfg, s, p, 0, s.procs[p].held);
      case FailUnlock(p) => ReturnKeeps(cfg, s, p, false);
      case _ =>
    }
  }

  lemma RemakeKeeps(cfg: Config, s: State, p: Pid)
    requires Inv(cfg, s) && Enabled(cfg, s, Remake(p))
    ensures Inv(cfg, Apply(cfg, s, Remake(p)))
  {
    var pc := s.procs[p].pc;
    if File(s, pc.g).lock.None? {
      EnterKeeps(cfg, s, p, pc.op, pc.g);
    } else {
      BackKeeps(cfg, s, p, pc.g, Believe(cfg.role, pc.op, pc.g, s.procs[p].held, BUSY));
    }
  }

  lemma LockStepKeeps(cfg: Config, s: State, step: Step)
    requires Inv(cfg, s) && Enabled(cfg, s, step) && Clean(s, step)
    requires step.Mkdir? || step.Bounce? || step.Suspect? || step.Rmdir? || step.Remake?
    ensures Inv(cfg, Apply(cfg, s, step))
  {
    match step {
      case Mkdir(p, op, g) => EnterKeeps(cfg, s, p, op, g);
      case Bounce(p, op, g) => BackKeeps(cfg, s, p, g, Believe(cfg.role, op, g, s.procs[p].held, BUSY));
      case Suspect(p, op, g) => SuspectKeeps(cfg, s, p, op, g);
      case Rmdir(p) => RmdirKeeps(cfg, s, p);
      case Remake(p) => RemakeKeeps(cfg, s, p);
      case _ =>
    }
  }

  lemma CrashKeeps(cfg: Config, s: State, p: Pid)
    requires Inv(cfg, s) && Enabled(cfg, s, Crash(p))
    ensures Inv(cfg, Apply(cfg, s, Crash(p)))
  {
    ResetKeeps(cfg, s, p, Dead);
  }

  lemma RestartKeeps(cfg: Config, s: State, p: Pid)
    requires Inv(cfg, s) && Enabled(cfg, s, Restart(p))
    ensures Inv(cfg, Apply(cfg, s, Restart(p)))
  {
    ResetKeeps(cfg, s, p, Idle);
  }

  lemma StepKeeps(cfg: Config, s: State, step: Step)
    requires Inv(cfg, s) && Trusted(cfg) && Enabled(cfg, s, step) && Clean(s, step)
    ensures Inv(cfg, Apply(cfg, s, step))
  {
    if step.Mkdir? || step.Bounce? || step.Suspect? || step.Rmdir? || step.Remake? {
      LockStepKeeps(cfg, s, step);
    } else if step.Crash? {
      CrashKeeps(cfg, s, step.p);
    } else if step.Restart? {
      RestartKeeps(cfg, s, step.p);
    } else if step.Wait? {
      WaitKeeps(cfg, s, step.d);
    } else if step.Load? || step.ReadClock? || step.Act? || step.Finish? || step.Return? {
      InnerStepKeeps(cfg, s, step);
    } else if !step.FailRead? {
      FailureKeeps(cfg, s, step);
    }
  }

  lemma {:induction false} RunKeeps(cfg: Config, s: State, steps: seq<Step>)
    requires Inv(cfg, s) && Trusted(cfg)
    requires Run(cfg, s, steps) && KeptRun(cfg, s, steps, Cleanly)
    ensures Inv(cfg, Final(cfg, s, steps))
    decreases |steps|
  {
    if steps != [] {
      StepKeeps(cfg, s, steps[0]);
      RunKeeps(cfg, Apply(cfg, s, steps[0]), steps[1..]);
    }
  }
}
