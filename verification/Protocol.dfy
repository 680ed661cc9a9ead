/** Any number of processes sharing a state directory, one system call at a time.

    Every process has a manager with a set of groups it believes it holds, each with the expiry
    the last successful operation returned. A step is one mkdir, one rmdir, one read, one clock
    reading, one write, the removal of the lock and return to the manager, a crash, a restart,
    or time passing. The leader election is the same machine with a single record. */
module Protocol {
  import opened Basics
  import opened Records

  type Pid = nat
  /** How the manager uses an answer: leases are dropped when a renewal fails, the leader role when
      an acquire fails. */
  datatype Role = LeaseRole | LeaderRole

  datatype Config = Config(
    role: Role,
    owners: map<Pid, Owner>,
    ttls: map<Pid, int>,
    accepts: Owner -> bool,
    leastTtl: int,
    readsMayFail: bool,
    replacesMayFail: bool)

  datatype Phase =
    | Entered
    | Loaded(seen: Cell)
    | Timed(seen: Cell, now: Time)
    | Creating(rec: Record, answer: Answer)
    | Staged(rec: Record, answer: Answer)
    | Finished(answer: Answer)

  /** `Suspecting` has seen a lock directory made at `mtime` and found it stale; `Cleared` has removed
      a directory and not yet made its own; `In` is between a successful lock and its removal. */
  datatype Pc =
    | Idle
    | Dead
    | Suspecting(op: Op, g: Sg, mtime: Time)
    | Cleared(op: Op, g: Sg)
    | In(op: Op, g: Sg, since: Time, phase: Phase)

  datatype Proc = Proc(held: map<Sg, Time>, pc: Pc)

  /** One owner's uninterrupted hold of one record: renewals move `until`, a release ends it early. */
  datatype Tenure = Tenure(owner: Owner, start: Time, until: Time)

  /** `maker` and `log` are for stating properties only; no step looks at them. */
  datatype State = State(
    clock: Time,
    files: map<Sg, FileState>,
    maker: map<Sg, Pid>,
    log: map<Sg, seq<Tenure>>,
    procs: map<Pid, Proc>)

  datatype Step =
    | Mkdir(p: Pid, op: Op, g: Sg)
    | Bounce(p: Pid, op: Op, g: Sg)
    | Suspect(p: Pid, op: Op, g: Sg)
    | Rmdir(p: Pid)
    | Remake(p: Pid)
    | Load(p: Pid)
    | ReadClock(p: Pid)
    | Act(p: Pid)
    | Finish(p: Pid)
    | Return(p: Pid)
    | FailRead(p: Pid)
    | FailAct(p: Pid)
    | FailCreate(p: Pid, left: bool)
    | FailReplace(p: Pid, staged: bool)
    | FailRemake(p: Pid)
    | FailUnlock(p: Pid)
    | Crash(p: Pid)
    | Restart(p: Pid)
    | Wait(d: Time)

  ghost predicate SoundConfig(cfg: Config) {
    && cfg.owners.Keys == cfg.ttls.Keys
    && 1 <= cfg.leastTtl
    && (forall p :: p in cfg.ttls ==> cfg.leastTtl <= cfg.ttls[p])
    && (forall p :: p in cfg.owners ==> cfg.accepts(cfg.owners[p]))
  }

  ghost predicate AllDistinct(cfg: Config) {
    forall p, q {:trigger Distinct(cfg, p, q)} :: Distinct(cfg, p, q)
  }

  ghost predicate GoodConfig(cfg: Config) {
    SoundConfig(cfg) && AllDistinct(cfg)
  }

  ghost predicate Distinct(cfg: Config, p: Pid, q: Pid) {
    p in cfg.owners && q in cfg.owners && p != q ==> cfg.owners[p] != cfg.owners[q]
  }

  function Id(cfg: Config, p: Pid): Identity
    requires p in cfg.owners && p in cfg.ttls
  {
    Identity(cfg.owners[p], cfg.ttls[p], cfg.accepts)
  }

  function File(s: State, g: Sg): FileState {
    if g in s.files then s.files[g] else EMPTY_FILE
  }

  function Log(s: State, g: Sg): seq<Tenure> {
    if g in s.log then s.log[g] else []
  }

  predicate Procs(cfg: Config, s: State) {
    s.procs.Keys == cfg.owners.Keys == cfg.ttls.Keys
  }

  /** What the manager does to its held groups when an operation on `g` returns; an exception passes it by. */
  function Believe(role: Role, op: Op, g: Sg, held: map<Sg, Time>, a: Answer): map<Sg, Time> {
    if a.kind.Raised? then held
    else match op
    case Acquire =>
      if a.Owned() then held[g := a.expiresAt] else if role.LeaderRole? then held - {g} else held
    case Renew =>
      if a.Owned() then held[g := a.expiresAt] else if role.LeaderRole? then held else held - {g}
    case Release =>
      if a.kind.Released? then held - {g} else held
  }

  /** The tenure log after `p`'s decided write or unlink reaches the record file. */
  function Logged(log: seq<Tenure>, op: Op, rec: Record): seq<Tenure> {
    if op.Acquire? || log == [] then log + [Tenure(rec.owner, rec.acquiredAt, rec.expiresAt)]
    else log[..|log| - 1] + [log[|log| - 1].(until := rec.expiresAt)]
  }

  function Ended(log: seq<Tenure>, now: Time): seq<Tenure> {
    if log == [] || log[|log| - 1].until <= now then log
    else log[..|log| - 1] + [log[|log| - 1].(until := now)]
  }

  /** A manager renews and releases what it holds; it gives up leadership whether it believes to lead or not. */
  predicate Starts(cfg: Config, s: State, p: Pid, op: Op, g: Sg)
    requires Procs(cfg, s)
  {
    && p in s.procs && s.procs[p].pc.Idle?
    && (op.Acquire? || g in s.procs[p].held || (cfg.role.LeaderRole? && op.Release?))
  }

  predicate InPhase(s: State, p: Pid) {
    p in s.procs && s.procs[p].pc.In?
  }

  /** No process is inside the critical section of `g`. */
  ghost predicate Vacant(s: State, g: Sg) {
    forall q :: InPhase(s, q) ==> s.procs[q].pc.g != g
  }

  /** What a process that has read the record and the clock decides. */
  function Decided(cfg: Config, s: State, p: Pid): (Effect, Answer)
    requires Procs(cfg, s) && InPhase(s, p) && s.procs[p].pc.phase.Timed?
  {
    var pc := s.procs[p].pc;
    Decide(pc.op, Id(cfg, p), pc.phase.seen, pc.phase.now)
  }

  /** An unlink, or an exclusive create, whose first call can fail. */
  predicate Fallible(effect: Effect) {
    effect.Unlink? || (effect.Store? && effect.exclusive)
  }

  ghost predicate Enabled(cfg: Config, s: State, step: Step)
    requires Procs(cfg, s)
  {
    match step
    case Mkdir(p, op, g) => Starts(cfg, s, p, op, g) && File(s, g).lock.None?
    case Bounce(p, op, g) => Starts(cfg, s, p, op, g)
    case Suspect(p, op, g) =>
      Starts(cfg, s, p, op, g) && File(s, g).lock.Some? && Stale(File(s, g).lock.value, cfg.ttls[p], s.clock)
    case Rmdir(p) => p in s.procs && s.procs[p].pc.Suspecting?
    case Remake(p) => p in s.procs && s.procs[p].pc.Cleared?
    case Load(p) => InPhase(s, p) && s.procs[p].pc.phase.Entered?
    case ReadClock(p) => InPhase(s, p) && s.procs[p].pc.phase.Loaded?
    case Act(p) => InPhase(s, p) && s.procs[p].pc.phase.Timed?
    case Finish(p) => InPhase(s, p) && (s.procs[p].pc.phase.Creating? || s.procs[p].pc.phase.Staged?)
    case Return(p) => InPhase(s, p) && s.procs[p].pc.phase.Finished?
    case FailRead(p) => cfg.readsMayFail && InPhase(s, p) && s.procs[p].pc.phase.Entered?
    case FailAct(p) => InPhase(s, p) && s.procs[p].pc.phase.Timed? && Fallible(Decided(cfg, s, p).0)
    case FailCreate(p, _) => InPhase(s, p) && s.procs[p].pc.phase.Creating?
    case FailReplace(p, _) =>
      (cfg.role.LeaderRole? || cfg.replacesMayFail) && InPhase(s, p) && s.procs[p].pc.phase.Staged?
    case FailRemake(p) => p in s.procs && s.procs[p].pc.Cleared?
    case FailUnlock(p) => InPhase(s, p) && s.procs[p].pc.phase.Finished?
    case Crash(p) => p in s.procs && !s.procs[p].pc.Dead?
    case Restart(p) => p in s.procs && s.procs[p].pc.Dead?
    case Wait(d) => 0.0 <= d
  }

  function At(s: State, p: Pid, pc: Pc): State
    requires p in s.procs
  {
    s.(procs := s.procs[p := s.procs[p].(pc := pc)])
  }

  function Back(s: State, p: Pid, held: map<Sg, Time>): State {
    s.(procs := s.procs[p := Proc(held, Idle)])
  }

  function Enter(s: State, p: Pid, op: Op, g: Sg): State
    requires p in s.procs
  {
    At(s, p, In(op, g, s.clock, Entered)).(
      files := s.files[g := File(s, g).(lock := Some(s.clock))],
      maker := s.maker[g := p])
  }

  function Move(s: State, p: Pid, phase: Phase): State
    requires InPhase(s, p)
  {
    At(s, p, s.procs[p].pc.(phase := phase))
  }

  function Put(s: State, g: Sg, f: FileState): State {
    s.(files := s.files[g := f])
  }

  function DoAct(cfg: Config, s: State, p: Pid): (s': State)
    requires Procs(cfg, s) && Enabled(cfg, s, Act(p))
    ensures Procs(cfg, s')
  {
    var pc := s.procs[p].pc;
    var f := File(s, pc.g);
    var (effect, answer) := Decided(cfg, s, p);
    match effect
    case Keep => Move(s, p, Finished(answer))
    case Unlink =>
      Move(Put(s, pc.g, f.(cell := Absent)), p, Finished(answer)).(
        log := s.log[pc.g := Ended(Log(s, pc.g), s.clock)])
    case Store(rec, exclusive) =>
      if exclusive && f.cell.Absent? then Move(Put(s, pc.g, f.(cell := Unreadable)), p, Creating(rec, answer))
      else Move(Put(s, pc.g, f.(tmp := Written(rec))), p, Staged(rec, answer))
  }

  function DoFinish(cfg: Config, s: State, p: Pid): (s': State)
    requires Procs(cfg, s) && Enabled(cfg, s, Finish(p))
    ensures Procs(cfg, s')
  {
    var pc := s.procs[p].pc;
    var f := File(s, pc.g);
    var f' := if pc.phase.Creating? then f.(cell := Written(pc.phase.rec)) else f.(cell := f.tmp, tmp := Absent);
    Move(Put(s, pc.g, f'), p, Finished(pc.phase.answer)).(
      log := s.log[pc.g := Logged(Log(s, pc.g), pc.op, pc.phase.rec)])
  }

  /** The unlink fails and is reported, or the exclusive create cannot open the file and raises. */
  function DoFailAct(cfg: Config, s: State, p: Pid): (s': State)
    requires Procs(cfg, s) && Enabled(cfg, s, FailAct(p))
    ensures Procs(cfg, s')
  {
    Move(s, p, Finished(
      if Decided(cfg, s, p).0.Unlink? then Answer(ReleaseFailed, cfg.owners[p], 0.0, 0.0, 0.0) else RAISED))
  }

  /** A failed exclusive create removes the file, unless that fails too, and falls back to the replace. */
  function DoFailCreate(cfg: Config, s: State, p: Pid, left: bool): (s': State)
    requires Procs(cfg, s) && Enabled(cfg, s, FailCreate(p, left))
    ensures Procs(cfg, s')
  {
    var pc := s.procs[p].pc;
    var f := File(s, pc.g).(cell := if left then Unreadable else Absent, tmp := Written(pc.phase.rec));
    Move(Put(s, pc.g, f), p, Staged(pc.phase.rec, pc.phase.answer))
  }

  /** A failed replace is swallowed by the lease, which reports success all the same; the leader raises. It fails with
      the temporary file staged or not. */
  function DoFailReplace(cfg: Config, s: State, p: Pid, staged: bool): (s': State)
    requires Procs(cfg, s) && Enabled(cfg, s, FailReplace(p, staged))
    ensures Procs(cfg, s')
  {
    var pc := s.procs[p].pc;
    var f := File(s, pc.g);
    Move(Put(s, pc.g, if staged then f else f.(tmp := Unreadable)), p,
         Finished(if cfg.role.LeaseRole? then pc.phase.answer else RAISED))
  }

  /** `p` returns to its manager; the lock directory stays if it cannot be removed. */
  function DoReturn(cfg: Config, s: State, p: Pid, unlocked: bool): (s': State)
    requires Procs(cfg, s) && Enabled(cfg, s, Return(p))
    ensures Procs(cfg, s')
  {
    var pc := s.procs[p].pc;
    var f := File(s, pc.g);
    Back(Put(s, pc.g, if unlocked then f.(lock := None) else f), p,
         Believe(cfg.role, pc.op, pc.g, s.procs[p].held, pc.phase.answer))
  }

  function Apply(cfg: Config, s: State, step: Step): (s': State)
    requires Procs(cfg, s) && Enabled(cfg, s, step)
    ensures Procs(cfg, s')
  {
    match step
    case Mkdir(p, op, g) => Enter(s, p, op, g)
    case Bounce(p, op, g) => Back(s, p, Believe(cfg.role, op, g, s.procs[p].held, BUSY))
    case Suspect(p, op, g) => At(s, p, Suspecting(op, g, File(s, g).lock.value))
    case Rmdir(p) =>
      var pc := s.procs[p].pc;
      At(Put(s, pc.g, File(s, pc.g).(lock := None)), p, Cleared(pc.op, pc.g))
    case Remake(p) =>
      var pc := s.procs[p].pc;
      if File(s, pc.g).lock.None? then Enter(s, p, pc.op, pc.g)
      else Back(s, p, Believe(cfg.role, pc.op, pc.g, s.procs[p].held, BUSY))
    case Load(p) => Move(s, p, Loaded(File(s, s.procs[p].pc.g).cell))
    case ReadClock(p) => Move(s, p, Timed(s.procs[p].pc.phase.seen, s.clock))
    case Act(p) => DoAct(cfg, s, p)
    case Finish(p) => DoFinish(cfg, s, p)
    case Return(p) => DoReturn(cfg, s, p, true)
    case FailRead(p) => Move(s, p, Loaded(Unreadable))
    case FailAct(p) => DoFailAct(cfg, s, p)
    case FailCreate(p, left) => DoFailCreate(cfg, s, p, left)
    case FailReplace(p, staged) => DoFailReplace(cfg, s, p, staged)
    case FailRemake(p) => Back(s, p, s.procs[p].held)
    case FailUnlock(p) => DoReturn(cfg, s, p, false)
    case Crash(p) => s.(procs := s.procs[p := Proc(map[], Dead)])
    case Restart(p) => s.(procs := s.procs[p := Proc(map[], Idle)])
    case Wait(d) => s.(clock := s.clock + d)
  }

  /** Nobody holds anything yet; the directory may already contain records, damaged or not, and locks. */
  ghost predicate Init(cfg: Config, s: State) {
    && Procs(cfg, s)
    && (forall p :: p in s.procs ==> s.procs[p] == Proc(map[], Idle))
    && (forall g :: InitialRecord(cfg, s, g))
  }

  /** A record found at the start was written under the same clock and counts as the first tenure. */
  predicate InitialRecord(cfg: Config, s: State, g: Sg) {
    var r := ReadRecord(File(s, g).cell, cfg.accepts);
    if r.None? then Log(s, g) == []
    else
      && r.value.acquiredAt <= s.clock
      && r.value.acquiredAt <= r.value.expiresAt
      && Log(s, g) == [Tenure(r.value.owner, r.value.acquiredAt, r.value.expiresAt)]
  }

  /** An rmdir of a stale lock is clean when nobody is inside the critical section whose lock it removes.
      The code does nothing to ensure this. */
  ghost predicate Clean(s: State, step: Step) {
    step.Rmdir? && step.p in s.procs && s.procs[step.p].pc.Suspecting? ==> Vacant(s, s.procs[step.p].pc.g)
  }

  /** An rmdir of a stale lock that removes the very directory whose age was tested, or none. */
  predicate Tested(s: State, step: Step) {
    step.Rmdir? && step.p in s.procs && s.procs[step.p].pc.Suspecting? ==>
      var pc := s.procs[step.p].pc;
      File(s, pc.g).lock == None || File(s, pc.g).lock == Some(pc.mtime)
  }

  ghost predicate Run(cfg: Config, s: State, steps: seq<Step>)
    requires Procs(cfg, s)
    decreases |steps|
  {
    steps == [] || (Enabled(cfg, s, steps[0]) && Run(cfg, Apply(cfg, s, steps[0]), steps[1..]))
  }

  function Final(cfg: Config, s: State, steps: seq<Step>): (s': State)
    requires Procs(cfg, s) && Run(cfg, s, steps)
    ensures Procs(cfg, s')
    decreases |steps|
  {
    if steps == [] then s else Final(cfg, Apply(cfg, s, steps[0]), steps[1..])
  }

  /** Every process inside a critical section has been there for no longer than `limit`. */
  ghost predicate Timely(s: State, limit: Time) {
    forall p :: InPhase(s, p) ==> s.clock - s.procs[p].pc.since <= limit
  }

  /** What is asked of a run: nothing; that its breaks are clean; or that its breaks remove what was tested and its
      critical sections last no longer than a limit. */
  datatype Care = Anyhow | Cleanly | Promptly(limit: Time)

  ghost predicate StepKept(s: State, step: Step, care: Care) {
    match care
    case Anyhow => true
    case Cleanly => Clean(s, step)
    case Promptly(_) => Tested(s, step)
  }

  ghost predicate StateKept(s: State, care: Care) {
    care.Promptly? ==> Timely(s, care.limit)
  }

  ghost predicate KeptRun(cfg: Config, s: State, steps: seq<Step>, care: Care)
    requires Procs(cfg, s) && Run(cfg, s, steps)
    decreases |steps|
  {
    && StateKept(s, care)
    && (steps == [] || (StepKept(s, steps[0], care) && KeptRun(cfg, Apply(cfg, s, steps[0]), steps[1..], care)))
  }
}
