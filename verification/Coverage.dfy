/** Managers that tick in turn over the same record files: together they come to hold every service group,
    and once they do they keep what they hold. */
module Coverage {
  import opened Basics
  import opened Ordering
  import opened Records
  import opened TickSteps

  /** The record files of all groups, and how often a clock has been read. */
  datatype World = World(files: map<Sg, FileState>, readings: nat)

  function FileOf(w: World, g: Sg): FileState {
    if g in w.files then w.files[g] else EMPTY_FILE
  }

  function Cell(w: World, g: Sg): Cell {
    FileOf(w, g).cell
  }

  const ANYBODY: Owner -> bool := _ => true

  /** A lease accepts a record whoever it names. */
  function Lessee(owner: Owner, ttl: int): Identity {
    Identity(owner, ttl, ANYBODY)
  }

  /** One uncontended lease operation: the lock is tried at one clock reading, the record judged at the next. */
  function Operate(op: Op, id: Identity, clock: nat -> Time, w: World, g: Sg): (World, Answer) {
    var (f, a) := RunOp(op, id, FileOf(w, g), clock(w.readings), clock(w.readings + 1));
    (World(w.files[g := f], w.readings + 2), a)
  }

  function FileService(id: Identity, clock: nat -> Time): LeaseService<World> {
    LeaseService(
      (w: World, g: Sg) => var (w', a) := Operate(Renew, id, clock, w, g); (w', a.kind.Renewed?),
      (w: World, g: Sg) => var (w', a) := Operate(Release, id, clock, w, g); (w', a.kind.Released?),
      (w: World, g: Sg) => var (w', a) := Operate(Acquire, id, clock, w, g); (w', a.Owned()))
  }

  datatype Manager = Manager(owner: Owner, ttl: int, mode: ShardMode, score: Sg -> int)

  /** A round of ticks by `managers`, each with the same target, over the same groups; all clock readings
      fall into one span of `least`, which no TTL is shorter than. */
  datatype Team = Team(managers: seq<Manager>, target: nat, groups: seq<Sg>, clock: nat -> Time, start: Time,
                       least: Time)

  ghost predicate Window(tm: Team) {
    && (forall n :: tm.start <= tm.clock(n) < tm.start + tm.least)
    && (forall i, j :: i <= j ==> tm.clock(i) <= tm.clock(j))
  }

  ghost predicate GoodTeam(tm: Team) {
    && Window(tm)
    && (forall j :: 0 <= j < |tm.managers| ==> tm.least <= Lifetime(tm.managers[j].ttl))
    && (forall i, j :: 0 <= i < j < |tm.managers| ==> tm.managers[i].owner != tm.managers[j].owner)
  }

  function Service(tm: Team, j: nat): LeaseService<World>
    requires j < |tm.managers|
  {
    FileService(Lessee(tm.managers[j].owner, tm.managers[j].ttl), tm.clock)
  }

  datatype Stage = Stage(world: World, held: seq<set<Sg>>)

  function TickOf(tm: Team, j: nat, w: World, held: set<Sg>): TickState<World>
    requires j < |tm.managers|
  {
    var m := tm.managers[j];
    Tick(Service(tm, j), w, held, tm.target, Candidates(m.mode, m.score, tm.groups), ById(tm.groups))
  }

  function TurnOf(tm: Team, s: Stage, i: nat): (r: Stage)
    requires i < |tm.managers| == |s.held|
    ensures |r.held| == |s.held|
  {
    var t := TickOf(tm, i, s.world, s.held[i]);
    Stage(t.env, s.held[i := t.held])
  }

  /** A round: the stages before the first tick and after each manager's, in order. */
  ghost predicate Round(tm: Team, st: seq<Stage>) {
    && |st| == |tm.managers| + 1
    && (forall i :: 0 <= i < |st| ==> |st[i].held| == |tm.managers|)
    && (forall i :: 0 <= i < |tm.managers| ==> st[i + 1] == TurnOf(tm, st[i], i))
  }

  lemma {:induction false} RoundExists(tm: Team, s: Stage, i: nat) returns (st: seq<Stage>)
    requires i <= |tm.managers| == |s.held|
    ensures |st| == i + 1 && st[0] == s && forall k :: 0 <= k <= i ==> |st[k].held| == |tm.managers|
    ensures forall k :: 0 <= k < i ==> st[k + 1] == TurnOf(tm, st[k], k)
    ensures i == |tm.managers| ==> Round(tm, st)
  {
    if i == 0 {
      st := [s];
    } else {
      var before := RoundExists(tm, s, i - 1);
      st := before + [TurnOf(tm, before[i - 1], i - 1)];
    }
  }

  // ---- one operation --------------------------------------------------------------------------

  /** Every manager gets past what lock directory there is: it is missing or stale from the round's start on. */
  ghost predicate Passable(tm: Team, w: World) {
    forall g :: OpenFor(tm, FileOf(w, g).lock)
  }

  ghost predicate OpenFor(tm: Team, lock: Option<Time>) {
    forall j :: 0 <= j < |tm.managers| ==> LockOpen(lock, tm.managers[j].ttl, tm.start)
  }

  /** `me`'s record on `g` outlives the round. */
  ghost predicate Secure(tm: Team, me: Owner, w: World, g: Sg) {
    Cell(w, g).Written? && Cell(w, g).rec.owner == me && Cell(w, g).rec.expiresAt >= tm.start + tm.least
  }

  ghost predicate OthersAt(me: Owner, w: World, g: Sg, t: Time) {
    Cell(w, g).Written? && Cell(w, g).rec.owner != me && Cell(w, g).rec.expiresAt > t
  }

  ghost predicate OwnAt(me: Owner, w: World, g: Sg, t: Time) {
    Cell(w, g).Written? && Cell(w, g).rec.owner == me && Cell(w, g).rec.expiresAt > t
  }

  /** From `w0` on, `me` has at most replaced the record of `g` by one of its own that lasts, and no lasting
      record of anyone else. */
  ghost predicate Evolved(tm: Team, me: Owner, w0: World, w: World, g: Sg) {
    || Cell(w, g) == Cell(w0, g)
    || (&& Secure(tm, me, w, g)
        && !(&& Cell(w0, g).Written? && Cell(w0, g).rec.owner != me
             && Cell(w0, g).rec.expiresAt >= tm.start + tm.least))
  }

  /** What holds of the world and the held groups at every point of `me`'s tick that began in `w0`. */
  ghost predicate Steady(tm: Team, me: Owner, w0: World, w: World, held: set<Sg>) {
    && Passable(tm, w)
    && w0.readings <= w.readings
    && (forall g :: Evolved(tm, me, w0, w, g))
    && (forall g :: OwnAt(me, w, g, tm.clock(w.readings)) ==> g in held)
  }

  lemma OperateElsewhere(tm: Team, j: nat, op: Op, w: World, g: Sg)
    requires Window(tm) && j < |tm.managers| && Passable(tm, w)
    ensures var m := tm.managers[j];
            var w' := Operate(op, Lessee(m.owner, m.ttl), tm.clock, w, g).0;
            && LockOpen(FileOf(w, g).lock, m.ttl, tm.clock(w.readings))
            && Passable(tm, w') && w'.readings == w.readings + 2
            && forall h :: h != g ==> Cell(w', h) == Cell(w, h)
  {
    var m := tm.managers[j];
    var w' := Operate(op, Lessee(m.owner, m.ttl), tm.clock, w, g).0;
    assert OpenFor(tm, FileOf(w, g).lock) && tm.clock(w.readings) >= tm.start;
    forall h ensures OpenFor(tm, FileOf(w', h).lock) && (h != g ==> Cell(w', h) == Cell(w, h)) {
      assert OpenFor(tm, FileOf(w, h).lock);
    }
  }

  lemma RenewEffect(tm: Team, j: nat, w: World, g: Sg)
    requires GoodTeam(tm) && j < |tm.managers| && Passable(tm, w)
    ensures var me := tm.managers[j].owner;
            var (w', ok) := Service(tm, j).renew(w, g);
            && Passable(tm, w') && w'.readings == w.readings + 2
            && (forall h :: h != g ==> Cell(w', h) == Cell(w, h))
            && ok == OwnAt(me, w, g, tm.clock(w.readings + 1))
            && (if ok then Secure(tm, me, w', g) else Cell(w', g) == Cell(w, g))
  {
    OperateElsewhere(tm, j, Renew, w, g);
    assert tm.clock(w.readings + 1) >= tm.start;
  }

  lemma AcquireEffect(tm: Team, j: nat, w: World, g: Sg)
    requires GoodTeam(tm) && j < |tm.managers| && Passable(tm, w)
    ensures var me := tm.managers[j].owner;
            var now := tm.clock(w.readings + 1);
            var (w', ok) := Service(tm, j).acquire(w, g);
            && Passable(tm, w') && w'.readings == w.readings + 2
            && (forall h :: h != g ==> Cell(w', h) == Cell(w, h))
            && ok == !OthersAt(me, w, g, now)
            && (if ok && !OwnAt(me, w, g, now) then Secure(tm, me, w', g) else Cell(w', g) == Cell(w, g))
  {
    OperateElsewhere(tm, j, Acquire, w, g);
    assert tm.clock(w.readings + 1) >= tm.start;
  }

  lemma Later(tm: Team, i: nat, j: nat)
    requires Window(tm) && i <= j
    ensures tm.start <= tm.clock(i) <= tm.clock(j) < tm.start + tm.least
  {
  }

  /** A changed or unchanged record of one group keeps the world steady. */
  lemma SteadyStep(tm: Team, me: Owner, w0: World, w: World, held: set<Sg>, w': World, held': set<Sg>, g: Sg)
    requires Window(tm) && Steady(tm, me, w0, w, held)
    requires Passable(tm, w') && w'.readings == w.readings + 2
    requires forall h :: h != g ==> Cell(w', h) == Cell(w, h)
    requires || Cell(w', g) == Cell(w, g)
             || (Secure(tm, me, w', g) && !OthersAt(me, w, g, tm.clock(w.readings + 1)) && g in held')
    requires Cell(w', g) == Cell(w, g) ==> OwnAt(me, w, g, tm.clock(w.readings + 1)) && g in held ==> g in held'
    requires forall h :: h != g && h in held ==> h in held'
    ensures Steady(tm, me, w0, w', held')
  {
    Later(tm, w.readings, w.readings + 1);
    Later(tm, w.readings + 1, w'.readings);
    forall h ensures Evolved(tm, me, w0, w', h) && (OwnAt(me, w', h, tm.clock(w'.readings)) ==> h in held') {
      assert Evolved(tm, me, w0, w, h);
      assert OwnAt(me, w, h, tm.clock(w.readings)) ==> h in held;
      assert h != g ==> Cell(w', h) == Cell(w, h);
    }
  }

  lemma SteadyRenew(tm: Team, j: nat, w0: World, st: TickState<World>, g: Sg)
    requires GoodTeam(tm) && j < |tm.managers| && g in st.held
    requires Steady(tm, tm.managers[j].owner, w0, st.env, st.held)
    ensures var st' := RenewOne(Service(tm, j), st, g);
            && Steady(tm, tm.managers[j].owner, w0, st'.env, st'.held)
            && (st'.renewed == st.renewed || Secure(tm, tm.managers[j].owner, st'.env, g))
            && forall h :: Secure(tm, tm.managers[j].owner, st.env, h) ==> Secure(tm, tm.managers[j].owner, st'.env, h)
  {
    RenewEffect(tm, j, st.env, g);
    var st' := RenewOne(Service(tm, j), st, g);
    SteadyStep(tm, tm.managers[j].owner, w0, st.env, st.held, st'.env, st'.held, g);
  }

  lemma SteadyAcquire(tm: Team, j: nat, w0: World, st: TickState<World>, g: Sg)
    requires GoodTeam(tm) && j < |tm.managers| && g !in st.held
    requires Steady(tm, tm.managers[j].owner, w0, st.env, st.held)
    ensures var me, st' := tm.managers[j].owner, AcquireOne(Service(tm, j), st, g);
            && Steady(tm, me, w0, st'.env, st'.held)
            && (g in st'.held ==> Secure(tm, me, st'.env, g))
            && (g !in st'.held ==> OthersAt(me, w0, g, tm.clock(w0.readings)))
            && forall h :: Secure(tm, me, st.env, h) ==> Secure(tm, me, st'.env, h)
  {
    var me := tm.managers[j].owner;
    AcquireEffect(tm, j, st.env, g);
    var st' := AcquireOne(Service(tm, j), st, g);
    Later(tm, st.env.readings, st.env.readings + 1);
    Later(tm, w0.readings, st.env.readings);
    assert OwnAt(me, st.env, g, tm.clock(st.env.readings)) ==> g in st.held;
    assert Evolved(tm, me, w0, st.env, g);
    SteadyStep(tm, me, w0, st.env, st.held, st'.env, st'.held, g);
  }

  // ---- one tick -------------------------------------------------------------------------------

  ghost predicate AllSecure(tm: Team, me: Owner, w: World, groups: set<Sg>) {
    forall g :: g in groups ==> Secure(tm, me, w, g)
  }

  lemma {:induction false} SteadyRenewAll(tm: Team, j: nat, w0: World, st: TickState<World>, todo: seq<Sg>)
    requires GoodTeam(tm) && j < |tm.managers|
    requires Distinct(todo) && Elements(todo) <= st.held
    requires Steady(tm, tm.managers[j].owner, w0, st.env, st.held)
    requires AllSecure(tm, tm.managers[j].owner, st.env, Elements(st.renewed))
    ensures var r := RenewAll(Service(tm, j), st, todo);
            && Steady(tm, tm.managers[j].owner, w0, r.env, r.held)
            && AllSecure(tm, tm.managers[j].owner, r.env, Elements(r.renewed))
    decreases |todo|
  {
    if todo != [] {
      var g := todo[0];
      assert todo == [g] + todo[1..];
      ConsElements(g, todo[1..]);
      assert g in Elements(todo) && g !in Elements(todo[1..]);
      SteadyRenew(tm, j, w0, st, g);
      var st' := RenewOne(Service(tm, j), st, g);
      Snoc(st.renewed, g);
      SteadyRenewAll(tm, j, w0, st', todo[1..]);
    }
  }

  /** Groups refused since `mark` were held by somebody else when the tick began. */
  ghost predicate RefusedToOthers(tm: Team, me: Owner, w0: World, failed: seq<Sg>, mark: nat) {
    mark <= |failed| && forall g :: g in Elements(failed[mark..]) ==> OthersAt(me, w0, g, tm.clock(w0.readings))
  }

  lemma {:induction false} SteadyAcquireUp(tm: Team, j: nat, w0: World, st: TickState<World>, todo: seq<Sg>, mark: nat)
    requires GoodTeam(tm) && j < |tm.managers|
    requires Steady(tm, tm.managers[j].owner, w0, st.env, st.held)
    requires AllSecure(tm, tm.managers[j].owner, st.env, st.held)
    requires RefusedToOthers(tm, tm.managers[j].owner, w0, st.failed, mark)
    ensures var me, r := tm.managers[j].owner, AcquireUp(Service(tm, j), st, todo, tm.target, {});
            && Steady(tm, me, w0, r.env, r.held)
            && AllSecure(tm, me, r.env, r.held)
            && RefusedToOthers(tm, me, w0, r.failed, mark)
    decreases |todo|
  {
    if todo == [] || |st.held| >= tm.target {
    } else if todo[0] in st.held {
      SteadyAcquireUp(tm, j, w0, st, todo[1..], mark);
    } else {
      var g := todo[0];
      var st' := AcquireOne(Service(tm, j), st, g);
      SteadyAcquire(tm, j, w0, st, g);
      if st'.failed == st.failed + [g] {
        assert st'.failed[mark..] == st.failed[mark..] + [g];
        Snoc(st.failed[mark..], g);
      }
      SteadyAcquireUp(tm, j, w0, st', todo[1..], mark);
    }
  }

  /** What one manager's tick does to the shared files and its held groups. */
  ghost predicate Ticked(tm: Team, me: Owner, w0: World, held0: set<Sg>, w: World, held: set<Sg>) {
    && Steady(tm, me, w0, w, held)
    && AllSecure(tm, me, w, held)
    && |held| <= tm.target
    && held <= held0 + Elements(tm.groups)
    && (|held| < tm.target ==> LeftToOthers(tm, me, w0, held))
  }

  /** Every group not held was somebody else's when the tick began. */
  ghost predicate LeftToOthers(tm: Team, me: Owner, w0: World, held: set<Sg>) {
    forall g :: g in Elements(tm.groups) - held ==> OthersAt(me, w0, g, tm.clock(w0.readings))
  }

  lemma TickEffect(tm: Team, j: nat, w0: World, held0: set<Sg>)
    requires GoodTeam(tm) && j < |tm.managers|
    requires Steady(tm, tm.managers[j].owner, w0, w0, held0) && |held0| <= tm.target
    ensures var t := TickOf(tm, j, w0, held0);
            Ticked(tm, tm.managers[j].owner, w0, held0, t.env, t.held)
  {
    var m, svc := tm.managers[j], Service(tm, j);
    var candidates := Candidates(m.mode, m.score, tm.groups);
    TickWithoutFallback(svc, w0, held0, tm.target, m.mode, m.score, tm.groups);
    SameElements(m.mode, m.score, tm.groups);
    var st := Renewals(svc, w0, held0);
    AscendingOrder(held0);
    SteadyRenewAll(tm, j, w0, Begin(w0, held0), Ascending(held0));
    RenewalsHold(svc, w0, held0);
    SubsetSize(st.held, held0);
    if |st.held| < tm.target {
      AcquireEffects(tm, j, w0, held0, st, candidates);
    }
  }

  lemma SubsetSize(a: set<Sg>, b: set<Sg>)
    requires a <= b
    ensures |a| <= |b|
  {
    if a != {} {
      var x :| x in a;
      SubsetSize(a - {x}, b - {x});
    }
  }

  lemma EqualBySize(a: set<Sg>, b: set<Sg>)
    requires a <= b && |a| >= |b|
    ensures a == b
  {
    SumSize(a, b - a);
    assert a + (b - a) == b;
  }

  lemma AcquireEffects(tm: Team, j: nat, w0: World, held0: set<Sg>, st: TickState<World>, candidates: seq<Sg>)
    requires GoodTeam(tm) && j < |tm.managers| && |st.held| < tm.target && st.held <= held0
    requires Elements(candidates) == Elements(tm.groups)
    requires Steady(tm, tm.managers[j].owner, w0, st.env, st.held)
    requires AllSecure(tm, tm.managers[j].owner, st.env, st.held)
    ensures var r := Acquisitions(Service(tm, j), st, tm.target, candidates);
            Ticked(tm, tm.managers[j].owner, w0, held0, r.env, r.held)
  {
    var svc := Service(tm, j);
    var r := Acquisitions(svc, st, tm.target, candidates);
    assert st.failed[|st.failed|..] == [];
    SteadyAcquireUp(tm, j, w0, st, candidates, |st.failed|);
    var n := AcquireShape(svc, st, candidates, tm.target, {});
    PrefixElements(candidates[..n], candidates);
    if n == |candidates| {
      assert candidates[..n] == candidates;
    }
  }

  // ---- counting -------------------------------------------------------------------------------

  /** The groups held by managers `lo` up to `hi`. */
  ghost function Union(held: seq<set<Sg>>, lo: nat, hi: nat): set<Sg>
    requires lo <= hi <= |held|
    decreases hi - lo
  {
    if lo == hi then {} else Union(held, lo, hi - 1) + held[hi - 1]
  }

  lemma {:induction false} InUnion(held: seq<set<Sg>>, lo: nat, hi: nat, g: Sg)
    requires lo <= hi <= |held|
    ensures g in Union(held, lo, hi) <==> exists j :: lo <= j < hi && g in held[j]
    decreases hi - lo
  {
    if lo < hi {
      InUnion(held, lo, hi - 1, g);
    }
  }

  /** `n` targets added up. */
  function Targets(n: nat, target: nat): nat {
    if n == 0 then 0 else Targets(n - 1, target) + target
  }

  lemma {:induction false} TargetsIsProduct(n: nat, target: nat)
    ensures Targets(n, target) == n * target
  {
    if n > 0 {
      TargetsIsProduct(n - 1, target);
      assert n * target == (n - 1) * target + target;
    }
  }

  lemma {:induction false} UnionSize(held: seq<set<Sg>>, lo: nat, hi: nat, target: nat)
    requires lo <= hi <= |held|
    requires forall j :: lo <= j < hi ==> |held[j]| <= target
    ensures |Union(held, lo, hi)| <= Targets(hi - lo, target)
    decreases hi - lo
  {
    if lo < hi {
      UnionSize(held, lo, hi - 1, target);
      SumSize(Union(held, lo, hi - 1), held[hi - 1]);
    }
  }

  lemma SumSize(a: set<Sg>, b: set<Sg>)
    ensures |a + b| <= |a| + |b|
    ensures a !! b ==> |a + b| == |a| + |b|
  {
  }

  lemma {:induction false} UnionSame(a: seq<set<Sg>>, b: seq<set<Sg>>, lo: nat, hi: nat)
    requires lo <= hi <= |a| == |b|
    requires forall j :: lo <= j < hi ==> a[j] == b[j]
    ensures Union(a, lo, hi) == Union(b, lo, hi)
    decreases hi - lo
  {
    if lo < hi {
      UnionSame(a, b, lo, hi - 1);
    }
  }

  // ---- the round ------------------------------------------------------------------------------

  /** Every record that has not expired belongs to a manager that holds its group. */
  ghost predicate Known(tm: Team, s: Stage)
    requires |tm.managers| == |s.held|
  {
    forall g :: Cell(s.world, g).Written? && Cell(s.world, g).rec.expiresAt > tm.clock(s.world.readings)
      ==> HolderOf(tm, s, g)
  }

  ghost predicate HolderOf(tm: Team, s: Stage, g: Sg)
    requires |tm.managers| == |s.held| && Cell(s.world, g).Written?
  {
    exists j :: 0 <= j < |s.held| && g in s.held[j] && tm.managers[j].owner == Cell(s.world, g).rec.owner
  }

  /** Where a round may begin: no lock in anybody's way, everybody within the target and within the groups, and no
      record that
      is live is held by nobody. The empty directory with nobody holding anything is such a state. */
  ghost predicate Starts(tm: Team, s: Stage) {
    && |tm.managers| == |s.held|
    && Passable(tm, s.world)
    && (forall j :: 0 <= j < |s.held| ==> |s.held[j]| <= tm.target && s.held[j] <= Elements(tm.groups))
    && Known(tm, s)
  }

  /** After `i` ticks: the tickers' records outlast the round, and the held groups so far together with the full
      targets still to come suffice for all groups. */
  ghost predicate Midway(tm: Team, s: Stage, i: nat) {
    && Starts(tm, s) && i <= |s.held|
    && (forall j :: 0 <= j < i ==> AllSecure(tm, tm.managers[j].owner, s.world, s.held[j]))
    && |Union(s.held, 0, i)| + Targets(|s.held| - i, tm.target) >= |Elements(tm.groups)|
  }

  lemma OwnIsHeld(tm: Team, s: Stage, i: nat)
    requires GoodTeam(tm) && Starts(tm, s) && i < |s.held|
    ensures Steady(tm, tm.managers[i].owner, s.world, s.world, s.held[i])
  {
    var me := tm.managers[i].owner;
    forall g | OwnAt(me, s.world, g, tm.clock(s.world.readings)) ensures g in s.held[i] {
      assert HolderOf(tm, s, g);
      var j :| 0 <= j < |s.held| && g in s.held[j] && tm.managers[j].owner == Cell(s.world, g).rec.owner;
      assert j == i;
    }
    assert forall g :: Evolved(tm, me, s.world, s.world, g);
  }

  lemma TurnStarts(tm: Team, s: Stage, i: nat, s': Stage)
    requires GoodTeam(tm) && Starts(tm, s) && i < |s.held|
    requires |s'.held| == |s.held| && s'.held == s.held[i := s'.held[i]]
    requires Ticked(tm, tm.managers[i].owner, s.world, s.held[i], s'.world, s'.held[i])
    ensures Starts(tm, s')
  {
    var me := tm.managers[i].owner;
    Later(tm, s.world.readings, s'.world.readings);
    forall g | Cell(s'.world, g).Written? && Cell(s'.world, g).rec.expiresAt > tm.clock(s'.world.readings)
      ensures HolderOf(tm, s', g)
    {
      assert Evolved(tm, me, s.world, s'.world, g);
      if Cell(s'.world, g).rec.owner == me {
        assert OwnAt(me, s'.world, g, tm.clock(s'.world.readings));
        assert g in s'.held[i];
      } else {
        assert HolderOf(tm, s, g);
        var j :| 0 <= j < |s.held| && g in s.held[j] && tm.managers[j].owner == Cell(s.world, g).rec.owner;
        assert s'.held[j] == s.held[j];
      }
    }
  }

  lemma TurnSecure(tm: Team, s: Stage, i: nat, s': Stage)
    requires GoodTeam(tm) && Midway(tm, s, i) && i < |s.held|
    requires |s'.held| == |s.held| && s'.held == s.held[i := s'.held[i]]
    requires Ticked(tm, tm.managers[i].owner, s.world, s.held[i], s'.world, s'.held[i])
    ensures forall j :: 0 <= j <= i ==> AllSecure(tm, tm.managers[j].owner, s'.world, s'.held[j])
  {
    forall j, g | 0 <= j < i && g in s.held[j] ensures Secure(tm, tm.managers[j].owner, s'.world, g) {
      assert AllSecure(tm, tm.managers[j].owner, s.world, s.held[j]);
      assert Secure(tm, tm.managers[j].owner, s.world, g);
      assert Evolved(tm, tm.managers[i].owner, s.world, s'.world, g);
      assert tm.managers[j].owner != tm.managers[i].owner;
    }
    forall j | 0 <= j <= i ensures AllSecure(tm, tm.managers[j].owner, s'.world, s'.held[j]) {
      assert j < i ==> s'.held[j] == s.held[j];
    }
  }

  lemma Disjoint(tm: Team, s: Stage, i: nat, j: nat)
    requires GoodTeam(tm) && i < j < |s.held| == |tm.managers|
    requires AllSecure(tm, tm.managers[i].owner, s.world, s.held[i])
    requires AllSecure(tm, tm.managers[j].owner, s.world, s.held[j])
    ensures s.held[i] !! s.held[j]
  {
    assert tm.managers[i].owner != tm.managers[j].owner;
    forall g | g in s.held[i] ensures g !in s.held[j] {
      assert Secure(tm, tm.managers[i].owner, s.world, g);
    }
  }

  lemma ApartFromUnion(tm: Team, s: Stage, i: nat)
    requires GoodTeam(tm) && i < |s.held| == |tm.managers|
    requires forall j :: 0 <= j <= i ==> AllSecure(tm, tm.managers[j].owner, s.world, s.held[j])
    ensures Union(s.held, 0, i) !! s.held[i]
  {
    forall g | g in Union(s.held, 0, i) ensures g !in s.held[i] {
      InUnion(s.held, 0, i, g);
      var j :| 0 <= j < i && g in s.held[j];
      Disjoint(tm, s, j, i);
    }
  }

  lemma FullCount(held: seq<set<Sg>>, held': seq<set<Sg>>, i: nat, target: nat, all: nat)
    requires i < |held| == |held'| && held' == held[i := held'[i]]
    requires |Union(held, 0, i)| + Targets(|held| - i, target) >= all
    requires Union(held', 0, i) !! held'[i] && |held'[i]| == target
    ensures |Union(held', 0, i + 1)| + Targets(|held'| - (i + 1), target) >= all
  {
    UnionSame(held, held', 0, i);
    SumSize(Union(held', 0, i), held'[i]);
  }

  lemma ShortCovers(tm: Team, s: Stage, i: nat, s': Stage)
    requires Starts(tm, s) && i < |s.held|
    requires |s'.held| == |s.held| && s'.held == s.held[i := s'.held[i]]
    requires LeftToOthers(tm, tm.managers[i].owner, s.world, s'.held[i])
    ensures Elements(tm.groups) <= Union(s'.held, 0, i + 1) + Union(s'.held, i + 1, |s'.held|)
  {
    var k := |s'.held|;
    forall g | g in Elements(tm.groups) ensures g in Union(s'.held, 0, i + 1) + Union(s'.held, i + 1, k) {
      InUnion(s'.held, 0, i + 1, g);
      InUnion(s'.held, i + 1, k, g);
      if g !in s'.held[i] {
        assert OthersAt(tm.managers[i].owner, s.world, g, tm.clock(s.world.readings));
        assert HolderOf(tm, s, g);
        var j :| 0 <= j < |s.held| && g in s.held[j] && tm.managers[j].owner == Cell(s.world, g).rec.owner;
        assert j != i && s'.held[j] == s.held[j];
      }
    }
  }

  lemma TurnShort(tm: Team, s: Stage, i: nat, s': Stage)
    requires Starts(tm, s) && i < |s.held|
    requires |s'.held| == |s.held| && s'.held == s.held[i := s'.held[i]]
    requires LeftToOthers(tm, tm.managers[i].owner, s.world, s'.held[i])
    ensures |Union(s'.held, 0, i + 1)| + Targets(|s'.held| - (i + 1), tm.target) >= |Elements(tm.groups)|
  {
    ShortCovers(tm, s, i, s');
    RestSize(s'.held, i + 1, tm.target, Elements(tm.groups));
  }

  lemma RestSize(held: seq<set<Sg>>, lo: nat, target: nat, groups: set<Sg>)
    requires lo <= |held| && forall j :: lo <= j < |held| ==> |held[j]| <= target
    requires groups <= Union(held, 0, lo) + Union(held, lo, |held|)
    ensures |Union(held, 0, lo)| + Targets(|held| - lo, target) >= |groups|
  {
    var done, rest := Union(held, 0, lo), Union(held, lo, |held|);
    SubsetSize(groups, done + rest);
    SumSize(done, rest);
    UnionSize(held, lo, |held|, target);
  }

  lemma TurnCount(tm: Team, s: Stage, i: nat, s': Stage)
    requires GoodTeam(tm) && Starts(tm, s) && i < |s.held|
    requires |Union(s.held, 0, i)| + Targets(|s.held| - i, tm.target) >= |Elements(tm.groups)|
    requires |s'.held| == |s.held| && s'.held == s.held[i := s'.held[i]] && |s'.held[i]| <= tm.target
    requires |s'.held[i]| < tm.target ==> LeftToOthers(tm, tm.managers[i].owner, s.world, s'.held[i])
    requires |s'.held[i]| == tm.target ==> Union(s'.held, 0, i) !! s'.held[i]
    ensures |Union(s'.held, 0, i + 1)| + Targets(|s'.held| - (i + 1), tm.target) >= |Elements(tm.groups)|
  {
    if |s'.held[i]| == tm.target {
      FullCount(s.held, s'.held, i, tm.target, |Elements(tm.groups)|);
    } else {
      TurnShort(tm, s, i, s');
    }
  }

  lemma TurnKeeps(tm: Team, s: Stage, i: nat, s': Stage)
    requires GoodTeam(tm) && Midway(tm, s, i) && i < |s.held|
    requires |s'.held| == |s.held| && s'.held == s.held[i := s'.held[i]]
    requires Ticked(tm, tm.managers[i].owner, s.world, s.held[i], s'.world, s'.held[i])
    ensures Midway(tm, s', i + 1)
  {
    TurnStarts(tm, s, i, s');
    TurnSecure(tm, s, i, s');
    ApartFromUnion(tm, s', i);
    TurnCount(tm, s, i, s');
  }

  lemma Turn(tm: Team, s: Stage, i: nat)
    requires GoodTeam(tm) && Midway(tm, s, i) && i < |s.held|
    ensures Midway(tm, TurnOf(tm, s, i), i + 1)
  {
    OwnIsHeld(tm, s, i);
    TickEffect(tm, i, s.world, s.held[i]);
    TurnKeeps(tm, s, i, TurnOf(tm, s, i));
  }

  lemma MidwayAtStart(tm: Team, s: Stage)
    requires GoodTeam(tm) && Starts(tm, s)
    requires |s.held| * tm.target >= |Elements(tm.groups)|
    ensures Midway(tm, s, 0)
  {
    assert Union(s.held, 0, 0) == {};
    TargetsIsProduct(|s.held|, tm.target);
  }

  lemma {:induction false} Rounds(tm: Team, st: seq<Stage>, i: nat)
    requires GoodTeam(tm) && Round(tm, st) && Starts(tm, st[0]) && i <= |tm.managers|
    requires |tm.managers| * tm.target >= |Elements(tm.groups)|
    ensures Midway(tm, st[i], i)
  {
    if i == 0 {
      MidwayAtStart(tm, st[0]);
    } else {
      Rounds(tm, st, i - 1);
      Turn(tm, st[i - 1], i - 1);
    }
  }

  /** The held sets are disjoint and make up exactly the groups. */
  ghost predicate Partition(held: seq<set<Sg>>, groups: set<Sg>) {
    && (forall i, j :: 0 <= i < j < |held| ==> held[i] !! held[j])
    && Union(held, 0, |held|) == groups
  }

  lemma UnionWithin(held: seq<set<Sg>>, groups: set<Sg>)
    requires forall j :: 0 <= j < |held| ==> held[j] <= groups
    ensures Union(held, 0, |held|) <= groups
  {
    forall g | g in Union(held, 0, |held|) ensures g in groups {
      InUnion(held, 0, |held|, g);
    }
  }

  lemma MidwayAtEnd(tm: Team, r: Stage)
    requires GoodTeam(tm) && |tm.managers| == |r.held| && Midway(tm, r, |r.held|)
    ensures Partition(r.held, Elements(tm.groups))
  {
    forall i, j | 0 <= i < j < |r.held| ensures r.held[i] !! r.held[j] {
      Disjoint(tm, r, i, j);
    }
    UnionWithin(r.held, Elements(tm.groups));
    EqualBySize(Union(r.held, 0, |r.held|), Elements(tm.groups));
  }

  /** Coverage: when the managers' targets add up to at least the number of groups, one uncontended round of
      ticks within the least TTL leaves their held groups a partition of all groups, each by a record that
      outlasts the round. */
  lemma RoundCovers(tm: Team, st: seq<Stage>)
    requires GoodTeam(tm) && Round(tm, st) && Starts(tm, st[0])
    requires |tm.managers| * tm.target >= |Elements(tm.groups)|
    ensures var r := st[|tm.managers|];
            && Partition(r.held, Elements(tm.groups))
            && Starts(tm, r)
            && forall j :: 0 <= j < |r.held| ==> AllSecure(tm, tm.managers[j].owner, r.world, r.held[j])
  {
    Rounds(tm, st, |tm.managers|);
    MidwayAtEnd(tm, st[|tm.managers|]);
  }

  /** What a round may begin with it also ends with, stage by stage. */
  lemma TurnStartsAgain(tm: Team, s: Stage, i: nat)
    requires GoodTeam(tm) && Starts(tm, s) && i < |s.held|
    ensures Starts(tm, TurnOf(tm, s, i))
  {
    OwnIsHeld(tm, s, i);
    TickEffect(tm, i, s.world, s.held[i]);
    TurnStarts(tm, s, i, TurnOf(tm, s, i));
  }

  lemma {:induction false} StageStarts(tm: Team, st: seq<Stage>, i: nat)
    requires GoodTeam(tm) && Round(tm, st) && Starts(tm, st[0]) && i <= |tm.managers|
    ensures Starts(tm, st[i])
  {
    if i > 0 {
      StageStarts(tm, st, i - 1);
      TurnStartsAgain(tm, st[i - 1], i - 1);
    }
  }

  lemma PartitionNeeds(tm: Team, r: Stage)
    requires Starts(tm, r) && Partition(r.held, Elements(tm.groups))
    ensures |tm.managers| * tm.target >= |Elements(tm.groups)|
  {
    UnionSize(r.held, 0, |r.held|, tm.target);
    TargetsIsProduct(|r.held|, tm.target);
  }

  /** A round covers exactly when the managers' targets add up to at least the number of groups. */
  lemma RoundCoversExactly(tm: Team, st: seq<Stage>)
    requires GoodTeam(tm) && Round(tm, st) && Starts(tm, st[0])
    ensures Partition(st[|tm.managers|].held, Elements(tm.groups))
            <==> |tm.managers| * tm.target >= |Elements(tm.groups)|
  {
    if |tm.managers| * tm.target >= |Elements(tm.groups)| {
      RoundCovers(tm, st);
    } else {
      StageStarts(tm, st, |tm.managers|);
      if Partition(st[|tm.managers|].held, Elements(tm.groups)) {
        PartitionNeeds(tm, st[|tm.managers|]);
      }
    }
  }

  // ---- stability ------------------------------------------------------------------------------

  /** Everybody holds records on disk, together they hold all groups, and nobody is over the target. */
  ghost predicate Settled(tm: Team, s: Stage) {
    && |tm.managers| == |s.held|
    && Passable(tm, s.world)
    && Union(s.held, 0, |s.held|) == Elements(tm.groups)
    && (forall j :: 0 <= j < |s.held| ==> |s.held[j]| <= tm.target)
    && (forall j, g :: 0 <= j < |s.held| && g in s.held[j] ==> OwnRecord(tm, s.world, j, g))
  }

  ghost predicate OwnRecord(tm: Team, w: World, j: nat, g: Sg)
    requires j < |tm.managers|
  {
    Cell(w, g).Written? && Cell(w, g).rec.owner == tm.managers[j].owner
  }

  /** Each manager reads the clock for its last renewal of the round before any of its records expires. */
  ghost predicate RenewsInTime(tm: Team, st: seq<Stage>)
    requires Round(tm, st)
  {
    forall j, g :: 0 <= j < |tm.managers| && g in st[0].held[j] && Cell(st[0].world, g).Written? ==>
      tm.clock(st[j].world.readings + 2 * |st[0].held[j]|) < Cell(st[0].world, g).rec.expiresAt
  }

  /** A run of renewals that all come in time: nothing is dropped, and each takes two clock readings. */
  lemma {:induction false} RenewAllInTime(tm: Team, j: nat, st: TickState<World>, todo: seq<Sg>, limit: nat)
    requires GoodTeam(tm) && j < |tm.managers| && Passable(tm, st.env)
    requires Distinct(todo) && Elements(todo) <= st.held && Elements(st.renewed) !! Elements(todo)
    requires st.env.readings + 2 * |todo| <= limit
    requires forall g :: g in Elements(todo) ==> OwnAt(tm.managers[j].owner, st.env, g, tm.clock(limit))
    requires AllSecure(tm, tm.managers[j].owner, st.env, Elements(st.renewed))
    ensures var r := RenewAll(Service(tm, j), st, todo);
            && r.held == st.held && r.failed == st.failed
            && Passable(tm, r.env) && r.env.readings == st.env.readings + 2 * |todo|
            && Elements(r.renewed) == Elements(st.renewed) + Elements(todo)
            && AllSecure(tm, tm.managers[j].owner, r.env, Elements(r.renewed))
            && forall h :: h !in Elements(todo) ==> Cell(r.env, h) == Cell(st.env, h)
    decreases |todo|
  {
    if todo != [] {
      var me, g := tm.managers[j].owner, todo[0];
      assert todo == [g] + todo[1..];
      ConsElements(g, todo[1..]);
      assert g in Elements(todo) && g !in Elements(todo[1..]);
      RenewEffect(tm, j, st.env, g);
      Later(tm, st.env.readings + 1, limit);
      assert OwnAt(me, st.env, g, tm.clock(limit));
      var st' := RenewOne(Service(tm, j), st, g);
      Snoc(st.renewed, g);
      assert st'.renewed == st.renewed + [g];
      RenewAllInTime(tm, j, st', todo[1..], limit);
    }
  }

  lemma {:induction false} AcquireUpReadings(tm: Team, j: nat, st: TickState<World>, todo: seq<Sg>, skip: set<Sg>)
    requires j < |tm.managers|
    ensures st.env.readings <= AcquireUp(Service(tm, j), st, todo, tm.target, skip).env.readings
    decreases |todo|
  {
    if todo != [] && |st.held| < tm.target {
      if todo[0] in st.held || todo[0] in skip {
        AcquireUpReadings(tm, j, st, todo[1..], skip);
      } else {
        AcquireUpReadings(tm, j, AcquireOne(Service(tm, j), st, todo[0]), todo[1..], skip);
      }
    }
  }

  /** Everything in `todo` that is not in `held` is somebody else's until clock reading `limit`. */
  ghost predicate Taken(tm: Team, me: Owner, w: World, todo: seq<Sg>, held: set<Sg>, limit: nat) {
    forall g :: g in Elements(todo) && g !in held ==> OthersAt(me, w, g, tm.clock(limit))
  }

  lemma TakenTail(tm: Team, me: Owner, w: World, w': World, todo: seq<Sg>, held: set<Sg>, limit: nat)
    requires todo != [] && Taken(tm, me, w, todo, held, limit)
    requires forall h :: Cell(w', h) == Cell(w, h)
    ensures Taken(tm, me, w', todo[1..], held, limit)
    ensures todo[0] !in held ==> OthersAt(me, w, todo[0], tm.clock(limit))
  {
    assert todo == [todo[0]] + todo[1..];
    ConsElements(todo[0], todo[1..]);
    assert todo[0] in Elements(todo);
    forall g | g in Elements(todo[1..]) && g !in held ensures OthersAt(me, w', g, tm.clock(limit)) {
      assert OthersAt(me, w, g, tm.clock(limit));
    }
  }

  lemma RefusedHead(tm: Team, j: nat, st: TickState<World>, g: Sg, limit: nat)
    requires GoodTeam(tm) && j < |tm.managers| && Passable(tm, st.env)
    requires AcquireOne(Service(tm, j), st, g).env.readings <= limit
    requires OthersAt(tm.managers[j].owner, st.env, g, tm.clock(limit))
    ensures var st' := AcquireOne(Service(tm, j), st, g);
            st'.held == st.held && Passable(tm, st'.env) && forall h :: Cell(st'.env, h) == Cell(st.env, h)
  {
    AcquireEffect(tm, j, st.env, g);
    Later(tm, st.env.readings + 1, limit);
  }

  /** Acquiring where everything wanted is somebody else's until the end gets nothing and changes nothing. */
  lemma {:induction false} AcquireUpRefused(tm: Team, j: nat, st: TickState<World>, todo: seq<Sg>, limit: nat)
    requires GoodTeam(tm) && j < |tm.managers| && Passable(tm, st.env)
    requires AcquireUp(Service(tm, j), st, todo, tm.target, {}).env.readings <= limit
    requires Taken(tm, tm.managers[j].owner, st.env, todo, st.held, limit)
    ensures var r := AcquireUp(Service(tm, j), st, todo, tm.target, {});
            && r.held == st.held && Passable(tm, r.env)
            && forall h :: Cell(r.env, h) == Cell(st.env, h)
    decreases |todo|
  {
    if todo != [] && |st.held| < tm.target {
      var me, g := tm.managers[j].owner, todo[0];
      TakenTail(tm, me, st.env, st.env, todo, st.held, limit);
      if g in st.held {
        AcquireUpRefused(tm, j, st, todo[1..], limit);
      } else {
        var st' := AcquireOne(Service(tm, j), st, g);
        AcquireUpReadings(tm, j, st', todo[1..], {});
        RefusedHead(tm, j, st, g, limit);
        TakenTail(tm, me, st.env, st'.env, todo, st.held, limit);
        AcquireUpRefused(tm, j, st', todo[1..], limit);
      }
    }
  }

  /** After `i` ticks of a settled round nothing has moved: the tickers have renewed, the others' records are as
      before. */
  ghost predicate Unmoved(tm: Team, s: Stage, r: Stage, i: nat)
    requires |tm.managers| == |s.held|
  {
    && r.held == s.held && Passable(tm, r.world) && i <= |s.held|
    && (forall j :: 0 <= j < i ==> AllSecure(tm, tm.managers[j].owner, r.world, s.held[j]))
    && (forall j, g :: i <= j < |s.held| && g in s.held[j] ==> Cell(r.world, g) == Cell(s.world, g))
  }

  lemma {:induction false} Climb(f: nat -> int, i: nat, j: nat)
    requires i <= j && forall k :: i <= k < j ==> f(k) <= f(k + 1)
    ensures f(i) <= f(j)
  {
    if i < j {
      Climb(f, i, j - 1);
    }
  }

  lemma StageReadings(tm: Team, st: seq<Stage>, i: nat, j: nat)
    requires Round(tm, st) && i <= j < |st|
    ensures st[i].world.readings <= st[j].world.readings
  {
    var f := (k: nat) => if k < |st| then st[k].world.readings else 0;
    forall k | i <= k < j ensures f(k) <= f(k + 1) {
      TurnReadings(tm, st[k], k);
    }
    Climb(f, i, j);
  }

  lemma {:induction false} RenewAllReadings(tm: Team, j: nat, st: TickState<World>, todo: seq<Sg>)
    requires j < |tm.managers|
    ensures st.env.readings <= RenewAll(Service(tm, j), st, todo).env.readings
    decreases |todo|
  {
    if todo != [] {
      RenewAllReadings(tm, j, RenewOne(Service(tm, j), st, todo[0]), todo[1..]);
    }
  }

  lemma {:induction false} ReleaseDownReadings(tm: Team, j: nat, st: TickState<World>, todo: seq<Sg>)
    requires j < |tm.managers|
    ensures st.env.readings <= ReleaseDown(Service(tm, j), st, todo, tm.target).env.readings
    decreases |todo|
  {
    if todo != [] && |st.held| > tm.target {
      ReleaseDownReadings(tm, j, ReleaseOne(Service(tm, j), st, todo[0]), todo[1..]);
    }
  }

  lemma TurnReadings(tm: Team, s: Stage, k: nat)
    requires k < |tm.managers| == |s.held|
    ensures s.world.readings <= TurnOf(tm, s, k).world.readings
  {
    var m, w, held := tm.managers[k], s.world, s.held[k];
    var svc, c := Service(tm, k), Candidates(m.mode, m.score, tm.groups);
    TickWithoutFallback(svc, w, held, tm.target, m.mode, m.score, tm.groups);
    RenewAllReadings(tm, k, Begin(w, held), Ascending(held));
    var r := Renewals(svc, w, held);
    ReleaseDownReadings(tm, k, r, Descending(r.held));
    AcquireUpReadings(tm, k, Releases(svc, r, tm.target), c, {});
  }

  lemma OwnersDiffer(tm: Team, i: nat, j: nat)
    requires GoodTeam(tm) && i < |tm.managers| && j < |tm.managers| && i != j
    ensures tm.managers[i].owner != tm.managers[j].owner
  {
    assert tm.managers[if i < j then i else j].owner != tm.managers[if i < j then j else i].owner;
  }

  /** What `i` wants and does not hold is somebody else's until `i` has ticked. */
  lemma WantedIsOthers(tm: Team, st: seq<Stage>, i: nat, w: World, g: Sg)
    requires GoodTeam(tm) && Round(tm, st) && Settled(tm, st[0]) && RenewsInTime(tm, st) && i < |tm.managers|
    requires Unmoved(tm, st[0], st[i], i)
    requires g in Elements(tm.groups) && g !in st[0].held[i] && Cell(w, g) == Cell(st[i].world, g)
    ensures OthersAt(tm.managers[i].owner, w, g, tm.clock(st[i + 1].world.readings))
  {
    var s := st[0];
    InUnion(s.held, 0, |s.held|, g);
    var j :| 0 <= j < |s.held| && g in s.held[j];
    OwnersDiffer(tm, i, j);
    if j < i {
      assert Secure(tm, tm.managers[j].owner, st[i].world, g) by {
        assert AllSecure(tm, tm.managers[j].owner, st[i].world, s.held[j]);
      }
      Later(tm, 0, st[i + 1].world.readings);
    } else {
      StillToRenew(tm, st, i, j, g);
    }
  }

  /** A group of a later ticker: its record is as at the start and outlives this turn. */
  lemma StillToRenew(tm: Team, st: seq<Stage>, i: nat, j: nat, g: Sg)
    requires GoodTeam(tm) && Round(tm, st) && Settled(tm, st[0]) && RenewsInTime(tm, st)
    requires i < j < |tm.managers| && g in st[0].held[j]
    ensures OwnAt(tm.managers[j].owner, st[0].world, g, tm.clock(st[i + 1].world.readings))
  {
    assert OwnRecord(tm, st[0].world, j, g);
    StageReadings(tm, st, i + 1, j);
    Later(tm, st[i + 1].world.readings, st[j].world.readings + 2 * |st[0].held[j]|);
  }

  lemma RenewsAll(tm: Team, st: seq<Stage>, i: nat)
    requires GoodTeam(tm) && Round(tm, st) && Settled(tm, st[0]) && RenewsInTime(tm, st) && i < |tm.managers|
    requires Unmoved(tm, st[0], st[i], i)
    ensures var w, held := st[i].world, st[0].held[i];
            var r := Renewals(Service(tm, i), w, held);
            && r.held == held && Passable(tm, r.env)
            && AllSecure(tm, tm.managers[i].owner, r.env, held)
            && forall h :: h !in held ==> Cell(r.env, h) == Cell(w, h)
  {
    var w, held := st[i].world, st[0].held[i];
    AscendingOrder(held);
    var limit := w.readings + 2 * |held|;
    forall g | g in held ensures OwnAt(tm.managers[i].owner, w, g, tm.clock(limit)) {
      assert OwnRecord(tm, st[0].world, i, g);
    }
    RenewAllInTime(tm, i, Begin(w, held), Ascending(held), limit);
  }

  lemma UnmovedTick(tm: Team, st: seq<Stage>, i: nat)
    requires GoodTeam(tm) && Round(tm, st) && Settled(tm, st[0]) && RenewsInTime(tm, st) && i < |tm.managers|
    requires Unmoved(tm, st[0], st[i], i)
    ensures var w, held := st[i].world, st[0].held[i];
            var t := TickOf(tm, i, w, held);
            && t.held == held && Passable(tm, t.env)
            && AllSecure(tm, tm.managers[i].owner, t.env, held)
            && forall h :: h !in held ==> Cell(t.env, h) == Cell(w, h)
  {
    var m, w, held := tm.managers[i], st[i].world, st[0].held[i];
    var svc, c := Service(tm, i), Candidates(m.mode, m.score, tm.groups);
    TickWithoutFallback(svc, w, held, tm.target, m.mode, m.score, tm.groups);
    SameElements(m.mode, m.score, tm.groups);
    RenewsAll(tm, st, i);
    var r := Renewals(svc, w, held);
    if |held| < tm.target {
      var limit := st[i + 1].world.readings;
      forall g | g in Elements(c) && g !in held ensures OthersAt(m.owner, r.env, g, tm.clock(limit)) {
        WantedIsOthers(tm, st, i, r.env, g);
      }
      AcquireUpRefused(tm, i, r, c, limit);
      forall g | g in held ensures Secure(tm, m.owner, AcquireUp(svc, r, c, tm.target, {}).env, g) {
        assert Secure(tm, m.owner, r.env, g);
      }
    }
  }

  lemma Apart(tm: Team, s: Stage, i: nat, j: nat, g: Sg)
    requires GoodTeam(tm) && Settled(tm, s) && i < |s.held| && j < |s.held| && i != j && g in s.held[j]
    ensures g !in s.held[i]
  {
    OwnersDiffer(tm, i, j);
    assert OwnRecord(tm, s.world, j, g);
    assert g in s.held[i] ==> OwnRecord(tm, s.world, i, g);
  }

  lemma UnmovedNext(tm: Team, s: Stage, r: Stage, i: nat, r': Stage)
    requires GoodTeam(tm) && Settled(tm, s) && i < |s.held|
    requires Unmoved(tm, s, r, i) && r'.held == s.held && Passable(tm, r'.world)
    requires AllSecure(tm, tm.managers[i].owner, r'.world, s.held[i])
    requires forall h :: h !in s.held[i] ==> Cell(r'.world, h) == Cell(r.world, h)
    ensures Unmoved(tm, s, r', i + 1)
  {
    forall j, g | 0 <= j < i && g in s.held[j] ensures Secure(tm, tm.managers[j].owner, r'.world, g) {
      Apart(tm, s, i, j, g);
      assert AllSecure(tm, tm.managers[j].owner, r.world, s.held[j]);
      assert Secure(tm, tm.managers[j].owner, r.world, g);
    }
    forall j | 0 <= j < i + 1 ensures AllSecure(tm, tm.managers[j].owner, r'.world, s.held[j]) {
    }
    forall j, g | i + 1 <= j < |s.held| && g in s.held[j] ensures Cell(r'.world, g) == Cell(s.world, g) {
      Apart(tm, s, i, j, g);
    }
  }

  lemma UnmovedTurn(tm: Team, st: seq<Stage>, i: nat)
    requires GoodTeam(tm) && Round(tm, st) && Settled(tm, st[0]) && RenewsInTime(tm, st) && i < |tm.managers|
    requires Unmoved(tm, st[0], st[i], i)
    ensures Unmoved(tm, st[0], st[i + 1], i + 1)
  {
    UnmovedTick(tm, st, i);
    var held := st[0].held;
    assert st[i + 1].held == held by {
      assert held[i := held[i]] == held;
    }
    UnmovedNext(tm, st[0], st[i], i, st[i + 1]);
  }

  lemma {:induction false} UnmovedRounds(tm: Team, st: seq<Stage>, i: nat)
    requires GoodTeam(tm) && Round(tm, st) && Settled(tm, st[0]) && RenewsInTime(tm, st) && i <= |tm.managers|
    ensures Unmoved(tm, st[0], st[i], i)
  {
    if i > 0 {
      UnmovedRounds(tm, st, i - 1);
      UnmovedTurn(tm, st, i - 1);
    }
  }

  /** Stability: once the held groups cover everything with nobody over the target, an uncontended round in
      which each manager renews before its earliest expiry leaves every held set as it was, and the next round
      finds the records lasting out this one. */
  lemma RoundIsStable(tm: Team, st: seq<Stage>)
    requires GoodTeam(tm) && Round(tm, st) && Settled(tm, st[0]) && RenewsInTime(tm, st)
    ensures var r := st[|tm.managers|];
            && r.held == st[0].held
            && Settled(tm, r)
            && forall j :: 0 <= j < |r.held| ==> AllSecure(tm, tm.managers[j].owner, r.world, r.held[j])
  {
    UnmovedRounds(tm, st, |tm.managers|);
    SecureIsOwn(tm, st[|tm.managers|]);
  }

  lemma SecureIsOwn(tm: Team, r: Stage)
    requires |tm.managers| == |r.held|
    requires forall j :: 0 <= j < |r.held| ==> AllSecure(tm, tm.managers[j].owner, r.world, r.held[j])
    ensures forall j, g :: 0 <= j < |r.held| && g in r.held[j] ==> OwnRecord(tm, r.world, j, g)
  {
    forall j, g | 0 <= j < |r.held| && g in r.held[j] ensures OwnRecord(tm, r.world, j, g) {
      assert AllSecure(tm, tm.managers[j].owner, r.world, r.held[j]);
      assert Secure(tm, tm.managers[j].owner, r.world, g);
    }
  }

  /** What coverage leaves is what stability asks for. */
  lemma CoveredIsSettled(tm: Team, st: seq<Stage>)
    requires GoodTeam(tm) && Round(tm, st) && Starts(tm, st[0])
    requires |tm.managers| * tm.target >= |Elements(tm.groups)|
    ensures Settled(tm, st[|tm.managers|])
  {
    RoundCovers(tm, st);
    SecureIsOwn(tm, st[|tm.managers|]);
  }
}
