/** One coordination tick over the leases, for any lease service: whatever the record files, other
    processes and busy locks make the operations answer. */
module TickSteps {
  import opened Basics
  import opened Ordering

  /** `E` is everything outside the manager; an operation on a group answers and may change it. */
  datatype LeaseService<!E> = LeaseService(
    renew: (E, Sg) -> (E, bool),
    release: (E, Sg) -> (E, bool),
    acquire: (E, Sg) -> (E, bool))

  datatype TickState<E> = TickState(
    env: E,
    held: set<Sg>,
    renewed: seq<Sg>,
    released: seq<Sg>,
    acquired: seq<Sg>,
    failed: seq<Sg>,
    attempted: set<Sg>)

  function Begin<E>(env: E, held: set<Sg>): TickState<E> {
    TickState(env, held, [], [], [], [], {})
  }

  function RenewOne<E>(svc: LeaseService<E>, st: TickState<E>, g: Sg): TickState<E> {
    var (env, ok) := svc.renew(st.env, g);
    if ok then st.(env := env, renewed := st.renewed + [g])
    else st.(env := env, held := st.held - {g}, failed := st.failed + [g])
  }

  function ReleaseOne<E>(svc: LeaseService<E>, st: TickState<E>, g: Sg): TickState<E> {
    var (env, ok) := svc.release(st.env, g);
    if ok then st.(env := env, held := st.held - {g}, released := st.released + [g])
    else st.(env := env, failed := st.failed + [g])
  }

  function AcquireOne<E>(svc: LeaseService<E>, st: TickState<E>, g: Sg): TickState<E> {
    var (env, ok) := svc.acquire(st.env, g);
    var st' := st.(env := env, attempted := st.attempted + {g});
    if ok then st'.(held := st.held + {g}, acquired := st.acquired + [g]) else st'.(failed := st.failed + [g])
  }

  function RenewAll<E>(svc: LeaseService<E>, st: TickState<E>, todo: seq<Sg>): TickState<E>
    decreases |todo|
  {
    if todo == [] then st else RenewAll(svc, RenewOne(svc, st, todo[0]), todo[1..])
  }

  function ReleaseDown<E>(svc: LeaseService<E>, st: TickState<E>, todo: seq<Sg>, target: nat): TickState<E>
    decreases |todo|
  {
    if todo == [] || |st.held| <= target then st
    else ReleaseDown(svc, ReleaseOne(svc, st, todo[0]), todo[1..], target)
  }

  /** Goes through `todo` until the target is met; held groups and those in `skip` are passed over. */
  function AcquireUp<E>(svc: LeaseService<E>, st: TickState<E>, todo: seq<Sg>, target: nat, skip: set<Sg>): TickState<E>
    decreases |todo|
  {
    if todo == [] || |st.held| >= target then st
    else if todo[0] in st.held || todo[0] in skip then AcquireUp(svc, st, todo[1..], target, skip)
    else AcquireUp(svc, AcquireOne(svc, st, todo[0]), todo[1..], target, skip)
  }

  function Renewals<E>(svc: LeaseService<E>, env: E, held: set<Sg>): TickState<E> {
    RenewAll(svc, Begin(env, held), Ascending(held))
  }

  function Releases<E>(svc: LeaseService<E>, st: TickState<E>, target: nat): TickState<E> {
    if |st.held| > target then ReleaseDown(svc, st, Descending(st.held), target) else st
  }

  function Acquisitions<E>(svc: LeaseService<E>, st: TickState<E>, target: nat, candidates: seq<Sg>): TickState<E> {
    if |st.held| < target then AcquireUp(svc, st, candidates, target, {}) else st
  }

  /** The second acquisition loop, over the groups by id, passing over what the first one attempted. */
  function Fallback<E>(svc: LeaseService<E>, before: TickState<E>, st: TickState<E>, target: nat,
                       byId: seq<Sg>): TickState<E>
  {
    if |before.held| < target && |st.held| < target then AcquireUp(svc, st, byId, target, st.attempted) else st
  }

  function Tick<E>(svc: LeaseService<E>, env: E, held: set<Sg>, target: nat, candidates: seq<Sg>,
                   byId: seq<Sg>): TickState<E>
  {
    var released := Releases(svc, Renewals(svc, env, held), target);
    Fallback(svc, released, Acquisitions(svc, released, target, candidates), target, byId)
  }

  // ---- renewing -----------------------------------------------------------------------------

  lemma Snoc(s: seq<Sg>, g: Sg)
    ensures Elements(s + [g]) == Elements(s) + {g}
  {
  }

  lemma {:induction false} RenewSets<E>(svc: LeaseService<E>, st: TickState<E>, todo: seq<Sg>)
    requires Distinct(todo) && Elements(todo) <= st.held && Elements(st.renewed) !! Elements(todo)
    ensures var r := RenewAll(svc, st, todo);
            && Elements(st.renewed) <= Elements(r.renewed) <= Elements(st.renewed) + Elements(todo)
            && Elements(r.failed) == Elements(st.failed) + (Elements(todo) - Elements(r.renewed))
            && r.held == st.held - (Elements(todo) - Elements(r.renewed))
            && r.released == st.released && r.acquired == st.acquired && r.attempted == st.attempted
    decreases |todo|
  {
    if todo != [] {
      var st' := RenewOne(svc, st, todo[0]);
      assert todo == [todo[0]] + todo[1..];
      ConsElements(todo[0], todo[1..]);
      assert todo[0] !in Elements(todo[1..]);
      Snoc(st.renewed, todo[0]);
      Snoc(st.failed, todo[0]);
      RenewSets(svc, st', todo[1..]);
    }
  }

  lemma StepsSnoc(s: seq<Sg>, g: Sg)
    requires Steps(true, s)
    ensures (forall x :: x in s ==> x < g) ==> Steps(true, s + [g])
  {
    assert forall i :: 0 <= i < |s| ==> s[i] in s;
  }

  lemma {:induction false} RenewLists<E>(svc: LeaseService<E>, st: TickState<E>, todo: seq<Sg>)
    requires Steps(true, todo) && Steps(true, st.renewed) && Steps(true, st.failed)
    requires forall x, y :: (x in st.renewed || x in st.failed) && y in todo ==> x < y
    ensures Steps(true, RenewAll(svc, st, todo).renewed) && Steps(true, RenewAll(svc, st, todo).failed)
    decreases |todo|
  {
    if todo != [] {
      assert todo[0] in todo;
      StepsSnoc(st.renewed, todo[0]);
      StepsSnoc(st.failed, todo[0]);
      RenewLists(svc, RenewOne(svc, st, todo[0]), todo[1..]);
    }
  }

  /** The renewed and the failed groups are listed in ascending order. */
  lemma RenewalOrder<E>(svc: LeaseService<E>, env: E, held: set<Sg>)
    ensures var r := Renewals(svc, env, held);
            forall i, j :: 0 <= i < j ==>
              && (j < |r.renewed| ==> r.renewed[i] < r.renewed[j])
              && (j < |r.failed| ==> r.failed[i] < r.failed[j])
  {
    AscendingOrder(held);
    RenewLists(svc, Begin(env, held), Ascending(held));
  }

  /** What a sequence of renewals starting from `held` leaves. */
  ghost predicate RenewedFrom<E>(held: set<Sg>, r: TickState<E>) {
    && r.held == Elements(r.renewed) <= held
    && Elements(r.failed) == held - r.held
    && r.released == [] && r.acquired == [] && r.attempted == {}
  }

  lemma RenewAllHolds<E>(svc: LeaseService<E>, env: E, held: set<Sg>, todo: seq<Sg>)
    requires Distinct(todo) && Elements(todo) == held
    ensures RenewedFrom(held, RenewAll(svc, Begin(env, held), todo))
  {
    RenewSets(svc, Begin(env, held), todo);
  }

  /** After the renewals a manager holds exactly what was renewed. */
  lemma RenewalsHold<E>(svc: LeaseService<E>, env: E, held: set<Sg>)
    ensures RenewedFrom(held, Renewals(svc, env, held))
  {
    AscendingOrder(held);
    RenewAllHolds(svc, env, held, Ascending(held));
  }

  // ---- releasing ----------------------------------------------------------------------------

  /** Releasing works through the first `n` of `todo`: each is released or failed, the rest are kept untried,
      and none of it takes the held groups below the target. */
  ghost predicate ReleasedPrefix<E>(st: TickState<E>, r: TickState<E>, todo: seq<Sg>, target: nat, n: nat) {
    && n <= |todo|
    && Elements(todo[..n]) <= Elements(r.released) + Elements(r.failed)
    && Elements(todo[n..]) <= r.held
    && st.released <= r.released && st.failed <= r.failed
    && Elements(r.released[|st.released|..]) <= st.held
    && Elements(r.released[|st.released|..]) <= Elements(todo[..n])
    && r.held == st.held - Elements(r.released[|st.released|..])
    && |r.held| >= target
    && (n < |todo| ==> |r.held| == target)
    && (r.failed == st.failed ==> Elements(todo[..n]) <= Elements(r.released))
    && r.renewed == st.renewed && r.acquired == st.acquired && r.attempted == st.attempted
  }

  lemma TakeCons(s: seq<Sg>, m: nat)
    requires s != [] && m + 1 <= |s|
    ensures s[..m + 1] == [s[0]] + s[1..][..m] && s[m + 1..] == s[1..][m..]
    ensures Elements(s[..m + 1]) == {s[0]} + Elements(s[1..][..m])
  {
    assert s[..m + 1] == [s[0]] + s[1..][..m];
    ConsElements(s[0], s[1..][..m]);
  }

  lemma SuffixOfSnoc(a: seq<Sg>, g: Sg, b: seq<Sg>)
    requires a + [g] <= b
    ensures a <= b && Elements(b[|a|..]) == {g} + Elements(b[|a| + 1..])
    ensures g in Elements(b)
  {
    assert b[|a|..] == [g] + b[|a| + 1..];
    ConsElements(g, b[|a| + 1..]);
    assert b[|a|] == g;
  }

  lemma ReleaseCons<E>(svc: LeaseService<E>, st: TickState<E>, r: TickState<E>, todo: seq<Sg>, target: nat, m: nat)
    requires todo != [] && todo[0] in st.held
    requires ReleasedPrefix(ReleaseOne(svc, st, todo[0]), r, todo[1..], target, m)
    ensures ReleasedPrefix(st, r, todo, target, m + 1)
  {
    var g, st' := todo[0], ReleaseOne(svc, st, todo[0]);
    TakeCons(todo, m);
    if st'.released == st.released + [g] {
      assert st'.held == st.held - {g} && st'.failed == st.failed;
      SuffixOfSnoc(st.released, g, r.released);
    } else {
      assert st'.held == st.held && st'.released == st.released && st'.failed == st.failed + [g];
      SuffixOfSnoc(st.failed, g, r.failed);
    }
  }

  lemma {:induction false} ReleaseShape<E>(svc: LeaseService<E>, st: TickState<E>, todo: seq<Sg>, target: nat)
    returns (n: nat)
    requires Distinct(todo) && Elements(todo) <= st.held
    requires |st.held| >= target
    ensures ReleasedPrefix(st, ReleaseDown(svc, st, todo, target), todo, target, n)
    decreases |todo|
  {
    if todo == [] || |st.held| <= target {
      n := 0;
      assert todo[..0] == [] && todo[0..] == todo;
    } else {
      var st' := ReleaseOne(svc, st, todo[0]);
      assert todo == [todo[0]] + todo[1..];
      ConsElements(todo[0], todo[1..]);
      assert todo[0] in Elements(todo) && todo[0] !in Elements(todo[1..]);
      assert |st.held - {todo[0]}| == |st.held| - 1;
      n := ReleaseShape(svc, st', todo[1..], target);
      ReleaseCons(svc, st, ReleaseDown(svc, st', todo[1..], target), todo, target, n);
      n := n + 1;
    }
  }

  // ---- acquiring ----------------------------------------------------------------------------

  /** The groups an acquisition phase was refused. */
  ghost function Refused<E>(st: TickState<E>, r: TickState<E>): set<Sg>
    requires |st.failed| <= |r.failed|
  {
    Elements(r.failed[|st.failed|..])
  }

  /** The groups an acquisition phase gained. */
  ghost function Gained<E>(st: TickState<E>, r: TickState<E>): set<Sg>
    requires |st.acquired| <= |r.acquired|
  {
    Elements(r.acquired[|st.acquired|..])
  }

  /** Acquiring works through the first `n` of `todo`: each is held or refused or skipped, and it stops early
      only at the target. */
  ghost predicate AcquiredPrefix<E>(st: TickState<E>, r: TickState<E>, todo: seq<Sg>, target: nat, skip: set<Sg>,
                                    n: nat)
  {
    && n <= |todo|
    && st.failed <= r.failed && st.acquired <= r.acquired
    && Elements(todo[..n]) <= r.held + Refused(st, r) + skip
    && (n < |todo| ==> |r.held| >= target)
    && (|r.held| <= target || r == st)
    && r.held == st.held + Gained(st, r)
    && st.held !! Gained(st, r)
    && Gained(st, r) <= Elements(todo[..n])
    && r.attempted == st.attempted + Gained(st, r) + Refused(st, r)
    && r.renewed == st.renewed && r.released == st.released
  }

  lemma {:induction false} AcquireShape<E>(svc: LeaseService<E>, st: TickState<E>, todo: seq<Sg>, target: nat,
                                           skip: set<Sg>)
    returns (n: nat)
    ensures AcquiredPrefix(st, AcquireUp(svc, st, todo, target, skip), todo, target, skip, n)
    decreases |todo|
  {
    if todo == [] || |st.held| >= target {
      n := 0;
      assert todo[..0] == [];
    } else if todo[0] in st.held || todo[0] in skip {
      n := AcquireShape(svc, st, todo[1..], target, skip);
      AcquireShift(st, AcquireUp(svc, st, todo[1..], target, skip), todo, target, skip, n);
      n := n + 1;
    } else {
      var st' := AcquireOne(svc, st, todo[0]);
      n := AcquireShape(svc, st', todo[1..], target, skip);
      AcquireCons(svc, st, AcquireUp(svc, st', todo[1..], target, skip), todo, target, skip, n);
      n := n + 1;
    }
  }

  lemma AcquireShift<E>(st: TickState<E>, r: TickState<E>, todo: seq<Sg>, target: nat, skip: set<Sg>, m: nat)
    requires todo != [] && |st.held| < target && (todo[0] in st.held || todo[0] in skip)
    requires AcquiredPrefix(st, r, todo[1..], target, skip, m)
    ensures AcquiredPrefix(st, r, todo, target, skip, m + 1)
  {
    TakeCons(todo, m);
  }

  lemma AcquireCons<E>(svc: LeaseService<E>, st: TickState<E>, r: TickState<E>, todo: seq<Sg>, target: nat,
                       skip: set<Sg>, m: nat)
    requires todo != [] && |st.held| < target && todo[0] !in st.held && todo[0] !in skip
    requires AcquiredPrefix(AcquireOne(svc, st, todo[0]), r, todo[1..], target, skip, m)
    ensures AcquiredPrefix(st, r, todo, target, skip, m + 1)
  {
    var st' := AcquireOne(svc, st, todo[0]);
    if st'.acquired == st.acquired + [todo[0]] {
      AcquireWon(st, st', r, todo, target, skip, m);
    } else {
      AcquireLost(st, st', r, todo, target, skip, m);
    }
  }

  lemma WonSets(g: Sg, before: set<Sg>, gained: set<Sg>, refused: set<Sg>, attempted: set<Sg>)
    requires g !in before && before + {g} !! gained
    ensures (before + {g}) + gained == before + ({g} + gained)
    ensures before !! ({g} + gained)
    ensures attempted + {g} + gained + refused == attempted + ({g} + gained) + refused
    ensures |before + {g}| == |before| + 1
  {
  }

  lemma AcquireWon<E>(st: TickState<E>, st': TickState<E>, r: TickState<E>, todo: seq<Sg>, target: nat, skip: set<Sg>,
                      m: nat)
    requires todo != [] && |st.held| < target && todo[0] !in st.held
    requires AcquiredPrefix(st', r, todo[1..], target, skip, m)
    requires st'.held == st.held + {todo[0]} && st'.acquired == st.acquired + [todo[0]] && st'.failed == st.failed
    requires st'.attempted == st.attempted + {todo[0]} && st'.renewed == st.renewed && st'.released == st.released
    ensures AcquiredPrefix(st, r, todo, target, skip, m + 1)
  {
    TakeCons(todo, m);
    SuffixOfSnoc(st.acquired, todo[0], r.acquired);
    WonSets(todo[0], st.held, Gained(st', r), Refused(st', r), st.attempted);
    assert Gained(st, r) == {todo[0]} + Gained(st', r);
    assert todo[0] in r.held;
  }

  lemma LostSets(g: Sg, done: set<Sg>, held: set<Sg>, refused: set<Sg>, skip: set<Sg>, gained: set<Sg>,
                 attempted: set<Sg>)
    requires done <= held + refused + skip && gained <= done
    ensures gained <= {g} + done <= held + ({g} + refused) + skip
    ensures attempted + {g} + gained + refused == attempted + gained + ({g} + refused)
  {
  }

  lemma AcquireLost<E>(st: TickState<E>, st': TickState<E>, r: TickState<E>, todo: seq<Sg>, target: nat,
                       skip: set<Sg>, m: nat)
    requires todo != [] && |st.held| < target
    requires AcquiredPrefix(st', r, todo[1..], target, skip, m)
    requires st'.held == st.held && st'.acquired == st.acquired && st'.failed == st.failed + [todo[0]]
    requires st'.attempted == st.attempted + {todo[0]} && st'.renewed == st.renewed && st'.released == st.released
    ensures AcquiredPrefix(st, r, todo, target, skip, m + 1)
  {
    TakeCons(todo, m);
    SuffixOfSnoc(st.failed, todo[0], r.failed);
    var g, done := todo[0], Elements(todo[1..][..m]);
    LostSets(g, done, r.held, Refused(st', r), skip, Gained(st', r), st.attempted);
    assert Gained(st, r) == Gained(st', r);
    assert Refused(st, r) == {g} + Refused(st', r);
    assert Elements(todo[..m + 1]) == {g} + done;
  }

  // ---- the whole tick -------------------------------------------------------------------------

  /** When everything in `todo` is held or to be skipped, acquiring does nothing. */
  lemma {:induction false} NothingToAcquire<E>(svc: LeaseService<E>, st: TickState<E>, todo: seq<Sg>, target: nat,
                                               skip: set<Sg>)
    requires Elements(todo) <= st.held + skip
    ensures AcquireUp(svc, st, todo, target, skip) == st
  {
    if todo != [] {
      assert todo == [todo[0]] + todo[1..];
      ConsElements(todo[0], todo[1..]);
      assert todo[0] in Elements(todo);
      NothingToAcquire(svc, st, todo[1..], target, skip);
    }
  }

  /** Greedy and maximal: the acquisition phase looks at exactly the first `n` candidates, each of which is held
      at the end or was refused, and acquires nothing else; below the target it has looked at all of them. */
  lemma Greedy<E>(svc: LeaseService<E>, st: TickState<E>, target: nat, candidates: seq<Sg>) returns (n: nat)
    requires |st.held| < target
    ensures var r := Acquisitions(svc, st, target, candidates);
            && AcquiredPrefix(st, r, candidates, target, {}, n)
            && Elements(candidates[..n]) <= r.held + Refused(st, r)
            && (|r.held| < target ==> n == |candidates| && Elements(candidates) <= r.held + r.attempted)
            && |r.held| <= target
  {
    n := AcquireShape(svc, st, candidates, target, {});
    var r := Acquisitions(svc, st, target, candidates);
    if n == |candidates| {
      assert candidates[..n] == candidates;
    }
  }

  /** The second acquisition loop never attempts anything, duplicates in the input included. */
  lemma FallbackIsIdle<E>(svc: LeaseService<E>, st: TickState<E>, target: nat, candidates: seq<Sg>, byId: seq<Sg>)
    requires Elements(byId) <= Elements(candidates)
    ensures var r := Acquisitions(svc, st, target, candidates);
            Fallback(svc, st, r, target, byId) == r
  {
    if |st.held| < target {
      var n := Greedy(svc, st, target, candidates);
      var r := Acquisitions(svc, st, target, candidates);
      if |r.held| < target {
        NothingToAcquire(svc, r, byId, target, r.attempted);
      }
    }
  }

  lemma TickWithoutFallback<E>(svc: LeaseService<E>, env: E, held: set<Sg>, target: nat,
                               mode: ShardMode, score: Sg -> int, groups: seq<Sg>)
    ensures var released := Releases(svc, Renewals(svc, env, held), target);
            Tick(svc, env, held, target, Candidates(mode, score, groups), ById(groups))
            == Acquisitions(svc, released, target, Candidates(mode, score, groups))
  {
    SameElements(mode, score, groups);
    SameElements(Sequential, score, groups);
    FallbackIsIdle(svc, Releases(svc, Renewals(svc, env, held), target), target,
                   Candidates(mode, score, groups), ById(groups));
  }

  /** The bookkeeping of one tick: what is held afterwards is what was renewed and not released, and what was
      acquired; releasing and acquiring exclude each other; the target bounds growth, and releasing stops at it. */
  ghost predicate Balanced<E>(held: set<Sg>, r: TickState<E>, target: nat, groups: set<Sg>) {
    var renewed, released, acquired := Elements(r.renewed), Elements(r.released), Elements(r.acquired);
    && renewed <= held && released <= renewed && acquired <= groups
    && (renewed - released) !! acquired
    && r.held == (renewed - released) + acquired
    && (r.released == [] || r.acquired == [])
    && (|r.held| <= target || r.held <= held)
    && (|renewed| >= target ==> |r.held| >= target)
    && held - renewed <= Elements(r.failed)
  }

  lemma PrefixElements(a: seq<Sg>, b: seq<Sg>)
    requires a <= b
    ensures Elements(a) <= Elements(b)
  {
  }

  lemma BalancedRelease<E>(held: set<Sg>, st: TickState<E>, r: TickState<E>, todo: seq<Sg>, target: nat,
                           groups: set<Sg>, n: nat)
    requires RenewedFrom(held, st) && ReleasedPrefix(st, r, todo, target, n)
    ensures Balanced(held, r, target, groups)
  {
    PrefixElements(st.failed, r.failed);
    assert r.released[0..] == r.released;
  }

  lemma BalancedAcquire<E>(held: set<Sg>, st: TickState<E>, r: TickState<E>, todo: seq<Sg>, target: nat, n: nat)
    requires RenewedFrom(held, st) && AcquiredPrefix(st, r, todo, target, {}, n)
    requires |st.held| < target
    ensures Balanced(held, r, target, Elements(todo))
  {
    PrefixElements(st.failed, r.failed);
    PrefixElements(todo[..n], todo);
    assert r.acquired[0..] == r.acquired && Gained(st, r) == Elements(r.acquired);
    assert Elements(r.released) == {} && Elements(r.renewed) - {} == st.held;
  }

  lemma TickAccounting<E>(svc: LeaseService<E>, env: E, held: set<Sg>, target: nat,
                          mode: ShardMode, score: Sg -> int, groups: seq<Sg>)
    ensures Balanced(held, Tick(svc, env, held, target, Candidates(mode, score, groups), ById(groups)), target,
                     Elements(groups))
  {
    TickWithoutFallback(svc, env, held, target, mode, score, groups);
    RenewalsHold(svc, env, held);
    var st := Renewals(svc, env, held);
    if |st.held| > target {
      DescendingOrder(st.held);
      var n := ReleaseShape(svc, st, Descending(st.held), target);
      BalancedRelease(held, st, Releases(svc, st, target), Descending(st.held), target, Elements(groups), n);
    } else if |st.held| < target {
      var c := Candidates(mode, score, groups);
      SameElements(mode, score, groups);
      var n := AcquireShape(svc, st, c, target, {});
      BalancedAcquire(held, st, Acquisitions(svc, st, target, c), c, target, n);
    }
  }

  /** From the highest id down: a kept group above a released one has failed to be released, and when no release
      fails exactly the target-many smallest of the renewed groups stay. */
  ghost predicate TopReleased<E>(st: TickState<E>, r: TickState<E>, target: nat) {
    && (forall kept, gone :: kept in r.held && gone in st.held - r.held && kept > gone ==> kept in r.failed)
    && (r.failed == st.failed ==>
          && |r.held| == target
          && forall kept, gone :: kept in r.held && gone in st.held - r.held ==> kept < gone)
  }

  lemma Placed(s: seq<Sg>, n: nat, i: nat)
    requires n <= |s| && i < |s|
    ensures if i < n then s[i] in Elements(s[..n]) else s[i] in Elements(s[n..])
  {
    assert if i < n then s[..n][i] == s[i] else s[n..][i - n] == s[i];
  }

  lemma ReleasedFromTop<E>(st: TickState<E>, r: TickState<E>, todo: seq<Sg>, target: nat, n: nat)
    requires Elements(todo) == st.held && Steps(false, todo) && st.released == [] && target < |st.held|
    requires ReleasedPrefix(st, r, todo, target, n)
    ensures TopReleased(st, r, target)
  {
    assert r.released[0..] == r.released;
    forall kept, gone | kept in r.held && gone in st.held - r.held
      ensures kept > gone ==> kept in r.failed
      ensures r.failed == st.failed ==> kept < gone
    {
      var i :| 0 <= i < |todo| && todo[i] == kept;
      var j :| 0 <= j < |todo| && todo[j] == gone;
      Placed(todo, n, i);
      Placed(todo, n, j);
    }
    if r.failed == st.failed && n == |todo| {
      assert todo[..n] == todo;
      assert r.held == {};
    }
  }

  lemma ReleaseOrder<E>(svc: LeaseService<E>, env: E, held: set<Sg>, target: nat)
    requires |Renewals(svc, env, held).held| > target
    ensures TopReleased(Renewals(svc, env, held), Releases(svc, Renewals(svc, env, held), target), target)
  {
    RenewalsHold(svc, env, held);
    var st := Renewals(svc, env, held);
    DescendingOrder(st.held);
    var n := ReleaseShape(svc, st, Descending(st.held), target);
    ReleasedFromTop(st, Releases(svc, st, target), Descending(st.held), target, n);
  }
}
