/** A tick in which a lease operation may raise: the exception leaves the loop it is in and ends the tick, with the
    held groups as they are at that moment. */
module TickRaises {
  import opened Basics
  import opened Ordering
  import opened TickSteps

  datatype Reply = Yes | No | Raises

  datatype RaisingService<!E> = RaisingService(
    renew: (E, Sg) -> (E, Reply),
    release: (E, Sg) -> (E, Reply),
    acquire: (E, Sg) -> (E, Reply))

  /** The service as seen by what is held: from the first exception on nothing outside changes, renewals keep their
      group, and releases and acquisitions are refused. */
  function Halting<E>(svc: RaisingService<E>): LeaseService<(E, bool)> {
    LeaseService(
      (e: (E, bool), g) =>
        if e.1 then (e, true)
        else
          var (e', reply) := svc.renew(e.0, g);
          ((e', reply.Raises?), reply.Yes? || reply.Raises?),
      (e: (E, bool), g) =>
        if e.1 then (e, false)
        else
          var (e', reply) := svc.release(e.0, g);
          ((e', reply.Raises?), reply.Yes?),
      (e: (E, bool), g) =>
        if e.1 then (e, false)
        else
          var (e', reply) := svc.acquire(e.0, g);
          ((e', reply.Raises?), reply.Yes?))
  }

  /** The service without its exceptions. */
  function Plain<E>(svc: RaisingService<E>): LeaseService<E> {
    LeaseService(
      (e: E, g) => var (e', reply) := svc.renew(e, g); (e', reply.Yes?),
      (e: E, g) => var (e', reply) := svc.release(e, g); (e', reply.Yes?),
      (e: E, g) => var (e', reply) := svc.acquire(e, g); (e', reply.Yes?))
  }

  /** A tick state nothing has been raised in. */
  function Unraised<E>(st: TickState<E>): TickState<(E, bool)> {
    TickState((st.env, false), st.held, st.renewed, st.released, st.acquired, st.failed, st.attempted)
  }

  // ---- after an exception ---------------------------------------------------------------------

  ghost predicate Stands<E>(st: TickState<(E, bool)>, r: TickState<(E, bool)>) {
    r.held == st.held && r.env == st.env
  }

  lemma {:induction false} RenewsNothing<E>(svc: RaisingService<E>, st: TickState<(E, bool)>, todo: seq<Sg>)
    requires st.env.1
    ensures Stands(st, RenewAll(Halting(svc), st, todo))
    decreases |todo|
  {
    if todo != [] {
      RenewsNothing(svc, RenewOne(Halting(svc), st, todo[0]), todo[1..]);
    }
  }

  lemma {:induction false} ReleasesNothing<E>(svc: RaisingService<E>, st: TickState<(E, bool)>, todo: seq<Sg>,
                                              target: nat)
    requires st.env.1
    ensures Stands(st, ReleaseDown(Halting(svc), st, todo, target))
    decreases |todo|
  {
    if todo != [] && |st.held| > target {
      ReleasesNothing(svc, ReleaseOne(Halting(svc), st, todo[0]), todo[1..], target);
    }
  }

  lemma {:induction false} AcquiresNothing<E>(svc: RaisingService<E>, st: TickState<(E, bool)>, todo: seq<Sg>,
                                              target: nat, skip: set<Sg>)
    requires st.env.1
    ensures Stands(st, AcquireUp(Halting(svc), st, todo, target, skip))
    decreases |todo|
  {
    if todo != [] && |st.held| < target {
      if todo[0] in st.held || todo[0] in skip {
        AcquiresNothing(svc, st, todo[1..], target, skip);
      } else {
        AcquiresNothing(svc, AcquireOne(Halting(svc), st, todo[0]), todo[1..], target, skip);
      }
    }
  }

  /** What is left of a tick once its releases have raised. */
  lemma AcquiringStands<E>(svc: RaisingService<E>, st: TickState<(E, bool)>, target: nat, candidates: seq<Sg>,
                           byId: seq<Sg>)
    requires st.env.1
    ensures Stands(st, Fallback(Halting(svc), st, Acquisitions(Halting(svc), st, target, candidates), target, byId))
  {
    AcquiresNothing(svc, st, candidates, target, {});
    var first := Acquisitions(Halting(svc), st, target, candidates);
    AcquiresNothing(svc, first, byId, target, first.attempted);
  }

  /** What is left of it once its renewals have. */
  lemma RestStands<E>(svc: RaisingService<E>, st: TickState<(E, bool)>, target: nat, candidates: seq<Sg>,
                      byId: seq<Sg>)
    requires st.env.1
    ensures var released := Releases(Halting(svc), st, target);
            Stands(st, Fallback(Halting(svc), released, Acquisitions(Halting(svc), released, target, candidates),
                                target, byId))
  {
    ReleasesNothing(svc, st, Descending(st.held), target);
    AcquiringStands(svc, Releases(Halting(svc), st, target), target, candidates, byId);
  }

  // ---- without an exception -------------------------------------------------------------------

  lemma {:induction false} RenewAllPlain<E>(svc: RaisingService<E>, st: TickState<E>, todo: seq<Sg>)
    requires !RenewAll(Halting(svc), Unraised(st), todo).env.1
    ensures RenewAll(Halting(svc), Unraised(st), todo) == Unraised(RenewAll(Plain(svc), st, todo))
    decreases |todo|
  {
    if todo != [] {
      var next := RenewOne(Halting(svc), Unraised(st), todo[0]);
      if next.env.1 {
        RenewsNothing(svc, next, todo[1..]);
        assert false;
      } else {
        assert next == Unraised(RenewOne(Plain(svc), st, todo[0]));
        RenewAllPlain(svc, RenewOne(Plain(svc), st, todo[0]), todo[1..]);
      }
    }
  }

  lemma {:induction false} ReleaseDownPlain<E>(svc: RaisingService<E>, st: TickState<E>, todo: seq<Sg>, target: nat)
    requires !ReleaseDown(Halting(svc), Unraised(st), todo, target).env.1
    ensures ReleaseDown(Halting(svc), Unraised(st), todo, target) == Unraised(ReleaseDown(Plain(svc), st, todo, target))
    decreases |todo|
  {
    if todo != [] && |st.held| > target {
      var next := ReleaseOne(Halting(svc), Unraised(st), todo[0]);
      if next.env.1 {
        ReleasesNothing(svc, next, todo[1..], target);
        assert false;
      } else {
        assert next == Unraised(ReleaseOne(Plain(svc), st, todo[0]));
        ReleaseDownPlain(svc, ReleaseOne(Plain(svc), st, todo[0]), todo[1..], target);
      }
    }
  }

  lemma {:induction false} AcquireUpPlain<E>(svc: RaisingService<E>, st: TickState<E>, todo: seq<Sg>, target: nat,
                                             skip: set<Sg>)
    requires !AcquireUp(Halting(svc), Unraised(st), todo, target, skip).env.1
    ensures AcquireUp(Halting(svc), Unraised(st), todo, target, skip)
            == Unraised(AcquireUp(Plain(svc), st, todo, target, skip))
    decreases |todo|
  {
    if todo != [] && |st.held| < target {
      if todo[0] in st.held || todo[0] in skip {
        AcquireUpPlain(svc, st, todo[1..], target, skip);
      } else {
        var next := AcquireOne(Halting(svc), Unraised(st), todo[0]);
        if next.env.1 {
          AcquiresNothing(svc, next, todo[1..], target, skip);
          assert false;
        } else {
          assert next == Unraised(AcquireOne(Plain(svc), st, todo[0]));
          AcquireUpPlain(svc, AcquireOne(Plain(svc), st, todo[0]), todo[1..], target, skip);
        }
      }
    }
  }

  /** Where nothing is raised the tick is the plain one. */
  lemma NothingRaised<E>(svc: RaisingService<E>, env: E, held: set<Sg>, target: nat, candidates: seq<Sg>,
                         byId: seq<Sg>)
    requires !Tick(Halting(svc), (env, false), held, target, candidates, byId).env.1
    ensures Tick(Halting(svc), (env, false), held, target, candidates, byId)
            == Unraised(Tick(Plain(svc), env, held, target, candidates, byId))
  {
    var st, plain := Renewals(Halting(svc), (env, false), held), Renewals(Plain(svc), env, held);
    if st.env.1 {
      RestStands(svc, st, target, candidates, byId);
      assert false;
    } else {
      assert Begin((env, false), held) == Unraised(Begin(env, held));
      RenewAllPlain(svc, Begin(env, held), Ascending(held));
      RestPlain(svc, plain, target, candidates, byId);
    }
  }

  lemma RestPlain<E>(svc: RaisingService<E>, st: TickState<E>, target: nat, candidates: seq<Sg>, byId: seq<Sg>)
    requires var released := Releases(Halting(svc), Unraised(st), target);
             !Fallback(Halting(svc), released, Acquisitions(Halting(svc), released, target, candidates), target,
                       byId).env.1
    ensures var released, plain := Releases(Halting(svc), Unraised(st), target), Releases(Plain(svc), st, target);
            Fallback(Halting(svc), released, Acquisitions(Halting(svc), released, target, candidates), target, byId)
            == Unraised(Fallback(Plain(svc), plain, Acquisitions(Plain(svc), plain, target, candidates), target, byId))
  {
    var h, p := Halting(svc), Plain(svc);
    var released, plain := Releases(h, Unraised(st), target), Releases(p, st, target);
    var first := Acquisitions(h, released, target, candidates);
    if released.env.1 {
      AcquiresNothing(svc, released, candidates, target, {});
    }
    if first.env.1 {
      AcquiresNothing(svc, first, byId, target, first.attempted);
    }
    if |st.held| > target {
      ReleaseDownPlain(svc, st, Descending(st.held), target);
    }
    if |plain.held| < target {
      AcquireUpPlain(svc, plain, candidates, target, {});
      var won := Acquisitions(p, plain, target, candidates);
      if |won.held| < target {
        AcquireUpPlain(svc, won, byId, target, won.attempted);
      }
    }
  }

  /** Raised or not, a tick gains only from its groups, grows at most to the target, and never shrinks what it has
      renewed, or not come to renew, below the target. */
  lemma RaisedTickIsBounded<E>(svc: RaisingService<E>, env: E, held: set<Sg>, target: nat,
                               mode: ShardMode, score: Sg -> int, groups: seq<Sg>)
    ensures var kept := Renewals(Halting(svc), (env, false), held).held;
            var r := Tick(Halting(svc), (env, false), held, target, Candidates(mode, score, groups), ById(groups));
            && kept <= held
            && r.held <= kept + Elements(groups)
            && (|r.held| <= target || r.held <= kept)
            && (|kept| >= target ==> |r.held| >= target && r.held <= kept)
            && (|kept| <= target ==> kept <= r.held)
  {
    var h := Halting(svc);
    var st := Renewals(h, (env, false), held);
    RenewalsHold(h, (env, false), held);
    TickWithoutFallback(h, (env, false), held, target, mode, score, groups);
    if |st.held| > target {
      DescendingOrder(st.held);
      var n := ReleaseShape(h, st, Descending(st.held), target);
    } else if |st.held| < target {
      var c := Candidates(mode, score, groups);
      SameElements(mode, score, groups);
      var n := AcquireShape(h, st, c, target, {});
      PrefixElements(c[..n], c);
    }
  }
}
