/** CoordinationManager: the held groups, and the loops that renew, shrink and grow them. A lease operation may raise;
    the exception leaves through every caller. */
module CoordinationManager {
  import opened Basics
  import opened Ordering
  import X = Failures
  import R = Records
  import F = FileLease
  import T = TickSteps
  import H = TickRaises

  class CoordinationManager<E> {
    const svc: H.RaisingService<E>
    const election: F.FileLease
    const leaderEnabled: bool
    const target: nat
    const mode: ShardMode
    const score: Sg -> int
    var held: set<Sg>
    var env: E

    constructor (svc: H.RaisingService<E>, env: E, election: F.FileLease, leaderEnabled: bool, target: nat,
                 mode: ShardMode, score: Sg -> int)
      ensures this.svc == svc && this.env == env && this.election == election && this.leaderEnabled == leaderEnabled
      ensures this.target == target && this.mode == mode && this.score == score
      ensures held == {}
    {
      this.svc, this.env, this.election, this.leaderEnabled := svc, env, election, leaderEnabled;
      this.target, this.mode, this.score := target, mode, score;
      held := {};
    }

    /** There is a record of an accepted id that can be read and is live. */
    ghost predicate Recorded(cell: R.Cell, failing: set<X.Call>, now: Time) {
      && cell.Written? && X.Read !in failing && election.id.accepts(cell.rec.owner)
      && now < cell.rec.expiresAt
    }

    /** Acquire or renew leadership, or only look when election is disabled. An exception ends the tick. */
    method TickLeader(at: seq<Time>, acquiring: set<X.Call>, renewing: set<X.Call>)
      returns (isLeader: bool, leader: R.Owner, answer: Option<R.Answer>)
      requires |at| == 4 && election.raises
      modifies election.file
      ensures leaderEnabled ==>
                && answer.Some?
                && (election.file.State(), answer.value)
                   == X.LeaderTurnFailing(election.id, old(election.file.State()), at, acquiring, renewing)
                && isLeader == answer.value.Owned() && leader == answer.value.owner
      ensures !leaderEnabled ==>
                && election.file.State() == old(election.file.State())
                && answer == None
                && var cell := old(election.file.cell);
                && leader == (if Recorded(cell, acquiring, at[0]) then cell.rec.owner else R.Owner(""))
                && (isLeader <==> Recorded(cell, acquiring, at[0]) && cell.rec.owner == election.id.me)
    {
      if leaderEnabled {
        var result := election.TryAcquire(at[0], at[1], acquiring);
        if result.Owned() && !result.kind.Acquired? {
          var renewal := election.Renew(at[2], at[3], renewing);
          if renewal.kind.Renewed? || renewal.kind.Raised? {
            result := renewal;
          }
        }
        return result.Owned(), result.owner, Some(result);
      }
      var (owned, shown) := R.Status(election.id, X.ReadFile(election.file.cell, acquiring), at[0]);
      R.StatusExactly(election.id, X.ReadFile(election.file.cell, acquiring), at[0]);
      return owned, if shown.Some? then shown.value.owner else R.NOBODY, None;
    }

    /** What the loops leave: the held groups, the world, and whether they ended in an exception. */
    ghost predicate Left(t: T.TickState<(E, bool)>, raised: bool)
      reads this
    {
      held == t.held && (env, raised) == t.env
    }

    /** Renews every held group in ascending order and drops those that fail. */
    method RenewHeld() returns (renewed: seq<Sg>, failed: seq<Sg>, raised: bool)
      modifies this
      ensures var t := T.Renewals(H.Halting(svc), (old(env), false), old(held));
              && Left(t, raised)
              && (!raised ==> t == T.TickState((env, false), held, renewed, [], [], failed, {}))
    {
      renewed, failed, raised := [], [], false;
      ghost var st := T.Begin((env, false), held);
      ghost var end := T.Renewals(H.Halting(svc), (env, false), held);
      var todo := Ascending(held);
      var i := 0;
      while i < |todo|
        invariant 0 <= i <= |todo|
        invariant st == T.TickState((env, false), held, renewed, [], [], failed, {})
        invariant T.RenewAll(H.Halting(svc), st, todo[i..]) == end
      {
        var g := todo[i];
        assert todo[i..] == [g] + todo[i + 1..];
        st := T.RenewOne(H.Halting(svc), st, g);
        var (e, reply) := svc.renew(env, g);
        env := e;
        if reply.Raises? {
          raised := true;
          H.RenewsNothing(svc, st, todo[i + 1..]);
          return;
        }
        if reply.Yes? {
          renewed := renewed + [g];
        } else {
          held := held - {g};
          failed := failed + [g];
        }
        i := i + 1;
      }
    }

    /** Releases from the highest id down until the target is met. */
    method ReleaseExtras(renewed: seq<Sg>, failed0: seq<Sg>)
      returns (released: seq<Sg>, failed: seq<Sg>, raised: bool)
      modifies this
      ensures var st := T.TickState((old(env), false), old(held), renewed, [], [], failed0, {});
              var t := T.Releases(H.Halting(svc), st, target);
              && Left(t, raised)
              && (!raised ==> t == T.TickState((env, false), held, renewed, released, [], failed, {}))
    {
      released, failed, raised := [], failed0, false;
      ghost var st := T.TickState((env, false), held, renewed, released, [], failed, {});
      ghost var end := T.Releases(H.Halting(svc), st, target);
      if |held| > target {
        var todo := Descending(held);
        var i := 0;
        while i < |todo|
          invariant 0 <= i <= |todo|
          invariant st == T.TickState((env, false), held, renewed, released, [], failed, {})
          invariant T.ReleaseDown(H.Halting(svc), st, todo[i..], target) == end
        {
          if |held| <= target {
            break;
          }
          var g := todo[i];
          NextRelease(H.Halting(svc), st, todo, i, target);
          st := T.ReleaseOne(H.Halting(svc), st, g);
          var (e, reply) := svc.release(env, g);
          env := e;
          if reply.Raises? {
            raised := true;
            H.ReleasesNothing(svc, st, todo[i + 1..], target);
            return;
          }
          if reply.Yes? {
            held := held - {g};
            released := released + [g];
          } else {
            failed := failed + [g];
          }
          i := i + 1;
        }
      }
    }

    /** One acquisition loop over `todo`, passing over held groups and those in `skip`. */
    method AcquireFrom(todo: seq<Sg>, skip: set<Sg>, ghost st0: T.TickState<(E, bool)>,
                       acquired0: seq<Sg>, failed0: seq<Sg>, attempted0: set<Sg>)
      returns (acquired: seq<Sg>, failed: seq<Sg>, attempted: set<Sg>, raised: bool)
      requires st0.env == (env, false) && st0.held == held
      requires st0.acquired == acquired0 && st0.failed == failed0 && st0.attempted == attempted0
      modifies this
      ensures var t := T.AcquireUp(H.Halting(svc), st0, todo, target, skip);
              && Left(t, raised)
              && (!raised ==>
                    t == st0.(env := (env, false), held := held, acquired := acquired, failed := failed,
                              attempted := attempted))
    {
      acquired, failed, attempted, raised := acquired0, failed0, attempted0, false;
      ghost var st := st0;
      var i := 0;
      while i < |todo|
        invariant 0 <= i <= |todo|
        invariant st == st0.(env := (env, false), held := held, acquired := acquired, failed := failed,
                             attempted := attempted)
        invariant T.AcquireUp(H.Halting(svc), st, todo[i..], target, skip)
               == T.AcquireUp(H.Halting(svc), st0, todo, target, skip)
      {
        if |held| >= target {
          break;
        }
        var g := todo[i];
        assert todo[i..] == [g] + todo[i + 1..];
        i := i + 1;
        if g in held || g in skip {
          continue;
        }
        st := T.AcquireOne(H.Halting(svc), st, g);
        attempted := attempted + {g};
        var (e, reply) := svc.acquire(env, g);
        env := e;
        if reply.Raises? {
          raised := true;
          H.AcquiresNothing(svc, st, todo[i..], target, skip);
          return;
        }
        if reply.Yes? {
          held := held + {g};
          acquired := acquired + [g];
        } else {
          failed := failed + [g];
        }
      }
    }

    /** The lease part of a tick. An exception ends it with the held groups as they are. */
    method TickLeases(groups: seq<Sg>)
      returns (renewed: seq<Sg>, released: seq<Sg>, acquired: seq<Sg>, failed: seq<Sg>, raised: bool)
      modifies this
      ensures var t := T.Tick(H.Halting(svc), (old(env), false), old(held), target,
                              Candidates(mode, score, groups), ById(groups));
              && Left(t, raised)
              && (!raised ==>
                    && renewed == t.renewed && released == t.released && acquired == t.acquired
                    && failed == t.failed)
    {
      released, acquired := [], [];
      renewed, failed, raised := RenewHeld();
      ghost var renewals := T.Renewals(H.Halting(svc), (old(env), false), old(held));
      if raised {
        H.RestStands(svc, renewals, target, Candidates(mode, score, groups), ById(groups));
        return;
      }
      released, failed, raised := ReleaseExtras(renewed, failed);
      ghost var st := T.Releases(H.Halting(svc), renewals, target);
      if raised {
        H.AcquiringStands(svc, st, target, Candidates(mode, score, groups), ById(groups));
        return;
      }
      if |held| < target {
        var candidates := Candidates(mode, score, groups);
        var attempted: set<Sg>;
        acquired, failed, attempted, raised := AcquireFrom(candidates, {}, st, [], failed, {});
        ghost var first := T.Acquisitions(H.Halting(svc), st, target, candidates);
        if raised {
          H.AcquiresNothing(svc, first, ById(groups), target, first.attempted);
          return;
        }
        if |held| < target {
          acquired, failed, attempted, raised :=
            AcquireFrom(ById(groups), attempted, first, acquired, failed, attempted);
        }
      }
    }

    /** Gives every held group back, in no particular order, until a release raises. */
    method ReleaseLeases() returns (released: seq<Sg>, failed: seq<Sg>, raised: bool)
      modifies this
      ensures exists order: seq<Sg> :: ReleasedIn(order, old(env), old(held), released, failed, raised)
      ensures held == old(held) - Elements(released) && Elements(released) <= old(held)
      ensures !raised ==> held <= Elements(failed)
    {
      released, failed, raised := [], [], false;
      var todo := held;
      ghost var order: seq<Sg> := [];
      ghost var st := T.Begin((env, false), held);
      while todo != {}
        invariant todo <= held
        invariant Distinct(order) && Elements(order) == old(held) - todo
        invariant todo <= old(held)
        invariant st == Each(H.Halting(svc), T.Begin((old(env), false), old(held)), order)
        invariant st == T.TickState((env, false), held, [], released, [], failed, {})
        decreases |todo|
      {
        var g :| g in todo;
        OneMore(H.Halting(svc), T.Begin((old(env), false), old(held)), order, todo, g);
        todo := todo - {g};
        order := order + [g];
        st := T.ReleaseOne(H.Halting(svc), st, g);
        var (e, reply) := svc.release(env, g);
        env := e;
        if reply.Raises? {
          raised := true;
          break;
        }
        if reply.Yes? {
          released := released + [g];
          held := held - {g};
        } else {
          failed := failed + [g];
        }
      }
      EachIsReleaseDown(H.Halting(svc), T.Begin((old(env), false), old(held)), order);
      assert ReleasedIn(order, old(env), old(held), released, failed, raised);
      ReleaseAllKeepsFailed(H.Halting(svc), (old(env), false), old(held), order);
    }

    /** The releases were made in this order; without an exception it goes through all groups. */
    ghost predicate ReleasedIn(order: seq<Sg>, env0: E, held0: set<Sg>, released: seq<Sg>, failed: seq<Sg>,
                               raised: bool)
      reads this
    {
      var t := T.ReleaseDown(H.Halting(svc), T.Begin((env0, false), held0), order, 0);
      && Distinct(order) && Elements(order) <= held0
      && Left(t, raised) && t.released == released
      && (!raised ==>
            && Elements(order) == held0
            && t == T.TickState((env, false), held, [], released, [], failed, {}))
    }

    method ReleaseLeader(tried: Time, failing: set<X.Call>) returns (answer: Option<R.Answer>)
      modifies election.file
      ensures leaderEnabled ==>
                && answer.Some?
                && (election.file.State(), answer.value)
                   == X.RunFailing(R.Release, election.id, election.raises, old(election.file.State()),
                                   tried, tried, failing)
      ensures !leaderEnabled ==> election.file.State() == old(election.file.State()) && answer == None
    {
      answer := None;
      if leaderEnabled {
        var result := election.Release(tried, failing);
        assert (election.file.State(), result)
            == X.RunFailing(R.Release, election.id, election.raises, old(election.file.State()), tried, tried, failing);
        answer := Some(result);
      }
    }

    /** Gives back every held group and, with election enabled, leadership; what fails to be released stays held. An
        exception leaves the rest, and leadership, unreleased. */
    method ReleaseAll(tried: Time, failing: set<X.Call>)
      returns (released: seq<Sg>, failed: seq<Sg>, leader: Option<R.Answer>, raised: bool)
      modifies this, election.file
      ensures held == old(held) - Elements(released) && Elements(released) <= old(held)
      ensures !raised ==> held <= Elements(failed)
      ensures leaderEnabled && !raised ==>
                && leader.Some?
                && (election.file.State(), leader.value)
                   == X.RunFailing(R.Release, election.id, election.raises, old(election.file.State()),
                                   tried, tried, failing)
      ensures !leaderEnabled || raised ==> election.file.State() == old(election.file.State()) && leader == None
    {
      leader := None;
      released, failed, raised := ReleaseLeases();
      if !raised {
        leader := ReleaseLeader(tried, failing);
      }
    }

    /** A whole tick. An exception of the election leaves the held groups alone. */
    method Tick(groups: seq<Sg>, at: seq<Time>, acquiring: set<X.Call>, renewing: set<X.Call>)
      returns (isLeader: bool, leaderId: R.Owner, renewed: seq<Sg>, released: seq<Sg>, acquired: seq<Sg>,
               failed: seq<Sg>, raised: bool)
      requires |at| == 4 && election.raises
      modifies this, election.file
      ensures var leader := X.LeaderTurnFailing(election.id, old(election.file.State()), at, acquiring, renewing);
              var t := T.Tick(H.Halting(svc), (old(env), false), old(held), target,
                              Candidates(mode, score, groups), ById(groups));
              && election.file.State() == (if leaderEnabled then leader.0 else old(election.file.State()))
              && (leaderEnabled && leader.1.kind.Raised? ==>
                    raised && held == old(held) && env == old(env))
              && (!(leaderEnabled && leader.1.kind.Raised?) ==> Left(t, raised))
              && (!raised ==>
                    && renewed == t.renewed && released == t.released && acquired == t.acquired
                    && failed == t.failed
                    && var cell := old(election.file.cell);
                       if leaderEnabled then isLeader == leader.1.Owned() && leaderId == leader.1.owner
                       else
                         && leaderId == (if Recorded(cell, acquiring, at[0]) then cell.rec.owner else R.Owner(""))
                         && (isLeader <==> Recorded(cell, acquiring, at[0]) && cell.rec.owner == election.id.me))
    {
      renewed, released, acquired, failed, raised := [], [], [], [], true;
      var answer;
      isLeader, leaderId, answer := TickLeader(at, acquiring, renewing);
      if answer.None? || !answer.value.kind.Raised? {
        renewed, released, acquired, failed, raised := TickLeases(groups);
      }
    }
  }

  function Each<E>(svc: T.LeaseService<E>, st: T.TickState<E>, order: seq<Sg>): T.TickState<E>
    decreases |order|
  {
    if order == [] then st else Each(svc, T.ReleaseOne(svc, st, order[0]), order[1..])
  }

  lemma SnocDistinct(s: seq<Sg>, g: Sg)
    requires Distinct(s) && g !in Elements(s)
    ensures Distinct(s + [g]) && Elements(s + [g]) == Elements(s) + {g}
  {
  }

  lemma NextRelease<E>(svc: T.LeaseService<E>, st: T.TickState<E>, todo: seq<Sg>, i: nat, target: nat)
    requires i < |todo| && |st.held| > target
    ensures T.ReleaseDown(svc, st, todo[i..], target)
         == T.ReleaseDown(svc, T.ReleaseOne(svc, st, todo[i]), todo[i + 1..], target)
  {
    assert todo[i..] == [todo[i]] + todo[i + 1..];
  }

  lemma OneMore<E>(svc: T.LeaseService<E>, st: T.TickState<E>, order: seq<Sg>, todo: set<Sg>, g: Sg)
    requires Distinct(order) && todo <= st.held && Elements(order) == st.held - todo && g in todo
    ensures Distinct(order + [g]) && Elements(order + [g]) == st.held - (todo - {g})
    ensures Each(svc, st, order + [g]) == T.ReleaseOne(svc, Each(svc, st, order), g)
    ensures |todo - {g}| < |todo|
  {
    EachSnoc(svc, st, order, g);
    SnocDistinct(order, g);
  }

  lemma {:induction false} EachSnoc<E>(svc: T.LeaseService<E>, st: T.TickState<E>, order: seq<Sg>, g: Sg)
    ensures Each(svc, st, order + [g]) == T.ReleaseOne(svc, Each(svc, st, order), g)
    decreases |order|
  {
    if order == [] {
      assert [] + [g] == [g];
    } else {
      EachSnoc(svc, T.ReleaseOne(svc, st, order[0]), order[1..], g);
      assert (order + [g])[1..] == order[1..] + [g];
    }
  }

  lemma {:induction false} EachIsReleaseDown<E>(svc: T.LeaseService<E>, st: T.TickState<E>, order: seq<Sg>)
    requires Distinct(order) && Elements(order) <= st.held
    ensures T.ReleaseDown(svc, st, order, 0) == Each(svc, st, order)
    decreases |order|
  {
    if order != [] {
      assert order == [order[0]] + order[1..];
      ConsElements(order[0], order[1..]);
      assert order[0] in Elements(order) && order[0] !in Elements(order[1..]);
      EachIsReleaseDown(svc, T.ReleaseOne(svc, st, order[0]), order[1..]);
    }
  }

  /** Giving groups back leaves all but the released ones, and of those gone through exactly the ones whose release
      failed. */
  lemma ReleaseAllKeepsFailed<E>(svc: T.LeaseService<E>, env: E, held: set<Sg>, order: seq<Sg>)
    requires Distinct(order) && Elements(order) <= held
    ensures var r := T.ReleaseDown(svc, T.Begin(env, held), order, 0);
            && r.held == held - Elements(r.released)
            && Elements(r.released) <= Elements(order)
            && r.held * Elements(order) <= Elements(r.failed)
  {
    var n := T.ReleaseShape(svc, T.Begin(env, held), order, 0);
    var r := T.ReleaseDown(svc, T.Begin(env, held), order, 0);
    assert r.released[0..] == r.released;
    T.PrefixElements(order[..n], order);
    if n == |order| {
      assert order[..n] == order;
    }
  }
}
