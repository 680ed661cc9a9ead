/** How many workers are planned for the enabled service groups, and that this many suffice. */
module ShardPlanner {
  import opened Basics
  import opened Ordering
  import C = Coverage

  datatype Descriptor = Descriptor(sgId: Sg, enabled: bool)

  function EnabledIds(descriptors: seq<Descriptor>): seq<Sg> {
    if descriptors == [] then []
    else (if descriptors[0].enabled then [descriptors[0].sgId] else []) + EnabledIds(descriptors[1..])
  }

  function WorkerCount(sgCount: int, target: int, cap: int): int {
    if sgCount <= 0 then 0
    else
      var count := if target <= 0 then sgCount else (sgCount + target - 1) / target;
      var atLeastOne := if count < 1 then 1 else count;
      if cap > 0 && cap < atLeastOne then cap else atLeastOne
  }

  /** Both shard modes order by id here. */
  function Plan(descriptors: seq<Descriptor>, mode: ShardMode, target: int, cap: int): (seq<Sg>, int) {
    var ordered := match mode
      case Score => ById(EnabledIds(descriptors))
      case Sequential => ById(EnabledIds(descriptors));
    (ordered, WorkerCount(|ordered|, target, cap))
  }

  /** The launcher's target for one manager: a worker pinned to a group wants one, nobody wants more than there are. */
  function EffectiveTarget(pinned: bool, requested: int, count: int): int {
    var wanted := if pinned then 1 else requested;
    if count <= 0 then 0 else if wanted < count then wanted else count
  }

  /** What the launcher gives each manager: in controller mode a requested 0 stands for all that is planned. */
  function LauncherTarget(controller: bool, pinned: bool, requested: int, count: int, planned: int): int {
    if controller && requested == 0 then planned else EffectiveTarget(pinned, requested, count)
  }

  lemma MulMonotone(a: int, b: int, t: int)
    requires a <= b && 0 <= t
    ensures a * t <= b * t
  {
    assert (b - a) * t >= 0;
  }

  /** Without a cap the count is the least number of workers whose targets add up to the groups, or one for each group
      when there is no target; a cap only lowers it. */
  lemma WorkerCountIsLeast(sgCount: int, target: int, cap: int, k: int)
    requires sgCount >= 0
    ensures cap <= 0 && target >= 1 ==> (WorkerCount(sgCount, target, cap) <= k <==> (k * target >= sgCount && k >= 0))
    ensures cap <= 0 && target <= 0 ==> WorkerCount(sgCount, target, cap) == sgCount
    ensures cap > 0 ==> WorkerCount(sgCount, target, cap) ==
                          if WorkerCount(sgCount, target, 0) < cap then WorkerCount(sgCount, target, 0) else cap
  {
    if sgCount > 0 && target >= 1 {
      var q, r := (sgCount + target - 1) / target, (sgCount + target - 1) % target;
      assert sgCount + target - 1 == q * target + r;
      assert q >= 1 by {
        if q <= 0 {
          MulMonotone(q, 0, target);
        }
      }
      if q <= k {
        MulMonotone(q, k, target);
      } else {
        MulMonotone(k, q - 1, target);
        assert (q - 1) * target == q * target - target;
      }
    } else if k >= 0 && target >= 1 {
      MulMonotone(0, k, target);
    }
  }

  /** What a caller can check beforehand: there is nothing to cover, or a positive target with no cap in its way, or a
      controller that stands in for a requested 0. */
  predicate Enough(controller: bool, sgCount: int, requested: int, cap: int) {
    || sgCount == 0
    || (requested >= 1 && (cap <= 0 || cap * requested >= sgCount))
    || (requested == 0 && controller)
  }

  lemma UncappedSuffices(sgCount: int, requested: int)
    requires requested >= 1 && sgCount >= 1
    ensures WorkerCount(sgCount, requested, 0) * EffectiveTarget(false, requested, sgCount) >= sgCount
    ensures requested >= sgCount ==> WorkerCount(sgCount, requested, 0) == 1
  {
    var k := WorkerCount(sgCount, requested, 0);
    WorkerCountIsLeast(sgCount, requested, 0, k);
    WorkerCountIsLeast(sgCount, requested, 0, 0);
    WorkerCountIsLeast(sgCount, requested, 0, 1);
    MulMonotone(1, k, sgCount);
  }

  /** The planned workers' targets add up to the groups exactly then. */
  lemma PlannedSuffices(controller: bool, sgCount: int, requested: int, cap: int)
    requires requested >= 0 && sgCount >= 0
    ensures WorkerCount(sgCount, requested, cap) * LauncherTarget(controller, false, requested, sgCount, sgCount)
            >= sgCount
            <==> Enough(controller, sgCount, requested, cap)
  {
    if sgCount > 0 && requested >= 1 {
      UncappedSuffices(sgCount, requested);
      WorkerCountIsLeast(sgCount, requested, cap, cap);
      WorkerCountIsLeast(sgCount, requested, 0, cap);
      if cap > 0 && requested > sgCount {
        MulMonotone(1, cap, requested);
      }
    } else if sgCount > 0 {
      WorkerCountIsLeast(sgCount, requested, cap, cap);
      WorkerCountIsLeast(sgCount, requested, 0, 0);
      MulMonotone(1, WorkerCount(sgCount, requested, cap), sgCount);
    }
  }

  lemma {:induction false} ElementsSize(s: seq<Sg>)
    ensures |Elements(s)| <= |s|
  {
    if s != [] {
      assert s == [s[0]] + s[1..];
      ConsElements(s[0], s[1..]);
      ElementsSize(s[1..]);
      C.SumSize({s[0]}, Elements(s[1..]));
    }
  }

  lemma {:induction false} DistinctSize(s: seq<Sg>)
    requires Distinct(s)
    ensures |Elements(s)| == |s|
  {
    if s != [] {
      assert s == [s[0]] + s[1..];
      ConsElements(s[0], s[1..]);
      assert s[0] !in Elements(s[1..]);
      DistinctSize(s[1..]);
      C.SumSize({s[0]}, Elements(s[1..]));
    }
  }

  /** As many workers as planned, capped or not, each with the launcher's target, partition the planned groups in one
      round when the plan is enough, and for a plan without duplicates only then. */
  lemma PlannedWorkersCover(tm: C.Team, st: seq<C.Stage>, descriptors: seq<Descriptor>, mode: ShardMode,
                            controller: bool, requested: int, cap: int)
    requires C.GoodTeam(tm) && C.Round(tm, st) && C.Starts(tm, st[0]) && requested >= 0
    requires (tm.groups, |tm.managers|) == Plan(descriptors, mode, requested, cap)
    requires tm.target == LauncherTarget(controller, false, requested, |tm.groups|, |tm.groups|)
    ensures Enough(controller, |tm.groups|, requested, cap) ==>
              C.Partition(st[|tm.managers|].held, Elements(tm.groups))
    ensures Distinct(tm.groups) ==>
              (C.Partition(st[|tm.managers|].held, Elements(tm.groups))
               <==> Enough(controller, |tm.groups|, requested, cap))
  {
    PlannedSuffices(controller, |tm.groups|, requested, cap);
    ElementsSize(tm.groups);
    if Distinct(tm.groups) {
      DistinctSize(tm.groups);
    }
    C.RoundCoversExactly(tm, st);
  }

  /** The enabled descriptors of a group. */
  ghost function EnabledAt(descriptors: seq<Descriptor>, sg: Sg): set<int> {
    set i | 0 <= i < |descriptors| && descriptors[i].enabled && descriptors[i].sgId == sg
  }

  lemma {:induction false} EnabledSnoc(descriptors: seq<Descriptor>)
    requires descriptors != []
    ensures var n := |descriptors| - 1;
            EnabledIds(descriptors)
            == EnabledIds(descriptors[..n]) + if descriptors[n].enabled then [descriptors[n].sgId] else []
  {
    var n := |descriptors| - 1;
    if n > 0 {
      var head := if descriptors[0].enabled then [descriptors[0].sgId] else [];
      var last := if descriptors[n].enabled then [descriptors[n].sgId] else [];
      var middle := EnabledIds(descriptors[1..][..n - 1]);
      assert descriptors[1..][..n - 1] == descriptors[..n][1..];
      EnabledSnoc(descriptors[1..]);
      assert EnabledIds(descriptors) == head + (middle + last);
      assert EnabledIds(descriptors[..n]) == head + middle;
    }
  }

  lemma {:induction false} EnabledMultiplicity(descriptors: seq<Descriptor>, sg: Sg)
    ensures multiset(EnabledIds(descriptors))[sg] == |EnabledAt(descriptors, sg)|
  {
    if descriptors != [] {
      var n := |descriptors| - 1;
      EnabledSnoc(descriptors);
      EnabledMultiplicity(descriptors[..n], sg);
      var before, last := EnabledAt(descriptors[..n], sg), descriptors[n];
      if last.enabled && last.sgId == sg {
        assert EnabledAt(descriptors, sg) == before + {n};
      } else {
        assert EnabledAt(descriptors, sg) == before;
      }
    }
  }

  lemma {:induction false} EnabledCount(descriptors: seq<Descriptor>)
    ensures |EnabledIds(descriptors)| == |set i | 0 <= i < |descriptors| && descriptors[i].enabled|
  {
    if descriptors != [] {
      var n := |descriptors| - 1;
      EnabledSnoc(descriptors);
      EnabledCount(descriptors[..n]);
      var front := descriptors[..n];
      var before := set i | 0 <= i < |front| && front[i].enabled;
      var now := set i | 0 <= i < |descriptors| && descriptors[i].enabled;
      assert now == if descriptors[n].enabled then before + {n} else before;
    }
  }

  /** The plan lists a group as often as an enabled descriptor names it, in ascending order whatever the mode, and
      counts
      the workers for as many groups as there are enabled descriptors. */
  lemma PlanOrder(descriptors: seq<Descriptor>, mode: ShardMode, target: int, cap: int)
    ensures var (groups, workers) := Plan(descriptors, mode, target, cap);
            && (forall sg: Sg :: multiset(groups)[sg] == |EnabledAt(descriptors, sg)|)
            && (forall sg: Sg :: sg in groups <==>
                  exists i :: 0 <= i < |descriptors| && descriptors[i].enabled && descriptors[i].sgId == sg)
            && (forall i, j :: 0 <= i < j < |groups| ==> groups[i] <= groups[j])
            && workers == WorkerCount(|set i | 0 <= i < |descriptors| && descriptors[i].enabled|, target, cap)
  {
    var groups, ids := Plan(descriptors, mode, target, cap).0, EnabledIds(descriptors);
    SortOrdered(_ => 0, ids);
    EnabledCount(descriptors);
    assert |groups| == |multiset(groups)| == |multiset(ids)| == |ids|;
    forall i, j | 0 <= i < j < |groups| ensures groups[i] <= groups[j] {
      assert Before(_ => 0, groups[i], groups[j]);
    }
    forall sg: Sg
      ensures multiset(groups)[sg] == |EnabledAt(descriptors, sg)|
      ensures sg in groups <==>
              exists i :: 0 <= i < |descriptors| && descriptors[i].enabled && descriptors[i].sgId == sg
    {
      EnabledMultiplicity(descriptors, sg);
      assert sg in groups <==> sg in multiset(groups);
      if i :| 0 <= i < |descriptors| && descriptors[i].enabled && descriptors[i].sgId == sg {
        assert i in EnabledAt(descriptors, sg);
      }
      if EnabledAt(descriptors, sg) != {} {
        var i :| i in EnabledAt(descriptors, sg);
      }
    }
  }

  /** A manager wants one group when it is pinned to one and what is requested otherwise, all that is planned when a
      controller is asked for none, and never more than there are. */
  lemma TargetExactly(controller: bool, pinned: bool, requested: int, count: nat, planned: int)
    requires requested >= 0
    ensures var target := LauncherTarget(controller, pinned, requested, count, planned);
            && (controller && requested == 0 ==> target == planned)
            && (!(controller && requested == 0) ==>
                  && 0 <= target <= count
                  && target <= (if pinned then 1 else requested)
                  && (target < count ==> target == if pinned then 1 else requested))
  {
  }
}
