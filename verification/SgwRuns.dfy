/** The refresh cache over whole runs: cycles, requests, counter resets, changes of the group list and restarts of the
    manager over its store, in any order. */
module SgwRuns {
  import opened Basics
  import opened SgwCache
  import opened SgwManager

  datatype Event =
    | CycleAt(now: Time, heavy: HeavyPolls, light: LightPolls)
    | AskAt(sg: Sg, mode: Mode, now: Time)
    | ResetAt(sg: Sg)
    | RegroupAt(groups: seq<Sg>, draw: Sg -> int)
    | RestartAt(draw: Sg -> int)

  /** The manager, the latest time it was told, and per group the requests accepted since the last cycle that
      processed it and the times of its successful heavy refreshes. */
  datatype Track = Track(s: Sgw, clock: Time, asked: map<Sg, seq<Mode>>, heavyTimes: map<Sg, seq<Time>>)

  function Asked(t: Track, sg: Sg): seq<Mode> {
    if sg in t.asked then t.asked[sg] else []
  }

  function HeavyTimes(t: Track, sg: Sg): seq<Time> {
    if sg in t.heavyTimes then t.heavyTimes[sg] else []
  }

  /** The clock does not go back, and a cycle's time is not negative. */
  ghost predicate InOrder(t: Track, ev: Event) {
    match ev
    case CycleAt(now, _, _) => t.clock <= now && 0.0 <= now
    case AskAt(_, _, now) => t.clock <= now
    case ResetAt(_) => true
    case RegroupAt(_, _) => true
    case RestartAt(_) => true
  }

  ghost function Noted(t: Track, s': Sgw, sg: Sg, report: Report, now: Time): Track {
    Track(s', now, t.asked[sg := []], t.heavyTimes[sg := HeavyTimesAfter(HeavyTimes(t, sg), report, now)])
  }

  ghost function TrackCycle(cfg: Settings, t: Track, now: Time, heavy: HeavyPolls, light: LightPolls, i: nat): Track
    requires i <= |t.s.groups|
    decreases |t.s.groups| - i
  {
    if i == |t.s.groups| then t.(clock := now)
    else
      var (s', report) := Handle(cfg, t.s, t.s.groups[i], now, heavy(i), light(i));
      TrackCycle(cfg, Noted(t, s', t.s.groups[i], report, now), now, heavy, light, i + 1)
  }

  /** What an event does; a cycle of a disabled cache, and requests and resets for groups not in the list, do nothing.
      */
  ghost function After(cfg: Settings, t: Track, ev: Event): Track {
    match ev
    case CycleAt(now, heavy, light) =>
      if cfg.enabled then TrackCycle(cfg, t, now, heavy, light, 0) else t.(clock := now)
    case AskAt(sg, mode, now) =>
      if sg in t.s.groups && Accepts(cfg, GroupOf(t.s, sg), mode, now) then
        Track(WithGroup(t.s, sg, Ask(cfg, GroupOf(t.s, sg), mode, now)), now,
              t.asked[sg := Asked(t, sg) + [mode]], t.heavyTimes)
      else t.(clock := now)
    case ResetAt(sg) =>
      if sg in t.s.groups then t.(s := t.s.(counts := t.s.counts[sg := Counts(0, 0)])) else t
    case RegroupAt(groups, draw) =>
      t.(s := Regroup(cfg, t.s, groups, draw))
    case RestartAt(draw) =>
      t.(s := Regroup(cfg, NewManager(t.s.entries), t.s.groups, draw), asked := map[])
  }

  ghost predicate Run(cfg: Settings, t: Track, events: seq<Event>)
    decreases |events|
  {
    events == [] || (InOrder(t, events[0]) && Run(cfg, After(cfg, t, events[0]), events[1..]))
  }

  ghost function Final(cfg: Settings, t: Track, events: seq<Event>): Track
    decreases |events|
  {
    if events == [] then t else Final(cfg, After(cfg, t, events[0]), events[1..])
  }

  /** A manager as constructed, at time 0. */
  function Start(cfg: Settings, groups: seq<Sg>, draw: Sg -> int): Track {
    Track(Regroup(cfg, NewManager(map[]), groups, draw), 0.0, map[], map[])
  }

  /** Nothing in the cache is stale when the age limit leaves room for the light interval and the jitter. */
  ghost predicate Fresh(cfg: Settings, s: Sgw, sg: Sg) {
    cfg.cacheMaxAge >= cfg.pollLight + cfg.jitterMax ==>
      sg in s.entries ==> s.entries[sg].meta.state != STALE
  }

  ghost predicate Inv(cfg: Settings, t: Track) {
    && GoodSettings(cfg)
    && Jittered(cfg, t.s)
    && (forall sg :: GroupOk(cfg, GroupOf(t.s, sg), t.clock, Asked(t, sg), HeavyTimes(t, sg)))
    && (forall sg :: Fresh(cfg, t.s, sg))
  }

  lemma StartInv(cfg: Settings, groups: seq<Sg>, draw: Sg -> int)
    requires GoodSettings(cfg)
    ensures Inv(cfg, Start(cfg, groups, draw))
  {
  }

  lemma HandleGroup(cfg: Settings, s: Sgw, sg: Sg, now: Time, heavy: Polled<Payload>, light: Polled<seq<Modem>>)
    ensures var (s', report) := Handle(cfg, s, sg, now, heavy, light);
            && (GroupOf(s', sg), report) == Process(cfg, JitterOf(s, sg), now, GroupOf(s, sg), heavy, light)
            && (forall h :: h != sg ==> GroupOf(s', h) == GroupOf(s, h))
            && s'.groups == s.groups && s'.jitter == s.jitter
  {
  }

  /** One group's turn keeps everything, and its report is not stale. */
  lemma TurnKeeps(cfg: Settings, t: Track, sg: Sg, now: Time, heavy: Polled<Payload>, light: Polled<seq<Modem>>)
    requires Inv(cfg, t) && t.clock <= now && sg in t.s.groups
    ensures var (s', report) := Handle(cfg, t.s, sg, now, heavy, light);
            && Inv(cfg, Noted(t, s', sg, report, now))
            && (cfg.cacheMaxAge >= cfg.pollLight + cfg.jitterMax ==> !report.stale)
  {
    var (s', report) := Handle(cfg, t.s, sg, now, heavy, light);
    HandleGroup(cfg, t.s, sg, now, heavy, light);
    TurnKeepsGroup(cfg, t, sg, now, heavy, light, s', report);
    var t' := Noted(t, s', sg, report, now);
    forall h ensures GroupOk(cfg, GroupOf(t'.s, h), t'.clock, Asked(t', h), HeavyTimes(t', h)) && Fresh(cfg, t'.s, h) {
      assert GroupOk(cfg, GroupOf(t.s, h), t.clock, Asked(t, h), HeavyTimes(t, h)) && Fresh(cfg, t.s, h);
      if h != sg {
        LaterOk(cfg, GroupOf(t.s, h), t.clock, now, Asked(t, h), HeavyTimes(t, h));
        assert GroupOf(s', h).entry == GroupOf(t.s, h).entry;
      }
    }
  }

  lemma TurnKeepsGroup(cfg: Settings, t: Track, sg: Sg, now: Time, heavy: Polled<Payload>, light: Polled<seq<Modem>>,
                       s': Sgw, report: Report)
    requires GoodSettings(cfg) && Jittered(cfg, t.s) && t.clock <= now && sg in t.s.groups
    requires GroupOk(cfg, GroupOf(t.s, sg), t.clock, Asked(t, sg), HeavyTimes(t, sg))
    requires (GroupOf(s', sg), report) == Process(cfg, JitterOf(t.s, sg), now, GroupOf(t.s, sg), heavy, light)
    ensures GroupOk(cfg, GroupOf(s', sg), now, [], HeavyTimesAfter(HeavyTimes(t, sg), report, now))
    ensures Fresh(cfg, s', sg) && (cfg.cacheMaxAge >= cfg.pollLight + cfg.jitterMax ==> !report.stale)
  {
    LaterOk(cfg, GroupOf(t.s, sg), t.clock, now, Asked(t, sg), HeavyTimes(t, sg));
    ProcessOk(cfg, JitterOf(t.s, sg), GroupOf(t.s, sg), now, Asked(t, sg), HeavyTimes(t, sg), heavy, light);
    ProcessIsFresh(cfg, JitterOf(t.s, sg), GroupOf(t.s, sg), now, Asked(t, sg), HeavyTimes(t, sg), heavy, light);
    assert GroupOf(s', sg).entry.Some? ==> s'.entries[sg] == GroupOf(s', sg).entry.value;
  }

  lemma {:induction false} CycleKeeps(cfg: Settings, t: Track, now: Time, heavy: HeavyPolls, light: LightPolls, i: nat)
    requires Inv(cfg, t) && t.clock <= now && i <= |t.s.groups|
    ensures Inv(cfg, TrackCycle(cfg, t, now, heavy, light, i))
    decreases |t.s.groups| - i
  {
    if i == |t.s.groups| {
      ClockKeeps(cfg, t, now);
    } else {
      var sg := t.s.groups[i];
      var (s', report) := Handle(cfg, t.s, sg, now, heavy(i), light(i));
      TurnKeeps(cfg, t, sg, now, heavy(i), light(i));
      HandleGroup(cfg, t.s, sg, now, heavy(i), light(i));
      CycleKeeps(cfg, Noted(t, s', sg, report, now), now, heavy, light, i + 1);
    }
  }

  lemma ClockKeeps(cfg: Settings, t: Track, now: Time)
    requires Inv(cfg, t) && t.clock <= now
    ensures Inv(cfg, t.(clock := now))
  {
    var t' := t.(clock := now);
    forall h ensures GroupOk(cfg, GroupOf(t'.s, h), now, Asked(t', h), HeavyTimes(t', h)) {
      LaterOk(cfg, GroupOf(t.s, h), t.clock, now, Asked(t, h), HeavyTimes(t, h));
    }
  }

  lemma AskKeepsGroup(cfg: Settings, t: Track, sg: Sg, mode: Mode, now: Time, h: Sg)
    requires t.clock <= now && sg in t.s.groups && Accepts(cfg, GroupOf(t.s, sg), mode, now)
    requires GroupOk(cfg, GroupOf(t.s, h), now, Asked(t, h), HeavyTimes(t, h)) && Fresh(cfg, t.s, h)
    ensures var t' := After(cfg, t, AskAt(sg, mode, now));
            GroupOk(cfg, GroupOf(t'.s, h), now, Asked(t', h), HeavyTimes(t', h)) && Fresh(cfg, t'.s, h)
  {
    var t' := After(cfg, t, AskAt(sg, mode, now));
    if h == sg {
      AskOk(cfg, GroupOf(t.s, sg), mode, now, Asked(t, sg), HeavyTimes(t, sg));
      assert GroupOf(t'.s, sg) == Ask(cfg, GroupOf(t.s, sg), mode, now);
    } else {
      assert GroupOf(t'.s, h) == GroupOf(t.s, h);
    }
  }

  lemma AskKeeps(cfg: Settings, t: Track, sg: Sg, mode: Mode, now: Time)
    requires Inv(cfg, t) && t.clock <= now
    ensures Inv(cfg, After(cfg, t, AskAt(sg, mode, now)))
  {
    ClockKeeps(cfg, t, now);
    if sg in t.s.groups && Accepts(cfg, GroupOf(t.s, sg), mode, now) {
      var t' := After(cfg, t, AskAt(sg, mode, now));
      var t1 := t.(clock := now);
      forall h ensures GroupOk(cfg, GroupOf(t'.s, h), now, Asked(t', h), HeavyTimes(t', h)) && Fresh(cfg, t'.s, h) {
        assert GroupOk(cfg, GroupOf(t1.s, h), now, Asked(t1, h), HeavyTimes(t1, h)) && Fresh(cfg, t1.s, h);
        AskKeepsGroup(cfg, t, sg, mode, now, h);
      }
    }
  }

  lemma RegroupKeeps(cfg: Settings, t: Track, groups: seq<Sg>, draw: Sg -> int)
    requires Inv(cfg, t)
    ensures Inv(cfg, After(cfg, t, RegroupAt(groups, draw)))
  {
    var t' := After(cfg, t, RegroupAt(groups, draw));
    forall h ensures GroupOk(cfg, GroupOf(t'.s, h), t.clock, Asked(t', h), HeavyTimes(t', h)) && Fresh(cfg, t'.s, h) {
      assert GroupOk(cfg, GroupOf(t.s, h), t.clock, Asked(t, h), HeavyTimes(t, h)) && Fresh(cfg, t.s, h);
    }
  }

  lemma RestartKeeps(cfg: Settings, t: Track, draw: Sg -> int)
    requires Inv(cfg, t)
    ensures Inv(cfg, After(cfg, t, RestartAt(draw)))
  {
    var t' := After(cfg, t, RestartAt(draw));
    forall h ensures GroupOk(cfg, GroupOf(t'.s, h), t.clock, Asked(t', h), HeavyTimes(t', h)) && Fresh(cfg, t'.s, h) {
      assert GroupOk(cfg, GroupOf(t.s, h), t.clock, Asked(t, h), HeavyTimes(t, h)) && Fresh(cfg, t.s, h);
    }
  }

  lemma ResetKeeps(cfg: Settings, t: Track, sg: Sg)
    requires Inv(cfg, t)
    ensures Inv(cfg, After(cfg, t, ResetAt(sg)))
  {
    var t' := After(cfg, t, ResetAt(sg));
    forall h ensures GroupOk(cfg, GroupOf(t'.s, h), t.clock, Asked(t', h), HeavyTimes(t', h)) && Fresh(cfg, t'.s, h) {
      assert GroupOk(cfg, GroupOf(t.s, h), t.clock, Asked(t, h), HeavyTimes(t, h)) && Fresh(cfg, t.s, h);
    }
  }

  lemma EventKeeps(cfg: Settings, t: Track, ev: Event)
    requires Inv(cfg, t) && InOrder(t, ev)
    ensures Inv(cfg, After(cfg, t, ev))
  {
    match ev
    case CycleAt(now, heavy, light) =>
      if cfg.enabled {
        CycleKeeps(cfg, t, now, heavy, light, 0);
      } else {
        ClockKeeps(cfg, t, now);
      }
    case AskAt(sg, mode, now) => AskKeeps(cfg, t, sg, mode, now);
    case ResetAt(sg) => ResetKeeps(cfg, t, sg);
    case RegroupAt(groups, draw) => RegroupKeeps(cfg, t, groups, draw);
    case RestartAt(draw) => RestartKeeps(cfg, t, draw);
  }

  lemma {:induction false} RunKeeps(cfg: Settings, t: Track, events: seq<Event>)
    requires Inv(cfg, t) && Run(cfg, t, events)
    ensures Inv(cfg, Final(cfg, t, events))
    decreases |events|
  {
    if events != [] {
      EventKeeps(cfg, t, events[0]);
      RunKeeps(cfg, After(cfg, t, events[0]), events[1..]);
    }
  }
}
