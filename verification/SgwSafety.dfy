/** What holds of the refresh cache over every run. */
module SgwSafety {
  import opened Basics
  import opened SgwCache
  import opened SgwManager
  import opened SgwRuns

  /** The tracked state of a cycle is the state the cycle leaves. */
  lemma {:induction false} TrackedState(cfg: Settings, t: Track, now: Time, heavy: HeavyPolls, light: LightPolls,
                                        i: nat)
    requires i <= |t.s.groups|
    ensures TrackCycle(cfg, t, now, heavy, light, i).s == CycleFrom(cfg, t.s, now, heavy, light, i).0
    ensures TrackCycle(cfg, t, now, heavy, light, i).clock == now
    decreases |t.s.groups| - i
  {
    if i < |t.s.groups| {
      var sg := t.s.groups[i];
      var (s', report) := Handle(cfg, t.s, sg, now, heavy(i), light(i));
      HandleGroup(cfg, t.s, sg, now, heavy(i), light(i));
      TrackedState(cfg, Noted(t, s', sg, report, now), now, heavy, light, i + 1);
      CycleStep(cfg, t.s, now, heavy, light, i, s', report);
    }
  }

  /** A cycle event leaves what the manager's refresh leaves. */
  lemma CycleIsRefresh(cfg: Settings, t: Track, now: Time, heavy: HeavyPolls, light: LightPolls)
    ensures After(cfg, t, CycleAt(now, heavy, light)).s == RefreshOnce(cfg, t.s, now, heavy, light).0
  {
    TrackedState(cfg, t, now, heavy, light, 0);
  }

  // ---- the state after any run ------------------------------------------------------------------

  lemma EveryRun(cfg: Settings, groups: seq<Sg>, draw: Sg -> int, events: seq<Event>)
    requires GoodSettings(cfg) && Run(cfg, Start(cfg, groups, draw), events)
    ensures Inv(cfg, Final(cfg, Start(cfg, groups, draw), events))
  {
    StartInv(cfg, groups, draw);
    RunKeeps(cfg, Start(cfg, groups, draw), events);
  }

  lemma MetadataIsOrdered(cfg: Settings, groups: seq<Sg>, draw: Sg -> int, events: seq<Event>, sg: Sg)
    requires GoodSettings(cfg) && Run(cfg, Start(cfg, groups, draw), events)
    ensures var t := Final(cfg, Start(cfg, groups, draw), events);
            && (sg in t.s.entries ==> MetaOk(t.s.entries[sg].meta, t.clock))
            && CountsOf(t.s, sg).heavy <= CountsOf(t.s, sg).light
  {
    EveryRun(cfg, groups, draw, events);
    var t := Final(cfg, Start(cfg, groups, draw), events);
    assert GroupOk(cfg, GroupOf(t.s, sg), t.clock, Asked(t, sg), HeavyTimes(t, sg));
  }

  lemma HeavyRefreshesAreSpaced(cfg: Settings, groups: seq<Sg>, draw: Sg -> int, events: seq<Event>, sg: Sg)
    requires GoodSettings(cfg) && Run(cfg, Start(cfg, groups, draw), events)
    ensures Spaced(cfg, HeavyTimes(Final(cfg, Start(cfg, groups, draw), events), sg))
  {
    EveryRun(cfg, groups, draw, events);
    var t := Final(cfg, Start(cfg, groups, draw), events);
    assert GroupOk(cfg, GroupOf(t.s, sg), t.clock, Asked(t, sg), HeavyTimes(t, sg));
  }

  lemma PendingIsStrongest(cfg: Settings, groups: seq<Sg>, draw: Sg -> int, events: seq<Event>, sg: Sg)
    requires GoodSettings(cfg) && Run(cfg, Start(cfg, groups, draw), events)
    ensures var t := Final(cfg, Start(cfg, groups, draw), events);
            && GroupOf(t.s, sg).request == Strongest(Asked(t, sg))
            && (GroupOf(t.s, sg).request == Some(Heavy) ==> !RateLimited(cfg, GroupOf(t.s, sg), t.clock))
  {
    EveryRun(cfg, groups, draw, events);
    var t := Final(cfg, Start(cfg, groups, draw), events);
    assert GroupOk(cfg, GroupOf(t.s, sg), t.clock, Asked(t, sg), HeavyTimes(t, sg));
  }

  // ---- staleness --------------------------------------------------------------------------------

  ghost predicate NothingStale(s: Sgw) {
    forall sg :: sg in s.entries ==> s.entries[sg].meta.state != STALE
  }

  /** No run ends with a stale entry. */
  ghost predicate NeverStale(cfg: Settings) {
    forall groups: seq<Sg>, draw: Sg -> int, events: seq<Event> ::
      Run(cfg, Start(cfg, groups, draw), events) ==> NothingStale(Final(cfg, Start(cfg, groups, draw), events).s)
  }

  lemma RoomMeansNeverStale(cfg: Settings)
    requires GoodSettings(cfg) && cfg.cacheMaxAge >= cfg.pollLight + cfg.jitterMax
    ensures NeverStale(cfg)
  {
    forall groups: seq<Sg>, draw: Sg -> int, events: seq<Event> | Run(cfg, Start(cfg, groups, draw), events)
      ensures NothingStale(Final(cfg, Start(cfg, groups, draw), events).s)
    {
      EveryRun(cfg, groups, draw, events);
      var t := Final(cfg, Start(cfg, groups, draw), events);
      forall sg | sg in t.s.entries ensures t.s.entries[sg].meta.state != STALE {
        assert Fresh(cfg, t.s, sg);
      }
    }
  }

  /** The entry's age is up to date and, unless it is in error, below the light interval plus the group's own jitter. */
  ghost predicate Young(cfg: Settings, s: Sgw, sg: Sg, now: Time) {
    && sg in s.entries
    && var meta := s.entries[sg].meta;
    && meta.age == now - meta.snapshotTime
    && (meta.state != ERROR ==> meta.age < (cfg.pollLight + JitterOf(s, sg)) as real)
  }

  lemma TurnIsYoung(cfg: Settings, t: Track, sg: Sg, now: Time, heavy: Polled<Payload>, light: Polled<seq<Modem>>)
    requires Inv(cfg, t) && t.clock <= now && sg in t.s.groups
    ensures Young(cfg, Handle(cfg, t.s, sg, now, heavy, light).0, sg, now)
  {
    var s' := Handle(cfg, t.s, sg, now, heavy, light).0;
    HandleGroup(cfg, t.s, sg, now, heavy, light);
    LaterOk(cfg, GroupOf(t.s, sg), t.clock, now, Asked(t, sg), HeavyTimes(t, sg));
    ProcessIsFresh(cfg, JitterOf(t.s, sg), GroupOf(t.s, sg), now, Asked(t, sg), HeavyTimes(t, sg), heavy, light);
    assert GroupOf(s', sg).entry.Some? ==> s'.entries[sg] == GroupOf(s', sg).entry.value;
  }

  lemma YoungStays(cfg: Settings, s: Sgw, s': Sgw, sg: Sg, now: Time)
    requires Young(cfg, s, sg, now) && GroupOf(s', sg).entry == GroupOf(s, sg).entry && s'.jitter == s.jitter
    ensures Young(cfg, s', sg, now)
  {
  }

  lemma {:induction false} CycleIsYoung(cfg: Settings, t: Track, now: Time, heavy: HeavyPolls, light: LightPolls,
                                        i: nat, sg: Sg)
    requires Inv(cfg, t) && t.clock <= now && i <= |t.s.groups|
    requires sg in t.s.groups[i..] || Young(cfg, t.s, sg, now)
    ensures Young(cfg, TrackCycle(cfg, t, now, heavy, light, i).s, sg, now)
    decreases |t.s.groups| - i
  {
    if i < |t.s.groups| {
      var g := t.s.groups[i];
      var (s', report) := Handle(cfg, t.s, g, now, heavy(i), light(i));
      HandleGroup(cfg, t.s, g, now, heavy(i), light(i));
      TurnKeeps(cfg, t, g, now, heavy(i), light(i));
      assert t.s.groups[i..] == [g] + t.s.groups[i + 1..];
      if g == sg {
        TurnIsYoung(cfg, t, g, now, heavy(i), light(i));
      } else {
        assert GroupOf(s', sg).entry == GroupOf(t.s, sg).entry;
        if Young(cfg, t.s, sg, now) {
          YoungStays(cfg, t.s, s', sg, now);
        }
      }
      CycleIsYoung(cfg, Noted(t, s', g, report, now), now, heavy, light, i + 1, sg);
    }
  }

  /** After every run that ends with a cycle, each group's entry is younger than the light interval plus the group's
      jitter, or in error, whatever the age limit. */
  lemma EntriesAreYoung(cfg: Settings, groups: seq<Sg>, draw: Sg -> int, events: seq<Event>, now: Time,
                        heavy: HeavyPolls, light: LightPolls, sg: Sg)
    requires GoodSettings(cfg) && cfg.enabled && Run(cfg, Start(cfg, groups, draw), events)
    requires var t := Final(cfg, Start(cfg, groups, draw), events);
             InOrder(t, CycleAt(now, heavy, light)) && sg in t.s.groups
    ensures var t := Final(cfg, Start(cfg, groups, draw), events);
            Young(cfg, After(cfg, t, CycleAt(now, heavy, light)).s, sg, now)
  {
    EveryRun(cfg, groups, draw, events);
    var t := Final(cfg, Start(cfg, groups, draw), events);
    assert t.s.groups[0..] == t.s.groups;
    CycleIsYoung(cfg, t, now, heavy, light, 0, sg);
  }

  lemma {:induction false} DisabledStaysEmpty(cfg: Settings, t: Track, events: seq<Event>)
    requires !cfg.enabled && t.s.entries == map[]
    ensures Final(cfg, t, events).s.entries == map[]
    decreases |events|
  {
    if events != [] {
      assert After(cfg, t, events[0]).s.entries == map[];
      DisabledStaysEmpty(cfg, After(cfg, t, events[0]), events[1..]);
    }
  }

  lemma OneGroup(cfg: Settings, t: Track, now: Time, heavy: HeavyPolls, light: LightPolls)
    requires cfg.enabled && t.s.groups == [0]
    ensures var t' := After(cfg, t, CycleAt(now, heavy, light));
            && GroupOf(t'.s, 0) == Process(cfg, JitterOf(t.s, 0), now, GroupOf(t.s, 0), heavy(0), light(0)).0
            && t'.s.groups == [0] && t'.s.jitter == t.s.jitter && t'.clock == now
  {
    var (s', report) := Handle(cfg, t.s, 0, now, heavy(0), light(0));
    HandleGroup(cfg, t.s, 0, now, heavy(0), light(0));
    var t1 := Noted(t, s', 0, report, now);
    assert TrackCycle(cfg, t, now, heavy, light, 0) == TrackCycle(cfg, t1, now, heavy, light, 1);
  }

  lemma TwoEvents(cfg: Settings, t: Track, first: Event, second: Event)
    requires InOrder(t, first) && InOrder(After(cfg, t, first), second)
    ensures Run(cfg, t, [first, second])
    ensures Final(cfg, t, [first, second]) == After(cfg, After(cfg, t, first), second)
  {
    var t1 := After(cfg, t, first);
    assert [first, second][1..] == [second] && [second][1..] == [];
    assert Final(cfg, t1, [second]) == Final(cfg, After(cfg, t1, second), []);
    assert Run(cfg, t1, [second]);
  }

  lemma FirstThenStale(cfg: Settings, gr: Group, heavy: Polled<Payload>, light: Polled<seq<Modem>>)
    requires GoodSettings(cfg) && cfg.cacheMaxAge < cfg.pollLight + cfg.jitterMax
    requires gr.entry.None? && gr.request.None? && heavy.Returned?
    ensures var first := Process(cfg, cfg.jitterMax, 0.0, gr, heavy, light).0;
            Process(cfg, cfg.jitterMax, cfg.cacheMaxAge as real, first, heavy, light).0.entry.value.meta.state == STALE
  {
    var first := Process(cfg, cfg.jitterMax, 0.0, gr, heavy, light).0;
    assert first.entry == Some(Entry(heavy.value.channels, heavy.value.modems,
                                     Metadata(0.0, 0.0, Some(0.0), Some(0.0), OK, None)));
  }

  /** Two cycles with one group and the largest jitter: at the age limit neither refresh is due. */
  lemma TwoCycles(cfg: Settings, t: Track, heavy: HeavyPolls, light: LightPolls)
    requires GoodSettings(cfg) && cfg.enabled && cfg.cacheMaxAge < cfg.pollLight + cfg.jitterMax
    requires t.s.groups == [0] && JitterOf(t.s, 0) == cfg.jitterMax && t.clock == 0.0 && heavy(0).Returned?
    requires GroupOf(t.s, 0).entry.None? && GroupOf(t.s, 0).request.None?
    ensures exists events :: Run(cfg, t, events) && !NothingStale(Final(cfg, t, events).s)
  {
    var first, second := CycleAt(0.0, heavy, light), CycleAt(cfg.cacheMaxAge as real, heavy, light);
    OneGroup(cfg, t, 0.0, heavy, light);
    OneGroup(cfg, After(cfg, t, first), cfg.cacheMaxAge as real, heavy, light);
    FirstThenStale(cfg, GroupOf(t.s, 0), heavy(0), light(0));
    TwoEvents(cfg, t, first, second);
    var s := Final(cfg, t, [first, second]).s;
    assert 0 in s.entries && GroupOf(s, 0).entry.value == s.entries[0];
  }

  lemma JitterDrawn(cfg: Settings, s: Sgw, groups: seq<Sg>, draw: Sg -> int, sg: Sg)
    requires sg in groups
    ensures JitterOf(Regroup(cfg, s, groups, draw), sg) == Clamp(draw(sg), cfg.jitterMax)
  {
  }

  lemma NoRoomMeansStale(cfg: Settings)
    requires GoodSettings(cfg) && cfg.enabled && cfg.cacheMaxAge < cfg.pollLight + cfg.jitterMax
    ensures !NeverStale(cfg)
  {
    var draw: Sg -> int := g => cfg.jitterMax;
    var t := Start(cfg, [0], draw);
    JitterDrawn(cfg, NewManager(map[]), [0], draw, 0);
    var heavy: HeavyPolls := i => Returned(Payload(EMPTY_CHANNELS, []));
    assert heavy(0).Returned?;
    TwoCycles(cfg, t, heavy, i => Returned([]));
    var events :| Run(cfg, t, events) && !NothingStale(Final(cfg, t, events).s);
    assert Run(cfg, Start(cfg, [0], draw), events);
  }

  /** With the cache on, entries can never go stale exactly when the age limit covers the light interval plus the
      largest jitter. */
  lemma StaleExactly(cfg: Settings)
    requires GoodSettings(cfg)
    ensures NeverStale(cfg) <==> !cfg.enabled || cfg.cacheMaxAge >= cfg.pollLight + cfg.jitterMax
  {
    if cfg.cacheMaxAge >= cfg.pollLight + cfg.jitterMax {
      RoomMeansNeverStale(cfg);
    } else if cfg.enabled {
      NoRoomMeansStale(cfg);
    } else {
      forall groups: seq<Sg>, draw: Sg -> int, events: seq<Event> | Run(cfg, Start(cfg, groups, draw), events)
        ensures NothingStale(Final(cfg, Start(cfg, groups, draw), events).s)
      {
        DisabledStaysEmpty(cfg, Start(cfg, groups, draw), events);
      }
    }
  }

  // ---- an accepted request ----------------------------------------------------------------------

  /** No event is a cycle that processes the group, or a restart, which forgets all requests. */
  ghost predicate Unprocessed(cfg: Settings, t: Track, events: seq<Event>, sg: Sg)
    decreases |events|
  {
    events == [] ||
    (&& (events[0].CycleAt? && cfg.enabled ==> sg !in t.s.groups) && !events[0].RestartAt?
     && Unprocessed(cfg, After(cfg, t, events[0]), events[1..], sg))
  }

  lemma AskGroup(s: Sgw, sg: Sg, gr: Group, h: Sg)
    requires GroupOf(s, sg).entry.Some? ==> gr.entry.Some?
    ensures GroupOf(WithGroup(s, sg, gr), h) == if h == sg then gr else GroupOf(s, h)
  {
  }

  /** A cycle leaves groups it does not come to alone. */
  lemma {:induction false} Untouched(cfg: Settings, t: Track, now: Time, heavy: HeavyPolls, light: LightPolls, i: nat,
                                     sg: Sg)
    requires i <= |t.s.groups| && sg !in t.s.groups[i..]
    ensures var t' := TrackCycle(cfg, t, now, heavy, light, i);
            && GroupOf(t'.s, sg) == GroupOf(t.s, sg)
            && HeavyTimes(t', sg) == HeavyTimes(t, sg)
            && Asked(t', sg) == Asked(t, sg)
    decreases |t.s.groups| - i
  {
    if i < |t.s.groups| {
      var g := t.s.groups[i];
      assert g in t.s.groups[i..] && t.s.groups[i + 1..] <= t.s.groups[i + 1..];
      var (s', report) := Handle(cfg, t.s, g, now, heavy(i), light(i));
      HandleGroup(cfg, t.s, g, now, heavy(i), light(i));
      Untouched(cfg, Noted(t, s', g, report, now), now, heavy, light, i + 1, sg);
    }
  }

  lemma RequestStaysOnce(cfg: Settings, t: Track, ev: Event, sg: Sg)
    requires GroupOf(t.s, sg).request.Some? && !ev.RestartAt? && (ev.CycleAt? && cfg.enabled ==> sg !in t.s.groups)
    ensures var request := GroupOf(After(cfg, t, ev).s, sg).request;
            request == GroupOf(t.s, sg).request || request == Some(Heavy)
  {
    match ev
    case CycleAt(now, heavy, light) =>
      if cfg.enabled {
        Untouched(cfg, t, now, heavy, light, 0, sg);
      }
    case AskAt(h, mode, now) => AskGroup(t.s, h, Ask(cfg, GroupOf(t.s, h), mode, now), sg);
    case ResetAt(_) =>
    case RegroupAt(_, _) =>
  }

  /** A restart loses what was accepted and not yet carried out. */
  lemma RestartForgetsRequests(cfg: Settings, t: Track, draw: Sg -> int, sg: Sg)
    ensures GroupOf(After(cfg, t, RestartAt(draw)).s, sg).request == None
  {
  }

  /** Between cycles that process the group and restarts a pending request stays, and only grows. */
  lemma {:induction false} RequestStays(cfg: Settings, t: Track, events: seq<Event>, sg: Sg)
    requires Unprocessed(cfg, t, events, sg) && GroupOf(t.s, sg).request.Some?
    ensures var request := GroupOf(Final(cfg, t, events).s, sg).request;
            request == GroupOf(t.s, sg).request || request == Some(Heavy)
    decreases |events|
  {
    if events != [] {
      RequestStaysOnce(cfg, t, events[0], sg);
      RequestStays(cfg, After(cfg, t, events[0]), events[1..], sg);
    }
  }

  /** From the `i`-th turn on the cycle tries the request in the `k`-th turn and leaves no request for its group. */
  ghost predicate CarriesOut(cfg: Settings, s: Sgw, now: Time, heavy: HeavyPolls, light: LightPolls, i: nat, k: nat,
                             request: Option<Mode>)
    requires i <= k < |s.groups|
  {
    var (end, reports) := CycleFrom(cfg, s, now, heavy, light, i);
    && |reports| == |s.groups| - i
    && (request.Some? ==> reports[k - i].tried == request)
    && s.groups[k] !in end.requests
  }

  /** `report` is of the `i`-th turn, which leaves `s'`. */
  ghost predicate Turned(cfg: Settings, s: Sgw, now: Time, heavy: HeavyPolls, light: LightPolls, i: nat, s': Sgw,
                         report: Report)
  {
    && s'.groups == s.groups && i < |s.groups|
    && var (end, rest) := CycleFrom(cfg, s', now, heavy, light, i + 1);
    && CycleFrom(cfg, s, now, heavy, light, i) == (end, [report] + rest)
    && |rest| == |s.groups| - i - 1
  }

  lemma TurnTaken(cfg: Settings, s: Sgw, now: Time, heavy: HeavyPolls, light: LightPolls, i: nat, s': Sgw,
                  report: Report)
    requires i < |s.groups| && (s', report) == Handle(cfg, s, s.groups[i], now, heavy(i), light(i))
    ensures Turned(cfg, s, now, heavy, light, i, s', report)
  {
    CycleStep(cfg, s, now, heavy, light, i, s', report);
    CycleShape(cfg, s', now, heavy, light, i + 1);
  }

  lemma CarriesLater(cfg: Settings, s: Sgw, now: Time, heavy: HeavyPolls, light: LightPolls, i: nat, s': Sgw,
                     report: Report, k: nat, request: Option<Mode>)
    requires Turned(cfg, s, now, heavy, light, i, s', report) && i < k < |s.groups|
    requires CarriesOut(cfg, s', now, heavy, light, i + 1, k, request)
    ensures CarriesOut(cfg, s, now, heavy, light, i, k, request)
  {
  }

  lemma CarriesHere(cfg: Settings, s: Sgw, now: Time, heavy: HeavyPolls, light: LightPolls, i: nat, s': Sgw,
                    report: Report)
    requires Turned(cfg, s, now, heavy, light, i, s', report)
    requires (s', report) == Handle(cfg, s, s.groups[i], now, heavy(i), light(i))
    ensures CarriesOut(cfg, s, now, heavy, light, i, i, GroupOf(s, s.groups[i]).request)
  {
    TurnServes(cfg, s, s.groups[i], now, heavy(i), light(i), s', report);
    NoRequestComesBack(cfg, s', now, heavy, light, i + 1, s.groups[i]);
  }

  /** The turns of a cycle before the first for `sg` leave `sg` alone; that turn tries what is pending, and no
      turn leaves a request behind. */
  lemma {:induction false} RequestIsCarriedOut(cfg: Settings, s: Sgw, now: Time, heavy: HeavyPolls, light: LightPolls,
                                               i: nat, k: nat)
    requires i <= k < |s.groups| && s.groups[k] !in s.groups[i..k]
    ensures CarriesOut(cfg, s, now, heavy, light, i, k, GroupOf(s, s.groups[k]).request)
    decreases k - i
  {
    var (s', report) := Handle(cfg, s, s.groups[i], now, heavy(i), light(i));
    TurnTaken(cfg, s, now, heavy, light, i, s', report);
    if i == k {
      CarriesHere(cfg, s, now, heavy, light, i, s', report);
    } else {
      NotYet(s.groups, i, k);
      HandleGroup(cfg, s, s.groups[i], now, heavy(i), light(i));
      RequestIsCarriedOut(cfg, s', now, heavy, light, i + 1, k);
      CarriesLater(cfg, s, now, heavy, light, i, s', report, k, GroupOf(s, s.groups[k]).request);
    }
  }

  lemma NotYet(groups: seq<Sg>, i: nat, k: nat)
    requires i < k < |groups| && groups[k] !in groups[i..k]
    ensures groups[i] != groups[k] && groups[k] !in groups[i + 1..k]
  {
    assert groups[i] in groups[i..k];
    assert forall j :: i < j < k ==> groups[j] in groups[i..k];
  }

  lemma TurnServes(cfg: Settings, s: Sgw, sg: Sg, now: Time, heavy: Polled<Payload>, light: Polled<seq<Modem>>,
                   s': Sgw, report: Report)
    requires (s', report) == Handle(cfg, s, sg, now, heavy, light)
    ensures GroupOf(s, sg).request.Some? ==> report.tried == GroupOf(s, sg).request
    ensures sg !in s'.requests
  {
    HandleGroup(cfg, s, sg, now, heavy, light);
    RequestIsServed(cfg, JitterOf(s, sg), GroupOf(s, sg), now, heavy, light);
    assert GroupOf(s', sg).request == None;
  }

  lemma {:induction false} NoRequestComesBack(cfg: Settings, s: Sgw, now: Time, heavy: HeavyPolls, light: LightPolls,
                                              i: nat, sg: Sg)
    requires i <= |s.groups| && sg !in s.requests
    ensures sg !in CycleFrom(cfg, s, now, heavy, light, i).0.requests
    decreases |s.groups| - i
  {
    if i < |s.groups| {
      var g := s.groups[i];
      var (s', report) := Handle(cfg, s, g, now, heavy(i), light(i));
      HandleGroup(cfg, s, g, now, heavy(i), light(i));
      RequestIsServed(cfg, JitterOf(s, g), GroupOf(s, g), now, heavy(i), light(i));
      assert GroupOf(s', sg).request == None;
      NoRequestComesBack(cfg, s', now, heavy, light, i + 1, sg);
      CycleStep(cfg, s, now, heavy, light, i, s', report);
    }
  }

  ghost predicate NoDuplicates(groups: seq<Sg>) {
    forall i, j :: 0 <= i < j < |groups| ==> groups[i] != groups[j]
  }

  /** A pending request survives until a cycle processes the group, and that cycle's one turn for the group makes
      the attempt and takes the request away. */
  lemma AcceptedRequestIsServedOnce(cfg: Settings, t: Track, events: seq<Event>, k: nat, now: Time, heavy: HeavyPolls,
                                    light: LightPolls)
    requires var s := Final(cfg, t, events).s;
             cfg.enabled && k < |s.groups| && NoDuplicates(s.groups)
    requires var sg := Final(cfg, t, events).s.groups[k];
             GroupOf(t.s, sg).request == Some(Heavy) && Unprocessed(cfg, t, events, sg)
    ensures var s := Final(cfg, t, events).s;
            var (end, reports) := CycleFrom(cfg, s, now, heavy, light, 0);
            && |reports| == |s.groups|
            && (forall i :: 0 <= i < |reports| && s.groups[i] == s.groups[k] ==> i == k)
            && reports[k].tried == Some(Heavy)
            && s.groups[k] !in end.requests
  {
    var s := Final(cfg, t, events).s;
    RequestStays(cfg, t, events, s.groups[k]);
    RequestIsCarriedOut(cfg, s, now, heavy, light, 0, k);
  }

  // ---- the lists a cycle returns ----------------------------------------------------------------

  ghost predicate Has(groups: seq<Sg>, reports: seq<Report>, sg: Sg, p: Report -> bool)
    requires |groups| == |reports|
  {
    exists i :: 0 <= i < |groups| && groups[i] == sg && p(reports[i])
  }

  lemma HasCons(groups: seq<Sg>, reports: seq<Report>, sg: Sg, p: Report -> bool)
    requires |groups| == |reports| > 0
    ensures Has(groups, reports, sg, p) <==> (groups[0] == sg && p(reports[0])) || Has(groups[1..], reports[1..], sg, p)
  {
    if i :| 0 <= i < |groups| && groups[i] == sg && p(reports[i]) {
      assert i > 0 ==> groups[1..][i - 1] == sg && p(reports[1..][i - 1]);
    }
    if i :| 0 <= i < |groups[1..]| && groups[1..][i] == sg && p(reports[1..][i]) {
      assert groups[i + 1] == sg && p(reports[i + 1]);
    }
  }

  const HEAVY_DONE: Report -> bool := (r: Report) => r.Applied(Heavy)
  const ANY_DONE: Report -> bool := (r: Report) => r.Applied(Heavy) || r.Applied(Light)
  const FAILED: Report -> bool := (r: Report) => r.error.Some?
  const AGED: Report -> bool := (r: Report) => r.stale

  /** The group is among a result's errors. */
  predicate Failed(r: Result, sg: Sg) {
    exists i :: 0 <= i < |r.errors| && r.errors[i].0 == sg
  }

  lemma ListedFails(r: Result, g: Sg, report: Report, sg: Sg)
    ensures Failed(Listed(r, g, report), sg) <==> Failed(r, sg) || (g == sg && report.error.Some?)
  {
    var r' := Listed(r, g, report);
    if Failed(r, sg) {
      var i :| 0 <= i < |r.errors| && r.errors[i].0 == sg;
      assert r'.errors[i].0 == sg;
    }
    if g == sg && report.error.Some? {
      assert r'.errors[|r.errors|].0 == sg;
    }
  }

  lemma {:induction false} Listing(r: Result, groups: seq<Sg>, reports: seq<Report>, sg: Sg)
    requires |groups| == |reports|
    ensures var all := Summarise(r, groups, reports);
            && (sg in all.heavy <==> sg in r.heavy || Has(groups, reports, sg, HEAVY_DONE))
            && (sg in all.light <==> sg in r.light || Has(groups, reports, sg, ANY_DONE))
            && (sg in all.stale <==> sg in r.stale || Has(groups, reports, sg, AGED))
            && (Failed(all, sg) <==> Failed(r, sg) || Has(groups, reports, sg, FAILED))
    decreases |groups|
  {
    if groups != [] {
      HasCons(groups, reports, sg, HEAVY_DONE);
      HasCons(groups, reports, sg, ANY_DONE);
      HasCons(groups, reports, sg, AGED);
      HasCons(groups, reports, sg, FAILED);
      ListedFails(r, groups[0], reports[0], sg);
      Listing(Listed(r, groups[0], reports[0]), groups[1..], reports[1..], sg);
    }
  }

  /** A cycle's heavy list is within its light list, and without duplicate groups neither meets its errors. */
  lemma ResultLists(cfg: Settings, s: Sgw, now: Time, heavy: HeavyPolls, light: LightPolls, sg: Sg)
    ensures var r := RefreshOnce(cfg, s, now, heavy, light).1;
            && (sg in r.heavy ==> sg in r.light)
            && (sg in r.light || Failed(r, sg) || sg in r.stale ==> sg in s.groups)
            && (NoDuplicates(s.groups) && sg in r.light ==> !Failed(r, sg))
  {
    if cfg.enabled {
      var (end, reports) := CycleFrom(cfg, s, now, heavy, light, 0);
      CycleShape(cfg, s, now, heavy, light, 0);
      Listing(Result([], [], [], []), s.groups, reports, sg);
    }
  }

  /** The errors of a cycle come with the messages the entries keep: the error of a group's one turn is in its entry,
      whose state is ERROR, when the cycle is over. */
  lemma {:induction false} ErrorsAreRecorded(cfg: Settings, s: Sgw, now: Time, heavy: HeavyPolls, light: LightPolls,
                                             i: nat, k: nat)
    requires i <= k < |s.groups| && NoDuplicates(s.groups)
    ensures var (end, reports) := CycleFrom(cfg, s, now, heavy, light, i);
            && |reports| == |s.groups| - i
            && (reports[k - i].error.Some? ==>
                  && s.groups[k] in end.entries
                  && end.entries[s.groups[k]].meta.lastError == reports[k - i].error
                  && end.entries[s.groups[k]].meta.state == ERROR)
    decreases k - i
  {
    var g := s.groups[i];
    var (s', report) := Handle(cfg, s, g, now, heavy(i), light(i));
    HandleGroup(cfg, s, g, now, heavy(i), light(i));
    CycleStep(cfg, s, now, heavy, light, i, s', report);
    CycleShape(cfg, s, now, heavy, light, i);
    if i == k {
      TurnRecords(cfg, s, g, now, heavy(i), light(i), s', report);
      EntryStays(cfg, s', now, heavy, light, i + 1, g);
    } else {
      ErrorsAreRecorded(cfg, s', now, heavy, light, i + 1, k);
    }
  }

  lemma TurnRecords(cfg: Settings, s: Sgw, sg: Sg, now: Time, heavy: Polled<Payload>, light: Polled<seq<Modem>>,
                    s': Sgw, report: Report)
    requires (s', report) == Handle(cfg, s, sg, now, heavy, light)
    ensures sg in s'.entries
    ensures report.error.Some? ==> s'.entries[sg].meta.lastError == report.error && s'.entries[sg].meta.state == ERROR
  {
  }

  lemma {:induction false} EntryStays(cfg: Settings, s: Sgw, now: Time, heavy: HeavyPolls, light: LightPolls, i: nat,
                                      sg: Sg)
    requires i <= |s.groups| && sg !in s.groups[i..] && sg in s.entries
    ensures var end := CycleFrom(cfg, s, now, heavy, light, i).0;
            sg in end.entries && end.entries[sg] == s.entries[sg]
    decreases |s.groups| - i
  {
    if i < |s.groups| {
      var g := s.groups[i];
      var (s', report) := Handle(cfg, s, g, now, heavy(i), light(i));
      HandleGroup(cfg, s, g, now, heavy(i), light(i));
      assert g in s.groups[i..] && GroupOf(s', sg).entry == GroupOf(s, sg).entry;
      CycleStep(cfg, s, now, heavy, light, i, s', report);
      EntryStays(cfg, s', now, heavy, light, i + 1, sg);
    }
  }

  // ---- membership -------------------------------------------------------------------------------

  /** The channel fields and the MACs, in order. */
  ghost function Membership(t: Track, sg: Sg): (Channels, seq<string>)
    requires sg in t.s.entries
  {
    (t.s.entries[sg].channels, Macs(t.s.entries[sg].modems))
  }

  /** From `t` to `u` the group's heavy refreshes only grow, and without a new one its membership stays. */
  ghost predicate Keeps(t: Track, u: Track, sg: Sg) {
    && HeavyTimes(t, sg) <= HeavyTimes(u, sg)
    && (sg in t.s.entries ==>
          && sg in u.s.entries
          && (HeavyTimes(u, sg) == HeavyTimes(t, sg) ==> Membership(u, sg) == Membership(t, sg)))
  }

  lemma KeepsChain(t: Track, u: Track, v: Track, sg: Sg)
    requires Keeps(t, u, sg) && Keeps(u, v, sg)
    ensures Keeps(t, v, sg)
  {
  }

  lemma {:induction false} CycleKeepsMembership(cfg: Settings, t: Track, now: Time, heavy: HeavyPolls,
                                                light: LightPolls, i: nat, sg: Sg)
    requires i <= |t.s.groups|
    ensures Keeps(t, TrackCycle(cfg, t, now, heavy, light, i), sg)
    decreases |t.s.groups| - i
  {
    if i < |t.s.groups| {
      var g := t.s.groups[i];
      var (s', report) := Handle(cfg, t.s, g, now, heavy(i), light(i));
      HandleGroup(cfg, t.s, g, now, heavy(i), light(i));
      var u := Noted(t, s', g, report, now);
      assert Keeps(t, u, sg) by {
        if g == sg && sg in t.s.entries {
          ProcessKeepsMembership(cfg, JitterOf(t.s, sg), GroupOf(t.s, sg), now, heavy(i), light(i));
          assert GroupOf(s', sg).entry.value == s'.entries[sg];
        } else if g != sg {
          assert GroupOf(s', sg) == GroupOf(t.s, sg);
        }
      }
      CycleKeepsMembership(cfg, u, now, heavy, light, i + 1, sg);
      KeepsChain(t, u, TrackCycle(cfg, u, now, heavy, light, i + 1), sg);
    }
  }

  /** Over any run without a successful heavy refresh of a cached group its channels and its MAC list stay the same. */
  lemma {:induction false} LightRefreshKeepsMembership(cfg: Settings, t: Track, events: seq<Event>, sg: Sg)
    ensures Keeps(t, Final(cfg, t, events), sg)
    decreases |events|
  {
    if events != [] {
      var u := After(cfg, t, events[0]);
      assert Keeps(t, u, sg) by {
        match events[0]
        case CycleAt(now, heavy, light) =>
          if cfg.enabled {
            CycleKeepsMembership(cfg, t, now, heavy, light, 0, sg);
          }
        case AskAt(h, mode, now) =>
          if h in t.s.groups && Accepts(cfg, GroupOf(t.s, h), mode, now) {
            AskKeepsEntries(cfg, t.s, h, mode, now);
          }
        case ResetAt(_) =>
        case RegroupAt(_, _) =>
        case RestartAt(_) =>
      }
      LightRefreshKeepsMembership(cfg, u, events[1..], sg);
      KeepsChain(t, u, Final(cfg, u, events[1..]), sg);
    }
  }

  lemma AskKeepsEntries(cfg: Settings, s: Sgw, sg: Sg, mode: Mode, now: Time)
    ensures WithGroup(s, sg, Ask(cfg, GroupOf(s, sg), mode, now)).entries == s.entries
  {
    assert sg in s.entries ==> s.entries[sg := s.entries[sg]] == s.entries;
  }
}
