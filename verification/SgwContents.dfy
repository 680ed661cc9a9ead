/** What the cache holds over whole runs, and what its cycles report: the data of the last successful refreshes, and
    the decisions as the history of refreshes has them. */
module SgwContents {
  import opened Basics
  import opened Positions
  import opened SgwCache
  import opened SgwManager
  import opened SgwRuns
  import opened SgwSafety

  // ---- the data of the last refreshes ---------------------------------------------------------

  /** What was polled for a group: the last successful heavy payload, and all updates of the light refreshes since. */
  datatype Seen = Seen(payload: Payload, updates: seq<Modem>)

  const NOTHING := Seen(Payload(Channels(0, 0, [], [], [], []), []), [])

  ghost function SeenAfter(seen: Seen, report: Report, heavy: Polled<Payload>, light: Polled<seq<Modem>>): Seen {
    if report.Applied(Heavy) && heavy.Returned? then Seen(heavy.value, [])
    else if report.Applied(Light) && light.Returned? then seen.(updates := seen.updates + light.value)
    else seen
  }

  ghost function SeenInCycle(cfg: Settings, t: Track, now: Time, heavy: HeavyPolls, light: LightPolls, i: nat, sg: Sg,
                             seen: Seen): Seen
    requires i <= |t.s.groups|
    decreases |t.s.groups| - i
  {
    if i == |t.s.groups| then seen
    else
      var g := t.s.groups[i];
      var (s', report) := Handle(cfg, t.s, g, now, heavy(i), light(i));
      SeenInCycle(cfg, Noted(t, s', g, report, now), now, heavy, light, i + 1, sg,
                  if g == sg then SeenAfter(seen, report, heavy(i), light(i)) else seen)
  }

  ghost function SeenInRun(cfg: Settings, t: Track, events: seq<Event>, sg: Sg, seen: Seen): Seen
    decreases |events|
  {
    if events == [] then seen
    else
      SeenInRun(cfg, After(cfg, t, events[0]), events[1..], sg,
                match events[0]
                case CycleAt(now, heavy, light) =>
                  if cfg.enabled then SeenInCycle(cfg, t, now, heavy, light, 0, sg, seen) else seen
                case _ => seen)
  }

  /** A group holds the channels of the payload, and its modems under the updates since. */
  ghost predicate Holds(gr: Group, seen: Seen) {
    ChannelsOf(gr) == seen.payload.channels && ModemsOf(gr) == Merge(seen.payload.modems, seen.updates)
  }

  lemma MergeNothing(modems: seq<Modem>)
    ensures Merge(modems, []) == modems
  {
  }

  lemma TurnHolds(cfg: Settings, jitter: int, gr: Group, now: Time, heavy: Polled<Payload>, light: Polled<seq<Modem>>,
                  seen: Seen)
    requires Holds(gr, seen)
    ensures var (gr', report) := Process(cfg, jitter, now, gr, heavy, light);
            Holds(gr', SeenAfter(seen, report, heavy, light))
  {
    var (gr', report) := Process(cfg, jitter, now, gr, heavy, light);
    SuccessIsStored(cfg, jitter, gr, now, heavy, light);
    if report.Applied(Heavy) {
      MergeNothing(heavy.value.modems);
    } else if report.Applied(Light) {
      MergeComposes(seen.payload.modems, seen.updates, light.value);
    }
  }

  lemma {:induction false} CycleHolds(cfg: Settings, t: Track, now: Time, heavy: HeavyPolls, light: LightPolls, i: nat,
                                      sg: Sg, seen: Seen)
    requires i <= |t.s.groups| && Holds(GroupOf(t.s, sg), seen)
    ensures Holds(GroupOf(TrackCycle(cfg, t, now, heavy, light, i).s, sg),
                  SeenInCycle(cfg, t, now, heavy, light, i, sg, seen))
    decreases |t.s.groups| - i
  {
    if i < |t.s.groups| {
      var g := t.s.groups[i];
      var (s', report) := Handle(cfg, t.s, g, now, heavy(i), light(i));
      HandleGroup(cfg, t.s, g, now, heavy(i), light(i));
      if g == sg {
        TurnHolds(cfg, JitterOf(t.s, sg), GroupOf(t.s, sg), now, heavy(i), light(i), seen);
      }
      CycleHolds(cfg, Noted(t, s', g, report, now), now, heavy, light, i + 1, sg,
                 if g == sg then SeenAfter(seen, report, heavy(i), light(i)) else seen);
    }
  }

  lemma SameEntry(a: Group, b: Group, seen: Seen)
    requires a.entry == b.entry && Holds(a, seen)
    ensures Holds(b, seen)
  {
  }

  lemma OtherHolds(cfg: Settings, t: Track, ev: Event, sg: Sg, seen: Seen)
    requires Holds(GroupOf(t.s, sg), seen) && (ev.CycleAt? ==> !cfg.enabled)
    ensures Holds(GroupOf(After(cfg, t, ev).s, sg), seen)
  {
    if ev.AskAt? {
      AskKeepsEntries(cfg, t.s, ev.sg, ev.mode, ev.now);
    }
    assert After(cfg, t, ev).s.entries == t.s.entries;
    SameEntry(GroupOf(t.s, sg), GroupOf(After(cfg, t, ev).s, sg), seen);
  }

  lemma {:induction false} RunHolds(cfg: Settings, t: Track, events: seq<Event>, sg: Sg, seen: Seen)
    requires Holds(GroupOf(t.s, sg), seen)
    ensures Holds(GroupOf(Final(cfg, t, events).s, sg), SeenInRun(cfg, t, events, sg, seen))
    decreases |events|
  {
    if events != [] {
      var t1 := After(cfg, t, events[0]);
      if events[0].CycleAt? && cfg.enabled {
        var CycleAt(now, heavy, light) := events[0];
        CycleHolds(cfg, t, now, heavy, light, 0, sg, seen);
        RunHolds(cfg, t1, events[1..], sg, SeenInCycle(cfg, t, now, heavy, light, 0, sg, seen));
      } else {
        OtherHolds(cfg, t, events[0], sg, seen);
        RunHolds(cfg, t1, events[1..], sg, seen);
      }
    }
  }

  /** After every run a group holds the channels of its last successful heavy refresh, and of that refresh's modems each
      in its place, as the last light update for its MAC since then has it; without a heavy refresh it holds none. */
  lemma CacheHoldsLast(cfg: Settings, groups: seq<Sg>, draw: Sg -> int, events: seq<Event>, sg: Sg)
    ensures var t := Final(cfg, Start(cfg, groups, draw), events);
            var seen := SeenInRun(cfg, Start(cfg, groups, draw), events, sg, NOTHING);
            var modems := ModemsOf(GroupOf(t.s, sg));
            && ChannelsOf(GroupOf(t.s, sg)) == seen.payload.channels
            && |modems| == |seen.payload.modems|
            && forall i :: 0 <= i < |modems| ==> Updated(seen.payload.modems[i], seen.updates, modems[i])
  {
    var seen := SeenInRun(cfg, Start(cfg, groups, draw), events, sg, NOTHING);
    RunHolds(cfg, Start(cfg, groups, draw), events, sg, NOTHING);
    MergeUpdates(seen.payload.modems, seen.updates);
  }

  // ---- the decisions over whole runs ----------------------------------------------------------

  /** What a request does: it is noted, and pending from then on, exactly when the group is listed and the request is
      light or the last heavy refresh is a heavy interval ago; otherwise nothing changes but the time. */
  lemma AskTaken(cfg: Settings, t: Track, sg: Sg, mode: Mode, now: Time)
    ensures var t' := After(cfg, t, AskAt(sg, mode, now));
            var gr := GroupOf(t.s, sg);
            var taken := sg in t.s.groups && (mode == Light || Past(LastHeavy(gr), cfg.pollHeavy, now));
            && t'.clock == now && t'.heavyTimes == t.heavyTimes
            && Asked(t', sg) == Asked(t, sg) + (if taken then [mode] else [])
            && (!taken ==> t'.s == t.s)
            && (taken ==>
                  && GroupOf(t'.s, sg) == gr.(request := if mode == Heavy || gr.request == Some(Heavy) then Some(Heavy)
                                                         else Some(Light))
                  && t'.s.groups == t.s.groups)
            && forall h :: h != sg ==> GroupOf(t'.s, h) == GroupOf(t.s, h) && Asked(t', h) == Asked(t, h)
  {
    AskedExactly(cfg, GroupOf(t.s, sg), mode, now);
    forall h ensures GroupOf(WithGroup(t.s, sg, Ask(cfg, GroupOf(t.s, sg), mode, now)), h)
                     == if h == sg then Ask(cfg, GroupOf(t.s, sg), mode, now) else GroupOf(t.s, h) {
      AskGroup(t.s, sg, Ask(cfg, GroupOf(t.s, sg), mode, now), h);
    }
    var gr := GroupOf(t.s, sg);
    assert gr.request.Some? ==> gr.request.value.Light? || gr.request.value.Heavy?;
    assert mode.Light? || mode.Heavy?;
    assert Accepts(cfg, gr, mode, now) ==>
        Ask(cfg, gr, mode, now)
        == gr.(request := if mode == Heavy || gr.request == Some(Heavy) then Some(Heavy) else Some(Light));
  }

  /** After every run, a request for a group is refused exactly when it is heavy and the last successful heavy refresh
      is not yet a heavy interval ago. */
  lemma AcceptedExactly(cfg: Settings, groups: seq<Sg>, draw: Sg -> int, events: seq<Event>, sg: Sg, mode: Mode,
                        now: Time)
    requires GoodSettings(cfg) && Run(cfg, Start(cfg, groups, draw), events)
    ensures var t := Final(cfg, Start(cfg, groups, draw), events);
            var times := HeavyTimes(t, sg);
            Accepts(cfg, GroupOf(t.s, sg), mode, now) <==>
            mode == Light || times == [] || now - times[|times| - 1] >= cfg.pollHeavy as real
  {
    var t := Final(cfg, Start(cfg, groups, draw), events);
    EveryRun(cfg, groups, draw, events);
    assert GroupOk(cfg, GroupOf(t.s, sg), t.clock, Asked(t, sg), HeavyTimes(t, sg));
    AskedExactly(cfg, GroupOf(t.s, sg), mode, now);
  }

  /** After every run, the next turn of a group tries a heavy refresh exactly when one has been accepted since its last
      turn, or nothing has and the last successful one is as long ago as the interval and the jitter. */
  lemma HeavyIsTriedExactly(cfg: Settings, groups: seq<Sg>, draw: Sg -> int, events: seq<Event>, sg: Sg, now: Time,
                            heavy: Polled<Payload>, light: Polled<seq<Modem>>)
    requires GoodSettings(cfg) && Run(cfg, Start(cfg, groups, draw), events)
    ensures var t := Final(cfg, Start(cfg, groups, draw), events);
            var times := HeavyTimes(t, sg);
            Handle(cfg, t.s, sg, now, heavy, light).1.tried == Some(Heavy) <==>
            || Heavy in Asked(t, sg)
            || (&& Asked(t, sg) == []
                && (times == [] || now - times[|times| - 1] >= (cfg.pollHeavy + JitterOf(t.s, sg)) as real))
  {
    var t := Final(cfg, Start(cfg, groups, draw), events);
    EveryRun(cfg, groups, draw, events);
    assert GroupOk(cfg, GroupOf(t.s, sg), t.clock, Asked(t, sg), HeavyTimes(t, sg));
    HandleGroup(cfg, t.s, sg, now, heavy, light);
    TriedExactly(cfg, JitterOf(t.s, sg), GroupOf(t.s, sg), now, heavy, light);
  }

  // ---- the lists a cycle returns --------------------------------------------------------------

  lemma {:induction false} SummariseSnoc(r: Result, groups: seq<Sg>, reports: seq<Report>)
    requires |groups| == |reports| > 0
    ensures var n := |groups| - 1;
            Summarise(r, groups, reports) == Listed(Summarise(r, groups[..n], reports[..n]), groups[n], reports[n])
    decreases |groups|
  {
    var n := |groups| - 1;
    if n > 0 {
      SummariseSnoc(Listed(r, groups[0], reports[0]), groups[1..], reports[1..]);
      assert groups[1..][..n - 1] == groups[..n][1..] && reports[1..][..n - 1] == reports[..n][1..];
    }
  }

  /** The groups at some positions. */
  function At(groups: seq<Sg>, at: seq<nat>): seq<Sg>
    requires forall k :: 0 <= k < |at| ==> at[k] < |groups|
  {
    seq(|at|, k requires 0 <= k < |at| => groups[at[k]])
  }

  /** The list has the groups whose reports have the property, once for each turn and in the order of the turns. */
  ghost predicate Exactly(list: seq<Sg>, groups: seq<Sg>, reports: seq<Report>, p: Report -> bool)
    requires |groups| == |reports|
  {
    exists at :: Picks(at, reports, p) && list == At(groups, at)
  }

  /** Likewise for the failed groups, each with its message. */
  ghost predicate ExactErrors(list: seq<(Sg, string)>, groups: seq<Sg>, reports: seq<Report>)
    requires |groups| == |reports|
  {
    exists at :: Picks(at, reports, FAILED) && |list| == |at| &&
      forall k :: 0 <= k < |at| ==> list[k] == (groups[at[k]], reports[at[k]].error.value)
  }

  lemma OneMoreAt(groups: seq<Sg>, reports: seq<Report>, p: Report -> bool)
    requires |groups| == |reports| > 0
    ensures var n := |groups| - 1;
            At(groups, Where(reports, p))
            == At(groups[..n], Where(reports[..n], p)) + if p(reports[n]) then [groups[n]] else []
  {
  }

  lemma {:induction false} ListIsWhere(groups: seq<Sg>, reports: seq<Report>)
    requires |groups| == |reports|
    ensures var r := Summarise(Result([], [], [], []), groups, reports);
            && r.heavy == At(groups, Where(reports, HEAVY_DONE))
            && r.light == At(groups, Where(reports, ANY_DONE))
            && r.stale == At(groups, Where(reports, AGED))
    decreases |groups|
  {
    if groups != [] {
      var n := |groups| - 1;
      ListIsWhere(groups[..n], reports[..n]);
      SummariseSnoc(Result([], [], [], []), groups, reports);
      OneMoreAt(groups, reports, HEAVY_DONE);
      OneMoreAt(groups, reports, ANY_DONE);
      OneMoreAt(groups, reports, AGED);
    }
  }

  lemma {:induction false} ErrorsAreWhere(groups: seq<Sg>, reports: seq<Report>)
    requires |groups| == |reports|
    ensures var errors, at := Summarise(Result([], [], [], []), groups, reports).errors, Where(reports, FAILED);
            && |errors| == |at|
            && forall k :: 0 <= k < |at| ==> errors[k] == (groups[at[k]], reports[at[k]].error.value)
    decreases |groups|
  {
    if groups != [] {
      var n := |groups| - 1;
      ErrorsAreWhere(groups[..n], reports[..n]);
      SummariseSnoc(Result([], [], [], []), groups, reports);
    }
  }

  /** The lists of a cycle, from the reports of its turns: who was refreshed heavily, who at all, whose entry is stale,
      and who failed with which message. */
  lemma ListsAreReports(cfg: Settings, s: Sgw, now: Time, heavy: HeavyPolls, light: LightPolls)
    requires cfg.enabled
    ensures var r := RefreshOnce(cfg, s, now, heavy, light).1;
            var reports := CycleFrom(cfg, s, now, heavy, light, 0).1;
            && |reports| == |s.groups|
            && Exactly(r.heavy, s.groups, reports, HEAVY_DONE)
            && Exactly(r.light, s.groups, reports, ANY_DONE)
            && Exactly(r.stale, s.groups, reports, AGED)
            && ExactErrors(r.errors, s.groups, reports)
  {
    CycleShape(cfg, s, now, heavy, light, 0);
    var reports := CycleFrom(cfg, s, now, heavy, light, 0).1;
    ListIsWhere(s.groups, reports);
    ErrorsAreWhere(s.groups, reports);
    WherePicks(reports, HEAVY_DONE);
    WherePicks(reports, ANY_DONE);
    WherePicks(reports, AGED);
    WherePicks(reports, FAILED);
  }
}
