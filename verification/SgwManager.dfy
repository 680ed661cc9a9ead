/** SgwManager with its store: dictionaries per service group, updated group by group in a refresh cycle. */
module SgwManager {
  import opened Basics
  import opened SgwCache

  datatype Sgw = Sgw(
    groups: seq<Sg>,
    entries: map<Sg, Entry>,
    requests: map<Sg, Mode>,
    counts: map<Sg, Counts>,
    jitter: map<Sg, int>)

  /** The lists a cycle returns. */
  datatype Result = Result(heavy: seq<Sg>, light: seq<Sg>, stale: seq<Sg>, errors: seq<(Sg, string)>)

  type HeavyPolls = nat -> Polled<Payload>
  type LightPolls = nat -> Polled<seq<Modem>>

  function CountsOf(s: Sgw, sg: Sg): Counts {
    if sg in s.counts then s.counts[sg] else Counts(0, 0)
  }

  function GroupOf(s: Sgw, sg: Sg): Group {
    Group(
      if sg in s.entries then Some(s.entries[sg]) else None,
      if sg in s.requests then Some(s.requests[sg]) else None,
      CountsOf(s, sg))
  }

  function WithGroup(s: Sgw, sg: Sg, gr: Group): Sgw {
    s.(entries := if gr.entry.Some? then s.entries[sg := gr.entry.value] else s.entries,
       requests := if gr.request.Some? then s.requests[sg := gr.request.value] else s.requests - {sg},
       counts := if gr.counts == CountsOf(s, sg) then s.counts else s.counts[sg := gr.counts])
  }

  function JitterOf(s: Sgw, sg: Sg): int {
    if sg in s.jitter then s.jitter[sg] else 0
  }

  function Clamp(value: int, most: int): int {
    if value < 0 then 0 else if value > most then most else value
  }

  function Tabulate<T>(groups: seq<Sg>, f: Sg -> T): map<Sg, T> {
    map g | g in groups :: f(g)
  }

  lemma TabulateSnoc<T>(groups: seq<Sg>, g: Sg, f: Sg -> T)
    ensures Tabulate(groups + [g], f) == Tabulate(groups, f)[g := f(g)]
    ensures g in groups ==> Tabulate(groups + [g], f) == Tabulate(groups, f)
  {
  }

  function Regroup(cfg: Settings, s: Sgw, groups: seq<Sg>, draw: Sg -> int): Sgw {
    s.(groups := groups,
       jitter := Tabulate(groups, g => Clamp(draw(g), cfg.jitterMax)),
       counts := Tabulate(groups, g => CountsOf(s, g)))
  }

  /** What a new list of groups leaves of a group: one that is listed keeps its entry, its request and its counts and
      gets the jitter drawn for it, moved into bounds; one that is not keeps its entry and its request. */
  lemma RegroupExactly(cfg: Settings, s: Sgw, groups: seq<Sg>, draw: Sg -> int, sg: Sg)
    requires 0 <= cfg.jitterMax
    ensures var s' := Regroup(cfg, s, groups, draw);
            && s'.groups == groups && s'.entries == s.entries && s'.requests == s.requests
            && (sg in groups ==>
                  && GroupOf(s', sg) == GroupOf(s, sg)
                  && sg in s'.jitter && 0 <= s'.jitter[sg] <= cfg.jitterMax
                  && (s'.jitter[sg] < draw(sg) ==> s'.jitter[sg] == cfg.jitterMax)
                  && (s'.jitter[sg] > draw(sg) ==> s'.jitter[sg] == 0))
            && (sg !in groups ==> GroupOf(s', sg) == GroupOf(s, sg).(counts := Counts(0, 0)))
            && s'.jitter.Keys == s'.counts.Keys == set g | g in groups
  {
  }

  /** A manager without groups over a store. */
  function NewManager(store: map<Sg, Entry>): Sgw {
    Sgw([], store, map[], map[], map[])
  }

  function Handle(cfg: Settings, s: Sgw, sg: Sg, now: Time, heavy: Polled<Payload>, light: Polled<seq<Modem>>): (Sgw,
                  Report)
  {
    var (gr, report) := Process(cfg, JitterOf(s, sg), now, GroupOf(s, sg), heavy, light);
    (WithGroup(s, sg, gr), report)
  }

  /** A cycle from the `i`-th listed group on, with one report for each. */
  function CycleFrom(cfg: Settings, s: Sgw, now: Time, heavy: HeavyPolls, light: LightPolls, i: nat): (Sgw, seq<Report>)
    requires i <= |s.groups|
    decreases |s.groups| - i
  {
    if i == |s.groups| then (s, [])
    else
      var (s', report) := Handle(cfg, s, s.groups[i], now, heavy(i), light(i));
      var (end, rest) := CycleFrom(cfg, s', now, heavy, light, i + 1);
      (end, [report] + rest)
  }

  function Listed(r: Result, sg: Sg, report: Report): Result {
    Result(
      if report.Applied(Heavy) then r.heavy + [sg] else r.heavy,
      if report.Applied(Heavy) || report.Applied(Light) then r.light + [sg] else r.light,
      if report.stale then r.stale + [sg] else r.stale,
      if report.error.Some? then r.errors + [(sg, report.error.value)] else r.errors)
  }

  function Summarise(r: Result, groups: seq<Sg>, reports: seq<Report>): Result
    requires |groups| == |reports|
    decreases |groups|
  {
    if groups == [] then r else Summarise(Listed(r, groups[0], reports[0]), groups[1..], reports[1..])
  }

  lemma SummariseNext(r: Result, groups: seq<Sg>, reports: seq<Report>, i: nat)
    requires i < |groups| == |reports|
    ensures Summarise(r, groups[i..], reports[i..])
            == Summarise(Listed(r, groups[i], reports[i]), groups[i + 1..], reports[i + 1..])
  {
    assert groups[i..][1..] == groups[i + 1..] && reports[i..][1..] == reports[i + 1..];
  }

  lemma HeadAndRest(reports: seq<Report>, i: nat, head: Report, rest: seq<Report>)
    requires i < |reports| && reports[i..] == [head] + rest
    ensures reports[i] == head && reports[i + 1..] == rest
  {
    assert reports[i..][0] == head && reports[i..][1..] == rest;
  }

  /** A cycle that has come to the `i`-th group will end in `end` with the lists in `total`. */
  ghost predicate UnderWay(cfg: Settings, s: Sgw, now: Time, heavy: HeavyPolls, light: LightPolls, i: nat,
                           r: Result, end: Sgw, reports: seq<Report>, total: Result)
  {
    && i <= |s.groups| == |reports|
    && CycleFrom(cfg, s, now, heavy, light, i) == (end, reports[i..])
    && Summarise(r, s.groups[i..], reports[i..]) == total
  }

  lemma WayGoesOn(cfg: Settings, s: Sgw, s': Sgw, now: Time, heavy: HeavyPolls, light: LightPolls, i: nat,
                  r: Result, end: Sgw, reports: seq<Report>, total: Result, report: Report)
    requires UnderWay(cfg, s, now, heavy, light, i, r, end, reports, total)
    requires i < |s.groups| && s'.groups == s.groups
    requires var (rest, more) := CycleFrom(cfg, s', now, heavy, light, i + 1);
             CycleFrom(cfg, s, now, heavy, light, i) == (rest, [report] + more)
    ensures UnderWay(cfg, s', now, heavy, light, i + 1, Listed(r, s.groups[i], report), end, reports, total)
  {
    SummariseNext(r, s.groups, reports, i);
    HeadAndRest(reports, i, report, CycleFrom(cfg, s', now, heavy, light, i + 1).1);
  }

  lemma {:induction false} CycleShape(cfg: Settings, s: Sgw, now: Time, heavy: HeavyPolls, light: LightPolls, i: nat)
    requires i <= |s.groups|
    ensures var (end, reports) := CycleFrom(cfg, s, now, heavy, light, i);
            |reports| == |s.groups| - i && end.groups == s.groups && end.jitter == s.jitter
    decreases |s.groups| - i
  {
    if i < |s.groups| {
      CycleShape(cfg, Handle(cfg, s, s.groups[i], now, heavy(i), light(i)).0, now, heavy, light, i + 1);
    }
  }

  /** What Handle amounts to once the entry and the mode are known. */
  lemma HandleParts(cfg: Settings, s: Sgw, sg: Sg, now: Time, heavy: Polled<Payload>, light: Polled<seq<Modem>>,
                    e: Entry, mode: Option<Mode>)
    requires e == if sg in s.entries then s.entries[sg] else NewEntry(now)
    requires mode == Choose(cfg, JitterOf(s, sg), now, GroupOf(s, sg).request, e.meta)
    ensures mode.None? ==>
              var (judged, stale) := Judge(cfg, e, now);
              Handle(cfg, s, sg, now, heavy, light)
              == (s.(entries := s.entries[sg := judged], requests := s.requests - {sg}), Report(None, None, stale))
    ensures mode.Some? ==>
              var (tried, error) := Attempt(cfg, e, now, mode.value, heavy, light);
              var (judged, stale) := Judge(cfg, tried, now);
              Handle(cfg, s, sg, now, heavy, light)
              == (s.(entries := s.entries[sg := judged], requests := s.requests - {sg},
                     counts := if error.None? || error.value != ""
                               then s.counts[sg := Counted(CountsOf(s, sg), mode.value)] else s.counts),
                  Report(mode, if error.Some? then judged.meta.lastError else None, stale))
  {
  }

  lemma CycleStep(cfg: Settings, s: Sgw, now: Time, heavy: HeavyPolls, light: LightPolls, i: nat, s': Sgw,
                  report: Report)
    requires i < |s.groups| && (s', report) == Handle(cfg, s, s.groups[i], now, heavy(i), light(i))
    ensures s'.groups == s.groups
    ensures var (end, rest) := CycleFrom(cfg, s', now, heavy, light, i + 1);
            CycleFrom(cfg, s, now, heavy, light, i) == (end, [report] + rest)
  {
  }

  function RefreshOnce(cfg: Settings, s: Sgw, now: Time, heavy: HeavyPolls, light: LightPolls): (Sgw, Result) {
    if !cfg.enabled then (s, Result([], [], [], []))
    else
      var (end, reports) := CycleFrom(cfg, s, now, heavy, light, 0);
      CycleShape(cfg, s, now, heavy, light, 0);
      (end, Summarise(Result([], [], [], []), s.groups, reports))
  }

  /** Every listed group has a jitter within bounds. */
  ghost predicate Jittered(cfg: Settings, s: Sgw) {
    forall g :: g in s.groups ==> g in s.jitter && 0 <= s.jitter[g] <= cfg.jitterMax
  }

  class SgwManager {
    const cfg: Settings
    var groups: seq<Sg>
    var entries: map<Sg, Entry>
    var requests: map<Sg, Mode>
    var counts: map<Sg, Counts>
    var jitter: map<Sg, int>

    function State(): Sgw
      reads this
    {
      Sgw(groups, entries, requests, counts, jitter)
    }

    /** A manager over a store that may already have entries, as after a restart. */
    constructor (cfg: Settings, store: map<Sg, Entry>, groups: seq<Sg>, draw: Sg -> int)
      requires GoodSettings(cfg)
      ensures this.cfg == cfg
      ensures State() == Regroup(cfg, NewManager(store), groups, draw)
      ensures Jittered(cfg, State())
    {
      this.cfg := cfg;
      this.groups, entries, requests, counts, jitter := [], store, map[], map[], map[];
      new;
      SetServiceGroups(groups, draw);
    }

    method SetServiceGroups(groups: seq<Sg>, draw: Sg -> int)
      requires GoodSettings(cfg)
      modifies this
      ensures State() == Regroup(cfg, old(State()), groups, draw)
      ensures Jittered(cfg, State())
    {
      ghost var s := State();
      ghost var jitterOf, countsOf := g => Clamp(draw(g), cfg.jitterMax), g => CountsOf(s, g);
      this.groups := groups;
      jitter := map[];
      var kept: map<Sg, Counts> := map[];
      for i := 0 to |groups|
        invariant this.groups == groups && entries == s.entries && requests == s.requests && counts == s.counts
        invariant jitter == Tabulate(groups[..i], jitterOf)
        invariant kept == Tabulate(groups[..i], countsOf)
      {
        var sg := groups[i];
        assert groups[..i + 1] == groups[..i] + [sg];
        TabulateSnoc(groups[..i], sg, jitterOf);
        TabulateSnoc(groups[..i], sg, countsOf);
        if sg !in jitter {
          jitter := jitter[sg := Clamp(draw(sg), cfg.jitterMax)];
        }
        kept := kept[sg := if sg in counts then counts[sg] else Counts(0, 0)];
      }
      assert groups[..|groups|] == groups;
      counts := kept;
    }

    method ResetRefreshCounts(sg: Sg) returns (ok: bool)
      modifies this
      ensures ok == (sg in old(groups))
      ensures State() == if ok then old(State()).(counts := old(counts)[sg := Counts(0, 0)]) else old(State())
    {
      if sg !in groups {
        return false;
      }
      counts := counts[sg := Counts(0, 0)];
      return true;
    }

    method RequestRefresh(sg: Sg, mode: Option<Mode>, now: Time) returns (accepted: bool)
      modifies this
      ensures accepted == (mode.Some? && sg in old(groups) && Accepts(cfg, old(GroupOf(State(), sg)), mode.value, now))
      ensures accepted ==> State() == WithGroup(old(State()), sg, Ask(cfg, old(GroupOf(State(), sg)), mode.value, now))
      ensures !accepted ==> State() == old(State())
    {
      if mode.None? || sg !in groups {
        return false;
      }
      if mode.value == Heavy && RateLimited(cfg, GroupOf(State(), sg), now) {
        return false;
      }
      if sg in requests && requests[sg] == Heavy {
        assert requests == requests[sg := Heavy];
        assert sg in entries ==> entries == entries[sg := entries[sg]];
        return true;
      }
      if mode.value == Heavy || sg !in requests {
        requests := requests[sg := mode.value];
      }
      assert sg in entries ==> entries == entries[sg := entries[sg]];
      assert requests == requests[sg := requests[sg]];
      return true;
    }

    /** Polls and updates the entry; a poller that raises marks it. */
    method Poll(sg: Sg, now: Time, mode: Mode, heavy: Polled<Payload>, light: Polled<seq<Modem>>)
      returns (error: Option<string>)
      requires sg in entries
      modifies this`entries
      ensures var (e, err) := Attempt(cfg, old(entries[sg]), now, mode, heavy, light);
              error == err && entries == old(entries)[sg := e]
    {
      var entry := entries[sg];
      error := None;
      if mode == Heavy {
        if heavy.Returned? {
          entries := entries[sg := RefreshHeavy(entry, now, heavy.value)];
        } else {
          error := Some(cfg.normalize(heavy.message));
          entries := entries[sg := MarkError(entry, now, cfg.normalize(error.value))];
        }
      } else {
        if light.Returned? {
          var merged := Merge(entry.modems, light.value);
          entries := entries[sg := RefreshLight(entry, now, merged)];
        } else {
          error := Some(cfg.normalize(light.message));
          entries := entries[sg := MarkError(entry, now, cfg.normalize(error.value))];
        }
      }
    }

    /** The refresh a group is due for; a pending request is taken out and goes first. */
    method TakeMode(sg: Sg, now: Time) returns (mode: Option<Mode>)
      requires sg in entries
      modifies this`requests
      ensures mode == Choose(cfg, JitterOf(State(), sg), now, old(GroupOf(State(), sg).request), entries[sg].meta)
      ensures requests == old(requests) - {sg}
    {
      var meta := entries[sg].meta;
      if sg in requests {
        mode := Some(requests[sg]);
        requests := requests - {sg};
      } else if Due(meta.lastHeavy, cfg.pollHeavy, JitterOf(State(), sg), now) {
        mode := Some(Heavy);
      } else if Due(meta.lastLight, cfg.pollLight, JitterOf(State(), sg), now) {
        mode := Some(Light);
      } else {
        mode := None;
      }
    }

    /** The end of one group's turn: the entry is judged, and an attempt is counted unless it failed without a
        message. */
    method Conclude(sg: Sg, now: Time, mode: Option<Mode>, error: Option<string>) returns (stale: bool)
      requires sg in entries
      modifies this`entries, this`counts
      ensures var (judged, isStale) := Judge(cfg, old(entries[sg]), now);
              stale == isStale && entries == old(entries)[sg := judged]
      ensures counts == if mode.Some? && (error.None? || error.value != "")
                        then old(counts)[sg := Counted(old(CountsOf(State(), sg)), mode.value)] else old(counts)
    {
      var (judged, isStale) := Judge(cfg, entries[sg], now);
      stale := isStale;
      entries := entries[sg := judged];
      if mode.Some? && (error.None? || error.value != "") {
        var c := if sg in counts then counts[sg] else Counts(0, 0);
        counts := counts[sg := Counted(c, mode.value)];
      }
    }

    /** One group's turn in a cycle. */
    method RefreshGroup(sg: Sg, now: Time, heavy: Polled<Payload>, light: Polled<seq<Modem>>) returns (report: Report)
      modifies this
      ensures (State(), report) == Handle(cfg, old(State()), sg, now, heavy, light)
    {
      if sg !in entries {
        entries := entries[sg := NewEntry(now)];
      }
      ghost var e := entries[sg];
      var mode := TakeMode(sg, now);
      var error: Option<string> := None;
      if mode.Some? {
        error := Poll(sg, now, mode.value, heavy, light);
      }
      var stale := Conclude(sg, now, mode, error);
      report := Report(mode, if error.Some? then entries[sg].meta.lastError else None, stale);
      assert entries == old(entries)[sg := entries[sg]];
      assert (State(), report) == Handle(cfg, old(State()), sg, now, heavy, light) by {
        HandleParts(cfg, old(State()), sg, now, heavy, light, e, mode);
      }
    }

    method RefreshNth(i: nat, now: Time, heavy: HeavyPolls, light: LightPolls) returns (report: Report)
      requires i < |groups|
      modifies this
      ensures groups == old(groups)
      ensures var (end, rest) := CycleFrom(cfg, State(), now, heavy, light, i + 1);
              CycleFrom(cfg, old(State()), now, heavy, light, i) == (end, [report] + rest)
    {
      ghost var s := State();
      report := RefreshGroup(groups[i], now, heavy(i), light(i));
      CycleStep(cfg, s, now, heavy, light, i, State(), report);
    }

    /** A whole cycle; a negative time is refused, and nothing happens while the cache is disabled. */
    method Refresh(now: Time, heavy: HeavyPolls, light: LightPolls) returns (ok: bool, result: Result)
      modifies this
      ensures ok == (now >= 0.0)
      ensures ok ==> (State(), result) == RefreshOnce(cfg, old(State()), now, heavy, light)
      ensures !ok ==> State() == old(State())
    {
      result := Result([], [], [], []);
      if now < 0.0 {
        return false, result;
      }
      if !cfg.enabled {
        return true, result;
      }
      ghost var s, total := State(), RefreshOnce(cfg, State(), now, heavy, light);
      CycleShape(cfg, s, now, heavy, light, 0);
      ghost var all := CycleFrom(cfg, s, now, heavy, light, 0);
      assert all.1[0..] == all.1 && s.groups[0..] == s.groups;
      var i := 0;
      while i < |groups|
        invariant 0 <= i <= |groups| && groups == s.groups
        invariant UnderWay(cfg, State(), now, heavy, light, i, result, all.0, all.1, total.1)
      {
        ghost var before := State();
        var sg := groups[i];
        var report := RefreshNth(i, now, heavy, light);
        WayGoesOn(cfg, before, State(), now, heavy, light, i, result, all.0, all.1, total.1, report);
        result := Listed(result, sg, report);
        i := i + 1;
      }
      return true, result;
    }
  }
}
