/** One service group in the refresh cache: its entry, its pending request, its counters, and what one
    refresh cycle does with them. */
module SgwCache {
  import opened Basics

  /** A poller either raises, with a message, or returns. */
  datatype Polled<+T> = Raised(message: string) | Returned(value: T)

  datatype Modem = Modem(mac: string, ipv4: string, ipv6: string, registration: int)

  datatype Channels = Channels(dsChSetId: int, usChSetId: int, ds: seq<int>, us: seq<int>, dsRf: seq<int>,
                               usRf: seq<int>)

  datatype RefreshState = OK | STALE | ERROR

  datatype Metadata = Metadata(
    snapshotTime: Time,
    age: Time,
    lastHeavy: Option<Time>,
    lastLight: Option<Time>,
    state: RefreshState,
    lastError: Option<string>)

  datatype Entry = Entry(channels: Channels, modems: seq<Modem>, meta: Metadata)

  datatype Payload = Payload(channels: Channels, modems: seq<Modem>)

  datatype Mode = Light | Heavy

  datatype Counts = Counts(heavy: nat, light: nat)

  datatype Group = Group(entry: Option<Entry>, request: Option<Mode>, counts: Counts)

  /** What a cycle did for one group, with the message an error left in the entry. */
  datatype Report = Report(tried: Option<Mode>, error: Option<string>, stale: bool) {
    predicate Applied(mode: Mode) {
      tried == Some(mode) && error.None?
    }
  }

  /** `normalize` trims and bounds an error message. */
  datatype Settings = Settings(
    enabled: bool,
    pollHeavy: int,
    pollLight: int,
    jitterMax: int,
    cacheMaxAge: int,
    normalize: string -> string)

  /** What the settings validation insists on. */
  predicate GoodSettings(cfg: Settings) {
    && 0 < cfg.pollLight <= cfg.pollHeavy
    && 0 <= cfg.jitterMax <= cfg.pollLight <= cfg.cacheMaxAge
  }

  const EMPTY_CHANNELS := Channels(0, 0, [], [], [], [])

  function NewEntry(now: Time): Entry {
    Entry(EMPTY_CHANNELS, [], Metadata(now, 0.0, None, None, OK, None))
  }

  // ---- merging light updates ------------------------------------------------------------------

  /** The last update for a MAC, if any. */
  function Latest(mac: string, updates: seq<Modem>): Option<Modem> {
    if updates == [] then None
    else if updates[|updates| - 1].mac == mac then Some(updates[|updates| - 1])
    else Latest(mac, updates[..|updates| - 1])
  }

  function Merge(existing: seq<Modem>, updates: seq<Modem>): seq<Modem> {
    seq(|existing|, i requires 0 <= i < |existing| =>
      var u := Latest(existing[i].mac, updates); if u.Some? then u.value else existing[i])
  }

  /** The `j`-th update is the last for the MAC. */
  ghost predicate IsLast(updates: seq<Modem>, mac: string, j: int) {
    0 <= j < |updates| && updates[j].mac == mac && forall k :: j < k < |updates| ==> updates[k].mac != mac
  }

  /** What becomes of a modem under some updates: the last one for its MAC, or what it was when there is none. */
  ghost predicate Updated(before: Modem, updates: seq<Modem>, after: Modem) {
    || (exists j :: IsLast(updates, before.mac, j) && after == updates[j])
    || ((forall j :: 0 <= j < |updates| ==> updates[j].mac != before.mac) && after == before)
  }

  lemma {:induction false} LatestIsLast(mac: string, updates: seq<Modem>)
    ensures match Latest(mac, updates)
            case None => forall j :: 0 <= j < |updates| ==> updates[j].mac != mac
            case Some(u) => exists j :: IsLast(updates, mac, j) && u == updates[j]
  {
    if updates != [] {
      var n := |updates| - 1;
      if updates[n].mac == mac {
        assert IsLast(updates, mac, n);
      } else {
        LatestIsLast(mac, updates[..n]);
        if Latest(mac, updates).Some? {
          var j :| IsLast(updates[..n], mac, j) && Latest(mac, updates).value == updates[..n][j];
          assert IsLast(updates, mac, j) && updates[j] == updates[..n][j];
        } else {
          forall j | 0 <= j < |updates| ensures updates[j].mac != mac {
            assert j < n ==> updates[..n][j] == updates[j];
          }
        }
      }
    }
  }

  /** Merging updates every cached modem in its place, adds none and removes none. */
  lemma MergeUpdates(existing: seq<Modem>, updates: seq<Modem>)
    ensures |Merge(existing, updates)| == |existing|
    ensures forall i :: 0 <= i < |existing| ==> Updated(existing[i], updates, Merge(existing, updates)[i])
  {
    forall i | 0 <= i < |existing| ensures Updated(existing[i], updates, Merge(existing, updates)[i]) {
      LatestIsLast(existing[i].mac, updates);
    }
  }

  function Macs(modems: seq<Modem>): seq<string> {
    seq(|modems|, i requires 0 <= i < |modems| => modems[i].mac)
  }

  lemma {:induction false} LatestMac(mac: string, updates: seq<Modem>)
    ensures Latest(mac, updates).Some? ==> Latest(mac, updates).value.mac == mac
  {
    if updates != [] && updates[|updates| - 1].mac != mac {
      LatestMac(mac, updates[..|updates| - 1]);
    }
  }

  lemma {:induction false} LatestOfConcat(mac: string, a: seq<Modem>, b: seq<Modem>)
    ensures Latest(mac, a + b) == if Latest(mac, b).Some? then Latest(mac, b) else Latest(mac, a)
    decreases |b|
  {
    if b == [] {
      assert a + b == a;
    } else {
      assert (a + b)[|a + b| - 1] == b[|b| - 1];
      assert (a + b)[..|a + b| - 1] == a + b[..|b| - 1];
      if b[|b| - 1].mac != mac {
        LatestOfConcat(mac, a, b[..|b| - 1]);
      }
    }
  }

  lemma MergeKeepsMacs(existing: seq<Modem>, updates: seq<Modem>)
    ensures Macs(Merge(existing, updates)) == Macs(existing)
  {
    forall i | 0 <= i < |existing| ensures Merge(existing, updates)[i].mac == existing[i].mac {
      LatestMac(existing[i].mac, updates);
    }
  }

  /** Merging two batches one after the other is merging their concatenation, so merging a batch again changes
      nothing. */
  lemma MergeComposes(existing: seq<Modem>, first: seq<Modem>, second: seq<Modem>)
    ensures Merge(Merge(existing, first), second) == Merge(existing, first + second)
    ensures Merge(Merge(existing, first), first) == Merge(existing, first)
  {
    MergeTwice(existing, first, second);
    MergeTwice(existing, first, first);
    forall i | 0 <= i < |existing| ensures Merge(existing, first + first)[i] == Merge(existing, first)[i] {
      LatestOfConcat(existing[i].mac, first, first);
    }
  }

  lemma MergeTwice(existing: seq<Modem>, first: seq<Modem>, second: seq<Modem>)
    ensures Merge(Merge(existing, first), second) == Merge(existing, first + second)
  {
    forall i | 0 <= i < |existing|
      ensures Merge(Merge(existing, first), second)[i] == Merge(existing, first + second)[i]
    {
      LatestMac(existing[i].mac, first);
      LatestOfConcat(existing[i].mac, first, second);
    }
  }

  // ---- one group in one cycle -------------------------------------------------------------------

  predicate Due(last: Option<Time>, interval: int, jitter: int, now: Time) {
    last.None? || now - last.value >= (interval + jitter) as real
  }

  function Choose(cfg: Settings, jitter: int, now: Time, request: Option<Mode>, meta: Metadata): Option<Mode> {
    if request.Some? then request
    else if Due(meta.lastHeavy, cfg.pollHeavy, jitter, now) then Some(Heavy)
    else if Due(meta.lastLight, cfg.pollLight, jitter, now) then Some(Light)
    else None
  }

  function RefreshHeavy(e: Entry, now: Time, p: Payload): Entry {
    Entry(p.channels, p.modems, Metadata(now, 0.0, Some(now), Some(now), OK, None))
  }

  function RefreshLight(e: Entry, now: Time, modems: seq<Modem>): Entry {
    e.(modems := modems,
       meta := e.meta.(snapshotTime := now, age := 0.0, lastLight := Some(now), state := OK, lastError := None))
  }

  function MarkError(e: Entry, now: Time, message: string): Entry {
    e.(meta := e.meta.(snapshotTime := now, age := 0.0, state := ERROR, lastError := Some(message)))
  }

  function Age(meta: Metadata, now: Time): Time {
    if now - meta.snapshotTime < 0.0 then 0.0 else now - meta.snapshotTime
  }

  predicate IsStale(age: Time, cacheMaxAge: int) {
    age >= cacheMaxAge as real
  }

  /** The end of a cycle: the age is brought up to date and an entry without error is judged by it. */
  function Judge(cfg: Settings, e: Entry, now: Time): (Entry, bool) {
    var aged := e.meta.(age := Age(e.meta, now));
    if aged.state == ERROR then (e.(meta := aged), false)
    else
      var stale := IsStale(aged.age, cfg.cacheMaxAge);
      (e.(meta := aged.(state := if stale then STALE else OK)), stale)
  }

  function Attempt(cfg: Settings, e: Entry, now: Time, mode: Mode, heavy: Polled<Payload>,
                   light: Polled<seq<Modem>>): (Entry, Option<string>)
  {
    match mode
    case Heavy =>
      if heavy.Raised? then
        (MarkError(e, now, cfg.normalize(cfg.normalize(heavy.message))), Some(cfg.normalize(heavy.message)))
      else (RefreshHeavy(e, now, heavy.value), None)
    case Light =>
      if light.Raised? then
        (MarkError(e, now, cfg.normalize(cfg.normalize(light.message))), Some(cfg.normalize(light.message)))
      else (RefreshLight(e, now, Merge(e.modems, light.value)), None)
  }

  function Counted(c: Counts, mode: Mode): Counts {
    if mode == Heavy then Counts(c.heavy + 1, c.light + 1) else c.(light := c.light + 1)
  }

  /** A cycle's work for one group. An attempt counts unless it failed with an empty message. */
  function Process(cfg: Settings, jitter: int, now: Time, gr: Group, heavy: Polled<Payload>,
                   light: Polled<seq<Modem>>): (Group, Report)
  {
    var e := if gr.entry.Some? then gr.entry.value else NewEntry(now);
    var mode := Choose(cfg, jitter, now, gr.request, e.meta);
    if mode.None? then
      var (e', stale) := Judge(cfg, e, now);
      (Group(Some(e'), None, gr.counts), Report(None, None, stale))
    else
      var (tried, error) := Attempt(cfg, e, now, mode.value, heavy, light);
      var (e', stale) := Judge(cfg, tried, now);
      var counts := if error.None? || error.value != "" then Counted(gr.counts, mode.value) else gr.counts;
      (Group(Some(e'), None, counts), Report(mode, if error.Some? then e'.meta.lastError else None, stale))
  }

  // ---- on-demand requests -----------------------------------------------------------------------

  predicate RateLimited(cfg: Settings, gr: Group, now: Time) {
    && gr.entry.Some? && gr.entry.value.meta.lastHeavy.Some?
    && now - gr.entry.value.meta.lastHeavy.value < cfg.pollHeavy as real
  }

  predicate Accepts(cfg: Settings, gr: Group, mode: Mode, now: Time) {
    !(mode == Heavy && RateLimited(cfg, gr, now))
  }

  /** A request for a managed group: refused, or merged with the pending one. */
  function Ask(cfg: Settings, gr: Group, mode: Mode, now: Time): Group {
    if !Accepts(cfg, gr, mode, now) then gr
    else if gr.request == Some(Heavy) then gr
    else if mode == Heavy || gr.request.None? then gr.(request := Some(mode))
    else gr
  }

  /** The strongest of the given requests. */
  function Strongest(asked: seq<Mode>): Option<Mode> {
    if asked == [] then None else if Heavy in asked then Some(Heavy) else Some(Light)
  }

  // ---- what every group keeps -------------------------------------------------------------------

  /** Heavy refreshes are at least the heavy interval apart. */
  ghost predicate Spaced(cfg: Settings, times: seq<Time>) {
    forall i, j :: 0 <= i < j < |times| ==> times[j] - times[i] >= cfg.pollHeavy as real
  }

  /** The metadata of an entry at time `clock`. */
  ghost predicate MetaOk(meta: Metadata, clock: Time) {
    && meta.snapshotTime <= clock
    && (meta.lastLight.Some? ==> meta.lastLight.value <= meta.snapshotTime)
    && (meta.lastHeavy.Some? ==> meta.lastLight.Some? && meta.lastHeavy.value <= meta.lastLight.value)
    && (meta.state == ERROR <==> meta.lastError.Some?)
  }

  /** A group at time `clock`, with the requests accepted since the last cycle that processed it and the times
      of its successful heavy refreshes. */
  ghost predicate GroupOk(cfg: Settings, gr: Group, clock: Time, asked: seq<Mode>, heavyTimes: seq<Time>) {
    && (gr.entry.Some? ==> MetaOk(gr.entry.value.meta, clock))
    && gr.request == Strongest(asked)
    && gr.counts.heavy <= gr.counts.light
    && Spaced(cfg, heavyTimes)
    && (heavyTimes == [] <==> LastHeavy(gr).None?)
    && (heavyTimes != [] ==> LastHeavy(gr) == Some(heavyTimes[|heavyTimes| - 1]))
    && (gr.request == Some(Heavy) ==> HeavyMayRun(cfg, gr, clock))
  }

  ghost function LastHeavy(gr: Group): Option<Time> {
    if gr.entry.Some? then gr.entry.value.meta.lastHeavy else None
  }

  ghost predicate HeavyMayRun(cfg: Settings, gr: Group, clock: Time) {
    LastHeavy(gr).Some? ==> clock - LastHeavy(gr).value >= cfg.pollHeavy as real
  }

  function HeavyTimesAfter(times: seq<Time>, report: Report, now: Time): seq<Time> {
    if report.Applied(Heavy) then times + [now] else times
  }

  lemma LaterOk(cfg: Settings, gr: Group, clock: Time, now: Time, asked: seq<Mode>, times: seq<Time>)
    requires GroupOk(cfg, gr, clock, asked, times) && clock <= now
    ensures GroupOk(cfg, gr, now, asked, times)
  {
  }

  lemma SpacedSnoc(cfg: Settings, times: seq<Time>, now: Time)
    requires Spaced(cfg, times) && 0 < cfg.pollHeavy
    requires times != [] ==> now - times[|times| - 1] >= cfg.pollHeavy as real
    ensures Spaced(cfg, times + [now])
  {
    forall i | 0 <= i < |times| ensures now - times[i] >= cfg.pollHeavy as real {
      assert i < |times| - 1 ==> times[|times| - 1] - times[i] >= cfg.pollHeavy as real;
    }
  }

  lemma ProcessOk(cfg: Settings, jitter: int, gr: Group, now: Time, asked: seq<Mode>, times: seq<Time>,
                  heavy: Polled<Payload>, light: Polled<seq<Modem>>)
    requires GoodSettings(cfg) && 0 <= jitter && GroupOk(cfg, gr, now, asked, times)
    ensures var (gr', report) := Process(cfg, jitter, now, gr, heavy, light);
            GroupOk(cfg, gr', now, [], HeavyTimesAfter(times, report, now))
  {
    var (gr', report) := Process(cfg, jitter, now, gr, heavy, light);
    ProcessedMeta(cfg, jitter, gr, now, heavy, light);
    ProcessedHeavy(cfg, jitter, gr, now, heavy, light);
    if report.Applied(Heavy) {
      SpacedSnoc(cfg, times, now);
    }
  }

  lemma ProcessedMeta(cfg: Settings, jitter: int, gr: Group, now: Time, heavy: Polled<Payload>,
                      light: Polled<seq<Modem>>)
    requires gr.entry.Some? ==> MetaOk(gr.entry.value.meta, now)
    requires gr.counts.heavy <= gr.counts.light
    ensures var gr' := Process(cfg, jitter, now, gr, heavy, light).0;
            && gr'.entry.Some? && MetaOk(gr'.entry.value.meta, now)
            && gr'.request == None && gr'.counts.heavy <= gr'.counts.light
  {
  }

  /** A successful heavy refresh is dated, is allowed when the group is due or its request is, and nothing else moves
      the date. */
  lemma ProcessedHeavy(cfg: Settings, jitter: int, gr: Group, now: Time, heavy: Polled<Payload>,
                       light: Polled<seq<Modem>>)
    requires 0 <= jitter && (gr.request == Some(Heavy) ==> HeavyMayRun(cfg, gr, now))
    ensures var (gr', report) := Process(cfg, jitter, now, gr, heavy, light);
            && LastHeavy(gr') == (if report.Applied(Heavy) then Some(now) else LastHeavy(gr))
            && (report.Applied(Heavy) ==> HeavyMayRun(cfg, gr, now))
  {
  }

  lemma AskOk(cfg: Settings, gr: Group, mode: Mode, now: Time, asked: seq<Mode>, times: seq<Time>)
    requires GroupOk(cfg, gr, now, asked, times)
    ensures GroupOk(cfg, Ask(cfg, gr, mode, now), now,
                    if Accepts(cfg, gr, mode, now) then asked + [mode] else asked, times)
  {
    assert Heavy in asked + [mode] <==> Heavy in asked || mode == Heavy;
  }

  /** At the end of a cycle an entry without an error is younger than the light interval plus the group's jitter. */
  lemma ProcessIsFresh(cfg: Settings, jitter: int, gr: Group, now: Time, asked: seq<Mode>, times: seq<Time>,
                       heavy: Polled<Payload>, light: Polled<seq<Modem>>)
    requires GoodSettings(cfg) && 0 <= jitter && GroupOk(cfg, gr, now, asked, times)
    ensures var (gr', report) := Process(cfg, jitter, now, gr, heavy, light);
            var meta := gr'.entry.value.meta;
            && (meta.state != ERROR ==> meta.age < (cfg.pollLight + jitter) as real)
            && (cfg.cacheMaxAge >= cfg.pollLight + jitter ==> !report.stale && meta.state != STALE)
            && (report.stale <==> meta.state == STALE)
            && (report.stale <==> meta.state != ERROR && meta.age >= cfg.cacheMaxAge as real)
            && meta.age == now - meta.snapshotTime
  {
    ProcessedAge(cfg, jitter, gr, now, heavy, light);
    ProcessedLight(cfg, jitter, gr, now, heavy, light);
  }

  /** At the end of a turn the age is the time since the snapshot, or 0 when the clock has gone back behind it, and the
      entry is stale exactly when it is not in error and that age has reached the limit. */
  lemma ProcessedAge(cfg: Settings, jitter: int, gr: Group, now: Time, heavy: Polled<Payload>,
                     light: Polled<seq<Modem>>)
    ensures var (gr', report) := Process(cfg, jitter, now, gr, heavy, light);
            var meta := gr'.entry.value.meta;
            && gr'.entry.Some?
            && (report.stale <==> meta.state == STALE)
            && (report.stale <==> meta.state != ERROR && meta.age >= cfg.cacheMaxAge as real)
            && meta.age == if meta.snapshotTime <= now then now - meta.snapshotTime else 0.0
  {
  }

  /** Without an error the snapshot is of now, or so recent that no light refresh is due. */
  lemma ProcessedLight(cfg: Settings, jitter: int, gr: Group, now: Time, heavy: Polled<Payload>,
                       light: Polled<seq<Modem>>)
    requires 0 < cfg.pollLight && 0 <= jitter && (gr.entry.Some? ==> MetaOk(gr.entry.value.meta, now))
    ensures var meta := Process(cfg, jitter, now, gr, heavy, light).0.entry.value.meta;
            meta.state != ERROR ==> now - meta.snapshotTime < (cfg.pollLight + jitter) as real
  {
  }

  /** A failed attempt marks the entry and leaves everything else in it as it was, the times of the last
      refreshes included; a turn without an attempt only judges it. */
  lemma FailureKeepsData(cfg: Settings, jitter: int, gr: Group, now: Time, heavy: Polled<Payload>,
                         light: Polled<seq<Modem>>)
    requires gr.entry.Some?
    ensures var (gr', report) := Process(cfg, jitter, now, gr, heavy, light);
            var e, e' := gr.entry.value, gr'.entry.value;
            && (report.tried.None? || report.error.Some? ==>
                  && e'.channels == e.channels && e'.modems == e.modems
                  && e'.meta.lastHeavy == e.meta.lastHeavy && e'.meta.lastLight == e.meta.lastLight)
            && (report.tried.None? ==>
                  e'.meta.snapshotTime == e.meta.snapshotTime && e'.meta.lastError == e.meta.lastError)
            && (report.error.Some? ==>
                  e'.meta.state == ERROR && e'.meta.lastError == report.error && e'.meta.snapshotTime == now)
            && (report.tried.Some? && report.error.None? ==>
                  e'.meta.lastError == None && e'.meta.lastLight == Some(now) && e'.meta.snapshotTime == now)
  {
  }

  /** The poller of the mode raises with a message that is empty once normalised. */
  ghost predicate Unspoken(cfg: Settings, mode: Mode, heavy: Polled<Payload>, light: Polled<seq<Modem>>) {
    if mode == Heavy then heavy.Raised? && cfg.normalize(heavy.message) == ""
    else light.Raised? && cfg.normalize(light.message) == ""
  }

  /** A heavy attempt counts on both counters and a light one on one; a failure without a message goes uncounted. */
  lemma AttemptsAreCounted(cfg: Settings, jitter: int, gr: Group, now: Time, heavy: Polled<Payload>,
                           light: Polled<seq<Modem>>)
    ensures var (gr', report) := Process(cfg, jitter, now, gr, heavy, light);
            var c, c' := gr.counts, gr'.counts;
            && (|| c' == c
                || (c'.light == c.light + 1 && c'.heavy == c.heavy + if report.tried == Some(Heavy) then 1 else 0))
            && (c' == c <==> report.tried.None? || Unspoken(cfg, report.tried.value, heavy, light))
  {
  }

  /** Without a successful heavy refresh a group keeps its channels and its modems' MACs, in order. */
  lemma ProcessKeepsMembership(cfg: Settings, jitter: int, gr: Group, now: Time,
                               heavy: Polled<Payload>, light: Polled<seq<Modem>>)
    requires gr.entry.Some?
    ensures var (gr', report) := Process(cfg, jitter, now, gr, heavy, light);
            && gr'.entry.Some?
            && (!report.Applied(Heavy) ==>
                  && gr'.entry.value.channels == gr.entry.value.channels
                  && Macs(gr'.entry.value.modems) == Macs(gr.entry.value.modems))
  {
    if light.Returned? {
      MergeKeepsMacs(gr.entry.value.modems, light.value);
    }
  }

  ghost function LastLight(gr: Group): Option<Time> {
    if gr.entry.Some? then gr.entry.value.meta.lastLight else None
  }

  /** Nothing has happened yet, or not for `d` seconds. */
  ghost predicate Past(last: Option<Time>, d: int, now: Time) {
    last.Some? ==> now - last.value >= d as real
  }

  /** What a turn tries: the pending request; without one a heavy refresh when its interval and the jitter are over,
      else a light one when its are, else nothing. */
  lemma TriedExactly(cfg: Settings, jitter: int, gr: Group, now: Time, heavy: Polled<Payload>,
                     light: Polled<seq<Modem>>)
    ensures var report := Process(cfg, jitter, now, gr, heavy, light).1;
            var heavyDue := Past(LastHeavy(gr), cfg.pollHeavy + jitter, now);
            var lightDue := Past(LastLight(gr), cfg.pollLight + jitter, now);
            && (report.tried == Some(Heavy) <==> gr.request == Some(Heavy) || (gr.request == None && heavyDue))
            && (report.tried == Some(Light) <==>
                  gr.request == Some(Light) || (gr.request == None && !heavyDue && lightDue))
  {
  }

  /** A turn fails exactly when the poller it tries raises, and then reports and keeps that poller's message. */
  lemma FailsExactly(cfg: Settings, jitter: int, gr: Group, now: Time, heavy: Polled<Payload>,
                     light: Polled<seq<Modem>>)
    ensures var (gr', report) := Process(cfg, jitter, now, gr, heavy, light);
            && (report.error.Some? <==>
                  || (report.tried == Some(Heavy) && heavy.Raised?)
                  || (report.tried == Some(Light) && light.Raised?))
            && (report.error.Some? ==>
                  && gr'.entry.Some? && gr'.entry.value.meta.lastError == report.error
                  && report.error.value == cfg.normalize(cfg.normalize(
                                             if report.tried == Some(Heavy) then heavy.message else light.message)))
  {
  }

  /** The channels and modems of a group; before its first entry there are none. */
  ghost function ChannelsOf(gr: Group): Channels {
    if gr.entry.Some? then gr.entry.value.channels else Channels(0, 0, [], [], [], [])
  }

  ghost function ModemsOf(gr: Group): seq<Modem> {
    if gr.entry.Some? then gr.entry.value.modems else []
  }

  /** What a successful turn stores. A heavy refresh stores what was polled; a light one keeps the channels and updates
      the modems; both date the entry. */
  lemma SuccessIsStored(cfg: Settings, jitter: int, gr: Group, now: Time, heavy: Polled<Payload>,
                        light: Polled<seq<Modem>>)
    ensures var (gr', report) := Process(cfg, jitter, now, gr, heavy, light);
            && gr'.entry.Some?
            && (report.Applied(Heavy) ==>
                  && heavy.Returned?
                  && ChannelsOf(gr') == heavy.value.channels && ModemsOf(gr') == heavy.value.modems
                  && LastHeavy(gr') == LastLight(gr') == Some(now))
            && (report.Applied(Light) ==>
                  && light.Returned?
                  && ChannelsOf(gr') == ChannelsOf(gr)
                  && ModemsOf(gr') == Merge(ModemsOf(gr), light.value)
                  && LastHeavy(gr') == LastHeavy(gr) && LastLight(gr') == Some(now))
            && (!report.Applied(Heavy) && !report.Applied(Light) ==>
                  && ChannelsOf(gr') == ChannelsOf(gr) && ModemsOf(gr') == ModemsOf(gr)
                  && LastHeavy(gr') == LastHeavy(gr) && LastLight(gr') == LastLight(gr))
  {
  }

  /** A light refresh updates every modem in its place. */
  lemma LightIsMerged(cfg: Settings, jitter: int, gr: Group, now: Time, heavy: Polled<Payload>,
                      light: Polled<seq<Modem>>)
    ensures var (gr', report) := Process(cfg, jitter, now, gr, heavy, light);
            report.Applied(Light) ==>
              && light.Returned? && |ModemsOf(gr')| == |ModemsOf(gr)|
              && forall i :: 0 <= i < |ModemsOf(gr)| ==> Updated(ModemsOf(gr)[i], light.value, ModemsOf(gr')[i])
  {
    SuccessIsStored(cfg, jitter, gr, now, heavy, light);
    if light.Returned? {
      MergeUpdates(ModemsOf(gr), light.value);
    }
  }

  /** A request is refused exactly when it is heavy and the last heavy refresh is not yet a heavy interval ago; an
      accepted heavy one makes the pending request heavy, an accepted light one only fills an empty place, and nothing
      else of the group changes. */
  lemma AskedExactly(cfg: Settings, gr: Group, mode: Mode, now: Time)
    ensures Accepts(cfg, gr, mode, now) <==> mode == Light || Past(LastHeavy(gr), cfg.pollHeavy, now)
    ensures var gr' := Ask(cfg, gr, mode, now);
            && gr'.entry == gr.entry && gr'.counts == gr.counts
            && (Accepts(cfg, gr, mode, now) ==>
                  && gr'.request.Some?
                  && (gr'.request == Some(Heavy) <==> mode == Heavy || gr.request == Some(Heavy)))
            && (!Accepts(cfg, gr, mode, now) ==> gr'.request == gr.request)
  {
  }

  /** A pending request is carried out by the next cycle whatever is due, and is gone afterwards. */
  lemma RequestIsServed(cfg: Settings, jitter: int, gr: Group, now: Time,
                        heavy: Polled<Payload>, light: Polled<seq<Modem>>)
    ensures var (gr', report) := Process(cfg, jitter, now, gr, heavy, light);
            && gr'.request == None
            && (gr.request.Some? ==> report.tried == gr.request)
  {
  }
}
