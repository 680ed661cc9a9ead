/** The governor over its whole history. */
module WorkerGuardRuns {
  import opened Basics
  import opened WorkerGuard

  datatype Event = Check(obs: Observation, now: Time) | Restart(now: Time)

  /** The deque, every restart ever recorded, the latest time seen, the latest time the deque was pruned at, and
      whether an evaluation since the last restart has allowed one. */
  datatype Track = Track(times: seq<Time>, history: seq<Time>, clock: Time, pruned: Time, allowed: bool)

  function Start(clock: Time): Track {
    Track([], [], clock, clock, false)
  }

  /** The clock does not go back, and a restart is recorded only when an evaluation has allowed it. */
  predicate Disciplined(t: Track, ev: Event) {
    t.clock <= ev.now && (ev.Restart? ==> t.allowed)
  }

  function After(l: Limits, t: Track, ev: Event): Track {
    match ev
    case Check(obs, now) =>
      var (times, decision) := Evaluated(l, t.times, obs, now);
      Track(times, t.history, now, if Wanted(obs) == [] then t.pruned else now, t.allowed || decision.restart)
    case Restart(now) =>
      Track(Recorded(l, t.times, now), t.history + [now], now, now, false)
  }

  predicate Run(l: Limits, t: Track, events: seq<Event>)
    decreases |events|
  {
    events == [] || (Disciplined(t, events[0]) && Run(l, After(l, t, events[0]), events[1..]))
  }

  function Final(l: Limits, t: Track, events: seq<Event>): Track
    decreases |events|
  {
    if events == [] then t else Final(l, After(l, t, events[0]), events[1..])
  }

  function Gap(l: Limits): nat {
    if l.minInterval <= l.window then l.minInterval else l.window
  }

  /** By its full history the governor may restart at `now`. */
  ghost predicate Open(l: Limits, history: seq<Time>, now: Time) {
    && |Since(history, now - l.window as real)| < l.most
    && (history != [] ==> now - history[|history| - 1] >= Gap(l) as real)
  }

  /** The window that begins at `lo` holds no more restarts than allowed. */
  ghost predicate WindowFits(l: Limits, history: seq<Time>, lo: Time) {
    |Within(history, lo, lo + l.window as real)| <= l.most
  }

  ghost predicate Bounded(l: Limits, history: seq<Time>) {
    forall lo: Time :: WindowFits(l, history, lo)
  }

  ghost predicate Apart(history: seq<Time>, gap: nat) {
    forall i :: 0 < i < |history| ==> history[i] - history[i - 1] >= gap as real
  }

  ghost predicate Inv(l: Limits, t: Track) {
    && t.pruned <= t.clock
    && Sorted(t.history) && NotAfter(t.history, t.clock)
    && t.times == Prune(t.history, t.pruned - l.window as real)
    && (t.allowed ==> Open(l, t.history, t.clock))
    && Bounded(l, t.history)
    && Apart(t.history, Gap(l))
  }

  lemma {:induction false} LastOfPrune(times: seq<Time>, lo: Time)
    ensures var p := Prune(times, lo);
            && (p != [] ==> times != [] && p[|p| - 1] == times[|times| - 1])
            && (p == [] && times != [] ==> times[|times| - 1] < lo)
  {
    if times != [] && times[0] < lo {
      LastOfPrune(times[1..], lo);
    }
  }

  lemma StaysOpen(l: Limits, history: seq<Time>, now: Time, later: Time)
    requires Open(l, history, now) && now <= later
    ensures Open(l, history, later)
  {
    SinceShrinks(history, now - l.window as real, later - l.window as real);
  }

  /** The gate, judged on the pruned deque, judges the full history. */
  lemma GateIsHistory(l: Limits, t: Track, now: Time)
    requires Inv(l, t) && t.clock <= now
    ensures var pruned := Prune(t.times, now - l.window as real);
            var recent := Since(t.history, now - l.window as real);
            && pruned == recent
            && (Gate(l, pruned, now).None? <==>
                  && |recent| < l.most
                  && (t.history != [] ==>
                        var gap := now - t.history[|t.history| - 1];
                        gap >= l.minInterval as real || gap > l.window as real))
  {
    var start := now - l.window as real;
    PruneTwice(t.history, t.pruned - l.window as real, start);
    SinceIsPrune(t.history, start);
    LastOfPrune(t.history, start);
    if Prune(t.history, start) != [] {
      LastIsSince(t.history, start);
    }
  }

  lemma {:induction false} LastIsSince(times: seq<Time>, lo: Time)
    requires Sorted(times) && Prune(times, lo) != []
    ensures times != [] && times[|times| - 1] >= lo
  {
    if times[0] < lo {
      LastIsSince(times[1..], lo);
    }
  }

  lemma CheckKeeps(l: Limits, t: Track, obs: Observation, now: Time)
    requires Inv(l, t) && t.clock <= now
    ensures Inv(l, After(l, t, Check(obs, now)))
  {
    GateIsHistory(l, t, now);
    PruneTwice(t.history, t.pruned - l.window as real, now - l.window as real);
    if t.allowed {
      StaysOpen(l, t.history, t.clock, now);
    }
  }

  lemma WithinSnoc(history: seq<Time>, now: Time, lo: Time, hi: Time)
    ensures Within(history + [now], lo, hi)
            == if lo <= now <= hi then Within(history, lo, hi) + [now] else Within(history, lo, hi)
  {
    assert (history + [now])[..|history|] == history;
  }

  lemma BoundedSnoc(l: Limits, history: seq<Time>, now: Time)
    requires Bounded(l, history) && Open(l, history, now) && NotAfter(history, now)
    ensures Bounded(l, history + [now])
  {
    forall lo: Time ensures WindowFits(l, history + [now], lo) {
      var hi := lo + l.window as real;
      WithinSnoc(history, now, lo, hi);
      assert WindowFits(l, history, lo);
      if lo <= now <= hi {
        SinceIsWithin(history, lo, hi);
        SinceShrinks(history, now - l.window as real, lo);
      }
    }
  }

  lemma RestartKeeps(l: Limits, t: Track, now: Time)
    requires Inv(l, t) && t.clock <= now && t.allowed
    ensures Inv(l, After(l, t, Restart(now)))
  {
    var start := now - l.window as real;
    StaysOpen(l, t.history, t.clock, now);
    BoundedSnoc(l, t.history, now);
    PruneTwice(t.history, t.pruned - l.window as real, start);
    PruneSnoc(t.history, now, start);
  }

  lemma StartInv(l: Limits, clock: Time)
    ensures Inv(l, Start(clock))
  {
    forall lo: Time ensures WindowFits(l, [], lo) {
    }
  }

  lemma {:induction false} RunKeeps(l: Limits, t: Track, events: seq<Event>)
    requires Inv(l, t) && Run(l, t, events)
    ensures Inv(l, Final(l, t, events))
    decreases |events|
  {
    if events != [] {
      match events[0] {
        case Check(obs, now) => CheckKeeps(l, t, obs, now);
        case Restart(now) => RestartKeeps(l, t, now);
      }
      RunKeeps(l, After(l, t, events[0]), events[1..]);
    }
  }

  // ---- the whole history ----------------------------------------------------------------------------

  /** Every closed window holds at most the allowed number of restarts, consecutive restarts are at least the
      smaller of interval and window apart, and the deque is the history from the last pruning's window on. */
  lemma RestartsAreBounded(l: Limits, clock: Time, events: seq<Event>, lo: Time)
    requires Run(l, Start(clock), events)
    ensures var t := Final(l, Start(clock), events);
            && WindowFits(l, t.history, lo)
            && Apart(t.history, Gap(l))
            && t.times == Since(t.history, t.pruned - l.window as real)
  {
    StartInv(l, clock);
    RunKeeps(l, Start(clock), events);
    var t := Final(l, Start(clock), events);
    SinceIsPrune(t.history, t.pruned - l.window as real);
  }

  /** There is a positive memory threshold, and the memory in use is known and has reached it. */
  ghost predicate MemoryReached(obs: Observation) {
    && obs.rss.Some? && obs.rssThreshold.Some?
    && 0 < obs.rssThreshold.value <= obs.rss.value
  }

  /** There is a positive limit of consecutive error cycles, and it is reached. */
  ghost predicate ErrorsReached(obs: Observation) {
    obs.maxErrorCycles.Some? && 0 < obs.maxErrorCycles.value <= obs.errorCycles
  }

  /** By the history the last restart is too recent: neither as old as the interval nor out of the window. */
  ghost predicate Recent(l: Limits, history: seq<Time>, now: Time) {
    && history != []
    && var gap := now - history[|history| - 1];
    && gap < l.minInterval as real && gap <= l.window as real
  }

  /** By the history the window holds all the restarts it may. */
  ghost predicate Full(l: Limits, history: seq<Time>, now: Time) {
    |Within(history, now - l.window as real, now)| >= l.most
  }

  /** After every run, an evaluation allows a restart exactly when the memory or the error cycles have reached their
      limit, the history's window is not full, and the last restart is as old as the interval or has left the window. */
  lemma AllowsExactly(l: Limits, clock: Time, events: seq<Event>, obs: Observation, now: Time)
    requires Run(l, Start(clock), events) && Final(l, Start(clock), events).clock <= now
    ensures var t := Final(l, Start(clock), events);
            Evaluated(l, t.times, obs, now).1.restart <==>
            (MemoryReached(obs) || ErrorsReached(obs)) && !Full(l, t.history, now) && !Recent(l, t.history, now)
  {
    StartInv(l, clock);
    RunKeeps(l, Start(clock), events);
    AllowsNow(l, Final(l, Start(clock), events), obs, now);
  }

  lemma AllowsNow(l: Limits, t: Track, obs: Observation, now: Time)
    requires Inv(l, t) && t.clock <= now
    ensures Evaluated(l, t.times, obs, now).1.restart <==>
            (MemoryReached(obs) || ErrorsReached(obs)) && !Full(l, t.history, now) && !Recent(l, t.history, now)
  {
    GateCloses(l, t, now);
    Outcome(l, t.times, obs, now, Gate(l, Prune(t.times, now - l.window as real), now));
  }

  /** The reasons a decision gives, in their order, and whether it restarts, by what the gate says. */
  lemma Outcome(l: Limits, times: seq<Time>, obs: Observation, now: Time, gate: Option<Reason>)
    requires gate == Gate(l, Prune(times, now - l.window as real), now)
    ensures var decision := Evaluated(l, times, obs, now).1;
            var wanted := MemoryReached(obs) || ErrorsReached(obs);
            && (decision.restart <==> wanted && gate.None?)
            && Given(decision.reasons, obs)
            && (TooSoon in decision.reasons <==> wanted && gate == Some(TooSoon))
            && (TooMany in decision.reasons <==> wanted && gate == Some(TooMany))
  {
    var held := if (MemoryReached(obs) || ErrorsReached(obs)) && gate.Some? then [gate.value] else [];
    assert Wanted(obs) == Facts(obs);
    assert Evaluated(l, times, obs, now).1.reasons == Facts(obs) + held;
    FactsGiven(obs, held);
  }

  ghost function Facts(obs: Observation): seq<Reason> {
    (if MemoryReached(obs) then [RssAbove(obs.rss.value, obs.rssThreshold.value)] else [])
    + (if ErrorsReached(obs) then [ErrorCycles(obs.errorCycles, obs.maxErrorCycles.value)] else [])
  }

  lemma FactsGiven(obs: Observation, held: seq<Reason>)
    requires held == [] || held == [TooSoon] || held == [TooMany]
    ensures Given(Facts(obs) + held, obs)
    ensures TooSoon in Facts(obs) + held <==> held == [TooSoon]
    ensures TooMany in Facts(obs) + held <==> held == [TooMany]
  {
    var facts := Facts(obs);
    if MemoryReached(obs) {
      assert (facts + held)[0] == RssAbove(obs.rss.value, obs.rssThreshold.value);
    }
    if ErrorsReached(obs) {
      assert (facts + held)[|facts| - 1] == ErrorCycles(obs.errorCycles, obs.maxErrorCycles.value);
    }
    assert held != [] ==> (facts + held)[|facts|] == held[0];
  }

  /** The memory and the error cycles are given as reasons exactly when they have reached their limit, with the
      values observed; the reasons are listed in a fixed order, each at most once. */
  ghost predicate Given(reasons: seq<Reason>, obs: Observation) {
    && (forall rss, threshold :: RssAbove(rss, threshold) in reasons <==>
          MemoryReached(obs) && rss == obs.rss.value && threshold == obs.rssThreshold.value)
    && (forall cycles, limit :: ErrorCycles(cycles, limit) in reasons <==>
          ErrorsReached(obs) && cycles == obs.errorCycles && limit == obs.maxErrorCycles.value)
    && (forall i, j :: 0 <= i < j < |reasons| ==> Rank(reasons[i]) < Rank(reasons[j]))
  }

  /** The gate gives its reason by the history, the interval first. */
  lemma GateCloses(l: Limits, t: Track, now: Time)
    requires Inv(l, t) && t.clock <= now
    ensures Gate(l, Prune(t.times, now - l.window as real), now) ==
            if Recent(l, t.history, now) then Some(TooSoon) else if Full(l, t.history, now) then Some(TooMany) else None
  {
    var start := now - l.window as real;
    GateIsHistory(l, t, now);
    SinceIsWithin(t.history, start, now);
    SinceIsPrune(t.history, start);
    LastOfPrune(t.history, start);
    if Prune(t.history, start) != [] {
      LastIsSince(t.history, start);
    }
  }

  /** The reasons an evaluation gives, after every run: the memory and its threshold exactly when that is reached, then
      the error cycles and their limit exactly when that is, and, when one of them is, what by the history holds the
      restart back, if anything does. */
  lemma ReasonsExactly(l: Limits, clock: Time, events: seq<Event>, obs: Observation, now: Time)
    requires Run(l, Start(clock), events) && Final(l, Start(clock), events).clock <= now
    ensures var t := Final(l, Start(clock), events);
            var reasons := Evaluated(l, t.times, obs, now).1.reasons;
            var wanted := MemoryReached(obs) || ErrorsReached(obs);
            && Given(reasons, obs)
            && (TooSoon in reasons <==> wanted && Recent(l, t.history, now))
            && (TooMany in reasons <==> wanted && !Recent(l, t.history, now) && Full(l, t.history, now))
  {
    StartInv(l, clock);
    RunKeeps(l, Start(clock), events);
    ReasonsNow(l, Final(l, Start(clock), events), obs, now);
  }

  lemma ReasonsNow(l: Limits, t: Track, obs: Observation, now: Time)
    requires Inv(l, t) && t.clock <= now
    ensures var reasons := Evaluated(l, t.times, obs, now).1.reasons;
            var wanted := MemoryReached(obs) || ErrorsReached(obs);
            && Given(reasons, obs)
            && (TooSoon in reasons <==> wanted && Recent(l, t.history, now))
            && (TooMany in reasons <==> wanted && !Recent(l, t.history, now) && Full(l, t.history, now))
  {
    GateCloses(l, t, now);
    Outcome(l, t.times, obs, now, Gate(l, Prune(t.times, now - l.window as real), now));
  }

  /** The order in which reasons are listed. */
  function Rank(reason: Reason): nat {
    match reason
    case RssAbove(_, _) => 0
    case ErrorCycles(_, _) => 1
    case TooSoon => 2
    case TooMany => 2
  }

  /** The second observation is of at least as much memory and as many error cycles, under the same thresholds. */
  ghost predicate Worse(obs: Observation, worse: Observation) {
    && worse.rssThreshold == obs.rssThreshold && worse.maxErrorCycles == obs.maxErrorCycles
    && obs.errorCycles <= worse.errorCycles
    && (obs.rss.Some? ==> worse.rss.Some? && obs.rss.value <= worse.rss.value)
  }

  /** More memory in use or more error cycles never turn an allowed restart into none. */
  lemma WorseIsNotRefused(l: Limits, clock: Time, events: seq<Event>, obs: Observation, worse: Observation, now: Time)
    requires Run(l, Start(clock), events) && Final(l, Start(clock), events).clock <= now && Worse(obs, worse)
    ensures var times := Final(l, Start(clock), events).times;
            Evaluated(l, times, obs, now).1.restart ==> Evaluated(l, times, worse, now).1.restart
  {
    AllowsExactly(l, clock, events, obs, now);
    AllowsExactly(l, clock, events, worse, now);
  }

  /** The interval holds between all consecutive restarts of every run. */
  ghost predicate IntervalKept(l: Limits) {
    forall clock: Time, events: seq<Event> ::
      Run(l, Start(clock), events) ==> Apart(Final(l, Start(clock), events).history, l.minInterval)
  }

  /** A restart forgotten by the window no longer holds the next one back. */
  lemma LongIntervalIsForgotten(l: Limits)
    requires 1 <= l.most && l.window < l.minInterval
    ensures !IntervalKept(l)
  {
    var obs := Observation(None, 1, None, Some(1));
    var later := l.window as real + 0.5;
    var events := [Check(obs, 0.0), Restart(0.0), Check(obs, later), Restart(later)];
    var t0 := Start(0.0);
    var t1 := After(l, t0, events[0]);
    var t2 := After(l, t1, events[1]);
    var t3 := After(l, t2, events[2]);
    var t4 := After(l, t3, events[3]);
    assert t1.allowed;
    assert t2.times == [0.0];
    assert Prune([0.0], 0.5) == [] by {
      assert [0.0][1..] == [];
    }
    assert t3.allowed;
    assert t4.history == [0.0, later] && t4.history[1] - t4.history[0] < l.minInterval as real;
    Four(l, t0, events[0], events[1], events[2], events[3]);
    assert !Apart(t4.history, l.minInterval);
    assert Run(l, Start(0.0), events);
  }

  lemma Four(l: Limits, t: Track, a: Event, b: Event, c: Event, d: Event)
    requires var t1 := After(l, t, a);
             var t2 := After(l, t1, b);
             var t3 := After(l, t2, c);
             Disciplined(t, a) && Disciplined(t1, b) && Disciplined(t2, c) && Disciplined(t3, d)
    ensures Run(l, t, [a, b, c, d])
    ensures Final(l, t, [a, b, c, d]) == After(l, After(l, After(l, After(l, t, a), b), c), d)
  {
    var t1 := After(l, t, a);
    var t2 := After(l, t1, b);
    var t3 := After(l, t2, c);
    assert [a, b, c, d][1..] == [b, c, d] && [b, c, d][1..] == [c, d] && [c, d][1..] == [d] && [d][1..] == [];
    assert Run(l, t3, [d]) && Final(l, t3, [d]) == Final(l, After(l, t3, d), []);
    assert Run(l, t2, [c, d]) && Final(l, t2, [c, d]) == Final(l, t3, [d]);
    assert Run(l, t1, [b, c, d]) && Final(l, t1, [b, c, d]) == Final(l, t2, [c, d]);
  }

  /** The configured interval between restarts is kept over every run exactly when it fits in the window. */
  lemma IntervalKeptExactly(l: Limits)
    requires 1 <= l.most
    ensures IntervalKept(l) <==> l.minInterval <= l.window
  {
    if l.minInterval <= l.window {
      forall clock: Time, events: seq<Event> | Run(l, Start(clock), events)
        ensures Apart(Final(l, Start(clock), events).history, l.minInterval)
      {
        RestartsAreBounded(l, clock, events, 0.0);
      }
    } else {
      LongIntervalIsForgotten(l);
    }
  }
}
