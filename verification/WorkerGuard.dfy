/** The restart governor: a deque of restart times, pruned to a sliding window. */
module WorkerGuard {
  import opened Basics

  /** The limits after the constructor has clamped them. */
  datatype Limits = Limits(minInterval: nat, most: nat, window: nat)

  /** Why a restart is wanted, or why it is held back. */
  datatype Reason = RssAbove(rss: int, threshold: int) | ErrorCycles(cycles: int, limit: int) | TooSoon | TooMany

  datatype Decision = Decision(restart: bool, reasons: seq<Reason>)

  /** The observed facts and the thresholds they are held against. */
  datatype Observation = Observation(rss: Option<int>, errorCycles: int, rssThreshold: Option<int>,
                                     maxErrorCycles: Option<int>)

  function Clamped(minInterval: int, most: int, window: int): Limits {
    Limits(if minInterval < 0 then 0 else minInterval, if most < 1 then 1 else most, if window < 1 then 1 else window)
  }

  /** Of the values from `least` on this is the one nearest to the configured one. */
  ghost predicate Nearest(value: int, configured: int, least: int) {
    value >= least && (value == configured || (configured < least && value == least))
  }

  lemma ClampedIsNearest(minInterval: int, most: int, window: int)
    ensures var l := Clamped(minInterval, most, window);
            Nearest(l.minInterval, minInterval, 0) && Nearest(l.most, most, 1) && Nearest(l.window, window, 1)
  {
  }

  function Wanted(obs: Observation): seq<Reason> {
    (if obs.rssThreshold.Some? && obs.rssThreshold.value > 0 && obs.rss.Some? && obs.rss.value >= obs.rssThreshold.value
     then [RssAbove(obs.rss.value, obs.rssThreshold.value)] else [])
    + (if obs.maxErrorCycles.Some? && obs.maxErrorCycles.value > 0 && obs.errorCycles >= obs.maxErrorCycles.value
       then [ErrorCycles(obs.errorCycles, obs.maxErrorCycles.value)] else [])
  }

  /** The deque without its leading times before `start`. */
  function Prune(times: seq<Time>, start: Time): seq<Time> {
    if times == [] || times[0] >= start then times else Prune(times[1..], start)
  }

  function Gate(l: Limits, pruned: seq<Time>, now: Time): Option<Reason> {
    if pruned != [] && now - pruned[|pruned| - 1] < l.minInterval as real then Some(TooSoon)
    else if |pruned| >= l.most then Some(TooMany)
    else None
  }

  function Evaluated(l: Limits, times: seq<Time>, obs: Observation, now: Time): (seq<Time>, Decision) {
    var reasons := Wanted(obs);
    if reasons == [] then (times, Decision(false, []))
    else
      var pruned := Prune(times, now - l.window as real);
      var gate := Gate(l, pruned, now);
      (pruned, if gate.Some? then Decision(false, reasons + [gate.value]) else Decision(true, reasons))
  }

  function Recorded(l: Limits, times: seq<Time>, now: Time): seq<Time> {
    Prune(times, now - l.window as real) + [now]
  }

  class WorkerGuardController {
    const limits: Limits
    var restartTimes: seq<Time>

    constructor (minRestartInterval: int, maxRestartsPerWindow: int, restartWindow: int)
      ensures limits == Clamped(minRestartInterval, maxRestartsPerWindow, restartWindow) && restartTimes == []
      ensures Nearest(limits.minInterval, minRestartInterval, 0)
      ensures Nearest(limits.most, maxRestartsPerWindow, 1) && Nearest(limits.window, restartWindow, 1)
    {
      limits := Clamped(minRestartInterval, maxRestartsPerWindow, restartWindow);
      restartTimes := [];
    }

    method PruneRestartTimes(now: Time)
      modifies this
      ensures restartTimes == Prune(old(restartTimes), now - limits.window as real)
    {
      var start := now - limits.window as real;
      while restartTimes != [] && restartTimes[0] < start
        invariant Prune(restartTimes, start) == Prune(old(restartTimes), start)
        decreases |restartTimes|
      {
        restartTimes := restartTimes[1..];
      }
    }

    method GateReason(now: Time) returns (reason: Option<Reason>)
      modifies this
      ensures restartTimes == Prune(old(restartTimes), now - limits.window as real)
      ensures reason == Gate(limits, restartTimes, now)
    {
      PruneRestartTimes(now);
      if restartTimes != [] {
        var sinceLast := now - restartTimes[|restartTimes| - 1];
        if sinceLast < limits.minInterval as real {
          return Some(TooSoon);
        }
      }
      if |restartTimes| >= limits.most {
        return Some(TooMany);
      }
      return None;
    }

    method Evaluate(obs: Observation, now: Time) returns (decision: Decision)
      modifies this
      ensures (restartTimes, decision) == Evaluated(limits, old(restartTimes), obs, now)
    {
      var reasons: seq<Reason> := [];
      if
        && obs.rssThreshold.Some? && obs.rssThreshold.value > 0
        && obs.rss.Some? && obs.rss.value >= obs.rssThreshold.value
      {
        reasons := reasons + [RssAbove(obs.rss.value, obs.rssThreshold.value)];
      }
      if obs.maxErrorCycles.Some? && obs.maxErrorCycles.value > 0 && obs.errorCycles >= obs.maxErrorCycles.value {
        reasons := reasons + [ErrorCycles(obs.errorCycles, obs.maxErrorCycles.value)];
      }
      assert reasons == Wanted(obs);
      if reasons == [] {
        return Decision(false, []);
      }
      var gate := GateReason(now);
      if gate.Some? {
        return Decision(false, reasons + [gate.value]);
      }
      return Decision(true, reasons);
    }

    method RecordRestart(now: Time)
      modifies this
      ensures restartTimes == Recorded(limits, old(restartTimes), now)
    {
      PruneRestartTimes(now);
      restartTimes := restartTimes + [now];
    }
  }

  // ---- sliding windows over a history -------------------------------------------------------------

  /** The times of a history that lie in the closed window from `lo` to `hi`. */
  function Within(history: seq<Time>, lo: Time, hi: Time): seq<Time> {
    if history == [] then []
    else
      var rest := Within(history[..|history| - 1], lo, hi);
      var last := history[|history| - 1];
      if lo <= last <= hi then rest + [last] else rest
  }

  /** The times of a history that are not before `lo`. */
  function Since(history: seq<Time>, lo: Time): seq<Time> {
    if history == [] then []
    else
      var rest := Since(history[..|history| - 1], lo);
      var last := history[|history| - 1];
      if lo <= last then rest + [last] else rest
  }

  ghost predicate Sorted(times: seq<Time>) {
    forall i, j :: 0 <= i < j < |times| ==> times[i] <= times[j]
  }

  ghost predicate NotAfter(times: seq<Time>, now: Time) {
    forall i :: 0 <= i < |times| ==> times[i] <= now
  }

  lemma {:induction false} SinceIsWithin(history: seq<Time>, lo: Time, hi: Time)
    requires NotAfter(history, hi)
    ensures Within(history, lo, hi) == Since(history, lo)
  {
    if history != [] {
      SinceIsWithin(history[..|history| - 1], lo, hi);
    }
  }

  lemma {:induction false} SinceShrinks(history: seq<Time>, lo: Time, later: Time)
    requires lo <= later
    ensures |Since(history, later)| <= |Since(history, lo)|
  {
    if history != [] {
      SinceShrinks(history[..|history| - 1], lo, later);
    }
  }

  /** On a sorted history what is not before `lo` is a suffix. */
  lemma {:induction false} SinceIsPrune(history: seq<Time>, lo: Time)
    requires Sorted(history)
    ensures Since(history, lo) == Prune(history, lo)
  {
    if history != [] {
      var front, last := history[..|history| - 1], history[|history| - 1];
      SinceIsPrune(front, lo);
      PruneSnoc(front, last, lo);
      assert front + [last] == history;
      if last < lo {
        NoneSince(front, lo);
      }
    }
  }

  lemma {:induction false} NoneSince(history: seq<Time>, lo: Time)
    requires forall i :: 0 <= i < |history| ==> history[i] < lo
    ensures Since(history, lo) == []
  {
    if history != [] {
      NoneSince(history[..|history| - 1], lo);
    }
  }

  lemma {:induction false} PruneSnoc(front: seq<Time>, last: Time, lo: Time)
    ensures Prune(front + [last], lo) == if Prune(front, lo) != [] then Prune(front, lo) + [last] else Prune([last], lo)
  {
    if front == [] {
      assert front + [last] == [last];
    } else if front[0] < lo {
      assert (front + [last])[1..] == front[1..] + [last];
      PruneSnoc(front[1..], last, lo);
    }
  }

  lemma {:induction false} PruneTwice(times: seq<Time>, lo: Time, later: Time)
    requires lo <= later
    ensures Prune(Prune(times, lo), later) == Prune(times, later)
  {
    if times != [] && times[0] < lo {
      PruneTwice(times[1..], lo, later);
    }
  }
}
