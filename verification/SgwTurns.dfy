/** One group's turn in a cycle, taken apart: the cycle reads the clock once, takes the group's request later, and
    writes the refresh later still, with requests coming in all the while. */
module SgwTurns {
  import opened Basics
  import opened SgwCache

  /** The request is taken out and the refresh chosen. */
  function TakeTurn(cfg: Settings, jitter: int, now: Time, gr: Group): (Group, Option<Mode>) {
    var e := if gr.entry.Some? then gr.entry.value else NewEntry(now);
    (gr.(entry := Some(e), request := None), Choose(cfg, jitter, now, gr.request, e.meta))
  }

  /** The refresh is carried out, judged and counted; requests that have come in meanwhile stay. */
  function CommitTurn(cfg: Settings, now: Time, gr: Group, mode: Option<Mode>, heavy: Polled<Payload>,
                      light: Polled<seq<Modem>>): (Group, Report)
    requires gr.entry.Some?
  {
    var e := gr.entry.value;
    if mode.None? then
      var (e', stale) := Judge(cfg, e, now);
      (gr.(entry := Some(e')), Report(None, None, stale))
    else
      var (tried, error) := Attempt(cfg, e, now, mode.value, heavy, light);
      var (e', stale) := Judge(cfg, tried, now);
      var counts := if error.None? || error.value != "" then Counted(gr.counts, mode.value) else gr.counts;
      (gr.(entry := Some(e'), counts := counts), Report(mode, if error.Some? then e'.meta.lastError else None, stale))
  }

  /** With nothing coming in between, taking and committing are the turn in one. */
  lemma TakeThenCommit(cfg: Settings, jitter: int, now: Time, gr: Group, heavy: Polled<Payload>,
                       light: Polled<seq<Modem>>)
    ensures var (taken, mode) := TakeTurn(cfg, jitter, now, gr);
            CommitTurn(cfg, now, taken, mode, heavy, light) == Process(cfg, jitter, now, gr, heavy, light)
  {
  }

  /** Where the running cycle is with the group. */
  datatype Turn = Off | Begun(now: Time) | Taken(now: Time, mode: Option<Mode>)

  /** The group, the latest time seen, the times of its successful heavy refreshes, and whether a heavy request has ever
      been accepted while a cycle was under way and not yet done with the group. */
  datatype Track = Track(gr: Group, clock: Time, turn: Turn, times: seq<Time>, overlapped: bool)

  datatype Act =
    | BeginAt(now: Time)
    | AskAt(mode: Mode, now: Time)
    | TakeIt(jitter: int)
    | CommitIt(heavy: Polled<Payload>, light: Polled<seq<Modem>>)

  predicate InOrder(t: Track, act: Act) {
    match act
    case BeginAt(now) => t.turn.Off? && t.clock <= now
    case AskAt(_, now) => t.clock <= now
    case TakeIt(jitter) => t.turn.Begun? && 0 <= jitter
    case CommitIt(_, _) => t.turn.Taken? && t.gr.entry.Some?
  }

  function After(cfg: Settings, t: Track, act: Act): Track
    requires InOrder(t, act)
  {
    match act
    case BeginAt(now) => t.(clock := now, turn := Begun(now))
    case AskAt(mode, now) =>
      t.(gr := Ask(cfg, t.gr, mode, now), clock := now,
         overlapped := t.overlapped || (!t.turn.Off? && mode == Heavy && Accepts(cfg, t.gr, mode, now)))
    case TakeIt(jitter) =>
      var (gr, mode) := TakeTurn(cfg, jitter, t.turn.now, t.gr);
      t.(gr := gr, turn := Taken(t.turn.now, mode))
    case CommitIt(heavy, light) =>
      var (gr, report) := CommitTurn(cfg, t.turn.now, t.gr, t.turn.mode, heavy, light);
      t.(gr := gr, turn := Off, times := HeavyTimesAfter(t.times, report, t.turn.now))
  }

  predicate Run(cfg: Settings, t: Track, acts: seq<Act>)
    decreases |acts|
  {
    acts == [] || (InOrder(t, acts[0]) && Run(cfg, After(cfg, t, acts[0]), acts[1..]))
  }

  function Final(cfg: Settings, t: Track, acts: seq<Act>): Track
    requires Run(cfg, t, acts)
    decreases |acts|
  {
    if acts == [] then t else Final(cfg, After(cfg, t, acts[0]), acts[1..])
  }

  const START := Track(Group(None, None, Counts(0, 0)), 0.0, Off, [], false)

  /** A heavy refresh at `now` keeps its distance from the last. */
  ghost predicate FarEnough(cfg: Settings, gr: Group, now: Time) {
    LastHeavy(gr).Some? ==> now - LastHeavy(gr).value >= cfg.pollHeavy as real
  }

  ghost predicate Agrees(t: Track) {
    LastHeavy(t.gr) == if t.times == [] then None else Some(t.times[|t.times| - 1])
  }

  /** As long as nothing has overlapped, what is pending or taken may run, by the time the cycle goes by. */
  ghost predicate Inv(cfg: Settings, t: Track) {
    && Agrees(t)
    && (t.turn.Taken? ==> t.gr.entry.Some?)
    && (!t.turn.Off? ==> t.turn.now <= t.clock)
    && (!t.overlapped ==>
          && Spaced(cfg, t.times)
          && (t.gr.request == Some(Heavy) ==> FarEnough(cfg, t.gr, if t.turn.Off? then t.clock else t.turn.now))
          && (t.turn.Taken? && t.turn.mode == Some(Heavy) ==> FarEnough(cfg, t.gr, t.turn.now)))
  }

  lemma AskKeeps(cfg: Settings, t: Track, mode: Mode, now: Time)
    requires Inv(cfg, t) && t.clock <= now
    ensures Inv(cfg, After(cfg, t, AskAt(mode, now)))
  {
    assert LastHeavy(Ask(cfg, t.gr, mode, now)) == LastHeavy(t.gr);
  }

  lemma TakeKeeps(cfg: Settings, t: Track, jitter: int)
    requires GoodSettings(cfg) && Inv(cfg, t) && InOrder(t, TakeIt(jitter))
    ensures Inv(cfg, After(cfg, t, TakeIt(jitter)))
  {
    assert LastHeavy(After(cfg, t, TakeIt(jitter)).gr) == LastHeavy(t.gr);
  }

  lemma CommitKeeps(cfg: Settings, t: Track, heavy: Polled<Payload>, light: Polled<seq<Modem>>)
    requires GoodSettings(cfg) && Inv(cfg, t) && InOrder(t, CommitIt(heavy, light))
    requires !t.overlapped ==> t.gr.request != Some(Heavy)
    ensures Inv(cfg, After(cfg, t, CommitIt(heavy, light)))
  {
    var report := CommitTurn(cfg, t.turn.now, t.gr, t.turn.mode, heavy, light).1;
    if report.Applied(Heavy) && !t.overlapped {
      SpacedSnoc(cfg, t.times, t.turn.now);
    }
  }

  /** Without an overlap no heavy request is pending between take and commit. */
  ghost predicate Quiet(t: Track) {
    t.turn.Taken? && !t.overlapped ==> t.gr.request != Some(Heavy)
  }

  lemma StepKeeps(cfg: Settings, t: Track, act: Act)
    requires GoodSettings(cfg) && Inv(cfg, t) && Quiet(t) && InOrder(t, act)
    ensures Inv(cfg, After(cfg, t, act)) && Quiet(After(cfg, t, act))
  {
    match act
    case BeginAt(now) =>
    case AskAt(mode, now) => AskKeeps(cfg, t, mode, now);
    case TakeIt(jitter) => TakeKeeps(cfg, t, jitter);
    case CommitIt(heavy, light) => CommitKeeps(cfg, t, heavy, light);
  }

  lemma {:induction false} RunKeeps(cfg: Settings, t: Track, acts: seq<Act>)
    requires GoodSettings(cfg) && Inv(cfg, t) && Quiet(t) && Run(cfg, t, acts)
    ensures Inv(cfg, Final(cfg, t, acts)) && Quiet(Final(cfg, t, acts))
    decreases |acts|
  {
    if acts != [] {
      StepKeeps(cfg, t, acts[0]);
      RunKeeps(cfg, After(cfg, t, acts[0]), acts[1..]);
    }
  }

  /** Heavy refreshes stay the heavy interval apart over every run in which no heavy request is accepted while a cycle
      is under way and not yet done with the group. */
  lemma QuietRunsAreSpaced(cfg: Settings, acts: seq<Act>)
    requires GoodSettings(cfg) && Run(cfg, START, acts) && !Final(cfg, START, acts).overlapped
    ensures Spaced(cfg, Final(cfg, START, acts).times)
  {
    RunKeeps(cfg, START, acts);
  }

  // ---- what an overlap can do ---------------------------------------------------------------------

  /** Whenever the next cycle runs, and whatever the pollers answer, the group's turn keeps the spacing. */
  ghost predicate NextTurnIsSpaced(cfg: Settings, t: Track) {
    forall now, jitter, heavy, light :: t.clock <= now && 0 <= jitter ==>
      Spaced(cfg, HeavyTimesAfter(t.times, Process(cfg, jitter, now, t.gr, heavy, light).1, now))
  }

  lemma AppliedHeavy(cfg: Settings, jitter: int, now: Time, gr: Group, heavy: Polled<Payload>,
                     light: Polled<seq<Modem>>)
    requires GoodSettings(cfg) && 0 <= jitter
    ensures var report := Process(cfg, jitter, now, gr, heavy, light).1;
            && (report.Applied(Heavy) && gr.request != Some(Heavy) ==> FarEnough(cfg, gr, now))
            && (heavy.Returned? && gr.request == Some(Heavy) ==> report.Applied(Heavy))
  {
  }

  /** Between cycles: the next turn keeps the spacing, whenever it comes, exactly when no heavy request is pending or
      the last heavy refresh is by now a heavy interval ago. */
  lemma NextTurnIsSpacedExactly(cfg: Settings, t: Track)
    requires GoodSettings(cfg) && t.turn.Off? && Agrees(t) && Spaced(cfg, t.times)
    ensures NextTurnIsSpaced(cfg, t) <==> t.gr.request != Some(Heavy) || FarEnough(cfg, t.gr, t.clock)
  {
    if t.gr.request != Some(Heavy) || FarEnough(cfg, t.gr, t.clock) {
      forall now, jitter, heavy, light | t.clock <= now && 0 <= jitter
        ensures Spaced(cfg, HeavyTimesAfter(t.times, Process(cfg, jitter, now, t.gr, heavy, light).1, now))
      {
        AppliedHeavy(cfg, jitter, now, t.gr, heavy, light);
        if Process(cfg, jitter, now, t.gr, heavy, light).1.Applied(Heavy) {
          SpacedSnoc(cfg, t.times, now);
        }
      }
    } else {
      var heavy: Polled<Payload> := Returned(Payload(EMPTY_CHANNELS, []));
      var light: Polled<seq<Modem>> := Returned([]);
      AppliedHeavy(cfg, 0, t.clock, t.gr, heavy, light);
      var after := HeavyTimesAfter(t.times, Process(cfg, 0, t.clock, t.gr, heavy, light).1, t.clock);
      assert after[|t.times|] - after[|t.times| - 1] < cfg.pollHeavy as real;
      assert !Spaced(cfg, after);
    }
  }

  /** Spacing holds over every run with overlaps allowed or not. */
  ghost predicate SpacedOver(cfg: Settings, overlaps: bool) {
    forall acts :: Run(cfg, START, acts) && (overlaps || !Final(cfg, START, acts).overlapped) ==>
      Spaced(cfg, Final(cfg, START, acts).times)
  }

  /** A heavy request accepted while the first heavy refresh is being polled is carried out right after it. */
  lemma OverlapBreaks(cfg: Settings)
    requires GoodSettings(cfg)
    ensures !SpacedOver(cfg, true)
  {
    var poll := CommitIt(Returned(Payload(EMPTY_CHANNELS, [])), Returned([]));
    var again := [BeginAt(0.0), TakeIt(0), poll];
    var ask := AskAt(Heavy, 0.0);
    var t1 := After(cfg, START, BeginAt(0.0));
    var t2 := After(cfg, t1, TakeIt(0));
    var t3 := After(cfg, t2, ask);
    var t4 := After(cfg, t3, poll);
    assert t4.gr.request == Some(Heavy) && t4.times == [0.0] && t4.turn.Off? && t4.clock == 0.0;
    var t7 := SecondTurn(cfg, t4, poll);
    assert Run(cfg, t3, [poll] + again) && Final(cfg, t3, [poll] + again) == t7 by {
      assert ([poll] + again)[1..] == again;
    }
    var rest := [ask] + ([poll] + again);
    assert Run(cfg, t2, rest) && Final(cfg, t2, rest) == t7 by {
      assert rest[1..] == [poll] + again;
    }
    var most := [TakeIt(0)] + rest;
    assert Run(cfg, t1, most) && Final(cfg, t1, most) == t7 by {
      assert most[1..] == rest;
    }
    var acts := [BeginAt(0.0)] + most;
    assert Run(cfg, START, acts) && Final(cfg, START, acts) == t7 by {
      assert acts[1..] == most;
    }
    assert t7.times[1] - t7.times[0] < cfg.pollHeavy as real;
  }

  lemma SecondTurn(cfg: Settings, t: Track, poll: Act) returns (t': Track)
    requires t.gr.request == Some(Heavy) && t.times == [0.0] && t.turn.Off? && t.clock == 0.0
    requires poll == CommitIt(Returned(Payload(EMPTY_CHANNELS, [])), Returned([]))
    ensures var acts := [BeginAt(0.0), TakeIt(0), poll];
            Run(cfg, t, acts) && Final(cfg, t, acts) == t' && t'.times == [0.0, 0.0]
  {
    var t1 := After(cfg, t, BeginAt(0.0));
    var t2 := After(cfg, t1, TakeIt(0));
    t' := After(cfg, t2, poll);
    assert [BeginAt(0.0), TakeIt(0), poll][1..] == [TakeIt(0), poll] && [TakeIt(0), poll][1..] == [poll];
    assert Run(cfg, t2, [poll]) && Final(cfg, t2, [poll]) == t' by {
      assert [poll][1..] == [];
    }
  }

  /** Spacing holds over all runs if and only if overlaps are kept out. */
  lemma SpacedOverExactly(cfg: Settings, overlaps: bool)
    requires GoodSettings(cfg)
    ensures SpacedOver(cfg, overlaps) <==> !overlaps
  {
    if overlaps {
      OverlapBreaks(cfg);
    } else {
      forall acts | Run(cfg, START, acts) && !Final(cfg, START, acts).overlapped
        ensures Spaced(cfg, Final(cfg, START, acts).times)
      {
        QuietRunsAreSpaced(cfg, acts);
      }
    }
  }
}
