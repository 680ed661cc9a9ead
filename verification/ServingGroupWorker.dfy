/** A worker for one service group, whose heavy and light refreshes are asynchronous calls that interleave. */
module ServingGroupWorker {
  import opened Basics

  datatype RefreshState = IDLE | RUNNING | ERROR

  datatype Lane = Lane(state: RefreshState, running: bool, lastSuccess: Option<Time>, lastError: string)

  datatype Side = Heavy | Light

  datatype Inventory = Inventory(modemCount: nat)

  datatype Snapshot = Snapshot(
    time: Time,
    age: Time,
    overall: RefreshState,
    heavy: Lane,
    light: Lane,
    modemCount: nat)
  {
    function At(side: Side): Lane {
      if side == Heavy then heavy else light
    }

    function With(side: Side, lane: Lane): Snapshot {
      if side == Heavy then this.(heavy := lane) else this.(light := lane)
    }

    function Aged(now: Time): Snapshot {
      this.(age := if now - time < 0.0 then 0.0 else now - time)
    }
  }

  const IDLE_LANE := Lane(IDLE, false, None, "")

  function Fresh(now: Time): Snapshot {
    Snapshot(now, 0.0, IDLE, IDLE_LANE, IDLE_LANE, 0)
  }

  function Resolve(heavy: Lane, light: Lane): RefreshState {
    if heavy.state == ERROR || light.state == ERROR then ERROR
    else if heavy.state == RUNNING || light.state == RUNNING then RUNNING
    else IDLE
  }

  function Running(s: Snapshot, side: Side, now: Time): Snapshot {
    s.With(side, s.At(side).(state := RUNNING, running := true)).(overall := RUNNING).Aged(now)
  }

  function Failed(s: Snapshot, side: Side, message: string, now: Time): Snapshot {
    s.With(side, s.At(side).(state := ERROR, running := false, lastError := message)).(overall := ERROR).Aged(now)
  }

  function Succeeded(s: Snapshot, side: Side, now: Time): Snapshot {
    var t := s.With(side, Lane(IDLE, false, Some(now), "")).(time := now);
    t.(overall := Resolve(t.heavy, t.light))
  }

  /** The methods are the stretches of a refresh between two awaits or outside the lock. */
  class ServingGroupWorker {
    var lastInventory: Option<Inventory>
    var snapshot: Snapshot

    constructor (now: Time)
      ensures lastInventory == None && snapshot == Fresh(now)
      ensures snapshot.time == now && snapshot.age == 0.0
    {
      lastInventory := None;
      snapshot := Fresh(now);
    }

    method GetSnapshot(now: Time) returns (s: Snapshot)
      ensures s == snapshot.(age := s.age)
      ensures s.age == (if snapshot.time <= now then now - snapshot.time else 0.0)
    {
      s := snapshot.Aged(now);
    }

    method SetLaneRunning(side: Side, now: Time)
      modifies this`snapshot
      ensures snapshot == Running(old(snapshot), side, now)
    {
      var lane := snapshot.At(side);
      lane := lane.(state := RUNNING, running := true);
      snapshot := snapshot.With(side, lane).(overall := RUNNING);
      snapshot := snapshot.Aged(now);
    }

    method SetLaneError(side: Side, message: string, now: Time) returns (s: Snapshot)
      modifies this`snapshot
      ensures snapshot == s == Failed(old(snapshot), side, message, now)
    {
      var lane := snapshot.At(side);
      lane := lane.(state := ERROR, running := false, lastError := message);
      snapshot := snapshot.With(side, lane).(overall := ERROR);
      snapshot := snapshot.Aged(now);
      s := snapshot;
    }

    method SetLaneSuccess(side: Side, now: Time)
      modifies this`snapshot
      ensures snapshot.(time := now) == Succeeded(old(snapshot), side, now)
      ensures snapshot.time == old(snapshot.time)
    {
      var lane := snapshot.At(side);
      lane := lane.(state := IDLE, running := false, lastError := "", lastSuccess := Some(now));
      snapshot := snapshot.With(side, lane);
      snapshot := snapshot.(overall := Resolve(snapshot.heavy, snapshot.light));
    }

    /** The inventory of a heavy refresh has arrived. */
    method FinishHeavy(inventory: Inventory, now: Time) returns (s: Snapshot)
      modifies this
      ensures lastInventory == Some(inventory)
      ensures snapshot == Succeeded(old(snapshot), Heavy, now).(modemCount := inventory.modemCount)
      ensures s == snapshot.Aged(now)
    {
      lastInventory := Some(inventory);
      snapshot := snapshot.(time := now, modemCount := inventory.modemCount);
      SetLaneSuccess(Heavy, now);
      s := snapshot.Aged(now);
    }

    /** The state of a light refresh has arrived. */
    method FinishLight(now: Time) returns (s: Snapshot)
      modifies this`snapshot
      ensures snapshot == Succeeded(old(snapshot), Light, now)
      ensures s == snapshot.Aged(now)
    {
      snapshot := snapshot.(time := now);
      SetLaneSuccess(Light, now);
      s := snapshot.Aged(now);
    }
  }

  // ---- any interleaving of calls ------------------------------------------------------------------

  /** The worker and its calls in flight: heavy ones and light ones awaiting the client, and light ones that are
      about to look for an inventory or have found none. `lost` has the lanes whose last event was the cancelling
      of a call. */
  datatype State = State(
    snapshot: Snapshot,
    inventory: Option<Inventory>,
    heavy: nat,
    looking: nat,
    light: nat,
    empty: nat,
    lost: set<Side>)
  {
    function InFlight(side: Side): nat {
      if side == Heavy then heavy else looking + light + empty
    }
  }

  datatype Step =
    | HeavyStarts(now: Time)
    | HeavyArrives(inventory: Inventory, now: Time)
    | HeavyFails(message: string, now: Time)
    | LightStarts(now: Time)
    | LightLooks
    | LightArrives(now: Time)
    | LightFails(message: string, now: Time)
    | NoInventory(now: Time)
    | HeavyCancelled
    | LightCancelled

  const NO_INVENTORY := "inventory not available for light refresh"

  predicate Enabled(s: State, step: Step) {
    match step
    case HeavyStarts(_) | LightStarts(_) => true
    case HeavyArrives(_, _) | HeavyFails(_, _) | HeavyCancelled => s.heavy > 0
    case LightLooks => s.looking > 0
    case LightArrives(_) | LightFails(_, _) | LightCancelled => s.light > 0
    case NoInventory(_) => s.empty > 0
  }

  /** The exception that cancels an awaiting call is not caught, so the lane is left as it is. */
  function Apply(s: State, step: Step): State
    requires Enabled(s, step)
  {
    match step
    case HeavyStarts(now) =>
      s.(snapshot := Running(s.snapshot, Heavy, now), heavy := s.heavy + 1, lost := s.lost - {Heavy})
    case HeavyArrives(inventory, now) =>
      s.(snapshot := Succeeded(s.snapshot, Heavy, now).(modemCount := inventory.modemCount),
         inventory := Some(inventory), heavy := s.heavy - 1, lost := s.lost - {Heavy})
    case HeavyFails(message, now) =>
      s.(snapshot := Failed(s.snapshot, Heavy, message, now), heavy := s.heavy - 1, lost := s.lost - {Heavy})
    case LightStarts(now) =>
      s.(snapshot := Running(s.snapshot, Light, now), looking := s.looking + 1, lost := s.lost - {Light})
    case LightLooks =>
      if s.inventory.None? then s.(looking := s.looking - 1, empty := s.empty + 1)
      else s.(looking := s.looking - 1, light := s.light + 1)
    case LightArrives(now) =>
      s.(snapshot := Succeeded(s.snapshot, Light, now), light := s.light - 1, lost := s.lost - {Light})
    case LightFails(message, now) =>
      s.(snapshot := Failed(s.snapshot, Light, message, now), light := s.light - 1, lost := s.lost - {Light})
    case NoInventory(now) =>
      s.(snapshot := Failed(s.snapshot, Light, NO_INVENTORY, now), empty := s.empty - 1, lost := s.lost - {Light})
    case HeavyCancelled => s.(heavy := s.heavy - 1, lost := s.lost + {Heavy})
    case LightCancelled => s.(light := s.light - 1, lost := s.lost + {Light})
  }

  function Init(now: Time): State {
    State(Fresh(now), None, 0, 0, 0, 0, {})
  }

  predicate Run(s: State, steps: seq<Step>)
    decreases |steps|
  {
    steps == [] || (Enabled(s, steps[0]) && Run(Apply(s, steps[0]), steps[1..]))
  }

  function Final(s: State, steps: seq<Step>): State
    requires Run(s, steps)
    decreases |steps|
  {
    if steps == [] then s else Final(Apply(s, steps[0]), steps[1..])
  }

  /** One lane runs while the other has failed. */
  predicate Mixed(s: Snapshot) {
    || (s.heavy.state == RUNNING && s.light.state == ERROR)
    || (s.heavy.state == ERROR && s.light.state == RUNNING)
  }

  predicate LaneOk(lane: Lane, inFlight: nat, lost: bool) {
    && (lane.running <==> lane.state == RUNNING)
    && (lane.running ==> inFlight > 0 || lost)
  }

  predicate Inv(s: State) {
    && LaneOk(s.snapshot.heavy, s.InFlight(Heavy), Heavy in s.lost)
    && LaneOk(s.snapshot.light, s.InFlight(Light), Light in s.lost)
    && (if Mixed(s.snapshot) then s.snapshot.overall != IDLE
        else s.snapshot.overall == Resolve(s.snapshot.heavy, s.snapshot.light))
    && (s.inventory.Some? <==> s.snapshot.heavy.lastSuccess.Some?)
    && (s.light > 0 || s.snapshot.light.lastSuccess.Some? ==> s.inventory.Some?)
    && s.snapshot.modemCount == (if s.inventory.Some? then s.inventory.value.modemCount else 0)
  }

  lemma StepKeeps(s: State, step: Step)
    requires Inv(s) && Enabled(s, step)
    ensures Inv(Apply(s, step))
  {
  }

  lemma {:induction false} RunKeeps(s: State, steps: seq<Step>)
    requires Inv(s) && Run(s, steps)
    ensures Inv(Final(s, steps))
    decreases |steps|
  {
    if steps != [] {
      StepKeeps(s, steps[0]);
      RunKeeps(Apply(s, steps[0]), steps[1..]);
    }
  }

  /** Under every interleaving the overall state says what the lanes say, except that while one lane runs and the
      other has failed it is one of these two. */
  lemma LanesAgree(start: Time, steps: seq<Step>)
    requires Run(Init(start), steps)
    ensures var s := Final(Init(start), steps).snapshot;
            && (forall side: Side :: s.At(side).running <==> s.At(side).state == RUNNING)
            && (s.overall == IDLE <==> s.heavy.state == IDLE && s.light.state == IDLE)
            && (s.overall != IDLE ==> s.heavy.state == s.overall || s.light.state == s.overall)
            && (!s.heavy.running && !s.light.running && (s.heavy.state == ERROR || s.light.state == ERROR) ==>
                  s.overall == ERROR)
            && (!Mixed(s) ==> s.overall == Resolve(s.heavy, s.light))
  {
    RunKeeps(Init(start), steps);
  }

  /** The modem count shown is that of the inventory light refreshes work on, and zero before there is one. */
  lemma InventoryIsShown(start: Time, steps: seq<Step>)
    requires Run(Init(start), steps)
    ensures var s := Final(Init(start), steps);
            && s.snapshot.modemCount == (if s.inventory.Some? then s.inventory.value.modemCount else 0)
            && (s.inventory.Some? <==> s.snapshot.heavy.lastSuccess.Some?)
            && (s.snapshot.light.lastSuccess.Some? ==> s.snapshot.heavy.lastSuccess.Some?)
  {
    RunKeeps(Init(start), steps);
  }

  predicate HasHeavySuccess(steps: seq<Step>) {
    exists i :: 0 <= i < |steps| && steps[i].HeavyArrives?
  }

  lemma {:induction false} NoInventoryYet(s: State, steps: seq<Step>)
    requires Run(s, steps) && s.inventory.None? && !HasHeavySuccess(steps)
    ensures Final(s, steps).inventory.None?
    decreases |steps|
  {
    if steps != [] {
      forall i | 0 <= i < |steps[1..]| ensures !steps[1..][i].HeavyArrives? {
        assert !steps[i + 1].HeavyArrives?;
      }
      assert !steps[0].HeavyArrives?;
      NoInventoryYet(Apply(s, steps[0]), steps[1..]);
    }
  }

  /** A light refresh can succeed only after a heavy one has. */
  lemma LightNeedsHeavy(start: Time, steps: seq<Step>, now: Time)
    requires Run(Init(start), steps) && Enabled(Final(Init(start), steps), LightArrives(now))
    ensures HasHeavySuccess(steps)
  {
    RunKeeps(Init(start), steps);
    if !HasHeavySuccess(steps) {
      NoInventoryYet(Init(start), steps);
      assert false;
    }
  }

  // ---- one call per lane at a time ------------------------------------------------------------------

  /** No call starts while another of its lane is in flight. */
  predicate OneAtATime(s: State, steps: seq<Step>)
    requires Run(s, steps)
    decreases |steps|
  {
    steps == [] ||
    (&& (steps[0].HeavyStarts? ==> s.InFlight(Heavy) == 0)
     && (steps[0].LightStarts? ==> s.InFlight(Light) == 0)
     && OneAtATime(Apply(s, steps[0]), steps[1..]))
  }

  /** A lane runs exactly while a call of it is in flight or after its last call was cancelled. */
  predicate Single(s: State) {
    && s.InFlight(Heavy) <= 1 && s.InFlight(Light) <= 1
    && (s.snapshot.heavy.running <==> s.InFlight(Heavy) == 1 || Heavy in s.lost)
    && (s.snapshot.light.running <==> s.InFlight(Light) == 1 || Light in s.lost)
    && (Heavy in s.lost ==> s.InFlight(Heavy) == 0)
    && (Light in s.lost ==> s.InFlight(Light) == 0)
  }

  lemma {:induction false} SingleKeeps(s: State, steps: seq<Step>)
    requires Run(s, steps) && OneAtATime(s, steps) && Single(s)
    ensures Single(Final(s, steps))
    decreases |steps|
  {
    if steps != [] {
      SingleKeeps(Apply(s, steps[0]), steps[1..]);
    }
  }

  lemma {:induction false} FinalSnoc(s: State, steps: seq<Step>)
    requires Run(s, steps) && steps != []
    ensures var n := |steps| - 1;
            && Run(s, steps[..n]) && Enabled(Final(s, steps[..n]), steps[n])
            && Final(s, steps) == Apply(Final(s, steps[..n]), steps[n])
    decreases |steps|
  {
    var n := |steps| - 1;
    if n > 0 {
      FinalSnoc(Apply(s, steps[0]), steps[1..]);
      assert steps[1..][..n - 1] == steps[..n][1..];
    }
  }

  /** A step that says how its lane fares: a call starts, succeeds or fails. */
  datatype News = Started | Success(now: Time) | Failure(message: string)

  function NewsOf(step: Step, side: Side): Option<News> {
    match step
    case HeavyStarts(_) => if side == Heavy then Some(Started) else None
    case HeavyArrives(_, now) => if side == Heavy then Some(Success(now)) else None
    case HeavyFails(message, _) => if side == Heavy then Some(Failure(message)) else None
    case LightStarts(_) => if side == Light then Some(Started) else None
    case LightArrives(now) => if side == Light then Some(Success(now)) else None
    case LightFails(message, _) => if side == Light then Some(Failure(message)) else None
    case NoInventory(_) => if side == Light then Some(Failure("inventory not available for light refresh")) else None
    case LightLooks | HeavyCancelled | LightCancelled => None
  }

  predicate Cancels(step: Step, side: Side) {
    if side == Heavy then step.HeavyCancelled? else step.LightCancelled?
  }

  /** The lane's last start, end or cancelling is a cancelling. */
  predicate LastIsCancel(steps: seq<Step>, side: Side) {
    steps != [] &&
    (if Cancels(steps[|steps| - 1], side) then true
     else if NewsOf(steps[|steps| - 1], side).Some? then false
     else LastIsCancel(steps[..|steps| - 1], side))
  }

  lemma {:induction false} LostIsLast(start: Time, steps: seq<Step>, side: Side)
    requires Run(Init(start), steps)
    ensures side in Final(Init(start), steps).lost <==> LastIsCancel(steps, side)
  {
    if steps != [] {
      FinalSnoc(Init(start), steps);
      LostIsLast(start, steps[..|steps| - 1], side);
    }
  }

  lemma {:induction false} NeverCancelled(steps: seq<Step>, side: Side)
    requires forall i :: 0 <= i < |steps| ==> !Cancels(steps[i], side)
    ensures !LastIsCancel(steps, side)
  {
    if steps != [] {
      NeverCancelled(steps[..|steps| - 1], side);
    }
  }

  /** With one call per lane at a time a lane shows itself running exactly while a call of it is in flight or when its
      last call was cancelled; if none is ever cancelled, exactly while one is in flight. */
  lemma RunningIsInFlight(start: Time, steps: seq<Step>, side: Side)
    requires Run(Init(start), steps) && OneAtATime(Init(start), steps)
    ensures var s := Final(Init(start), steps);
            && (s.snapshot.At(side).running <==> s.InFlight(side) == 1 || LastIsCancel(steps, side))
            && (LastIsCancel(steps, side) ==> s.InFlight(side) == 0)
            && ((forall i :: 0 <= i < |steps| ==> !Cancels(steps[i], side)) ==>
                  (s.snapshot.At(side).running <==> s.InFlight(side) == 1))
  {
    SingleKeeps(Init(start), steps);
    LostIsLast(start, steps, side);
    if forall i :: 0 <= i < |steps| ==> !Cancels(steps[i], side) {
      NeverCancelled(steps, side);
    }
  }

  // ---- what the snapshot shows ------------------------------------------------------------------------

  /** The last news of a lane. */
  function LastNews(steps: seq<Step>, side: Side): Option<News> {
    if steps == [] then None
    else
      var news := NewsOf(steps[|steps| - 1], side);
      if news.Some? then news else LastNews(steps[..|steps| - 1], side)
  }

  /** The last success or failure of a lane. */
  function LastEnd(steps: seq<Step>, side: Side): Option<News> {
    if steps == [] then None
    else
      var news := NewsOf(steps[|steps| - 1], side);
      if news.Some? && !news.value.Started? then news else LastEnd(steps[..|steps| - 1], side)
  }

  /** The time of its last success. */
  function LastSuccess(steps: seq<Step>, side: Side): Option<Time> {
    if steps == [] then None
    else
      var news := NewsOf(steps[|steps| - 1], side);
      if news.Some? && news.value.Success? then Some(news.value.now) else LastSuccess(steps[..|steps| - 1], side)
  }

  function LastInventory(steps: seq<Step>): Option<Inventory> {
    if steps == [] then None
    else if steps[|steps| - 1].HeavyArrives? then Some(steps[|steps| - 1].inventory)
    else LastInventory(steps[..|steps| - 1])
  }

  /** What a lane shows under every interleaving: its state is that of its last call to start or end, its message that
      of the last failure unless a success came after it, its time that of the last success. */
  lemma {:induction false} LaneShowsLast(start: Time, steps: seq<Step>, side: Side)
    requires Run(Init(start), steps)
    ensures var lane := Final(Init(start), steps).snapshot.At(side);
            && lane.state == (match LastNews(steps, side)
                              case None => IDLE
                              case Some(Started) => RUNNING
                              case Some(Success(_)) => IDLE
                              case Some(Failure(_)) => ERROR)
            && lane.lastError == (match LastEnd(steps, side)
                                  case Some(Failure(message)) => message
                                  case _ => "")
            && lane.lastSuccess == LastSuccess(steps, side)
  {
    if steps != [] {
      FinalSnoc(Init(start), steps);
      LaneShowsLast(start, steps[..|steps| - 1], side);
    }
  }

  /** The last news of either lane. */
  function LastOfBoth(steps: seq<Step>): Option<(Side, News)> {
    if steps == [] then None
    else
      var heavy, light := NewsOf(steps[|steps| - 1], Heavy), NewsOf(steps[|steps| - 1], Light);
      if heavy.Some? then Some((Heavy, heavy.value))
      else if light.Some? then Some((Light, light.value))
      else LastOfBoth(steps[..|steps| - 1])
  }

  /** What the whole shows under every interleaving: running or failed when the last news of either lane is a start or
      a failure, and after a success what the other lane shows. */
  lemma {:induction false} OverallShowsLast(start: Time, steps: seq<Step>)
    requires Run(Init(start), steps)
    ensures var s := Final(Init(start), steps).snapshot;
            match LastOfBoth(steps)
            case None => s.overall == s.heavy.state == s.light.state == IDLE
            case Some((_, Started)) => s.overall == RUNNING
            case Some((_, Failure(_))) => s.overall == ERROR
            case Some((side, Success(_))) => s.overall == s.At(if side == Heavy then Light else Heavy).state
  {
    if steps != [] {
      FinalSnoc(Init(start), steps);
      OverallShowsLast(start, steps[..|steps| - 1]);
      RunKeeps(Init(start), steps[..|steps| - 1]);
    }
  }

  /** Light refreshes work on the inventory of the last successful heavy refresh. */
  lemma {:induction false} InventoryIsLast(start: Time, steps: seq<Step>)
    requires Run(Init(start), steps)
    ensures Final(Init(start), steps).inventory == LastInventory(steps)
  {
    if steps != [] {
      FinalSnoc(Init(start), steps);
      InventoryIsLast(start, steps[..|steps| - 1]);
    }
  }

  /** How many of the steps have a property. */
  function Count(steps: seq<Step>, p: Step -> bool): nat {
    if steps == [] then 0 else Count(steps[..|steps| - 1], p) + if p(steps[|steps| - 1]) then 1 else 0
  }

  const BEGUN: Side -> Step -> bool := (side: Side) => (step: Step) =>
    if side == Heavy then step.HeavyStarts? else step.LightStarts?
  const OVER: Side -> Step -> bool := (side: Side) => (step: Step) =>
    match step
    case HeavyArrives(_, _) | HeavyFails(_, _) | HeavyCancelled => side == Heavy
    case LightArrives(_) | LightFails(_, _) | NoInventory(_) | LightCancelled => side == Light
    case _ => false
  const LOOKED: Step -> bool := (step: Step) => step.LightLooks?

  /** Under every interleaving a call in flight is one that has started and not ended. */
  lemma {:induction false} CallsInFlight(start: Time, steps: seq<Step>)
    requires Run(Init(start), steps)
    ensures var s := Final(Init(start), steps);
            && s.InFlight(Heavy) == Count(steps, BEGUN(Heavy)) - Count(steps, OVER(Heavy))
            && s.InFlight(Light) == Count(steps, BEGUN(Light)) - Count(steps, OVER(Light))
            && s.looking == Count(steps, BEGUN(Light)) - Count(steps, LOOKED)
  {
    if steps != [] {
      FinalSnoc(Init(start), steps);
      CallsInFlight(start, steps[..|steps| - 1]);
    }
  }

  /** A call can always start, and one in flight can always go on: a heavy one to any end, a light one to look for the
      inventory, and then to any end if there was one, or to the failure that there was none. */
  lemma CallsGoOn(s: State, inventory: Inventory, message: string, now: Time)
    ensures Enabled(s, HeavyStarts(now)) && Enabled(s, LightStarts(now))
    ensures forall step :: step in [HeavyArrives(inventory, now), HeavyFails(message, now), HeavyCancelled] ==>
              (Enabled(s, step) <==> s.InFlight(Heavy) > 0)
    ensures s.InFlight(Light) > 0 <==>
            Enabled(s, LightLooks) || Enabled(s, LightArrives(now)) || Enabled(s, NoInventory(now))
    ensures forall step :: step in [LightFails(message, now), LightCancelled] ==>
              (Enabled(s, step) <==> Enabled(s, LightArrives(now)))
    ensures Enabled(s, LightLooks) ==>
              var found := Apply(s, LightLooks);
              && found.looking == s.looking - 1 && found.InFlight(Light) == s.InFlight(Light)
              && if s.inventory.Some? then Enabled(found, LightArrives(now)) else Enabled(found, NoInventory(now))
  {
  }

  /** A start or a failure brings the age up to date, a success leaves the one that was shown. */
  lemma AgeIsShown(s: State, step: Step, now: Time)
    requires Enabled(s, step)
    ensures var t := Apply(s, step).snapshot;
            && (step == HeavyStarts(now) || step == LightStarts(now) || step == NoInventory(now)
                || (exists message :: step == HeavyFails(message, now) || step == LightFails(message, now)) ==>
                  t.age == if s.snapshot.time <= now then now - s.snapshot.time else 0.0)
            && (step.HeavyArrives? || step.LightArrives? ==> t.age == s.snapshot.age)
  {
  }

  /** The time of the last success of either lane among the steps, or `start`. */
  function LastDate(start: Time, steps: seq<Step>): Time {
    if steps == [] then start
    else
      match steps[|steps| - 1]
      case HeavyArrives(_, now) => now
      case LightArrives(now) => now
      case _ => LastDate(start, steps[..|steps| - 1])
  }

  /** The snapshot carries the time of the last success of either lane, or that of its making. */
  lemma {:induction false} SnapshotIsDated(start: Time, steps: seq<Step>)
    requires Run(Init(start), steps)
    ensures Final(Init(start), steps).snapshot.time == LastDate(start, steps)
  {
    if steps != [] {
      FinalSnoc(Init(start), steps);
      SnapshotIsDated(start, steps[..|steps| - 1]);
    }
  }
}
