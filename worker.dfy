// The simulation worker: its own copy of the game state, a one-minute tick, the message
// handlers that start, pause, resume, reset and query the simulation, and the frame loop
// that runs a bounded number of ticks and reports state updates.

module SimulatorWorker {
  import opened Common

  // ---------------------------------------------------------------- the worker's game state

  datatype Time = Time(day: int, hour: int, minute: int)

  datatype Resources = Resources(energy: real, energyCap: real, gold: real, materials: Obj<real>)

  datatype Plot = Plot(id: nat, crop: Option<string>, growthStage: int, watered: bool, plantedAt: Option<real>)

  datatype Farm = Farm(plots: seq<Plot>, waterCurrent: real, waterMax: real, expansionsCompleted: nat, cameraWidth: nat)

  /** A helper as the state holds it; `isWorking` and `efficiency` may be missing. */
  datatype Helper = Helper(id: string, kind: string, isWorking: Option<bool>, efficiency: Option<real>)

  datatype PhaseEntry = PhaseEntry(phase: string, startDay: int, duration: Option<int>)

  /** One hourly sample: the wall-clock stamp, the game day and hour, and a copy of the
      resources. */
  datatype Sample = Sample(timestamp: real, gameDay: int, hour: int, resources: Resources)

  /** The lists and counters the worker carries but never reads. */
  datatype Holdings = Holdings(carryCapacity: nat, ownedUpgrades: seq<string>, blueprints: seq<string>,
                               ownedTools: seq<string>, weapon: Option<string>, tool: Option<string>,
                               towerFloors: nat, autoMode: bool, seedInventory: Obj<nat>,
                               upgradeHistory: seq<string>, discoveredHelpers: seq<string>,
                               purchasedUpgrades: seq<string>, unlockedFeatures: seq<string>)

  /** An opaque value passed in a message: game values, a player profile; `Undefined` and
      `Null` are falsy. */
  datatype Value = Undefined | Null | Data(ref: nat)

  predicate Truthy(v: Value) { v.Data? }

  /** The game state. `time` is missing when the main thread handed over a state without it. */
  datatype GameState = GameState(
    time: Option<Time>, day: int, currentTick: int, resourceHistory: seq<Sample>, resources: Resources,
    farm: Farm, currentLocation: string, currentAction: Option<string>, helpers: seq<Helper>,
    currentPhase: string, phaseHistory: seq<PhaseEntry>, holdings: Holdings, playerProfile: Value)

  function EmptyPlot(id: nat): Plot { Plot(id, None, 0, false, None) }

  /** `initializeGameState`: day 1 at 08:00, no energy under a cap of 50, three empty plots, a full tank of
      20, the tutorial phase. */
  function InitialState(): GameState
  {
    GameState(
      Some(Time(1, 8, 0)), 1, 0, [],
      Resources(0.0, 50.0, 0.0, [("stone", 0.0), ("copper", 0.0), ("iron", 0.0), ("silver", 0.0),
                                 ("crystal", 0.0), ("mythril", 0.0), ("obsidian", 0.0)]),
      Farm([EmptyPlot(1), EmptyPlot(2), EmptyPlot(3)], 20.0, 20.0, 0, 25),
      "home", None, [], "tutorial", [PhaseEntry("tutorial", 1, None)],
      Holdings(2, [], ["storage_1", "pump_1"], ["watering_can_1"], None, Some("watering_can_1"), 1, false,
               [("carrot", 10), ("radish", 10), ("potato", 10)], [], [], [], ["farming"]),
      Undefined)
  }

  // ---------------------------------------------------------------- one tick

  /** The clock one minute later, with the minute and hour rollovers. */
  function NextMinute(t: Time): Time
  {
    if t.minute + 1 >= 60 then
      if t.hour + 1 >= 24 then Time(t.day + 1, 0, 0) else Time(t.day, t.hour + 1, 0)
    else Time(t.day, t.hour, t.minute + 1)
  }

  function Minutes(t: Time): int { t.day * 1440 + t.hour * 60 + t.minute }

  predicate InRange(t: Time) { 0 <= t.minute < 60 && 0 <= t.hour < 24 }

  /** A clock in range stays in range and moves on by exactly one minute; the day moves only
      when the hour rolls over from 23. */
  lemma NextMinuteSpec(t: Time)
    requires InRange(t)
    ensures InRange(NextMinute(t)) && Minutes(NextMinute(t)) == Minutes(t) + 1
    ensures NextMinute(t).day == (if t.hour == 23 && t.minute == 59 then t.day + 1 else t.day)
  {
  }

  /** The history keeps its most recent 672 entries (28 days of hourly samples). */
  function Bounded(h: seq<Sample>): seq<Sample>
  {
    if |h| > 672 then h[|h| - 672..] else h
  }

  /** The state after one tick; a state without a clock is left as it is (the tick throws
      before changing anything). */
  function Advance(g: GameState, stamp: real): GameState
  {
    if g.time.None? then g
    else
      var t := NextMinute(g.time.value);
      var day := if t.day != g.time.value.day then t.day else g.day;
      var history := if g.currentTick % 60 == 0 then Bounded(g.resourceHistory + [Sample(stamp, day, t.hour, g.resources)])
                     else g.resourceHistory;
      g.(time := Some(t), day := day, resourceHistory := history, currentTick := g.currentTick + 1)
  }

  /** A tick advances the clock by one minute, mirrors the day only when it rolls over, adds
      one to `currentTick`, samples on the hour and keeps the history bounded with the newest
      sample last; nothing else changes. */
  lemma AdvanceSpec(g: GameState, stamp: real)
    requires g.time.Some?
    ensures var r := Advance(g, stamp);
      && r.time == Some(NextMinute(g.time.value)) && r.currentTick == g.currentTick + 1
      && r.day == (if NextMinute(g.time.value).day != g.time.value.day then NextMinute(g.time.value).day else g.day)
      && (|g.resourceHistory| <= 672 ==> |r.resourceHistory| <= 672)
      && (g.currentTick % 60 != 0 ==> r.resourceHistory == g.resourceHistory)
      && (g.currentTick % 60 == 0 ==> (r.resourceHistory != [] &&
            r.resourceHistory[|r.resourceHistory| - 1] == Sample(stamp, r.day, r.time.value.hour, g.resources)))
      && r == g.(time := r.time, day := r.day, currentTick := r.currentTick, resourceHistory := r.resourceHistory)
  {
  }

  /** The history after an hourly sample is a suffix of the old history plus the sample. */
  lemma BoundedKeepsRecent(h: seq<Sample>, s: Sample)
    ensures var r := Bounded(h + [s]);
      |r| <= 672 || r == h + [s]
    ensures var r := Bounded(h + [s]);
      r == (h + [s])[|h + [s]| - |r|..]
  {
  }

  /** `n` ticks in a row, with the wall-clock stamp of each. */
  function Ticks(g: GameState, n: nat, stamps: nat -> real): GameState
  {
    if n == 0 then g else Advance(Ticks(g, n - 1, stamps), stamps(n - 1))
  }

  /** After `n` ticks from a state with a clock in range: the clock is in range and exactly
      `n` minutes later, `currentTick` is `n` higher, and a bounded history stays bounded. */
  lemma {:induction false} TicksSpec(g: GameState, n: nat, stamps: nat -> real)
    requires g.time.Some? && InRange(g.time.value)
    ensures var r := Ticks(g, n, stamps);
      && r.time.Some? && InRange(r.time.value) && Minutes(r.time.value) == Minutes(g.time.value) + n
      && r.currentTick == g.currentTick + n
      && (|g.resourceHistory| <= 672 ==> |r.resourceHistory| <= 672)
  {
    if n > 0 {
      TicksSpec(g, n - 1, stamps);
      var q := Ticks(g, n - 1, stamps);
      NextMinuteSpec(q.time.value);
      AdvanceSpec(q, stamps(n - 1));
    }
  }

  /** Ticks keep the clock even from a clock out of range. */
  lemma {:induction false} TicksKeepClock(g: GameState, n: nat, stamps: nat -> real)
    requires g.time.Some?
    ensures Ticks(g, n, stamps).time.Some? && Ticks(g, n, stamps).currentTick == g.currentTick + n
  {
    if n > 0 {
      TicksKeepClock(g, n - 1, stamps);
    }
  }

  // ---------------------------------------------------------------- reporting

  datatype HelperDiff = HelperDiff(id: string, kind: string, isWorking: bool, efficiency: real)

  /** `createStateDiff`: the parts of the state the interface shows; `currentTick` is the
      worker's own tick count. */
  datatype StateDiff = StateDiff(time: Option<Time>, resources: Resources, plots: seq<Plot>, waterCurrent: real,
                                 waterMax: real, currentLocation: string, currentAction: Option<string>,
                                 helpers: seq<HelperDiff>, currentPhase: string, currentTick: int, day: int)

  /** `isWorking || false` and `efficiency || 1.0`: a missing value or a zero efficiency falls
      back to the default. */
  function HelperDiffOf(h: Helper): HelperDiff
  {
    HelperDiff(h.id, h.kind, h.isWorking.Some? && h.isWorking.value,
               if h.efficiency.Some? && h.efficiency.value != 0.0 then h.efficiency.value else 1.0)
  }

  function CreateStateDiff(g: GameState, workerTick: int): StateDiff
  {
    StateDiff(g.time, g.resources, g.farm.plots, g.farm.waterCurrent, g.farm.waterMax, g.currentLocation,
              g.currentAction, seq(|g.helpers|, i requires 0 <= i < |g.helpers| => HelperDiffOf(g.helpers[i])),
              g.currentPhase, workerTick, g.day)
  }

  /** Every helper is reported, in order: missing `isWorking` as not working, missing or zero
      `efficiency` as 1.0, other values as they are. */
  lemma CreateStateDiffSpec(g: GameState, workerTick: int)
    ensures var d := CreateStateDiff(g, workerTick);
      |d.helpers| == |g.helpers| && d.currentTick == workerTick && d.day == g.day && d.time == g.time
    ensures var d := CreateStateDiff(g, workerTick);
      forall i :: 0 <= i < |g.helpers| ==>
        && d.helpers[i].id == g.helpers[i].id
        && (d.helpers[i].isWorking <==> g.helpers[i].isWorking == Some(true))
        && d.helpers[i].efficiency == (if g.helpers[i].efficiency.None? || g.helpers[i].efficiency == Some(0.0) then 1.0
                                       else g.helpers[i].efficiency.value)
  {
  }

  // ---------------------------------------------------------------- speed and the frame budget

  /** `simulationSpeed`: 'max', a number, or undefined after `SET_SPEED` without a speed. */
  datatype Speed = Max | Rate(x: real) | Unset

  /** `maxTicksPerFrame`; undefined speed gives NaN, which no tick count is below. */
  function MaxTicks(s: Speed): Option<real>
  {
    match s
    case Max => Some(1000.0)
    case Rate(x) => Some(if x * 10.0 < 100.0 then x * 10.0 else 100.0)
    case Unset => None
  }

  predicate MayTick(s: Speed, n: nat)
  {
    MaxTicks(s).Some? && (n as real) < MaxTicks(s).value
  }

  /** A frame that stopped at the budget or earlier ran at most 1000 ticks at 'max', at most
      100 (and fewer than ten per unit of speed, plus one) otherwise, and none at an undefined
      speed. */
  lemma FrameBudget(s: Speed, n: nat)
    requires n == 0 || MayTick(s, n - 1)
    ensures s.Max? ==> n <= 1000
    ensures s.Rate? ==> n <= 100 && (n == 0 || ((n - 1) as real) < 10.0 * s.x)
    ensures s.Unset? ==> n == 0
  {
  }

  // ---------------------------------------------------------------- messages

  /** The payload fields the handlers read; a missing payload reads as `{}`. */
  datatype Payload = Payload(gameValues: Value, gameState: Option<GameState>, speed: Speed, playerProfile: Value)

  const NoPayload := Payload(Undefined, None, Unset, Undefined)

  /** `payload || {}` */
  function PayloadOr(payload: Option<Payload>): Payload
  {
    if payload.Some? then payload.value else NoPayload
  }

  /** Messages the worker posts. */
  datatype Post =
    | WorkerReady(timestamp: real)
    | InitComplete
    | SimulationStarted(speed: Speed)
    | SimulationPaused(tick: nat)
    | SimulationResumed(speed: Speed, tick: nat)
    | SimulationReset(initial: GameState)
    | SpeedChanged(speed: Speed)
    | StateSnapshot(snapshot: Option<GameState>, tick: nat, running: bool)
    | ProfileUpdated
    | SimulationError(tick: nat)
    | StateUpdate(diff: StateDiff, tick: nat, ticksPerSecond: real, totalTicks: nat)
    | Error(originalMessage: string)

  const HandlerNames: set<string> := {"INIT", "START", "PAUSE", "RESUME", "RESET", "SET_SPEED", "GET_STATE", "UPDATE_PROFILE"}

  /** How the listener treats a message type. */
  datatype Routing = Handle | Unknown | Ignored

  /** `messageHandlers[type]` looked up on the handler table's own keys. */
  function Route(t: string): Routing
  {
    if t in HandlerNames then Handle else Unknown
  }

  /** The names every plain object inherits that are functions returning normally when
      called with a payload object. */
  predicate QuietInherited(t: string)
  {
    t in {"constructor", "toString", "toLocaleString", "valueOf", "hasOwnProperty", "isPrototypeOf",
          "propertyIsEnumerable", "__lookupGetter__", "__lookupSetter__"}
  }

  /** `if (messageHandlers[type])` as written: the lookup also finds the inherited names, which
      are called and return without any reply. */
  function RouteAsWritten(t: string): Routing
  {
    if t in HandlerNames then Handle else if QuietInherited(t) then Ignored else Unknown
  }

  /** As written, a 'toString' message is silently swallowed; looked up on own keys it is
      reported as unknown, as is every type outside the handler table. */
  lemma InheritedTypeSwallowed(t: string)
    requires t == "toString"
    ensures RouteAsWritten(t) == Ignored && Route(t) == Unknown
  {
  }

  lemma RouteSpec(t: string)
    ensures Route(t) == Handle <==> t in HandlerNames
    ensures Route(t) != Ignored
    ensures !QuietInherited(t) ==> RouteAsWritten(t) == Route(t)
  {
  }

  // ---------------------------------------------------------------- the worker

  class Worker {
    var gameState: Option<GameState>
    var gameValues: Value
    var isRunning: bool
    var simulationSpeed: Speed
    var workerTick: nat
    var lastReportTime: real
    /** Every message posted to the main thread, in order. */
    var posted: seq<Post>
    /** Frames scheduled with `setTimeout` and not modelled further. */
    var timers: nat

    /** Loading the worker: the module state and the ready signal. */
    constructor (now: real)
      ensures gameState.None? && gameValues == Null && !isRunning && simulationSpeed == Rate(1.0)
      ensures workerTick == 0 && lastReportTime == 0.0 && posted == [WorkerReady(now)] && timers == 0
    {
      gameState := None;
      gameValues := Null;
      isRunning := false;
      simulationSpeed := Rate(1.0);
      workerTick := 0;
      lastReportTime := 0.0;
      posted := [WorkerReady(now)];
      timers := 0;
    }

    predicate CanRun()
      reads this
    {
      isRunning && gameState.Some? && Truthy(gameValues)
    }

    /** `runSimulation`: one frame. `clock(0)` is the frame's start; tick `j` reads the clock
        at `2j + 1` for the report and at `2j + 2` for the 16 ms check. `stamps(j)` is
        `Date.now()` during tick `j`. */
    method RunSimulation(clock: nat -> real, stamps: nat -> real) returns (n: nat)
      requires forall k :: clock(0) <= clock(k)
      modifies this
      ensures !old(CanRun()) ==> n == 0 && unchanged(this)
      ensures old(CanRun()) ==> (n == 0 || MayTick(old(simulationSpeed), n - 1)) && simulationSpeed == old(simulationSpeed)
      ensures old(CanRun()) && old(gameState).value.time.Some? ==>
        && gameState == Some(Ticks(old(gameState).value, n, stamps)) && workerTick == old(workerTick) + n
        && isRunning && timers == old(timers) + 1 && gameValues == old(gameValues)
        && forall i :: |old(posted)| <= i < |posted| ==>
             posted[i].StateUpdate? && old(workerTick) < posted[i].tick <= workerTick && posted[i].totalTicks == posted[i].tick
      ensures old(CanRun()) && old(gameState).value.time.None? ==>
        && n == 0 && gameState == old(gameState) && workerTick == old(workerTick) && gameValues == old(gameValues)
        && (if MayTick(old(simulationSpeed), 0) then !isRunning && posted == old(posted) + [SimulationError(old(workerTick))] && timers == old(timers)
            else isRunning && posted == old(posted) && timers == old(timers) + 1)
      ensures old(posted) <= posted
    {
      n := 0;
      if !CanRun() {
        return;
      }
      var g := gameState.value;
      if g.time.None? {
        if MayTick(simulationSpeed, 0) {
          posted := posted + [SimulationError(workerTick)];
          isRunning := false;
          return;
        }
        timers := timers + 1;
        return;
      }
      n := RunFrame(clock, stamps);
    }

    /** The frame loop of `runSimulation` once the guards have passed. */
    method RunFrame(clock: nat -> real, stamps: nat -> real) returns (n: nat)
      requires forall k :: clock(0) <= clock(k)
      requires CanRun() && gameState.value.time.Some?
      modifies this`gameState, this`workerTick, this`posted, this`lastReportTime, this`timers
      ensures n == 0 || MayTick(simulationSpeed, n - 1)
      ensures gameState == Some(Ticks(old(gameState).value, n, stamps)) && workerTick == old(workerTick) + n
      ensures timers == old(timers) + 1
      ensures PostedSince(old(posted), old(workerTick))
    {
      n := 0;
      var g := gameState.value;
      ghost var w0 := workerTick;
      ghost var p0 := posted;
      var startTime := clock(0);
      while isRunning && MayTick(simulationSpeed, n)
        invariant n == 0 || MayTick(simulationSpeed, n - 1)
        invariant timers == old(timers)
        invariant gameState == Some(Ticks(g, n, stamps)) && workerTick == w0 + n
        invariant PostedSince(p0, w0)
        decreases 1000 - n
      {
        TicksKeepClock(g, n, stamps);
        n := n + 1;
        TickOnce(stamps(n - 1), clock(2 * n - 1), clock(2 * n - 1) - startTime + 1.0, n, p0, w0, g, stamps);
        if clock(2 * n) - startTime > 16.0 {
          break;
        }
      }
      timers := timers + 1;
    }

    /** The messages after `p0` are state updates numbered after `w0` and up to the current tick. */
    ghost predicate PostedSince(p0: seq<Post>, w0: int)
      reads this
    {
      && p0 <= posted
      && forall i :: |p0| <= i < |posted| ==>
           posted[i].StateUpdate? && w0 < posted[i].tick <= workerTick && posted[i].totalTicks == posted[i].tick
    }

    /** The body of the frame loop: one tick, and a state update when the tick count is a
        multiple of 100 or more than a second has passed since the last one. */
    method TickOnce(stamp: real, now: real, elapsed: real, frameTicks: nat, ghost p0: seq<Post>, ghost w0: int,
                    ghost g: GameState, ghost stamps: nat -> real)
      requires gameState.Some? && elapsed >= 1.0
      requires frameTicks >= 1 && gameState.value == Ticks(g, frameTicks - 1, stamps) && stamp == stamps(frameTicks - 1)
      requires PostedSince(p0, w0) && w0 <= workerTick
      modifies this`gameState, this`workerTick, this`posted, this`lastReportTime
      ensures gameState == Some(Advance(old(gameState).value, stamp)) && workerTick == old(workerTick) + 1
      ensures gameState == Some(Ticks(g, frameTicks, stamps))
      ensures workerTick % 100 == 0 || now - old(lastReportTime) > 1000.0 ==>
        && posted == old(posted) + [StateUpdate(CreateStateDiff(gameState.value, workerTick), workerTick,
                                                (frameTicks as real) * 1000.0 / elapsed, workerTick)]
        && lastReportTime == now
      ensures !(workerTick % 100 == 0 || now - old(lastReportTime) > 1000.0) ==>
        posted == old(posted) && lastReportTime == old(lastReportTime)
      ensures PostedSince(p0, w0)
    {
      gameState := Some(Advance(gameState.value, stamp));
      workerTick := workerTick + 1;
      if workerTick % 100 == 0 || now - lastReportTime > 1000.0 {
        posted := posted + [StateUpdate(CreateStateDiff(gameState.value, workerTick), workerTick, (frameTicks as real) * 1000.0 / elapsed, workerTick)];
        lastReportTime := now;
      }
    }

    /** `INIT`: the game values remembered and a copy of the state handed over, or a fresh one. */
    twostate predicate Inited(p: Payload)
      reads this
    {
      && gameValues == p.gameValues && gameState == Some(if p.gameState.Some? then p.gameState.value else InitialState())
      && posted == old(posted) + [InitComplete]
      && unchanged(this`isRunning, this`simulationSpeed, this`workerTick, this`lastReportTime, this`timers)
    }

    /** One frame run after `START` or `RESUME`, ending with the message `last`: with a state
        and game values the frame ran `n` ticks; with a state but no clock it stopped with an
        `ERROR` at once (when the speed lets it tick); otherwise nothing ran. */
    twostate predicate Framed(n: nat, stamps: nat -> real, last: Post)
      reads this
    {
      && old(posted) < posted && posted[|posted| - 1] == last
      && (old(gameState).Some? && old(gameState).value.time.Some? && Truthy(old(gameValues)) ==>
            && isRunning && (n == 0 || MayTick(simulationSpeed, n - 1))
            && gameState == Some(Ticks(old(gameState).value, n, stamps)) && workerTick == old(workerTick) + n)
      && (old(gameState).Some? && old(gameState).value.time.None? && Truthy(old(gameValues)) ==>
            && n == 0 && gameState == old(gameState) && workerTick == old(workerTick)
            && (MayTick(simulationSpeed, 0) ==> !isRunning && posted == old(posted) + [SimulationError(old(workerTick)), last])
            && (!MayTick(simulationSpeed, 0) ==> isRunning && posted == old(posted) + [last]))
      && (old(gameState).None? || !Truthy(old(gameValues)) ==>
            && n == 0 && isRunning && gameState == old(gameState) && workerTick == old(workerTick)
            && posted == old(posted) + [last])
    }

    /** `START`: running at the given speed (1 when none is given), one frame at once. */
    twostate predicate Started(p: Payload, n: nat, stamps: nat -> real)
      reads this
    {
      simulationSpeed == (if p.speed.Unset? then Rate(1.0) else p.speed)
      && Framed(n, stamps, SimulationStarted(simulationSpeed))
    }

    /** `RESUME`: the given speed, or the current one, and one frame at once. */
    twostate predicate Resumed(p: Payload, n: nat, stamps: nat -> real)
      reads this
    {
      simulationSpeed == (if p.speed.Unset? then old(simulationSpeed) else p.speed)
      && Framed(n, stamps, SimulationResumed(simulationSpeed, workerTick))
    }

    /** `PAUSE`: stopped, with `SIMULATION_PAUSED`. */
    twostate predicate Paused()
      reads this
    {
      && !isRunning && posted == old(posted) + [SimulationPaused(workerTick)]
      && unchanged(this`gameState, this`gameValues, this`simulationSpeed, this`workerTick, this`lastReportTime, this`timers)
    }

    /** `RESET`: stopped, a fresh state, the counters at zero. */
    twostate predicate WasReset(p: Payload)
      reads this
    {
      && !isRunning && gameValues == p.gameValues && gameState == Some(InitialState())
      && workerTick == 0 && lastReportTime == 0.0 && posted == old(posted) + [SimulationReset(InitialState())]
      && unchanged(this`simulationSpeed, this`timers)
    }

    /** `SET_SPEED`: the speed as given, undefined included. */
    twostate predicate SpeedSet(p: Payload)
      reads this
    {
      && simulationSpeed == p.speed && posted == old(posted) + [SpeedChanged(p.speed)]
      && unchanged(this`gameState, this`gameValues, this`isRunning, this`workerTick, this`lastReportTime, this`timers)
    }

    /** `GET_STATE`: the snapshot posted. */
    twostate predicate StatePosted()
      reads this
    {
      && posted == old(posted) + [StateSnapshot(gameState, workerTick, isRunning)]
      && unchanged(this`gameState, this`gameValues, this`isRunning, this`simulationSpeed, this`workerTick, this`lastReportTime, this`timers)
    }

    /** `UPDATE_PROFILE`: the profile stored in the state; without a game state nothing happens
        at all. */
    twostate predicate ProfileSet(p: Payload)
      reads this
    {
      && (old(gameState).None? ==> unchanged(this))
      && (old(gameState).Some? ==> (gameState == Some(old(gameState).value.(playerProfile := p.playerProfile))
                                    && posted == old(posted) + [ProfileUpdated]))
      && unchanged(this`gameValues, this`isRunning, this`simulationSpeed, this`workerTick, this`lastReportTime, this`timers)
    }

    method Init(p: Payload)
      modifies this
      ensures Inited(p)
    {
      gameValues := p.gameValues;
      gameState := Some(if p.gameState.Some? then p.gameState.value else InitialState());
      posted := posted + [InitComplete];
    }

    method Start(p: Payload, clock: nat -> real, stamps: nat -> real) returns (n: nat)
      requires forall k :: clock(0) <= clock(k)
      modifies this
      ensures Started(p, n, stamps)
    {
      isRunning := true;
      simulationSpeed := if p.speed.Unset? then Rate(1.0) else p.speed;
      var speed := simulationSpeed;
      n := RunSimulation(clock, stamps);
      posted := posted + [SimulationStarted(speed)];
    }

    method Pause()
      modifies this
      ensures Paused()
    {
      isRunning := false;
      posted := posted + [SimulationPaused(workerTick)];
    }

    method Resume(p: Payload, clock: nat -> real, stamps: nat -> real) returns (n: nat)
      requires forall k :: clock(0) <= clock(k)
      modifies this
      ensures Resumed(p, n, stamps)
    {
      simulationSpeed := if p.speed.Unset? then simulationSpeed else p.speed;
      isRunning := true;
      var speed := simulationSpeed;
      n := RunSimulation(clock, stamps);
      posted := posted + [SimulationResumed(speed, workerTick)];
    }

    method Reset(p: Payload)
      modifies this
      ensures WasReset(p)
    {
      isRunning := false;
      gameValues := p.gameValues;
      gameState := Some(InitialState());
      workerTick := 0;
      lastReportTime := 0.0;
      posted := posted + [SimulationReset(InitialState())];
    }

    method SetSpeed(p: Payload)
      modifies this
      ensures SpeedSet(p)
    {
      simulationSpeed := p.speed;
      posted := posted + [SpeedChanged(p.speed)];
    }

    method GetState()
      modifies this
      ensures StatePosted()
    {
      posted := posted + [StateSnapshot(gameState, workerTick, isRunning)];
    }

    method UpdateProfile(p: Payload)
      modifies this
      ensures ProfileSet(p)
    {
      if gameState.Some? {
        gameState := Some(gameState.value.(playerProfile := p.playerProfile));
        posted := posted + [ProfileUpdated];
      }
    }

    /** The message listener: a known type goes to its handler with `payload || {}`, and `n` is
        the number of ticks its frame ran (none for a type that runs no frame); any other type
        is answered with `ERROR` and changes nothing else. */
    method Receive(t: string, payload: Option<Payload>, clock: nat -> real, stamps: nat -> real) returns (n: nat)
      requires forall k :: clock(0) <= clock(k)
      modifies this
      ensures Route(t) == Unknown ==> (posted == old(posted) + [Error(t)]
        && unchanged(this`gameState, this`gameValues, this`isRunning, this`simulationSpeed, this`workerTick, this`lastReportTime, this`timers))
      ensures t == "INIT" ==> Inited(PayloadOr(payload))
      ensures t == "START" ==> Started(PayloadOr(payload), n, stamps)
      ensures t == "PAUSE" ==> Paused()
      ensures t == "RESUME" ==> Resumed(PayloadOr(payload), n, stamps)
      ensures t == "RESET" ==> WasReset(PayloadOr(payload))
      ensures t == "SET_SPEED" ==> SpeedSet(PayloadOr(payload))
      ensures t == "GET_STATE" ==> StatePosted()
      ensures t == "UPDATE_PROFILE" ==> ProfileSet(PayloadOr(payload))
      ensures t != "START" && t != "RESUME" ==> n == 0
      ensures Route(t) == Handle && !(t == "UPDATE_PROFILE" && old(gameState).None?) ==> old(posted) < posted
    {
      var p := PayloadOr(payload);
      n := 0;
      if t == "INIT" {
        Init(p);
      } else if t == "START" {
        n := Start(p, clock, stamps);
      } else if t == "PAUSE" {
        Pause();
      } else if t == "RESUME" {
        n := Resume(p, clock, stamps);
      } else if t == "RESET" {
        Reset(p);
      } else if t == "SET_SPEED" {
        SetSpeed(p);
      } else if t == "GET_STATE" {
        GetState();
      } else if t == "UPDATE_PROFILE" {
        UpdateProfile(p);
      } else {
        posted := posted + [Error(t)];
      }
    }
  }
}
