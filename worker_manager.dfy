// The main-thread side of the simulation worker: a registry of message handlers, a queue of
// messages sent before the worker is ready, the dispatch of incoming worker messages, and
// the cached latest state and performance metrics. The worker object itself is an output log.

module WorkerManager {
  import opened Common

  // ---------------------------------------------------------------- messages

  /** A payload value the manager only passes along: a number, an object it does not look
      into (game values, game state, player profile), or null. */
  datatype Value = Num(n: real) | Data(ref: nat) | Null

  /** `{ type, payload }` as posted to the worker. */
  datatype Message = Message(kind: string, payload: Obj<Value>)

  /** What the worker object is told: created, sent a message, terminated. */
  datatype WorkerEvent = Created | Posted(m: Message) | Terminated

  /** The parts of an incoming payload the manager reads: `performance`, `gameState` and
      the truthiness of `success`. */
  datatype Payload = Payload(performance: Option<Obj<real>>, gameState: Option<Obj<Value>>, success: bool)

  /** A registered handler. Callbacks are the caller's functions, compared by identity;
      `Relabel` is a lifecycle wrapper that calls its callback with a fixed tag; the other
      three are the manager's own promise handlers. */
  datatype Handler = Callback(id: nat) | Relabel(id: nat, tag: string) | MarkReady | InitComplete | SnapshotReady

  /** What the second argument of a lifecycle callback turned out to be. */
  datatype Arg = PayloadArg(p: Option<Payload>) | TypeArg(t: string)

  /** One invocation of a caller's function. */
  datatype Call = Specific(id: nat, payload: Option<Payload>) | General(id: nat, kind: string, payload: Option<Payload>)
                | Lifecycle(id: nat, tag: string, arg: Arg)

  /** The closure `onMessage` returns: it captures the type and the handler. */
  datatype Unsubscriber = Unsubscriber(kind: string, handler: Handler)

  function Posts(ms: seq<Message>): (r: seq<WorkerEvent>)
    ensures |r| == |ms| && forall i :: 0 <= i < |ms| ==> r[i] == Posted(ms[i])
  {
    seq(|ms|, i requires 0 <= i < |ms| => Posted(ms[i]))
  }

  /** `handlers.splice(handlers.indexOf(handler), 1)` when the index is not -1. */
  function RemoveFirst(hs: seq<Handler>, h: Handler): seq<Handler>
  {
    if hs == [] then [] else if hs[0] == h then hs[1..] else [hs[0]] + RemoveFirst(hs[1..], h)
  }

  /** `splice` removes exactly one occurrence when there is one, and keeps the order of the rest. */
  lemma {:induction false} RemoveFirstSpec(hs: seq<Handler>, h: Handler)
    ensures h in hs ==> multiset(RemoveFirst(hs, h)) == multiset(hs) - multiset{h} && |RemoveFirst(hs, h)| == |hs| - 1
    ensures h !in hs ==> RemoveFirst(hs, h) == hs
  {
    if hs != [] {
      assert hs == [hs[0]] + hs[1..];
      if hs[0] == h {
        assert multiset(hs) == multiset{h} + multiset(hs[1..]);
        assert hs[0] in hs;
      } else {
        RemoveFirstSpec(hs[1..], h);
        var r := RemoveFirst(hs[1..], h);
        assert RemoveFirst(hs, h) == [hs[0]] + r;
        assert multiset([hs[0]] + r) == multiset{hs[0]} + multiset(r);
        assert multiset(hs) == multiset{hs[0]} + multiset(hs[1..]);
        assert h in hs <==> h in hs[1..];
      }
    }
  }

  /** Unsubscribing right after subscribing gives back the list as it was, provided the
      handler was not registered already. */
  lemma {:induction false} SubscribeThenUnsubscribe(hs: seq<Handler>, h: Handler)
    requires h !in hs
    ensures RemoveFirst(hs + [h], h) == hs
  {
    if hs == [] {
      assert [h][1..] == [];
    } else {
      assert (hs + [h])[1..] == hs[1..] + [h];
      SubscribeThenUnsubscribe(hs[1..], h);
      assert hs == [hs[0]] + hs[1..];
    }
  }

  /** `{ ...a, ...b }` for two flat objects of numbers. */
  function Merge(a: Obj<real>, b: Obj<real>): Obj<real>
    decreases b
  {
    if b == [] then a else Merge(Put(a, b[0].0, b[0].1), b[1..])
  }

  lemma {:induction false} MergeSpec(a: Obj<real>, b: Obj<real>, k: string)
    ensures Get(Merge(a, b), k) == if LastGet(b, k).Some? then LastGet(b, k) else Get(a, k)
    decreases b
  {
    if b != [] {
      MergeSpec(Put(a, b[0].0, b[0].1), b[1..], k);
    }
  }

  /** The value a spread takes from `b` for `k`: its last entry for that key. */
  function LastGet(b: Obj<real>, k: string): Option<real>
  {
    if b == [] then None
    else if LastGet(b[1..], k).Some? then LastGet(b[1..], k)
    else if b[0].0 == k then Some(b[0].1)
    else None
  }

  const ZeroMetrics: Obj<real> := [("ticksPerSecond", 0.0), ("totalTicks", 0.0), ("lastUpdateTime", 0.0)]

  /** The performance metrics after a message carrying `performance`, stamped with `now`. */
  function MetricsAfter(m: Obj<real>, p: Option<Payload>, now: real): (r: Obj<real>)
  {
    if p.Some? && p.value.performance.Some? then Put(Merge(m, p.value.performance.value), "lastUpdateTime", now) else m
  }

  /** A state update is cached as `{ ...gameState, timestamp }`. */
  function StateAfter(last: Option<Obj<Value>>, kind: string, p: Option<Payload>, now: real): Option<Obj<Value>>
  {
    if kind == "STATE_UPDATE" && p.Some? && p.value.gameState.Some? then Some(Put(p.value.gameState.value, "timestamp", Num(now)))
    else last
  }

  /** Performance values override the old ones key by key, and the stamp is always `now`. */
  lemma MetricsAfterSpec(m: Obj<real>, p: Option<Payload>, now: real, k: string)
    requires p.Some? && p.value.performance.Some?
    ensures Get(MetricsAfter(m, p, now), "lastUpdateTime") == Some(now)
    ensures k != "lastUpdateTime" ==> (Get(MetricsAfter(m, p, now), k) ==
      if LastGet(p.value.performance.value, k).Some? then LastGet(p.value.performance.value, k) else Get(m, k))
  {
    MergeSpec(m, p.value.performance.value, k);
  }

  // ---------------------------------------------------------------- dispatch, as a function

  /** The part of the manager that handlers can change while a message is dispatched. */
  datatype Core = Core(isInitialized: bool, pending: seq<Message>, log: seq<WorkerEvent>, calls: seq<Call>)

  /** `processPendingMessages`: every queued message is sent again; if the worker cannot take
      it, it is pushed onto the array being iterated, which `forEach` does not revisit, and
      the queue is then emptied either way. */
  function Flush(c: Core, worker: bool): Core
  {
    if |c.pending| > 0 then c.(pending := [], log := c.log + (if worker && c.isInitialized then Posts(c.pending) else []))
    else c
  }

  /** One handler call. A general handler is called as `handler(type, payload)`, so the
      promise handlers then see the type string where they expect the payload. */
  function Step(c: Core, h: Handler, kind: string, p: Option<Payload>, general: bool, worker: bool): Core
  {
    match h
    case Callback(id) => c.(calls := c.calls + [if general then General(id, kind, p) else Specific(id, p)])
    case Relabel(id, tag) => c.(calls := c.calls + [Lifecycle(id, tag, if general then TypeArg(kind) else PayloadArg(p))])
    case MarkReady => c.(isInitialized := true)
    case InitComplete => if !general && p.Some? && p.value.success then Flush(c, worker) else c
    case SnapshotReady => c
  }

  function Run(c: Core, hs: seq<Handler>, kind: string, p: Option<Payload>, general: bool, worker: bool): Core
  {
    if hs == [] then c else Step(Run(c, hs[..|hs| - 1], kind, p, general, worker), hs[|hs| - 1], kind, p, general, worker)
  }

  /** The calls one list of handlers makes to the caller's functions, in list order. */
  function CallsOf(hs: seq<Handler>, kind: string, p: Option<Payload>, general: bool): seq<Call>
  {
    if hs == [] then []
    else CallsOf(hs[..|hs| - 1], kind, p, general) + Step(Core(false, [], [], []), hs[|hs| - 1], kind, p, general, false).calls
  }

  /** Dispatch calls exactly the registered callbacks, in order, whatever the promise
      handlers do meanwhile. */
  lemma {:induction false} RunCalls(c: Core, hs: seq<Handler>, kind: string, p: Option<Payload>, general: bool, worker: bool)
    ensures Run(c, hs, kind, p, general, worker).calls == c.calls + CallsOf(hs, kind, p, general)
  {
    if hs != [] {
      RunCalls(c, hs[..|hs| - 1], kind, p, general, worker);
    }
  }

  /** The manager is initialised after dispatch iff it was before or a ready handler ran. */
  lemma {:induction false} RunInitialized(c: Core, hs: seq<Handler>, kind: string, p: Option<Payload>, general: bool, worker: bool)
    ensures Run(c, hs, kind, p, general, worker).isInitialized == (c.isInitialized || MarkReady in hs)
  {
    if hs != [] {
      var n := |hs| - 1;
      RunInitialized(c, hs[..n], kind, p, general, worker);
      assert hs == hs[..n] + [hs[n]];
    }
  }

  /** Dispatch either leaves the queue and the worker log alone or flushes the queue once:
      the messages go to the worker in order when it can take them and are dropped otherwise.
      Without a successful init-complete handler nothing is flushed. */
  lemma {:induction false} RunQueue(c: Core, hs: seq<Handler>, kind: string, p: Option<Payload>, general: bool, worker: bool)
    ensures var r := Run(c, hs, kind, p, general, worker);
      || (r.pending == c.pending && r.log == c.log)
      || (r.pending == [] && (r.log == c.log || r.log == c.log + Posts(c.pending)))
    ensures var r := Run(c, hs, kind, p, general, worker);
      !(InitComplete in hs && !general && p.Some? && p.value.success) ==> r.pending == c.pending && r.log == c.log
    ensures var r := Run(c, hs, kind, p, general, worker);
      InitComplete in hs && !general && p.Some? && p.value.success ==> r.pending == []
  {
    if hs != [] {
      var n := |hs| - 1;
      RunQueue(c, hs[..n], kind, p, general, worker);
      assert hs == hs[..n] + [hs[n]];
      var q := Run(c, hs[..n], kind, p, general, worker);
      if q.pending == [] {
        assert Flush(q, worker) == q;
      }
    }
  }

  // ---------------------------------------------------------------- the manager

  class SimulationWorkerManager {
    /** Whether a worker object exists (`this.worker !== null`). */
    var worker: bool
    /** Everything ever done to a worker object, in order. */
    var log: seq<WorkerEvent>
    var isInitialized: bool
    var messageHandlers: map<string, seq<Handler>>
    var pendingMessages: seq<Message>
    var lastStateUpdate: Option<Obj<Value>>
    var performanceMetrics: Obj<real>
    /** Every call made to the caller's functions, in order. */
    var calls: seq<Call>

    function CoreOf(): Core
      reads this
    {
      Core(isInitialized, pendingMessages, log, calls)
    }

    constructor ()
      ensures !worker && log == [] && !isInitialized && messageHandlers == map[] && pendingMessages == []
      ensures lastStateUpdate.None? && performanceMetrics == ZeroMetrics && calls == []
    {
      worker := false;
      log := [];
      isInitialized := false;
      messageHandlers := map[];
      pendingMessages := [];
      lastStateUpdate := None;
      performanceMetrics := ZeroMetrics;
      calls := [];
    }

    /** The handlers registered for a type (`get(type) || []`). */
    function HandlersFor(kind: string): seq<Handler>
      reads this
    {
      if kind in messageHandlers then messageHandlers[kind] else []
    }

    /** `onMessage` for any handler; returns the unsubscribe closure. */
    method Register(kind: string, h: Handler) returns (u: Unsubscriber)
      modifies this
      ensures messageHandlers == old(messageHandlers)[kind := old(HandlersFor(kind)) + [h]]
      ensures u == Unsubscriber(kind, h)
      ensures unchanged(this`worker, this`log, this`isInitialized, this`pendingMessages, this`lastStateUpdate, this`performanceMetrics, this`calls)
    {
      var hs := HandlersFor(kind);
      messageHandlers := messageHandlers[kind := hs + [h]];
      u := Unsubscriber(kind, h);
    }

    /** `onMessage(type, handler)` for a caller's function. */
    method OnMessage(kind: string, id: nat) returns (u: Unsubscriber)
      modifies this
      ensures messageHandlers == old(messageHandlers)[kind := old(HandlersFor(kind)) + [Callback(id)]]
      ensures u == Unsubscriber(kind, Callback(id))
      ensures unchanged(this`worker, this`log, this`isInitialized, this`pendingMessages, this`lastStateUpdate, this`performanceMetrics, this`calls)
    {
      u := Register(kind, Callback(id));
    }

    /** Calling the returned closure: the first occurrence of the handler in the current list
        for its type goes; a type with no list is left alone. */
    method Unsubscribe(u: Unsubscriber)
      modifies this
      ensures u.kind in old(messageHandlers) ==>
        messageHandlers == old(messageHandlers)[u.kind := RemoveFirst(old(messageHandlers)[u.kind], u.handler)]
      ensures u.kind !in old(messageHandlers) ==> messageHandlers == old(messageHandlers)
      ensures unchanged(this`worker, this`log, this`isInitialized, this`pendingMessages, this`lastStateUpdate, this`performanceMetrics, this`calls)
    {
      if u.kind in messageHandlers {
        messageHandlers := messageHandlers[u.kind := RemoveFirst(messageHandlers[u.kind], u.handler)];
      }
    }

    /** `sendMessage`: queued until a worker exists and is initialised, posted otherwise. */
    method SendMessage(m: Message)
      modifies this
      ensures old(worker && isInitialized) ==> log == old(log) + [Posted(m)] && pendingMessages == old(pendingMessages)
      ensures !old(worker && isInitialized) ==> pendingMessages == old(pendingMessages) + [m] && log == old(log)
      ensures unchanged(this`worker, this`isInitialized, this`messageHandlers, this`lastStateUpdate, this`performanceMetrics, this`calls)
    {
      if !worker || !isInitialized {
        pendingMessages := pendingMessages + [m];
        return;
      }
      log := log + [Posted(m)];
    }

    method ProcessPendingMessages()
      modifies this
      ensures CoreOf() == Flush(old(CoreOf()), worker)
      ensures unchanged(this`worker, this`messageHandlers, this`lastStateUpdate, this`performanceMetrics)
    {
      if |pendingMessages| > 0 {
        var ms := pendingMessages;
        var i := 0;
        while i < |ms|
          invariant 0 <= i <= |ms|
          invariant worker == old(worker) && isInitialized == old(isInitialized) && calls == old(calls)
          invariant messageHandlers == old(messageHandlers) && lastStateUpdate == old(lastStateUpdate)
          invariant performanceMetrics == old(performanceMetrics)
          invariant worker && isInitialized ==> log == old(log) + Posts(ms[..i]) && pendingMessages == ms
          invariant !(worker && isInitialized) ==> log == old(log) && pendingMessages == ms + ms[..i]
        {
          assert ms[..i + 1] == ms[..i] + [ms[i]];
          SendMessage(ms[i]);
          assert Posts(ms[..i]) + [Posted(ms[i])] == Posts(ms[..i + 1]);
          i := i + 1;
        }
        assert ms[..|ms|] == ms;
        pendingMessages := [];
      }
    }

    /** One handler call, with the effect of the manager's own promise handlers. */
    method Invoke(h: Handler, kind: string, p: Option<Payload>, general: bool)
      modifies this
      ensures CoreOf() == Step(old(CoreOf()), h, kind, p, general, worker)
      ensures unchanged(this`worker, this`messageHandlers, this`lastStateUpdate, this`performanceMetrics)
    {
      match h
      case Callback(id) =>
        calls := calls + [if general then General(id, kind, p) else Specific(id, p)];
      case Relabel(id, tag) =>
        calls := calls + [Lifecycle(id, tag, if general then TypeArg(kind) else PayloadArg(p))];
      case MarkReady =>
        isInitialized := true;
      case InitComplete =>
        if !general && p.Some? && p.value.success {
          ProcessPendingMessages();
        }
      case SnapshotReady =>
    }

    method InvokeAll(hs: seq<Handler>, kind: string, p: Option<Payload>, general: bool)
      modifies this
      ensures CoreOf() == Run(old(CoreOf()), hs, kind, p, general, worker)
      ensures unchanged(this`worker, this`messageHandlers, this`lastStateUpdate, this`performanceMetrics)
    {
      var i := 0;
      while i < |hs|
        invariant 0 <= i <= |hs|
        invariant CoreOf() == Run(old(CoreOf()), hs[..i], kind, p, general, worker)
        invariant worker == old(worker) && messageHandlers == old(messageHandlers)
        invariant lastStateUpdate == old(lastStateUpdate) && performanceMetrics == old(performanceMetrics)
      {
        assert hs[..i + 1][..i] == hs[..i];
        Invoke(hs[i], kind, p, general);
        i := i + 1;
      }
      assert hs[..|hs|] == hs;
    }

    /** `handleWorkerMessage`: metrics and the cached state first, then the handlers for the
        type and then the general ones. Errors thrown by handlers are swallowed. */
    method HandleWorkerMessage(kind: string, p: Option<Payload>, now: real)
      modifies this
      ensures performanceMetrics == MetricsAfter(old(performanceMetrics), p, now)
      ensures lastStateUpdate == StateAfter(old(lastStateUpdate), kind, p, now)
      ensures CoreOf() == Run(Run(old(CoreOf()), old(HandlersFor(kind)), kind, p, false, worker), old(HandlersFor("*")), kind, p, true, worker)
      ensures calls == old(calls) + CallsOf(old(HandlersFor(kind)), kind, p, false) + CallsOf(old(HandlersFor("*")), kind, p, true)
      ensures isInitialized == (old(isInitialized) || MarkReady in old(HandlersFor(kind)) || MarkReady in old(HandlersFor("*")))
      ensures unchanged(this`worker, this`messageHandlers)
    {
      performanceMetrics := MetricsAfter(performanceMetrics, p, now);
      lastStateUpdate := StateAfter(lastStateUpdate, kind, p, now);
      var c0 := CoreOf();
      var specific := HandlersFor(kind);
      var general := HandlersFor("*");
      InvokeAll(specific, kind, p, false);
      var c1 := CoreOf();
      InvokeAll(general, kind, p, true);
      RunCalls(c0, specific, kind, p, false, worker);
      RunCalls(c1, general, kind, p, true, worker);
      RunInitialized(c0, specific, kind, p, false, worker);
      RunInitialized(c1, general, kind, p, true, worker);
    }

    /** `initialize`: once initialised, nothing; otherwise a new worker and a handler that marks
        the manager ready when the worker says so. */
    method Initialize()
      modifies this
      ensures old(isInitialized) ==> unchanged(this)
      ensures !old(isInitialized) ==> (worker && log == old(log) + [Created]
        && messageHandlers == old(messageHandlers)["WORKER_READY" := old(HandlersFor("WORKER_READY")) + [MarkReady]]
        && unchanged(this`isInitialized, this`pendingMessages, this`lastStateUpdate, this`performanceMetrics, this`calls))
    {
      if isInitialized {
        return;
      }
      worker := true;
      log := log + [Created];
      var _ := Register("WORKER_READY", MarkReady);
    }

    /** `initializeSimulation`: waits for `INIT_COMPLETE` and asks the worker to initialise. */
    method InitializeSimulation(gameValues: Value, gameState: Value)
      modifies this
      ensures messageHandlers == old(messageHandlers)["INIT_COMPLETE" := old(HandlersFor("INIT_COMPLETE")) + [InitComplete]]
      ensures var m := Message("INIT", [("gameValues", gameValues), ("gameState", gameState)]);
        if old(worker && isInitialized) then log == old(log) + [Posted(m)] && pendingMessages == old(pendingMessages)
        else pendingMessages == old(pendingMessages) + [m] && log == old(log)
      ensures unchanged(this`worker, this`isInitialized, this`lastStateUpdate, this`performanceMetrics, this`calls)
    {
      var _ := Register("INIT_COMPLETE", InitComplete);
      SendMessage(Message("INIT", [("gameValues", gameValues), ("gameState", gameState)]));
    }

    /** `getCurrentState`: waits for `STATE_SNAPSHOT` (the handler is never removed) and asks
        for one. */
    method GetCurrentState()
      modifies this
      ensures messageHandlers == old(messageHandlers)["STATE_SNAPSHOT" := old(HandlersFor("STATE_SNAPSHOT")) + [SnapshotReady]]
      ensures if old(worker && isInitialized) then log == old(log) + [Posted(Message("GET_STATE", []))] && pendingMessages == old(pendingMessages)
        else pendingMessages == old(pendingMessages) + [Message("GET_STATE", [])] && log == old(log)
      ensures unchanged(this`worker, this`isInitialized, this`lastStateUpdate, this`performanceMetrics, this`calls)
    {
      var _ := Register("STATE_SNAPSHOT", SnapshotReady);
      SendMessage(Message("GET_STATE", []));
    }

    /** `resetSimulation`: forget the cached state, zero the metrics, and send `RESET`. */
    method ResetSimulation(gameValues: Value)
      modifies this
      ensures lastStateUpdate.None? && performanceMetrics == ZeroMetrics
      ensures if old(worker && isInitialized) then log == old(log) + [Posted(Message("RESET", [("gameValues", gameValues)]))] && pendingMessages == old(pendingMessages)
        else pendingMessages == old(pendingMessages) + [Message("RESET", [("gameValues", gameValues)])] && log == old(log)
      ensures unchanged(this`worker, this`isInitialized, this`messageHandlers, this`calls)
    {
      lastStateUpdate := None;
      performanceMetrics := ZeroMetrics;
      SendMessage(Message("RESET", [("gameValues", gameValues)]));
    }

    /** `destroy`: terminate the worker if there is one and clear the registry, the queue and
        the cached state; the metrics stay. */
    method Destroy()
      modifies this
      ensures !worker && !isInitialized && messageHandlers == map[] && pendingMessages == [] && lastStateUpdate.None?
      ensures log == old(log) + (if old(worker) then [Terminated] else [])
      ensures !IsRunning()
      ensures unchanged(this`performanceMetrics, this`calls)
    {
      if worker {
        log := log + [Terminated];
        worker := false;
      }
      isInitialized := false;
      messageHandlers := map[];
      pendingMessages := [];
      lastStateUpdate := None;
    }

    /** The message was posted when the worker could take it and queued otherwise, and
        nothing else changed. */
    twostate predicate Sent(m: Message)
      reads this
    {
      && (if old(worker && isInitialized) then log == old(log) + [Posted(m)] && pendingMessages == old(pendingMessages)
          else pendingMessages == old(pendingMessages) + [m] && log == old(log))
      && worker == old(worker) && isInitialized == old(isInitialized) && messageHandlers == old(messageHandlers)
      && lastStateUpdate == old(lastStateUpdate) && performanceMetrics == old(performanceMetrics) && calls == old(calls)
    }

    method StartSimulation(speed: real)
      modifies this
      ensures Sent(Message("START", [("speed", Num(speed))]))
    {
      SendMessage(Message("START", [("speed", Num(speed))]));
    }

    method PauseSimulation()
      modifies this
      ensures Sent(Message("PAUSE", []))
    {
      SendMessage(Message("PAUSE", []));
    }

    method ResumeSimulation(speed: real)
      modifies this
      ensures Sent(Message("RESUME", [("speed", Num(speed))]))
    {
      SendMessage(Message("RESUME", [("speed", Num(speed))]));
    }

    method SetSimulationSpeed(speed: real)
      modifies this
      ensures Sent(Message("SET_SPEED", [("speed", Num(speed))]))
    {
      SendMessage(Message("SET_SPEED", [("speed", Num(speed))]));
    }

    method UpdatePlayerProfile(profile: Value)
      modifies this
      ensures Sent(Message("UPDATE_PROFILE", [("playerProfile", profile)]))
    {
      SendMessage(Message("UPDATE_PROFILE", [("playerProfile", profile)]));
    }

    /** `isRunning` */
    predicate IsRunning()
      reads this
    {
      isInitialized && worker
    }

    /** `subscribeToLifecycle`: five wrappers, each calling the callback with its tag. */
    method SubscribeToLifecycle(id: nat) returns (us: seq<Unsubscriber>)
      modifies this
      ensures us == [Unsubscriber("SIMULATION_STARTED", Relabel(id, "started")), Unsubscriber("SIMULATION_PAUSED", Relabel(id, "paused")),
                     Unsubscriber("SIMULATION_RESUMED", Relabel(id, "resumed")), Unsubscriber("SIMULATION_RESET", Relabel(id, "reset")),
                     Unsubscriber("SPEED_CHANGED", Relabel(id, "speed_changed"))]
      ensures forall i :: 0 <= i < |us| ==> us[i].kind in messageHandlers && us[i].handler in messageHandlers[us[i].kind]
      ensures unchanged(this`worker, this`log, this`isInitialized, this`pendingMessages, this`lastStateUpdate, this`performanceMetrics, this`calls)
    {
      var a := Register("SIMULATION_STARTED", Relabel(id, "started"));
      var b := Register("SIMULATION_PAUSED", Relabel(id, "paused"));
      var c := Register("SIMULATION_RESUMED", Relabel(id, "resumed"));
      var d := Register("SIMULATION_RESET", Relabel(id, "reset"));
      var e := Register("SPEED_CHANGED", Relabel(id, "speed_changed"));
      us := [a, b, c, d, e];
    }
  }

  /** Messages queued before the worker is ready reach it, in the order they were sent, once
      an init-complete message with success is dispatched to a ready manager. */
  method QueueThenFlush(mgr: SimulationWorkerManager, ms: seq<Message>, now: real)
    requires mgr.pendingMessages == [] && !mgr.isInitialized
    requires "INIT_COMPLETE" !in mgr.messageHandlers && "*" !in mgr.messageHandlers
    modifies mgr
    ensures mgr.pendingMessages == [] && mgr.log == old(mgr.log) + [Created] + Posts(ms)
  {
    QueueAll(mgr, ms);
    StartWorker(mgr, now);
    CompleteInit(mgr, now);
  }

  /** While the manager is not initialised, sending queues each message in order. */
  method QueueAll(mgr: SimulationWorkerManager, ms: seq<Message>)
    requires mgr.pendingMessages == [] && !mgr.isInitialized
    modifies mgr
    ensures mgr.pendingMessages == ms && !mgr.isInitialized
    ensures unchanged(mgr`log, mgr`messageHandlers)
  {
    var i := 0;
    while i < |ms|
      invariant 0 <= i <= |ms|
      invariant !mgr.isInitialized && mgr.pendingMessages == ms[..i]
      invariant unchanged(mgr`log, mgr`messageHandlers)
    {
      assert ms[..i + 1] == ms[..i] + [ms[i]];
      mgr.SendMessage(ms[i]);
      i := i + 1;
    }
    assert ms[..|ms|] == ms;
  }

  /** Initialising creates the worker; its ready message marks the manager initialised and
      leaves the queue alone. */
  method StartWorker(mgr: SimulationWorkerManager, now: real)
    requires !mgr.isInitialized
    requires "INIT_COMPLETE" !in mgr.messageHandlers && "*" !in mgr.messageHandlers
    modifies mgr
    ensures mgr.worker && mgr.isInitialized
    ensures mgr.pendingMessages == old(mgr.pendingMessages) && mgr.log == old(mgr.log) + [Created]
    ensures "INIT_COMPLETE" !in mgr.messageHandlers && "*" !in mgr.messageHandlers
  {
    mgr.Initialize();
    assert mgr.HandlersFor("*") == [];
    ghost var c0 := mgr.CoreOf();
    ghost var ready := mgr.HandlersFor("WORKER_READY");
    mgr.HandleWorkerMessage("WORKER_READY", None, now);
    RunQueue(c0, ready, "WORKER_READY", None, false, true);
  }

  /** A successful init-complete message sends the queue to a ready worker and empties it. */
  method CompleteInit(mgr: SimulationWorkerManager, now: real)
    requires mgr.worker && mgr.isInitialized
    requires "INIT_COMPLETE" !in mgr.messageHandlers && "*" !in mgr.messageHandlers
    modifies mgr
    ensures mgr.pendingMessages == [] && mgr.log == old(mgr.log) + Posts(old(mgr.pendingMessages))
  {
    assert mgr.HandlersFor("INIT_COMPLETE") == [];
    var _ := mgr.Register("INIT_COMPLETE", InitComplete);
    assert mgr.HandlersFor("INIT_COMPLETE") == [InitComplete];
    assert mgr.HandlersFor("*") == [];
    assert [InitComplete][..0] == [];
    mgr.HandleWorkerMessage("INIT_COMPLETE", Some(Payload(None, None, true)), now);
  }
}
