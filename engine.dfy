/** The stand-alone simulation engine (src/utils/simulationEngine.js): a game state object
    that every handler mutates in place, advanced by `simulateGameTick` one game minute at a
    time.  Random draws and `Date.now()` come in as a `Draws` record. */
module Engine {
  import opened Common

  // ================================================================ values

  datatype Time = Time(day: int, hour: int, minute: int)

  datatype Resources = Resources(energy: real, cap: real, gold: real, materials: Obj<real>)

  datatype Plot = Plot(id: int, crop: Option<string>, growthStage: int, watered: bool, plantedAt: Option<int>)

  datatype Tank = Tank(current: int, max: int)

  /** An action of the hero; `target` is a route id or a crop, `depth` a mining depth. */
  datatype Action = Action(kind: string, target: Option<string>, depth: Option<int>, timeRemaining: int, startedAt: int)

  datatype Helper = Helper(id: string, kind: string, isWorking: bool)

  /** An entry of `discoveredHelpers` (the constant fields discovered, awakened, efficiency
      1.0 and level 1 are not repeated here). */
  datatype Found = Found(id: string, kind: string)

  datatype PhaseEntry = PhaseEntry(phase: string, startDay: int, duration: Option<int>)

  /** An hourly entry of `resourceHistory`: a copy of the resources. */
  datatype Snapshot = Snapshot(timestamp: int, gameDay: int, hour: int, resources: Resources)

  datatype CropDef = CropDef(id: string, name: string, energyValue: real)

  datatype RouteDef = RouteDef(id: string, name: string, duration: int, goldReward: real, materialRewards: Obj<real>)

  datatype GameValues = GameValues(crops: seq<CropDef>, adventures: seq<RouteDef>)

  datatype TickEvent =
    | AdventureCompleted(route: string)
    | MiningCompleted(depth: int, stone: int)
    | HelperWatered(helper: string, plot: int)
    | HelperHarvested(helper: string, plot: int, crop: string, energy: real)
    | CropReady(plot: int, crop: string)
    | CropsWatered(count: nat)
    | CropsHarvested(count: nat, energy: real)
    | CropsPlanted(count: nat, crop: string)
    | CraftingCompleted(item: Option<string>)

  datatype Major =
    | PhaseTransition(oldPhase: string, newPhase: string, trigger: string)
    | HelperDiscovered(helper: Found)

  datatype TickResult = TickResult(error: Option<string>, phaseChanged: bool, majorEvent: Option<Major>, events: seq<TickEvent>)

  /** The `Math.random()` values a tick may draw, each meant to lie in [0, 1), and the clock. */
  datatype Draws = Draws(stone: real, copperChance: real, copperAmount: real, ironChance: real,
                         helperChance: real, helperType: real, now: int)

  const HistoryLimit: nat := 672

  function Min(a: real, b: real): real
  {
    if a <= b then a else b
  }

  // ================================================================ clock

  predicate InRange(t: Time)
  {
    0 <= t.minute < 60 && 0 <= t.hour < 24
  }

  function MinuteOf(t: Time): int
  {
    t.day * 1440 + t.hour * 60 + t.minute
  }

  /** `advanceTime`: one minute later; minute 60 becomes 0 with the hour carried, hour 24
      becomes 0 with the day carried. */
  function Tick(t: Time): Time
  {
    if t.minute + 1 < 60 then t.(minute := t.minute + 1)
    else if t.hour + 1 < 24 then Time(t.day, t.hour + 1, 0)
    else Time(t.day + 1, 0, 0)
  }

  lemma TickAddsMinute(t: Time)
    requires InRange(t)
    ensures InRange(Tick(t))
    ensures MinuteOf(Tick(t)) == MinuteOf(t) + 1
    ensures Tick(t).day == (if t.hour == 23 && t.minute == 59 then t.day + 1 else t.day)
  {
  }

  // ================================================================ plots

  /** A truthy `plot.crop`. */
  predicate HasCrop(p: Plot)
  {
    p.crop.Some? && p.crop.value != ""
  }

  /** The three filters the engine applies to plots. */
  datatype Want = Ready | Unwatered | Empty

  predicate Matches(p: Plot, w: Want)
  {
    match w
    case Ready => HasCrop(p) && p.growthStage >= 3
    case Unwatered => HasCrop(p) && !p.watered
    case Empty => !HasCrop(p)
  }

  /** `plots.filter(...).length` */
  function Count(plots: seq<Plot>, w: Want): (n: nat)
    ensures n <= |plots|
  {
    if plots == [] then 0
    else Count(plots[..|plots| - 1], w) + (if Matches(plots[|plots| - 1], w) then 1 else 0)
  }

  lemma {:induction false} CountPositive(plots: seq<Plot>, w: Want)
    ensures Count(plots, w) > 0 <==> exists i :: 0 <= i < |plots| && Matches(plots[i], w)
  {
    if plots != [] {
      var init := plots[..|plots| - 1];
      CountPositive(init, w);
      if exists i :: 0 <= i < |init| && Matches(init[i], w) {
        var i :| 0 <= i < |init| && Matches(init[i], w);
        assert plots[i] == init[i];
      }
      if exists i :: 0 <= i < |plots| && Matches(plots[i], w) {
        var i :| 0 <= i < |plots| && Matches(plots[i], w);
        if i < |init| {
          assert init[i] == plots[i];
        }
      }
    }
  }

  /** Replacing one plot changes the count by what the old and new plot contribute. */
  lemma {:induction false} CountUpdate(plots: seq<Plot>, i: nat, q: Plot, w: Want)
    requires i < |plots|
    ensures Count(plots[i := q], w)
            == Count(plots, w) - (if Matches(plots[i], w) then 1 else 0) + (if Matches(q, w) then 1 else 0)
    decreases |plots|
  {
    var n := |plots| - 1;
    var r := plots[i := q];
    assert r[..n] == if i < n then plots[..n][i := q] else plots[..n];
    if i < n {
      CountUpdate(plots[..n], i, q, w);
    }
  }

  /** The index of `plots.filter(...)[0]`, or -1. */
  function FirstMatch(plots: seq<Plot>, w: Want): (i: int)
    ensures -1 <= i < |plots|
    ensures i >= 0 ==> Matches(plots[i], w) && forall j :: 0 <= j < i ==> !Matches(plots[j], w)
    ensures i == -1 ==> forall j :: 0 <= j < |plots| ==> !Matches(plots[j], w)
  {
    if plots == [] then -1
    else if Matches(plots[0], w) then 0
    else
      var j := FirstMatch(plots[1..], w);
      if j < 0 then -1 else j + 1
  }

  function Cleared(p: Plot): Plot
  {
    p.(crop := None, growthStage := 0, watered := false, plantedAt := None)
  }

  /** `gameValues.crops.find(c => c.id === id)` */
  function FindCrop(crops: seq<CropDef>, id: string): (r: Option<CropDef>)
    ensures r.Some? ==> r.value.id == id
    ensures r.Some? ==>
      exists i :: 0 <= i < |crops| && crops[i] == r.value && forall j :: 0 <= j < i ==> crops[j].id != id
    ensures r.None? ==> forall j :: 0 <= j < |crops| ==> crops[j].id != id
  {
    if crops == [] then None
    else if crops[0].id == id then Some(crops[0])
    else
      var r := FindCrop(crops[1..], id);
      assert r.Some? ==> exists i :: 0 <= i < |crops| && crops[i] == r.value && forall j :: 0 <= j < i ==> crops[j].id != id by {
        if r.Some? {
          var i :| 0 <= i < |crops[1..]| && crops[1..][i] == r.value && forall j :: 0 <= j < i ==> crops[1..][j].id != id;
          assert crops[i + 1] == r.value && forall j :: 0 <= j < i + 1 ==> crops[j].id != id by {
            forall j | 0 <= j < i + 1 ensures crops[j].id != id {
              if j > 0 { assert crops[j] == crops[1..][j - 1]; }
            }
          }
        }
      }
      r
  }

  /** Stages stay within 0..3, the tank is never negative and energy never exceeds the cap. */
  datatype Yard = Yard(plots: seq<Plot>, tank: Tank, resources: Resources)

  predicate StagesBounded(plots: seq<Plot>)
  {
    forall i :: 0 <= i < |plots| ==> 0 <= plots[i].growthStage <= 3
  }

  predicate YardOk(y: Yard)
  {
    StagesBounded(y.plots) && y.tank.current >= 0 && y.resources.energy <= y.resources.cap
  }

  // ================================================================ the hero's decision

  /** `makeAIDecision`: harvest, else water (with water in the tank), else plant carrots,
      else the first adventure when energy is below 30% of the cap, else idle. */
  function Decide(plots: seq<Plot>, tank: Tank, r: Resources, gv: GameValues, tick: int): Action
  {
    if Count(plots, Ready) > 0 then Action("harvest_crops", None, None, 2, tick)
    else if Count(plots, Unwatered) > 0 && tank.current > 0 then Action("water_crops", None, None, 1, tick)
    else if Count(plots, Empty) > 0 then Action("plant_crops", Some("carrot"), None, 1, tick)
    else if r.energy < r.cap * 0.3 && |gv.adventures| > 0 then
      var a := gv.adventures[0];
      Action("adventure", Some(a.id), None, if a.duration == 0 then 30 else a.duration, tick)
    else Action("idle", None, None, 10, tick)
  }

  predicate Any(plots: seq<Plot>, w: Want)
  {
    exists i :: 0 <= i < |plots| && Matches(plots[i], w)
  }

  /** The decision is the first applicable choice in priority order, stated over the plots
      themselves rather than over filter counts. */
  lemma DecisionPriority(plots: seq<Plot>, tank: Tank, r: Resources, gv: GameValues, tick: int)
    ensures var a := Decide(plots, tank, r, gv, tick);
      var water := Any(plots, Unwatered) && tank.current > 0;
      var adventure := r.energy < r.cap * 0.3 && |gv.adventures| > 0;
      && a.startedAt == tick
      && (a.kind == "harvest_crops" <==> Any(plots, Ready))
      && (a.kind == "water_crops" <==> !Any(plots, Ready) && water)
      && (a.kind == "plant_crops" <==> !Any(plots, Ready) && !water && Any(plots, Empty))
      && (a.kind == "adventure" <==> !Any(plots, Ready) && !water && !Any(plots, Empty) && adventure)
      && (a.kind == "idle" <==> !Any(plots, Ready) && !water && !Any(plots, Empty) && !adventure)
  {
    CountPositive(plots, Ready);
    CountPositive(plots, Unwatered);
    CountPositive(plots, Empty);
  }

  // ================================================================ watering

  datatype Watering = Watering(plots: seq<Plot>, tank: int)

  /** `completeWatering`: the unwatered planted plots are watered in order while the tank
      holds water, one unit each. */
  function WaterAll(plots: seq<Plot>, tank: int): (w: Watering)
    ensures |w.plots| == |plots|
  {
    if plots == [] then Watering([], tank)
    else
      var w := WaterAll(plots[..|plots| - 1], tank);
      var p := plots[|plots| - 1];
      if Matches(p, Unwatered) && w.tank > 0 then Watering(w.plots + [p.(watered := true)], w.tank - 1)
      else Watering(w.plots + [p], w.tank)
  }

  /** The number of plots that were dry before and are watered after. */
  function NewlyWatered(before: seq<Plot>, after: seq<Plot>): nat
    requires |before| == |after|
  {
    if before == [] then 0
    else
      var n := |before| - 1;
      NewlyWatered(before[..n], after[..n]) + (if !before[n].watered && after[n].watered then 1 else 0)
  }

  /** Watering never drives the tank below zero, spends exactly one unit per plot it waters,
      only waters unwatered planted plots, and leaves none of them dry while water is left. */
  lemma WaterAllSpec(plots: seq<Plot>, tank: int)
    ensures var w := WaterAll(plots, tank);
      && (tank >= 0 ==> w.tank >= 0)
      && w.tank <= tank
      && tank - w.tank == NewlyWatered(plots, w.plots)
      && (forall i :: 0 <= i < |plots| ==>
            w.plots[i] == plots[i] || (Matches(plots[i], Unwatered) && w.plots[i] == plots[i].(watered := true)))
      && (w.tank > 0 ==> forall i :: 0 <= i < |plots| ==> !Matches(w.plots[i], Unwatered))
  {
    WaterAllTank(plots, tank);
    WaterAllPlots(plots, tank);
  }

  /** The tank part of `WaterAllSpec`. */
  lemma {:induction false} WaterAllTank(plots: seq<Plot>, tank: int)
    ensures var w := WaterAll(plots, tank);
      && (tank >= 0 ==> w.tank >= 0)
      && w.tank <= tank
      && tank - w.tank == NewlyWatered(plots, w.plots)
  {
    if plots != [] {
      var n := |plots| - 1;
      var init := plots[..n];
      WaterAllTank(init, tank);
      var w := WaterAll(plots, tank);
      assert w.plots[..n] == WaterAll(init, tank).plots;
    }
  }

  /** The plot part of `WaterAllSpec`. */
  lemma {:induction false} WaterAllPlots(plots: seq<Plot>, tank: int)
    ensures var w := WaterAll(plots, tank);
      && (forall i :: 0 <= i < |plots| ==>
            w.plots[i] == plots[i] || (Matches(plots[i], Unwatered) && w.plots[i] == plots[i].(watered := true)))
      && (w.tank > 0 ==> forall i :: 0 <= i < |plots| ==> !Matches(w.plots[i], Unwatered))
  {
    if plots != [] {
      var n := |plots| - 1;
      var init := plots[..n];
      WaterAllPlots(init, tank);
      var w0 := WaterAll(init, tank);
      var w := WaterAll(plots, tank);
      assert w.plots[..n] == w0.plots;
      assert forall i :: 0 <= i < n ==> plots[i] == init[i] && w.plots[i] == w0.plots[i];
    }
  }

  // ================================================================ harvesting

  predicate Harvestable(p: Plot, crops: seq<CropDef>)
  {
    Matches(p, Ready) && FindCrop(crops, p.crop.value).Some?
  }

  function HarvestedPlot(p: Plot, crops: seq<CropDef>): Plot
  {
    if Harvestable(p, crops) then Cleared(p) else p
  }

  /** `totalEnergy` of `completeHarvesting`. */
  function TotalYield(plots: seq<Plot>, crops: seq<CropDef>): real
  {
    if plots == [] then 0.0
    else
      var p := plots[|plots| - 1];
      TotalYield(plots[..|plots| - 1], crops) + (if Harvestable(p, crops) then FindCrop(crops, p.crop.value).value.energyValue else 0.0)
  }

  /** After harvesting, the only plots still ready are those whose crop is not in the
      catalogue; the others are empty. */
  lemma HarvestLeavesUnknown(p: Plot, crops: seq<CropDef>)
    ensures var q := HarvestedPlot(p, crops);
      && (Matches(q, Ready) ==> FindCrop(crops, q.crop.value).None?)
      && (Harvestable(p, crops) ==> !HasCrop(q) && q.growthStage == 0 && !q.watered && q.plantedAt.None?)
      && q.id == p.id
  {
  }

  // ================================================================ planting and growth

  /** `action.target || 'carrot'` */
  function CropToPlant(target: Option<string>): (c: string)
    ensures c != ""
  {
    if target.Some? && target.value != "" then target.value else "carrot"
  }

  function PlantedPlot(p: Plot, crop: string, tick: int): Plot
  {
    if Matches(p, Empty) then p.(crop := Some(crop), growthStage := 0, watered := false, plantedAt := Some(tick)) else p
  }

  /** `processFarmAutomation` for one plot. */
  function Automated(p: Plot, tick: int): Plot
  {
    if HasCrop(p) && p.watered && tick % 30 == 0 && p.growthStage < 3 then p.(growthStage := p.growthStage + 1) else p
  }

  /** Only planted, watered plots advance, only on ticks divisible by 30, by one stage, and
      never beyond stage 3. */
  lemma AutomatedSpec(p: Plot, tick: int)
    ensures var q := Automated(p, tick);
      && q.(growthStage := p.growthStage) == p
      && (q.growthStage != p.growthStage <==> HasCrop(p) && p.watered && tick % 30 == 0 && p.growthStage < 3)
      && q.growthStage >= p.growthStage
      && (q.growthStage != p.growthStage ==> q.growthStage == p.growthStage + 1 <= 3)
  {
  }

  /** The `crop_ready` events of one automation pass. */
  function ReadyEvents(plots: seq<Plot>, tick: int): seq<TickEvent>
  {
    if plots == [] then []
    else
      var p := plots[|plots| - 1];
      ReadyEvents(plots[..|plots| - 1], tick)
      + (if p.growthStage < 3 && Automated(p, tick).growthStage == 3 then [CropReady(p.id, p.crop.value)] else [])
  }

  // ================================================================ adventures and mining

  function ValueOr(o: Option<real>): real
  {
    if o.Some? then o.value else 0.0
  }

  /** `materials[k] = (materials[k] || 0) + amount` */
  function Bump(m: Obj<real>, k: string, amount: real): Obj<real>
  {
    Put(m, k, ValueOr(Get(m, k)) + amount)
  }

  /** Every material reward added in turn. */
  function AddAll(m: Obj<real>, rewards: Obj<real>): Obj<real>
  {
    if rewards == [] then m
    else
      var last := rewards[|rewards| - 1];
      Bump(AddAll(m, rewards[..|rewards| - 1]), last.0, last.1)
  }

  /** Each rewarded material grows by its reward and every other material is unchanged. */
  lemma {:induction false} AddAllSpec(m: Obj<real>, rewards: Obj<real>, k: string)
    requires DistinctKeys(rewards)
    ensures Get(AddAll(m, rewards), k)
            == if Get(rewards, k).Some? then Some(ValueOr(Get(m, k)) + Get(rewards, k).value) else Get(m, k)
  {
    if rewards != [] {
      var n := |rewards| - 1;
      var init := rewards[..n];
      var last := rewards[n];
      DistinctInit(rewards);
      AddAllSpec(m, init, k);
      GetAppend(init, last.0, last.1, k);
    }
  }

  /** `gameValues.adventures.find(a => a.id === action.target)` */
  function FindRoute(routes: seq<RouteDef>, target: Option<string>): (r: Option<RouteDef>)
    ensures r.Some? ==> target == Some(r.value.id)
    ensures r.Some? ==>
      exists i :: 0 <= i < |routes| && routes[i] == r.value && forall j :: 0 <= j < i ==> routes[j].id != r.value.id
    ensures r.None? && target.Some? ==> forall j :: 0 <= j < |routes| ==> routes[j].id != target.value
  {
    if target.None? || routes == [] then None
    else if routes[0].id == target.value then Some(routes[0])
    else
      var r := FindRoute(routes[1..], target);
      assert r.Some? ==> exists i :: 0 <= i < |routes| && routes[i] == r.value && forall j :: 0 <= j < i ==> routes[j].id != r.value.id by {
        if r.Some? {
          var i :| 0 <= i < |routes[1..]| && routes[1..][i] == r.value && forall j :: 0 <= j < i ==> routes[1..][j].id != r.value.id;
          assert routes[i + 1] == r.value && forall j :: 0 <= j < i + 1 ==> routes[j].id != r.value.id by {
            forall j | 0 <= j < i + 1 ensures routes[j].id != r.value.id {
              if j > 0 { assert routes[j] == routes[1..][j - 1]; }
            }
          }
        }
      }
      r
  }

  /** The resources after `completeAdventure`: the route's gold and materials, or nothing
      for an unknown route. */
  function AdventureDone(r: Resources, gv: GameValues, a: Action): Resources
  {
    var route := FindRoute(gv.adventures, a.target);
    if route.None? then r
    else r.(gold := r.gold + route.value.goldReward, materials := AddAll(r.materials, route.value.materialRewards))
  }

  function AdventureEvents(gv: GameValues, a: Action): seq<TickEvent>
  {
    var route := FindRoute(gv.adventures, a.target);
    if route.None? then [] else [AdventureCompleted(route.value.name)]
  }

  /** `action.depth || 1` */
  function MiningDepth(a: Action): int
  {
    if a.depth.Some? && a.depth.value != 0 then a.depth.value else 1
  }

  /** `Math.floor(Math.random() * 3) + 1` */
  function StonesOf(d: Draws): int
  {
    (d.stone * 3.0).Floor + 1
  }

  const HelperKinds: seq<string> := ["gnome", "golem", "fairy"]

  /** `helperTypes[Math.floor(Math.random() * 3)]`; a draw in [0, 1) never needs the clamp. */
  function KindOf(d: Draws): string
  {
    var k := (d.helperType * 3.0).Floor;
    HelperKinds[if k < 0 then 0 else if k > 2 then 2 else k]
  }

  /** The resources after `completeMining`: stone always, copper below depth 6 never, iron
      below depth 11 never. */
  function MiningDone(r: Resources, a: Action, d: Draws): Resources
  {
    r.(materials := MinedMaterials(r.materials, MiningDepth(a), d))
  }

  /** The materials after the rewards of one mining action at `depth`. */
  function MinedMaterials(m: Obj<real>, depth: int, d: Draws): Obj<real>
  {
    var m1 := Bump(m, "stone", StonesOf(d) as real);
    var m2 := if depth > 5 && d.copperChance < 0.3 then Bump(m1, "copper", ((d.copperAmount * 2.0).Floor + 1) as real) else m1;
    if depth > 10 && d.ironChance < 0.2 then Bump(m2, "iron", 1.0) else m2
  }

  predicate KnownKind(ds: seq<Found>, kind: string)
  {
    exists i :: 0 <= i < |ds| && ds[i].kind == kind
  }

  function NewFound(kind: string, now: int): Found
  {
    Found(kind + "_" + IntToString(now), kind)
  }

  /** A helper type is recorded once. */
  function MiningFinds(ds: seq<Found>, d: Draws): seq<Found>
  {
    if d.helperChance < 0.05 && !KnownKind(ds, KindOf(d)) then ds + [NewFound(KindOf(d), d.now)] else ds
  }

  function MiningMajor(ds: seq<Found>, d: Draws): Option<Major>
  {
    if d.helperChance < 0.05 && !KnownKind(ds, KindOf(d)) then Some(HelperDiscovered(NewFound(KindOf(d), d.now))) else None
  }

  predicate KindsDistinct(ds: seq<Found>)
  {
    forall i, j :: 0 <= i < j < |ds| ==> ds[i].kind != ds[j].kind
  }

  predicate KindsKnown(ds: seq<Found>)
  {
    forall i :: 0 <= i < |ds| ==> ds[i].kind in HelperKinds
  }

  /** Mining never records a helper type twice, and records only the three types. */
  lemma MiningFindsSpec(ds: seq<Found>, d: Draws)
    requires KindsDistinct(ds) && KindsKnown(ds)
    ensures var r := MiningFinds(ds, d);
      && KindsDistinct(r) && KindsKnown(r)
      && (r == ds || r == ds + [NewFound(KindOf(d), d.now)])
      && (MiningMajor(ds, d).Some? <==> r != ds)
  {
    var r := MiningFinds(ds, d);
    if r != ds {
      assert r[|ds|].kind == KindOf(d);
    }
  }

  function KindSet(ds: seq<Found>): set<string>
  {
    set i | 0 <= i < |ds| :: ds[i].kind
  }

  lemma {:induction false} KindSetSize(ds: seq<Found>)
    requires KindsDistinct(ds)
    ensures |KindSet(ds)| == |ds|
  {
    if ds != [] {
      var n := |ds| - 1;
      var init := ds[..n];
      assert KindsDistinct(init);
      KindSetSize(init);
      assert KindSet(ds) == KindSet(init) + {ds[n].kind} by {
        forall x | x in KindSet(ds) ensures x in KindSet(init) + {ds[n].kind} {
          var i :| 0 <= i < |ds| && ds[i].kind == x;
          if i < n { assert init[i] == ds[i]; }
        }
        forall x | x in KindSet(init) ensures x in KindSet(ds) {
          var i :| 0 <= i < n && init[i].kind == x;
          assert ds[i] == init[i];
        }
      }
      forall i | 0 <= i < n ensures init[i].kind != ds[n].kind {
        assert init[i] == ds[i];
      }
    }
  }

  /** At most three helpers can ever be discovered by mining. */
  lemma AtMostThreeFound(ds: seq<Found>)
    requires KindsDistinct(ds) && KindsKnown(ds)
    ensures |ds| <= 3
  {
    KindSetSize(ds);
    var kinds := {"gnome", "golem", "fairy"};
    var found := KindSet(ds);
    assert found <= kinds;
    assert kinds == found + (kinds - found);
    assert found * (kinds - found) == {};
    assert |kinds| == 3;
  }

  // ================================================================ helpers

  datatype Step = Step(yard: Yard, events: seq<TickEvent>)

  datatype Outcome = Outcome(yard: Yard, events: seq<TickEvent>, error: Option<string>)

  /** The message of the ReferenceError `processHelpers` raises for a working fairy. */
  const FairyMissing: string := "processFairyPlanting is not defined"

  /** `processGnomeWatering`: the first unwatered planted plot is watered when the tank holds
      water. */
  function GnomeStep(y: Yard, h: Helper): Step
  {
    var i := FirstMatch(y.plots, Unwatered);
    if i >= 0 && y.tank.current > 0 then
      Step(y.(plots := y.plots[i := y.plots[i].(watered := true)], tank := y.tank.(current := y.tank.current - 1)),
           [HelperWatered(h.id, y.plots[i].id)])
    else Step(y, [])
  }

  /** `processGolemHarvesting`, with the crop catalogue passed in: the first ready plot is
      harvested when its crop is known, adding its energy up to the cap. */
  function GolemStep(y: Yard, h: Helper, crops: seq<CropDef>): Step
  {
    var i := FirstMatch(y.plots, Ready);
    if i >= 0 && FindCrop(crops, y.plots[i].crop.value).Some? then
      var c := FindCrop(crops, y.plots[i].crop.value).value;
      Step(y.(plots := y.plots[i := Cleared(y.plots[i])],
              resources := y.resources.(energy := Min(y.resources.cap, y.resources.energy + c.energyValue))),
           [HelperHarvested(h.id, y.plots[i].id, c.name, c.energyValue)])
    else Step(y, [])
  }

  /** The names bound in the scope of `processGolemHarvesting`: the module's functions, its
      parameters and its locals. */
  const GolemScope: seq<string> := [
    "initializeGameState", "simulateGameTick", "advanceTime", "processCurrentAction", "completeAction",
    "completeAdventure", "completeMining", "processHelpers", "processGnomeWatering", "processGolemHarvesting",
    "processFarmAutomation", "checkPhaseTransition", "makeAIDecision", "completeWatering",
    "completeHarvesting", "completePlanting", "completeCrafting", "gameState", "helper", "result",
    "readyPlots", "plotToHarvest", "crop"]

  datatype Call = Threw(message: string) | Returned(step: Step)

  /** `processGolemHarvesting` as written: with a ready plot it looks the crop up in
      `gameValues`, a name its scope does not bind. */
  function GolemStepAsWritten(y: Yard, h: Helper, crops: seq<CropDef>): Call
  {
    var i := FirstMatch(y.plots, Ready);
    if i < 0 then Returned(Step(y, []))
    else if "gameValues" in GolemScope then Returned(GolemStep(y, h, crops))
    else Threw("gameValues is not defined")
  }

  /** As written, a working golem with any ready plot throws, so the tick fails. */
  lemma GolemWithReadyPlotThrows(y: Yard, h: Helper, crops: seq<CropDef>)
    requires Any(y.plots, Ready)
    ensures GolemStepAsWritten(y, h, crops) == Threw("gameValues is not defined")
  {
    assert "gameValues" !in GolemScope;
  }

  /** The corrected golem empties the first ready plot with a known crop, only that plot,
      one fewer plot is ready, and energy stays within the cap. */
  lemma GolemHarvests(y: Yard, h: Helper, crops: seq<CropDef>)
    requires YardOk(y)
    ensures var s := GolemStep(y, h, crops);
      var i := FirstMatch(y.plots, Ready);
      && YardOk(s.yard)
      && s.yard.tank == y.tank
      && |s.yard.plots| == |y.plots|
      && (i >= 0 && FindCrop(crops, y.plots[i].crop.value).Some? ==>
            && !HasCrop(s.yard.plots[i])
            && (forall j :: 0 <= j < |y.plots| && j != i ==> s.yard.plots[j] == y.plots[j])
            && Count(s.yard.plots, Ready) == Count(y.plots, Ready) - 1
            && s.yard.resources.energy == Min(y.resources.cap, y.resources.energy + FindCrop(crops, y.plots[i].crop.value).value.energyValue))
      && (i < 0 || FindCrop(crops, y.plots[i].crop.value).None? ==> s.yard == y)
  {
    var i := FirstMatch(y.plots, Ready);
    if i >= 0 {
      CountUpdate(y.plots, i, Cleared(y.plots[i]), Ready);
    }
  }

  /** The gnome waters the first dry planted plot, spending one unit of water. */
  lemma GnomeWaters(y: Yard, h: Helper)
    requires YardOk(y)
    ensures var s := GnomeStep(y, h);
      var i := FirstMatch(y.plots, Unwatered);
      && YardOk(s.yard)
      && s.yard.resources == y.resources
      && (i >= 0 && y.tank.current > 0 ==>
            && s.yard.tank.current == y.tank.current - 1
            && Count(s.yard.plots, Unwatered) == Count(y.plots, Unwatered) - 1)
      && (i < 0 || y.tank.current <= 0 ==> s.yard == y)
  {
    var i := FirstMatch(y.plots, Unwatered);
    if i >= 0 {
      CountUpdate(y.plots, i, y.plots[i].(watered := true), Unwatered);
    }
  }

  /** One helper of `processHelpers`; a working fairy raises a ReferenceError, because the
      module defines no `processFairyPlanting`. */
  function HelperStep(y: Yard, h: Helper, crops: seq<CropDef>): Outcome
  {
    if !h.isWorking then Outcome(y, [], None)
    else if h.kind == "gnome" then var s := GnomeStep(y, h); Outcome(s.yard, s.events, None)
    else if h.kind == "golem" then var s := GolemStep(y, h, crops); Outcome(s.yard, s.events, None)
    else if h.kind == "fairy" then Outcome(y, [], Some(FairyMissing))
    else Outcome(y, [], None)
  }

  /** One helper fails exactly when it is a working fairy, and keeps a well-formed yard well formed. */
  lemma HelperStepSpec(y: Yard, h: Helper, crops: seq<CropDef>)
    ensures var o := HelperStep(y, h, crops);
      && (o.error.Some? <==> h.isWorking && h.kind == "fairy")
      && (o.error.Some? ==> o.error == Some(FairyMissing))
      && (YardOk(y) ==> YardOk(o.yard))
  {
    if YardOk(y) {
      GolemHarvests(y, h, crops);
      GnomeWaters(y, h);
    }
  }

  /** `processHelpers`: the helpers in order, stopping at the first error. */
  function HelpersRun(y: Yard, hs: seq<Helper>, crops: seq<CropDef>): Outcome
  {
    if hs == [] then Outcome(y, [], None)
    else
      var o := HelpersRun(y, hs[..|hs| - 1], crops);
      if o.error.Some? then o
      else
        var s := HelperStep(o.yard, hs[|hs| - 1], crops);
        Outcome(s.yard, o.events + s.events, s.error)
  }

  predicate FairyWorking(hs: seq<Helper>)
  {
    exists i :: 0 <= i < |hs| && hs[i].isWorking && hs[i].kind == "fairy"
  }

  /** The helpers fail exactly when one of them is a working fairy, and otherwise keep the
      stages, the tank and the energy cap intact. */
  lemma {:induction false} HelpersRunSpec(y: Yard, hs: seq<Helper>, crops: seq<CropDef>)
    ensures var o := HelpersRun(y, hs, crops);
      && (o.error.Some? <==> FairyWorking(hs))
      && (o.error.Some? ==> o.error == Some(FairyMissing))
      && (YardOk(y) ==> YardOk(o.yard))
  {
    if hs != [] {
      var n := |hs| - 1;
      var init := hs[..n];
      HelpersRunSpec(y, init, crops);
      var o := HelpersRun(y, init, crops);
      HelperStepSpec(o.yard, hs[n], crops);
      if FairyWorking(init) {
        var i :| 0 <= i < n && init[i].isWorking && init[i].kind == "fairy";
        assert hs[i] == init[i];
      }
      if FairyWorking(hs) && !(hs[n].isWorking && hs[n].kind == "fairy") {
        var i :| 0 <= i < |hs| && hs[i].isWorking && hs[i].kind == "fairy";
        assert init[i] == hs[i];
      }
    }
  }

  /** Once a helper has failed, the later helpers do not run. */
  lemma {:induction false} HelpersRunStops(y: Yard, hs: seq<Helper>, k: nat, crops: seq<CropDef>)
    requires k <= |hs| && HelpersRun(y, hs[..k], crops).error.Some?
    ensures HelpersRun(y, hs, crops) == HelpersRun(y, hs[..k], crops)
    decreases |hs|
  {
    if k < |hs| {
      var n := |hs| - 1;
      assert hs[..n][..k] == hs[..k];
      HelpersRunStops(y, hs[..n], k, crops);
    } else {
      assert hs[..k] == hs;
    }
  }

  // ================================================================ phases and history

  function PhaseRank(p: string): int
  {
    if p == "tutorial" then 0
    else if p == "early" then 1
    else if p == "mid" then 2
    else if p == "late" then 3
    else if p == "endgame" then 4
    else -1
  }

  /** `checkPhaseTransition`: tutorial ends with the first upgrade, early with the first
      helper, mid with three helpers, late on day 21 with ten upgrades; endgame is final. */
  function PhaseTransitionOf(phase: string, owned: nat, helpers: nat, day: int): (r: Option<Major>)
    ensures r.Some? ==> r.value.PhaseTransition? && r.value.oldPhase == phase
                        && PhaseRank(r.value.newPhase) == PhaseRank(phase) + 1
    ensures phase == "tutorial" ==> (r.Some? <==> owned > 0)
    ensures phase == "early" ==> (r.Some? <==> helpers > 0)
    ensures phase == "mid" ==> (r.Some? <==> helpers >= 3)
    ensures phase == "late" ==> (r.Some? <==> day >= 21 && owned >= 10)
    ensures PhaseRank(phase) == 4 || PhaseRank(phase) == -1 ==> r.None?
  {
    if phase == "tutorial" && owned > 0 then Some(PhaseTransition("tutorial", "early", "first_upgrade_purchased"))
    else if phase == "early" && helpers > 0 then Some(PhaseTransition("early", "mid", "first_helper_awakened"))
    else if phase == "mid" && helpers >= 3 then Some(PhaseTransition("mid", "late", "multiple_helpers_active"))
    else if phase == "late" && day >= 21 && owned >= 10 then Some(PhaseTransition("late", "endgame", "advanced_progression"))
    else None
  }

  /** The phase history after a transition: the open entry is closed and a new one opened. */
  function PhaseHistoryAfter(h: seq<PhaseEntry>, phase: string, day: int): seq<PhaseEntry>
  {
    (if h == [] then [] else h[..|h| - 1] + [h[|h| - 1].(duration := Some(day - h[|h| - 1].startDay))])
    + [PhaseEntry(phase, day, None)]
  }

  /** Exactly one entry is appended, the previous last one gets `duration = day - startDay`,
      and all earlier entries are unchanged. */
  lemma PhaseHistorySpec(h: seq<PhaseEntry>, phase: string, day: int)
    ensures var r := PhaseHistoryAfter(h, phase, day);
      && |r| == |h| + 1
      && r[|h|] == PhaseEntry(phase, day, None)
      && (h != [] ==> r[|h| - 1] == h[|h| - 1].(duration := Some(day - h[|h| - 1].startDay)))
      && (forall i :: 0 <= i < |h| - 1 ==> r[i] == h[i])
  {
  }

  lemma PhaseHistoryEnds(h: seq<PhaseEntry>, phase: string, day: int)
    ensures |PhaseHistoryAfter(h, phase, day)| >= 1
    ensures PhaseHistoryAfter(h, phase, day)[|PhaseHistoryAfter(h, phase, day)| - 1].phase == phase
  {
  }

  lemma RecordedBounded(h: seq<Snapshot>, s: Snapshot)
    ensures |Recorded(h, s)| <= HistoryLimit
  {
  }

  /** `resourceHistory` after recording one snapshot: at most the last 672. */
  function Recorded(h: seq<Snapshot>, s: Snapshot): seq<Snapshot>
  {
    var all := h + [s];
    if |all| > HistoryLimit then all[|all| - HistoryLimit..] else all
  }

  /** The history never exceeds 672 entries, ends with the new snapshot, and keeps the most
      recent earlier entries. */
  lemma RecordedSpec(h: seq<Snapshot>, s: Snapshot)
    ensures var r := Recorded(h, s);
      && |r| == (if |h| + 1 > HistoryLimit then HistoryLimit else |h| + 1)
      && r[|r| - 1] == s
      && r == (h + [s])[|h| + 1 - |r|..]
  {
  }

  function LocationFor(a: Action, here: string): string
  {
    if a.kind == "adventure" then "adventure" else here
  }

  // ================================================================ the game state

  /** What completing action `a` does to the yard `y0` and the discovered helpers `f0` at tick
      `tick`, giving `y1`, `f1`, the events and the major event. */
  predicate ActionDone(gv: GameValues, a: Action, d: Draws, y0: Yard, f0: seq<Found>, tick: int,
                       y1: Yard, f1: seq<Found>, events: seq<TickEvent>, major: Option<Major>)
  {
    && (a.kind == "mining" ==> major == MiningMajor(f0, d))
    && (a.kind != "mining" ==> major.None?)
    && (a.kind != "mining" ==> f1 == f0)
    && (a.kind != "water_crops" ==> y1.tank == y0.tank)
    && (a.kind == "adventure" ==>
          y1.resources == AdventureDone(y0.resources, gv, a) && y1.plots == y0.plots && events == AdventureEvents(gv, a))
    && (a.kind == "mining" ==>
          && y1.resources == MiningDone(y0.resources, a, d) && y1.plots == y0.plots
          && f1 == MiningFinds(f0, d)
          && events == [MiningCompleted(MiningDepth(a), StonesOf(d))])
    && (a.kind == "water_crops" ==>
          && Watering(y1.plots, y1.tank.current) == WaterAll(y0.plots, y0.tank.current)
          && y1.tank == y0.tank.(current := y1.tank.current) && y1.resources == y0.resources
          && events == [CropsWatered(Count(y0.plots, Unwatered))])
    && (a.kind == "harvest_crops" ==>
          && |y1.plots| == |y0.plots|
          && (forall i :: 0 <= i < |y1.plots| ==> y1.plots[i] == HarvestedPlot(y0.plots[i], gv.crops))
          && y1.resources == y0.resources.(energy := Min(y0.resources.cap, y0.resources.energy + TotalYield(y0.plots, gv.crops)))
          && events == [CropsHarvested(Count(y0.plots, Ready), TotalYield(y0.plots, gv.crops))])
    && (a.kind == "plant_crops" ==>
          && |y1.plots| == |y0.plots|
          && (forall i :: 0 <= i < |y1.plots| ==> y1.plots[i] == PlantedPlot(y0.plots[i], CropToPlant(a.target), tick))
          && y1.resources == y0.resources
          && events == [CropsPlanted(Count(y0.plots, Empty), CropToPlant(a.target))])
    && (a.kind == "crafting" ==> y1.plots == y0.plots && y1.resources == y0.resources && events == [CraftingCompleted(a.target)])
    && (a.kind !in ["adventure", "mining", "water_crops", "harvest_crops", "plant_crops", "crafting"] ==>
          y1.plots == y0.plots && y1.resources == y0.resources && events == [])
  }

  /** What `processCurrentAction` does: with no action nothing happens; otherwise the action
      loses a minute, and when none is left it completes as `ActionDone` says, is cleared, and
      the hero returns home unless it was idling. */
  predicate ProgressDone(gv: GameValues, d: Draws, a0: Option<Action>, loc0: string, y0: Yard, f0: seq<Found>, tick: int,
                         a1: Option<Action>, loc1: string, y1: Yard, f1: seq<Found>, events: seq<TickEvent>, major: Option<Major>)
  {
    && (a0.None? ==> a1 == a0 && loc1 == loc0 && y1 == y0 && f1 == f0 && events == [] && major.None?)
    && (a0.Some? && a0.value.timeRemaining - 1 > 0 ==>
          && a1 == Some(a0.value.(timeRemaining := a0.value.timeRemaining - 1))
          && loc1 == loc0 && y1 == y0 && f1 == f0 && events == [] && major.None?)
    && (a0.Some? && a0.value.timeRemaining - 1 <= 0 ==>
          && a1.None? && loc1 == (if a0.value.kind != "idle" then "home" else loc0)
          && ActionDone(gv, a0.value.(timeRemaining := a0.value.timeRemaining - 1), d, y0, f0, tick, y1, f1, events, major))
  }

  /** The state `simulateGameTick` changes after the clock has moved. */
  datatype TickView = TickView(plots: seq<Plot>, tank: Tank, resources: Resources, currentAction: Option<Action>,
                               location: string, currentPhase: string, phaseHistory: seq<PhaseEntry>,
                               resourceHistory: seq<Snapshot>, currentTick: int)

  /** The end of a tick, from `v0` (after the helpers) to `v1`, with `events0` and `major0`
      so far: the plots are automated, the phase check runs, a free hero gets `Decide`'s
      action, the hourly snapshot is taken and the tick counted. */
  predicate FinishDone(gv: GameValues, d: Draws, helperCount: nat, owned: nat, day: int, hour: int,
                       v0: TickView, v1: TickView, events0: seq<TickEvent>, major0: Option<Major>, r: TickResult)
  {
    var change := PhaseTransitionOf(v0.currentPhase, owned, helperCount, day);
    && r.error.None? && v1.currentTick == v0.currentTick + 1 && v1.currentAction.Some?
    && v1.tank == v0.tank && v1.resources == v0.resources && |v1.plots| == |v0.plots|
    && (forall i :: 0 <= i < |v1.plots| ==> v1.plots[i] == Automated(v0.plots[i], v0.currentTick))
    && r.events == events0 + ReadyEvents(v0.plots, v0.currentTick)
    && (r.phaseChanged <==> change.Some?)
    && r.majorEvent == (if change.Some? then change else major0)
    && (change.Some? ==>
          v1.currentPhase == change.value.newPhase
          && v1.phaseHistory == PhaseHistoryAfter(v0.phaseHistory, v1.currentPhase, day))
    && (change.None? ==> v1.currentPhase == v0.currentPhase && v1.phaseHistory == v0.phaseHistory)
    && (v0.currentAction.Some? ==> v1.currentAction == v0.currentAction && v1.location == v0.location)
    && (v0.currentAction.None? ==>
          v1.currentAction == Some(Decide(v1.plots, v1.tank, v1.resources, gv, v0.currentTick))
          && v1.location == LocationFor(v1.currentAction.value, v0.location))
    && v1.resourceHistory == if v0.currentTick % 60 == 0
         then Recorded(v0.resourceHistory, Snapshot(d.now, day, hour, v1.resources)) else v0.resourceHistory
  }

  /** The rest of a tick, from `v0` to `v1`, with `events0` and `major0` from the current
      action: the helpers run on the yard of `v0` (`HelpersRun`).  A working fairy makes the
      tick fail with the ReferenceError's message; the yard then keeps what the helpers
      before it did and nothing else changes.  Otherwise the tick ends as `FinishDone` says. */
  predicate RestDone(gv: GameValues, d: Draws, helpers: seq<Helper>, owned: nat, day: int, hour: int,
                     v0: TickView, v1: TickView, events0: seq<TickEvent>, major0: Option<Major>, r: TickResult)
  {
    var o := HelpersRun(Yard(v0.plots, v0.tank, v0.resources), helpers, gv.crops);
    var v := v0.(plots := o.yard.plots, tank := o.yard.tank, resources := o.yard.resources);
    && (r.error.Some? <==> FairyWorking(helpers))
    && (r.error.Some? ==> r == TickResult(Some(FairyMissing), false, None, []) && v1 == v)
    && (r.error.None? ==> FinishDone(gv, d, |helpers|, owned, day, hour, v, v1, events0 + o.events, major0, r))
  }

  class GameState {
    var time: Time
    var day: int
    var resources: Resources
    var plots: seq<Plot>
    var tank: Tank
    var location: string
    var currentAction: Option<Action>
    var helpers: seq<Helper>
    var owned: seq<string>
    var currentPhase: string
    var resourceHistory: seq<Snapshot>
    var phaseHistory: seq<PhaseEntry>
    var discoveredHelpers: seq<Found>
    var currentTick: int

    /** What every handler keeps: the clock in range with `day` mirroring it, the yard
        invariants, the bounded history, the open phase entry matching the phase, and
        distinct discovered helper types. */
    predicate Valid()
      reads this
    {
      ClockValid() && YardValid() && HistoryValid() && FoundValid()
    }

    predicate ClockValid()
      reads this
    {
      InRange(time) && day == time.day
    }

    predicate HistoryValid()
      reads this
    {
      && |resourceHistory| <= HistoryLimit
      && |phaseHistory| >= 1 && phaseHistory[|phaseHistory| - 1].phase == currentPhase
      && currentTick >= 0
    }

    predicate FoundValid()
      reads this
    {
      KindsDistinct(discoveredHelpers) && KindsKnown(discoveredHelpers)
    }

    /** `initializeGameState` */
    constructor ()
      ensures Valid()
      ensures time == Time(1, 8, 0) && day == 1
      ensures resources == Resources(0.0, 50.0, 0.0, [("stone", 0.0), ("copper", 0.0), ("iron", 0.0),
                ("silver", 0.0), ("crystal", 0.0), ("mythril", 0.0), ("obsidian", 0.0)])
      ensures plots == [Plot(1, None, 0, false, None), Plot(2, None, 0, false, None), Plot(3, None, 0, false, None)]
      ensures tank == Tank(20, 20) && location == "home" && currentAction.None?
      ensures helpers == [] && owned == [] && currentPhase == "tutorial"
      ensures resourceHistory == [] && phaseHistory == [PhaseEntry("tutorial", 1, None)]
      ensures discoveredHelpers == [] && currentTick == 0
    {
      time := Time(1, 8, 0);
      day := 1;
      resources := Resources(0.0, 50.0, 0.0, [("stone", 0.0), ("copper", 0.0), ("iron", 0.0),
        ("silver", 0.0), ("crystal", 0.0), ("mythril", 0.0), ("obsidian", 0.0)]);
      plots := [Plot(1, None, 0, false, None), Plot(2, None, 0, false, None), Plot(3, None, 0, false, None)];
      tank := Tank(20, 20);
      location := "home";
      currentAction := None;
      helpers := [];
      owned := [];
      currentPhase := "tutorial";
      resourceHistory := [];
      phaseHistory := [PhaseEntry("tutorial", 1, None)];
      discoveredHelpers := [];
      currentTick := 0;
    }

    predicate YardValid()
      reads this
    {
      YardOk(Yard(plots, tank, resources))
    }

    /** `advanceTime`: one minute later, with `day` updated on a new day. */
    method AdvanceTime()
      modifies this`time, this`day
      ensures time == Tick(old(time))
      ensures day == (if time.day != old(time.day) then time.day else old(day))
      ensures old(ClockValid()) ==> ClockValid()
    {
      if InRange(time) {
        TickAddsMinute(time);
      }
      time := time.(minute := time.minute + 1);
      if time.minute >= 60 {
        time := time.(minute := 0, hour := time.hour + 1);
        if time.hour >= 24 {
          time := time.(hour := 0, day := time.day + 1);
          day := time.day;
        }
      }
    }

    /** `completeWatering` */
    method CompleteWatering() returns (e: TickEvent)
      modifies this`plots, this`tank
      ensures Watering(plots, tank.current) == WaterAll(old(plots), old(tank.current))
      ensures tank == old(tank).(current := tank.current)
      ensures e == CropsWatered(Count(old(plots), Unwatered))
    {
      var before := plots;
      var count := 0;
      var i := 0;
      while i < |before|
        invariant 0 <= i <= |before| && |plots| == |before|
        invariant Watering(plots[..i], tank.current) == WaterAll(before[..i], old(tank.current))
        invariant plots[i..] == before[i..]
        invariant tank == old(tank).(current := tank.current)
        invariant count == Count(before[..i], Unwatered)
      {
        assert before[..i + 1][..i] == before[..i];
        assert plots[i] == before[i];
        var p := plots[i];
        if Matches(p, Unwatered) {
          count := count + 1;
          if tank.current > 0 {
            plots := plots[i := p.(watered := true)];
            tank := tank.(current := tank.current - 1);
          }
        }
        assert plots[..i + 1] == plots[..i] + [plots[i]];
        i := i + 1;
      }
      assert before[..i] == before;
      assert plots[..i] == plots;
      e := CropsWatered(count);
    }

    /** `completeHarvesting`: every ready plot with a known crop is emptied, and energy
        becomes `min(cap, current + total)`. */
    method CompleteHarvesting(gv: GameValues) returns (e: TickEvent)
      modifies this`plots, this`resources
      ensures |plots| == |old(plots)|
      ensures forall i :: 0 <= i < |plots| ==> plots[i] == HarvestedPlot(old(plots)[i], gv.crops)
      ensures resources == old(resources).(energy := Min(old(resources.cap), old(resources.energy) + TotalYield(old(plots), gv.crops)))
      ensures resources.energy <= resources.cap
      ensures e == CropsHarvested(Count(old(plots), Ready), TotalYield(old(plots), gv.crops))
    {
      var before := plots;
      var total := 0.0;
      var count := 0;
      var i := 0;
      while i < |before|
        invariant 0 <= i <= |before| && |plots| == |before|
        invariant forall j :: 0 <= j < i ==> plots[j] == HarvestedPlot(before[j], gv.crops)
        invariant forall j :: i <= j < |before| ==> plots[j] == before[j]
        invariant total == TotalYield(before[..i], gv.crops)
        invariant count == Count(before[..i], Ready)
        invariant resources == old(resources)
      {
        assert before[..i + 1][..i] == before[..i];
        var p := plots[i];
        if Matches(p, Ready) {
          count := count + 1;
          var crop := FindCrop(gv.crops, p.crop.value);
          if crop.Some? {
            total := total + crop.value.energyValue;
            plots := plots[i := Cleared(p)];
          }
        }
        i := i + 1;
      }
      assert before[..i] == before;
      resources := resources.(energy := Min(resources.cap, resources.energy + total));
      e := CropsHarvested(count, total);
    }

    /** `completePlanting`: every empty plot is planted with the target crop (carrots by
        default) at the current tick. */
    method CompletePlanting(a: Action) returns (e: TickEvent)
      modifies this`plots
      ensures |plots| == |old(plots)|
      ensures forall i :: 0 <= i < |plots| ==> plots[i] == PlantedPlot(old(plots)[i], CropToPlant(a.target), currentTick)
      ensures forall i :: 0 <= i < |plots| ==> HasCrop(plots[i])
      ensures e == CropsPlanted(Count(old(plots), Empty), CropToPlant(a.target))
    {
      var crop := CropToPlant(a.target);
      var before := plots;
      var count := 0;
      var i := 0;
      while i < |before|
        invariant 0 <= i <= |before| && |plots| == |before|
        invariant forall j :: 0 <= j < i ==> plots[j] == PlantedPlot(before[j], crop, currentTick)
        invariant forall j :: i <= j < |before| ==> plots[j] == before[j]
        invariant count == Count(before[..i], Empty)
      {
        assert before[..i + 1][..i] == before[..i];
        var p := plots[i];
        if Matches(p, Empty) {
          count := count + 1;
          plots := plots[i := p.(crop := Some(crop), growthStage := 0, watered := false, plantedAt := Some(currentTick))];
        }
        i := i + 1;
      }
      assert before[..i] == before;
      e := CropsPlanted(count, crop);
    }

    /** The material rewards of a route, added in order. */
    method AddMaterials(rewards: Obj<real>)
      modifies this`resources
      ensures resources == old(resources).(materials := AddAll(old(resources.materials), rewards))
    {
      var i := 0;
      while i < |rewards|
        invariant 0 <= i <= |rewards|
        invariant resources == old(resources).(materials := AddAll(old(resources.materials), rewards[..i]))
      {
        assert rewards[..i + 1][..i] == rewards[..i];
        var (material, amount) := rewards[i];
        resources := resources.(materials := Put(resources.materials, material, ValueOr(Get(resources.materials, material)) + amount));
        i := i + 1;
      }
      assert rewards[..i] == rewards;
    }

    /** `completeAdventure` */
    method CompleteAdventure(gv: GameValues, a: Action) returns (events: seq<TickEvent>)
      modifies this`resources
      ensures resources == AdventureDone(old(resources), gv, a)
      ensures events == AdventureEvents(gv, a)
    {
      var route := FindRoute(gv.adventures, a.target);
      if route.None? {
        return [];
      }
      resources := resources.(gold := resources.gold + route.value.goldReward);
      AddMaterials(route.value.materialRewards);
      events := [AdventureCompleted(route.value.name)];
    }

    /** `completeMining` */
    method CompleteMining(a: Action, d: Draws) returns (events: seq<TickEvent>, major: Option<Major>)
      modifies this`resources, this`discoveredHelpers
      ensures resources == MiningDone(old(resources), a, d)
      ensures discoveredHelpers == MiningFinds(old(discoveredHelpers), d)
      ensures major == MiningMajor(old(discoveredHelpers), d)
      ensures events == [MiningCompleted(MiningDepth(a), StonesOf(d))]
    {
      var depth := if a.depth.Some? && a.depth.value != 0 then a.depth.value else 1;
      var baseStone := (d.stone * 3.0).Floor + 1;
      MineMaterials(depth, baseStone, d);
      major := DiscoverHelper(d);
      events := [MiningCompleted(depth, baseStone)];
    }

    /** The material rewards of `completeMining`: stone, then copper and iron at depth. */
    method MineMaterials(depth: int, baseStone: int, d: Draws)
      requires baseStone == StonesOf(d)
      modifies this`resources
      ensures resources == old(resources).(materials := MinedMaterials(old(resources.materials), depth, d))
    {
      var m := Bump(resources.materials, "stone", baseStone as real);
      if depth > 5 && d.copperChance < 0.3 {
        m := Bump(m, "copper", ((d.copperAmount * 2.0).Floor + 1) as real);
      }
      if depth > 10 && d.ironChance < 0.2 {
        m := Bump(m, "iron", 1.0);
      }
      resources := resources.(materials := m);
    }

    /** The helper discovery roll of `completeMining`: a type not yet found is recorded. */
    method DiscoverHelper(d: Draws) returns (major: Option<Major>)
      modifies this`discoveredHelpers
      ensures discoveredHelpers == MiningFinds(old(discoveredHelpers), d)
      ensures major == MiningMajor(old(discoveredHelpers), d)
    {
      major := None;
      if d.helperChance < 0.05 {
        var kind := KindOf(d);
        if !KnownKind(discoveredHelpers, kind) {
          var found := NewFound(kind, d.now);
          discoveredHelpers := discoveredHelpers + [found];
          major := Some(HelperDiscovered(found));
        }
      }
    }

    /** What `completeAction` did for an action of each type. */
    twostate predicate Completes(gv: GameValues, a: Action, d: Draws, new events: seq<TickEvent>, new major: Option<Major>)
      reads this
    {
      ActionDone(gv, a, d, Yard(old(plots), old(tank), old(resources)), old(discoveredHelpers), currentTick,
                 Yard(plots, tank, resources), discoveredHelpers, events, major)
    }

    /** `completeAction`: dispatch on the action's type. */
    method CompleteAction(gv: GameValues, a: Action, d: Draws) returns (events: seq<TickEvent>, major: Option<Major>)
      modifies this`resources, this`discoveredHelpers, this`plots, this`tank
      ensures Completes(gv, a, d, events, major)
      ensures old(YardValid()) ==> YardValid()
      ensures old(FoundValid()) ==> FoundValid()
    {
      major := None;
      events := [];
      if a.kind == "adventure" {
        events := CompleteAdventure(gv, a);
      } else if a.kind == "mining" {
        if FoundValid() {
          MiningFindsSpec(discoveredHelpers, d);
        }
        events, major := CompleteMining(a, d);
      } else if a.kind == "crafting" {
        events := [CraftingCompleted(a.target)];
      } else if a.kind in ["water_crops", "harvest_crops", "plant_crops"] {
        events := CompleteFarmAction(gv, a, d);
      }
    }

    /** The farm actions of `completeAction`: watering, harvesting and planting. */
    method CompleteFarmAction(gv: GameValues, a: Action, d: Draws) returns (events: seq<TickEvent>)
      requires a.kind in ["water_crops", "harvest_crops", "plant_crops"]
      modifies this`resources, this`plots, this`tank
      ensures Completes(gv, a, d, events, None)
      ensures old(YardValid()) ==> YardValid()
    {
      if a.kind == "water_crops" {
        WaterAllSpec(plots, tank.current);
        var e := CompleteWatering();
        events := [e];
      } else if a.kind == "harvest_crops" {
        var e := CompleteHarvesting(gv);
        events := [e];
      } else {
        var e := CompletePlanting(a);
        events := [e];
      }
    }

    /** `action.timeRemaining--` */
    static function Decremented(a: Action): Action
    {
      a.(timeRemaining := a.timeRemaining - 1)
    }

    /** `processCurrentAction`: the action loses a minute; when none is left it completes,
        is cleared, and the hero returns home unless it was idling. */
    method ProcessCurrentAction(gv: GameValues, d: Draws) returns (events: seq<TickEvent>, major: Option<Major>)
      modifies this`currentAction, this`location, this`resources, this`discoveredHelpers, this`plots, this`tank
      ensures old(currentAction).None? ==>
        && currentAction == old(currentAction) && location == old(location) && resources == old(resources)
        && discoveredHelpers == old(discoveredHelpers) && plots == old(plots) && tank == old(tank)
        && events == [] && major.None?
      ensures old(currentAction).Some? && Decremented(old(currentAction).value).timeRemaining > 0 ==>
        && currentAction == Some(Decremented(old(currentAction).value)) && location == old(location)
        && resources == old(resources) && discoveredHelpers == old(discoveredHelpers)
        && plots == old(plots) && tank == old(tank) && events == [] && major.None?
      ensures old(currentAction).Some? && Decremented(old(currentAction).value).timeRemaining <= 0 ==>
        && currentAction.None?
        && location == (if old(currentAction).value.kind != "idle" then "home" else old(location))
        && Completes(gv, Decremented(old(currentAction).value), d, events, major)
      ensures old(YardValid()) ==> YardValid()
      ensures old(FoundValid()) ==> FoundValid()
    {
      events, major := [], None;
      if currentAction.None? {
        return;
      }
      var a := Decremented(currentAction.value);
      currentAction := Some(a);
      if a.timeRemaining <= 0 {
        events, major := CompleteAction(gv, a, d);
        currentAction := None;
        if a.kind != "idle" {
          location := "home";
        }
      }
    }

    /** `processGnomeWatering` */
    method GnomeWatering(h: Helper) returns (events: seq<TickEvent>)
      modifies this`plots, this`tank
      ensures var s := GnomeStep(Yard(old(plots), old(tank), resources), h);
        plots == s.yard.plots && tank == s.yard.tank && events == s.events
    {
      var i := FirstMatch(plots, Unwatered);
      events := [];
      if i >= 0 && tank.current > 0 {
        events := [HelperWatered(h.id, plots[i].id)];
        plots := plots[i := plots[i].(watered := true)];
        tank := tank.(current := tank.current - 1);
      }
    }

    /** `processGolemHarvesting`, reading the crop catalogue it is given. */
    method GolemHarvesting(gv: GameValues, h: Helper) returns (events: seq<TickEvent>)
      modifies this`plots, this`resources
      ensures var s := GolemStep(Yard(old(plots), tank, old(resources)), h, gv.crops);
        plots == s.yard.plots && resources == s.yard.resources && events == s.events
    {
      var i := FirstMatch(plots, Ready);
      events := [];
      if i >= 0 {
        var crop := FindCrop(gv.crops, plots[i].crop.value);
        if crop.Some? {
          resources := resources.(energy := Min(resources.cap, resources.energy + crop.value.energyValue));
          events := [HelperHarvested(h.id, plots[i].id, crop.value.name, crop.value.energyValue)];
          plots := plots[i := Cleared(plots[i])];
        }
      }
    }

    /** `processHelpers`: each working helper acts in order; a working fairy aborts. */
    method ProcessHelpers(gv: GameValues) returns (events: seq<TickEvent>, error: Option<string>)
      modifies this`plots, this`tank, this`resources
      ensures var o := HelpersRun(Yard(old(plots), old(tank), old(resources)), helpers, gv.crops);
        Yard(plots, tank, resources) == o.yard && events == o.events && error == o.error
    {
      ghost var y0 := Yard(plots, tank, resources);
      events, error := [], None;
      var i := 0;
      while i < |helpers|
        invariant 0 <= i <= |helpers|
        invariant var o := HelpersRun(y0, helpers[..i], gv.crops);
          Yard(plots, tank, resources) == o.yard && events == o.events && o.error.None? && error.None?
      {
        assert helpers[..i + 1][..i] == helpers[..i];
        var h := helpers[i];
        if h.isWorking {
          if h.kind == "gnome" {
            var ev := GnomeWatering(h);
            events := events + ev;
          } else if h.kind == "golem" {
            var ev := GolemHarvesting(gv, h);
            events := events + ev;
          } else if h.kind == "fairy" {
            error := Some(FairyMissing);
            HelpersRunStops(y0, helpers, i + 1, gv.crops);
            return;
          }
        }
        i := i + 1;
      }
      assert helpers[..i] == helpers;
    }

    /** `processFarmAutomation` */
    method ProcessFarmAutomation() returns (events: seq<TickEvent>)
      modifies this`plots
      ensures |plots| == |old(plots)|
      ensures forall i :: 0 <= i < |plots| ==> plots[i] == Automated(old(plots)[i], currentTick)
      ensures events == ReadyEvents(old(plots), currentTick)
      ensures old(YardValid()) ==> YardValid()
    {
      var before := plots;
      events := [];
      var i := 0;
      while i < |before|
        invariant 0 <= i <= |before| && |plots| == |before|
        invariant forall j :: 0 <= j < i ==> plots[j] == Automated(before[j], currentTick)
        invariant forall j :: i <= j < |before| ==> plots[j] == before[j]
        invariant events == ReadyEvents(before[..i], currentTick)
      {
        assert before[..i + 1][..i] == before[..i];
        var p := plots[i];
        if HasCrop(p) && p.watered && currentTick % 30 == 0 && p.growthStage < 3 {
          var q := p.(growthStage := p.growthStage + 1);
          plots := plots[i := q];
          if q.growthStage == 3 {
            events := events + [CropReady(q.id, q.crop.value)];
          }
        }
        i := i + 1;
      }
      assert before[..i] == before;
      assert StagesBounded(before) ==> StagesBounded(plots) by {
        if StagesBounded(before) {
          forall j | 0 <= j < |plots| ensures 0 <= plots[j].growthStage <= 3 {
            AutomatedSpec(before[j], currentTick);
          }
        }
      }
    }

    /** `makeAIDecision` */
    method MakeAIDecision(gv: GameValues)
      modifies this`currentAction, this`location
      ensures currentAction == Some(Decide(plots, tank, resources, gv, currentTick))
      ensures location == LocationFor(currentAction.value, old(location))
    {
      if Count(plots, Ready) > 0 {
        currentAction := Some(Action("harvest_crops", None, None, 2, currentTick));
        return;
      }
      if Count(plots, Unwatered) > 0 && tank.current > 0 {
        currentAction := Some(Action("water_crops", None, None, 1, currentTick));
        return;
      }
      if Count(plots, Empty) > 0 {
        currentAction := Some(Action("plant_crops", Some("carrot"), None, 1, currentTick));
        return;
      }
      if resources.energy < resources.cap * 0.3 && |gv.adventures| > 0 {
        var adventure := gv.adventures[0];
        currentAction := Some(Action("adventure", Some(adventure.id), None,
          if adventure.duration == 0 then 30 else adventure.duration, currentTick));
        location := "adventure";
        return;
      }
      currentAction := Some(Action("idle", None, None, 10, currentTick));
    }

    /** The phase history update of `simulateGameTick`. */
    method UpdatePhaseHistory(phase: string)
      modifies this`phaseHistory
      ensures phaseHistory == PhaseHistoryAfter(old(phaseHistory), phase, day)
    {
      if |phaseHistory| > 0 {
        var last := phaseHistory[|phaseHistory| - 1];
        phaseHistory := phaseHistory[|phaseHistory| - 1 := last.(duration := Some(day - last.startDay))];
      }
      phaseHistory := phaseHistory + [PhaseEntry(phase, day, None)];
    }

    /** The hourly resource snapshot of `simulateGameTick`. */
    method RecordResources(now: int)
      modifies this`resourceHistory
      ensures resourceHistory == Recorded(old(resourceHistory), Snapshot(now, day, time.hour, resources))
    {
      resourceHistory := resourceHistory + [Snapshot(now, day, time.hour, resources)];
      if |resourceHistory| > HistoryLimit {
        resourceHistory := resourceHistory[|resourceHistory| - HistoryLimit..];
      }
    }

    /** The phase check of `simulateGameTick`: a transition moves the phase one step and
        updates the history; otherwise neither changes. */
    method CheckPhaseProgression() returns (change: Option<Major>)
      modifies this`currentPhase, this`phaseHistory
      ensures change == PhaseTransitionOf(old(currentPhase), |owned|, |helpers|, day)
      ensures change.Some? ==>
        && currentPhase == change.value.newPhase
        && phaseHistory == PhaseHistoryAfter(old(phaseHistory), currentPhase, day)
      ensures change.None? ==> currentPhase == old(currentPhase) && phaseHistory == old(phaseHistory)
      ensures PhaseRank(old(currentPhase)) <= PhaseRank(currentPhase)
      ensures old(HistoryValid()) ==> HistoryValid()
    {
      change := PhaseTransitionOf(currentPhase, |owned|, |helpers|, day);
      if change.Some? {
        currentPhase := change.value.newPhase;
        UpdatePhaseHistory(change.value.newPhase);
        PhaseHistoryEnds(old(phaseHistory), currentPhase, day);
      }
    }

    /** The part of `simulateGameTick` after the helpers: farm automation, the phase check,
        a decision when the hero is free, the hourly snapshot and the tick count. */
    method FinishTick(gv: GameValues, d: Draws, events0: seq<TickEvent>, major0: Option<Major>) returns (r: TickResult)
      modifies this`plots, this`currentPhase, this`phaseHistory, this`currentAction, this`location,
               this`resourceHistory, this`currentTick
      ensures FinishDone(gv, d, |helpers|, |owned|, day, time.hour, old(View()), View(), events0, major0, r)
      ensures PhaseRank(old(currentPhase)) <= PhaseRank(currentPhase)
      ensures old(YardValid()) ==> YardValid()
      ensures old(HistoryValid()) ==> HistoryValid()
    {
      var events, major, phaseChanged := FarmAndPhase(events0, major0);
      EndTick(gv, d.now);
      r := TickResult(None, phaseChanged, major, events);
    }

    /** Farm automation and the phase check of `simulateGameTick`. */
    method FarmAndPhase(events0: seq<TickEvent>, major0: Option<Major>)
      returns (events: seq<TickEvent>, major: Option<Major>, phaseChanged: bool)
      modifies this`plots, this`currentPhase, this`phaseHistory
      ensures |plots| == |old(plots)| && forall i :: 0 <= i < |plots| ==> plots[i] == Automated(old(plots)[i], currentTick)
      ensures events == events0 + ReadyEvents(old(plots), currentTick)
      ensures var change := PhaseTransitionOf(old(currentPhase), |owned|, |helpers|, day);
        && (phaseChanged <==> change.Some?)
        && major == (if change.Some? then change else major0)
        && (change.Some? ==> currentPhase == change.value.newPhase && phaseHistory == PhaseHistoryAfter(old(phaseHistory), currentPhase, day))
        && (change.None? ==> currentPhase == old(currentPhase) && phaseHistory == old(phaseHistory))
      ensures PhaseRank(old(currentPhase)) <= PhaseRank(currentPhase)
      ensures old(YardValid()) ==> YardValid()
      ensures old(HistoryValid()) ==> HistoryValid()
    {
      events, major := events0, major0;
      var ev3 := ProcessFarmAutomation();
      events := events + ev3;
      var change := CheckPhaseProgression();
      phaseChanged := change.Some?;
      if change.Some? {
        major := change;
      }
    }

    /** The end of `simulateGameTick`: a decision when the hero is free, the hourly
        snapshot and the tick count. */
    method EndTick(gv: GameValues, now: int)
      modifies this`currentAction, this`location, this`resourceHistory, this`currentTick
      ensures currentTick == old(currentTick) + 1 && currentAction.Some?
      ensures old(currentAction).Some? ==> currentAction == old(currentAction) && location == old(location)
      ensures old(currentAction).None? ==>
        && currentAction == Some(Decide(plots, tank, resources, gv, old(currentTick)))
        && location == LocationFor(currentAction.value, old(location))
      ensures resourceHistory == if old(currentTick) % 60 == 0
        then Recorded(old(resourceHistory), Snapshot(now, day, time.hour, resources)) else old(resourceHistory)
      ensures old(HistoryValid()) ==> HistoryValid()
    {
      if currentAction.None? {
        MakeAIDecision(gv);
      }
      if currentTick % 60 == 0 {
        RecordResources(now);
        RecordedBounded(old(resourceHistory), Snapshot(now, day, time.hour, resources));
      }
      currentTick := currentTick + 1;
    }

    /** The start of `simulateGameTick`: the clock moves one minute and the current action,
        if any, progresses or completes. */
    method BeginTick(gv: GameValues, d: Draws) returns (events: seq<TickEvent>, major: Option<Major>)
      modifies this`time, this`day, this`currentAction, this`location, this`resources,
               this`discoveredHelpers, this`plots, this`tank
      ensures time == Tick(old(time))
      ensures ProgressDone(gv, d, old(currentAction), old(location), Yard(old(plots), old(tank), old(resources)),
                           old(discoveredHelpers), currentTick,
                           currentAction, location, Yard(plots, tank, resources), discoveredHelpers, events, major)
      ensures old(ClockValid()) ==> ClockValid()
      ensures old(YardValid()) ==> YardValid()
      ensures old(FoundValid()) ==> FoundValid()
    {
      events, major := [], None;
      AdvanceTime();
      if currentAction.Some? {
        events, major := ProcessCurrentAction(gv, d);
      }
    }

    /** The part of the state that `simulateGameTick` changes after the clock. */
    function View(): TickView
      reads this
    {
      TickView(plots, tank, resources, currentAction, location, currentPhase, phaseHistory, resourceHistory, currentTick)
    }

    /** `simulateGameTick`: one game minute.  The clock moves a minute and the current action
        progresses (`ProgressDone`), giving the state `mid`; from there the helpers run and the
        tick ends as `RestDone` says.  The tick fails exactly when a fairy is working.  The
        phase moves at most one step forward, and the invariants are kept. */
    method SimulateGameTick(gv: GameValues, d: Draws)
      returns (r: TickResult, ghost mid: TickView, ghost begun: seq<TickEvent>, ghost begunMajor: Option<Major>)
      modifies this`time, this`day, this`currentAction, this`location, this`resources, this`discoveredHelpers,
               this`plots, this`tank, this`currentPhase, this`phaseHistory, this`resourceHistory, this`currentTick
      ensures time == Tick(old(time))
      ensures helpers == old(helpers) && owned == old(owned)
      ensures ProgressDone(gv, d, old(currentAction), old(location), Yard(old(plots), old(tank), old(resources)),
                           old(discoveredHelpers), old(currentTick), mid.currentAction, mid.location,
                           Yard(mid.plots, mid.tank, mid.resources), discoveredHelpers, begun, begunMajor)
      ensures mid.currentPhase == old(currentPhase) && mid.phaseHistory == old(phaseHistory)
      ensures mid.resourceHistory == old(resourceHistory) && mid.currentTick == old(currentTick)
      ensures RestDone(gv, d, helpers, |owned|, day, time.hour, mid, View(), begun, begunMajor, r)
      ensures r.error.Some? <==> FairyWorking(helpers)
      ensures PhaseRank(old(currentPhase)) <= PhaseRank(currentPhase)
      ensures old(Valid()) ==> Valid()
    {
      var events, major := BeginTick(gv, d);
      mid, begun, begunMajor := View(), events, major;
      r := RestOfTick(gv, d, events, major);
    }

    /** `simulateGameTick` after the clock and the current action: the helpers run on the
        yard, and unless a fairy makes them fail, `FinishTick` follows. */
    method RestOfTick(gv: GameValues, d: Draws, events0: seq<TickEvent>, major0: Option<Major>) returns (r: TickResult)
      modifies this`plots, this`tank, this`resources, this`currentPhase, this`phaseHistory, this`currentAction,
               this`location, this`resourceHistory, this`currentTick
      ensures RestDone(gv, d, helpers, |owned|, day, time.hour, old(View()), View(), events0, major0, r)
      ensures PhaseRank(old(currentPhase)) <= PhaseRank(currentPhase)
      ensures old(YardValid()) ==> YardValid()
      ensures old(HistoryValid()) ==> HistoryValid()
    {
      ghost var y1 := Yard(plots, tank, resources);
      ghost var valid0 := YardOk(y1);
      var ev2, error := ProcessHelpers(gv);
      HelpersRunSpec(y1, helpers, gv.crops);
      assert valid0 ==> YardValid();
      if error.Some? {
        r := TickResult(error, false, None, []);
        return;
      }
      r := FinishTick(gv, d, events0 + ev2, major0);
    }
  }
}
