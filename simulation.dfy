/**
 * The simulation store: the running game state of one simulated player (clock, resources,
 * farm plots, hero actions, helpers, upgrades, phase) and the rules that advance it one
 * game minute at a time — growth, energy, storage caps, phase progression, adventures,
 * mining, helper discovery and upgrade purchases — together with the event log and the
 * metrics the analysis reads.
 *
 * The game-values store is read through `Catalogue`, a value passed in when the store is
 * made. Every `Math.random()` draw, and `Math.pow(depth, 1.2)`, are parameters.
 */
module Simulation {
  import opened Common

  // ================================================================ catalogue

  /** A crop row as the store reads it (`getCrop`). */
  datatype Crop = Crop(name: string, energy: real, growthTime: real, energyPerMinute: Option<real>)

  /** An adventure route (`getAdventure`): the energy and minutes of each length option,
      and its rewards. Absent numeric fields are None. */
  datatype Adventure = Adventure(
    name: string, unlockDay: Option<real>,
    shortEnergy: Option<real>, shortDuration: Option<int>,
    mediumEnergy: Option<real>, mediumDuration: Option<int>,
    longEnergy: Option<real>, longDuration: Option<int>,
    goldReward: real,
    commonMaterial: string, commonAmount: real,
    rareMaterial: string, rareAmount: real,
    bossMaterial: string, bossAmount: real)

  /** An upgrade definition: unlock day, cost object (gold, energy and materials) and the
      effect token that `applyUpgradeEffect` switches on. */
  datatype UpgradeDef = UpgradeDef(name: string, unlockDay: Option<real>, cost: Option<Obj<real>>, effect: string)

  datatype Catalogue = Catalogue(crops: Obj<Crop>, adventures: Obj<Adventure>, upgrades: Obj<UpgradeDef>)

  // ================================================================ state

  datatype Clock = Clock(day: int, hour: int, minute: int)

  /** `resources`: `energy.current`, `energy.cap`, `gold` and the materials object. */
  datatype Resources = Resources(energy: real, energyCap: real, gold: real, materials: Obj<real>)

  datatype Plot = Plot(id: int, crop: Option<string>, growthStage: int, watered: bool, plantedAt: Option<int>)

  datatype Tank = Tank(current: real, max: real)

  datatype Farm = Farm(plots: seq<Plot>, waterTank: Tank, expansionsCompleted: int, cameraWidth: int)

  /** What an action is aimed at: an adventure route id, or a mine depth. */
  datatype Target = Route(id: string) | Depth(depth: nat)

  datatype Action = Action(kind: string, target: Target, duration: Option<string>, timeRemaining: int,
                           startedAt: int, energyCost: real)

  datatype Heroes = Heroes(carryCapacity: int, currentLocation: string, currentAction: Option<Action>)

  datatype Helper = Helper(id: string, kind: string, name: string, abilities: seq<string>,
                           discoveredAt: int, discoveredDay: int, efficiency: real, active: bool)

  datatype OwnedUpgrades = OwnedUpgrades(owned: seq<string>, blueprints: seq<string>)

  datatype Tools = Tools(owned: seq<string>, weapon: Option<string>, tool: Option<string>)

  datatype Tower = Tower(floors: int, autoMode: bool, seedInventory: Obj<int>)

  datatype GameState = GameState(time: Clock, resources: Resources, farm: Farm, heroes: Heroes,
                                 helpers: seq<Helper>, upgrades: OwnedUpgrades, tools: Tools,
                                 tower: Tower, currentPhase: string)

  datatype ScreenTime = ScreenTime(home: real, adventure: real, mine: real, forge: real, tower: real, town: real)

  datatype Timing = Timing(day: int, gameTime: int)

  datatype Flows = Flows(energyGenerated: real, energySpent: real, energyWasted: real)

  datatype Metrics = Metrics(totalSimulationTime: real, gameTimeElapsed: int, eventsLogged: nat,
                             phaseDurations: Obj<int>, screenTime: ScreenTime,
                             upgradeTimings: Obj<Timing>, resourceFlows: Flows)

  /** A log entry, by category and level; the message texts, ids and timestamps are not kept. */
  datatype Category = FarmEvent | ResourceEvent | ProgressionEvent | AdventureEvent | MiningEvent
                    | DiscoveryEvent | UpgradeEvent | SimulationEvent
  datatype Level = Info | Warning | Failure | Major
  datatype Event = Event(category: Category, level: Level)

  function InitialGameState(): (g: GameState)
    ensures g.time == Clock(1, 8, 0) && g.currentPhase == "tutorial"
    ensures g.resources.energy == 0.0 && g.resources.energyCap == 50.0
    ensures |g.farm.plots| == 3 && g.heroes.currentAction.None? && g.helpers == []
  {
    GameState(
      Clock(1, 8, 0),
      Resources(0.0, 50.0, 0.0, [("stone", 0.0), ("copper", 0.0), ("iron", 0.0), ("silver", 0.0),
                                 ("crystal", 0.0), ("mythril", 0.0), ("obsidian", 0.0)]),
      Farm([EmptyPlot(1), EmptyPlot(2), EmptyPlot(3)], Tank(20.0, 20.0), 0, 25),
      Heroes(2, "home", None),
      [],
      OwnedUpgrades([], ["storage_1", "pump_1"]),
      Tools(["watering_can_1"], None, Some("watering_can_1")),
      Tower(1, false, [("carrot", 10), ("radish", 10), ("potato", 10)]),
      "tutorial")
  }

  function EmptyPlot(id: int): Plot
  {
    Plot(id, None, 0, false, None)
  }

  function InitialMetrics(): (m: Metrics)
    ensures m.gameTimeElapsed == 0 && m.eventsLogged == 0 && m.phaseDurations == []
  {
    Metrics(0.0, 0, 0, [], ScreenTime(0.0, 0.0, 0.0, 0.0, 0.0, 0.0), [], Flows(0.0, 0.0, 0.0))
  }

  // ================================================================ event log

  const MaxLogEntries: nat := 10000

  /** The log after one push: when it grows past the limit only the newest entries stay. */
  function TrimLog(log: seq<Event>): (r: seq<Event>)
    ensures |log| <= MaxLogEntries ==> r == log
    ensures |log| > MaxLogEntries ==> |r| == MaxLogEntries && r == log[|log| - MaxLogEntries..]
  {
    if |log| > MaxLogEntries then log[|log| - MaxLogEntries..] else log
  }

  /** The log after logging `es` one after another. */
  function Appended(log: seq<Event>, es: seq<Event>): seq<Event>
    decreases |es|
  {
    if es == [] then log else Appended(TrimLog(log + [es[0]]), es[1..])
  }

  /** Logging one more event extends the fold by one push. */
  lemma {:induction false} AppendedSnoc(log: seq<Event>, es: seq<Event>, e: Event)
    ensures Appended(log, es + [e]) == TrimLog(Appended(log, es) + [e])
    decreases |es|
  {
    if es == [] {
      assert es + [e] == [e];
      assert [e][1..] == [];
    } else {
      assert (es + [e])[0] == es[0];
      assert (es + [e])[1..] == es[1..] + [e];
      AppendedSnoc(TrimLog(log + [es[0]]), es[1..], e);
    }
  }

  /** The log never holds more than the limit once it is within it, and every push keeps
      the event just logged as the newest entry. */
  lemma {:induction false} LogBounded(log: seq<Event>, es: seq<Event>)
    requires |log| <= MaxLogEntries
    ensures |Appended(log, es)| <= MaxLogEntries
    ensures es != [] ==> |Appended(log, es)| >= 1
    ensures es != [] ==> Appended(log, es)[|Appended(log, es)| - 1] == es[|es| - 1]
    decreases |es|
  {
    if es != [] {
      var t := TrimLog(log + [es[0]]);
      assert t[|t| - 1] == es[0];
      LogBounded(t, es[1..]);
      if |es| > 1 {
        assert es[1..][|es[1..]| - 1] == es[|es| - 1];
      } else {
        assert es[1..] == [];
      }
    }
  }

  /** `n` copies of one event. */
  function Copies(e: Event, n: nat): (r: seq<Event>)
    ensures |r| == n && forall i :: 0 <= i < n ==> r[i] == e
  {
    seq(n, _ => e)
  }

  // ================================================================ clock

  /** Minutes since the start of day 0. */
  function MinuteOfGame(day: int, hour: int, minute: int): int
  {
    day * 1440 + hour * 60 + minute
  }

  // ================================================================ resources

  /** `addResource`: energy, gold, or a material the object already has; any other kind is
      ignored. */
  function Add(r: Resources, kind: string, amount: real): (s: Resources)
  {
    if kind == "energy" then r.(energy := r.energy + amount)
    else if kind == "gold" then r.(gold := r.gold + amount)
    else if Get(r.materials, kind).Some? then
      r.(materials := Put(r.materials, kind, Get(r.materials, kind).value + amount))
    else r
  }

  /** The balance `spendResource` consults, or None for a kind it does not know. */
  function Balance(r: Resources, kind: string): Option<real>
  {
    if kind == "energy" then Some(r.energy)
    else if kind == "gold" then Some(r.gold)
    else Get(r.materials, kind)
  }

  /** `spendResource`: the resources after spending, or None when the balance is short or the
      kind is unknown. */
  function Spend(r: Resources, kind: string, amount: real): (s: Option<Resources>)
  {
    if kind == "energy" then (if r.energy >= amount then Some(r.(energy := r.energy - amount)) else None)
    else if kind == "gold" then (if r.gold >= amount then Some(r.(gold := r.gold - amount)) else None)
    else if Get(r.materials, kind).Some? then
      (if Get(r.materials, kind).value >= amount
       then Some(r.(materials := Put(r.materials, kind, Get(r.materials, kind).value - amount)))
       else None)
    else None
  }

  /** Spending succeeds exactly when the kind is known and its balance covers the amount; it
      then lowers that balance by the amount, leaves it non-negative and touches nothing else. */
  lemma SpendSpec(r: Resources, kind: string, amount: real)
    ensures Spend(r, kind, amount).Some? <==> Balance(r, kind).Some? && Balance(r, kind).value >= amount
    ensures Spend(r, kind, amount).Some? ==>
      var s := Spend(r, kind, amount).value;
      && Balance(s, kind) == Some(Balance(r, kind).value - amount)
      && Balance(s, kind).value >= 0.0
      && s.energyCap == r.energyCap
      && (forall k :: k != kind ==> Balance(s, k) == Balance(r, k))
  {
  }

  /** `Put` of the value already stored changes nothing. */
  lemma {:induction false} PutSame<V>(o: Obj<V>, k: string)
    requires Get(o, k).Some?
    ensures Put(o, k, Get(o, k).value) == o
  {
    if o[0].0 != k {
      PutSame(o[1..], k);
      assert [o[0]] + o[1..] == o;
    } else {
      assert [(k, o[0].1)] + o[1..] == o;
    }
  }

  /** Spending what was just added restores the resources, for every kind with a
      non-negative balance. */
  lemma AddThenSpend(r: Resources, kind: string, amount: real)
    requires Balance(r, kind).Some? ==> Balance(r, kind).value >= 0.0
    ensures Balance(r, kind).Some? ==> Spend(Add(r, kind, amount), kind, amount) == Some(r)
    ensures Balance(r, kind).None? ==> Add(r, kind, amount) == r && Spend(r, kind, amount).None?
  {
    if kind != "energy" && kind != "gold" && Get(r.materials, kind).Some? {
      var v := Get(r.materials, kind).value;
      var m1 := Put(r.materials, kind, v + amount);
      assert Put(m1, kind, (v + amount) - amount) == Put(m1, kind, Get(m1, kind).value - amount);
      PutPut(r.materials, kind, v + amount, v);
      PutSame(r.materials, kind);
    }
  }

  /** Two puts of one key: the second wins. */
  lemma {:induction false} PutPut<V>(o: Obj<V>, k: string, v: V, w: V)
    ensures Put(Put(o, k, v), k, w) == Put(o, k, w)
  {
    if o != [] && o[0].0 != k {
      PutPut(o[1..], k, v, w);
    }
  }

  /** Every material amount is non-negative. */
  predicate NonNegative(r: Resources)
  {
    r.energy >= 0.0 && r.gold >= 0.0 && forall i :: 0 <= i < |r.materials| ==> r.materials[i].1 >= 0.0
  }

  lemma {:induction false} PutNonNegative(o: Obj<real>, k: string, v: real)
    requires v >= 0.0 && forall i :: 0 <= i < |o| ==> o[i].1 >= 0.0
    ensures forall i :: 0 <= i < |Put(o, k, v)| ==> Put(o, k, v)[i].1 >= 0.0
  {
    if o != [] && o[0].0 != k {
      PutNonNegative(o[1..], k, v);
      var p := Put(o, k, v);
      forall i | 0 <= i < |p| ensures p[i].1 >= 0.0 {
        if i > 0 { assert p[i] == Put(o[1..], k, v)[i - 1]; }
      }
    }
  }

  /** No spend drives a balance negative. */
  lemma SpendKeepsNonNegative(r: Resources, kind: string, amount: real)
    requires NonNegative(r) && Spend(r, kind, amount).Some?
    ensures NonNegative(Spend(r, kind, amount).value)
  {
    if kind != "energy" && kind != "gold" {
      var v := Get(r.materials, kind).value;
      PutNonNegative(r.materials, kind, v - amount);
    }
  }

  // ================================================================ farm

  /** `plot.crop` is truthy. */
  predicate Planted(p: Plot)
  {
    p.crop.Some? && p.crop.value != ""
  }

  /** `plot.crop && plot.plantedAt`: a crop planted at elapsed time 0 is not growing. */
  predicate Growing(p: Plot)
  {
    Planted(p) && p.plantedAt.Some? && p.plantedAt.value != 0
  }

  /** `Math.min(4, Math.floor(minutes / growthTime * 4))`, or None when that is NaN or
      negative infinity (a zero growth time with no minutes, or negative minutes). */
  function StageAfter(minutes: int, growthTime: real): Option<int>
  {
    if growthTime == 0.0 then (if minutes > 0 then Some(4) else None)
    else
      var s := ((4 * minutes) as real / growthTime).Floor;
      Some(if s < 4 then s else 4)
  }

  /** One plot after `processFarmGrowth` at elapsed time `elapsed`. */
  function Grown(p: Plot, elapsed: int, cat: Catalogue): Plot
  {
    if Growing(p) && Get(cat.crops, p.crop.value).Some? then
      var s := StageAfter(elapsed - p.plantedAt.value, Get(cat.crops, p.crop.value).value.growthTime);
      if s.Some? && s.value > p.growthStage then p.(growthStage := s.value) else p
    else p
  }

  /** Growth only raises a plot's stage, to `min(4, floor(4·minutes/growthTime))`, and
      changes nothing else; a crop planted at time 0 never grows. */
  lemma GrowthSpec(p: Plot, elapsed: int, cat: Catalogue)
    ensures var q := Grown(p, elapsed, cat);
      && q == p.(growthStage := q.growthStage)
      && q.growthStage >= p.growthStage
      && (q.growthStage > p.growthStage ==>
            && Growing(p) && Get(cat.crops, p.crop.value).Some?
            && q.growthStage <= 4
            && var gt := Get(cat.crops, p.crop.value).value.growthTime;
               gt != 0.0 ==> q.growthStage == Min4((4 * (elapsed - p.plantedAt.value)) as real / gt))
    ensures p.plantedAt == Some(0) ==> Grown(p, elapsed, cat) == p
  {
  }

  function Min4(x: real): int
  {
    if x.Floor < 4 then x.Floor else 4
  }

  /** A plot that reaches stage 4 in this pass (the source logs it). */
  predicate Ripens(p: Plot, elapsed: int, cat: Catalogue)
  {
    p.growthStage < 4 && Grown(p, elapsed, cat).growthStage == 4
  }

  function RipeningCount(plots: seq<Plot>, elapsed: int, cat: Catalogue): (n: nat)
    ensures n <= |plots|
  {
    if plots == [] then 0
    else RipeningCount(plots[..|plots| - 1], elapsed, cat) + (if Ripens(plots[|plots| - 1], elapsed, cat) then 1 else 0)
  }

  /** The count is the number of plots that ripen in this pass. */
  lemma {:induction false} RipeningCountSpec(plots: seq<Plot>, elapsed: int, cat: Catalogue)
    ensures RipeningCount(plots, elapsed, cat) == |set i | 0 <= i < |plots| && Ripens(plots[i], elapsed, cat)|
  {
    if plots != [] {
      var init := plots[..|plots| - 1];
      RipeningCountSpec(init, elapsed, cat);
      var p := (x: Plot) => Ripens(x, elapsed, cat);
      var a := set i | 0 <= i < |init| && Ripens(init[i], elapsed, cat);
      var b := set i | 0 <= i < |plots| && Ripens(plots[i], elapsed, cat);
      CountSnoc(plots, init, p, a, b);
    }
  }

  /** The events of one growth pass: one per ripening plot, and a summary if there was any. */
  function GrowthEvents(plots: seq<Plot>, elapsed: int, cat: Catalogue): seq<Event>
  {
    var k := RipeningCount(plots, elapsed, cat);
    Copies(Event(FarmEvent, Info), if k > 0 then k + 1 else 0)
  }

  /** Energy a mature plot yields per minute: `energyPerMinute || energy / growthTime`. */
  function Rate(p: Plot, cat: Catalogue): real
  {
    if Planted(p) && p.growthStage == 4 && Get(cat.crops, p.crop.value).Some? then
      var c := Get(cat.crops, p.crop.value).value;
      if c.energyPerMinute.Some? && c.energyPerMinute.value != 0.0 then c.energyPerMinute.value
      else if c.growthTime != 0.0 then c.energy / c.growthTime
      else 0.0
    else 0.0
  }

  /** The energy of one generation pass, summed in plot order. */
  function TotalRate(plots: seq<Plot>, cat: Catalogue): real
  {
    if plots == [] then 0.0 else TotalRate(plots[..|plots| - 1], cat) + Rate(plots[|plots| - 1], cat)
  }

  /** Only mature plots (stage 4) generate energy. */
  lemma {:induction false} NoMatureNoEnergy(plots: seq<Plot>, cat: Catalogue)
    requires forall i :: 0 <= i < |plots| ==> plots[i].growthStage != 4
    ensures TotalRate(plots, cat) == 0.0
  {
    if plots != [] {
      NoMatureNoEnergy(plots[..|plots| - 1], cat);
    }
  }

  /** The number of plots with a crop. */
  function ActivePlots(plots: seq<Plot>): (n: nat)
    ensures n <= |plots|
  {
    if plots == [] then 0 else ActivePlots(plots[..|plots| - 1]) + (if Planted(plots[|plots| - 1]) then 1 else 0)
  }

  /** `processResourceCaps`: energy above the cap is clamped; the result is the clamped
      resources and the excess wasted. */
  datatype Capped = Capped(resources: Resources, wasted: real)

  function CapEnergy(r: Resources): Capped
  {
    var over := r.energy - r.energyCap;
    if over > 0.0 then Capped(r.(energy := r.energyCap), over) else Capped(r, 0.0)
  }

  /** After capping energy is within the cap, the waste is exactly the clamped excess, nothing
      changes when already within the cap, and capping twice wastes nothing more. */
  lemma CapEnergySpec(r: Resources)
    ensures var c := CapEnergy(r);
      && c.resources.energy <= c.resources.energyCap
      && c.wasted == (if r.energy > r.energyCap then r.energy - r.energyCap else 0.0)
      && c.resources == r.(energy := r.energy - c.wasted)
      && (r.energy <= r.energyCap ==> c == Capped(r, 0.0))
      && CapEnergy(c.resources) == Capped(c.resources, 0.0)
  {
  }

  /** The first plot with the given id (`plots.find`). */
  function FindPlot(plots: seq<Plot>, id: int): (r: Option<nat>)
    ensures r.Some? ==> r.value < |plots| && plots[r.value].id == id
    ensures r.Some? ==> forall j :: 0 <= j < r.value ==> plots[j].id != id
    ensures r.None? ==> forall j :: 0 <= j < |plots| ==> plots[j].id != id
  {
    if plots == [] then None
    else if plots[0].id == id then Some(0)
    else match FindPlot(plots[1..], id)
      case None => None
      case Some(j) => Some(j + 1)
  }

  /** `plantCrop`: the plots after planting, or None on a missing plot, an unknown crop or
      an occupied plot. */
  function Plant(plots: seq<Plot>, id: int, cropType: string, cat: Catalogue, elapsed: int): (r: Option<seq<Plot>>)
  {
    var i := FindPlot(plots, id);
    if i.None? || Get(cat.crops, cropType).None? || Planted(plots[i.value]) then None
    else Some(plots[i.value := plots[i.value].(crop := Some(cropType), growthStage := 0, watered := false,
                                                plantedAt := Some(elapsed))])
  }

  /** `harvestCrop`: the plots after clearing, and the energy gained (None when the crop's
      row is gone), or a refusal. */
  datatype Harvest = NoHarvest | Harvested(plots: seq<Plot>, energy: Option<real>)

  function HarvestPlot(plots: seq<Plot>, id: int, cat: Catalogue): Harvest
  {
    var i := FindPlot(plots, id);
    if i.None? || !Planted(plots[i.value]) || plots[i.value].growthStage < 4 then NoHarvest
    else
      var c := Get(cat.crops, plots[i.value].crop.value);
      Harvested(plots[i.value := plots[i.value].(crop := None, growthStage := 0, watered := false, plantedAt := None)],
                if c.Some? then Some(c.value.energy) else None)
  }

  /** Planting succeeds exactly on an existing empty plot with a known crop, and sets that
      plot alone to the crop at stage 0 planted now. */
  lemma PlantSpec(plots: seq<Plot>, id: int, cropType: string, cat: Catalogue, elapsed: int)
    ensures Plant(plots, id, cropType, cat, elapsed).Some? <==>
      FindPlot(plots, id).Some? && Get(cat.crops, cropType).Some? && !Planted(plots[FindPlot(plots, id).value])
    ensures Plant(plots, id, cropType, cat, elapsed).Some? ==>
      var i := FindPlot(plots, id).value;
      var q := Plant(plots, id, cropType, cat, elapsed).value;
      && |q| == |plots|
      && q[i] == Plot(id, Some(cropType), 0, false, Some(elapsed))
      && forall j :: 0 <= j < |plots| && j != i ==> q[j] == plots[j]
  {
  }

  /** Harvesting fails on a missing or empty plot and below stage 4; otherwise it yields the
      crop's energy and empties that plot alone. */
  lemma HarvestSpec(plots: seq<Plot>, id: int, cat: Catalogue)
    ensures HarvestPlot(plots, id, cat).Harvested? <==>
      FindPlot(plots, id).Some? && Planted(plots[FindPlot(plots, id).value])
      && plots[FindPlot(plots, id).value].growthStage >= 4
    ensures HarvestPlot(plots, id, cat).Harvested? ==>
      var i := FindPlot(plots, id).value;
      var h := HarvestPlot(plots, id, cat);
      && |h.plots| == |plots|
      && h.plots[i] == EmptyPlot(id)
      && (forall j :: 0 <= j < |plots| && j != i ==> h.plots[j] == plots[j])
      && h.energy == (match Get(cat.crops, plots[i].crop.value) case None => None case Some(c) => Some(c.energy))
  {
  }

  lemma StageAtGrowthTime(g: real, m: int)
    requires g > 0.0 && m as real >= g
    ensures StageAfter(m, g) == Some(4)
  {
    assert (4 * m) as real / g >= 4.0 by {
      assert (4 * m) as real == 4.0 * (m as real);
      assert 4.0 * (m as real) >= 4.0 * g;
      DivAtLeast((4 * m) as real, g, 4.0);
    }
  }

  lemma DivAtLeast(x: real, g: real, k: real)
    requires g > 0.0 && x >= k * g
    ensures x / g >= k
  {
    var q := x / g;
    assert q * g == x;
    assert (q - k) * g >= 0.0;
  }

  /** Plant, grow, harvest: a crop planted at a non-zero time on an empty plot is ripe once
      its growth time has passed, harvesting it yields its energy, and the plot is empty and
      plantable again. */
  lemma {:induction false} PlantGrowHarvest(plots: seq<Plot>, id: int, cropType: string, cat: Catalogue,
                                            planted: int, now: int)
    requires cropType != "" && planted != 0
    requires Plant(plots, id, cropType, cat, planted).Some?
    requires Get(cat.crops, cropType).value.growthTime > 0.0
    requires (now - planted) as real >= Get(cat.crops, cropType).value.growthTime
    ensures var p1 := Plant(plots, id, cropType, cat, planted).value;
      var i := FindPlot(plots, id).value;
      var p2 := p1[i := Grown(p1[i], now, cat)];
      var h := HarvestPlot(p2, id, cat);
      && p2[i].growthStage == 4
      && h == Harvested(plots[i := EmptyPlot(id)], Some(Get(cat.crops, cropType).value.energy))
      && Plant(h.plots, id, cropType, cat, now).Some?
  {
    var i := FindPlot(plots, id).value;
    var p1 := Plant(plots, id, cropType, cat, planted).value;
    var c := Get(cat.crops, cropType).value;
    StageAtGrowthTime(c.growthTime, now - planted);
    assert p1[i] == Plot(id, Some(cropType), 0, false, Some(planted));
    var p2 := p1[i := Grown(p1[i], now, cat)];
    assert p2[i] == Plot(id, Some(cropType), 4, false, Some(planted));
    FindPlotUpdate(plots, id, i, p1[i]);
    FindPlotUpdate(p1, id, i, p2[i]);
    assert p2[i := EmptyPlot(id)] == plots[i := EmptyPlot(id)];
    FindPlotUpdate(p2, id, i, EmptyPlot(id));
  }

  /** Replacing the found plot by one with the same id keeps it the one found. */
  lemma FindPlotUpdate(plots: seq<Plot>, id: int, i: nat, q: Plot)
    requires FindPlot(plots, id) == Some(i) && q.id == id
    ensures FindPlot(plots[i := q], id) == Some(i)
  {
    assert plots[i := q][i].id == id;
    assert forall j :: 0 <= j < i ==> plots[i := q][j] == plots[j];
  }

  // ================================================================ phases

  /** `checkPhaseProgression`'s rule: the phase after one check. */
  function NextPhase(phase: string, activePlots: int, day: int): string
  {
    if phase == "tutorial" && (activePlots >= 3 || day >= 1) then "early"
    else if phase == "early" && (activePlots >= 10 || day >= 3) then "mid"
    else if phase == "mid" && (activePlots >= 25 || day >= 8) then "late"
    else if phase == "late" && (activePlots >= 50 || day >= 15) then "endgame"
    else phase
  }

  /** `getPhaseIndex`: the position in tutorial, early, mid, late, endgame, or -1. */
  function PhaseIndex(phase: string): (i: int)
    ensures -1 <= i <= 4
  {
    if phase == "tutorial" then 0
    else if phase == "early" then 1
    else if phase == "mid" then 2
    else if phase == "late" then 3
    else if phase == "endgame" then 4
    else -1
  }

  /** `getExpectedPhase`: the phase a player is expected to be in on a day. */
  function ExpectedPhase(day: int): string
  {
    if day <= 1 then "tutorial"
    else if day <= 5 then "early"
    else if day <= 12 then "mid"
    else if day <= 20 then "late"
    else "endgame"
  }

  /** One progression check moves at most one phase forward and never backward; an
      unknown phase and the endgame stay put. */
  lemma NextPhaseStep(phase: string, activePlots: int, day: int)
    ensures var n := NextPhase(phase, activePlots, day);
      && (n == phase || (PhaseIndex(phase) >= 0 && PhaseIndex(n) == PhaseIndex(phase) + 1))
      && (PhaseIndex(phase) == -1 || phase == "endgame" ==> n == phase)
  {
  }

  /** From the tutorial the check always advances, since the day is at least 1. */
  lemma TutorialAdvances(activePlots: int, day: int)
    requires day >= 1
    ensures NextPhase("tutorial", activePlots, day) == "early"
  {
  }

  /** The expected phase is always a known phase and never regresses as days pass. */
  lemma ExpectedPhaseMonotone(d1: int, d2: int)
    requires d1 <= d2
    ensures 0 <= PhaseIndex(ExpectedPhase(d1)) <= PhaseIndex(ExpectedPhase(d2))
  {
  }

  // ================================================================ adventures and mining

  /** `currentAction && currentAction.type !== 'idle'`: an idle action does not make the
      hero busy. */
  predicate Busy(h: Heroes)
  {
    h.currentAction.Some? && h.currentAction.value.kind != "idle"
  }

  /** `adventure[duration + 'Energy']` and `adventure[duration + 'Duration']`. */
  function EnergyOption(a: Adventure, duration: string): Option<real>
  {
    if duration == "short" then a.shortEnergy
    else if duration == "medium" then a.mediumEnergy
    else if duration == "long" then a.longEnergy
    else None
  }

  function MinutesOption(a: Adventure, duration: string): Option<int>
  {
    if duration == "short" then a.shortDuration
    else if duration == "medium" then a.mediumDuration
    else if duration == "long" then a.longDuration
    else None
  }

  /** Why `startAdventure` refused, in the order it checks. */
  datatype Refusal = UnknownRoute | HeroBusy | NotUnlocked | InvalidOption | NoEnergy

  /** `day < unlockDay`; a missing unlock day never locks (the comparison is false). */
  predicate Locked(day: int, unlockDay: Option<real>)
  {
    unlockDay.Some? && (day as real) < unlockDay.value
  }

  datatype Start = Refused(why: Refusal) | Started(resources: Resources, action: Action)

  /** `startAdventure`'s decision and its result. */
  function StartAdventureOf(cat: Catalogue, g: GameState, day: int, elapsed: int, id: string, duration: string): Start
  {
    var a := Get(cat.adventures, id);
    if a.None? then Refused(UnknownRoute)
    else if Busy(g.heroes) then Refused(HeroBusy)
    else if Locked(day, a.value.unlockDay) then Refused(NotUnlocked)
    else
      var cost := EnergyOption(a.value, duration);
      var minutes := MinutesOption(a.value, duration);
      if cost.None? || cost.value == 0.0 || minutes.None? || minutes.value == 0 then Refused(InvalidOption)
      else if Spend(g.resources, "energy", cost.value).None? then Refused(NoEnergy)
      else Started(Spend(g.resources, "energy", cost.value).value,
                   Action("adventure", Route(id), Some(duration), minutes.value, elapsed, cost.value))
  }

  /** An adventure starts exactly when the route is known, the hero is not busy, the
      route is unlocked, the option has a cost and a length, and the energy covers the cost;
      then energy drops by exactly the cost. */
  lemma StartAdventureSpec(cat: Catalogue, g: GameState, day: int, elapsed: int, id: string, duration: string)
    ensures StartAdventureOf(cat, g, day, elapsed, id, duration).Started? <==>
      && Get(cat.adventures, id).Some? && !Busy(g.heroes)
      && !Locked(day, Get(cat.adventures, id).value.unlockDay)
      && var a := Get(cat.adventures, id).value;
         && EnergyOption(a, duration).Some? && EnergyOption(a, duration).value != 0.0
         && MinutesOption(a, duration).Some? && MinutesOption(a, duration).value != 0
         && g.resources.energy >= EnergyOption(a, duration).value
    ensures StartAdventureOf(cat, g, day, elapsed, id, duration).Started? ==>
      var s := StartAdventureOf(cat, g, day, elapsed, id, duration);
      var cost := EnergyOption(Get(cat.adventures, id).value, duration).value;
      && s.resources == g.resources.(energy := g.resources.energy - cost)
      && s.action.kind == "adventure" && s.action.target == Route(id) && s.action.energyCost == cost
      && s.action.timeRemaining == MinutesOption(Get(cat.adventures, id).value, duration).value
  {
  }

  /** The integer square root. */
  function ISqrt(n: nat): (r: nat)
    ensures r * r <= n < (r + 1) * (r + 1)
  {
    if n == 0 then 0
    else
      var s := ISqrt(n - 1);
      if (s + 1) * (s + 1) <= n then s + 1 else s
  }

  lemma ISqrtUnique(n: nat, r: nat)
    requires r * r <= n < (r + 1) * (r + 1)
    ensures ISqrt(n) == r
  {
    var s := ISqrt(n);
    if s < r {
      MulMono(s + 1, r);
    } else if r < s {
      MulMono(r + 1, s);
    }
  }

  lemma MulMono(a: nat, b: nat)
    requires a <= b
    ensures a * a <= b * b
  {
    assert a * a <= a * b <= b * b;
  }

  /** `Math.floor(10 * Math.pow(depth, 1.5))`, as `floor(sqrt(100·depth³))`. */
  function MiningCost(depth: nat): nat
  {
    ISqrt(100 * depth * depth * depth)
  }

  /** The cost is the floor of the real number `x` with `x² = 100·depth³`, that is of
      `10·depth^1.5`. */
  lemma MiningCostIsFloor(depth: nat, x: real)
    requires x >= 0.0 && x * x == (100 * depth * depth * depth) as real
    ensures x.Floor == MiningCost(depth)
  {
    var r := MiningCost(depth);
    var n := 100 * depth * depth * depth;
    var a, b := r as real, (r + 1) as real;
    assert a * a == (r * r) as real && b * b == ((r + 1) * (r + 1)) as real;
    assert a * a <= x * x < b * b;
    SquareGrows(x, a);
    SquareGrows(b, x);
  }

  /** Squares of non-negative reals keep their order. */
  lemma SquareGrows(a: real, b: real)
    requires 0.0 <= a && 0.0 <= b
    ensures a < b ==> a * a < b * b
    ensures a == b ==> a * a == b * b
  {
    if a < b {
      assert a * b - a * a == a * (b - a);
      assert a * (b - a) >= 0.0;
      assert b * b - a * b == (b - a) * b;
      assert (b - a) * b > 0.0;
    }
  }

  /** Depth 5 costs 111 energy, so 100 energy cannot pay for it. */
  lemma DepthFiveCost(r: Resources)
    requires r.energy == 100.0
    ensures MiningCost(5) == 111
    ensures Spend(r, "energy", MiningCost(5) as real).None?
  {
    ISqrtUnique(12500, 111);
  }

  /** `startMining`: refused when the hero is busy or the energy is short. */
  function StartMiningOf(g: GameState, elapsed: int, depth: nat, duration: int): Start
  {
    var cost := MiningCost(depth) as real;
    if Busy(g.heroes) then Refused(HeroBusy)
    else if Spend(g.resources, "energy", cost).None? then Refused(NoEnergy)
    else Started(Spend(g.resources, "energy", cost).value,
                 Action("mining", Depth(depth), None, duration, elapsed, cost))
  }

  lemma StartMiningSpec(g: GameState, elapsed: int, depth: nat, duration: int)
    ensures StartMiningOf(g, elapsed, depth, duration).Started? <==>
      !Busy(g.heroes) && g.resources.energy >= MiningCost(depth) as real
    ensures StartMiningOf(g, elapsed, depth, duration).Started? ==>
      var s := StartMiningOf(g, elapsed, depth, duration);
      && s.resources == g.resources.(energy := g.resources.energy - MiningCost(depth) as real)
      && s.action == Action("mining", Depth(depth), None, duration, elapsed, MiningCost(depth) as real)
  {
  }

  /** The draws and powers `completeAdventure`/`completeMining` consult. */
  datatype Draws = Draws(rare: real, boss: real, copper: real, iron: real, depthPow: real)

  datatype Reward = Reward(resources: Resources, events: seq<Event>)

  /** `completeAdventure`'s rewards: gold, the common material, a rare material on a
      non-short run when the draw is below 0.5, and a boss material on a long run when the
      second draw is below 0.25. */
  function AdventureReward(r: Resources, a: Adventure, duration: Option<string>, d: Draws): Reward
  {
    var r1 := Add(r, "gold", a.goldReward);
    LootReward(if a.commonMaterial != "" && a.commonAmount != 0.0 then Add(r1, a.commonMaterial, a.commonAmount) else r1,
               a, duration, d)
  }

  /** The rare and boss materials of an adventure, once its gold and common material are paid. */
  function LootReward(r2: Resources, a: Adventure, duration: Option<string>, d: Draws): Reward
  {
    var rare := duration != Some("short") && a.rareMaterial != "" && a.rareAmount != 0.0 && d.rare < 0.5;
    var r3 := if rare then Add(r2, a.rareMaterial, a.rareAmount) else r2;
    var boss := duration == Some("long") && a.bossMaterial != "" && a.bossAmount != 0.0 && d.boss < 0.25;
    var r4 := if boss then Add(r3, a.bossMaterial, a.bossAmount) else r3;
    Reward(r4, (if rare then [Event(AdventureEvent, Info)] else [])
             + (if boss then [Event(AdventureEvent, Major)] else [])
             + [Event(AdventureEvent, Info)])
  }

  /** `completeMining`'s rewards at a depth: `floor(50·depth^1.2)` gold, `2·depth` stone,
      copper below depth 5 never, iron below depth 10 never. */
  function MiningReward(r: Resources, depth: nat, d: Draws): Reward
  {
    OreReward(Add(Add(r, "gold", (50.0 * d.depthPow).Floor as real), "stone", (2 * depth) as real), depth, d)
  }

  /** The copper and iron of a mining trip, once its gold and stone are paid. */
  function OreReward(r1: Resources, depth: nat, d: Draws): Reward
  {
    var copper := depth >= 5 && d.copper < 0.3;
    var r2 := if copper then Add(r1, "copper", (depth / 2) as real) else r1;
    var iron := depth >= 10 && d.iron < 0.2;
    var r3 := if iron then Add(r2, "iron", (depth / 5) as real) else r2;
    Reward(r3, (if copper then [Event(MiningEvent, Info)] else [])
             + (if iron then [Event(MiningEvent, Info)] else [])
             + [Event(MiningEvent, Info)])
  }

  /** Mining pays `floor(50·depth^1.2)` gold and `2·depth` stone, and shallow mines pay no
      copper or iron. */
  lemma MiningRewardSpec(r: Resources, depth: nat, d: Draws)
    requires Get(r.materials, "stone").Some?
    ensures var m := MiningReward(r, depth, d).resources;
      && m.gold == r.gold + (50.0 * d.depthPow).Floor as real
      && Get(m.materials, "stone") == Some(Get(r.materials, "stone").value + (2 * depth) as real)
      && (depth < 5 ==> Get(m.materials, "copper") == Get(r.materials, "copper"))
      && (depth < 10 ==> Get(m.materials, "iron") == Get(r.materials, "iron"))
      && m.energy == r.energy && m.energyCap == r.energyCap
  {
  }

  // ================================================================ helpers

  /** `checkHelperDiscovery`'s chance: it grows with active plots and days, with a cap of
      0.15, 0.08 and 0.03 for the first, second and later helpers. */
  function DiscoveryChance(helpersFound: nat, activePlots: int, daysPassed: int): real
  {
    if helpersFound == 0 then
      MinReal(0.15, (MaxInt(0, activePlots - 15) as real) * 0.02 + (MaxInt(0, daysPassed - 3) as real) * 0.05)
    else if helpersFound == 1 then
      MinReal(0.08, (MaxInt(0, activePlots - 40) as real) * 0.01 + (MaxInt(0, daysPassed - 10) as real) * 0.02)
    else
      MinReal(0.03, (MaxInt(0, activePlots - 70) as real) * 0.005 + (MaxInt(0, daysPassed - 20) as real) * 0.01)
  }

  function MinReal(a: real, b: real): real { if a <= b then a else b }
  function MaxInt(a: int, b: int): int { if a >= b then a else b }

  /** The chance is never negative and never exceeds its cap. */
  lemma DiscoveryChanceBounded(helpersFound: nat, activePlots: int, daysPassed: int)
    ensures var c := DiscoveryChance(helpersFound, activePlots, daysPassed);
      && 0.0 <= c
      && (helpersFound == 0 ==> c <= 0.15)
      && (helpersFound == 1 ==> c <= 0.08)
      && (helpersFound >= 2 ==> c <= 0.03)
  {
  }

  /** No helper yet, 20 active plots and day 11 (ten days passed) give exactly the cap. */
  lemma DiscoveryAtCap()
    ensures DiscoveryChance(0, 20, 11 - 1) == 0.15
  {
  }

  /** The kind of the n-th helper found (counting from 0). */
  function HelperKind(n: nat): string
  {
    if n == 0 then "gnome" else if n == 1 then "golem"
    else if n == 2 then "sprite" else if n == 3 then "dragon" else if n == 4 then "phoenix"
    else "ancient"
  }

  function HelperName(n: nat): string
  {
    if n == 0 then "Gnome" else if n == 1 then "Stone Golem"
    else if n == 2 then "Sprite" else if n == 3 then "Dragon" else if n == 4 then "Phoenix"
    else "Ancient"
  }

  function HelperAbilities(n: nat): seq<string>
  {
    if n == 0 then ["auto_harvest"] else if n == 1 then ["auto_plant", "auto_water"]
    else ["auto_adventure", "auto_mine"]
  }

  /** The helper `discoverHelper` creates when `n` have been found. */
  function NewHelper(n: nat, elapsed: int, day: int): Helper
  {
    Helper("helper_" + NatToString(n + 1), HelperKind(n), HelperName(n), HelperAbilities(n),
           elapsed, day, 0.8 + (n as real) * 0.1, true)
  }

  /** Helpers found at different counts get different ids. */
  lemma HelperIdsDistinct(n: nat, m: nat, e1: int, d1: int, e2: int, d2: int)
    requires n != m
    ensures NewHelper(n, e1, d1).id != NewHelper(m, e2, d2).id
  {
    var s, t := NatToString(n + 1), NatToString(m + 1);
    if "helper_" + s == "helper_" + t {
      assert s == ("helper_" + s)[7..];
      assert t == ("helper_" + t)[7..];
      ParseIntOfNatToString(n + 1);
      ParseIntOfNatToString(m + 1);
    }
  }

  // ================================================================ upgrades

  /** `isUpgradeAvailable`: known, not owned, and the day has reached its unlock day. */
  predicate Available(cat: Catalogue, owned: seq<string>, day: int, id: string)
  {
    Get(cat.upgrades, id).Some? && id !in owned && !Locked(day, Get(cat.upgrades, id).value.unlockDay)
  }

  /** A material entry of the cost blocks the purchase when its amount is positive and the
      material exists with a smaller balance; a missing material never blocks. */
  predicate Blocks(materials: Obj<real>, entry: (string, real))
  {
    entry.0 != "gold" && entry.0 != "energy" && entry.1 > 0.0
    && Get(materials, entry.0).Some? && Get(materials, entry.0).value < entry.1
  }

  /** The material loop of `canAffordUpgrade`, in cost order with an early return. */
  function MaterialsCovered(materials: Obj<real>, cost: Obj<real>): bool
  {
    if cost == [] then true
    else if Blocks(materials, cost[0]) then false
    else MaterialsCovered(materials, cost[1..])
  }

  lemma {:induction false} MaterialsCoveredSpec(materials: Obj<real>, cost: Obj<real>)
    ensures MaterialsCovered(materials, cost) <==> forall i :: 0 <= i < |cost| ==> !Blocks(materials, cost[i])
  {
    if cost != [] {
      MaterialsCoveredSpec(materials, cost[1..]);
      assert forall i :: 1 <= i < |cost| ==> cost[i] == cost[1..][i - 1];
    }
  }

  /** `gold < cost.gold` and the like, where a missing cost field compares false. */
  predicate Short(balance: real, need: Option<real>)
  {
    need.Some? && balance < need.value
  }

  /** `canAffordUpgrade`. */
  predicate Affordable(r: Resources, u: UpgradeDef)
  {
    u.cost.Some?
    && !Short(r.gold, Get(u.cost.value, "gold"))
    && !Short(r.energy, Get(u.cost.value, "energy"))
    && MaterialsCovered(r.materials, u.cost.value)
  }

  /** An upgrade is affordable exactly when it has a cost, gold and energy cover it, and no
      material entry is short; a cost naming a material the player does not have at all is
      affordable. */
  lemma AffordableSpec(r: Resources, u: UpgradeDef)
    ensures Affordable(r, u) <==>
      && u.cost.Some?
      && !Short(r.gold, Get(u.cost.value, "gold"))
      && !Short(r.energy, Get(u.cost.value, "energy"))
      && forall i :: 0 <= i < |u.cost.value| ==>
           var (m, amount) := u.cost.value[i];
           m == "gold" || m == "energy" || amount <= 0.0 || Get(r.materials, m).None? || Get(r.materials, m).value >= amount
  {
    if u.cost.Some? { MaterialsCoveredSpec(r.materials, u.cost.value); }
  }

  /** The missing-material case on its own. */
  lemma MissingMaterialAffordable(r: Resources, m: string, amount: real)
    requires m != "gold" && m != "energy" && Get(r.materials, m).None?
    ensures Affordable(r, UpgradeDef("", None, Some([(m, amount)]), ""))
  {
  }

  /** One `spendResource` of the purchase, where a failed spend changes nothing. */
  function SpendOrKeep(r: Resources, kind: string, amount: Option<real>): Resources
  {
    if amount.Some? && Spend(r, kind, amount.value).Some? then Spend(r, kind, amount.value).value else r
  }

  /** The material spends of `purchaseUpgrade`, in cost order. */
  function PayMaterials(r: Resources, cost: Obj<real>): Resources
  {
    if cost == [] then r
    else
      var r0 := PayMaterials(r, cost[..|cost| - 1]);
      var e := cost[|cost| - 1];
      if e.0 != "gold" && e.0 != "energy" && e.1 > 0.0 then SpendOrKeep(r0, e.0, Some(e.1)) else r0
  }

  lemma SpendOrKeepNonNegative(r: Resources, kind: string, amount: Option<real>)
    requires NonNegative(r)
    ensures NonNegative(SpendOrKeep(r, kind, amount))
  {
    if amount.Some? && Spend(r, kind, amount.value).Some? {
      SpendKeepsNonNegative(r, kind, amount.value);
    }
  }

  /** Paying for an upgrade never drives a balance negative. */
  lemma {:induction false} PayMaterialsNonNegative(r: Resources, cost: Obj<real>)
    requires NonNegative(r)
    ensures NonNegative(PayMaterials(r, cost))
    ensures PayMaterials(r, cost).energy == r.energy && PayMaterials(r, cost).energyCap == r.energyCap
  {
    if cost != [] {
      PayMaterialsNonNegative(r, cost[..|cost| - 1]);
      var e := cost[|cost| - 1];
      SpendOrKeepNonNegative(PayMaterials(r, cost[..|cost| - 1]), e.0, Some(e.1));
    }
  }

  /** What an effect token does (`applyUpgradeEffect`). */
  datatype Effect = EnergyCap(cap: real) | WaterCap(max: real) | Carry(n: int) | TowerFloor(floor: int) | UnknownEffect

  function EffectOf(token: string): Effect
  {
    if token == "energy_cap_150" then EnergyCap(150.0)
    else if token == "energy_cap_500" then EnergyCap(500.0)
    else if token == "energy_cap_1500" then EnergyCap(1500.0)
    else if token == "energy_cap_6000" then EnergyCap(6000.0)
    else if token == "energy_cap_20000" then EnergyCap(20000.0)
    else if token == "energy_cap_100000" then EnergyCap(100000.0)
    else if token == "water_cap_60" then WaterCap(60.0)
    else if token == "water_cap_200" then WaterCap(200.0)
    else if token == "water_cap_600" then WaterCap(600.0)
    else if token == "water_cap_2000" then WaterCap(2000.0)
    else if token == "water_cap_10000" then WaterCap(10000.0)
    else if token == "carry_4_crops" then Carry(4)
    else if token == "carry_8_crops" then Carry(8)
    else if token == "carry_12_crops" then Carry(12)
    else if token == "carry_20_crops" then Carry(20)
    else if token == "carry_30_crops" then Carry(30)
    else if |token| == 13 && token[..12] == "tower_floor_" && '2' <= token[12] <= '7'
    then TowerFloor((token[12] as int) - ('0' as int))
    else UnknownEffect
  }

  function ApplyEffect(g: GameState, e: Effect): GameState
  {
    match e
    case EnergyCap(c) => g.(resources := g.resources.(energyCap := c))
    case WaterCap(m) => g.(farm := g.farm.(waterTank := g.farm.waterTank.(max := m)))
    case Carry(n) => g.(heroes := g.heroes.(carryCapacity := n))
    case TowerFloor(f) => g.(tower := g.tower.(floors := if g.tower.floors >= f then g.tower.floors else f))
    case UnknownEffect => g
  }

  /** Tower floors become `max(old, n)`, so they never decrease; every effect changes one
      field, and an unknown token changes nothing. */
  lemma ApplyEffectSpec(g: GameState, e: Effect)
    ensures ApplyEffect(g, e).tower.floors >= g.tower.floors
    ensures e.TowerFloor? ==> ApplyEffect(g, e).tower.floors == MaxInt(g.tower.floors, e.floor)
    ensures e.UnknownEffect? ==> ApplyEffect(g, e) == g
    ensures e.EnergyCap? ==> ApplyEffect(g, e) == g.(resources := g.resources.(energyCap := e.cap))
    ensures !e.EnergyCap? ==> ApplyEffect(g, e).resources == g.resources
  {
  }

  /** The tower tokens name floors 2 to 7. */
  lemma TowerTokens(k: nat)
    requires 2 <= k <= 7
    ensures EffectOf("tower_floor_" + [('0' as int + k) as char]) == TowerFloor(k)
  {
    var t := "tower_floor_" + [('0' as int + k) as char];
    assert t[..12] == "tower_floor_";
    assert |t| == 13 && t[12] == ('0' as int + k) as char;
  }

  // ================================================================ bottlenecks

  datatype BottleneckKind = EnergyStorage | EnergyGeneration | PlotExpansion | MaterialShortage
                          | HelperDiscovery | PhaseProgression
  datatype Severity = Low | Medium | High
  datatype Bottleneck = Bottleneck(kind: BottleneckKind, severity: Severity, metric: real)

  /** The materials below 5 after day 7. */
  function LowMaterials(materials: Obj<real>, day: int): (n: nat)
    ensures n <= |materials|
  {
    if materials == [] then 0
    else LowMaterials(materials[..|materials| - 1], day)
         + (if materials[|materials| - 1].1 < 5.0 && day > 7 then 1 else 0)
  }

  /** The count is the number of materials below 5, and none are counted up to day 7. */
  lemma {:induction false} LowMaterialsSpec(materials: Obj<real>, day: int)
    ensures LowMaterials(materials, day) == |set i | 0 <= i < |materials| && materials[i].1 < 5.0 && day > 7|
    ensures day <= 7 ==> LowMaterials(materials, day) == 0
  {
    if materials != [] {
      var init := materials[..|materials| - 1];
      LowMaterialsSpec(init, day);
      var p := (m: (string, real)) => m.1 < 5.0 && day > 7;
      var a := set i | 0 <= i < |init| && init[i].1 < 5.0 && day > 7;
      var b := set i | 0 <= i < |materials| && materials[i].1 < 5.0 && day > 7;
      CountSnoc(materials, init, p, a, b);
    }
  }

  /** `detectBottlenecks` on the current state. */
  function Bottlenecks(g: GameState, m: Metrics, day: int): seq<Bottleneck>
    requires g.resources.energyCap != 0.0 && m.resourceFlows.energyGenerated != -1.0 && g.farm.plots != []
  {
    Detect(ReadingsOf(g, m, day))
  }

  /** The readings `detectBottlenecks` computes before its six checks. */
  datatype Readings = Readings(energyPercent: real, wasteRatio: real, active: nat, plots: real, activeShare: real,
                               gold: real, low: nat, helpers: nat, phase: int, expected: int, day: int)

  function ReadingsOf(g: GameState, m: Metrics, day: int): Readings
    requires g.resources.energyCap != 0.0 && m.resourceFlows.energyGenerated != -1.0 && g.farm.plots != []
  {
    Readings(g.resources.energy / g.resources.energyCap * 100.0,
             m.resourceFlows.energyWasted / (m.resourceFlows.energyGenerated + 1.0),
             ActivePlots(g.farm.plots), |g.farm.plots| as real,
             (ActivePlots(g.farm.plots) as real) / (|g.farm.plots| as real), g.resources.gold,
             LowMaterials(g.resources.materials, day), |g.helpers|,
             PhaseIndex(g.currentPhase), PhaseIndex(ExpectedPhase(day)), day)
  }

  /** The six checks of `detectBottlenecks`, in order. */
  function Detect(r: Readings): seq<Bottleneck>
  {
    Part(r.wasteRatio > 0.2, Bottleneck(EnergyStorage, High, r.wasteRatio))
    + Part(r.energyPercent < 10.0 && (r.active as real) < r.plots * 0.8, Bottleneck(EnergyGeneration, Medium, r.energyPercent))
    + Part((r.active as real) >= r.plots * 0.9 && r.gold > 1000.0, Bottleneck(PlotExpansion, Medium, r.activeShare))
    + Part(r.low > 2, Bottleneck(MaterialShortage, Low, r.low as real))
    + Part(r.helpers == 0 && r.active > 15 && r.day > 5, Bottleneck(HelperDiscovery, High, r.active as real))
    + Part(r.phase < r.expected, Bottleneck(PhaseProgression, Medium, (r.expected - r.phase) as real))
  }

  function Part(c: bool, b: Bottleneck): seq<Bottleneck>
  {
    if c then [b] else []
  }

  predicate Reports(bs: seq<Bottleneck>, k: BottleneckKind)
  {
    exists i :: 0 <= i < |bs| && bs[i].kind == k
  }

  lemma ReportsPart(c: bool, b: Bottleneck, k: BottleneckKind)
    ensures Reports(Part(c, b), k) <==> c && b.kind == k
  {
    if c && b.kind == k { assert Part(c, b)[0].kind == k; }
  }

  lemma ReportsConcat(a: seq<Bottleneck>, b: seq<Bottleneck>, k: BottleneckKind)
    ensures Reports(a + b, k) <==> Reports(a, k) || Reports(b, k)
  {
    if Reports(a, k) {
      var i :| 0 <= i < |a| && a[i].kind == k;
      assert (a + b)[i].kind == k;
    }
    if Reports(b, k) {
      var i :| 0 <= i < |b| && b[i].kind == k;
      assert (a + b)[|a| + i].kind == k;
    }
    if Reports(a + b, k) {
      var i :| 0 <= i < |a + b| && (a + b)[i].kind == k;
      if i < |a| { assert a[i].kind == k; } else { assert b[i - |a|].kind == k; }
    }
  }

  /** Each bottleneck is reported exactly when its condition holds. */
  lemma BottlenecksSpec(g: GameState, m: Metrics, day: int)
    requires g.resources.energyCap != 0.0 && m.resourceFlows.energyGenerated != -1.0 && g.farm.plots != []
    ensures var bs := Bottlenecks(g, m, day);
      var active := ActivePlots(g.farm.plots) as real;
      && |bs| <= 6
      && (Reports(bs, EnergyStorage) <==> m.resourceFlows.energyWasted / (m.resourceFlows.energyGenerated + 1.0) > 0.2)
      && (Reports(bs, EnergyGeneration) <==>
            g.resources.energy / g.resources.energyCap * 100.0 < 10.0 && active < (|g.farm.plots| as real) * 0.8)
      && (Reports(bs, PlotExpansion) <==> active >= (|g.farm.plots| as real) * 0.9 && g.resources.gold > 1000.0)
      && (Reports(bs, MaterialShortage) <==> LowMaterials(g.resources.materials, day) > 2)
      && (Reports(bs, HelperDiscovery) <==> |g.helpers| == 0 && active > 15.0 && day > 5)
      && (Reports(bs, PhaseProgression) <==> PhaseIndex(g.currentPhase) < PhaseIndex(ExpectedPhase(day)))
  {
    DetectSpec(ReadingsOf(g, m, day));
  }

  /** Each of the six checks reports its bottleneck exactly when its condition holds. */
  lemma DetectSpec(r: Readings)
    ensures var bs := Detect(r);
      && |bs| <= 6
      && (Reports(bs, EnergyStorage) <==> r.wasteRatio > 0.2)
      && (Reports(bs, EnergyGeneration) <==> r.energyPercent < 10.0 && (r.active as real) < r.plots * 0.8)
      && (Reports(bs, PlotExpansion) <==> (r.active as real) >= r.plots * 0.9 && r.gold > 1000.0)
      && (Reports(bs, MaterialShortage) <==> r.low > 2)
      && (Reports(bs, HelperDiscovery) <==> r.helpers == 0 && r.active > 15 && r.day > 5)
      && (Reports(bs, PhaseProgression) <==> r.phase < r.expected)
  {
    DetectReports(r, EnergyStorage);
    DetectReports(r, EnergyGeneration);
    DetectReports(r, PlotExpansion);
    DetectReports(r, MaterialShortage);
    DetectReports(r, HelperDiscovery);
    DetectReports(r, PhaseProgression);
  }

  /** The condition of the check that reports bottlenecks of kind `k`. */
  predicate Holds(r: Readings, k: BottleneckKind)
  {
    match k
    case EnergyStorage => r.wasteRatio > 0.2
    case EnergyGeneration => r.energyPercent < 10.0 && (r.active as real) < r.plots * 0.8
    case PlotExpansion => (r.active as real) >= r.plots * 0.9 && r.gold > 1000.0
    case MaterialShortage => r.low > 2
    case HelperDiscovery => r.helpers == 0 && r.active > 15 && r.day > 5
    case PhaseProgression => r.phase < r.expected
  }

  /** A kind is reported exactly when its check's condition holds. */
  lemma DetectReports(r: Readings, k: BottleneckKind)
    ensures |Detect(r)| <= 6 && (Reports(Detect(r), k) <==> Holds(r, k))
  {
    SixParts(Detect(r), r.wasteRatio > 0.2, r.energyPercent < 10.0 && (r.active as real) < r.plots * 0.8,
             (r.active as real) >= r.plots * 0.9 && r.gold > 1000.0, r.low > 2,
             r.helpers == 0 && r.active > 15 && r.day > 5, r.phase < r.expected,
             Bottleneck(EnergyStorage, High, r.wasteRatio), Bottleneck(EnergyGeneration, Medium, r.energyPercent),
             Bottleneck(PlotExpansion, Medium, r.activeShare), Bottleneck(MaterialShortage, Low, r.low as real),
             Bottleneck(HelperDiscovery, High, r.active as real),
             Bottleneck(PhaseProgression, Medium, (r.expected - r.phase) as real), k);
  }

  lemma SixParts(bs: seq<Bottleneck>, c1: bool, c2: bool, c3: bool, c4: bool, c5: bool, c6: bool,
                 b1: Bottleneck, b2: Bottleneck, b3: Bottleneck, b4: Bottleneck, b5: Bottleneck, b6: Bottleneck,
                 k: BottleneckKind)
    requires bs == Part(c1, b1) + Part(c2, b2) + Part(c3, b3) + Part(c4, b4) + Part(c5, b5) + Part(c6, b6)
    ensures && |bs| <= 6
      && (Reports(bs, k) <==> (c1 && b1.kind == k) || (c2 && b2.kind == k) || (c3 && b3.kind == k)
                              || (c4 && b4.kind == k) || (c5 && b5.kind == k) || (c6 && b6.kind == k))
  {
    var p1, p2, p3, p4, p5, p6 := Part(c1, b1), Part(c2, b2), Part(c3, b3), Part(c4, b4), Part(c5, b5), Part(c6, b6);
    ReportsConcat(p1, p2, k);
    ReportsConcat(p1 + p2, p3, k);
    ReportsConcat(p1 + p2 + p3, p4, k);
    ReportsConcat(p1 + p2 + p3 + p4, p5, k);
    ReportsConcat(p1 + p2 + p3 + p4 + p5, p6, k);
    ReportsPart(c1, b1, k);
    ReportsPart(c2, b2, k);
    ReportsPart(c3, b3, k);
    ReportsPart(c4, b4, k);
    ReportsPart(c5, b5, k);
    ReportsPart(c6, b6, k);
  }

  // ================================================================ the store as written

  /** The functions the game-values store exposes (its returned object); there is no
      `getUpgrade` among them, and no upgrade data either. */
  const GameValuesFunctions: seq<string> := [
    "loadGameValues", "validateGameValues", "getCrop", "getAdventure", "saveConfiguration",
    "parseMaterials", "validateMaterialsFormat", "validateEnemyTypesFormat", "updateItemValue",
    "updateItem", "addItem", "deleteItem", "saveCategoryToServer", "exportItemsAsCSV",
    "exportCategoryAsCSV", "downloadCSV", "resetToDefaults", "exportAllAsCSV", "importFromCSV",
    "saveConfigurationSet", "getDataRef", "updateUpgrade", "deleteUpgrade", "exportUpgradeTree"]

  /** A call that either returns or throws a TypeError. */
  datatype Call = Threw | Returned(result: bool)

  /** `isUpgradeAvailable` as written: it first calls `gameValues.getUpgrade(upgradeId)`. */
  function IsUpgradeAvailableAsWritten(cat: Catalogue, owned: seq<string>, day: int, id: string): Call
  {
    if "getUpgrade" in GameValuesFunctions then Returned(Available(cat, owned, day, id)) else Threw
  }

  /** Every call of `isUpgradeAvailable` (and so of `purchaseUpgrade`) throws, whatever the
      upgrade id, because the store has no `getUpgrade`. */
  lemma UpgradeLookupThrows(cat: Catalogue, owned: seq<string>, day: int, id: string)
    ensures IsUpgradeAvailableAsWritten(cat, owned, day, id) == Threw
  {
    assert "getUpgrade" !in GameValuesFunctions;
  }

  // ================================================================ the store

  function RefusalLevel(why: Refusal): Level
  {
    match why
    case UnknownRoute => Failure
    case InvalidOption => Failure
    case _ => Warning
  }

  /** The events `applyUpgradeEffect` logs. */
  function EffectEvents(token: string): seq<Event>
  {
    (if EffectOf(token).UnknownEffect? then [Event(UpgradeEvent, Warning)] else []) + [Event(UpgradeEvent, Info)]
  }

  /** The resources after paying an upgrade's cost: gold, then energy, then each positive
      material entry, where a spend that fails changes nothing. */
  function Paid(r: Resources, cost: Obj<real>): Resources
  {
    PayMaterials(SpendOrKeep(SpendOrKeep(r, "gold", Get(cost, "gold")), "energy", Get(cost, "energy")), cost)
  }

  /** The energy the purchase spends (only the energy spend counts towards `energySpent`). */
  function EnergyPaid(r: Resources, cost: Obj<real>): real
  {
    var r1 := SpendOrKeep(r, "gold", Get(cost, "gold"));
    var e := Get(cost, "energy");
    if e.Some? && Spend(r1, "energy", e.value).Some? then e.value else 0.0
  }

  /** The reward for completing the current adventure (none when its route is gone). */
  function AdventureOutcome(g: GameState, cat: Catalogue, a: Action, d: Draws): Reward
  {
    var route := if a.target.Route? then Get(cat.adventures, a.target.id) else None;
    if route.Some? then AdventureReward(g.resources, route.value, a.duration, d) else Reward(g.resources, [])
  }

  /** The reward for completing the current mining trip. */
  function MiningOutcome(g: GameState, a: Action, d: Draws): Reward
  {
    MiningReward(g.resources, if a.target.Depth? then a.target.depth else 0, d)
  }

  function Home(g: GameState, r: Resources): GameState
  {
    g.(resources := r, heroes := g.heroes.(currentAction := None, currentLocation := "home"))
  }

  lemma CopiesSnoc(e: Event, n: nat)
    ensures Copies(e, n) + [e] == Copies(e, n + 1)
  {
  }

  class SimulationStore {
    const catalogue: Catalogue
    var isRunning: bool
    var isPaused: bool
    var currentDay: int
    var currentHour: int
    var currentMinute: int
    var gameState: GameState
    var eventLog: seq<Event>
    var metrics: Metrics

    /** A fresh store: the initial declarations of the store's state. */
    constructor (cat: Catalogue)
      ensures catalogue == cat && gameState == InitialGameState() && metrics == InitialMetrics()
      ensures eventLog == [] && currentDay == 1 && currentHour == 8 && currentMinute == 0
      ensures !isRunning && !isPaused
    {
      catalogue := cat;
      isRunning, isPaused := false, false;
      currentDay, currentHour, currentMinute := 1, 8, 0;
      gameState := InitialGameState();
      eventLog := [];
      metrics := InitialMetrics();
    }

    /** `resetSimulation`: the clock, the game state and the metrics go back to their initial
        values, the loop is stopped, and the log holds only the reset event. */
    method ResetSimulation()
      modifies this`currentDay, this`currentHour, this`currentMinute, this`gameState
      modifies this`eventLog, this`metrics, this`isRunning, this`isPaused
      ensures gameState == InitialGameState() && currentDay == 1 && currentHour == 8 && currentMinute == 0
      ensures !isRunning && !isPaused
      ensures eventLog == [Event(SimulationEvent, Info)]
      ensures metrics == InitialMetrics().(eventsLogged := 1)
    {
      currentDay, currentHour, currentMinute := 1, 8, 0;
      gameState := InitialGameState();
      eventLog := [];
      metrics := InitialMetrics();
      isRunning, isPaused := false, false;
      LogEvent(SimulationEvent, Info);
    }

    /** The log grew by `es` in order, and the count of logged events with it. */
    twostate predicate Logged(es: seq<Event>)
      reads this
    {
      eventLog == Appended(old(eventLog), es) && metrics.eventsLogged == old(metrics.eventsLogged) + |es|
    }

    /** `logEvent` */
    method LogEvent(category: Category, level: Level)
      modifies this`eventLog, this`metrics
      ensures Logged([Event(category, level)])
      ensures eventLog == TrimLog(old(eventLog) + [Event(category, level)])
      ensures metrics == old(metrics).(eventsLogged := old(metrics.eventsLogged) + 1)
    {
      eventLog := TrimLog(eventLog + [Event(category, level)]);
      metrics := metrics.(eventsLogged := metrics.eventsLogged + 1);
    }

    /** `advanceTime(minutes)`: the clock moves by exactly `minutes`, with the minute and
        the hour carried into range, and the game time mirrors it. */
    method AdvanceTime(minutes: int)
      modifies this`currentMinute, this`currentHour, this`currentDay, this`gameState, this`metrics
      ensures MinuteOfGame(currentDay, currentHour, currentMinute)
              == MinuteOfGame(old(currentDay), old(currentHour), old(currentMinute)) + minutes
      ensures old(currentMinute) + minutes >= 0 ==> 0 <= currentMinute < 60
      ensures old(currentMinute) + minutes >= 0 && old(currentHour) >= 0 ==> 0 <= currentHour < 24
      ensures currentDay >= old(currentDay)
      ensures gameState == old(gameState).(time := Clock(currentDay, currentHour, currentMinute))
      ensures metrics == old(metrics).(gameTimeElapsed := old(metrics.gameTimeElapsed) + minutes)
    {
      currentMinute := currentMinute + minutes;
      while currentMinute >= 60
        invariant currentDay == old(currentDay)
        invariant currentHour * 60 + currentMinute == old(currentHour) * 60 + old(currentMinute) + minutes
        invariant old(currentMinute) + minutes >= 0 ==> currentMinute >= 0
        invariant currentHour >= old(currentHour)
        invariant gameState == old(gameState) && metrics == old(metrics)
        decreases currentMinute
      {
        currentMinute := currentMinute - 60;
        currentHour := currentHour + 1;
      }
      while currentHour >= 24
        invariant MinuteOfGame(currentDay, currentHour, currentMinute)
                  == MinuteOfGame(old(currentDay), old(currentHour), old(currentMinute)) + minutes
        invariant old(currentMinute) + minutes >= 0 ==> 0 <= currentMinute < 60
        invariant old(currentMinute) + minutes >= 0 && old(currentHour) >= 0 ==> currentHour >= 0
        invariant currentDay >= old(currentDay)
        invariant gameState == old(gameState) && metrics == old(metrics)
        decreases currentHour
      {
        currentHour := currentHour - 24;
        currentDay := currentDay + 1;
      }
      gameState := gameState.(time := Clock(currentDay, currentHour, currentMinute));
      metrics := metrics.(gameTimeElapsed := metrics.gameTimeElapsed + minutes);
    }

    /** One plot of the growth pass: grown in place, logged if it ripens. */
    method GrowPlotAt(i: nat, elapsed: int)
      requires i < |gameState.farm.plots|
      modifies this`gameState, this`eventLog, this`metrics
      ensures var p := old(gameState.farm.plots[i]);
        && gameState == old(gameState).(farm := old(gameState.farm).(
             plots := old(gameState.farm.plots)[i := Grown(p, elapsed, catalogue)]))
        && Logged(if Ripens(p, elapsed, catalogue) then [Event(FarmEvent, Info)] else [])
      ensures metrics == old(metrics).(eventsLogged := metrics.eventsLogged)
    {
      var p := gameState.farm.plots[i];
      var q := Grown(p, elapsed, catalogue);
      gameState := gameState.(farm := gameState.farm.(plots := gameState.farm.plots[i := q]));
      if q.growthStage == 4 && p.growthStage < 4 {
        LogEvent(FarmEvent, Info);
      }
    }

    /** `processFarmGrowth`: every plot is grown in place, one event is logged per plot that
        ripens, and a summary event when any did. */
    method ProcessFarmGrowth()
      modifies this`gameState, this`eventLog, this`metrics
      ensures |gameState.farm.plots| == |old(gameState.farm.plots)|
      ensures forall i :: 0 <= i < |old(gameState.farm.plots)| ==>
        gameState.farm.plots[i] == Grown(old(gameState.farm.plots)[i], old(metrics.gameTimeElapsed), catalogue)
      ensures gameState == old(gameState).(farm := old(gameState.farm).(plots := gameState.farm.plots))
      ensures Logged(GrowthEvents(old(gameState.farm.plots), old(metrics.gameTimeElapsed), catalogue))
      ensures metrics == old(metrics).(eventsLogged := metrics.eventsLogged)
    {
      var elapsed := metrics.gameTimeElapsed;
      var before := gameState.farm.plots;
      ghost var log0, g0, m0 := eventLog, gameState, metrics;
      var e := Event(FarmEvent, Info);
      assert before[..0] == [];
      var i := 0;
      while i < |before|
        invariant i <= |before| && Grew(before, elapsed, i, log0, g0, m0)
      {
        GrowStep(before, elapsed, i, log0, g0, m0);
        i := i + 1;
      }
      assert before[..i] == before;
      var k := RipeningCount(before, elapsed, catalogue);
      if k > 0 {
        LogEvent(FarmEvent, Info);
        AppendedSnoc(log0, Copies(e, k), e);
        CopiesSnoc(e, k);
      }
    }

    /** The growth pass after its first `i` plots: those are grown, the rest untouched, and one
        event is logged per plot that ripened. */
    ghost predicate Grew(before: seq<Plot>, elapsed: int, i: nat, log0: seq<Event>, g0: GameState, m0: Metrics)
      reads this
    {
      && i <= |before| && |gameState.farm.plots| == |before|
      && (forall j :: 0 <= j < i ==> gameState.farm.plots[j] == Grown(before[j], elapsed, catalogue))
      && (forall j :: i <= j < |before| ==> gameState.farm.plots[j] == before[j])
      && gameState == g0.(farm := g0.farm.(plots := gameState.farm.plots))
      && eventLog == Appended(log0, Copies(Event(FarmEvent, Info), RipeningCount(before[..i], elapsed, catalogue)))
      && metrics == m0.(eventsLogged := m0.eventsLogged + RipeningCount(before[..i], elapsed, catalogue))
    }

    /** One more plot of the growth pass. */
    method GrowStep(before: seq<Plot>, elapsed: int, i: nat, ghost log0: seq<Event>, ghost g0: GameState, ghost m0: Metrics)
      requires Grew(before, elapsed, i, log0, g0, m0) && i < |before|
      modifies this`gameState, this`eventLog, this`metrics
      ensures Grew(before, elapsed, i + 1, log0, g0, m0)
    {
      var e := Event(FarmEvent, Info);
      ghost var n := RipeningCount(before[..i], elapsed, catalogue);
      ghost var step := if Ripens(before[i], elapsed, catalogue) then [e] else [];
      GrowPlotAt(i, elapsed);
      assert before[..i + 1][..i] == before[..i];
      AppendedConcat(log0, Copies(e, n), step);
      CopiesSnoc(e, n);
      assert Copies(e, n) + step == Copies(e, RipeningCount(before[..i + 1], elapsed, catalogue));
    }

    /** `processEnergyGeneration`: the mature plots' rates are summed and, when positive,
        added to energy and to the generated total. */
    method ProcessEnergyGeneration()
      modifies this`gameState, this`metrics
      ensures var t := TotalRate(old(gameState.farm.plots), catalogue);
        && (t > 0.0 ==>
              && gameState == old(gameState).(resources := Add(old(gameState.resources), "energy", t))
              && metrics == old(metrics).(resourceFlows := old(metrics.resourceFlows).(
                   energyGenerated := old(metrics.resourceFlows.energyGenerated) + t)))
        && (t <= 0.0 ==> gameState == old(gameState) && metrics == old(metrics))
    {
      var total := 0.0;
      var plots := gameState.farm.plots;
      var i := 0;
      while i < |plots|
        invariant 0 <= i <= |plots|
        invariant total == TotalRate(plots[..i], catalogue)
      {
        assert plots[..i + 1][..i] == plots[..i];
        total := total + Rate(plots[i], catalogue);
        i := i + 1;
      }
      assert plots[..i] == plots;
      if total > 0.0 {
        AddResource("energy", total);
        metrics := metrics.(resourceFlows := metrics.resourceFlows.(
          energyGenerated := metrics.resourceFlows.energyGenerated + total));
      }
    }

    /** `processResourceCaps`: energy is clamped to the cap and the excess counted as
        wasted; the overflow is logged on minutes divisible by ten. */
    method ProcessResourceCaps()
      modifies this`gameState, this`eventLog, this`metrics
      ensures var c := CapEnergy(old(gameState.resources));
        && gameState == old(gameState).(resources := c.resources)
        && gameState.resources.energy <= gameState.resources.energyCap
        && metrics == old(metrics).(eventsLogged := metrics.eventsLogged, resourceFlows :=
             old(metrics.resourceFlows).(energyWasted := old(metrics.resourceFlows.energyWasted) + c.wasted))
        && Logged(if c.wasted > 0.0 && currentMinute % 10 == 0 then [Event(ResourceEvent, Warning)] else [])
    {
      var overflow := gameState.resources.energy - gameState.resources.energyCap;
      if overflow > 0.0 {
        gameState := gameState.(resources := gameState.resources.(energy := gameState.resources.energyCap));
        metrics := metrics.(resourceFlows := metrics.resourceFlows.(
          energyWasted := metrics.resourceFlows.energyWasted + overflow));
        if currentMinute % 10 == 0 {
          LogEvent(ResourceEvent, Warning);
        }
      }
    }

    /** `checkPhaseProgression`: at most one step along the phases; on a change the old
        phase's entry in `phaseDurations` is set to the elapsed game time so far. */
    method CheckPhaseProgression()
      modifies this`gameState, this`eventLog, this`metrics
      ensures var before := old(gameState.currentPhase);
        var next := NextPhase(before, ActivePlots(old(gameState.farm.plots)), currentDay);
        && gameState == old(gameState).(currentPhase := next)
        && (next == before ==> metrics == old(metrics) && eventLog == old(eventLog))
        && (next != before ==>
              && metrics == old(metrics).(eventsLogged := old(metrics.eventsLogged) + 1,
                   phaseDurations := Put(old(metrics.phaseDurations), before, old(metrics.gameTimeElapsed)))
              && eventLog == TrimLog(old(eventLog) + [Event(ProgressionEvent, Major)]))
    {
      var current := gameState.currentPhase;
      var next := NextPhase(current, ActivePlots(gameState.farm.plots), currentDay);
      if next != current {
        gameState := gameState.(currentPhase := next);
        LogEvent(ProgressionEvent, Major);
        if Get(metrics.phaseDurations, current).None? || Get(metrics.phaseDurations, current).value == 0 {
          metrics := metrics.(phaseDurations := Put(metrics.phaseDurations, current, 0));
        }
        metrics := metrics.(phaseDurations := Put(metrics.phaseDurations, current, metrics.gameTimeElapsed));
        PutPut(old(metrics.phaseDurations), current, 0, old(metrics.gameTimeElapsed));
      }
    }

    /** `addResource` */
    method AddResource(kind: string, amount: real)
      modifies this`gameState
      ensures gameState == old(gameState).(resources := Add(old(gameState.resources), kind, amount))
    {
      gameState := gameState.(resources := Add(gameState.resources, kind, amount));
    }

    /** `spendResource`: true exactly when the balance covers the amount; energy spent is
        tracked. */
    method SpendResource(kind: string, amount: real) returns (ok: bool)
      modifies this`gameState, this`metrics
      ensures ok == Spend(old(gameState.resources), kind, amount).Some?
      ensures ok ==> gameState == old(gameState).(resources := Spend(old(gameState.resources), kind, amount).value)
      ensures !ok ==> gameState == old(gameState)
      ensures metrics == old(metrics).(resourceFlows := old(metrics.resourceFlows).(
        energySpent := old(metrics.resourceFlows.energySpent) + (if ok && kind == "energy" then amount else 0.0)))
    {
      var s := Spend(gameState.resources, kind, amount);
      ok := s.Some?;
      if ok {
        gameState := gameState.(resources := s.value);
        if kind == "energy" {
          metrics := metrics.(resourceFlows := metrics.resourceFlows.(
            energySpent := metrics.resourceFlows.energySpent + amount));
        }
      }
    }

    /** `plantCrop` */
    method PlantCrop(plotId: int, cropType: string) returns (ok: bool)
      modifies this`gameState, this`eventLog, this`metrics
      ensures var r := Plant(old(gameState.farm.plots), plotId, cropType, catalogue, old(metrics.gameTimeElapsed));
        && ok == r.Some?
        && (ok ==> gameState == old(gameState).(farm := old(gameState.farm).(plots := r.value)))
        && (!ok ==> gameState == old(gameState))
      ensures Logged(if ok then [Event(FarmEvent, Info)] else [])
      ensures metrics == old(metrics).(eventsLogged := metrics.eventsLogged)
    {
      var r := Plant(gameState.farm.plots, plotId, cropType, catalogue, metrics.gameTimeElapsed);
      ok := r.Some?;
      if ok {
        gameState := gameState.(farm := gameState.farm.(plots := r.value));
        LogEvent(FarmEvent, Info);
      }
    }

    /** `harvestCrop` */
    method HarvestCrop(plotId: int) returns (ok: bool)
      modifies this`gameState, this`eventLog, this`metrics
      ensures var h := HarvestPlot(old(gameState.farm.plots), plotId, catalogue);
        && ok == h.Harvested?
        && (ok ==> gameState == old(gameState).(
              resources := if h.energy.Some? then Add(old(gameState.resources), "energy", h.energy.value)
                           else old(gameState.resources),
              farm := old(gameState.farm).(plots := h.plots)))
        && (!ok ==> gameState == old(gameState))
        && Logged(if ok && h.energy.Some? then [Event(FarmEvent, Info)] else [])
      ensures metrics == old(metrics).(eventsLogged := metrics.eventsLogged)
    {
      var h := HarvestPlot(gameState.farm.plots, plotId, catalogue);
      ok := h.Harvested?;
      if ok {
        if h.energy.Some? {
          AddResource("energy", h.energy.value);
          LogEvent(FarmEvent, Info);
        }
        gameState := gameState.(farm := gameState.farm.(plots := h.plots));
      }
    }

    /** `startAdventure(adventureId, duration)`: refused, logging why and changing nothing
        else, on an unknown route, a busy hero, a locked route, an option without cost or
        length, or too little energy; otherwise the energy is spent and the action set. */
    method StartAdventure(id: string, duration: string) returns (ok: bool)
      modifies this`gameState, this`eventLog, this`metrics
      ensures var s := StartAdventureOf(catalogue, old(gameState), currentDay, old(metrics.gameTimeElapsed), id, duration);
        && ok == s.Started?
        && (ok ==>
              && gameState == old(gameState).(resources := s.resources, heroes := old(gameState.heroes).(
                   currentAction := Some(s.action), currentLocation := "adventure"))
              && metrics == old(metrics).(eventsLogged := old(metrics.eventsLogged) + 1, resourceFlows :=
                   old(metrics.resourceFlows).(energySpent := old(metrics.resourceFlows.energySpent) + s.action.energyCost))
              && eventLog == TrimLog(old(eventLog) + [Event(AdventureEvent, Info)]))
        && (!ok ==>
              && gameState == old(gameState)
              && metrics == old(metrics).(eventsLogged := old(metrics.eventsLogged) + 1)
              && eventLog == TrimLog(old(eventLog) + [Event(AdventureEvent, RefusalLevel(s.why))]))
    {
      var a := Get(catalogue.adventures, id);
      if a.None? {
        LogEvent(AdventureEvent, Failure);
        return false;
      }
      if Busy(gameState.heroes) {
        LogEvent(AdventureEvent, Warning);
        return false;
      }
      if Locked(currentDay, a.value.unlockDay) {
        LogEvent(AdventureEvent, Warning);
        return false;
      }
      var cost := EnergyOption(a.value, duration);
      var minutes := MinutesOption(a.value, duration);
      if cost.None? || cost.value == 0.0 || minutes.None? || minutes.value == 0 {
        LogEvent(AdventureEvent, Failure);
        return false;
      }
      ok := SpendResource("energy", cost.value);
      if !ok {
        LogEvent(AdventureEvent, Warning);
        return false;
      }
      gameState := gameState.(heroes := gameState.heroes.(
        currentAction := Some(Action("adventure", Route(id), Some(duration), minutes.value, metrics.gameTimeElapsed, cost.value)),
        currentLocation := "adventure"));
      LogEvent(AdventureEvent, Info);
    }

    /** `completeAdventure(draws)`: pays the route's rewards and sends the hero home; nothing
        happens unless the current action is an adventure. */
    method CompleteAdventure(d: Draws)
      modifies this`gameState, this`eventLog, this`metrics
      ensures var a := old(gameState.heroes.currentAction);
        && (a.None? || a.value.kind != "adventure" ==>
              gameState == old(gameState) && eventLog == old(eventLog) && metrics == old(metrics))
        && (a.Some? && a.value.kind == "adventure" ==>
              var w := AdventureOutcome(old(gameState), catalogue, a.value, d);
              && gameState == Home(old(gameState), w.resources)
              && Logged(w.events)
              && metrics == old(metrics).(eventsLogged := metrics.eventsLogged))
    {
      var action := gameState.heroes.currentAction;
      if action.None? || action.value.kind != "adventure" {
        return;
      }
      var route := if action.value.target.Route? then Get(catalogue.adventures, action.value.target.id) else None;
      if route.Some? {
        var adv := route.value;
        AddResource("gold", adv.goldReward);
        if adv.commonMaterial != "" && adv.commonAmount != 0.0 {
          AddResource(adv.commonMaterial, adv.commonAmount);
        }
        Loot(adv, action.value.duration, d);
      }
      gameState := gameState.(heroes := gameState.heroes.(currentAction := None, currentLocation := "home"));
    }

    /** The rare and boss materials of an adventure and the events it logs. */
    method Loot(adv: Adventure, duration: Option<string>, d: Draws)
      modifies this`gameState, this`eventLog, this`metrics
      ensures var w := LootReward(old(gameState.resources), adv, duration, d);
        && gameState == old(gameState).(resources := w.resources)
        && Logged(w.events)
        && metrics == old(metrics).(eventsLogged := metrics.eventsLogged)
    {
      if duration != Some("short") && adv.rareMaterial != "" && adv.rareAmount != 0.0 {
        if d.rare < 0.5 {
          AddResource(adv.rareMaterial, adv.rareAmount);
          LogEvent(AdventureEvent, Info);
        }
      }
      if duration == Some("long") && adv.bossMaterial != "" && adv.bossAmount != 0.0 {
        if d.boss < 0.25 {
          AddResource(adv.bossMaterial, adv.bossAmount);
          LogEvent(AdventureEvent, Major);
        }
      }
      LogEvent(AdventureEvent, Info);
    }

    /** `startMining(depth, duration)`: refused when the hero is busy or the energy is short,
        changing nothing beyond the log; otherwise `MiningCost(depth)` energy is spent. */
    method StartMining(depth: nat, duration: int) returns (ok: bool)
      modifies this`gameState, this`eventLog, this`metrics
      ensures var s := StartMiningOf(old(gameState), old(metrics.gameTimeElapsed), depth, duration);
        && ok == s.Started?
        && (ok ==>
              && gameState == old(gameState).(resources := s.resources, heroes := old(gameState.heroes).(
                   currentAction := Some(s.action), currentLocation := "mine"))
              && metrics == old(metrics).(eventsLogged := old(metrics.eventsLogged) + 1, resourceFlows :=
                   old(metrics.resourceFlows).(energySpent := old(metrics.resourceFlows.energySpent) + s.action.energyCost))
              && eventLog == TrimLog(old(eventLog) + [Event(MiningEvent, Info)]))
        && (!ok ==>
              && gameState == old(gameState)
              && metrics == old(metrics).(eventsLogged := old(metrics.eventsLogged) + 1)
              && eventLog == TrimLog(old(eventLog) + [Event(MiningEvent, Warning)]))
    {
      if Busy(gameState.heroes) {
        LogEvent(MiningEvent, Warning);
        return false;
      }
      var cost := MiningCost(depth) as real;
      ok := SpendResource("energy", cost);
      if !ok {
        LogEvent(MiningEvent, Warning);
        return false;
      }
      gameState := gameState.(heroes := gameState.heroes.(
        currentAction := Some(Action("mining", Depth(depth), None, duration, metrics.gameTimeElapsed, cost)),
        currentLocation := "mine"));
      LogEvent(MiningEvent, Info);
    }

    /** `completeMining(draws)`: pays the depth's rewards and sends the hero home. */
    method CompleteMining(d: Draws)
      modifies this`gameState, this`eventLog, this`metrics
      ensures var a := old(gameState.heroes.currentAction);
        && (a.None? || a.value.kind != "mining" ==>
              gameState == old(gameState) && eventLog == old(eventLog) && metrics == old(metrics))
        && (a.Some? && a.value.kind == "mining" ==>
              var w := MiningOutcome(old(gameState), a.value, d);
              && gameState == Home(old(gameState), w.resources)
              && Logged(w.events)
              && metrics == old(metrics).(eventsLogged := metrics.eventsLogged))
    {
      var action := gameState.heroes.currentAction;
      if action.None? || action.value.kind != "mining" {
        return;
      }
      var depth := if action.value.target.Depth? then action.value.target.depth else 0;
      PayMining(depth, d);
      MineOre(depth, d);
      gameState := gameState.(heroes := gameState.heroes.(currentAction := None, currentLocation := "home"));
    }

    /** The gold and stone every mining trip pays. */
    method PayMining(depth: nat, d: Draws)
      modifies this`gameState
      ensures gameState == old(gameState).(resources :=
        Add(Add(old(gameState.resources), "gold", (50.0 * d.depthPow).Floor as real), "stone", (2 * depth) as real))
    {
      AddResource("gold", (50.0 * d.depthPow).Floor as real);
      AddResource("stone", (2 * depth) as real);
    }

    /** The copper and iron of a mining trip and the events it logs. */
    method MineOre(depth: nat, d: Draws)
      modifies this`gameState, this`eventLog, this`metrics
      ensures var w := OreReward(old(gameState.resources), depth, d);
        && gameState == old(gameState).(resources := w.resources)
        && Logged(w.events)
        && metrics == old(metrics).(eventsLogged := metrics.eventsLogged)
    {
      if depth >= 5 && d.copper < 0.3 {
        AddResource("copper", (depth / 2) as real);
        LogEvent(MiningEvent, Info);
      }
      if depth >= 10 && d.iron < 0.2 {
        AddResource("iron", (depth / 5) as real);
        LogEvent(MiningEvent, Info);
      }
      LogEvent(MiningEvent, Info);
    }

    /** `processOngoingActions(draws)`: the current action loses a minute and, once none is
        left, an adventure or a mining trip completes; other actions stay. */
    method ProcessOngoingActions(d: Draws)
      modifies this`gameState, this`eventLog, this`metrics
      ensures var a := old(gameState.heroes.currentAction);
        && (a.None? ==> gameState == old(gameState) && eventLog == old(eventLog) && metrics == old(metrics))
        && (a.Some? ==>
              var b := a.value.(timeRemaining := a.value.timeRemaining - 1);
              var g := old(gameState).(heroes := old(gameState.heroes).(currentAction := Some(b)));
              && (b.timeRemaining > 0 || (b.kind != "adventure" && b.kind != "mining") ==>
                    gameState == g && eventLog == old(eventLog) && metrics == old(metrics))
              && (b.timeRemaining <= 0 && b.kind == "adventure" ==>
                    gameState == Home(g, AdventureOutcome(g, catalogue, b, d).resources)
                    && Logged(AdventureOutcome(g, catalogue, b, d).events))
              && (b.timeRemaining <= 0 && b.kind == "mining" ==>
                    gameState == Home(g, MiningOutcome(g, b, d).resources)
                    && Logged(MiningOutcome(g, b, d).events)))
    {
      var action := gameState.heroes.currentAction;
      if action.None? {
        return;
      }
      var b := action.value.(timeRemaining := action.value.timeRemaining - 1);
      gameState := gameState.(heroes := gameState.heroes.(currentAction := Some(b)));
      if b.timeRemaining <= 0 {
        if b.kind == "adventure" {
          CompleteAdventure(d);
        } else if b.kind == "mining" {
          CompleteMining(d);
        }
      }
    }

    /** `checkHelperDiscovery(draw)`: a helper is found exactly when the draw is below the
        discovery chance. */
    method CheckHelperDiscovery(draw: real) returns (found: bool)
      modifies this`gameState, this`eventLog, this`metrics
      ensures found == (draw < DiscoveryChance(|old(gameState.helpers)|, ActivePlots(old(gameState.farm.plots)), currentDay - 1))
      ensures found ==> gameState == old(gameState).(helpers := old(gameState.helpers)
                          + [NewHelper(|old(gameState.helpers)|, old(metrics.gameTimeElapsed), currentDay)])
      ensures !found ==> gameState == old(gameState) && eventLog == old(eventLog) && metrics == old(metrics)
    {
      var chance := DiscoveryChance(|gameState.helpers|, ActivePlots(gameState.farm.plots), currentDay - 1);
      if draw < chance {
        DiscoverHelper();
        return true;
      }
      return false;
    }

    /** `discoverHelper`: exactly one helper is appended, of the kind due for the number
        found so far. */
    method DiscoverHelper()
      modifies this`gameState, this`eventLog, this`metrics
      ensures gameState == old(gameState).(helpers := old(gameState.helpers)
                + [NewHelper(|old(gameState.helpers)|, old(metrics.gameTimeElapsed), currentDay)])
      ensures Logged([Event(DiscoveryEvent, Major), Event(DiscoveryEvent, Info)])
      ensures metrics == old(metrics).(eventsLogged := old(metrics.eventsLogged) + 2,
                screenTime := old(metrics.screenTime).(home := old(metrics.screenTime.home) + 120.0))
    {
      var helper := NewHelper(|gameState.helpers|, metrics.gameTimeElapsed, currentDay);
      gameState := gameState.(helpers := gameState.helpers + [helper]);
      LogEvent(DiscoveryEvent, Major);
      LogEvent(DiscoveryEvent, Info);
      metrics := metrics.(screenTime := metrics.screenTime.(home := metrics.screenTime.home + 120.0));
    }

    /** `applyUpgradeEffect(upgradeId, effect)` */
    method ApplyUpgradeEffect(effect: string)
      modifies this`gameState, this`eventLog, this`metrics
      ensures gameState == ApplyEffect(old(gameState), EffectOf(effect))
      ensures Logged(EffectEvents(effect))
      ensures metrics == old(metrics).(eventsLogged := metrics.eventsLogged)
    {
      var e := EffectOf(effect);
      gameState := ApplyEffect(gameState, e);
      if e.UnknownEffect? {
        LogEvent(UpgradeEvent, Warning);
      }
      LogEvent(UpgradeEvent, Info);
    }

    /** The material spends of a purchase, in cost order. */
    method PayMaterialEntries(cost: Obj<real>)
      modifies this`gameState, this`metrics
      ensures gameState == old(gameState).(resources := PayMaterials(old(gameState.resources), cost))
      ensures metrics == old(metrics)
    {
      var i := 0;
      while i < |cost|
        invariant 0 <= i <= |cost|
        invariant gameState == old(gameState).(resources := PayMaterials(old(gameState.resources), cost[..i]))
        invariant metrics == old(metrics)
      {
        assert cost[..i + 1][..i] == cost[..i];
        var (material, amount) := cost[i];
        if material != "gold" && material != "energy" && amount > 0.0 {
          var _ := SpendResource(material, amount);
        }
        i := i + 1;
      }
      assert cost[..i] == cost;
    }

    /** The spends of a purchase: gold, energy, then the materials. */
    method PayCost(cost: Obj<real>)
      modifies this`gameState, this`metrics
      ensures gameState == old(gameState).(resources := Paid(old(gameState.resources), cost))
      ensures metrics == old(metrics).(resourceFlows := old(metrics.resourceFlows).(
        energySpent := old(metrics.resourceFlows.energySpent) + EnergyPaid(old(gameState.resources), cost)))
    {
      var gold := Get(cost, "gold");
      if gold.Some? {
        var _ := SpendResource("gold", gold.value);
      }
      var energy := Get(cost, "energy");
      if energy.Some? {
        var _ := SpendResource("energy", energy.value);
      }
      PayMaterialEntries(cost);
    }

    /** `purchaseUpgrade(upgradeId)`, reading the upgrade from the catalogue: it succeeds
        exactly when the upgrade is available and affordable, and then pays its cost, appends
        its id once to the owned list and applies its effect. */
    method PurchaseUpgrade(id: string) returns (ok: bool)
      modifies this`gameState, this`eventLog, this`metrics
      ensures ok == (Available(catalogue, old(gameState.upgrades.owned), currentDay, id)
                     && Affordable(old(gameState.resources), Get(catalogue.upgrades, id).value))
      ensures !ok ==> gameState == old(gameState)
                      && metrics == old(metrics).(eventsLogged := old(metrics.eventsLogged) + 1)
                      && eventLog == TrimLog(old(eventLog) + [Event(UpgradeEvent, Warning)])
      ensures ok ==>
        var u := Get(catalogue.upgrades, id).value;
        var before := old(gameState);
        && id !in before.upgrades.owned
        && gameState == ApplyEffect(before.(resources := Paid(before.resources, u.cost.value),
                                            upgrades := before.upgrades.(owned := before.upgrades.owned + [id])),
                                    EffectOf(u.effect))
        && Logged(EffectEvents(u.effect) + [Event(UpgradeEvent, Major)])
        && metrics == old(metrics).(eventsLogged := metrics.eventsLogged,
             upgradeTimings := Put(old(metrics.upgradeTimings), id, Timing(currentDay, old(metrics.gameTimeElapsed))),
             resourceFlows := old(metrics.resourceFlows).(
               energySpent := old(metrics.resourceFlows.energySpent) + EnergyPaid(before.resources, u.cost.value)))
    {
      if !Available(catalogue, gameState.upgrades.owned, currentDay, id) {
        LogEvent(UpgradeEvent, Warning);
        return false;
      }
      var u := Get(catalogue.upgrades, id).value;
      if !Affordable(gameState.resources, u) {
        LogEvent(UpgradeEvent, Warning);
        return false;
      }
      CompletePurchase(id, u);
      ok := true;
    }

    /** The allowed purchase of `u` as `id`: its cost is paid, the id is appended to the
        owned list, the effect is applied, one major event is logged and the time is kept. */
    method CompletePurchase(id: string, u: UpgradeDef)
      requires u.cost.Some?
      modifies this`gameState, this`eventLog, this`metrics
      ensures
        var before := old(gameState);
        && gameState == ApplyEffect(before.(resources := Paid(before.resources, u.cost.value),
                                            upgrades := before.upgrades.(owned := before.upgrades.owned + [id])),
                                    EffectOf(u.effect))
        && Logged(EffectEvents(u.effect) + [Event(UpgradeEvent, Major)])
        && metrics == old(metrics).(eventsLogged := metrics.eventsLogged,
             upgradeTimings := Put(old(metrics.upgradeTimings), id, Timing(currentDay, old(metrics.gameTimeElapsed))),
             resourceFlows := old(metrics.resourceFlows).(
               energySpent := old(metrics.resourceFlows.energySpent) + EnergyPaid(before.resources, u.cost.value)))
    {
      PayCost(u.cost.value);
      gameState := gameState.(upgrades := gameState.upgrades.(owned := gameState.upgrades.owned + [id]));
      ApplyUpgradeEffect(u.effect);
      LogEvent(UpgradeEvent, Major);
      AppendedConcat(old(eventLog), EffectEvents(u.effect), [Event(UpgradeEvent, Major)]);
      metrics := metrics.(upgradeTimings := Put(metrics.upgradeTimings, id, Timing(currentDay, metrics.gameTimeElapsed)));
    }
  }

  /** Logging two batches one after the other. */
  lemma {:induction false} AppendedConcat(log: seq<Event>, a: seq<Event>, b: seq<Event>)
    ensures Appended(log, a + b) == Appended(Appended(log, a), b)
    decreases |a|
  {
    if a == [] {
      assert a + b == b;
    } else {
      assert (a + b)[0] == a[0];
      assert (a + b)[1..] == a[1..] + b;
      AppendedConcat(TrimLog(log + [a[0]]), a[1..], b);
    }
  }
}
