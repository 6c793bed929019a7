// Monte Carlo runs: configuration defaults, the schedule of run indices over batches and
// worker slots, seeded variants of the game values and the player profile, and the
// statistics drawn from the finished runs.

module MonteCarlo {
  import opened Common
  import Sorting

  // ---------------------------------------------------------------- configuration

  /** A supplied number is used when it is truthy (present and not 0). */
  function OrReal(x: Option<real>, d: real): real
  {
    if x.Some? && x.value != 0.0 then x.value else d
  }

  function OrInt(x: Option<int>, d: int): int
  {
    if x.Some? && x.value != 0 then x.value else d
  }

  function OrText(x: Option<string>, d: string): string
  {
    if x.Some? && x.value != "" then x.value else d
  }

  function Min(a: int, b: int): int { if a <= b then a else b }

  /** The variance parameters, each a fraction of the value it varies. */
  datatype Variance = Variance(
    checkInTiming: real, sessionLength: real, efficiency: real, decisionDelay: real,
    cropGrowth: real, helperDiscovery: real, materialDrop: real, adventureReward: real,
    upgradeDecision: real, phaseTransition: real)

  /** The base game values the variants start from: each crop's growth time and each
      adventure's gold reward (0 where the value is missing), when there are any. */
  datatype BaseValues = BaseValues(growthTimes: Option<seq<real>>, goldRewards: Option<seq<real>>)

  datatype Config = Config(
    runs: int, maxWorkers: int, baseGameValues: BaseValues, variance: Variance,
    maxDays: real, timeoutPerRun: real, logLevel: string,
    confidenceLevel: real, trackMetrics: seq<string>)

  /** What the caller passes to `configure`; a missing group gives missing fields. */
  datatype ConfigInput = ConfigInput(
    runs: Option<int>, maxWorkers: Option<int>, baseGameValues: BaseValues,
    checkInTiming: Option<real>, sessionLength: Option<real>, efficiency: Option<real>, decisionDelay: Option<real>,
    cropGrowth: Option<real>, helperDiscovery: Option<real>, materialDrop: Option<real>, adventureReward: Option<real>,
    upgradeDecision: Option<real>, phaseTransition: Option<real>,
    maxDays: Option<real>, timeoutPerRun: Option<real>, logLevel: Option<string>,
    confidenceLevel: Option<real>, trackMetrics: Option<seq<string>>)

  const DefaultMetrics: seq<string> :=
    ["phaseTransitionTimes", "totalUpgrades", "helpersDiscovered", "finalResources", "bottleneckDurations"]

  /** `configure`: every missing or zero setting takes its default; the default number of workers
      is the hardware concurrency (4 when unknown) but at most 8. */
  function ConfigOf(c: ConfigInput, hardwareConcurrency: Option<int>): Config
  {
    Config(
      OrInt(c.runs, 100), OrInt(c.maxWorkers, Min(OrInt(hardwareConcurrency, 4), 8)), c.baseGameValues,
      Variance(
        OrReal(c.checkInTiming, 0.2), OrReal(c.sessionLength, 0.3), OrReal(c.efficiency, 0.1), OrReal(c.decisionDelay, 0.5),
        OrReal(c.cropGrowth, 0.1), OrReal(c.helperDiscovery, 0.3), OrReal(c.materialDrop, 0.2), OrReal(c.adventureReward, 0.15),
        OrReal(c.upgradeDecision, 0.4), OrReal(c.phaseTransition, 0.2)),
      OrReal(c.maxDays, 28.0), OrReal(c.timeoutPerRun, 300000.0), OrText(c.logLevel, "minimal"),
      OrReal(c.confidenceLevel, 0.95), if c.trackMetrics.Some? then c.trackMetrics.value else DefaultMetrics)
  }

  /** A truthy number of runs or workers is kept; otherwise there are 100 runs and at most 8
      workers, never more than the hardware concurrency when that is known. */
  lemma ConfigDefaults(c: ConfigInput, hc: Option<int>)
    ensures var k := ConfigOf(c, hc);
      && (c.runs.Some? && c.runs.value != 0 ==> k.runs == c.runs.value)
      && ((c.runs.None? || c.runs.value == 0) ==> k.runs == 100)
      && (c.maxWorkers.Some? && c.maxWorkers.value != 0 ==> k.maxWorkers == c.maxWorkers.value)
      && ((c.maxWorkers.None? || c.maxWorkers.value == 0) ==>
           k.maxWorkers <= 8 && (hc.None? ==> k.maxWorkers == 4) && (hc.Some? && hc.value != 0 ==> k.maxWorkers <= hc.value))
      && (c.maxDays.None? ==> k.maxDays == 28.0)
      && (c.trackMetrics.None? ==> k.trackMetrics == DefaultMetrics)
  {
  }

  // ---------------------------------------------------------------- schedule

  /** The number of workers started: `min(maxWorkers, runs)`, none when that is not positive. */
  function WorkerCount(k: Config): nat
  {
    var m := Min(k.maxWorkers, k.runs);
    if m > 0 then m else 0
  }

  /** One call of `runSingleSimulation`: the batch, the run index and the worker slot. */
  datatype Slot = Slot(batch: nat, runIndex: nat, worker: nat)

  function CeilDiv(a: nat, b: nat): nat
    requires b > 0
  {
    (a + b - 1) / b
  }

  /** The schedule of `runs` runs over `workers` slots: batches of `workers` consecutive indices,
      each run on the slot `runIndex mod workers`. */
  predicate Scheduled(s: seq<Slot>, runs: nat, workers: nat)
    requires workers > 0
  {
    |s| == runs && forall i :: 0 <= i < runs ==> s[i] == Slot(i / workers, i, i % workers)
  }

  /** Every run is scheduled once, in index order, on a slot below the number of workers, and
      the batches never go back and number `ceil(runs / workers)`. */
  lemma ScheduleShape(runs: nat, workers: nat, s: seq<Slot>)
    requires workers > 0 && Scheduled(s, runs, workers)
    ensures forall i, j :: 0 <= i < j < |s| ==> s[i].runIndex < s[j].runIndex && s[i].batch <= s[j].batch
    ensures forall i :: 0 <= i < |s| ==> s[i].batch < CeilDiv(runs, workers) && s[i].worker < workers
    ensures runs > 0 ==> s[runs - 1].batch == CeilDiv(runs, workers) - 1
  {
    forall i, j | 0 <= i < j < |s| ensures s[i].runIndex < s[j].runIndex && s[i].batch <= s[j].batch {
      DivMonotone(i, j, workers);
    }
    if runs > 0 {
      LastBatch(runs, workers);
    }
    forall i | 0 <= i < |s| ensures s[i].batch < CeilDiv(runs, workers) {
      DivMonotone(i, runs - 1, workers);
    }
  }

  lemma MulStep(a: int, b: int, w: int)
    requires a > b && w > 0
    ensures a * w >= b * w + w
  {
    var d := a - b - 1;
    assert d * w >= 0;
    assert a * w == b * w + w + d * w;
  }

  /** The quotient is the one batch whose range holds the dividend. */
  lemma DivUnique(i: int, b: int, w: int)
    requires w > 0 && b * w <= i < b * w + w
    ensures i / w == b
  {
    var q := i / w;
    assert q * w <= i < q * w + w;
    if q > b {
      MulStep(q, b, w);
    } else if q < b {
      MulStep(b, q, w);
    }
  }

  lemma DivMonotone(i: nat, j: nat, w: nat)
    requires w > 0 && i <= j
    ensures i / w <= j / w
  {
    var q, r := i / w, j / w;
    assert q * w <= i && j < r * w + w;
    if q > r {
      MulStep(q, r, w);
    }
  }

  lemma LastBatch(runs: nat, w: nat)
    requires w > 0 && runs > 0
    ensures (runs - 1) / w == CeilDiv(runs, w) - 1
    ensures CeilDiv(runs, w) * w >= runs
  {
    var q := (runs - 1) / w;
    assert q * w <= runs - 1 < q * w + w;
    assert (q + 1) * w == q * w + w;
    DivUnique(runs + w - 1, q + 1, w);
  }

  /** A batch before the last starts within the runs and ends where the next starts; the
      last one reaches the end. */
  lemma BatchStep(batch: nat, batches: nat, runs: nat, w: nat)
    requires w > 0 && runs > 0 && batches == CeilDiv(runs, w) && batch < batches
    ensures batch * w < runs && (batch + 1) * w == batch * w + w
    ensures batch + 1 == batches ==> Min(batch * w + w, runs) == runs
  {
    LastBatch(runs, w);
    var q := (runs - 1) / w;
    assert q * w <= runs - 1;
    if batch < q {
      MulStep(q, batch, w);
    }
  }

  // ---------------------------------------------------------------- seeded variants

  /** The fractional part of a number, in [0, 1). */
  function Frac(x: real): (r: real)
    ensures 0.0 <= r < 1.0
  {
    x - x.Floor as real
  }

  /** The seeded generator's state; `sin` is the sine function, supplied by the caller. */
  datatype Rng = Rng(s: real)

  /** One call of the generator: the next state is `sin(s) * 10000`, and the draw its fractional
      part. */
  function Draw(sin: real -> real, g: Rng): Drawn
  {
    var s := sin(g.s) * 10000.0;
    Drawn(Frac(s), Rng(s))
  }

  datatype Drawn = Drawn(value: real, next: Rng)

  /** `1 + (draw - 0.5) * variance * 2` */
  function Factor(draw: real, variance: real): real
  {
    1.0 + (draw - 0.5) * variance * 2.0
  }

  /** A draw in [0, 1) scales by a factor within the variance either way. */
  lemma FactorRange(draw: real, variance: real)
    requires 0.0 <= draw < 1.0 && variance >= 0.0
    ensures 1.0 - variance <= Factor(draw, variance) <= 1.0 + variance
  {
    var t := draw - 0.5;
    if variance > 0.0 {
      ScaleBounds(variance, -0.5, t, 0.5);
      assert variance * t == t * variance;
    }
  }

  /** Scales each non-zero value by a fresh factor, drawing once per such value in order. */
  function Vary(xs: seq<real>, variance: real, sin: real -> real, g: Rng): Varied
  {
    if xs == [] then Varied([], g)
    else
      var rest := Vary(xs[1..], variance, sin, Step(xs[0], sin, g));
      Varied([Scaled(xs[0], variance, sin, g)] + rest.values, rest.next)
  }

  datatype Varied = Varied(values: seq<real>, next: Rng)

  /** The generator after one value: a draw is made only for a non-zero value. */
  function Step(x: real, sin: real -> real, g: Rng): Rng
  {
    if x == 0.0 then g else Draw(sin, g).next
  }

  function Scaled(x: real, variance: real, sin: real -> real, g: Rng): real
  {
    if x == 0.0 then x else x * Factor(Draw(sin, g).value, variance)
  }

  /** A value varied within `variance` of itself: zero stays zero, a positive value moves by at
      most that fraction. */
  predicate Kept(x: real, y: real, variance: real)
  {
    (x == 0.0 ==> y == 0.0) && (x > 0.0 ==> x * (1.0 - variance) <= y <= x * (1.0 + variance))
  }

  predicate WithinVariance(base: seq<real>, varied: seq<real>, variance: real)
  {
    |varied| == |base| && forall i :: 0 <= i < |base| ==> Kept(base[i], varied[i], variance)
  }

  lemma ScaleBounds(x: real, lo: real, f: real, hi: real)
    requires x > 0.0 && lo <= f <= hi
    ensures x * lo <= x * f <= x * hi
  {
    assert x * f - x * lo == x * (f - lo);
    assert x * hi - x * f == x * (hi - f);
  }

  lemma ScaledKept(x: real, variance: real, sin: real -> real, g: Rng)
    requires variance >= 0.0
    ensures Kept(x, Scaled(x, variance, sin, g), variance)
  {
    if x > 0.0 {
      FactorRange(Draw(sin, g).value, variance);
      ScaleBounds(x, 1.0 - variance, Factor(Draw(sin, g).value, variance), 1.0 + variance);
    }
  }

  lemma WithinCons(x: real, y: real, xs: seq<real>, ys: seq<real>, variance: real)
    requires Kept(x, y, variance) && WithinVariance(xs, ys, variance)
    ensures WithinVariance([x] + xs, [y] + ys, variance)
  {
    forall i | 0 <= i < |xs| + 1 ensures Kept(([x] + xs)[i], ([y] + ys)[i], variance) {
      if i > 0 {
        assert ([x] + xs)[i] == xs[i - 1] && ([y] + ys)[i] == ys[i - 1];
      }
    }
  }

  /** Every value is kept in place, within the variance of itself. */
  lemma {:induction false} VarySpec(xs: seq<real>, variance: real, sin: real -> real, g: Rng)
    requires variance >= 0.0
    ensures WithinVariance(xs, Vary(xs, variance, sin, g).values, variance)
  {
    if xs != [] {
      var g1 := Step(xs[0], sin, g);
      VarySpec(xs[1..], variance, sin, g1);
      ScaledKept(xs[0], variance, sin, g);
      WithinCons(xs[0], Scaled(xs[0], variance, sin, g), xs[1..], Vary(xs[1..], variance, sin, g1).values, variance);
      assert xs == [xs[0]] + xs[1..];
    }
  }

  /** `generateVariantGameValues`: growth times, then gold rewards, varied by one generator
      seeded with the run index. */
  function VariantGameValues(k: Config, sin: real -> real, runIndex: nat): BaseValues
  {
    var g := Rng(runIndex as real);
    var b := k.baseGameValues;
    var crops := Vary(if b.growthTimes.Some? then b.growthTimes.value else [], k.variance.cropGrowth, sin, g);
    var adventures := Vary(if b.goldRewards.Some? then b.goldRewards.value else [], k.variance.adventureReward, sin, crops.next);
    BaseValues(if b.growthTimes.Some? then Some(crops.values) else None,
               if b.goldRewards.Some? then Some(adventures.values) else None)
  }

  /** A player profile: check-ins and session lengths on weekdays and weekends, and an
      efficiency per phase. */
  datatype Profile = Profile(weekdayCheckIns: real, weekendCheckIns: real, weekdaySession: real, weekendSession: real,
                             efficiency: seq<(string, real)>)

  const BaseEfficiency: seq<(string, real)> :=
    [("tutorial", 0.65), ("early", 0.70), ("mid", 0.75), ("late", 0.80), ("endgame", 0.85)]

  function Clamp(x: real): (r: real)
    ensures 0.1 <= r <= 1.0
    ensures 0.1 <= x <= 1.0 ==> r == x
  {
    if x > 1.0 then 1.0 else if x < 0.1 then 0.1 else x
  }

  /** Scales each efficiency by a fresh factor and clamps it into [0.1, 1.0]. */
  function VaryEfficiency(es: seq<(string, real)>, variance: real, sin: real -> real, g: Rng): seq<(string, real)>
  {
    if es == [] then []
    else
      var d := Draw(sin, g);
      [(es[0].0, Clamp(es[0].1 * Factor(d.value, variance)))] + VaryEfficiency(es[1..], variance, sin, d.next)
  }

  /** `generateVariantPlayerProfile`: four draws for check-ins and sessions, then one per phase
      efficiency, from a generator seeded with the run index plus 1000. */
  function VariantProfile(k: Config, sin: real -> real, runIndex: nat): Profile
  {
    var v := k.variance;
    var g0 := Rng((runIndex + 1000) as real);
    var d1 := Draw(sin, g0);
    var d2 := Draw(sin, d1.next);
    var d3 := Draw(sin, d2.next);
    var d4 := Draw(sin, d3.next);
    Profile(3.0 * Factor(d1.value, v.checkInTiming), 5.0 * Factor(d2.value, v.checkInTiming),
            15.0 * Factor(d3.value, v.sessionLength), 30.0 * Factor(d4.value, v.sessionLength),
            VaryEfficiency(BaseEfficiency, v.efficiency, sin, d4.next))
  }

  lemma {:induction false} VaryEfficiencySpec(es: seq<(string, real)>, variance: real, sin: real -> real, g: Rng)
    ensures var r := VaryEfficiency(es, variance, sin, g);
      && |r| == |es|
      && forall i :: 0 <= i < |es| ==> r[i].0 == es[i].0 && 0.1 <= r[i].1 <= 1.0
  {
    if es != [] {
      VaryEfficiencySpec(es[1..], variance, sin, Draw(sin, g).next);
    }
  }

  /** Every phase keeps its efficiency entry, clamped into [0.1, 1.0], and the check-ins and
      sessions stay within their variance of the base profile. */
  lemma VariantProfileSpec(k: Config, sin: real -> real, runIndex: nat)
    requires k.variance.checkInTiming >= 0.0 && k.variance.sessionLength >= 0.0
    ensures var p := VariantProfile(k, sin, runIndex);
      && |p.efficiency| == 5
      && (forall i :: 0 <= i < 5 ==> p.efficiency[i].0 == BaseEfficiency[i].0 && 0.1 <= p.efficiency[i].1 <= 1.0)
      && 3.0 * (1.0 - k.variance.checkInTiming) <= p.weekdayCheckIns <= 3.0 * (1.0 + k.variance.checkInTiming)
      && 5.0 * (1.0 - k.variance.checkInTiming) <= p.weekendCheckIns <= 5.0 * (1.0 + k.variance.checkInTiming)
      && 15.0 * (1.0 - k.variance.sessionLength) <= p.weekdaySession <= 15.0 * (1.0 + k.variance.sessionLength)
      && 30.0 * (1.0 - k.variance.sessionLength) <= p.weekendSession <= 30.0 * (1.0 + k.variance.sessionLength)
  {
    var v := k.variance;
    var g0 := Rng((runIndex + 1000) as real);
    var d1 := Draw(sin, g0);
    var d2 := Draw(sin, d1.next);
    var d3 := Draw(sin, d2.next);
    var d4 := Draw(sin, d3.next);
    FactorRange(d1.value, v.checkInTiming);
    FactorRange(d2.value, v.checkInTiming);
    FactorRange(d3.value, v.sessionLength);
    FactorRange(d4.value, v.sessionLength);
    VaryEfficiencySpec(BaseEfficiency, v.efficiency, sin, d4.next);
  }

  /** Growth times and gold rewards stay within their variance of the base values. */
  lemma VariantGameValuesSpec(k: Config, sin: real -> real, runIndex: nat)
    requires k.variance.cropGrowth >= 0.0 && k.variance.adventureReward >= 0.0
    ensures var b := k.baseGameValues;
      var r := VariantGameValues(k, sin, runIndex);
      && (r.growthTimes.Some? <==> b.growthTimes.Some?)
      && (r.goldRewards.Some? <==> b.goldRewards.Some?)
      && (b.growthTimes.Some? ==> WithinVariance(b.growthTimes.value, r.growthTimes.value, k.variance.cropGrowth))
      && (b.goldRewards.Some? ==> WithinVariance(b.goldRewards.value, r.goldRewards.value, k.variance.adventureReward))
  {
    var g := Rng(runIndex as real);
    var b := k.baseGameValues;
    if b.growthTimes.Some? {
      VarySpec(b.growthTimes.value, k.variance.cropGrowth, sin, g);
    }
    var g1 := Vary(if b.growthTimes.Some? then b.growthTimes.value else [], k.variance.cropGrowth, sin, g).next;
    if b.goldRewards.Some? {
      VarySpec(b.goldRewards.value, k.variance.adventureReward, sin, g1);
    }
  }

  // ---------------------------------------------------------------- runs and their events

  datatype Event =
    | PhaseChange(newPhase: string, day: Option<real>)
    | HelperDiscovered(helperType: Option<string>, day: Option<real>)
    | OtherEvent

  /** A run's record; `resources` holds the final readings by name, when a state update had
      them. */
  datatype RunRecord = RunRecord(runIndex: nat, startTime: real, endTime: real, events: seq<Event>,
                                 currentDay: real, resources: Option<Obj<real>>, completed: bool)

  /** `event.data.day || result.metrics.currentDay` */
  function DayOf(day: Option<real>, currentDay: real): real
  {
    if day.Some? && day.value != 0.0 then day.value else currentDay
  }

  function TransitionOf(currentDay: real, e: Event): Option<(string, real)>
  {
    if e.PhaseChange? then Some((e.newPhase, DayOf(e.day, currentDay))) else None
  }

  function DiscoveryOf(currentDay: real, e: Event): Option<(string, real)>
  {
    if e.HelperDiscovered? && e.helperType.Some? && e.helperType.value != "" then
      Some((e.helperType.value, DayOf(e.day, currentDay)))
    else None
  }

  /** The (key, day) pairs the events of all runs give, run by run and event by event. */
  function Pairs(rs: seq<RunRecord>, f: (real, Event) -> Option<(string, real)>): seq<(string, real)>
  {
    if rs == [] then []
    else Pairs(rs[..|rs| - 1], f) + Collect(rs[|rs| - 1].events, e => f(rs[|rs| - 1].currentDay, e))
  }

  /** Groups the values by key, keys in the order first met, values in the order given. */
  function GroupBy(ps: seq<(string, real)>): Obj<seq<real>>
  {
    if ps == [] then []
    else
      var prev := GroupBy(ps[..|ps| - 1]);
      var (k, v) := ps[|ps| - 1];
      var seen := Get(prev, k);
      Put(prev, k, (if seen.Some? then seen.value else []) + [v])
  }

  /** The values paired with `k`, in order. */
  function ValuesFor(ps: seq<(string, real)>, k: string): seq<real>
  {
    if ps == [] then [] else ValuesFor(ps[..|ps| - 1], k) + (if ps[|ps| - 1].0 == k then [ps[|ps| - 1].1] else [])
  }

  /** Each key met has exactly the values paired with it, in order, and no other key appears. */
  lemma {:induction false} GroupBySpec(ps: seq<(string, real)>, k: string)
    ensures Get(GroupBy(ps), k) == if ValuesFor(ps, k) == [] then None else Some(ValuesFor(ps, k))
    ensures DistinctKeys(GroupBy(ps))
  {
    if ps != [] {
      var n := |ps| - 1;
      GroupBySpec(ps[..n], k);
      GroupBySpec(ps[..n], ps[n].0);
      var prev := GroupBy(ps[..n]);
      var (k', v) := ps[n];
      var seen := Get(prev, k');
      var val := (if seen.Some? then seen.value else []) + [v];
      assert GroupBy(ps) == Put(prev, k', val);
      PutKeepsDistinct(prev, k', val);
      assert ValuesFor(ps, k) == ValuesFor(ps[..n], k) + (if k' == k then [v] else []);
      if k == k' {
        assert val == ValuesFor(ps, k);
      } else {
        assert Get(GroupBy(ps), k) == Get(prev, k);
        assert ValuesFor(ps[..n], k) + [] == ValuesFor(ps[..n], k);
      }
    }
  }

  /** Every pair an event gives is among the pairs of its runs. */
  lemma {:induction false} PairsHas(rs: seq<RunRecord>, f: (real, Event) -> Option<(string, real)>, i: nat, j: nat)
    requires i < |rs| && j < |rs[i].events| && f(rs[i].currentDay, rs[i].events[j]).Some?
    ensures f(rs[i].currentDay, rs[i].events[j]).value in Pairs(rs, f)
  {
    var n := |rs| - 1;
    if i < n {
      PairsHas(rs[..n], f, i, j);
      assert rs[..n][i] == rs[i];
    } else {
      CollectHas(rs[n].events, e => f(rs[n].currentDay, e), j);
    }
  }

  /** `extractPhaseTransitions` */
  function PhaseTransitions(rs: seq<RunRecord>): Obj<seq<real>>
  {
    GroupBy(Pairs(rs, TransitionOf))
  }

  /** `extractHelperDiscoveries` */
  function HelperDiscoveries(rs: seq<RunRecord>): Obj<seq<real>>
  {
    GroupBy(Pairs(rs, DiscoveryOf))
  }

  /** `extractFinalResources`: the runs' resource readings, where there are any. */
  function FinalResources(rs: seq<RunRecord>): seq<Obj<real>>
  {
    Collect(rs, ResourcesOf)
  }

  function ResourcesOf(r: RunRecord): Option<Obj<real>>
  {
    r.resources
  }

  // ---------------------------------------------------------------- statistics

  /** The square-root function supplied by the caller is non-negative, and positive on
      positive numbers. */
  ghost predicate SqrtLike(sqrt: real -> real)
  {
    forall x :: x >= 0.0 ==> sqrt(x) >= 0.0 && (x > 0.0 ==> sqrt(x) > 0.0)
  }

  function Sum(xs: seq<real>): real
  {
    if xs == [] then 0.0 else Sum(xs[..|xs| - 1]) + xs[|xs| - 1]
  }

  function SumSquares(xs: seq<real>, m: real): (r: real)
    ensures r >= 0.0
  {
    if xs == [] then 0.0
    else
      var d := xs[|xs| - 1] - m;
      SquareNonNegative(d);
      SumSquares(xs[..|xs| - 1], m) + d * d
  }

  function Mean(xs: seq<real>): real
    requires xs != []
  {
    Sum(xs) / |xs| as real
  }

  /** `calculateStandardDeviation` */
  function StdDev(xs: seq<real>, sqrt: real -> real): real
    requires xs != []
  {
    sqrt(SumSquares(xs, Mean(xs)) / |xs| as real)
  }

  datatype Dist = Dist(mean: real, median: real, min: real, max: real, std: real,
                       p10: real, p25: real, p75: real, p90: real)

  /** The statistics of a non-empty list taken on its sorted copy; the percentile indices are
      `floor(n * q)` for q = 0.1, 0.25, 0.75 and 0.9. */
  function DistOf(values: seq<real>, sqrt: real -> real): Dist
    requires values != []
  {
    var s := Sorting.SortAsc(values);
    var n := |s|;
    Dist(Mean(s), s[n / 2], s[0], s[n - 1], StdDev(s, sqrt), s[n / 10], s[n / 4], s[3 * n / 4], s[9 * n / 10])
  }

  lemma MultisetRemove(b: seq<real>, j: nat)
    requires j < |b|
    ensures multiset(b[..j] + b[j + 1..]) == multiset(b) - multiset{b[j]}
  {
    assert b == b[..j] + ([b[j]] + b[j + 1..]);
  }

  /** A sum depends only on the multiset of its terms. */
  lemma {:induction false} SumPermutation(a: seq<real>, b: seq<real>)
    requires multiset(a) == multiset(b)
    ensures Sum(a) == Sum(b)
    decreases |a|
  {
    if a != [] {
      var n := |a| - 1;
      var x := a[n];
      assert x in multiset(b);
      var j :| 0 <= j < |b| && b[j] == x;
      var rest := b[..j] + b[j + 1..];
      MultisetRemove(b, j);
      MultisetRemove(a, n);
      assert a[..n] + a[n + 1..] == a[..n];
      SumPermutation(a[..n], rest);
      SumRemove(b, j);
    }
  }

  lemma {:induction false} SumRemove(b: seq<real>, j: nat)
    requires j < |b|
    ensures Sum(b) == Sum(b[..j] + b[j + 1..]) + b[j]
  {
    var n := |b| - 1;
    if j < n {
      assert (b[..j] + b[j + 1..])[..n - 1] == b[..n][..j] + b[..n][j + 1..];
      SumRemove(b[..n], j);
    } else {
      assert b[..j] + b[j + 1..] == b[..n];
    }
  }

  lemma {:induction false} SumBounds(xs: seq<real>, lo: real, hi: real)
    requires forall i :: 0 <= i < |xs| ==> lo <= xs[i] <= hi
    ensures |xs| as real * lo <= Sum(xs) <= |xs| as real * hi
  {
    if xs != [] { SumBounds(xs[..|xs| - 1], lo, hi); }
  }

  lemma SquareNonNegative(d: real)
    ensures d * d >= 0.0
  {
    if d < 0.0 {
      assert d * d == (-d) * (-d);
    }
  }

  /** In a sorted list the percentile positions come in order. */
  lemma SortedPercentiles(s: seq<real>)
    requires s != [] && Sorting.NonDecreasingReals(s)
    ensures var n := |s|;
      s[0] <= s[n / 10] <= s[n / 4] <= s[n / 2] <= s[3 * n / 4] <= s[9 * n / 10] <= s[n - 1]
  {
    var n := |s|;
    assert 0 <= n / 10 <= n / 4 <= n / 2 <= 3 * n / 4 <= 9 * n / 10 < n;
  }

  /** The first and last of a sorted copy are the least and greatest of the original. */
  lemma SortedExtremes(values: seq<real>, s: seq<real>)
    requires s != [] && Sorting.NonDecreasingReals(s) && multiset(s) == multiset(values)
    ensures forall i :: 0 <= i < |values| ==> s[0] <= values[i] <= s[|s| - 1]
    ensures s[0] in values && s[|s| - 1] in values
  {
    forall i | 0 <= i < |values| ensures s[0] <= values[i] <= s[|s| - 1] {
      assert values[i] in multiset(s);
      var j :| 0 <= j < |s| && s[j] == values[i];
    }
    assert s[0] in multiset(values) && s[|s| - 1] in multiset(values);
  }

  /** The mean of a sorted list lies between its ends. */
  lemma SortedMean(s: seq<real>)
    requires s != [] && Sorting.NonDecreasingReals(s)
    ensures s[0] <= Mean(s) <= s[|s| - 1]
  {
    var n := |s| as real;
    SumBounds(s, s[0], s[|s| - 1]);
    QuotientBounds(Sum(s), n, s[0], s[|s| - 1]);
  }

  /** A quotient by a positive number lies between the bounds its dividend has when scaled. */
  lemma QuotientBounds(a: real, n: real, lo: real, hi: real)
    requires n > 0.0 && n * lo <= a <= n * hi
    ensures lo <= a / n <= hi
  {
    var q := a / n;
    assert q * n == a;
    assert n * (q - lo) == a - n * lo;
    assert n * (hi - q) == n * hi - a;
    PositiveFactor(n, q - lo);
    PositiveFactor(n, hi - q);
  }

  /** A product with a positive factor is non-negative only when the other factor is. */
  lemma PositiveFactor(n: real, d: real)
    requires n > 0.0 && n * d >= 0.0
    ensures d >= 0.0
  {
  }

  lemma StdDevNonNegative(xs: seq<real>, sqrt: real -> real)
    requires xs != [] && SqrtLike(sqrt)
    ensures StdDev(xs, sqrt) >= 0.0
  {
    assert SumSquares(xs, Mean(xs)) / |xs| as real >= 0.0;
  }

  /** Order statistics: the minimum and maximum are the least and greatest values, the
      percentiles and the median lie in order between them, the mean between the extremes, and
      the deviation is never negative; the mean is that of the list as given. */
  lemma DistSpec(values: seq<real>, sqrt: real -> real)
    requires values != [] && SqrtLike(sqrt)
    ensures var d := DistOf(values, sqrt);
      && d.min <= d.p10 <= d.p25 <= d.median <= d.p75 <= d.p90 <= d.max
      && (forall i :: 0 <= i < |values| ==> d.min <= values[i] <= d.max)
      && d.min in values && d.max in values
      && d.min <= d.mean <= d.max
      && d.mean == Mean(values)
      && d.std >= 0.0
  {
    var s := Sorting.SortAsc(values);
    SortedPercentiles(s);
    SortedExtremes(values, s);
    SortedMean(s);
    SumPermutation(s, values);
    StdDevNonNegative(s, sqrt);
  }

  /** A statistic of every non-empty list, by key, in key order; empty lists are skipped. */
  function MapNonEmpty<A>(data: Obj<seq<real>>, stat: seq<real> --> A): Obj<A>
    requires forall v :: v != [] ==> stat.requires(v)
  {
    if data == [] then []
    else
      var n := |data| - 1;
      MapNonEmpty(data[..n], stat) + (if data[n].1 == [] then [] else [(data[n].0, stat(data[n].1))])
  }

  /** Every non-empty list has its statistic under its key. */
  lemma {:induction false} MapNonEmptyHas<A>(data: Obj<seq<real>>, stat: seq<real> --> A, i: nat)
    requires forall v :: v != [] ==> stat.requires(v)
    requires i < |data| && data[i].1 != []
    ensures (data[i].0, stat(data[i].1)) in MapNonEmpty(data, stat)
  {
    var n := |data| - 1;
    if i < n {
      MapNonEmptyHas(data[..n], stat, i);
      assert data[..n][i] == data[i];
    }
  }

  /** Every entry comes from a non-empty list under the same key. */
  lemma {:induction false} MapNonEmptyFrom<A>(data: Obj<seq<real>>, stat: seq<real> --> A, e: (string, A)) returns (i: nat)
    requires forall v :: v != [] ==> stat.requires(v)
    requires e in MapNonEmpty(data, stat)
    ensures i < |data| && data[i].0 == e.0 && data[i].1 != [] && e.1 == stat(data[i].1)
  {
    var n := |data| - 1;
    if e in MapNonEmpty(data[..n], stat) {
      i := MapNonEmptyFrom(data[..n], stat, e);
    } else {
      i := n;
    }
  }

  /** `calculateDistributions` on lists. */
  function Distributions(data: Obj<seq<real>>, sqrt: real -> real): Obj<Dist>
  {
    MapNonEmpty(data, (v: seq<real>) requires v != [] => DistOf(v, sqrt))
  }

  /** One more list: its distribution is appended when it is not empty. */
  lemma DistributionsSnoc(data: Obj<seq<real>>, k: nat, sqrt: real -> real)
    requires k < |data|
    ensures Distributions(data[..k + 1], sqrt)
      == Distributions(data[..k], sqrt) + (if data[k].1 == [] then [] else [(data[k].0, DistOf(data[k].1, sqrt))])
  {
    assert data[..k + 1][..k] == data[..k];
  }

  datatype Interval = Interval(mean: real, lower: real, upper: real, margin: real)

  /** The 95 percent interval around the mean: `1.96 * std / sqrt(n)` either way. */
  function IntervalOf(values: seq<real>, sqrt: real -> real): Interval
    requires values != [] && SqrtLike(sqrt)
  {
    var m := Mean(values);
    var root := sqrt(|values| as real);
    var margin := 1.96 * (StdDev(values, sqrt) / root);
    Interval(m, m - margin, m + margin, margin)
  }

  /** Intervals are symmetric about the mean, with a margin that is never negative. */
  lemma IntervalSpec(values: seq<real>, sqrt: real -> real)
    requires values != [] && SqrtLike(sqrt)
    ensures var c := IntervalOf(values, sqrt);
      && c.mean == Mean(values) && c.margin >= 0.0
      && c.lower == c.mean - c.margin && c.upper == c.mean + c.margin
      && c.lower <= c.mean <= c.upper
  {
    var root := sqrt(|values| as real);
    assert root > 0.0;
    assert StdDev(values, sqrt) >= 0.0;
  }

  /** `calculateConfidenceIntervals` */
  function Intervals(data: Obj<seq<real>>, sqrt: real -> real): Obj<Interval>
    requires SqrtLike(sqrt)
  {
    MapNonEmpty(data, (v: seq<real>) requires v != [] && SqrtLike(sqrt) => IntervalOf(v, sqrt))
  }

  /** The lists sorted in place by `calculateDistributions`, as the analysis then holds them. */
  function SortedLists(data: Obj<seq<real>>): (r: Obj<seq<real>>)
    ensures |r| == |data|
    ensures forall i :: 0 <= i < |data| ==> r[i] == (data[i].0, Sorting.SortAsc(data[i].1))
  {
    if data == [] then [] else [(data[0].0, Sorting.SortAsc(data[0].1))] + SortedLists(data[1..])
  }

  /** A phase's transition days vary highly when their coefficient of variation exceeds 0.5;
      with a zero mean a positive deviation counts (an infinite ratio) and a zero one does
      not. */
  predicate HighVariance(d: Dist)
  {
    if d.mean == 0.0 then d.std > 0.0 else d.std / d.mean > 0.5
  }

  function Insights(dists: Obj<Dist>): seq<string>
  {
    Collect(dists, (e: (string, Dist)) => if HighVariance(e.1) then Some(e.0) else None)
  }

  /** The analysis of the finished runs; messages are not kept. */
  datatype Analysis = Analysis(
    totalRuns: nat, completedRuns: nat, totalDuration: real,
    phaseTransitions: Obj<seq<real>>, transitionDists: Obj<Dist>, confidence: Obj<Interval>,
    finalResources: seq<Obj<real>>, resourceDists: Obj<Dist>,
    helperDiscoveries: Obj<seq<real>>, helperDists: Obj<Dist>,
    averageSimulationTime: real, successRate: real, highVariancePhases: seq<string>)

  function CompletedCount(rs: seq<RunRecord>): (n: nat)
    ensures n <= |rs|
  {
    if rs == [] then 0 else CompletedCount(rs[..|rs| - 1]) + (if rs[|rs| - 1].completed then 1 else 0)
  }

  /** The (name, reading) pairs of all final resource readings. */
  function ResourcePairs(rs: seq<Obj<real>>): seq<(string, real)>
  {
    if rs == [] then [] else ResourcePairs(rs[..|rs| - 1]) + rs[|rs| - 1]
  }

  /** `analyzeResults`, with the final resources grouped by name before their distributions
      are taken; none with no results. */
  function AnalyzeResults(rs: seq<RunRecord>, elapsed: real, sqrt: real -> real): Option<Analysis>
    requires SqrtLike(sqrt)
  {
    if rs == [] then None
    else
      var transitions := PhaseTransitions(rs);
      var dists := Distributions(transitions, sqrt);
      var helpers := HelperDiscoveries(rs);
      var n := |rs| as real;
      Some(Analysis(|rs|, CompletedCount(rs), elapsed,
        SortedLists(transitions), dists, Intervals(SortedLists(transitions), sqrt),
        FinalResources(rs), Distributions(GroupBy(ResourcePairs(FinalResources(rs))), sqrt),
        SortedLists(helpers), Distributions(helpers, sqrt),
        elapsed / n, CompletedCount(rs) as real / n, Insights(dists)))
  }

  /** A phase is flagged exactly when its distribution varies highly. */
  lemma InsightsSpec(dists: Obj<Dist>)
    ensures forall i :: 0 <= i < |dists| && HighVariance(dists[i].1) ==> dists[i].0 in Insights(dists)
    ensures forall p :: p in Insights(dists) ==> exists i :: 0 <= i < |dists| && dists[i].0 == p && HighVariance(dists[i].1)
  {
    var f := (e: (string, Dist)) => if HighVariance(e.1) then Some(e.0) else None;
    forall i | 0 <= i < |dists| && HighVariance(dists[i].1) ensures dists[i].0 in Insights(dists) {
      CollectHas(dists, f, i);
    }
    forall p | p in Insights(dists) ensures exists i :: 0 <= i < |dists| && dists[i].0 == p && HighVariance(dists[i].1) {
      var i := CollectFrom(dists, f, p);
    }
  }

  lemma FractionAtMostOne(c: nat, n: nat)
    requires 0 < n && c <= n
    ensures 0.0 <= c as real / n as real <= 1.0
  {
    QuotientBounds(c as real, n as real, 0.0, 1.0);
  }

  /** There is an analysis exactly when there are results; it counts every run, the success
      rate is a fraction and the average time the elapsed time shared over the runs. */
  lemma AnalyzeResultsSpec(rs: seq<RunRecord>, elapsed: real, sqrt: real -> real)
    requires SqrtLike(sqrt)
    ensures AnalyzeResults(rs, elapsed, sqrt).Some? <==> rs != []
    ensures rs != [] ==>
      var a := AnalyzeResults(rs, elapsed, sqrt).value;
      && a.totalRuns == |rs| && a.completedRuns <= a.totalRuns
      && 0.0 <= a.successRate <= 1.0
      && a.averageSimulationTime == elapsed / |rs| as real
  {
    if rs != [] {
      var a := AnalyzeResults(rs, elapsed, sqrt).value;
      AnalysisCounts(rs, elapsed, sqrt, a);
      FractionAtMostOne(CompletedCount(rs), |rs|);
    }
  }

  /** The counters and the two ratios of an analysis. */
  lemma AnalysisCounts(rs: seq<RunRecord>, elapsed: real, sqrt: real -> real, a: Analysis)
    requires SqrtLike(sqrt) && rs != [] && AnalyzeResults(rs, elapsed, sqrt) == Some(a)
    ensures a.totalRuns == |rs| && a.completedRuns == CompletedCount(rs)
    ensures a.successRate == CompletedCount(rs) as real / |rs| as real
    ensures a.averageSimulationTime == elapsed / |rs| as real
  {
  }

  /** The phases flagged for high variance are exactly those whose transition days vary
      highly. */
  lemma HighVariancePhasesSpec(rs: seq<RunRecord>, elapsed: real, sqrt: real -> real, p: string)
    requires SqrtLike(sqrt) && rs != []
    ensures var a := AnalyzeResults(rs, elapsed, sqrt).value;
      p in a.highVariancePhases <==> exists i :: 0 <= i < |a.transitionDists| && a.transitionDists[i].0 == p && HighVariance(a.transitionDists[i].1)
  {
    InsightsSpec(AnalyzeResults(rs, elapsed, sqrt).value.transitionDists);
  }

  /** Every resource name that has readings gets the distribution of its readings across all
      runs, in run order. */
  lemma ResourceDistsSpec(rs: seq<RunRecord>, elapsed: real, sqrt: real -> real, name: string)
    requires SqrtLike(sqrt) && rs != []
    ensures var readings := ValuesFor(ResourcePairs(FinalResources(rs)), name);
      readings != [] ==> (name, DistOf(readings, sqrt)) in AnalyzeResults(rs, elapsed, sqrt).value.resourceDists
  {
    var ps := ResourcePairs(FinalResources(rs));
    var readings := ValuesFor(ps, name);
    if readings != [] {
      GroupBySpec(ps, name);
      var i := GetFound(GroupBy(ps), name);
      MapNonEmptyHas(GroupBy(ps), (v: seq<real>) requires v != [] => DistOf(v, sqrt), i);
    }
  }

  /** Each phase that some run entered gets the distribution and the confidence interval of
      its transition days, over the runs in order. */
  lemma TransitionDistsSpec(rs: seq<RunRecord>, elapsed: real, sqrt: real -> real, phase: string)
    requires SqrtLike(sqrt) && rs != []
    ensures var days := ValuesFor(Pairs(rs, TransitionOf), phase);
      var a := AnalyzeResults(rs, elapsed, sqrt).value;
      days != [] ==>
        && (phase, DistOf(days, sqrt)) in a.transitionDists
        && (phase, IntervalOf(Sorting.SortAsc(days), sqrt)) in a.confidence
        && (phase, Sorting.SortAsc(days)) in a.phaseTransitions
  {
    var ps := Pairs(rs, TransitionOf);
    var days := ValuesFor(ps, phase);
    if days != [] {
      GroupBySpec(ps, phase);
      var g := GroupBy(ps);
      var i := GetFound(g, phase);
      MapNonEmptyHas(g, (v: seq<real>) requires v != [] => DistOf(v, sqrt), i);
      var sorted := SortedLists(g);
      assert sorted[i] == (phase, Sorting.SortAsc(days));
      MapNonEmptyHas(sorted, (v: seq<real>) requires v != [] && SqrtLike(sqrt) => IntervalOf(v, sqrt), i);
    }
  }

  /** How `analyzeResults` goes as written: a non-empty list of final resources is an array of
      objects, so `calculateDistributions` finds no `length` on an entry and calls `sort` on an
      object, which throws. */
  datatype AsWritten = NoAnalysis | Throws | Analysed(a: Analysis)

  function AnalyzeResultsAsWritten(rs: seq<RunRecord>, elapsed: real, sqrt: real -> real): AsWritten
    requires SqrtLike(sqrt)
  {
    if rs == [] then NoAnalysis
    else if FinalResources(rs) != [] then Throws
    else Analysed(AnalyzeResults(rs, elapsed, sqrt).value)
  }

  /** As written, the analysis throws exactly when some run recorded its resources. */
  lemma AsWrittenThrows(rs: seq<RunRecord>, elapsed: real, sqrt: real -> real)
    requires SqrtLike(sqrt)
    ensures AnalyzeResultsAsWritten(rs, elapsed, sqrt) == Throws <==> exists i :: 0 <= i < |rs| && rs[i].resources.Some?
  {
    var f := ResourcesOf;
    if exists i :: 0 <= i < |rs| && rs[i].resources.Some? {
      var i :| 0 <= i < |rs| && rs[i].resources.Some?;
      CollectHas(rs, f, i);
    }
    if FinalResources(rs) != [] {
      var i := CollectFrom(rs, f, FinalResources(rs)[0]);
    }
  }

  /** A single run with one resource reading: the analysis as written throws, the corrected
      one reports that reading's distribution. */
  lemma OneReadingThrows(r: RunRecord, name: string, x: real, sqrt: real -> real)
    requires SqrtLike(sqrt) && r.resources == Some([(name, x)])
    ensures AnalyzeResultsAsWritten([r], 1.0, sqrt) == Throws
    ensures (name, DistOf([x], sqrt)) in AnalyzeResults([r], 1.0, sqrt).value.resourceDists
  {
    AsWrittenThrows([r], 1.0, sqrt);
    assert FinalResources([r]) == [[(name, x)]] by {
      CollectSingle(r, ResourcesOf);
    }
    assert ResourcePairs([[(name, x)]]) == [(name, x)] by {
      assert [[(name, x)]][..0] == [];
    }
    assert ValuesFor([(name, x)], name) == [x] by {
      assert [(name, x)][..0] == [];
    }
    ResourceDistsSpec([r], 1.0, sqrt, name);
  }

  // ---------------------------------------------------------------- the manager

  /** Run `i` as `completeRun` records it: the worker's run on the variants for index `i`,
      marked completed at its end time. */
  function FinishedRun(k: Config, outcome: (nat, BaseValues, Profile) -> RunRecord, ends: nat -> real,
                       sin: real -> real, i: nat): RunRecord
  {
    outcome(i, VariantGameValues(k, sin, i), VariantProfile(k, sin, i)).(runIndex := i, endTime := ends(i), completed := true)
  }

  datatype Progress = Progress(isRunning: bool, completed: nat, total: int, percentage: real, results: nat)

  datatype StartError = AlreadyRunning | NotConfigured

  datatype StartOutcome = Refused(error: StartError) | Finished(analysis: Option<Analysis>)

  class MonteCarloManager {
    /** The number of live worker managers; creating and destroying them is not modelled. */
    var workers: nat
    var isRunning: bool
    var completedRuns: nat
    var totalRuns: int
    var results: seq<RunRecord>
    var startTime: Option<real>
    var config: Option<Config>

    constructor ()
      ensures workers == 0 && !isRunning && completedRuns == 0 && totalRuns == 0
      ensures results == [] && startTime.None? && config.None?
    {
      workers := 0;
      isRunning := false;
      completedRuns := 0;
      totalRuns := 0;
      results := [];
      startTime := None;
      config := None;
    }

    method Configure(c: ConfigInput, hardwareConcurrency: Option<int>)
      modifies this
      ensures config == Some(ConfigOf(c, hardwareConcurrency))
      ensures workers == old(workers) && isRunning == old(isRunning) && completedRuns == old(completedRuns)
      ensures totalRuns == old(totalRuns) && results == old(results) && startTime == old(startTime)
    {
      config := Some(ConfigOf(c, hardwareConcurrency));
    }

    /** Stops and destroys every worker. */
    method Stop()
      modifies this
      ensures !isRunning && workers == 0
      ensures completedRuns == old(completedRuns) && totalRuns == old(totalRuns) && results == old(results)
      ensures startTime == old(startTime) && config == old(config)
    {
      isRunning := false;
      workers := 0;
    }

    /** Starts `min(maxWorkers, runs)` more workers; those of an earlier run are not removed. */
    method InitializeWorkers()
      requires config.Some?
      modifies this
      ensures config == old(config) && workers == old(workers) + WorkerCount(old(config).value)
      ensures isRunning == old(isRunning) && completedRuns == old(completedRuns) && totalRuns == old(totalRuns)
      ensures results == old(results) && startTime == old(startTime)
    {
      var count := Min(config.value.maxWorkers, config.value.runs);
      for i := 0 to if count > 0 then count else 0
        invariant workers == old(workers) + i
        invariant config == old(config) && isRunning == old(isRunning) && completedRuns == old(completedRuns)
        invariant totalRuns == old(totalRuns) && results == old(results) && startTime == old(startTime)
      {
        workers := workers + 1;
      }
    }

    /** The batch loops of `runSimulations`: which run goes to which batch and worker slot. */
    method Schedule() returns (s: seq<Slot>)
      requires config.Some? && (workers > 0 || config.value.runs <= 0)
      ensures var runs := if config.value.runs > 0 then config.value.runs else 0;
        && |s| == runs
        && forall i :: 0 <= i < runs ==> s[i] == Slot(i / workers, i, i % workers)
    {
      var runs := config.value.runs;
      s := [];
      if runs <= 0 {
        return;
      }
      var batchSize := workers;
      var batches := CeilDiv(runs, batchSize);
      for batch := 0 to batches
        invariant |s| == Min(batch * batchSize, runs)
        invariant forall i :: 0 <= i < |s| ==> s[i] == Slot(i / batchSize, i, i % batchSize)
      {
        var batchStart := batch * batchSize;
        BatchStep(batch, batches, runs, batchSize);
        s := ScheduleBatch(s, batch, batchStart, batchSize, runs);
      }
    }

    /** One batch: the runs from `batchStart` up to the next batch or the end, on consecutive
        slots. */
    static method ScheduleBatch(s0: seq<Slot>, batch: nat, batchStart: nat, batchSize: nat, runs: nat) returns (s: seq<Slot>)
      requires batchSize > 0 && batchStart == batch * batchSize && batchStart < runs
      requires |s0| == batchStart && forall i :: 0 <= i < |s0| ==> s0[i] == Slot(i / batchSize, i, i % batchSize)
      ensures |s| == Min(batchStart + batchSize, runs)
      ensures forall i :: 0 <= i < |s| ==> s[i] == Slot(i / batchSize, i, i % batchSize)
    {
      s := s0;
      var batchEnd := Min(batchStart + batchSize, runs);
      var runIndex := batchStart;
      while runIndex < batchEnd
        invariant batchStart <= runIndex <= batchEnd
        invariant |s| == runIndex
        invariant forall i :: 0 <= i < |s| ==> s[i] == Slot(i / batchSize, i, i % batchSize)
      {
        DivUnique(runIndex, batch, batchSize);
        s := s + [Slot(batch, runIndex, runIndex % batchSize)];
        runIndex := runIndex + 1;
      }
    }

    /** Records a finished run: one more completed run and its result, marked completed. */
    method CompleteRun(run: RunRecord, endTime: real)
      modifies this`results, this`completedRuns
      ensures results == old(results) + [run.(endTime := endTime, completed := true)]
      ensures completedRuns == old(completedRuns) + 1
    {
      results := results + [run.(endTime := endTime, completed := true)];
      completedRuns := completedRuns + 1;
    }

    /** `start`: refused while running or before configuration; otherwise every scheduled run
        is carried out (as `outcome` reports it, ending at `ends`) and completed in index order,
        and the results are analysed. Each run gets the game values and the player profile
        varied for its index. */
    method Start(outcome: (nat, BaseValues, Profile) -> RunRecord, ends: nat -> real, sin: real -> real,
                 now: real, finish: real, sqrt: real -> real) returns (r: StartOutcome)
      requires SqrtLike(sqrt)
      requires config.Some? && !isRunning ==> workers + WorkerCount(config.value) > 0 || config.value.runs <= 0
      modifies this
      ensures old(isRunning) ==> r == Refused(AlreadyRunning)
      ensures !old(isRunning) && old(config).None? ==> r == Refused(NotConfigured)
      ensures r.Refused? ==> results == old(results) && completedRuns == old(completedRuns) && isRunning == old(isRunning)
      ensures !old(isRunning) && old(config).Some? ==>
        var runs := if old(config).value.runs > 0 then old(config).value.runs else 0;
        && |results| == runs && completedRuns == runs && totalRuns == old(config).value.runs
        && (forall i :: 0 <= i < runs ==> results[i] == FinishedRun(old(config).value, outcome, ends, sin, i))
        && r == Finished(AnalyzeResults(results, finish - now, sqrt))
        && !isRunning && startTime == Some(now)
    {
      if isRunning {
        return Refused(AlreadyRunning);
      }
      if config.None? {
        return Refused(NotConfigured);
      }
      isRunning := true;
      completedRuns := 0;
      totalRuns := config.value.runs;
      results := [];
      startTime := Some(now);
      InitializeWorkers();
      RunScheduled(outcome, ends, sin);
      var analysis := AnalyzeResults(results, finish - now, sqrt);
      isRunning := false;
      r := Finished(analysis);
    }

    /** The runs of `start`, in schedule order: each is carried out with the game values and
        profile varied for its index and completed, so the results are the finished runs by index. */
    method RunScheduled(outcome: (nat, BaseValues, Profile) -> RunRecord, ends: nat -> real, sin: real -> real)
      requires config.Some? && (workers > 0 || config.value.runs <= 0)
      requires results == [] && completedRuns == 0
      modifies this`results, this`completedRuns
      ensures var runs := if config.value.runs > 0 then config.value.runs else 0;
        && |results| == runs && completedRuns == runs
        && forall i :: 0 <= i < runs ==> results[i] == FinishedRun(config.value, outcome, ends, sin, i)
    {
      var slots := Schedule();
      for i := 0 to |slots|
        invariant |results| == i && completedRuns == i
        invariant forall j :: 0 <= j < i ==> results[j] == FinishedRun(config.value, outcome, ends, sin, j)
      {
        var runIndex := slots[i].runIndex;
        var run := outcome(runIndex, VariantGameValues(config.value, sin, runIndex), VariantProfile(config.value, sin, runIndex));
        CompleteRun(run.(runIndex := runIndex), ends(runIndex));
      }
    }

    /** `getProgress`: the percentage of runs done, 0 when there are no runs. */
    function GetProgress(): (p: Progress)
      reads this
      ensures totalRuns <= 0 ==> p.percentage == 0.0
      ensures totalRuns > 0 ==> p.percentage * totalRuns as real == completedRuns as real * 100.0
      ensures p.completed == completedRuns && p.results == |results|
    {
      Progress(isRunning, completedRuns, totalRuns,
        if totalRuns > 0 then completedRuns as real / totalRuns as real * 100.0 else 0.0, |results|)
    }
  }

  /** `calculateDistributions` on arrays: each non-empty list is sorted in place, and the
      distributions are those of the lists as they were. */
  method CalculateDistributions(data: seq<(string, array<real>)>, ghost before: Obj<seq<real>>, sqrt: real -> real)
    returns (dists: Obj<Dist>)
    requires |before| == |data|
    requires forall i :: 0 <= i < |data| ==> before[i] == (data[i].0, data[i].1[..])
    requires forall i, j :: 0 <= i < j < |data| ==> data[i].1 != data[j].1
    modifies set i | 0 <= i < |data| :: data[i].1
    ensures dists == Distributions(before, sqrt)
    ensures forall i :: 0 <= i < |data| ==> data[i].1[..] == Sorting.SortAsc(before[i].1)
  {
    dists := [];
    for k := 0 to |data|
      invariant dists == Distributions(before[..k], sqrt)
      invariant forall i :: 0 <= i < k ==> data[i].1[..] == Sorting.SortAsc(before[i].1)
      invariant forall i :: k <= i < |data| ==> data[i].1[..] == before[i].1
    {
      DistributionsSnoc(before, k, sqrt);
      var (key, a) := data[k];
      if a.Length != 0 {
        var d := DistOf(a[..], sqrt);
        SortInPlace(a);
        dists := dists + [(key, d)];
        forall i | 0 <= i < |data| && i != k ensures data[i].1 != a {
          if i < k {
            assert data[i].1 != data[k].1;
          } else {
            assert data[k].1 != data[i].1;
          }
        }
      } else {
        assert before[k].1 == [];
      }
    }
    assert before[..|data|] == before;
  }

  /** `values.sort((a, b) => a - b)` on an array. */
  method SortInPlace(a: array<real>)
    modifies a
    ensures a[..] == Sorting.SortAsc(old(a[..]))
  {
    var s := Sorting.SortAsc(a[..]);
    for i := 0 to a.Length
      invariant forall j :: 0 <= j < i ==> a[j] == s[j]
    {
      a[i] := s[i];
    }
    assert a[..] == s;
  }
}
