/**
 * The path-finding utility over the upgrade tree: the critical path to a target with its
 * cost, time, bottlenecks, farm-stage requirements and alternatives; the best next upgrades;
 * completeness per vendor; and the gaps that block progression.
 */
module Pathfinding {
  import opened Common
  import opened Sorting
  import opened Upgrades
  import opened Prerequisites
  import opened Calculator

  // ---------------------------------------------------------------- critical path

  datatype Alternative = Alternative(path: seq<string>, totalCost: TotalCost, score: real)

  datatype PathBottleneck =
    | ResourceBottleneck(upgradeId: string, upgradeName: string, bottleneck: Option<Bottleneck>, description: string)
    | FarmStageBottleneck(upgradeId: string, upgradeName: string, stage: string, description: string)

  datatype CriticalPath = CriticalPath(
    path: seq<string>,
    totalCost: TotalCost,
    estimatedTime: Hours,
    bottlenecks: seq<PathBottleneck>,
    farmStageRequirements: seq<string>,
    alternatives: seq<Alternative>)

  /** `findCriticalPath(targetId, allUpgrades, gameState)`: the path of the prerequisite
      traversal together with its cost, its time with resources spent along the way, its
      bottlenecks, its farm stages and at most one alternative. */
  method FindCriticalPath(targetId: string, c: Catalogue, gs: TreeState) returns (r: CriticalPath)
    requires WellFormed(c)
    ensures Distinct(r.path)
    ensures forall x :: x in r.path ==> x !in gs.ownedUpgrades && x in c.byId
    ensures targetId !in gs.ownedUpgrades && targetId in c.byId ==> |r.path| > 0 && r.path[|r.path| - 1] == targetId
    ensures Closed(c, gs.ownedUpgrades, r.path)
    ensures Acyclic(c) ==> PrerequisitesFirst(c, gs.ownedUpgrades, r.path)
    ensures r.totalCost == CalculatePathCost(r.path, c)
    ensures r.estimatedTime == PathTime(r.path, c, gs)
    ensures r.bottlenecks == FindPathBottlenecks(r.path, c, gs)
    ensures r.farmStageRequirements == FindFarmStageRequirements(r.path, c)
    ensures |r.alternatives| <= 1
    ensures forall a :: a in r.alternatives ==> AlternativeFor(a, targetId, c, gs.ownedUpgrades)
  {
    var path := Prerequisites.FindCriticalPath(targetId, c, gs);
    var time := EstimatePathTime(path, c, gs);
    var alternatives := FindAlternativePaths(targetId, c, gs, 3);
    r := CriticalPath(path, CalculatePathCost(path, c), time, FindPathBottlenecks(path, c, gs),
      FindFarmStageRequirements(path, c), alternatives);
  }

  /** Every unowned catalogue prerequisite of a path element is on the path. */
  ghost predicate Closed(c: Catalogue, owned: seq<string>, path: seq<string>)
  {
    forall x, p ::
      (x in path && x in c.byId && p in ParsePrerequisites(c.byId[x].prerequisite).upgrades
       && p !in owned && p in c.byId) ==> p in path
  }

  // ---------------------------------------------------------------- alternatives

  /** An alternative ends with the target; before it come the unowned catalogue upgrades the
      target needs, each once, closed under prerequisites, prerequisites first when there is no
      cycle; its cost and its score are those of its path. */
  ghost predicate AlternativeFor(a: Alternative, targetId: string, c: Catalogue, owned: seq<string>)
  {
    |a.path| > 0 && a.path[|a.path| - 1] == targetId
    && a.totalCost == CalculatePathCost(a.path, c)
    && a.score == PathScore(a.path, c)
    && var before := a.path[..|a.path| - 1];
    && Distinct(before)
    && (forall x :: x in before ==> x !in owned && x in c.byId)
    && Closed(c, owned, before)
    && (targetId in c.byId ==> forall p ::
          p in ParsePrerequisites(c.byId[targetId].prerequisite).upgrades && p !in owned && p in c.byId ==> p in before)
    && (Acyclic(c) ==> PrerequisitesFirst(c, owned, before))
  }

  /** `generatePrereqCombinations(prerequisites)`: both of its branches give the one
      combination of all the prerequisites. */
  function GeneratePrereqCombinations(prerequisites: seq<string>): (r: seq<seq<string>>)
  {
    if |prerequisites| <= 1 then [prerequisites] else [prerequisites]
  }

  function ScoreOf(a: Alternative): real { a.score }

  /** The entry `findAlternativePaths` records for a path: the path, its cost, its score. */
  function AlternativeOf(path: seq<string>, c: Catalogue): Alternative
  {
    Alternative(path, CalculatePathCost(path, c), PathScore(path, c))
  }

  /** `findAlternativePaths(targetId, allUpgrades, gameState, maxAlternatives)`: nothing for an
      unknown target; otherwise one path per combination, up to `maxAlternatives`, each built
      by the prerequisite traversal with one visited set per combination and the target pushed
      last, best score first. */
  method FindAlternativePaths(targetId: string, c: Catalogue, gs: TreeState, maxAlternatives: nat)
    returns (alts: seq<Alternative>)
    requires WellFormed(c)
    ensures targetId !in c.byId ==> alts == []
    ensures targetId in c.byId ==> |alts| == (if maxAlternatives == 0 then 0 else 1)
    ensures NonIncreasing(alts, ScoreOf)
    ensures forall a :: a in alts ==> AlternativeFor(a, targetId, c, gs.ownedUpgrades)
  {
    var g := BuildDependencyGraph(c);
    if targetId !in g.nodes {
      return [];
    }
    var owned := gs.ownedUpgrades;
    var combos := GeneratePrereqCombinations(g.nodes[targetId].prerequisites.upgrades);
    var chosen := combos[..if maxAlternatives < |combos| then maxAlternatives else |combos|];
    ghost var rank: map<string, nat> := map[];
    if exists rk :: Ranked(g, rk) {
      rank :| Ranked(g, rank);
    }
    var found: seq<Alternative> := [];
    var j := 0;
    while j < |chosen|
      invariant 0 <= j <= |chosen|
      invariant |found| == j
      invariant forall a :: a in found ==> AlternativeFor(a, targetId, c, owned)
    {
      var combination := chosen[j];
      var altVisited, altPath := VisitCombination(combination, g, owned, rank);
      AlternativeOk(targetId, c, g, owned, altVisited, altPath, rank);
      var full := altPath + [targetId];
      found := found + [AlternativeOf(full, c)];
      j := j + 1;
    }
    alts := SortDesc(found, ScoreOf);
    forall a | a in alts ensures AlternativeFor(a, targetId, c, owned) {
      assert multiset(alts)[a] > 0;
    }
  }

  /** `combination.forEach(upgradeId => buildAlternativePath(upgradeId, altPath, altVisited, …))`
      from an empty path and an empty visited set. */
  method VisitCombination(combination: seq<string>, g: Graph, owned: seq<string>, ghost rank: map<string, nat>)
    returns (altVisited: set<string>, altPath: seq<string>)
    ensures PathInv(g, owned, altVisited, altPath)
    ensures forall v :: v in altVisited && v in g.nodes ==> v in altPath
    ensures forall p :: p in combination && p !in owned ==> p in altVisited
    ensures Ranked(g, rank) ==> Ordered(g, owned, altPath)
  {
    altPath := [];
    altVisited := {};
    var k := 0;
    while k < |combination|
      invariant 0 <= k <= |combination|
      invariant PathInv(g, owned, altVisited, altPath)
      invariant forall v :: v in altVisited && v in g.nodes ==> v in altPath
      invariant forall p :: p in combination[..k] && p !in owned ==> p in altVisited
      invariant Ranked(g, rank) ==> Settled(g, altVisited, altPath, {}) && Ordered(g, owned, altPath)
    {
      altVisited, altPath := BuildPath(combination[k], g, owned, altVisited, altPath, {}, rank);
      assert combination[..k + 1] == combination[..k] + [combination[k]];
      k := k + 1;
    }
    assert combination[..k] == combination;
  }

  /** The traversal over the target's prerequisites meets every condition on what precedes
      the target. */
  lemma AlternativeOk(targetId: string, c: Catalogue, g: Graph, owned: seq<string>,
                      visited: set<string>, path: seq<string>, rank: map<string, nat>)
    requires NodeOf(c, g.nodes) && targetId in g.nodes
    requires PathInv(g, owned, visited, path)
    requires forall v :: v in visited && v in g.nodes ==> v in path
    requires forall p :: p in g.nodes[targetId].prerequisites.upgrades && p !in owned ==> p in visited
    requires Ranked(g, rank) ==> Ordered(g, owned, path)
    requires (exists rk :: Ranked(g, rk)) ==> Ranked(g, rank)
    ensures AlternativeFor(AlternativeOf(path + [targetId], c), targetId, c, owned)
  {
    var full := path + [targetId];
    assert full[..|full| - 1] == path;
    PathPrecedes(targetId, c, g, owned, visited, path);
    if Acyclic(c) {
      PathOrdered(c, g, owned, path, rank);
    }
  }

  /** What precedes the target: distinct, unowned catalogue upgrades closed under their
      prerequisites, including the target's own. */
  lemma PathPrecedes(targetId: string, c: Catalogue, g: Graph, owned: seq<string>,
                     visited: set<string>, path: seq<string>)
    requires NodeOf(c, g.nodes) && targetId in g.nodes
    requires PathInv(g, owned, visited, path)
    requires forall v :: v in visited && v in g.nodes ==> v in path
    requires forall p :: p in g.nodes[targetId].prerequisites.upgrades && p !in owned ==> p in visited
    ensures Distinct(path) && (forall x :: x in path ==> x !in owned && x in c.byId) && Closed(c, owned, path)
    ensures targetId in c.byId ==> forall p ::
      p in ParsePrerequisites(c.byId[targetId].prerequisite).upgrades && p !in owned && p in c.byId ==> p in path
  {
  }

  /** On an acyclic catalogue the traversal puts prerequisites first. */
  lemma PathOrdered(c: Catalogue, g: Graph, owned: seq<string>, path: seq<string>, rank: map<string, nat>)
    requires NodeOf(c, g.nodes) && Acyclic(c)
    requires Ranked(g, rank) ==> Ordered(g, owned, path)
    requires (exists rk :: Ranked(g, rk)) ==> Ranked(g, rank)
    ensures PrerequisitesFirst(c, owned, path)
  {
    var rk :| CatalogueRanked(c, rk);
    assert Ranked(g, rk);
  }

  /** `calculatePathScore(path, allUpgrades, gameState)` */
  function PathScore(path: seq<string>, c: Catalogue): real
  {
    var costs := CalculatePathCost(path, c);
    1000.0 - 10.0 * |path| as real - 0.001 * costs.gold as real
      - 50.0 * (|costs.materials| + |costs.bossMaterials|) as real
  }

  /** Adding amounts never removes a key. */
  lemma {:induction false} AddAmountsGrows(total: Obj<int>, add: Obj<int>)
    ensures |AddAmounts(total, add)| >= |total|
    decreases |add|
  {
    if add != [] {
      AddAmountsGrows(Put(total, add[0].0, Amount(total, add[0].0) + add[0].1), add[1..]);
    }
  }

  lemma {:induction false} SumCostsAppend(a: seq<Costs>, x: Costs, acc: TotalCost)
    ensures SumCosts(a + [x], acc) == AddCosts(SumCosts(a, acc), x)
  {
    if a == [] {
      assert a + [x] == [x];
    } else {
      assert (a + [x])[1..] == a[1..] + [x];
      SumCostsAppend(a[1..], x, AddCosts(acc, a[0]));
    }
  }

  /** One more upgrade that does not pay gold back lowers the score by at least 10, so a
      path ranks below every path it extends. */
  lemma PathScoreAppend(path: seq<string>, x: string, c: Catalogue)
    requires x in c.byId ==> ParseUpgradeCosts(c.byId[x]).gold >= 0
    ensures PathScore(path + [x], c) <= PathScore(path, c) - 10.0
  {
    KnownCostsConcat(path, [x], c);
    var before := CalculatePathCost(path, c);
    var after := CalculatePathCost(path + [x], c);
    assert KnownCosts([x], c) == (if x in c.byId then [ParseUpgradeCosts(c.byId[x])] else []);
    if x in c.byId {
      var cx := ParseUpgradeCosts(c.byId[x]);
      SumCostsAppend(KnownCosts(path, c), cx, NoCost);
      assert after == AddCosts(before, cx);
      AddAmountsGrows(before.materials, cx.materials);
      AddAmountsGrows(before.bossMaterials, cx.bossMaterials);
    } else {
      assert KnownCosts(path, c) + [] == KnownCosts(path, c);
    }
  }

  // ---------------------------------------------------------------- path time

  /** `a + b` where either may be `Infinity`. */
  function AddHours(a: Hours, b: Hours): Hours
  {
    if a.Infinite? || b.Infinite? then Infinite else Finite(a.h + b.h)
  }

  /** `Math.max(0, (resources.gold || 0) - costs.gold)`, the same for energy. */
  function Spend(res: Resources, costs: Costs): Resources
  {
    var g := res.gold - costs.gold as real;
    var e := res.energy - costs.energy as real;
    res.(gold := if 0.0 >= g then 0.0 else g, energy := if 0.0 >= e then 0.0 else e)
  }

  /** The time to afford each of a list of costs, with the gold and energy of earlier ones
      already spent. */
  function StepTimes(cs: seq<Costs>, res: Resources, rates: IncomeRates): (r: seq<Hours>)
    ensures |r| == |cs|
  {
    if cs == [] then []
    else [TimeFrom(CanAffordCosts(cs[0], res), rates).hours] + StepTimes(cs[1..], Spend(res, cs[0]), rates)
  }

  function SumHours(hs: seq<Hours>): Hours
  {
    if hs == [] then Finite(0.0) else AddHours(hs[0], SumHours(hs[1..]))
  }

  /** The time `estimatePathTime` computes: the step times of the path's known upgrades. */
  function PathTime(path: seq<string>, c: Catalogue, gs: TreeState): Hours
  {
    SumHours(StepTimes(KnownCosts(path, c), gs.resources, gs.incomeRates))
  }

  /** `estimatePathTime(path, allUpgrades, gameState)` */
  method EstimatePathTime(path: seq<string>, c: Catalogue, gs: TreeState) returns (total: Hours)
    ensures total == PathTime(path, c, gs)
  {
    var rates := gs.incomeRates;
    var simulated := gs.resources;
    total := Finite(0.0);
    var i := 0;
    while i < |path|
      invariant 0 <= i <= |path|
      invariant Walk(path[..i], c, gs.resources, rates).simulated == simulated
      invariant Walk(path[..i], c, gs.resources, rates).total == total
    {
      assert path[..i + 1][..i] == path[..i];
      if path[i] in c.byId {
        var u := c.byId[path[i]];
        var wait := WaitHours(u, simulated, rates);
        total := AddHours(total, wait);
        var costs := ParseUpgradeCosts(u);
        simulated := Spend(simulated, costs);
      }
      i := i + 1;
    }
    assert path[..|path|] == path;
    WalkTotal(path, c, gs.resources, rates);
  }

  /** What the loop of `estimatePathTime` has after some ids of the path: the simulated
      resources, the running total, and how many of the ids were known upgrades. */
  datatype Walked = Walked(simulated: Resources, total: Hours, known: nat)

  /** The loop of `estimatePathTime` over the ids of `path`, one id at a time. */
  ghost function Walk(path: seq<string>, c: Catalogue, res: Resources, rates: IncomeRates): Walked
  {
    if path == [] then Walked(res, Finite(0.0), 0)
    else
      var w := Walk(path[..|path| - 1], c, res, rates);
      var x := path[|path| - 1];
      if x in c.byId then
        var costs := ParseUpgradeCosts(c.byId[x]);
        Walked(Spend(w.simulated, costs),
          AddHours(w.total, TimeFrom(CanAffordCosts(costs, w.simulated), rates).hours), w.known + 1)
      else w
  }

  /** Walking the first `i` ids of a path makes progress over the path's known costs. */
  lemma {:induction false} WalkProgress(path: seq<string>, i: nat, c: Catalogue, res: Resources,
                                        rates: IncomeRates)
    requires i <= |path|
    ensures var w := Walk(path[..i], c, res, rates);
      Progress(path, i, c, res, rates, w.known, w.simulated, w.total)
  {
    if i == 0 {
      assert path[..0] == [];
      assert StepTimes(KnownCosts(path, c), res, rates)[..0] == [];
    } else {
      WalkProgress(path, i - 1, c, res, rates);
      assert path[..i][..i - 1] == path[..i - 1];
      var w := Walk(path[..i - 1], c, res, rates);
      if path[i - 1] in c.byId {
        KnownStep(path, i - 1, c, res, rates, w.known, w.simulated, w.total);
      } else {
        UnknownStep(path, i - 1, c, res, rates, w.known, w.simulated, w.total);
      }
    }
  }

  /** Walking the whole path totals the step times of its known costs. */
  lemma WalkTotal(path: seq<string>, c: Catalogue, res: Resources, rates: IncomeRates)
    ensures Walk(path, c, res, rates).total == SumHours(StepTimes(KnownCosts(path, c), res, rates))
  {
    WalkProgress(path, |path|, c, res, rates);
    assert path[..|path|] == path;
    var w := Walk(path, c, res, rates);
    ProgressDone(path, c, res, rates, w.known, w.simulated, w.total);
  }

  /** The resources after spending the first `j` costs. */
  function SpentAfter(cs: seq<Costs>, res: Resources, j: nat): Resources
    requires j <= |cs|
  {
    if j == 0 then res else Spend(SpentAfter(cs, res, j - 1), cs[j - 1])
  }

  /** After `i` ids of the path, `j` of them known: the simulated resources have paid for those
      `j`, and the total is the sum of their step times. */
  ghost predicate Progress(path: seq<string>, i: nat, c: Catalogue, res: Resources, rates: IncomeRates,
                           j: nat, simulated: Resources, total: Hours)
  {
    var cs := KnownCosts(path, c);
    i <= |path| && j <= |cs|
    && KnownCosts(path[..i], c) == cs[..j]
    && simulated == SpentAfter(cs, res, j)
    && total == SumHours(StepTimes(cs, res, rates)[..j])
  }

  lemma KnownStep(path: seq<string>, i: nat, c: Catalogue, res: Resources, rates: IncomeRates,
                  j: nat, simulated: Resources, total: Hours)
    requires i < |path| && path[i] in c.byId
    requires Progress(path, i, c, res, rates, j, simulated, total)
    ensures var u := c.byId[path[i]];
      Progress(path, i + 1, c, res, rates, j + 1, Spend(simulated, ParseUpgradeCosts(u)),
        AddHours(total, TimeFrom(CanAffordCosts(ParseUpgradeCosts(u), simulated), rates).hours))
  {
    var u := c.byId[path[i]];
    var cs := KnownCosts(path, c);
    KnownPrefixStep(path, i, c, j);
    var hs := StepTimes(cs, res, rates);
    StepTimesAt(cs, res, rates, j);
    SumPrefixStep(hs, j);
  }

  /** `calculateTimeToAfford(upgrade, simulatedResources, incomeRates).timeInHours`. */
  method WaitHours(u: Upgrade, res: Resources, rates: IncomeRates) returns (h: Hours)
    ensures h == TimeFrom(CanAffordCosts(ParseUpgradeCosts(u), res), rates).hours
  {
    var timeCalc := CalculateTimeToAfford(u, res, rates);
    WaitOf(u, res, rates);
    h := timeCalc.timeInHours;
  }

  /** The wait `calculateTimeToAfford` reports, in terms of the parsed costs. */
  lemma WaitOf(u: Upgrade, res: Resources, rates: IncomeRates)
    ensures CalculateTimeToAfford(u, res, rates).timeInHours
      == TimeFrom(CanAffordCosts(ParseUpgradeCosts(u), res), rates).hours
  {
  }

  lemma SumPrefixStep(hs: seq<Hours>, j: nat)
    requires j < |hs|
    ensures SumHours(hs[..j + 1]) == AddHours(SumHours(hs[..j]), hs[j])
  {
    SumHoursSnoc(hs[..j], hs[j]);
    assert hs[..j + 1] == hs[..j] + [hs[j]];
  }

  /** A known id extends the known costs of the prefix by its own parsed costs. */
  lemma KnownPrefixStep(path: seq<string>, i: nat, c: Catalogue, j: nat)
    requires i < |path| && path[i] in c.byId
    requires j <= |KnownCosts(path, c)| && KnownCosts(path[..i], c) == KnownCosts(path, c)[..j]
    ensures j < |KnownCosts(path, c)|
    ensures KnownCosts(path, c)[j] == ParseUpgradeCosts(c.byId[path[i]])
    ensures KnownCosts(path[..i + 1], c) == KnownCosts(path, c)[..j + 1]
  {
    var cs := KnownCosts(path, c);
    var x := ParseUpgradeCosts(c.byId[path[i]]);
    PrefixStep(path, i, c);
    assert KnownCosts(path[..i + 1], c) == cs[..j] + [x];
    KnownCostsConcat(path[..i + 1], path[i + 1..], c);
    assert path[..i + 1] + path[i + 1..] == path;
    assert cs == cs[..j] + [x] + KnownCosts(path[i + 1..], c);
    assert cs[j] == x;
    assert cs[..j + 1] == cs[..j] + [x];
  }

  lemma UnknownStep(path: seq<string>, i: nat, c: Catalogue, res: Resources, rates: IncomeRates,
                    j: nat, simulated: Resources, total: Hours)
    requires i < |path| && path[i] !in c.byId
    requires Progress(path, i, c, res, rates, j, simulated, total)
    ensures Progress(path, i + 1, c, res, rates, j, simulated, total)
  {
    PrefixStep(path, i, c);
  }

  lemma ProgressDone(path: seq<string>, c: Catalogue, res: Resources, rates: IncomeRates,
                     j: nat, simulated: Resources, total: Hours)
    requires Progress(path, |path|, c, res, rates, j, simulated, total)
    ensures total == SumHours(StepTimes(KnownCosts(path, c), res, rates))
  {
    var cs := KnownCosts(path, c);
    assert path[..|path|] == path;
    assert |cs[..j]| == j;
    assert j == |cs|;
    var hs := StepTimes(cs, res, rates);
    assert hs[..j] == hs;
  }

  /** The known costs of one more id of the path. */
  lemma PrefixStep(path: seq<string>, i: nat, c: Catalogue)
    requires i < |path|
    ensures KnownCosts(path[..i + 1], c)
      == KnownCosts(path[..i], c) + (if path[i] in c.byId then [ParseUpgradeCosts(c.byId[path[i]])] else [])
  {
    assert path[..i + 1] == path[..i] + [path[i]];
    KnownCostsConcat(path[..i], [path[i]], c);
    assert KnownCosts([path[i]], c)
      == (if path[i] in c.byId then [ParseUpgradeCosts(c.byId[path[i]])] else []) + KnownCosts([], c);
  }

  /** Step `j` is the wait for cost `j` once the earlier ones are paid. */
  lemma {:induction false} StepTimesAt(cs: seq<Costs>, res: Resources, rates: IncomeRates, j: nat)
    requires j < |cs|
    ensures StepTimes(cs, res, rates)[j] == TimeFrom(CanAffordCosts(cs[j], SpentAfter(cs, res, j)), rates).hours
  {
    if j > 0 {
      StepTimesAt(cs[1..], Spend(res, cs[0]), rates, j - 1);
      SpentAfterShift(cs, res, j);
    }
  }

  lemma {:induction false} SpentAfterShift(cs: seq<Costs>, res: Resources, j: nat)
    requires 0 < j <= |cs|
    ensures SpentAfter(cs, res, j) == SpentAfter(cs[1..], Spend(res, cs[0]), j - 1)
  {
    if j > 1 {
      SpentAfterShift(cs, res, j - 1);
    }
  }

  lemma {:induction false} SumHoursSnoc(hs: seq<Hours>, h: Hours)
    ensures SumHours(hs + [h]) == AddHours(SumHours(hs), h)
  {
    if hs == [] {
      assert [] + [h] == [h];
    } else {
      assert (hs + [h])[1..] == hs[1..] + [h];
      SumHoursSnoc(hs[1..], h);
    }
  }

  /** The sum is infinite exactly when some step is, and a finite sum is at least each step. */
  lemma {:induction false} SumHoursSpec(hs: seq<Hours>)
    requires forall i :: 0 <= i < |hs| && hs[i].Finite? ==> hs[i].h >= 0.0
    ensures SumHours(hs).Infinite? <==> exists i :: 0 <= i < |hs| && hs[i].Infinite?
    ensures SumHours(hs).Finite? ==> forall i :: 0 <= i < |hs| ==> 0.0 <= hs[i].h <= SumHours(hs).h
  {
    if hs != [] {
      SumHoursSpec(hs[1..]);
      assert forall i :: 1 <= i < |hs| ==> hs[i] == hs[1..][i - 1];
      if exists i :: 0 <= i < |hs| && hs[i].Infinite? {
        var i :| 0 <= i < |hs| && hs[i].Infinite?;
        if i > 0 { assert hs[1..][i - 1].Infinite?; }
      }
    }
  }

  /** Every step time is a non-negative number of hours or infinite. */
  lemma {:induction false} StepTimesNonNegative(cs: seq<Costs>, res: Resources, rates: IncomeRates)
    ensures forall i :: 0 <= i < |cs| && StepTimes(cs, res, rates)[i].Finite? ==> StepTimes(cs, res, rates)[i].h >= 0.0
  {
    if cs != [] {
      var hs := StepTimes(cs, res, rates);
      var rest := StepTimes(cs[1..], Spend(res, cs[0]), rates);
      StepTimesNonNegative(cs[1..], Spend(res, cs[0]), rates);
      TimeFromNonNegative(CanAffordCosts(cs[0], res), rates);
      assert forall i :: 1 <= i < |hs| ==> hs[i] == rest[i - 1];
    }
  }

  /** A finite wait is never negative. */
  lemma TimeFromNonNegative(a: Affordability, rates: IncomeRates)
    ensures TimeFrom(a, rates).hours.Finite? ==> TimeFrom(a, rates).hours.h >= 0.0
  {
  }

  /** The path time is infinite exactly when one of its steps can never be afforded, and
      otherwise it is at least as long as every step. */
  lemma PathTimeSpec(cs: seq<Costs>, res: Resources, rates: IncomeRates)
    ensures var hs := StepTimes(cs, res, rates);
      var t := SumHours(hs);
      && (t.Infinite? <==> exists i :: 0 <= i < |hs| && hs[i].Infinite?)
      && (t.Finite? ==> t.h >= 0.0 && forall i :: 0 <= i < |hs| ==> 0.0 <= hs[i].h <= t.h)
  {
    var hs := StepTimes(cs, res, rates);
    StepTimesNonNegative(cs, res, rates);
    SumHoursSpec(hs);
    if hs == [] {
      assert SumHours(hs) == Finite(0.0);
    } else if SumHours(hs).Finite? {
      assert 0.0 <= hs[0].h;
    }
  }

  /** The first step is the time to afford the first known upgrade at the current resources. */
  lemma FirstStep(u: Upgrade, res: Resources, rates: IncomeRates, rest: seq<Costs>)
    ensures StepTimes([ParseUpgradeCosts(u)] + rest, res, rates)[0] == CalculateTimeToAfford(u, res, rates).timeInHours
  {
  }

  /** Spending keeps gold and energy at zero or above, takes exactly the cost when it was
      affordable, and leaves the materials alone. */
  lemma SpendSpec(res: Resources, costs: Costs)
    ensures var r := Spend(res, costs);
      && r.gold >= 0.0 && r.energy >= 0.0
      && r.materials == res.materials && r.bossMaterials == res.bossMaterials
      && (CanAffordCosts(costs, res).canAfford ==>
            r.gold == res.gold - costs.gold as real && r.energy == res.energy - costs.energy as real)
  {
  }

  // ---------------------------------------------------------------- bottlenecks

  /** The resource entry `findPathBottlenecks` records for a known upgrade. */
  function ResourceEntry(id: string, u: Upgrade, gs: TreeState): PathBottleneck
  {
    var t := CalculateTimeToAfford(u, gs.resources, gs.incomeRates);
    ResourceBottleneck(id, u.name, t.bottleneck, "Cannot afford: " + t.timeFormatted)
  }

  function StageEntry(id: string, u: Upgrade, stage: string): PathBottleneck
  {
    FarmStageBottleneck(id, u.name, stage, "Requires farm stage: " + stage)
  }

  function StageEntries(id: string, u: Upgrade, stages: seq<string>, have: seq<string>): (r: seq<PathBottleneck>)
    ensures forall b :: b in r <==> exists s :: s in stages && s !in have && b == StageEntry(id, u, s)
  {
    if stages == [] then []
    else
      (if stages[0] in have then [] else [StageEntry(id, u, stages[0])]) + StageEntries(id, u, stages[1..], have)
  }

  function NeverAffordable(u: Upgrade, gs: TreeState): bool
  {
    CalculateTimeToAfford(u, gs.resources, gs.incomeRates).timeInHours.Infinite?
  }

  function StagesOf(u: Upgrade): seq<string>
  {
    ParsePrerequisites(u.prerequisite).farmStages
  }

  /** `findPathBottlenecks(path, allUpgrades, gameState)`: for each known upgrade of the path, a
      resource entry when it can never be afforded at the current resources, and an entry per
      farm stage it needs that is not reached. */
  function FindPathBottlenecks(path: seq<string>, c: Catalogue, gs: TreeState): seq<PathBottleneck>
  {
    if path == [] then []
    else
      var rest := FindPathBottlenecks(path[1..], c, gs);
      if path[0] !in c.byId then rest
      else
        var u := c.byId[path[0]];
        (if NeverAffordable(u, gs) then [ResourceEntry(path[0], u, gs)] else [])
        + StageEntries(path[0], u, StagesOf(u), gs.farmStages)
        + rest
  }

  /** Every entry is for a known upgrade of the path: a resource entry for one that can never
      be afforded, a farm-stage entry for a stage it needs and that is not reached. */
  lemma {:induction false} BottlenecksSound(path: seq<string>, c: Catalogue, gs: TreeState)
    ensures var r := FindPathBottlenecks(path, c, gs);
      forall b :: b in r ==>
        (&& b.upgradeId in path && b.upgradeId in c.byId
         && (b.ResourceBottleneck? ==>
               NeverAffordable(c.byId[b.upgradeId], gs) && b == ResourceEntry(b.upgradeId, c.byId[b.upgradeId], gs))
         && (b.FarmStageBottleneck? ==>
               b.stage in StagesOf(c.byId[b.upgradeId]) && b.stage !in gs.farmStages
               && b == StageEntry(b.upgradeId, c.byId[b.upgradeId], b.stage)))
  {
    if path != [] {
      BottlenecksSound(path[1..], c, gs);
    }
  }

  /** Every known upgrade of the path that can never be afforded has its resource entry, and
      every farm stage such an upgrade needs and that is not reached has its entry. */
  lemma {:induction false} BottlenecksComplete(path: seq<string>, c: Catalogue, gs: TreeState)
    ensures var r := FindPathBottlenecks(path, c, gs);
      && (forall id :: id in path && id in c.byId && NeverAffordable(c.byId[id], gs) ==>
            ResourceEntry(id, c.byId[id], gs) in r)
      && (forall id, s :: id in path && id in c.byId && s in StagesOf(c.byId[id]) && s !in gs.farmStages ==>
            StageEntry(id, c.byId[id], s) in r)
  {
    if path != [] {
      BottlenecksComplete(path[1..], c, gs);
    }
  }

  // ---------------------------------------------------------------- farm stages

  /** The farm stages of the path's known upgrades, in path order, repeats kept. */
  function PathStages(path: seq<string>, c: Catalogue): (r: seq<string>)
    ensures forall s :: s in r <==> exists i :: 0 <= i < |path| && path[i] in c.byId && s in StagesOf(c.byId[path[i]])
  {
    if path == [] then []
    else
      var rest := PathStages(path[1..], c);
      assert forall i :: 1 <= i < |path| ==> path[i] == path[1..][i - 1];
      assert forall i :: 0 <= i < |path[1..]| ==> path[1..][i] == path[i + 1];
      (if path[0] in c.byId then StagesOf(c.byId[path[0]]) else []) + rest
  }

  /** `findFarmStageRequirements(path, allUpgrades)`: every farm stage some known upgrade of the
      path needs, once, in ascending order. */
  function FindFarmStageRequirements(path: seq<string>, c: Catalogue): (r: seq<string>)
    ensures StrictlyAscending(r)
    ensures forall s :: s in r <==> exists i :: 0 <= i < |path| && path[i] in c.byId && s in StagesOf(c.byId[path[i]])
  {
    SortUnique(PathStages(path, c))
  }

  // ---------------------------------------------------------------- next upgrades

  datatype Goals = Goals(focus: string)

  datatype Efficiency = StorageEfficiency | SpeedEfficiency | AutomationEfficiency | PercentageEfficiency | OtherEfficiency

  datatype Impact = Impact(
    unlocksCount: nat,
    unlocks: seq<(string, string)>,
    categoryImpact: string,
    isParadigmShift: bool,
    efficiency: Efficiency)

  datatype NextUpgrade = NextUpgrade(upgrade: Upgrade, score: real, impact: Impact, timeToAfford: TimeToAfford)

  /** `categoryScores[upgrade.category] || 10` */
  function CategoryScore(category: string): (r: real)
    ensures 10.0 <= r <= 90.0
  {
    if category == "deeds" then 90.0
    else if category == "energy" then 70.0
    else if category == "water" then 60.0
    else if category == "storage" then 50.0
    else if category == "tools" then 40.0
    else if category == "tower" then 30.0
    else if category == "forge" then 30.0
    else if category == "housing" then 20.0
    else if category == "hero" then 15.0
    else 10.0
  }

  /** `parseInt(upgrade.tier, 10) || 1` */
  function TierOf(tier: string): int
  {
    match ParseInt(tier)
    case None => 1
    case Some(n) => if n == 0 then 1 else n
  }

  /** The affordability part of the score. */
  function AffordabilityScore(t: TimeToAfford): (r: real)
    ensures 0.0 <= r <= 100.0
  {
    if t.canAffordNow then 100.0
    else if t.timeInHours.Finite? && t.timeInHours.h < 1.0 then 80.0
    else if t.timeInHours.Finite? && t.timeInHours.h < 24.0 then 40.0
    else if t.timeInHours.Finite? then 20.0
    else 0.0
  }

  /** `calculateUpgradeScore(upgrade, gameState, goals, timeToAfford)`: at least the default
      category score, and for a tier of 1 or more at most the best affordability, category, goal
      and tier bonuses together. */
  function UpgradeScore(u: Upgrade, goals: Goals, t: TimeToAfford): (r: real)
    ensures r >= 10.0
    ensures TierOf(u.tier) >= 1 ==> r <= 100.0 + 90.0 + 60.0 + 27.0
  {
    var tier := TierOf(u.tier);
    AffordabilityScore(t) + CategoryScore(u.category) + GoalBonus(u, goals)
      + (if 30 - 3 * tier < 0 then 0.0 else (30 - 3 * tier) as real)
  }

  /** The goal adjustments; the three focus values exclude each other. */
  function GoalBonus(u: Upgrade, goals: Goals): (r: real)
    ensures 0.0 <= r <= 60.0
  {
    (if goals.focus == "automation" && Contains(u.name, "Auto") then 50.0 else 0.0)
    + (if goals.focus == "storage" && u.category in ["energy", "water", "storage"] then 30.0 else 0.0)
    + (if goals.focus == "progression" && u.category == "deeds" then 60.0 else 0.0)
  }

  /** `a <= b` over hours, `Infinity` last. */
  predicate HoursAtMost(a: Hours, b: Hours)
  {
    b.Infinite? || (a.Finite? && a.h <= b.h)
  }

  /** `t1` is affordable no later than `t2`. */
  predicate Sooner(t1: TimeToAfford, t2: TimeToAfford)
  {
    t1.canAffordNow || (!t2.canAffordNow && HoursAtMost(t1.timeInHours, t2.timeInHours))
  }

  /** Of two times for the same upgrade and goals, the sooner never scores lower. */
  lemma SoonerScoresHigher(u: Upgrade, goals: Goals, t1: TimeToAfford, t2: TimeToAfford)
    requires Sooner(t1, t2)
    ensures UpgradeScore(u, goals, t1) >= UpgradeScore(u, goals, t2)
  {
    assert AffordabilityScore(t1) >= AffordabilityScore(t2);
  }

  /** The same holds of the recommendation priority. */
  lemma SoonerPriorityHigher(u: Upgrade, t1: TimeToAfford, t2: TimeToAfford)
    requires Sooner(t1, t2)
    ensures UpgradePriority(u, t1) >= UpgradePriority(u, t2)
  {
  }

  /** `isParadigmShift(upgrade)` */
  function IsParadigmShift(u: Upgrade): bool
  {
    Contains(u.name, "Auto") || Contains(u.name, "Deed") || Contains(u.name, "Forge") || Contains(u.name, "Tower")
    || u.category == "deeds"
  }

  /** `calculateEfficiencyBonus(upgrade)`: the first keyword the effect contains. */
  function EfficiencyOf(u: Upgrade): Efficiency
  {
    if Contains(u.effect, "cap") then StorageEfficiency
    else if Contains(u.effect, "speed") then SpeedEfficiency
    else if Contains(u.effect, "auto") then AutomationEfficiency
    else if Contains(u.effect, "%") then PercentageEfficiency
    else OtherEfficiency
  }

  function IdName(u: Upgrade): (string, string) { (u.id, u.name) }

  /** `calculateUpgradeImpact(upgrade, allUpgrades, gameState)`: the upgrades it unlocks are
      exactly the catalogue upgrades that list it as an upgrade prerequisite. */
  function UpgradeImpact(u: Upgrade, c: Catalogue): (r: Impact)
    requires WellFormed(c)
    ensures r.unlocksCount == |r.unlocks|
    ensures forall d :: d in c.byId.Values && u.id in ParsePrerequisites(d.prerequisite).upgrades ==> IdName(d) in r.unlocks
    ensures forall p :: p in r.unlocks ==>
      p.0 in c.byId && p.1 == c.byId[p.0].name && u.id in ParsePrerequisites(c.byId[p.0].prerequisite).upgrades
  {
    var dependents := GetDependentUpgrades(u.id, c);
    var unlocks := seq(|dependents|, i requires 0 <= i < |dependents| => IdName(dependents[i]));
    forall d | d in c.byId.Values && u.id in ParsePrerequisites(d.prerequisite).upgrades
      ensures IdName(d) in unlocks
    {
      var k :| k in c.byId && c.byId[k] == d;
      assert d in dependents;
      var i :| 0 <= i < |dependents| && dependents[i] == d;
      assert unlocks[i] == IdName(d);
    }
    Impact(|dependents|, unlocks, u.category, IsParadigmShift(u), EfficiencyOf(u))
  }

  /** The record `findOptimalNextUpgrades` builds for one upgrade (without its reasoning text). */
  function NextFor(u: Upgrade, c: Catalogue, gs: TreeState, goals: Goals): NextUpgrade
    requires WellFormed(c)
  {
    var t := CalculateTimeToAfford(u, gs.resources, gs.incomeRates);
    NextUpgrade(u, UpgradeScore(u, goals, t), UpgradeImpact(u, c), t)
  }

  function NextScore(n: NextUpgrade): real { n.score }

  /** The unowned upgrades whose prerequisites are met, each with its record. */
  function Purchasable(us: seq<Upgrade>, c: Catalogue, gs: TreeState, goals: Goals): (r: seq<NextUpgrade>)
    requires WellFormed(c)
    ensures forall x :: x in r <==>
      (x.upgrade in us && x.upgrade.id !in gs.ownedUpgrades
       && CheckPrerequisites(x.upgrade, gs).canPurchase && x == NextFor(x.upgrade, c, gs, goals))
  {
    if us == [] then []
    else
      (if us[0].id !in gs.ownedUpgrades && CheckPrerequisites(us[0], gs).canPurchase
       then [NextFor(us[0], c, gs, goals)] else [])
      + Purchasable(us[1..], c, gs, goals)
  }

  /** `findOptimalNextUpgrades(allUpgrades, gameState, goals)`: at most ten catalogue upgrades,
      none owned and each purchasable now, best score first, each with its own record. */
  function FindOptimalNextUpgrades(c: Catalogue, gs: TreeState, goals: Goals): (r: seq<NextUpgrade>)
    requires WellFormed(c)
    ensures |r| <= 10
    ensures forall x :: x in r ==> x.upgrade.id in c.byId && c.byId[x.upgrade.id] == x.upgrade
    ensures forall x :: x in r ==> x.upgrade.id !in gs.ownedUpgrades && CheckPrerequisites(x.upgrade, gs).canPurchase
    ensures forall x :: x in r ==> x == NextFor(x.upgrade, c, gs, goals)
    ensures NonIncreasing(r, NextScore)
  {
    ValuesMembership(c);
    Top(Purchasable(Values(c), c, gs, goals), NextScore, 10)
  }

  /** Nothing purchasable that is left out scores above anything kept, and with ten or fewer
      purchasable upgrades every one of them is kept. */
  lemma OptimalKeepsBest(c: Catalogue, gs: TreeState, goals: Goals, u: Upgrade)
    requires WellFormed(c)
    requires u.id in c.byId && c.byId[u.id] == u
    requires u.id !in gs.ownedUpgrades && CheckPrerequisites(u, gs).canPurchase
    ensures var r := FindOptimalNextUpgrades(c, gs, goals);
      var x := NextFor(u, c, gs, goals);
      && (x !in r ==> forall y :: y in r ==> x.score <= y.score)
      && (|Purchasable(Values(c), c, gs, goals)| <= 10 ==> x in r)
  {
    ValuesMembership(c);
    var cands := Purchasable(Values(c), c, gs, goals);
    var x := NextFor(u, c, gs, goals);
    assert x in cands;
    TopKeepsMember(cands, NextScore, 10, x);
  }

  // ---------------------------------------------------------------- completeness

  datatype Standing = OwnedStanding | AvailableStanding | LockedStanding

  datatype Tally = Tally(total: nat, owned: nat, available: nat, locked: nat)

  datatype VendorStats = VendorStats(
    total: nat, owned: nat, available: nat, locked: nat,
    completionPercentage: real, availablePercentage: real)

  function StandingOf(u: Upgrade, gs: TreeState): Standing
  {
    if u.id in gs.ownedUpgrades then OwnedStanding
    else if CheckPrerequisites(u, gs).canPurchase then AvailableStanding
    else LockedStanding
  }

  function Bump(t: Tally, s: Standing): Tally
  {
    match s
    case OwnedStanding => Tally(t.total + 1, t.owned + 1, t.available, t.locked)
    case AvailableStanding => Tally(t.total + 1, t.owned, t.available + 1, t.locked)
    case LockedStanding => Tally(t.total + 1, t.owned, t.available, t.locked + 1)
  }

  function TallyOf(o: Obj<Tally>, v: string): Tally
  {
    match Get(o, v)
    case None => Tally(0, 0, 0, 0)
    case Some(t) => t
  }

  /** The `forEach` over the upgrades, counting each under its vendor. */
  function TallyVendors(us: seq<Upgrade>, gs: TreeState, acc: Obj<Tally>): Obj<Tally>
  {
    if us == [] then acc
    else TallyVendors(us[1..], gs, Put(acc, us[0].vendor, Bump(TallyOf(acc, us[0].vendor), StandingOf(us[0], gs))))
  }

  /** The reference counts: upgrades of a vendor, and those of a vendor in a standing. */
  function CountVendor(us: seq<Upgrade>, v: string): nat
  {
    if us == [] then 0 else (if us[0].vendor == v then 1 else 0) + CountVendor(us[1..], v)
  }

  function CountStanding(us: seq<Upgrade>, v: string, gs: TreeState, s: Standing): nat
  {
    if us == [] then 0
    else (if us[0].vendor == v && StandingOf(us[0], gs) == s then 1 else 0) + CountStanding(us[1..], v, gs, s)
  }

  /** Each upgrade has exactly one standing. */
  lemma {:induction false} CountPartition(us: seq<Upgrade>, v: string, gs: TreeState)
    ensures CountVendor(us, v)
      == CountStanding(us, v, gs, OwnedStanding) + CountStanding(us, v, gs, AvailableStanding)
         + CountStanding(us, v, gs, LockedStanding)
  {
    if us != [] { CountPartition(us[1..], v, gs); }
  }

  /** What the fold adds to each vendor's counts, and which vendors it lists. */
  lemma {:induction false} TallySpec(us: seq<Upgrade>, gs: TreeState, acc: Obj<Tally>, v: string)
    ensures var r := TallyVendors(us, gs, acc);
      var a := TallyOf(acc, v);
      && TallyOf(r, v) == Tally(a.total + CountVendor(us, v),
          a.owned + CountStanding(us, v, gs, OwnedStanding),
          a.available + CountStanding(us, v, gs, AvailableStanding),
          a.locked + CountStanding(us, v, gs, LockedStanding))
      && (Get(r, v).Some? <==> Get(acc, v).Some? || CountVendor(us, v) > 0)
  {
    if us != [] {
      var acc' := Put(acc, us[0].vendor, Bump(TallyOf(acc, us[0].vendor), StandingOf(us[0], gs)));
      TallySpec(us[1..], gs, acc', v);
    }
  }

  /** Entries keep `total` positive and the three counts adding up to it. */
  ghost predicate Balanced(o: Obj<Tally>)
  {
    forall i :: 0 <= i < |o| ==> o[i].1.total > 0 && o[i].1.total == o[i].1.owned + o[i].1.available + o[i].1.locked
  }

  lemma {:induction false} PutBalanced(o: Obj<Tally>, k: string, t: Tally)
    requires Balanced(o) && t.total > 0 && t.total == t.owned + t.available + t.locked
    ensures Balanced(Put(o, k, t))
  {
    if o != [] && o[0].0 != k {
      PutBalanced(o[1..], k, t);
      var r := Put(o, k, t);
      assert forall i :: 1 <= i < |r| ==> r[i] == Put(o[1..], k, t)[i - 1];
    }
  }

  lemma {:induction false} GetBalanced(o: Obj<Tally>, k: string)
    requires Balanced(o)
    ensures Get(o, k).Some? ==>
      Get(o, k).value.total > 0
      && Get(o, k).value.total == Get(o, k).value.owned + Get(o, k).value.available + Get(o, k).value.locked
  {
    if o != [] && o[0].0 != k {
      assert forall i :: 0 <= i < |o[1..]| ==> o[1..][i] == o[i + 1];
      GetBalanced(o[1..], k);
    }
  }

  lemma {:induction false} TallyBalanced(us: seq<Upgrade>, gs: TreeState, acc: Obj<Tally>)
    requires Balanced(acc)
    ensures Balanced(TallyVendors(us, gs, acc))
  {
    if us != [] {
      var v := us[0].vendor;
      GetBalanced(acc, v);
      PutBalanced(acc, v, Bump(TallyOf(acc, v), StandingOf(us[0], gs)));
      TallyBalanced(us[1..], gs, Put(acc, v, Bump(TallyOf(acc, v), StandingOf(us[0], gs))));
    }
  }

  function Percentages(t: Tally): VendorStats
    requires t.total > 0
  {
    VendorStats(t.total, t.owned, t.available, t.locked,
      t.owned as real / t.total as real * 100.0, t.available as real / t.total as real * 100.0)
  }

  /** The second `forEach`: the percentages of every vendor. */
  function WithPercentages(o: Obj<Tally>): (r: Obj<VendorStats>)
    requires Balanced(o)
    ensures |r| == |o|
  {
    if o == [] then []
    else
      assert forall i :: 0 <= i < |o[1..]| ==> o[1..][i] == o[i + 1];
      [(o[0].0, Percentages(o[0].1))] + WithPercentages(o[1..])
  }

  lemma {:induction false} GetWithPercentages(o: Obj<Tally>, k: string)
    requires Balanced(o)
    ensures Get(WithPercentages(o), k).Some? <==> Get(o, k).Some?
    ensures Get(o, k).Some? ==> Get(o, k).value.total > 0 && Get(WithPercentages(o), k).value == Percentages(Get(o, k).value)
  {
    if o != [] && o[0].0 != k {
      assert forall i :: 0 <= i < |o[1..]| ==> o[1..][i] == o[i + 1];
      GetWithPercentages(o[1..], k);
    }
  }

  /** `analyzeTreeCompleteness(allUpgrades, gameState)` */
  function AnalyzeTreeCompleteness(c: Catalogue, gs: TreeState): Obj<VendorStats>
    requires WellFormed(c)
  {
    TallyBalanced(Values(c), gs, []);
    WithPercentages(TallyVendors(Values(c), gs, []))
  }

  /** A vendor is listed exactly when some upgrade has it; its total counts those upgrades,
      split into owned, available and locked; the percentages lie between 0 and 100. */
  lemma TreeCompletenessSpec(c: Catalogue, gs: TreeState, v: string)
    requires WellFormed(c)
    ensures var r := Get(AnalyzeTreeCompleteness(c, gs), v);
      var us := Values(c);
      && (r.Some? <==> CountVendor(us, v) > 0)
      && (r.Some? ==>
            && r.value.total == CountVendor(us, v)
            && r.value.owned == CountStanding(us, v, gs, OwnedStanding)
            && r.value.available == CountStanding(us, v, gs, AvailableStanding)
            && r.value.locked == CountStanding(us, v, gs, LockedStanding)
            && r.value.total == r.value.owned + r.value.available + r.value.locked
            && 0.0 <= r.value.completionPercentage <= 100.0
            && 0.0 <= r.value.availablePercentage <= 100.0)
  {
    var us := Values(c);
    var t := TallyVendors(us, gs, []);
    TallySpec(us, gs, [], v);
    TallyBalanced(us, gs, []);
    GetWithPercentages(t, v);
    CountPartition(us, v, gs);
    if Get(t, v).Some? {
      var x := Get(t, v).value;
      FractionBounds(x.owned, x.total);
      FractionBounds(x.available, x.total);
    }
  }

  lemma FractionBounds(part: nat, whole: nat)
    requires 0 < whole && part <= whole
    ensures 0.0 <= part as real / whole as real * 100.0 <= 100.0
  {
    assert part as real / whole as real <= 1.0;
  }

  // ---------------------------------------------------------------- gaps

  datatype Gap = Gap(blockedUpgrade: Upgrade, missingPrerequisite: string, impact: int)

  function ImpactOf(g: Gap): real { g.impact as real }

  /** A missing prerequisite that is in the catalogue and purchasable now. */
  predicate Closable(m: string, c: Catalogue, gs: TreeState)
  {
    m in c.byId && CheckPrerequisites(c.byId[m], gs).canPurchase
  }

  /** `missingUpgrades.find(…)`: the first closable one. */
  function EarliestMissing(ms: seq<string>, c: Catalogue, gs: TreeState): (r: Option<string>)
    ensures r.None? <==> forall m :: m in ms ==> !Closable(m, c, gs)
    ensures r.Some? ==>
      exists i :: 0 <= i < |ms| && ms[i] == r.value && Closable(ms[i], c, gs)
                  && forall j :: 0 <= j < i ==> !Closable(ms[j], c, gs)
  {
    if ms == [] then None
    else if Closable(ms[0], c, gs) then Some(ms[0])
    else
      var r := EarliestMissing(ms[1..], c, gs);
      assert forall i :: 1 <= i < |ms| ==> ms[i] == ms[1..][i - 1];
      r
  }

  /** `calculateGapImpact(upgradeId, allUpgrades, gameState)`: ten per dependent upgrade. */
  function CalculateGapImpact(id: string, c: Catalogue): (r: nat)
    requires WellFormed(c)
  {
    10 * |GetDependentUpgrades(id, c)|
  }

  /** The gap an upgrade contributes, if any. */
  function GapOf(u: Upgrade, c: Catalogue, gs: TreeState): Option<Gap>
    requires WellFormed(c)
  {
    if u.id in gs.ownedUpgrades then None else GapFrom(u, CheckPrerequisites(u, gs), c, gs)
  }

  /** The gap of an unowned upgrade once its prerequisites are checked. */
  function GapFrom(u: Upgrade, st: Status, c: Catalogue, gs: TreeState): Option<Gap>
    requires WellFormed(c)
  {
    if !st.canPurchase && |st.missingUpgrades| > 0 then
      match EarliestMissing(st.missingUpgrades, c, gs)
      case None => None
      case Some(m) => if m != "" then Some(Gap(u, m, CalculateGapImpact(u.id, c))) else None
    else None
  }

  /** With a check that lists missing upgrades only when the purchase is blocked, and no
      empty id among them: a gap exactly when some missing upgrade can be closed, and then it
      names the first such one. */
  lemma GapFromSpec(u: Upgrade, st: Status, c: Catalogue, gs: TreeState)
    requires WellFormed(c)
    requires st.canPurchase ==> st.missingUpgrades == []
    requires forall m :: m in st.missingUpgrades ==> m != ""
    ensures var r := GapFrom(u, st, c, gs);
      var ms := st.missingUpgrades;
      && (r.Some? <==> ms != [] && exists m :: m in ms && Closable(m, c, gs))
      && (r.Some? ==>
            && r.value.blockedUpgrade == u
            && !st.canPurchase
            && (exists i :: 0 <= i < |ms| && ms[i] == r.value.missingPrerequisite
                  && Closable(ms[i], c, gs) && forall j :: 0 <= j < i ==> !Closable(ms[j], c, gs))
            && r.value.impact == 10 * |GetDependentUpgrades(u.id, c)|)
  {
    var ms := st.missingUpgrades;
    if ms != [] {
      var e := EarliestMissing(ms, c, gs);
      if e.Some? {
        var i :| 0 <= i < |ms| && ms[i] == e.value && Closable(ms[i], c, gs)
                 && forall j :: 0 <= j < i ==> !Closable(ms[j], c, gs);
        assert e.value in ms;
        assert GapFrom(u, st, c, gs) == Some(Gap(u, e.value, CalculateGapImpact(u.id, c)));
      }
    }
  }

  function GapsIn(us: seq<Upgrade>, c: Catalogue, gs: TreeState): (r: seq<Gap>)
    requires WellFormed(c)
    ensures forall g :: g in r <==> exists u :: u in us && GapOf(u, c, gs) == Some(g)
  {
    if us == [] then []
    else
      var rest := GapsIn(us[1..], c, gs);
      (match GapOf(us[0], c, gs) case None => [] case Some(g) => [g]) + rest
  }

  /** `findUpgradeGaps(allUpgrades, gameState)`: the gaps of the catalogue's upgrades, largest
      impact first. */
  function FindUpgradeGaps(c: Catalogue, gs: TreeState): (r: seq<Gap>)
    requires WellFormed(c)
    ensures NonIncreasing(r, ImpactOf)
    ensures forall g :: g in r <==> exists u :: u in Values(c) && GapOf(u, c, gs) == Some(g)
  {
    var gaps := GapsIn(Values(c), c, gs);
    var r := SortDesc(gaps, ImpactOf);
    assert forall g :: g in r <==> g in multiset(gaps);
    r
  }

  /** A gap names an unowned upgrade whose purchase is blocked, and the first of its unowned
      upgrade prerequisites that is in the catalogue and could be bought now; none before it
      in the prerequisite list could be; its impact is ten per upgrade that depends on it. */
  lemma GapSpec(u: Upgrade, c: Catalogue, gs: TreeState)
    requires WellFormed(c)
    ensures var r := GapOf(u, c, gs);
      var ms := Unmet(ParsePrerequisites(u.prerequisite).upgrades, gs.ownedUpgrades);
      && (r.Some? <==>
            u.id !in gs.ownedUpgrades && ms != [] && exists m :: m in ms && Closable(m, c, gs))
      && (r.Some? ==>
            && r.value.blockedUpgrade == u
            && !CheckPrerequisites(u, gs).canPurchase
            && r.value.missingPrerequisite in ParsePrerequisites(u.prerequisite).upgrades
            && r.value.missingPrerequisite !in gs.ownedUpgrades
            && (exists i :: 0 <= i < |ms| && ms[i] == r.value.missingPrerequisite
                  && Closable(ms[i], c, gs) && forall j :: 0 <= j < i ==> !Closable(ms[j], c, gs))
            && r.value.impact == 10 * |GetDependentUpgrades(u.id, c)|)
  {
    CheckPrerequisitesSpec(u, gs);
    var st := CheckPrerequisites(u, gs);
    var ms := Unmet(ParsePrerequisites(u.prerequisite).upgrades, gs.ownedUpgrades);
    forall m | m in ms ensures m != "" {
      TokensNonEmpty(u.prerequisite, m);
    }
    if u.id !in gs.ownedUpgrades {
      GapFromSpec(u, st, c, gs);
      assert st.missingUpgrades == ms;
      var r := GapFrom(u, st, c, gs);
      assert GapOf(u, c, gs) == r;
      if r.Some? {
        var i :| 0 <= i < |ms| && ms[i] == r.value.missingPrerequisite
                 && Closable(ms[i], c, gs) && forall j :: 0 <= j < i ==> !Closable(ms[j], c, gs);
        assert ms[i] in ms;
      }
    }
  }

  /** An id listed among the upgrade prerequisites is never empty. */
  lemma TokensNonEmpty(s: string, m: string)
    requires m in ParsePrerequisites(s).upgrades
    ensures m != ""
  {
    ParseBuckets(s, UpgradeKind);
    if !Blank(s) {
      var p := ParsePrerequisites(s);
      var t := Tokens(s, ';');
      assert multiset(p.upgrades)[m] > 0;
      assert multiset(t)[m] > 0;
      TokensSpec(s, ';');
      var i :| 0 <= i < |t| && t[i] == m;
    }
  }
}
