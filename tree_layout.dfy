/**
 * The layout engine of the upgrade-tree editor: swim lanes per source, columns per tier,
 * integer positions for every node card, the canvas size, the tier markers, the
 * prerequisite edges, and the filter over a finished layout.
 */
module TreeLayout {
  import opened Common
  import opened Sorting
  import opened NodeClassification

  // ---------------------------------------------------------------- sources

  datatype SourceConfig = SourceConfig(name: string, icon: string, color: string, lightColor: string, description: string)

  /** The keys of the `SOURCES` table, in order: the game screens, then the town vendors. */
  const SourceKeys: seq<string> := ["farm", "adventure", "forge", "mine", "tower", "blacksmith",
    "agronomist", "landSteward", "carpenter", "skillsTrainer", "vendor"]

  /** The entries of the `SOURCES` table, in the order of `SourceKeys`. */
  const SourceConfigs: seq<SourceConfig> := [
    SourceConfig("Farm", "🌾", "#22c55e", "#86efac", "Farm management and crops"),
    SourceConfig("Adventure", "⚔️", "#8b5cf6", "#c4b5fd", "Adventures and exploration"),
    SourceConfig("Forge", "🔨", "#ef4444", "#fca5a5", "Crafting and forging"),
    SourceConfig("Mine", "⛏️", "#a3a3a3", "#d4d4d8", "Mining and resource extraction"),
    SourceConfig("Tower", "🗼", "#6b7280", "#9ca3af", "Tower construction and upgrades"),
    SourceConfig("Town - Ember & Edge", "⚒️", "#8B4513", "#D2B48C", "Weapons, armor, and combat gear"),
    SourceConfig("Town - Greenwise Co-op", "🌱", "#228B22", "#90EE90", "Farming, crops, and agricultural tech"),
    SourceConfig("Town - County Land Office", "📜", "#4B0082", "#DDA0DD", "Property management and land development"),
    SourceConfig("Town - Towerwrights Guild", "🗼", "#DAA520", "#F0E68C", "Construction, buildings, and infrastructure"),
    SourceConfig("Town - Field School", "📚", "#FF6347", "#FFA07A", "Skills, training, and personal development"),
    SourceConfig("Town - Exchange Post", "💱", "#708090", "#C0C0C0", "Materials, resources, and trading")]

  /** The value stored under `k` in parallel lists of keys and values: the first position
      holding `k`, as an object lookup finds it. */
  function Lookup<V>(ks: seq<string>, vs: seq<V>, k: string): Option<V>
    requires |ks| == |vs|
  {
    if ks == [] then None
    else if ks[0] == k then Some(vs[0])
    else Lookup(ks[1..], vs[1..], k)
  }

  /** A key is found exactly when it is listed, and then with the value at its position. */
  lemma {:induction false} LookupSpec<V>(ks: seq<string>, vs: seq<V>, k: string)
    requires |ks| == |vs|
    ensures Lookup(ks, vs, k).Some? <==> k in ks
    ensures Lookup(ks, vs, k).Some? ==>
      exists i :: 0 <= i < |ks| && ks[i] == k && Lookup(ks, vs, k).value == vs[i]
  {
    if ks != [] && ks[0] != k {
      LookupSpec(ks[1..], vs[1..], k);
      assert k in ks <==> k in ks[1..];
      if Lookup(ks, vs, k).Some? {
        var i :| 0 <= i < |ks[1..]| && ks[1..][i] == k && Lookup(ks, vs, k).value == vs[1..][i];
        assert ks[i + 1] == k && vs[i + 1] == vs[1..][i];
      }
    } else if ks != [] {
      assert ks[0] == k && Lookup(ks, vs, k).value == vs[0];
    }
  }

  /** `SOURCES[sourceId]` */
  function SourceEntry(sourceId: string): Option<SourceConfig>
  {
    Lookup(SourceKeys, SourceConfigs, sourceId)
  }

  /** `getSourceConfig(sourceId)` */
  function GetSourceConfig(sourceId: string): SourceConfig
  {
    match SourceEntry(sourceId)
    case Some(c) => c
    case None => SourceConfig(sourceId, "❓", "#6b7280", "#9ca3af", "Unknown source: " + sourceId)
  }

  /** A listed source gets the entry at its position; any other id gets a neutral grey entry
      named by the id. */
  lemma GetSourceConfigSpec(sourceId: string)
    ensures forall i :: 0 <= i < |SourceKeys| && SourceKeys[i] == sourceId ==>
      GetSourceConfig(sourceId) == SourceConfigs[i]
    ensures sourceId !in SourceKeys ==>
      GetSourceConfig(sourceId).name == sourceId && GetSourceConfig(sourceId).color == "#6b7280"
      && GetSourceConfig(sourceId).description == "Unknown source: " + sourceId
  {
    LookupSpec(SourceKeys, SourceConfigs, sourceId);
    SourceKeysDistinct();
  }

  /** No source is listed twice. */
  lemma SourceKeysDistinct()
    ensures forall i, j :: 0 <= i < j < |SourceKeys| ==> SourceKeys[i] != SourceKeys[j]
  {
  }

  /** The table lists exactly the lanes the classification engine assigns. */
  lemma SourcesKeys()
    ensures SourceKeys == SourceIds
  {
  }

  /** Every lane the classification engine assigns has a listed configuration. */
  lemma ClassifiedLaneListed(csvSource: string)
    ensures SourceEntry(ClassifySource(csvSource)).Some?
  {
    ClassifySourceSpec(csvSource);
    SourcesKeys();
    LookupSpec(SourceKeys, SourceConfigs, ClassifySource(csvSource));
  }

  // ---------------------------------------------------------------- phases

  datatype Phase = Tutorial | Early | Mid | Late | Endgame

  function PhaseRank(p: Phase): nat
  {
    match p
    case Tutorial => 0
    case Early => 1
    case Mid => 2
    case Late => 3
    case Endgame => 4
  }

  /** `getPhaseForTier(tier)` */
  function GetPhaseForTier(tier: int): Phase
  {
    if tier == 0 then Tutorial
    else if tier <= 2 then Early
    else if tier <= 4 then Mid
    else if tier <= 6 then Late
    else Endgame
  }

  /** Tier 0 is the tutorial, tiers 1-2 early, 3-4 mid, 5-6 late, beyond that the endgame;
      over the tiers the phase never goes back. */
  lemma PhaseForTierSpec(t: nat, u: nat)
    ensures GetPhaseForTier(t) == Tutorial <==> t == 0
    ensures GetPhaseForTier(t) == Early <==> 1 <= t <= 2
    ensures GetPhaseForTier(t) == Mid <==> 3 <= t <= 4
    ensures GetPhaseForTier(t) == Late <==> 5 <= t <= 6
    ensures GetPhaseForTier(t) == Endgame <==> t >= 7
    ensures t <= u ==> PhaseRank(GetPhaseForTier(t)) <= PhaseRank(GetPhaseForTier(u))
  {
  }

  // ---------------------------------------------------------------- tiers

  /** `nodeMap`: each id's (last) node. */
  function NodeMap(nodes: seq<Node>): (m: map<string, Node>)
    ensures forall k :: k in m <==> exists i :: 0 <= i < |nodes| && nodes[i].id == k
  {
    if nodes == [] then map[]
    else
      var m := NodeMap(nodes[..|nodes| - 1]);
      assert forall i :: 0 <= i < |nodes| - 1 ==> nodes[..|nodes| - 1][i] == nodes[i];
      m[nodes[|nodes| - 1].id := nodes[|nodes| - 1]]
  }

  /** The keys of `nodeMap` in insertion order: each id where it first occurs. */
  function KeyOrder(nodes: seq<Node>): (ids: seq<string>)
    ensures Distinct(ids)
    ensures forall k :: k in ids <==> exists i :: 0 <= i < |nodes| && nodes[i].id == k
  {
    if nodes == [] then []
    else
      var ids := KeyOrder(nodes[..|nodes| - 1]);
      var x := nodes[|nodes| - 1].id;
      assert forall i :: 0 <= i < |nodes| - 1 ==> nodes[..|nodes| - 1][i] == nodes[i];
      if x in ids then ids else ids + [x]
  }

  predicate Distinct<T(==)>(s: seq<T>)
  {
    forall i, j :: 0 <= i < j < |s| ==> s[i] != s[j]
  }

  /** The prerequisites of every known id. */
  function PrereqMap(nm: map<string, Node>): (pm: map<string, seq<string>>)
    ensures pm.Keys == nm.Keys
    ensures forall k :: k in pm ==> pm[k] == nm[k].prerequisites
  {
    map k | k in nm :: nm[k].prerequisites
  }

  /** The tier a prerequisite contributes: its memoised tier, or 0 when it is unknown or not
      yet computed. */
  function TierOf(p: string, tier: map<string, int>): int
  {
    if p in tier && tier[p] >= 0 then tier[p] else 0
  }

  /** `maxTier` after the first `n` prerequisites of `ps`, starting from 0. */
  function MaxTier(ps: seq<string>, n: nat, tier: map<string, int>): (r: int)
    requires n <= |ps|
    ensures r >= 0
  {
    if n == 0 then 0
    else
      var m := MaxTier(ps, n - 1, tier);
      var t := TierOf(ps[n - 1], tier);
      if t > m then t else m
  }

  /** The tier a node gets once its prerequisites are known: 0 without prerequisites, else one
      more than the largest prerequisite tier. */
  function TierFrom(ps: seq<string>, tier: map<string, int>): int
  {
    if ps == [] then 0 else MaxTier(ps, |ps|, tier) + 1
  }

  /** A memoised tier is never negative and is 0 exactly for a node without prerequisites;
      unset tiers hold -1. */
  ghost predicate TiersOk(pm: map<string, seq<string>>, tier: map<string, int>)
  {
    tier.Keys == pm.Keys
    && forall k {:trigger pm[k]} :: k in tier ==> tier[k] >= -1 && (tier[k] >= 0 ==> (tier[k] == 0 <==> pm[k] == []))
  }

  /** Every memoised node has its known prerequisites memoised and satisfies the tier
      equation. */
  ghost predicate Settled(pm: map<string, seq<string>>, tier: map<string, int>)
    requires tier.Keys == pm.Keys
  {
    forall k {:trigger pm[k]} :: k in tier && tier[k] >= 0 ==>
      (forall p :: p in pm[k] && p in pm ==> tier[p] >= 0) && tier[k] == TierFrom(pm[k], tier)
  }

  /** Memoised tiers are kept. */
  ghost predicate Extends(a: map<string, int>, b: map<string, int>)
  {
    a.Keys == b.Keys && forall k :: k in a && a[k] >= 0 ==> b[k] == a[k]
  }

  /** Prerequisites among known nodes form no cycle: a rank strictly decreases along every
      such edge. */
  ghost predicate Ranked(pm: map<string, seq<string>>, rank: map<string, nat>)
  {
    forall k :: k in pm ==>
      k in rank && forall p :: p in pm[k] && p in pm ==> p in rank && rank[p] < rank[k]
  }

  /** The nodes on the current path all rank above `nodeId`. */
  ghost predicate Above(rank: map<string, nat>, nodeId: string, visiting: set<string>)
  {
    nodeId in rank && forall v :: v in visiting ==> v in rank && rank[v] > rank[nodeId]
  }

  lemma {:induction false} MaxTierSame(ps: seq<string>, n: nat, a: map<string, int>, b: map<string, int>)
    requires n <= |ps|
    requires forall j :: 0 <= j < n ==> TierOf(ps[j], a) == TierOf(ps[j], b)
    ensures MaxTier(ps, n, a) == MaxTier(ps, n, b)
  {
    if n != 0 {
      MaxTierSame(ps, n - 1, a, b);
    }
  }

  /** `calculateTier(nodeId, visiting)`: an unknown id counts 0, a memoised tier is returned
      as is, an id already on the current path counts 0; otherwise the node's tier is 0
      without prerequisites and one more than the largest prerequisite tier with them, and
      is memoised. With no cycle among the known prerequisites (`ok`: a rank decreasing
      along every edge, with the current path above `nodeId`) the revisit case never
      arises and every memoised tier satisfies the tier equation. */
  method CalculateTier(nodeId: string, pm: map<string, seq<string>>, tier: map<string, int>,
                       visiting: set<string>, ghost rank: map<string, nat>, ghost ok: bool)
    returns (r: int, tier': map<string, int>)
    requires TiersOk(pm, tier)
    requires ok ==> Ranked(pm, rank) && Above(rank, nodeId, visiting) && Settled(pm, tier)
    ensures TiersOk(pm, tier') && Extends(tier, tier')
    ensures r >= 0
    ensures forall v :: v in visiting && v in tier && tier[v] < 0 ==> tier'[v] < 0
    ensures nodeId !in pm ==> r == 0 && tier' == tier
    ensures nodeId in pm && tier[nodeId] >= 0 ==> r == tier[nodeId] && tier' == tier
    ensures nodeId in pm && tier[nodeId] < 0 && nodeId in visiting ==> r == 0 && tier' == tier
    ensures nodeId in pm && !(tier[nodeId] < 0 && nodeId in visiting) ==> tier'[nodeId] == r
    ensures ok ==> Settled(pm, tier') && (nodeId in pm ==> tier'[nodeId] >= 0)
    decreases pm.Keys - visiting, 0
  {
    if nodeId !in pm {
      return 0, tier;
    }
    if tier[nodeId] >= 0 {
      return tier[nodeId], tier;
    }
    if nodeId in visiting {
      return 0, tier;
    }
    var path := visiting + {nodeId};
    var ps := pm[nodeId];
    tier' := tier;
    if ps == [] {
      tier' := tier'[nodeId := 0];
      r := 0;
      if ok {
        KeepSettled(pm, tier, nodeId, 0, tier');
      }
      return;
    }
    var maxTier;
    maxTier, tier' := MaxPrerequisiteTier(nodeId, pm, tier, visiting, rank, ok);
    var before := tier';
    tier' := tier'[nodeId := maxTier + 1];
    r := maxTier + 1;
    if ok {
      FinishNode(pm, rank, nodeId, ps, before, tier', maxTier);
    }
  }

  /** The loop of `calculateTier` over the prerequisites of `nodeId`, with `nodeId` added to
      the current path: `maxTier` is the largest tier among them. */
  method MaxPrerequisiteTier(nodeId: string, pm: map<string, seq<string>>, tier: map<string, int>,
                             visiting: set<string>, ghost rank: map<string, nat>, ghost ok: bool)
    returns (maxTier: int, tier': map<string, int>)
    requires TiersOk(pm, tier) && nodeId in pm && tier[nodeId] < 0 && nodeId !in visiting
    requires ok ==> Ranked(pm, rank) && Above(rank, nodeId, visiting) && Settled(pm, tier)
    ensures TiersOk(pm, tier') && Extends(tier, tier')
    ensures forall v :: v in visiting + {nodeId} && v in tier && tier[v] < 0 ==> tier'[v] < 0
    ensures maxTier >= 0
    ensures ok ==>
      Settled(pm, tier') && (forall j :: 0 <= j < |pm[nodeId]| && pm[nodeId][j] in pm ==> tier'[pm[nodeId][j]] >= 0)
      && maxTier == MaxTier(pm[nodeId], |pm[nodeId]|, tier')
    decreases pm.Keys - (visiting + {nodeId}), 2
  {
    tier' := tier;
    maxTier := 0;
    var i := 0;
    assert MaxTier(pm[nodeId], 0, tier') == 0;
    while i < |pm[nodeId]|
      invariant i <= |pm[nodeId]|
      invariant Visited(nodeId, pm, tier, visiting, rank, ok, i, maxTier, tier')
    {
      maxTier, tier' := VisitPrerequisite(nodeId, pm, tier, visiting, rank, ok, i, maxTier, tier');
      i := i + 1;
    }
  }

  /** The loop of `calculateTier` has folded the first `i` prerequisites of `nodeId` into
      `maxTier`, memoising into `cur`. */
  ghost predicate Visited(nodeId: string, pm: map<string, seq<string>>, tier: map<string, int>,
                          visiting: set<string>, rank: map<string, nat>, ok: bool,
                          i: nat, maxTier: int, cur: map<string, int>)
  {
    TiersOk(pm, tier) && nodeId in pm && tier[nodeId] < 0 && nodeId !in visiting
    && i <= |pm[nodeId]| && maxTier >= 0
    && TiersOk(pm, cur) && Extends(tier, cur)
    && (forall v :: v in visiting + {nodeId} && v in tier && tier[v] < 0 ==> cur[v] < 0)
    && (ok ==> Ranked(pm, rank) && Above(rank, nodeId, visiting) && Settled(pm, cur))
    && (ok ==> forall j :: 0 <= j < i && pm[nodeId][j] in pm ==> cur[pm[nodeId][j]] >= 0)
    && (ok ==> maxTier == MaxTier(pm[nodeId], i, cur))
  }

  /** One pass of the loop of `calculateTier`: the tier of the `i`-th prerequisite, computed
      with `nodeId` on the current path, folded into `maxTier`. */
  method VisitPrerequisite(nodeId: string, pm: map<string, seq<string>>, tier: map<string, int>,
                           visiting: set<string>, ghost rank: map<string, nat>, ghost ok: bool,
                           i: nat, maxTier: int, cur: map<string, int>)
    returns (next: int, tier': map<string, int>)
    requires Visited(nodeId, pm, tier, visiting, rank, ok, i, maxTier, cur) && i < |pm[nodeId]|
    ensures Visited(nodeId, pm, tier, visiting, rank, ok, i + 1, next, tier')
    decreases pm.Keys - (visiting + {nodeId}), 1
  {
    var ps := pm[nodeId];
    ghost var okNext := ok && ps[i] in pm;
    if okNext {
      AboveStep(pm, rank, nodeId, visiting, ps[i]);
    }
    var t;
    t, tier' := CalculateTier(ps[i], pm, cur, visiting + {nodeId}, rank, okNext);
    ExtendsTrans(tier, cur, tier');
    next := if t > maxTier then t else maxTier;
    if ok {
      LoopStep(pm, rank, nodeId, visiting, ps, i, cur, tier', t, maxTier);
    }
  }

  lemma ExtendsTrans(a: map<string, int>, b: map<string, int>, c: map<string, int>)
    requires Extends(a, b) && Extends(b, c)
    ensures Extends(a, c)
  {
  }

  /** A known prerequisite of a node on a ranked path is itself below the extended path. */
  lemma AboveStep(pm: map<string, seq<string>>, rank: map<string, nat>, nodeId: string,
                  visiting: set<string>, p: string)
    requires Ranked(pm, rank) && Above(rank, nodeId, visiting)
    requires nodeId in pm && p in pm[nodeId] && p in pm
    ensures Above(rank, p, visiting + {nodeId})
  {
  }

  /** The bookkeeping of one prerequisite call in the ranked case. */
  lemma LoopStep(pm: map<string, seq<string>>, rank: map<string, nat>, nodeId: string, visiting: set<string>,
                 ps: seq<string>, i: nat, before: map<string, int>, after: map<string, int>, t: int, maxTier: int)
    requires Ranked(pm, rank) && Above(rank, nodeId, visiting)
    requires nodeId in pm && ps == pm[nodeId] && i < |ps|
    requires TiersOk(pm, before) && Extends(before, after) && TiersOk(pm, after)
    requires Settled(pm, before) && (forall j :: 0 <= j < i && ps[j] in pm ==> before[ps[j]] >= 0)
    requires maxTier == MaxTier(ps, i, before)
    requires ps[i] in pm ==> Settled(pm, after) && after[ps[i]] >= 0
    requires ps[i] !in pm ==> t == 0 && after == before
    requires ps[i] in pm && !(before[ps[i]] < 0 && ps[i] in visiting + {nodeId}) ==> after[ps[i]] == t
    requires t >= 0
    ensures Settled(pm, after) && (forall j :: 0 <= j < i + 1 && ps[j] in pm ==> after[ps[j]] >= 0)
    ensures (if t > maxTier then t else maxTier) == MaxTier(ps, i + 1, after)
  {
    var p := ps[i];
    if p in pm {
      assert p in rank && rank[p] < rank[nodeId];
      assert p !in visiting + {nodeId};
    }
    MaxTierSame(ps, i, before, after);
    assert TierOf(p, after) == t;
    forall j | 0 <= j < i + 1 && ps[j] in pm
      ensures after[ps[j]] >= 0
    {
      if j < i {
        assert before[ps[j]] >= 0;
      }
    }
  }

  /** Memoising an unset known node keeps every other memoised node settled: none of them
      has it as a prerequisite. */
  lemma KeepSettled(pm: map<string, seq<string>>, tier: map<string, int>, nodeId: string, v: int,
                    tier': map<string, int>)
    requires TiersOk(pm, tier) && Settled(pm, tier)
    requires nodeId in pm && tier[nodeId] < 0 && v >= 0
    requires tier' == tier[nodeId := v]
    requires v == TierFrom(pm[nodeId], tier')
    requires forall p :: p in pm[nodeId] && p in pm ==> tier'[p] >= 0
    ensures Settled(pm, tier')
  {
    forall k | k in tier' && tier'[k] >= 0 && k != nodeId
      ensures (forall p :: p in pm[k] && p in pm ==> tier'[p] >= 0) && tier'[k] == TierFrom(pm[k], tier')
    {
      KeepOne(pm, tier, nodeId, v, tier', k);
    }
  }

  lemma KeepOne(pm: map<string, seq<string>>, tier: map<string, int>, nodeId: string, v: int,
                tier': map<string, int>, k: string)
    requires TiersOk(pm, tier) && Settled(pm, tier)
    requires nodeId in pm && tier[nodeId] < 0
    requires tier' == tier[nodeId := v]
    requires k in tier && tier[k] >= 0
    ensures (forall p :: p in pm[k] && p in pm ==> tier'[p] >= 0) && tier'[k] == TierFrom(pm[k], tier')
  {
    assert nodeId !in pm[k];
    assert forall j :: 0 <= j < |pm[k]| ==> TierOf(pm[k][j], tier) == TierOf(pm[k][j], tier');
    MaxTierSame(pm[k], |pm[k]|, tier, tier');
  }

  /** Memoising a node whose known prerequisites are memoised keeps every node settled. */
  lemma FinishNode(pm: map<string, seq<string>>, rank: map<string, nat>, nodeId: string, ps: seq<string>,
                   before: map<string, int>, tier': map<string, int>, maxTier: int)
    requires Ranked(pm, rank) && nodeId in pm && ps == pm[nodeId] && ps != []
    requires TiersOk(pm, before) && Settled(pm, before) && before[nodeId] < 0
    requires forall j :: 0 <= j < |ps| && ps[j] in pm ==> before[ps[j]] >= 0
    requires maxTier == MaxTier(ps, |ps|, before) && maxTier >= 0
    requires tier' == before[nodeId := maxTier + 1]
    ensures Settled(pm, tier')
  {
    assert nodeId !in ps;
    FinishEquation(ps, nodeId, before, tier', maxTier);
    FinishMemo(pm, ps, nodeId, before, tier', maxTier + 1);
    KeepSettled(pm, before, nodeId, maxTier + 1, tier');
  }

  lemma FinishEquation(ps: seq<string>, nodeId: string, before: map<string, int>, tier': map<string, int>,
                       maxTier: int)
    requires nodeId !in ps && ps != []
    requires maxTier == MaxTier(ps, |ps|, before)
    requires tier' == before[nodeId := maxTier + 1]
    ensures maxTier + 1 == TierFrom(ps, tier')
  {
    assert forall j :: 0 <= j < |ps| ==> TierOf(ps[j], before) == TierOf(ps[j], tier');
    MaxTierSame(ps, |ps|, before, tier');
  }

  lemma FinishMemo(pm: map<string, seq<string>>, ps: seq<string>, nodeId: string, before: map<string, int>,
                   tier': map<string, int>, v: int)
    requires before.Keys == pm.Keys && nodeId in pm
    requires forall j :: 0 <= j < |ps| && ps[j] in pm ==> before[ps[j]] >= 0
    requires tier' == before[nodeId := v] && v >= 0
    ensures forall p :: p in ps && p in pm ==> tier'[p] >= 0
  {
    forall p | p in ps && p in pm
      ensures tier'[p] >= 0
    {
      var j :| 0 <= j < |ps| && ps[j] == p;
    }
  }

  /** The largest prerequisite tier bounds the tier of every prerequisite and is one of them,
      or 0. */
  lemma {:induction false} MaxTierSpec(ps: seq<string>, n: nat, tier: map<string, int>)
    requires n <= |ps|
    ensures forall j :: 0 <= j < n ==> TierOf(ps[j], tier) <= MaxTier(ps, n, tier)
    ensures MaxTier(ps, n, tier) == 0 || exists j :: 0 <= j < n && MaxTier(ps, n, tier) == TierOf(ps[j], tier)
  {
    if n > 0 {
      MaxTierSpec(ps, n - 1, tier);
    }
  }

  /** The tier equation unfolded: 0 without prerequisites; otherwise above the tier of every
      prerequisite (an unknown or unset one counting 0), and exactly one above the largest. */
  lemma TierFromSpec(ps: seq<string>, tier: map<string, int>)
    ensures ps == [] ==> TierFrom(ps, tier) == 0
    ensures ps != [] ==> forall p :: p in ps ==> TierOf(p, tier) < TierFrom(ps, tier)
    ensures ps != [] ==>
      TierFrom(ps, tier) == 1 || exists p :: p in ps && TierFrom(ps, tier) == TierOf(p, tier) + 1
  {
    MaxTierSpec(ps, |ps|, tier);
  }

  /** `calculateNodeTiers(nodes)`: every node gets a tier of at least 0, exactly 0 when it has
      no prerequisites; with no cycle among the known prerequisites each tier is one more than
      the largest tier of its prerequisites; `tierMap` holds every id once, in the group of
      its tier. */
  method CalculateNodeTiers(nodes: seq<Node>, ghost rank: map<string, nat>)
    returns (tiers: map<string, int>, tierMap: map<int, seq<string>>)
    ensures tiers.Keys == NodeMap(nodes).Keys
    ensures forall k :: k in tiers ==>
      tiers[k] >= 0 && (tiers[k] == 0 <==> NodeMap(nodes)[k].prerequisites == [])
    ensures Ranked(PrereqMap(NodeMap(nodes)), rank) ==>
      forall k :: k in tiers ==> tiers[k] == TierFrom(NodeMap(nodes)[k].prerequisites, tiers)
    ensures forall k :: k in tiers ==> tiers[k] in tierMap && k in tierMap[tiers[k]]
    ensures forall t, j :: t in tierMap && 0 <= j < |tierMap[t]| ==>
      tierMap[t][j] in tiers && tiers[tierMap[t][j]] == t
    ensures forall t :: t in tierMap ==> Distinct(tierMap[t])
  {
    var nm := NodeMap(nodes);
    var pm := PrereqMap(nm);
    var ids := KeyOrder(nodes);
    tiers := CalculateAll(ids, pm, rank);
    tierMap := GroupByTier(ids, tiers);
  }

  /** `Object.keys(nodeMap).forEach(id => calculateTier(id))`, starting from all tiers unset. */
  method CalculateAll(ids: seq<string>, pm: map<string, seq<string>>, ghost rank: map<string, nat>)
    returns (tiers: map<string, int>)
    requires forall k :: k in ids <==> k in pm
    ensures tiers.Keys == pm.Keys
    ensures forall k :: k in tiers ==> tiers[k] >= 0 && (tiers[k] == 0 <==> pm[k] == [])
    ensures Ranked(pm, rank) ==> forall k :: k in tiers ==> tiers[k] == TierFrom(pm[k], tiers)
  {
    tiers := map k | k in pm :: -1;
    ghost var ok := Ranked(pm, rank);
    for i := 0 to |ids|
      invariant TiersOk(pm, tiers)
      invariant forall j :: 0 <= j < i ==> tiers[ids[j]] >= 0
      invariant ok ==> Settled(pm, tiers)
    {
      var t;
      t, tiers := CalculateTier(ids[i], pm, tiers, {}, rank, ok);
    }
    assert forall k :: k in tiers ==> tiers[k] >= 0 by {
      forall k | k in tiers ensures tiers[k] >= 0 {
        var j :| 0 <= j < |ids| && ids[j] == k;
      }
    }
  }

  /** The grouping loop of `calculateNodeTiers`: each id is pushed onto the group of its
      tier. */
  method GroupByTier(ids: seq<string>, tiers: map<string, int>) returns (tierMap: map<int, seq<string>>)
    requires Distinct(ids) && forall j :: 0 <= j < |ids| ==> ids[j] in tiers
    ensures forall k :: k in ids ==> tiers[k] in tierMap && k in tierMap[tiers[k]]
    ensures forall t, j :: t in tierMap && 0 <= j < |tierMap[t]| ==>
      tierMap[t][j] in ids && tiers[tierMap[t][j]] == t
    ensures forall t :: t in tierMap ==> Distinct(tierMap[t])
  {
    tierMap := map[];
    for i := 0 to |ids|
      invariant Grouped(ids, tiers, i, tierMap)
    {
      var id := ids[i];
      var t := tiers[id];
      var group := if t in tierMap then tierMap[t] else [];
      GroupStep(ids, tiers, i, tierMap);
      tierMap := tierMap[t := group + [id]];
    }
    assert ids[..|ids|] == ids;
  }

  /** The grouping after its first `i` ids: each is in the group of its tier, and every
      group holds distinct ids among them of that tier. */
  ghost predicate Grouped(ids: seq<string>, tiers: map<string, int>, i: nat, tierMap: map<int, seq<string>>)
  {
    && i <= |ids| && (forall j :: 0 <= j < |ids| ==> ids[j] in tiers)
    && (forall j :: 0 <= j < i ==> tiers[ids[j]] in tierMap && ids[j] in tierMap[tiers[ids[j]]])
    && (forall t, j :: t in tierMap && 0 <= j < |tierMap[t]| ==>
          tierMap[t][j] in ids[..i] && tiers[tierMap[t][j]] == t)
    && (forall t :: t in tierMap ==> Distinct(tierMap[t]))
  }

  /** Pushing the next id onto its tier's group keeps the grouping. */
  lemma GroupStep(ids: seq<string>, tiers: map<string, int>, i: nat, tierMap: map<int, seq<string>>)
    requires Distinct(ids) && Grouped(ids, tiers, i, tierMap) && i < |ids|
    ensures var t := tiers[ids[i]];
      Grouped(ids, tiers, i + 1, tierMap[t := (if t in tierMap then tierMap[t] else []) + [ids[i]]])
  {
    var t := tiers[ids[i]];
    var group := if t in tierMap then tierMap[t] else [];
    var m' := tierMap[t := group + [ids[i]]];
    GroupStepHas(ids, tiers, i, tierMap, group, m');
    GroupStepMembers(ids, tiers, i, tierMap, group, m');
    GroupStepDistinct(ids, tiers, i, tierMap, group, m');
  }

  lemma GroupStepHas(ids: seq<string>, tiers: map<string, int>, i: nat, tierMap: map<int, seq<string>>,
                     group: seq<string>, m': map<int, seq<string>>)
    requires Grouped(ids, tiers, i, tierMap) && i < |ids|
    requires group == (if tiers[ids[i]] in tierMap then tierMap[tiers[ids[i]]] else [])
    requires m' == tierMap[tiers[ids[i]] := group + [ids[i]]]
    ensures forall j :: 0 <= j < i + 1 ==> tiers[ids[j]] in m' && ids[j] in m'[tiers[ids[j]]]
  {
    forall j | 0 <= j < i + 1 ensures tiers[ids[j]] in m' && ids[j] in m'[tiers[ids[j]]] {
      if j < i && tiers[ids[j]] == tiers[ids[i]] { assert ids[j] in group; }
    }
  }

  lemma GroupStepMembers(ids: seq<string>, tiers: map<string, int>, i: nat, tierMap: map<int, seq<string>>,
                         group: seq<string>, m': map<int, seq<string>>)
    requires Grouped(ids, tiers, i, tierMap) && i < |ids|
    requires group == (if tiers[ids[i]] in tierMap then tierMap[tiers[ids[i]]] else [])
    requires m' == tierMap[tiers[ids[i]] := group + [ids[i]]]
    ensures forall u, j :: u in m' && 0 <= j < |m'[u]| ==> m'[u][j] in ids[..i + 1] && tiers[m'[u][j]] == u
  {
    assert ids[..i + 1] == ids[..i] + [ids[i]];
    forall u, j | u in m' && 0 <= j < |m'[u]| ensures m'[u][j] in ids[..i + 1] && tiers[m'[u][j]] == u {
      if u != tiers[ids[i]] || j < |group| { assert m'[u][j] == tierMap[u][j]; }
    }
  }

  lemma GroupStepDistinct(ids: seq<string>, tiers: map<string, int>, i: nat, tierMap: map<int, seq<string>>,
                          group: seq<string>, m': map<int, seq<string>>)
    requires Distinct(ids) && Grouped(ids, tiers, i, tierMap) && i < |ids|
    requires group == (if tiers[ids[i]] in tierMap then tierMap[tiers[ids[i]]] else [])
    requires m' == tierMap[tiers[ids[i]] := group + [ids[i]]]
    ensures forall u :: u in m' ==> Distinct(m'[u])
  {
    forall j | 0 <= j < |group| ensures group[j] != ids[i] {
      var t := tiers[ids[i]];
      assert t in tierMap && 0 <= j < |tierMap[t]| && group[j] == tierMap[t][j];
      assert tierMap[t][j] in ids[..i];
      var k :| 0 <= k < |ids[..i]| && ids[..i][k] == group[j];
      assert ids[k] == group[j];
    }
  }

  // ---------------------------------------------------------------- layout

  const TierWidth := 220
  const NodeHeight := 60
  const NodeWidth := 160
  const NodeMargin := 12
  const SourceHeader := 40
  const SourceMargin := 25
  const LeftMargin := 180
  const TopMargin := 20

  /** A laid-out node card: the node, its box, its lane and its tier. */
  datatype Placed = Placed(node: Node, x: int, y: int, width: int, height: int, sourceId: string, tier: int)

  /** A swim lane's band. */
  datatype Section = Section(y: int, height: int, name: string, icon: string, color: string)

  datatype Marker = Marker(x: int, y: int, height: int, title: string, phase: Phase)

  /** A prerequisite connection `from -> to`. */
  datatype Edge = Edge(id: string, from: string, to: string)

  datatype Layout = Layout(nodes: seq<Placed>, edges: seq<Edge>, sections: Obj<Section>,
                           width: int, height: int, markers: seq<Marker>)

  /** The swim lane of a node: its source, or "unknown" without one. */
  function LaneOf(n: Node): string
  {
    if n.source == "" then "unknown" else n.source
  }

  /** `node.tier || 0` once the computed tiers are written back. */
  function TierIn(tiers: map<string, int>, n: Node): int
  {
    if n.id in tiers then tiers[n.id] else 0
  }

  function NameOf(n: Node): string
  {
    n.name
  }

  /** The keys of `sourceGroups` in insertion order. */
  function LaneOrder(nodes: seq<Node>): (lanes: seq<string>)
    ensures Distinct(lanes)
    ensures forall s :: s in lanes <==> exists i :: 0 <= i < |nodes| && LaneOf(nodes[i]) == s
  {
    if nodes == [] then []
    else
      var lanes := LaneOrder(nodes[..|nodes| - 1]);
      var x := LaneOf(nodes[|nodes| - 1]);
      assert forall i :: 0 <= i < |nodes| - 1 ==> nodes[..|nodes| - 1][i] == nodes[i];
      if x in lanes then lanes else lanes + [x]
  }

  /** `sourceGroups[s]`: the nodes of lane `s`, in order. */
  function InLane(nodes: seq<Node>, s: string): seq<Node>
  {
    if nodes == [] then []
    else (if LaneOf(nodes[0]) == s then [nodes[0]] else []) + InLane(nodes[1..], s)
  }

  /** `sourceTierGroups[t]` after `tierNodes.sort(by name)`: the nodes of a lane in tier `t`,
      sorted by name, equal names in lane order. */
  function TierGroup(ls: seq<Node>, tiers: map<string, int>, t: int): seq<Node>
  {
    if ls == [] then []
    else if TierIn(tiers, ls[0]) == t then InsertBy(ls[0], TierGroup(ls[1..], tiers, t), NameOf)
    else TierGroup(ls[1..], tiers, t)
  }

  lemma {:induction false} InLaneSpec(nodes: seq<Node>, s: string)
    ensures forall n :: n in InLane(nodes, s) <==> n in nodes && LaneOf(n) == s
  {
    if nodes != [] {
      InLaneSpec(nodes[1..], s);
      assert nodes == [nodes[0]] + nodes[1..];
    }
  }

  /** A group holds exactly the lane's nodes of its tier, sorted by name. */
  lemma {:induction false} TierGroupSpec(ls: seq<Node>, tiers: map<string, int>, t: int)
    ensures forall x :: x in TierGroup(ls, tiers, t) <==> x in ls && TierIn(tiers, x) == t
    ensures AscendingBy(TierGroup(ls, tiers, t), NameOf)
  {
    if ls != [] {
      TierGroupSpec(ls[1..], tiers, t);
      assert ls == [ls[0]] + ls[1..];
      if TierIn(tiers, ls[0]) == t {
        var rest := TierGroup(ls[1..], tiers, t);
        InsertBySorted(ls[0], rest, NameOf);
        assert forall x :: x in InsertBy(ls[0], rest, NameOf) <==> x in multiset(InsertBy(ls[0], rest, NameOf));
      }
    }
  }

  /** The first `k` cards of a sorted group: column `t`, stacked from `y0` one card and one
      margin apart. */
  function GroupPlacements(group: seq<Node>, t: int, y0: int, s: string, k: nat): (r: seq<Placed>)
    requires k <= |group|
    ensures |r| == k
  {
    if k == 0 then []
    else GroupPlacements(group, t, y0, s, k - 1)
         + [Placed(group[k - 1], LeftMargin + t * TierWidth, y0 + (k - 1) * (NodeHeight + NodeMargin), NodeWidth, NodeHeight, s, t)]
  }

  /** The cards of tiers 0 to `n - 1` of a lane at `laneY`. */
  function LanePlacements(ls: seq<Node>, tiers: map<string, int>, laneY: int, s: string, n: nat): seq<Placed>
  {
    if n == 0 then []
    else
      var group := TierGroup(ls, tiers, n - 1);
      LanePlacements(ls, tiers, laneY, s, n - 1)
      + GroupPlacements(group, n - 1, laneY + SourceHeader + NodeMargin, s, |group|)
  }

  /** `maxNodesInTier` over tiers 0 to `n - 1`. */
  function MaxInTier(ls: seq<Node>, tiers: map<string, int>, n: nat): (m: nat)
  {
    if n == 0 then 0
    else
      var here := |TierGroup(ls, tiers, n - 1)|;
      var rest := MaxInTier(ls, tiers, n - 1);
      if here > rest then here else rest
  }

  function LaneHeight(maxNodesInTier: nat): int
  {
    SourceHeader + maxNodesInTier * (NodeHeight + NodeMargin) + NodeMargin
  }

  /** The height of lane `s`. */
  function LaneHeightOf(nodes: seq<Node>, tiers: map<string, int>, s: string, maxTier: nat): int
  {
    LaneHeight(MaxInTier(InLane(nodes, s), tiers, maxTier + 1))
  }

  /** `currentY` before lane `k`. */
  function LaneY(lanes: seq<string>, nodes: seq<Node>, tiers: map<string, int>, maxTier: nat, k: nat): int
    requires k <= |lanes|
  {
    if k == 0 then TopMargin
    else LaneY(lanes, nodes, tiers, maxTier, k - 1) + LaneHeightOf(nodes, tiers, lanes[k - 1], maxTier) + SourceMargin
  }

  /** The cards of the first `k` lanes. */
  function Placements(lanes: seq<string>, nodes: seq<Node>, tiers: map<string, int>, maxTier: nat, k: nat): seq<Placed>
    requires k <= |lanes|
  {
    if k == 0 then []
    else Placements(lanes, nodes, tiers, maxTier, k - 1)
         + LanePlacements(InLane(nodes, lanes[k - 1]), tiers, LaneY(lanes, nodes, tiers, maxTier, k - 1), lanes[k - 1], maxTier + 1)
  }

  /** A lane's band, named after its `SOURCES` entry when there is one. */
  function SectionFor(s: string, y: int, height: int): (r: Section)
    ensures r.y == y && r.height == height
  {
    match SourceEntry(s)
    case Some(c) => Section(y, height, c.name, c.icon, c.color)
    case None => Section(y, height, s, "📋", "#6b7280")
  }

  /** `layout.sourceSections` for the first `k` lanes. */
  function Sections(lanes: seq<string>, nodes: seq<Node>, tiers: map<string, int>, maxTier: nat, k: nat): (r: Obj<Section>)
    requires k <= |lanes|
    ensures |r| == k
  {
    if k == 0 then []
    else Sections(lanes, nodes, tiers, maxTier, k - 1)
         + [(lanes[k - 1], SectionFor(lanes[k - 1], LaneY(lanes, nodes, tiers, maxTier, k - 1),
                                      LaneHeightOf(nodes, tiers, lanes[k - 1], maxTier)))]
  }

  /** `maxTier`: the largest node tier, or 0 without nodes. */
  function MaxTierOf(nodes: seq<Node>, tiers: map<string, int>): (m: int)
    ensures m >= 0
  {
    if nodes == [] then 0
    else
      var m := MaxTierOf(nodes[..|nodes| - 1], tiers);
      var t := TierIn(tiers, nodes[|nodes| - 1]);
      if t > m then t else m
  }

  function MarkerAt(t: nat, height: int): Marker
  {
    Marker(LeftMargin + t * TierWidth - 10, 0, height, "Tier " + IntToString(t), GetPhaseForTier(t))
  }

  /** The ids of the laid-out nodes. */
  function PlacedIds(placed: seq<Placed>): (ids: seq<string>)
    ensures |ids| == |placed|
    ensures forall i :: 0 <= i < |placed| ==> ids[i] == placed[i].node.id
  {
    if placed == [] then [] else [placed[0].node.id] + PlacedIds(placed[1..])
  }

  /** The edges into node `to` from those of its prerequisites `ps` that are laid out. */
  function EdgesInto(ps: seq<string>, to: string, ids: seq<string>): seq<Edge>
  {
    if ps == [] then []
    else (if ps[0] in ids then [Edge(ps[0] + "-" + to, ps[0], to)] else []) + EdgesInto(ps[1..], to, ids)
  }

  /** The edges of the cards `placed`, in order, among the laid-out ids `ids`. */
  function EdgesOf(placed: seq<Placed>, ids: seq<string>): seq<Edge>
  {
    if placed == [] then []
    else EdgesInto(placed[0].node.prerequisites, placed[0].node.id, ids) + EdgesOf(placed[1..], ids)
  }

  /** The whole layout, given the written-back tiers. */
  function LayoutOf(upgrades: seq<Node>, tiers: map<string, int>): Layout
  {
    var lanes := LaneOrder(upgrades);
    var maxTier := MaxTierOf(upgrades, tiers);
    var placed := Placements(lanes, upgrades, tiers, maxTier, |lanes|);
    var height := LaneY(lanes, upgrades, tiers, maxTier, |lanes|) + 50;
    Layout(placed, EdgesOf(placed, PlacedIds(placed)), Sections(lanes, upgrades, tiers, maxTier, |lanes|),
           LeftMargin + (maxTier + 1) * TierWidth + 100, height,
           seq(maxTier + 1, t requires 0 <= t <= maxTier => MarkerAt(t, height)))
  }

  /** `calculateSourceTreeLayout(upgrades)`: computes the tiers, writes them back (returned
      as `tiers`), lays the lanes out top to bottom and the tiers left to right, then adds the
      canvas size, the tier markers and the edges. */
  method CalculateSourceTreeLayout(upgrades: seq<Node>, ghost rank: map<string, nat>)
    returns (layout: Layout, tiers: map<string, int>)
    ensures tiers.Keys == NodeMap(upgrades).Keys
    ensures forall k :: k in tiers ==>
      tiers[k] >= 0 && (tiers[k] == 0 <==> NodeMap(upgrades)[k].prerequisites == [])
    ensures Ranked(PrereqMap(NodeMap(upgrades)), rank) ==>
      forall k :: k in tiers ==> tiers[k] == TierFrom(NodeMap(upgrades)[k].prerequisites, tiers)
    ensures layout == LayoutOf(upgrades, tiers)
  {
    var tierMap;
    tiers, tierMap := CalculateNodeTiers(upgrades, rank);
    var lanes := LaneOrder(upgrades);
    var maxTier := MaxTierOf(upgrades, tiers);
    var placed, sections, currentY := PlaceLanes(upgrades, tiers, lanes, maxTier);
    var height := currentY + 50;
    var markers := TierMarkers(maxTier, height);
    layout := Layout(placed, EdgesOf(placed, PlacedIds(placed)), sections,
                     LeftMargin + (maxTier + 1) * TierWidth + 100, height, markers);
  }

  /** The swim-lane loop: each lane's band and cards, `currentY` advancing by the lane's
      height and the lane margin. */
  method PlaceLanes(upgrades: seq<Node>, tiers: map<string, int>, lanes: seq<string>, maxTier: nat)
    returns (placed: seq<Placed>, sections: Obj<Section>, currentY: int)
    ensures placed == Placements(lanes, upgrades, tiers, maxTier, |lanes|)
    ensures sections == Sections(lanes, upgrades, tiers, maxTier, |lanes|)
    ensures currentY == LaneY(lanes, upgrades, tiers, maxTier, |lanes|)
  {
    currentY := TopMargin;
    placed := [];
    sections := [];
    for li := 0 to |lanes|
      invariant currentY == LaneY(lanes, upgrades, tiers, maxTier, li)
      invariant placed == Placements(lanes, upgrades, tiers, maxTier, li)
      invariant sections == Sections(lanes, upgrades, tiers, maxTier, li)
    {
      var s := lanes[li];
      var ls := InLane(upgrades, s);
      var laneHeight := LaneHeight(MaxInTier(ls, tiers, maxTier + 1));
      sections := sections + [(s, SectionFor(s, currentY, laneHeight))];
      var lp := PlaceLane(ls, tiers, currentY, s, maxTier);
      placed := placed + lp;
      currentY := currentY + laneHeight + SourceMargin;
      LaneStep(lanes, upgrades, tiers, maxTier, li);
    }
  }

  lemma LaneYStep(lanes: seq<string>, nodes: seq<Node>, tiers: map<string, int>, maxTier: nat, k: nat)
    requires k < |lanes|
    ensures LaneY(lanes, nodes, tiers, maxTier, k + 1)
      == LaneY(lanes, nodes, tiers, maxTier, k) + LaneHeightOf(nodes, tiers, lanes[k], maxTier) + SourceMargin
  {
  }

  lemma LaneStep(lanes: seq<string>, nodes: seq<Node>, tiers: map<string, int>, maxTier: nat, k: nat)
    requires k < |lanes|
    ensures LaneY(lanes, nodes, tiers, maxTier, k + 1)
      == LaneY(lanes, nodes, tiers, maxTier, k) + LaneHeightOf(nodes, tiers, lanes[k], maxTier) + SourceMargin
    ensures Placements(lanes, nodes, tiers, maxTier, k + 1) == Placements(lanes, nodes, tiers, maxTier, k)
      + LanePlacements(InLane(nodes, lanes[k]), tiers, LaneY(lanes, nodes, tiers, maxTier, k), lanes[k], maxTier + 1)
    ensures Sections(lanes, nodes, tiers, maxTier, k + 1) == Sections(lanes, nodes, tiers, maxTier, k)
      + [(lanes[k], SectionFor(lanes[k], LaneY(lanes, nodes, tiers, maxTier, k), LaneHeightOf(nodes, tiers, lanes[k], maxTier)))]
  {
  }

  /** One marker per tier from 0 to `maxTier`. */
  method TierMarkers(maxTier: nat, height: int) returns (markers: seq<Marker>)
    ensures markers == seq(maxTier + 1, t requires 0 <= t <= maxTier => MarkerAt(t, height))
  {
    markers := [];
    for t := 0 to maxTier + 1
      invariant |markers| == t && forall j :: 0 <= j < t ==> markers[j] == MarkerAt(j, height)
    {
      markers := markers + [MarkerAt(t, height)];
    }
  }

  /** The cards of one lane: each tier's group in turn, from tier 0 up. */
  method PlaceLane(ls: seq<Node>, tiers: map<string, int>, laneY: int, s: string, maxTier: nat)
    returns (r: seq<Placed>)
    ensures r == LanePlacements(ls, tiers, laneY, s, maxTier + 1)
  {
    r := [];
    for t := 0 to maxTier + 1
      invariant r == LanePlacements(ls, tiers, laneY, s, t)
    {
      var g := PlaceGroup(TierGroup(ls, tiers, t), t, laneY, s);
      r := r + g;
    }
  }

  /** The cards of one sorted group: `nodeY` starts below the lane header and advances by one
      card and one margin per node. */
  method PlaceGroup(group: seq<Node>, t: int, laneY: int, s: string) returns (r: seq<Placed>)
    ensures r == GroupPlacements(group, t, laneY + SourceHeader + NodeMargin, s, |group|)
  {
    r := [];
    var tierX := LeftMargin + t * TierWidth;
    var nodeY := laneY + SourceHeader + NodeMargin;
    for k := 0 to |group|
      invariant nodeY == laneY + SourceHeader + NodeMargin + k * (NodeHeight + NodeMargin)
      invariant r == GroupPlacements(group, t, laneY + SourceHeader + NodeMargin, s, k)
    {
      r := r + [Placed(group[k], tierX, nodeY, NodeWidth, NodeHeight, s, t)];
      nodeY := nodeY + NodeHeight + NodeMargin;
    }
  }

  // ---------------------------------------------------------------- layout properties

  /** Card `j` of a group: node `j`, in column `t`, `j` card heights and margins below `y0`. */
  function CardAt(group: seq<Node>, t: int, y0: int, s: string, j: nat): Placed
    requires j < |group|
  {
    Placed(group[j], LeftMargin + t * TierWidth, y0 + j * (NodeHeight + NodeMargin), NodeWidth, NodeHeight, s, t)
  }

  lemma {:induction false} GroupPlacementsSpec(group: seq<Node>, t: int, y0: int, s: string, k: nat)
    requires k <= |group|
    ensures forall j :: 0 <= j < k ==> GroupPlacements(group, t, y0, s, k)[j] == CardAt(group, t, y0, s, j)
  {
    if k > 0 {
      GroupPlacementsSpec(group, t, y0, s, k - 1);
    }
  }

  /** A card of lane `s` at `laneY` built from tiers below `n`: one of the lane's nodes, with
      its own tier, in the column of that tier, inside the lane's band below its header. */
  predicate LaneCard(pl: Placed, ls: seq<Node>, tiers: map<string, int>, laneY: int, s: string, n: nat, height: int)
  {
    pl.node in ls && pl.tier == TierIn(tiers, pl.node) && 0 <= pl.tier < n
    && pl.x == LeftMargin + pl.tier * TierWidth && pl.width == NodeWidth && pl.height == NodeHeight
    && pl.sourceId == s
    && laneY + SourceHeader + NodeMargin <= pl.y && pl.y + NodeHeight + NodeMargin <= laneY + height
  }

  /** Within a column of one lane the cards are sorted by name and at least one card height
      and margin apart. */
  predicate ColumnOrdered(r: seq<Placed>)
  {
    forall i, j :: 0 <= i < j < |r| && InSameColumn(r[i], r[j]) ==> Stacked(r[i], r[j])
  }

  predicate InSameColumn(a: Placed, b: Placed)
  {
    a.tier == b.tier
  }

  predicate Stacked(a: Placed, b: Placed)
  {
    a.y + NodeHeight + NodeMargin <= b.y && LexLeq(a.node.name, b.node.name)
  }

  /** One lane's cards are `prev` followed by the cards of tier `n - 1`. */
  lemma LaneUnfold(ls: seq<Node>, tiers: map<string, int>, laneY: int, s: string, n: nat)
    requires n > 0
    ensures LanePlacements(ls, tiers, laneY, s, n)
      == LanePlacements(ls, tiers, laneY, s, n - 1)
         + GroupPlacements(TierGroup(ls, tiers, n - 1), n - 1, laneY + SourceHeader + NodeMargin, s, |TierGroup(ls, tiers, n - 1)|)
  {
  }

  lemma GroupCards(prev: seq<Placed>, group: seq<Node>, ls: seq<Node>, tiers: map<string, int>, laneY: int,
                   s: string, n: nat, mPrev: nat, m: nat)
    requires n > 0 && mPrev <= m && |group| <= m
    requires forall pl :: pl in prev ==> LaneCard(pl, ls, tiers, laneY, s, n - 1, LaneHeight(mPrev))
    requires forall x :: x in group ==> x in ls && TierIn(tiers, x) == n - 1
    ensures forall pl :: pl in prev + GroupPlacements(group, n - 1, laneY + SourceHeader + NodeMargin, s, |group|) ==>
      LaneCard(pl, ls, tiers, laneY, s, n, LaneHeight(m))
  {
    var y0 := laneY + SourceHeader + NodeMargin;
    var g := GroupPlacements(group, n - 1, y0, s, |group|);
    GroupPlacementsSpec(group, n - 1, y0, s, |group|);
    forall pl | pl in prev + g
      ensures LaneCard(pl, ls, tiers, laneY, s, n, LaneHeight(m))
    {
      if pl in prev {
        assert LaneCard(pl, ls, tiers, laneY, s, n - 1, LaneHeight(mPrev));
      } else {
        var j :| 0 <= j < |g| && g[j] == pl;
        assert pl == CardAt(group, n - 1, y0, s, j);
        assert group[j] in group;
      }
    }
  }

  /** Every card of a lane is a lane card. */
  lemma {:induction false} LaneCards(ls: seq<Node>, tiers: map<string, int>, laneY: int, s: string, n: nat)
    ensures forall pl :: pl in LanePlacements(ls, tiers, laneY, s, n) ==>
      LaneCard(pl, ls, tiers, laneY, s, n, LaneHeight(MaxInTier(ls, tiers, n)))
  {
    if n > 0 {
      LaneCards(ls, tiers, laneY, s, n - 1);
      TierGroupSpec(ls, tiers, n - 1);
      LaneUnfold(ls, tiers, laneY, s, n);
      GroupCards(LanePlacements(ls, tiers, laneY, s, n - 1), TierGroup(ls, tiers, n - 1), ls, tiers, laneY, s, n,
                 MaxInTier(ls, tiers, n - 1), MaxInTier(ls, tiers, n));
    }
  }

  lemma GroupCovers(prev: seq<Placed>, group: seq<Node>, ls: seq<Node>, tiers: map<string, int>, laneY: int,
                    s: string, n: nat)
    requires n > 0
    requires forall x :: x in ls && 0 <= TierIn(tiers, x) < n - 1 ==> exists pl :: pl in prev && pl.node == x
    requires forall x :: x in ls && TierIn(tiers, x) == n - 1 ==> x in group
    ensures forall x :: x in ls && 0 <= TierIn(tiers, x) < n ==>
      exists pl :: pl in prev + GroupPlacements(group, n - 1, laneY + SourceHeader + NodeMargin, s, |group|) && pl.node == x
  {
    var y0 := laneY + SourceHeader + NodeMargin;
    var g := GroupPlacements(group, n - 1, y0, s, |group|);
    GroupPlacementsSpec(group, n - 1, y0, s, |group|);
    forall x | x in ls && 0 <= TierIn(tiers, x) < n
      ensures exists pl :: pl in prev + g && pl.node == x
    {
      if TierIn(tiers, x) < n - 1 {
        var pl :| pl in prev && pl.node == x;
        assert pl in prev + g;
      } else {
        var j :| 0 <= j < |group| && group[j] == x;
        assert g[j] == CardAt(group, n - 1, y0, s, j);
        assert g[j] in prev + g;
      }
    }
  }

  /** Every node of a lane with a tier below `n` gets a card. */
  lemma {:induction false} LaneCovers(ls: seq<Node>, tiers: map<string, int>, laneY: int, s: string, n: nat)
    ensures forall x :: x in ls && 0 <= TierIn(tiers, x) < n ==>
      exists pl :: pl in LanePlacements(ls, tiers, laneY, s, n) && pl.node == x
  {
    if n > 0 {
      LaneCovers(ls, tiers, laneY, s, n - 1);
      TierGroupSpec(ls, tiers, n - 1);
      LaneUnfold(ls, tiers, laneY, s, n);
      GroupCovers(LanePlacements(ls, tiers, laneY, s, n - 1), TierGroup(ls, tiers, n - 1), ls, tiers, laneY, s, n);
    }
  }

  lemma GroupOrdered(prev: seq<Placed>, group: seq<Node>, ls: seq<Node>, tiers: map<string, int>, laneY: int,
                     s: string, n: nat, mPrev: nat)
    requires n > 0
    requires ColumnOrdered(prev)
    requires forall pl :: pl in prev ==> LaneCard(pl, ls, tiers, laneY, s, n - 1, LaneHeight(mPrev))
    requires AscendingBy(group, NameOf)
    ensures ColumnOrdered(prev + GroupPlacements(group, n - 1, laneY + SourceHeader + NodeMargin, s, |group|))
  {
    var y0 := laneY + SourceHeader + NodeMargin;
    var g := GroupPlacements(group, n - 1, y0, s, |group|);
    var r := prev + g;
    GroupPlacementsSpec(group, n - 1, y0, s, |group|);
    assert forall i :: 0 <= i < |prev| ==> r[i] == prev[i] && r[i].tier < n - 1 by {
      forall i | 0 <= i < |prev| ensures r[i] == prev[i] && r[i].tier < n - 1 {
        assert prev[i] in prev;
      }
    }
    assert forall j :: |prev| <= j < |r| ==> r[j] == CardAt(group, n - 1, y0, s, j - |prev|);
    forall i, j | 0 <= i < j < |r| && InSameColumn(r[i], r[j])
      ensures Stacked(r[i], r[j])
    {
      if j < |prev| {
        assert r[i] == prev[i] && r[j] == prev[j];
      } else {
        assert i >= |prev|;
        assert NameOf(group[i - |prev|]) == r[i].node.name;
      }
    }
  }

  /** The columns of a lane are sorted by name and spaced one card and one margin apart. */
  lemma {:induction false} LaneOrdered(ls: seq<Node>, tiers: map<string, int>, laneY: int, s: string, n: nat)
    ensures ColumnOrdered(LanePlacements(ls, tiers, laneY, s, n))
  {
    if n > 0 {
      LaneOrdered(ls, tiers, laneY, s, n - 1);
      LaneCards(ls, tiers, laneY, s, n - 1);
      TierGroupSpec(ls, tiers, n - 1);
      LaneUnfold(ls, tiers, laneY, s, n);
      GroupOrdered(LanePlacements(ls, tiers, laneY, s, n - 1), TierGroup(ls, tiers, n - 1), ls, tiers, laneY, s, n,
                   MaxInTier(ls, tiers, n - 1));
    }
  }

  /** `maxTier` bounds every node's tier and is one of them, or 0. */
  lemma {:induction false} MaxTierOfSpec(nodes: seq<Node>, tiers: map<string, int>)
    ensures forall x :: x in nodes ==> TierIn(tiers, x) <= MaxTierOf(nodes, tiers)
    ensures MaxTierOf(nodes, tiers) == 0 || exists x :: x in nodes && MaxTierOf(nodes, tiers) == TierIn(tiers, x)
  {
    if nodes != [] {
      var init := nodes[..|nodes| - 1];
      MaxTierOfSpec(init, tiers);
      assert nodes == init + [nodes[|nodes| - 1]];
    }
  }

  /** A card of the layout: one of the nodes, in its own lane, with its own tier, in that
      tier's column, above `bottom`. */
  predicate LayoutCard(pl: Placed, nodes: seq<Node>, tiers: map<string, int>, maxTier: nat, bottom: int)
  {
    pl.node in nodes && LaneOf(pl.node) == pl.sourceId && pl.tier == TierIn(tiers, pl.node)
    && 0 <= pl.tier <= maxTier && pl.x == LeftMargin + pl.tier * TierWidth
    && pl.width == NodeWidth && pl.height == NodeHeight
    && TopMargin + SourceHeader + NodeMargin <= pl.y && pl.y + NodeHeight + NodeMargin + SourceMargin <= bottom
  }

  /** A card of one lane is a layout card above the next lane. */
  lemma LaneCardLaid(pl: Placed, nodes: seq<Node>, tiers: map<string, int>, maxTier: nat, s: string,
                     laneY: int, bottom: int)
    requires LaneCard(pl, InLane(nodes, s), tiers, laneY, s, maxTier + 1, LaneHeightOf(nodes, tiers, s, maxTier))
    requires laneY >= TopMargin && bottom == laneY + LaneHeightOf(nodes, tiers, s, maxTier) + SourceMargin
    ensures LayoutCard(pl, nodes, tiers, maxTier, bottom)
  {
    InLaneSpec(nodes, s);
  }

  lemma {:induction false} LaneYGrows(lanes: seq<string>, nodes: seq<Node>, tiers: map<string, int>, maxTier: nat, k: nat)
    requires k <= |lanes|
    ensures LaneY(lanes, nodes, tiers, maxTier, k) >= TopMargin
    ensures k > 0 ==>
      LaneY(lanes, nodes, tiers, maxTier, k) > LaneY(lanes, nodes, tiers, maxTier, k - 1) + SourceMargin
  {
    if k > 0 {
      LaneYGrows(lanes, nodes, tiers, maxTier, k - 1);
    }
  }

  /** Every card of the first `k` lanes is a layout card lying above the next lane. */
  lemma PlacementsCards(lanes: seq<string>, nodes: seq<Node>, tiers: map<string, int>, maxTier: nat, k: nat)
    requires k <= |lanes|
    ensures forall pl :: pl in Placements(lanes, nodes, tiers, maxTier, k) ==>
      LayoutCard(pl, nodes, tiers, maxTier, LaneY(lanes, nodes, tiers, maxTier, k)) && pl.sourceId in lanes[..k]
  {
    forall pl | pl in Placements(lanes, nodes, tiers, maxTier, k)
      ensures LayoutCard(pl, nodes, tiers, maxTier, LaneY(lanes, nodes, tiers, maxTier, k)) && pl.sourceId in lanes[..k]
    {
      PlacementCard(lanes, nodes, tiers, maxTier, k, pl);
    }
  }

  lemma {:induction false} PlacementCard(lanes: seq<string>, nodes: seq<Node>, tiers: map<string, int>, maxTier: nat,
                                         k: nat, pl: Placed)
    requires k <= |lanes| && pl in Placements(lanes, nodes, tiers, maxTier, k)
    ensures LayoutCard(pl, nodes, tiers, maxTier, LaneY(lanes, nodes, tiers, maxTier, k)) && pl.sourceId in lanes[..k]
  {
    if k > 0 {
      var prev := Placements(lanes, nodes, tiers, maxTier, k - 1);
      var lp := LanePlacements(InLane(nodes, lanes[k - 1]), tiers, LaneY(lanes, nodes, tiers, maxTier, k - 1),
                               lanes[k - 1], maxTier + 1);
      assert Placements(lanes, nodes, tiers, maxTier, k) == prev + lp;
      if pl in prev {
        LaneYGrows(lanes, nodes, tiers, maxTier, k);
        PlacementCard(lanes, nodes, tiers, maxTier, k - 1, pl);
        assert lanes[..k - 1] <= lanes[..k];
      } else {
        NewLaneCard(lanes, nodes, tiers, maxTier, k, pl);
      }
    }
  }

  /** A card of lane `k - 1` is a layout card above lane `k`. */
  lemma NewLaneCard(lanes: seq<string>, nodes: seq<Node>, tiers: map<string, int>, maxTier: nat, k: nat, pl: Placed)
    requires 0 < k <= |lanes|
    requires pl in LanePlacements(InLane(nodes, lanes[k - 1]), tiers, LaneY(lanes, nodes, tiers, maxTier, k - 1),
                                  lanes[k - 1], maxTier + 1)
    ensures LayoutCard(pl, nodes, tiers, maxTier, LaneY(lanes, nodes, tiers, maxTier, k)) && pl.sourceId in lanes[..k]
  {
    var j := k - 1;
    var s := lanes[j];
    var laneY := LaneY(lanes, nodes, tiers, maxTier, j);
    var bottom := LaneY(lanes, nodes, tiers, maxTier, j + 1);
    LaneYGrows(lanes, nodes, tiers, maxTier, j);
    LaneCards(InLane(nodes, s), tiers, laneY, s, maxTier + 1);
    LaneYStep(lanes, nodes, tiers, maxTier, j);
    LaneCardLaid(pl, nodes, tiers, maxTier, s, laneY, bottom);
    assert lanes[..k][j] == s;
  }

  /** Every node whose lane is among the first `k` and whose tier lies in `0..maxTier` gets a
      card. */
  lemma PlacementsCover(lanes: seq<string>, nodes: seq<Node>, tiers: map<string, int>, maxTier: nat, k: nat)
    requires k <= |lanes|
    ensures forall x :: x in nodes && LaneOf(x) in lanes[..k] && 0 <= TierIn(tiers, x) <= maxTier ==>
      exists pl: Placed :: pl in Placements(lanes, nodes, tiers, maxTier, k) && pl.node == x
  {
    forall x | x in nodes && LaneOf(x) in lanes[..k] && 0 <= TierIn(tiers, x) <= maxTier
      ensures exists pl: Placed :: pl in Placements(lanes, nodes, tiers, maxTier, k) && pl.node == x
    {
      NodeCovered(lanes, nodes, tiers, maxTier, k, x);
    }
  }

  lemma {:induction false} NodeCovered(lanes: seq<string>, nodes: seq<Node>, tiers: map<string, int>, maxTier: nat,
                                       k: nat, x: Node)
    requires k <= |lanes| && x in nodes && LaneOf(x) in lanes[..k] && 0 <= TierIn(tiers, x) <= maxTier
    ensures exists pl: Placed :: pl in Placements(lanes, nodes, tiers, maxTier, k) && pl.node == x
  {
    var prev := Placements(lanes, nodes, tiers, maxTier, k - 1);
    var lp := LanePlacements(InLane(nodes, lanes[k - 1]), tiers, LaneY(lanes, nodes, tiers, maxTier, k - 1),
                             lanes[k - 1], maxTier + 1);
    assert Placements(lanes, nodes, tiers, maxTier, k) == prev + lp;
    var i :| 0 <= i < k && lanes[..k][i] == LaneOf(x);
    if i < k - 1 {
      assert lanes[..k - 1][i] == LaneOf(x);
      NodeCovered(lanes, nodes, tiers, maxTier, k - 1, x);
      var pl :| pl in prev && pl.node == x;
      assert pl in prev + lp;
    } else {
      var pl := NewLaneCovers(lanes, nodes, tiers, maxTier, k, x);
      assert pl in prev + lp;
    }
  }

  /** A node of lane `k - 1` whose tier lies in `0..maxTier` has a card in that lane. */
  lemma NewLaneCovers(lanes: seq<string>, nodes: seq<Node>, tiers: map<string, int>, maxTier: nat, k: nat, x: Node)
    returns (pl: Placed)
    requires 0 < k <= |lanes| && x in nodes && LaneOf(x) == lanes[k - 1] && 0 <= TierIn(tiers, x) <= maxTier
    ensures pl.node == x
    ensures pl in LanePlacements(InLane(nodes, lanes[k - 1]), tiers, LaneY(lanes, nodes, tiers, maxTier, k - 1),
                                 lanes[k - 1], maxTier + 1)
  {
    var ls := InLane(nodes, lanes[k - 1]);
    InLaneSpec(nodes, lanes[k - 1]);
    assert x in ls;
    LaneCovers(ls, tiers, LaneY(lanes, nodes, tiers, maxTier, k - 1), lanes[k - 1], maxTier + 1);
    pl :| pl in LanePlacements(ls, tiers, LaneY(lanes, nodes, tiers, maxTier, k - 1), lanes[k - 1], maxTier + 1)
      && pl.node == x;
  }

  /** Section `i` belongs to lane `i` and spans that lane's band. */
  predicate SectionOf(secs: Obj<Section>, lanes: seq<string>, nodes: seq<Node>, tiers: map<string, int>, maxTier: nat, i: nat)
    requires i < |secs| && i < |lanes|
  {
    secs[i].0 == lanes[i] && secs[i].1.y == LaneY(lanes, nodes, tiers, maxTier, i)
    && secs[i].1.height == LaneHeightOf(nodes, tiers, lanes[i], maxTier)
  }

  lemma SectionsAt(lanes: seq<string>, nodes: seq<Node>, tiers: map<string, int>, maxTier: nat, k: nat)
    requires k <= |lanes|
    ensures forall i :: 0 <= i < k ==> SectionOf(Sections(lanes, nodes, tiers, maxTier, k), lanes, nodes, tiers, maxTier, i)
  {
    forall i | 0 <= i < k
      ensures SectionOf(Sections(lanes, nodes, tiers, maxTier, k), lanes, nodes, tiers, maxTier, i)
    {
      SectionAt(lanes, nodes, tiers, maxTier, k, i);
    }
  }

  lemma {:induction false} SectionAt(lanes: seq<string>, nodes: seq<Node>, tiers: map<string, int>, maxTier: nat,
                                     k: nat, i: nat)
    requires i < k <= |lanes|
    ensures SectionOf(Sections(lanes, nodes, tiers, maxTier, k), lanes, nodes, tiers, maxTier, i)
  {
    var prev := Sections(lanes, nodes, tiers, maxTier, k - 1);
    var s := lanes[k - 1];
    var sec := SectionFor(s, LaneY(lanes, nodes, tiers, maxTier, k - 1), LaneHeightOf(nodes, tiers, s, maxTier));
    assert Sections(lanes, nodes, tiers, maxTier, k) == prev + [(s, sec)];
    if i < k - 1 {
      SectionAt(lanes, nodes, tiers, maxTier, k - 1, i);
      assert Sections(lanes, nodes, tiers, maxTier, k)[i] == prev[i];
    }
  }

  lemma {:induction false} LaneYMonotone(lanes: seq<string>, nodes: seq<Node>, tiers: map<string, int>, maxTier: nat, i: nat, j: nat)
    requires i <= j <= |lanes|
    ensures LaneY(lanes, nodes, tiers, maxTier, i) <= LaneY(lanes, nodes, tiers, maxTier, j)
    decreases j - i
  {
    if i < j {
      var k := j - 1;
      LaneYMonotone(lanes, nodes, tiers, maxTier, i, k);
      LaneYGrows(lanes, nodes, tiers, maxTier, k + 1);
    }
  }

  lemma SectionsApart(secs: Obj<Section>, lanes: seq<string>, nodes: seq<Node>, tiers: map<string, int>, maxTier: nat, i: nat, j: nat)
    requires i < j < |secs| == |lanes|
    requires SectionOf(secs, lanes, nodes, tiers, maxTier, i) && SectionOf(secs, lanes, nodes, tiers, maxTier, j)
    ensures secs[i].1.y + secs[i].1.height + SourceMargin <= secs[j].1.y
  {
    LaneYStep(lanes, nodes, tiers, maxTier, i);
    LaneYMonotone(lanes, nodes, tiers, maxTier, i + 1, j);
    assert secs[i].1.y + secs[i].1.height + SourceMargin == LaneY(lanes, nodes, tiers, maxTier, i + 1);
  }

  /** The lane bands are stacked top to bottom in lane order, a lane margin apart, starting at
      the top margin. */
  lemma SectionsStacked(lanes: seq<string>, nodes: seq<Node>, tiers: map<string, int>, maxTier: nat, secs: Obj<Section>)
    requires secs == Sections(lanes, nodes, tiers, maxTier, |lanes|)
    ensures |secs| > 0 ==> secs[0].1.y == TopMargin
    ensures forall i, j :: 0 <= i < j < |secs| ==> secs[i].1.y + secs[i].1.height + SourceMargin <= secs[j].1.y
  {
    SectionsAt(lanes, nodes, tiers, maxTier, |lanes|);
    if |secs| > 0 {
      assert SectionOf(secs, lanes, nodes, tiers, maxTier, 0);
    }
    forall i, j | 0 <= i < j < |secs|
      ensures secs[i].1.y + secs[i].1.height + SourceMargin <= secs[j].1.y
    {
      SectionsApart(secs, lanes, nodes, tiers, maxTier, i, j);
    }
  }

  /** The band of the section named after a card's lane. */
  predicate InBand(pl: Placed, sections: Obj<Section>)
  {
    Get(sections, pl.sourceId).Some?
    && var sec := Get(sections, pl.sourceId).value;
    sec.y + SourceHeader + NodeMargin <= pl.y && pl.y + NodeHeight + NodeMargin <= sec.y + sec.height
  }

  /** Every card lies inside the band of its lane's section. */
  lemma {:induction false} PlacementsInBands(lanes: seq<string>, nodes: seq<Node>, tiers: map<string, int>, maxTier: nat, k: nat)
    requires k <= |lanes| && Distinct(lanes)
    ensures forall pl :: pl in Placements(lanes, nodes, tiers, maxTier, k) ==>
      InBand(pl, Sections(lanes, nodes, tiers, maxTier, k))
  {
    if k > 0 {
      var prev := Placements(lanes, nodes, tiers, maxTier, k - 1);
      var secs := Sections(lanes, nodes, tiers, maxTier, k - 1);
      var laneY := LaneY(lanes, nodes, tiers, maxTier, k - 1);
      var s := lanes[k - 1];
      var h := LaneHeightOf(nodes, tiers, s, maxTier);
      var ls := InLane(nodes, s);
      var lp := LanePlacements(ls, tiers, laneY, s, maxTier + 1);
      var sec := SectionFor(s, laneY, h);
      assert Placements(lanes, nodes, tiers, maxTier, k) == prev + lp;
      assert Sections(lanes, nodes, tiers, maxTier, k) == secs + [(s, sec)];
      PlacementsInBands(lanes, nodes, tiers, maxTier, k - 1);
      LaneCards(ls, tiers, laneY, s, maxTier + 1);
      SectionsAt(lanes, nodes, tiers, maxTier, k - 1);
      forall i | 0 <= i < k - 1
        ensures secs[i].0 != s
      {
        assert SectionOf(secs, lanes, nodes, tiers, maxTier, i);
      }
      GetSome(secs, s);
      forall pl | pl in prev + lp
        ensures InBand(pl, secs + [(s, sec)])
      {
        GetAppend(secs, s, sec, pl.sourceId);
        if pl !in prev {
          assert LaneCard(pl, ls, tiers, laneY, s, maxTier + 1, h);
        }
      }
    }
  }

  /** The laid-out canvas: every upgrade gets exactly the card of its lane and tier, inside
      its lane's band and inside the canvas; one marker per tier sits just left of its
      column; the width fits the largest tier; the edges join laid-out cards. */
  predicate WellLaidOut(upgrades: seq<Node>, tiers: map<string, int>, layout: Layout)
  {
    var maxTier := MaxTierOf(upgrades, tiers);
    && layout.width == LeftMargin + (maxTier + 1) * TierWidth + 100
    && |layout.markers| == maxTier + 1
    && (forall t :: 0 <= t < |layout.markers| ==>
          layout.markers[t].x == LeftMargin + t * TierWidth - 10
          && layout.markers[t].height == layout.height
          && layout.markers[t].phase == GetPhaseForTier(t))
    && (forall x :: x in upgrades ==> exists pl :: pl in layout.nodes && pl.node == x)
    && (forall pl :: pl in layout.nodes ==>
          LayoutCard(pl, upgrades, tiers, maxTier, layout.height)
          && InBand(pl, layout.sections)
          && pl.x + pl.width <= layout.width && pl.y + pl.height <= layout.height
          && layout.markers[pl.tier].x + 10 == pl.x)
  }

  /** With non-negative tiers, `LayoutOf` is well laid out. */
  lemma LayoutOfSpec(upgrades: seq<Node>, tiers: map<string, int>)
    requires forall k :: k in tiers ==> tiers[k] >= 0
    ensures WellLaidOut(upgrades, tiers, LayoutOf(upgrades, tiers))
  {
    var lanes := LaneOrder(upgrades);
    var maxTier := MaxTierOf(upgrades, tiers);
    var placed := Placements(lanes, upgrades, tiers, maxTier, |lanes|);
    var bottom := LaneY(lanes, upgrades, tiers, maxTier, |lanes|);
    var markers := seq(maxTier + 1, t requires 0 <= t <= maxTier => MarkerAt(t, bottom + 50));
    var layout := Layout(placed, EdgesOf(placed, PlacedIds(placed)), Sections(lanes, upgrades, tiers, maxTier, |lanes|),
                         LeftMargin + (maxTier + 1) * TierWidth + 100, bottom + 50, markers);
    assert LayoutOf(upgrades, tiers) == layout;
    LanesLaidOut(upgrades, tiers, lanes, maxTier);
    LaidOut(upgrades, tiers, maxTier, bottom, layout);
  }

  /** The cards of all lanes are layout cards inside their bands, and every upgrade has one. */
  lemma LanesLaidOut(upgrades: seq<Node>, tiers: map<string, int>, lanes: seq<string>, maxTier: nat)
    requires forall k :: k in tiers ==> tiers[k] >= 0
    requires lanes == LaneOrder(upgrades) && maxTier == MaxTierOf(upgrades, tiers)
    ensures forall pl :: pl in Placements(lanes, upgrades, tiers, maxTier, |lanes|) ==>
      LayoutCard(pl, upgrades, tiers, maxTier, LaneY(lanes, upgrades, tiers, maxTier, |lanes|))
    ensures forall pl :: pl in Placements(lanes, upgrades, tiers, maxTier, |lanes|) ==>
      InBand(pl, Sections(lanes, upgrades, tiers, maxTier, |lanes|))
    ensures forall x :: x in upgrades ==>
      exists pl :: pl in Placements(lanes, upgrades, tiers, maxTier, |lanes|) && pl.node == x
  {
    assert lanes[..|lanes|] == lanes;
    PlacementsCards(lanes, upgrades, tiers, maxTier, |lanes|);
    PlacementsInBands(lanes, upgrades, tiers, maxTier, |lanes|);
    LanesCover(upgrades, tiers, lanes, maxTier);
  }

  /** Every upgrade has a card in the lanes of `LaneOrder`. */
  lemma LanesCover(upgrades: seq<Node>, tiers: map<string, int>, lanes: seq<string>, maxTier: nat)
    requires forall k :: k in tiers ==> tiers[k] >= 0
    requires lanes == LaneOrder(upgrades) && maxTier == MaxTierOf(upgrades, tiers)
    ensures forall x :: x in upgrades ==>
      exists pl :: pl in Placements(lanes, upgrades, tiers, maxTier, |lanes|) && pl.node == x
  {
    assert lanes[..|lanes|] == lanes;
    MaxTierOfSpec(upgrades, tiers);
    PlacementsCover(lanes, upgrades, tiers, maxTier, |lanes|);
    forall x | x in upgrades
      ensures LaneOf(x) in lanes && 0 <= TierIn(tiers, x) <= maxTier
    {
      var i :| 0 <= i < |upgrades| && upgrades[i] == x;
    }
  }

  /** A canvas whose cards are layout cards inside their bands, one for every upgrade, sized
      to the lanes and the largest tier and with a marker per tier, is well laid out. */
  lemma LaidOut(upgrades: seq<Node>, tiers: map<string, int>, maxTier: nat, bottom: int, layout: Layout)
    requires maxTier == MaxTierOf(upgrades, tiers)
    requires forall pl :: pl in layout.nodes ==> LayoutCard(pl, upgrades, tiers, maxTier, bottom)
    requires forall pl :: pl in layout.nodes ==> InBand(pl, layout.sections)
    requires forall x :: x in upgrades ==> exists pl :: pl in layout.nodes && pl.node == x
    requires layout.width == LeftMargin + (maxTier + 1) * TierWidth + 100 && layout.height == bottom + 50
    requires |layout.markers| == maxTier + 1
    requires forall t :: 0 <= t < |layout.markers| ==> layout.markers[t] == MarkerAt(t, layout.height)
    ensures WellLaidOut(upgrades, tiers, layout)
  {
    forall pl | pl in layout.nodes
      ensures LayoutCard(pl, upgrades, tiers, maxTier, layout.height)
      ensures layout.markers[pl.tier].x + 10 == pl.x
    {
      assert LayoutCard(pl, upgrades, tiers, maxTier, bottom);
    }
  }

  lemma {:induction false} EdgesIntoSpec(ps: seq<string>, to: string, ids: seq<string>)
    ensures forall e :: e in EdgesInto(ps, to, ids) <==>
      e.to == to && e.from in ps && e.from in ids && e.id == e.from + "-" + to
  {
    if ps != [] {
      EdgesIntoSpec(ps[1..], to, ids);
      assert ps == [ps[0]] + ps[1..];
    }
  }

  /** An edge runs from a laid-out prerequisite into the card that needs it, with id
      `from-to`; every such pair has an edge. */
  lemma {:induction false} EdgesOfSpec(placed: seq<Placed>, ids: seq<string>)
    ensures forall e :: e in EdgesOf(placed, ids) <==>
      e.from in ids && e.id == e.from + "-" + e.to
      && exists pl :: pl in placed && pl.node.id == e.to && e.from in pl.node.prerequisites
  {
    if placed != [] {
      EdgesOfSpec(placed[1..], ids);
      EdgesIntoSpec(placed[0].node.prerequisites, placed[0].node.id, ids);
      assert placed == [placed[0]] + placed[1..];
    }
  }

  /** In the layout, every edge joins two laid-out cards. */
  lemma LayoutEdges(upgrades: seq<Node>, tiers: map<string, int>)
    ensures var layout := LayoutOf(upgrades, tiers);
      forall e :: e in layout.edges <==>
        e.id == e.from + "-" + e.to
        && (exists p :: p in layout.nodes && p.node.id == e.from)
        && (exists pl :: pl in layout.nodes && pl.node.id == e.to && e.from in pl.node.prerequisites)
  {
    var layout := LayoutOf(upgrades, tiers);
    var ids := PlacedIds(layout.nodes);
    EdgesOfSpec(layout.nodes, ids);
    forall x
      ensures x in ids <==> exists p :: p in layout.nodes && p.node.id == x
    {
      if x in ids {
        var i :| 0 <= i < |ids| && ids[i] == x;
        assert layout.nodes[i] in layout.nodes;
      }
      if exists p :: p in layout.nodes && p.node.id == x {
        var p :| p in layout.nodes && p.node.id == x;
        var i :| 0 <= i < |layout.nodes| && layout.nodes[i] == p;
        assert ids[i] == x;
      }
    }
  }

  /** The view filters: source and area lists (absent when unset; `'all'` in a list switches
      it off) and the search text. */
  datatype Filters = Filters(sources: Option<seq<string>>, areas: Option<seq<string>>, search: string)

  /** A list filter lets `v` through. */
  predicate Selects(allowed: Option<seq<string>>, v: string)
  {
    allowed.None? || "all" in allowed.value || v in allowed.value
  }

  /** The search, lower-cased but not trimmed, occurs in the lower-cased name or description;
      a blank search matches everything. */
  predicate Matches(search: string, n: Node)
  {
    Blank(search) || Contains(Lower(n.name), Lower(search)) || Contains(Lower(n.description), Lower(search))
  }

  predicate Visible(f: Filters, pl: Placed)
  {
    Selects(f.sources, pl.sourceId) && Selects(f.areas, pl.node.area) && Matches(f.search, pl.node)
  }

  /** The cards that pass the filters, in layout order. */
  function KeepCards(ps: seq<Placed>, f: Filters): (r: seq<Placed>)
    ensures |r| <= |ps|
  {
    if ps == [] then []
    else (if Visible(f, ps[0]) then [ps[0]] else []) + KeepCards(ps[1..], f)
  }

  /** The edges both of whose ends are among `ids`, in order. */
  function KeepEdges(es: seq<Edge>, ids: seq<string>): (r: seq<Edge>)
    ensures |r| <= |es|
  {
    if es == [] then []
    else (if es[0].from in ids && es[0].to in ids then [es[0]] else []) + KeepEdges(es[1..], ids)
  }

  /** `filterLayout(layout, filters)`: a missing layout comes back as it is; otherwise only the
      visible cards and the edges between them are kept, and everything else is unchanged. */
  function FilterLayout(layout: Option<Layout>, f: Filters): Option<Layout>
  {
    match layout
    case None => None
    case Some(l) =>
      var kept := KeepCards(l.nodes, f);
      Some(l.(nodes := kept, edges := KeepEdges(l.edges, PlacedIds(kept))))
  }

  lemma {:induction false} KeepCardsSpec(ps: seq<Placed>, f: Filters)
    ensures forall pl :: pl in KeepCards(ps, f) <==> pl in ps && Visible(f, pl)
  {
    if ps != [] {
      KeepCardsSpec(ps[1..], f);
      assert ps == [ps[0]] + ps[1..];
    }
  }

  lemma {:induction false} KeepEdgesSpec(es: seq<Edge>, ids: seq<string>)
    ensures forall e :: e in KeepEdges(es, ids) <==> e in es && e.from in ids && e.to in ids
  {
    if es != [] {
      KeepEdgesSpec(es[1..], ids);
      assert es == [es[0]] + es[1..];
    }
  }

  /** Without filters every card is visible, and the card list is kept as it is. */
  lemma {:induction false} KeepAll(ps: seq<Placed>, f: Filters)
    requires forall pl :: pl in ps ==> Visible(f, pl)
    ensures KeepCards(ps, f) == ps
  {
    if ps != [] {
      assert ps[0] in ps;
      assert forall pl :: pl in ps[1..] ==> pl in ps;
      KeepAll(ps[1..], f);
    }
  }

  lemma {:induction false} KeepEveryEdge(es: seq<Edge>, ids: seq<string>)
    requires forall e :: e in es ==> e.from in ids && e.to in ids
    ensures KeepEdges(es, ids) == es
  {
    if es != [] {
      assert es[0] in es;
      assert forall e :: e in es[1..] ==> e in es;
      KeepEveryEdge(es[1..], ids);
    }
  }

  lemma PlacedIdsIn(ps: seq<Placed>, x: string)
    ensures x in PlacedIds(ps) <==> exists p :: p in ps && p.node.id == x
  {
    var ids := PlacedIds(ps);
    if x in ids {
      var i :| 0 <= i < |ids| && ids[i] == x;
      assert ps[i] in ps;
    }
    if exists p :: p in ps && p.node.id == x {
      var p :| p in ps && p.node.id == x;
      var i :| 0 <= i < |ps| && ps[i] == p;
      assert ids[i] == x;
    }
  }

  /** The filtered layout keeps exactly the visible cards, exactly the edges whose two ends
      are kept, and the sections, canvas size and markers of the input. */
  lemma FilterLayoutSpec(layout: Option<Layout>, f: Filters)
    ensures layout.None? ==> FilterLayout(layout, f).None?
    ensures layout.Some? ==>
      var l := layout.value;
      var r := FilterLayout(layout, f);
      r.Some?
      && r.value.sections == l.sections && r.value.width == l.width
      && r.value.height == l.height && r.value.markers == l.markers
      && (forall pl :: pl in r.value.nodes <==> pl in l.nodes && Visible(f, pl))
      && (forall e :: e in r.value.edges <==>
            e in l.edges
            && (exists p :: p in r.value.nodes && p.node.id == e.from)
            && (exists p :: p in r.value.nodes && p.node.id == e.to))
  {
    if layout.Some? {
      var l := layout.value;
      var kept := KeepCards(l.nodes, f);
      KeepCardsSpec(l.nodes, f);
      KeepEdgesSpec(l.edges, PlacedIds(kept));
      forall e: Edge ensures e.from in PlacedIds(kept) <==> exists p :: p in kept && p.node.id == e.from
      {
        PlacedIdsIn(kept, e.from);
      }
      forall e: Edge ensures e.to in PlacedIds(kept) <==> exists p :: p in kept && p.node.id == e.to
      {
        PlacedIdsIn(kept, e.to);
      }
    }
  }

  /** Filters whose lists are unset or contain `'all'` and whose search is blank change
      nothing in a computed layout. */
  lemma FilterNothing(upgrades: seq<Node>, tiers: map<string, int>, f: Filters)
    requires f.sources.None? || "all" in f.sources.value
    requires f.areas.None? || "all" in f.areas.value
    requires Blank(f.search)
    ensures FilterLayout(Some(LayoutOf(upgrades, tiers)), f) == Some(LayoutOf(upgrades, tiers))
  {
    var l := LayoutOf(upgrades, tiers);
    KeepAll(l.nodes, f);
    LayoutEdges(upgrades, tiers);
    forall e | e in l.edges
      ensures e.from in PlacedIds(l.nodes) && e.to in PlacedIds(l.nodes)
    {
      PlacedIdsIn(l.nodes, e.from);
      PlacedIdsIn(l.nodes, e.to);
    }
    KeepEveryEdge(l.edges, PlacedIds(l.nodes));
  }

  /** Filtering twice with the same filters is filtering once. */
  lemma FilterIdempotent(layout: Option<Layout>, f: Filters)
    ensures FilterLayout(FilterLayout(layout, f), f) == FilterLayout(layout, f)
  {
    if layout.Some? {
      var r := FilterLayout(layout, f).value;
      KeepCardsSpec(layout.value.nodes, f);
      KeepAll(r.nodes, f);
      KeepEdgesSpec(layout.value.edges, PlacedIds(r.nodes));
      KeepEveryEdge(r.edges, PlacedIds(r.nodes));
    }
  }
}
