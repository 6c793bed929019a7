/**
 * Prerequisite strings of the upgrade tree (`"pump_2;tank_3;homestead"`), the check of an
 * upgrade's prerequisites against the player's state, the dependency graph with its node
 * depths, the critical path to a target and the status shown for each upgrade.
 */
module Prerequisites {
  import opened Common
  import opened Upgrades

  // ---------------------------------------------------------------- parsing

  datatype Kind = UpgradeKind | FarmStageKind | ToolKind | BuildingKind

  /** The farm stages that a prerequisite token can name. */
  const FarmStageNames: seq<string> := ["homestead", "manor_grounds", "great_estate"]

  /** The bucket of a token: farm stage first, then `_tool`/`_weapon`, then
      `_built`/`_complete`, and otherwise another upgrade. */
  function KindOf(part: string): Kind
  {
    if part in FarmStageNames then FarmStageKind
    else if Contains(part, "_tool") || Contains(part, "_weapon") then ToolKind
    else if Contains(part, "_built") || Contains(part, "_complete") then BuildingKind
    else UpgradeKind
  }

  datatype Parsed = Parsed(upgrades: seq<string>, farmStages: seq<string>, tools: seq<string>, buildings: seq<string>)

  const NoPrerequisites := Parsed([], [], [], [])

  function Bucket(p: Parsed, k: Kind): seq<string>
  {
    match k
    case UpgradeKind => p.upgrades
    case FarmStageKind => p.farmStages
    case ToolKind => p.tools
    case BuildingKind => p.buildings
  }

  /** One `prerequisites.<bucket>.push(part)`. */
  function Push(p: Parsed, part: string): Parsed
  {
    match KindOf(part)
    case UpgradeKind => p.(upgrades := p.upgrades + [part])
    case FarmStageKind => p.(farmStages := p.farmStages + [part])
    case ToolKind => p.(tools := p.tools + [part])
    case BuildingKind => p.(buildings := p.buildings + [part])
  }

  /** `parts.forEach(part => …push(part))` */
  function Classify(parts: seq<string>, acc: Parsed): Parsed
  {
    if parts == [] then acc else Classify(parts[1..], Push(acc, parts[0]))
  }

  /** `parsePrerequisites(prerequisiteString)` */
  function ParsePrerequisites(s: string): (r: Parsed)
    ensures Blank(s) ==> r == NoPrerequisites
  {
    TrimSpec(s);
    if s == [] || Trim(s) == [] then NoPrerequisites else Classify(Tokens(s, ';'), NoPrerequisites)
  }

  /** The tokens of `parts` of kind `k`, in their order: a reference for the buckets. */
  function OfKind(parts: seq<string>, k: Kind): (r: seq<string>)
  {
    if parts == [] then []
    else (if KindOf(parts[0]) == k then [parts[0]] else []) + OfKind(parts[1..], k)
  }

  lemma {:induction false} ClassifyBuckets(parts: seq<string>, acc: Parsed, k: Kind)
    ensures Bucket(Classify(parts, acc), k) == Bucket(acc, k) + OfKind(parts, k)
  {
    if parts != [] {
      ClassifyBuckets(parts[1..], Push(acc, parts[0]), k);
    }
  }

  lemma {:induction false} OfKindPartition(parts: seq<string>)
    ensures multiset(OfKind(parts, UpgradeKind)) + multiset(OfKind(parts, FarmStageKind))
      + multiset(OfKind(parts, ToolKind)) + multiset(OfKind(parts, BuildingKind)) == multiset(parts)
  {
    if parts != [] {
      OfKindPartition(parts[1..]);
      assert parts == [parts[0]] + parts[1..];
    }
  }

  /** Every token of the string lands in the bucket of its kind, in input order, and in no other:
      the four buckets together hold exactly the tokens. */
  lemma ParseBuckets(s: string, k: Kind)
    ensures !Blank(s) ==> Bucket(ParsePrerequisites(s), k) == OfKind(Tokens(s, ';'), k)
    ensures var p := ParsePrerequisites(s);
      !Blank(s) ==>
        multiset(p.upgrades) + multiset(p.farmStages) + multiset(p.tools) + multiset(p.buildings)
        == multiset(Tokens(s, ';'))
  {
    TrimSpec(s);
    ClassifyBuckets(Tokens(s, ';'), NoPrerequisites, k);
    forall k' { ClassifyBuckets(Tokens(s, ';'), NoPrerequisites, k'); }
    OfKindPartition(Tokens(s, ';'));
  }

  /** The documented example: two upgrades and one farm stage. */
  lemma ParseExample(s: string)
    requires s == "pump_2;tank_3;homestead"
    ensures ParsePrerequisites(s) == Parsed(["pump_2", "tank_3"], ["homestead"], [], [])
  {
    ExampleTokens(s);
    assert !Blank(s) by { assert !IsSpace(s[0]); }
    TrimSpec(s);
    ExampleClassify(["pump_2", "tank_3", "homestead"]);
  }

  lemma ExampleTokens(s: string)
    requires s == "pump_2;tank_3;homestead"
    ensures Tokens(s, ';') == ["pump_2", "tank_3", "homestead"]
  {
    var parts := ["pump_2", "tank_3", "homestead"];
    assert Join(parts, [';']) == s;
    TokensOfJoin(parts, ';');
  }

  lemma ExampleClassify(parts: seq<string>)
    requires parts == ["pump_2", "tank_3", "homestead"]
    ensures Classify(parts, NoPrerequisites) == Parsed(["pump_2", "tank_3"], ["homestead"], [], [])
  {
    PlainUpgrade(parts[0]);
    PlainUpgrade(parts[1]);
    assert KindOf(parts[2]) == FarmStageKind;
    ClassifyThree(parts);
  }

  /** Two upgrade ids and a farm stage are sorted into their buckets, in order. */
  lemma ClassifyThree(parts: seq<string>)
    requires |parts| == 3
    requires KindOf(parts[0]) == UpgradeKind && KindOf(parts[1]) == UpgradeKind && KindOf(parts[2]) == FarmStageKind
    ensures Classify(parts, NoPrerequisites) == Parsed(parts[..2], [parts[2]], [], [])
  {
    var r := Classify(parts, NoPrerequisites);
    ClassifyBuckets(parts, NoPrerequisites, UpgradeKind);
    ClassifyBuckets(parts, NoPrerequisites, FarmStageKind);
    ClassifyBuckets(parts, NoPrerequisites, ToolKind);
    ClassifyBuckets(parts, NoPrerequisites, BuildingKind);
    ExampleKinds(parts);
    assert r.upgrades == parts[..2] && r.farmStages == [parts[2]];
    assert r.tools == [] && r.buildings == [];
  }

  lemma ExampleKinds(parts: seq<string>)
    requires |parts| == 3
    requires KindOf(parts[0]) == UpgradeKind && KindOf(parts[1]) == UpgradeKind && KindOf(parts[2]) == FarmStageKind
    ensures OfKind(parts, UpgradeKind) == parts[..2] && OfKind(parts, FarmStageKind) == [parts[2]]
    ensures OfKind(parts, ToolKind) == [] && OfKind(parts, BuildingKind) == []
  {
    var t1, t2 := parts[1..], parts[2..];
    assert t1[1..] == t2 && t2[1..] == [] && t2 == [parts[2]];
    forall k ensures OfKind(parts, k) == (if KindOf(parts[0]) == k then [parts[0]] else [])
      + (if KindOf(parts[1]) == k then [parts[1]] else []) + (if KindOf(parts[2]) == k then [parts[2]] else [])
    {
      assert OfKind(t2, k) == (if KindOf(parts[2]) == k then [parts[2]] else []) + OfKind([], k);
      assert OfKind(t1, k) == (if KindOf(parts[1]) == k then [parts[1]] else []) + OfKind(t2, k);
    }
    assert parts[..2] == [parts[0], parts[1]];
  }

  /** A token that is no farm stage and lacks the letters of the tool and building markers names
      an upgrade. */
  lemma PlainUpgrade(t: string)
    requires t !in FarmStageNames && 'o' !in t && 'w' !in t && 'b' !in t && 'c' !in t
    ensures KindOf(t) == UpgradeKind
  {
    MissingChar(t, "_tool", 'o');
    MissingChar(t, "_weapon", 'w');
    MissingChar(t, "_built", 'b');
    MissingChar(t, "_complete", 'c');
  }

  // ---------------------------------------------------------------- checking

  datatype Blocking = BlockUpgrade | BlockFarmStage | BlockTool | BlockBuilding

  datatype Status = Status(
    canPurchase: bool,
    missingUpgrades: seq<string>,
    missingFarmStages: seq<string>,
    missingTools: seq<string>,
    missingBuildings: seq<string>,
    nextRequirement: Option<string>,
    blockingType: Option<Blocking>)

  function Missing(st: Status, b: Blocking): seq<string>
  {
    match b
    case BlockUpgrade => st.missingUpgrades
    case BlockFarmStage => st.missingFarmStages
    case BlockTool => st.missingTools
    case BlockBuilding => st.missingBuildings
  }

  /** One unmet item: purchase blocked, item recorded, and the first one noted. */
  function Block(st: Status, b: Blocking, item: string): (r: Status)
  {
    var st' := match b
      case BlockUpgrade => st.(missingUpgrades := st.missingUpgrades + [item])
      case BlockFarmStage => st.(missingFarmStages := st.missingFarmStages + [item])
      case BlockTool => st.(missingTools := st.missingTools + [item])
      case BlockBuilding => st.(missingBuildings := st.missingBuildings + [item]);
    if st.nextRequirement.None? then st'.(canPurchase := false, nextRequirement := Some(item), blockingType := Some(b))
    else st'.(canPurchase := false)
  }

  /** `items.forEach(x => { if (!have.includes(x)) { … } })` */
  function Scan(items: seq<string>, have: seq<string>, b: Blocking, st: Status): Status
  {
    if items == [] then st
    else Scan(items[1..], have, b, if items[0] in have then st else Block(st, b, items[0]))
  }

  /** `checkPrerequisites(upgrade, gameState, allUpgrades)` */
  function CheckPrerequisites(u: Upgrade, gs: TreeState): Status
  {
    CheckParsed(ParsePrerequisites(u.prerequisite), gs)
  }

  /** The four `forEach` scans over already parsed prerequisites. */
  function CheckParsed(p: Parsed, gs: TreeState): Status
  {
    var st0 := Status(true, [], [], [], [], None, None);
    var st1 := Scan(p.upgrades, gs.ownedUpgrades, BlockUpgrade, st0);
    var st2 := Scan(p.farmStages, gs.farmStages, BlockFarmStage, st1);
    var st3 := Scan(p.tools, gs.ownedTools, BlockTool, st2);
    Scan(p.buildings, gs.buildings, BlockBuilding, st3)
  }

  /** The items not in `have`, in order: a reference for the missing lists. */
  function Unmet(items: seq<string>, have: seq<string>): (r: seq<string>)
    ensures forall x :: x in r <==> x in items && x !in have
  {
    if items == [] then [] else (if items[0] in have then [] else [items[0]]) + Unmet(items[1..], have)
  }

  /** The first requirement in a list of (item, kind), if any. */
  function FirstOf(s: seq<string>, b: Blocking, rest: Option<(string, Blocking)>): Option<(string, Blocking)>
  {
    if s != [] then Some((s[0], b)) else rest
  }

  lemma BlockSpec(st: Status, b: Blocking, item: string)
    ensures var r := Block(st, b, item);
      && Missing(r, b) == Missing(st, b) + [item]
      && (forall b' :: b' != b ==> Missing(r, b') == Missing(st, b'))
      && !r.canPurchase
      && (st.nextRequirement.Some? ==> r.nextRequirement == st.nextRequirement && r.blockingType == st.blockingType)
      && (st.nextRequirement.None? ==> r.nextRequirement == Some(item) && r.blockingType == Some(b))
  {
  }

  lemma {:induction false} ScanMissing(items: seq<string>, have: seq<string>, b: Blocking, st: Status)
    ensures Missing(Scan(items, have, b, st), b) == Missing(st, b) + Unmet(items, have)
    ensures forall b' :: b' != b ==> Missing(Scan(items, have, b, st), b') == Missing(st, b')
  {
    if items != [] {
      if items[0] !in have { BlockSpec(st, b, items[0]); }
      var st' := if items[0] in have then st else Block(st, b, items[0]);
      ScanMissing(items[1..], have, b, st');
    }
  }

  lemma {:induction false} ScanCanPurchase(items: seq<string>, have: seq<string>, b: Blocking, st: Status)
    ensures Scan(items, have, b, st).canPurchase == (st.canPurchase && Unmet(items, have) == [])
  {
    if items != [] {
      if items[0] !in have { BlockSpec(st, b, items[0]); }
      var st' := if items[0] in have then st else Block(st, b, items[0]);
      ScanCanPurchase(items[1..], have, b, st');
    }
  }

  lemma {:induction false} ScanNext(items: seq<string>, have: seq<string>, b: Blocking, st: Status)
    ensures var r := Scan(items, have, b, st);
      && (st.nextRequirement.Some? ==> r.nextRequirement == st.nextRequirement && r.blockingType == st.blockingType)
      && (st.nextRequirement.None? && Unmet(items, have) == [] ==>
            r.nextRequirement == st.nextRequirement && r.blockingType == st.blockingType)
      && (st.nextRequirement.None? && Unmet(items, have) != [] ==>
            r.nextRequirement == Some(Unmet(items, have)[0]) && r.blockingType == Some(b))
  {
    if items != [] {
      if items[0] !in have { BlockSpec(st, b, items[0]); }
      var st' := if items[0] in have then st else Block(st, b, items[0]);
      ScanNext(items[1..], have, b, st');
    }
  }

  /** The missing lists are exactly the unmet items of each kind; the upgrade can be bought
      exactly when all four are empty; and the next requirement is the first unmet item in the
      order upgrades, farm stages, tools, buildings, with its kind. */
  lemma CheckPrerequisitesSpec(u: Upgrade, gs: TreeState)
    ensures var p := ParsePrerequisites(u.prerequisite);
      var st := CheckPrerequisites(u, gs);
      var mu := Unmet(p.upgrades, gs.ownedUpgrades);
      var mf := Unmet(p.farmStages, gs.farmStages);
      var mt := Unmet(p.tools, gs.ownedTools);
      var mb := Unmet(p.buildings, gs.buildings);
      && st.missingUpgrades == mu && st.missingFarmStages == mf
      && st.missingTools == mt && st.missingBuildings == mb
      && (st.canPurchase <==> mu == [] && mf == [] && mt == [] && mb == [])
      && var first := FirstOf(mu, BlockUpgrade, FirstOf(mf, BlockFarmStage, FirstOf(mt, BlockTool, FirstOf(mb, BlockBuilding, None))));
      && (first.None? ==> st.nextRequirement.None? && st.blockingType.None?)
      && (first.Some? ==> st.nextRequirement == Some(first.value.0) && st.blockingType == Some(first.value.1))
  {
    var p := ParsePrerequisites(u.prerequisite);
    CheckParsedMissing(p, gs);
    CheckParsedNext(p, gs);
  }

  lemma CheckParsedMissing(p: Parsed, gs: TreeState)
    ensures var st := CheckParsed(p, gs);
      && st.missingUpgrades == Unmet(p.upgrades, gs.ownedUpgrades)
      && st.missingFarmStages == Unmet(p.farmStages, gs.farmStages)
      && st.missingTools == Unmet(p.tools, gs.ownedTools)
      && st.missingBuildings == Unmet(p.buildings, gs.buildings)
      && (st.canPurchase <==>
            st.missingUpgrades == [] && st.missingFarmStages == [] && st.missingTools == [] && st.missingBuildings == [])
  {
    var st0 := Status(true, [], [], [], [], None, None);
    var st1 := Scan(p.upgrades, gs.ownedUpgrades, BlockUpgrade, st0);
    var st2 := Scan(p.farmStages, gs.farmStages, BlockFarmStage, st1);
    var st3 := Scan(p.tools, gs.ownedTools, BlockTool, st2);
    ScanMissing(p.upgrades, gs.ownedUpgrades, BlockUpgrade, st0);
    ScanMissing(p.farmStages, gs.farmStages, BlockFarmStage, st1);
    ScanMissing(p.tools, gs.ownedTools, BlockTool, st2);
    ScanMissing(p.buildings, gs.buildings, BlockBuilding, st3);
    ScanCanPurchase(p.upgrades, gs.ownedUpgrades, BlockUpgrade, st0);
    ScanCanPurchase(p.farmStages, gs.farmStages, BlockFarmStage, st1);
    ScanCanPurchase(p.tools, gs.ownedTools, BlockTool, st2);
    ScanCanPurchase(p.buildings, gs.buildings, BlockBuilding, st3);
    assert Missing(st0, BlockUpgrade) == [] && Missing(st0, BlockFarmStage) == []
      && Missing(st0, BlockTool) == [] && Missing(st0, BlockBuilding) == [];
  }

  lemma CheckParsedNext(p: Parsed, gs: TreeState)
    ensures var st := CheckParsed(p, gs);
      var first := FirstOf(Unmet(p.upgrades, gs.ownedUpgrades), BlockUpgrade,
        FirstOf(Unmet(p.farmStages, gs.farmStages), BlockFarmStage,
        FirstOf(Unmet(p.tools, gs.ownedTools), BlockTool,
        FirstOf(Unmet(p.buildings, gs.buildings), BlockBuilding, None))));
      && (first.None? ==> st.nextRequirement.None? && st.blockingType.None?)
      && (first.Some? ==> st.nextRequirement == Some(first.value.0) && st.blockingType == Some(first.value.1))
  {
    var st0 := Status(true, [], [], [], [], None, None);
    var st1 := Scan(p.upgrades, gs.ownedUpgrades, BlockUpgrade, st0);
    var st2 := Scan(p.farmStages, gs.farmStages, BlockFarmStage, st1);
    var st3 := Scan(p.tools, gs.ownedTools, BlockTool, st2);
    ScanNext(p.upgrades, gs.ownedUpgrades, BlockUpgrade, st0);
    ScanNext(p.farmStages, gs.farmStages, BlockFarmStage, st1);
    ScanNext(p.tools, gs.ownedTools, BlockTool, st2);
    ScanNext(p.buildings, gs.buildings, BlockBuilding, st3);
  }

  /** `canPurchase` in terms of membership alone. */
  lemma CanPurchaseIff(u: Upgrade, gs: TreeState)
    ensures var p := ParsePrerequisites(u.prerequisite);
      CheckPrerequisites(u, gs).canPurchase <==>
        (forall x :: x in p.upgrades ==> x in gs.ownedUpgrades)
        && (forall x :: x in p.farmStages ==> x in gs.farmStages)
        && (forall x :: x in p.tools ==> x in gs.ownedTools)
        && (forall x :: x in p.buildings ==> x in gs.buildings)
  {
    CheckPrerequisitesSpec(u, gs);
    var p := ParsePrerequisites(u.prerequisite);
    NoUnmet(p.upgrades, gs.ownedUpgrades);
    NoUnmet(p.farmStages, gs.farmStages);
    NoUnmet(p.tools, gs.ownedTools);
    NoUnmet(p.buildings, gs.buildings);
  }

  lemma NoUnmet(items: seq<string>, have: seq<string>)
    ensures Unmet(items, have) == [] <==> forall x :: x in items ==> x in have
  {
    if Unmet(items, have) != [] { assert Unmet(items, have)[0] in Unmet(items, have); }
  }

  // ---------------------------------------------------------------- dependents

  /** The upgrades among `us` that list `id` as an upgrade prerequisite, in order. */
  function DependentsIn(us: seq<Upgrade>, id: string): (r: seq<Upgrade>)
    ensures |r| <= |us|
    ensures forall u :: u in r <==> u in us && id in ParsePrerequisites(u.prerequisite).upgrades
  {
    if us == [] then []
    else
      (if id in ParsePrerequisites(us[0].prerequisite).upgrades then [us[0]] else [])
      + DependentsIn(us[1..], id)
  }

  /** `getDependentUpgrades(upgradeId, allUpgrades)` */
  function GetDependentUpgrades(id: string, c: Catalogue): (r: seq<Upgrade>)
    requires WellFormed(c)
    ensures forall u :: u in r <==> u.id in c.byId && c.byId[u.id] == u && id in ParsePrerequisites(u.prerequisite).upgrades
  {
    var vs := Values(c);
    ValuesMembership(c);
    DependentsIn(vs, id)
  }

  // ---------------------------------------------------------------- graph

  /** A node depth. `Math.max()` of no arguments is -Infinity, and -Infinity + 1 stays -Infinity. */
  datatype Depth = NegInf | Fin(n: int)

  function Succ(d: Depth): Depth
  {
    match d
    case NegInf => NegInf
    case Fin(n) => Fin(n + 1)
  }

  /** The order on depths: -Infinity below every number. */
  predicate DepthLe(a: Depth, b: Depth)
  {
    a.NegInf? || (b.Fin? && a.n <= b.n)
  }

  function MaxDepth(a: Depth, b: Depth): (r: Depth)
    ensures r == a || r == b
    ensures DepthLe(a, r) && DepthLe(b, r)
  {
    match (a, b)
    case (NegInf, _) => b
    case (_, NegInf) => a
    case (Fin(x), Fin(y)) => if x >= y then a else b
  }

  datatype Node = Node(id: string, upgrade: Upgrade, prerequisites: Parsed, dependents: seq<string>, depth: Depth)

  datatype EdgeType = UpgradeEdge | FarmStageEdge | ToolEdge | BuildingEdge

  datatype Edge = Edge(from: string, to: string, kind: EdgeType)

  datatype Graph = Graph(nodes: map<string, Node>, edges: seq<Edge>)

  /** The upgrade prerequisites of `u` that are nodes of the graph. */
  function Known(ps: seq<string>, nodes: map<string, Node>): (r: seq<string>)
    ensures forall p :: p in r <==> p in ps && p in nodes
    ensures |r| <= |ps|
  {
    if ps == [] then [] else (if ps[0] in nodes then [ps[0]] else []) + Known(ps[1..], nodes)
  }

  /** `Math.max(...ps.map(p => depth(p) + 1))`, taken left to right. */
  function KnownMax(ps: seq<string>, nodes: map<string, Node>): Depth
    requires forall p :: p in ps ==> p in nodes
  {
    if ps == [] then NegInf else MaxDepth(KnownMax(ps[..|ps| - 1], nodes), Succ(nodes[ps[|ps| - 1]].depth))
  }

  /** `KnownMax` is -Infinity for no nodes, and otherwise one more than the largest of their
      depths: above every `1 + depth` and equal to one of them. */
  lemma {:induction false} KnownMaxIsMax(ps: seq<string>, nodes: map<string, Node>)
    requires forall p :: p in ps ==> p in nodes
    ensures forall p :: p in ps ==> DepthLe(Succ(nodes[p].depth), KnownMax(ps, nodes))
    ensures ps == [] ==> KnownMax(ps, nodes) == NegInf
    ensures ps != [] ==> exists p :: p in ps && KnownMax(ps, nodes) == Succ(nodes[p].depth)
  {
    if ps != [] {
      var q := ps[..|ps| - 1];
      KnownMaxIsMax(q, nodes);
      assert forall p :: p in ps ==> p in q || p == ps[|ps| - 1];
      assert ps[|ps| - 1] in ps;
      if q != [] {
        var w :| w in q && KnownMax(q, nodes) == Succ(nodes[w].depth);
        assert w in ps;
      }
    }
  }

  /** Node fields other than `dependents` and `depth` are as the upgrade determines. */
  ghost predicate NodeOf(c: Catalogue, nodes: map<string, Node>)
  {
    (forall k :: k in nodes <==> k in c.byId)
    && (forall k :: k in nodes ==>
          nodes[k].id == k && nodes[k].upgrade == c.byId[k]
          && nodes[k].prerequisites == ParsePrerequisites(c.byId[k].prerequisite))
  }

  /** Adds the edges into one node and records it as a dependent of each known upgrade
      prerequisite (the body of the second `forEach` in `buildDependencyGraph`). */
  method AddNodeEdges(n: Node, nodes: map<string, Node>, edges: seq<Edge>)
    returns (nodes': map<string, Node>, edges': seq<Edge>)
    ensures nodes'.Keys == nodes.Keys
    ensures forall k :: k in nodes ==> nodes'[k] == nodes[k].(dependents := nodes'[k].dependents)
    ensures forall k, m :: k in nodes ==>
      (m in nodes'[k].dependents <==> m in nodes[k].dependents || (m == n.id && k in n.prerequisites.upgrades))
    ensures forall e :: e in edges' <==>
      || e in edges
      || (e.to == n.id && e.kind == UpgradeEdge && e.from in n.prerequisites.upgrades && e.from in nodes)
      || (e.to == n.id && e.kind == FarmStageEdge && e.from in n.prerequisites.farmStages)
      || (e.to == n.id && e.kind == ToolEdge && e.from in n.prerequisites.tools)
      || (e.to == n.id && e.kind == BuildingEdge && e.from in n.prerequisites.buildings)
  {
    nodes', edges' := nodes, edges;
    var ups := n.prerequisites.upgrades;
    var i := 0;
    while i < |ups|
      invariant 0 <= i <= |ups|
      invariant nodes'.Keys == nodes.Keys
      invariant forall k :: k in nodes ==> nodes'[k] == nodes[k].(dependents := nodes'[k].dependents)
      invariant forall k, m :: k in nodes ==>
        (m in nodes'[k].dependents <==> m in nodes[k].dependents || (m == n.id && k in ups[..i]))
      invariant forall e :: e in edges' <==>
        e in edges || (e.to == n.id && e.kind == UpgradeEdge && e.from in ups[..i] && e.from in nodes)
    {
      var p := ups[i];
      if p in nodes' {
        edges' := edges' + [Edge(p, n.id, UpgradeEdge)];
        nodes' := nodes'[p := nodes'[p].(dependents := nodes'[p].dependents + [n.id])];
      }
      assert ups[..i + 1] == ups[..i] + [p];
      i := i + 1;
    }
    assert ups[..i] == ups;
    edges' := AppendEdges(edges', n.prerequisites.farmStages, n.id, FarmStageEdge);
    edges' := AppendEdges(edges', n.prerequisites.tools, n.id, ToolEdge);
    edges' := AppendEdges(edges', n.prerequisites.buildings, n.id, BuildingEdge);
  }

  /** `items.forEach(x => edges.push({ from: x, to, type }))` */
  method AppendEdges(edges: seq<Edge>, items: seq<string>, to: string, kind: EdgeType) returns (edges': seq<Edge>)
    ensures edges' == edges + seq(|items|, i requires 0 <= i < |items| => Edge(items[i], to, kind))
    ensures forall e :: e in edges' <==> e in edges || (e.to == to && e.kind == kind && e.from in items)
  {
    edges' := edges;
    var i := 0;
    while i < |items|
      invariant 0 <= i <= |items|
      invariant edges' == edges + seq(i, j requires 0 <= j < i => Edge(items[j], to, kind))
    {
      edges' := edges' + [Edge(items[i], to, kind)];
      i := i + 1;
    }
    var added := seq(|items|, j requires 0 <= j < |items| => Edge(items[j], to, kind));
    forall e | e in edges' ensures e in edges || (e.to == to && e.kind == kind && e.from in items) {
      if e !in edges { var j :| 0 <= j < |added| && added[j] == e; }
    }
    forall e: Edge | e.to == to && e.kind == kind && e.from in items ensures e in edges' {
      var j :| 0 <= j < |items| && items[j] == e.from;
      assert edges'[|edges| + j] == e;
    }
  }

  /** The edges into the nodes of `done`, as `buildDependencyGraph` adds them. */
  ghost predicate EdgesOf(c: Catalogue, done: seq<string>, edges: seq<Edge>)
  {
    forall e :: e in edges <==> e.to in done && e.to in c.byId && (var q := ParsePrerequisites(c.byId[e.to].prerequisite);
      || (e.kind == UpgradeEdge && e.from in q.upgrades && e.from in c.byId)
      || (e.kind == FarmStageEdge && e.from in q.farmStages)
      || (e.kind == ToolEdge && e.from in q.tools)
      || (e.kind == BuildingEdge && e.from in q.buildings))
  }

  /** The dependents recorded for the nodes of `done`. */
  ghost predicate DependentsOf(c: Catalogue, done: seq<string>, nodes: map<string, Node>)
  {
    forall p, m :: p in nodes ==>
      (m in nodes[p].dependents <==> m in done && m in c.byId && p in ParsePrerequisites(c.byId[m].prerequisite).upgrades)
  }

  /** `buildDependencyGraph(allUpgrades)`: one node per upgrade; an upgrade edge p→n exactly
      when p is an upgrade prerequisite of n and a node, with n then among p's dependents;
      farm-stage, tool and building edges for every such prerequisite; depths as
      `CalculateNodeDepths` assigns them. */
  method BuildDependencyGraph(c: Catalogue) returns (g: Graph)
    requires WellFormed(c)
    ensures NodeOf(c, g.nodes)
    ensures DependentsOf(c, c.order, g.nodes)
    ensures EdgesOf(c, c.order, g.edges)
    ensures DepthsAssigned(g.nodes)
    ensures Acyclic(c) ==> forall k :: k in g.nodes ==> DepthEq(g.nodes, k)
  {
    var nodes := CreateNodes(c);
    var nodes', edges := AddAllEdges(c, nodes);
    ghost var rank: map<string, nat> := map[];
    if Acyclic(c) {
      rank :| CatalogueRanked(c, rank);
      CatalogueRankedNodes(c, nodes', rank);
    }
    var nodes'' := CalculateNodeDepths(c.order, nodes', rank);
    SameButDepthKeeps(c, c.order, nodes', nodes'');
    g := Graph(nodes'', edges);
  }

  lemma CatalogueRankedNodes(c: Catalogue, nodes: map<string, Node>, rank: map<string, nat>)
    requires NodeOf(c, nodes) && CatalogueRanked(c, rank)
    ensures RankedNodes(nodes, rank)
  {
  }

  /** The first `forEach`: a node per upgrade, with no dependents and depth 0. */
  method CreateNodes(c: Catalogue) returns (nodes: map<string, Node>)
    requires WellFormed(c)
    ensures NodeOf(c, nodes)
    ensures forall k :: k in nodes ==> nodes[k].dependents == [] && nodes[k].depth == Fin(0)
  {
    nodes := map[];
    var i := 0;
    while i < |c.order|
      invariant 0 <= i <= |c.order|
      invariant forall k :: k in nodes <==> k in c.order[..i]
      invariant forall k :: k in nodes ==>
        nodes[k] == Node(k, c.byId[k], ParsePrerequisites(c.byId[k].prerequisite), [], Fin(0))
    {
      var u := c.byId[c.order[i]];
      nodes := nodes[u.id := Node(u.id, u, ParsePrerequisites(u.prerequisite), [], Fin(0))];
      assert c.order[..i + 1] == c.order[..i] + [c.order[i]];
      i := i + 1;
    }
    assert c.order[..i] == c.order;
  }

  /** The second `forEach`: edges into each node and its place among the dependents. */
  method AddAllEdges(c: Catalogue, nodes: map<string, Node>) returns (nodes': map<string, Node>, edges: seq<Edge>)
    requires WellFormed(c)
    requires NodeOf(c, nodes)
    requires forall k :: k in nodes ==> nodes[k].dependents == []
    ensures NodeOf(c, nodes')
    ensures DependentsOf(c, c.order, nodes')
    ensures EdgesOf(c, c.order, edges)
  {
    nodes', edges := nodes, [];
    var i := 0;
    while i < |c.order|
      invariant Added(c, i, nodes', edges)
    {
      nodes', edges := AddEdgesStep(c, i, nodes', edges);
      i := i + 1;
    }
    assert c.order[..i] == c.order;
  }

  /** The second `forEach` has handled the first `i` upgrades. */
  ghost predicate Added(c: Catalogue, i: int, nodes: map<string, Node>, edges: seq<Edge>)
  {
    && 0 <= i <= |c.order|
    && NodeOf(c, nodes)
    && DependentsOf(c, c.order[..i], nodes)
    && EdgesOf(c, c.order[..i], edges)
  }

  /** One pass of the second `forEach`. */
  method AddEdgesStep(c: Catalogue, i: int, nodes: map<string, Node>, edges: seq<Edge>)
    returns (nodes': map<string, Node>, edges': seq<Edge>)
    requires WellFormed(c) && Added(c, i, nodes, edges) && i < |c.order|
    ensures Added(c, i + 1, nodes', edges')
  {
    var n := nodes[c.order[i]];
    assert c.order[..i + 1] == c.order[..i] + [c.order[i]];
    nodes', edges' := AddNodeEdges(n, nodes, edges);
    DependentsStep(c, c.order[..i], c.order[i], nodes, nodes', n);
    EdgesStep(c, c.order[..i], c.order[i], edges, edges', n, nodes);
    NodeOfKeep(c, nodes, nodes');
  }

  lemma DependentsStep(c: Catalogue, done: seq<string>, x: string, before: map<string, Node>,
                       after: map<string, Node>, n: Node)
    requires DependentsOf(c, done, before)
    requires x in c.byId && n.id == x && n.prerequisites == ParsePrerequisites(c.byId[x].prerequisite)
    requires after.Keys == before.Keys
    requires forall k, m :: k in before ==>
      (m in after[k].dependents <==> m in before[k].dependents || (m == n.id && k in n.prerequisites.upgrades))
    ensures DependentsOf(c, done + [x], after)
  {
  }

  lemma EdgesStep(c: Catalogue, done: seq<string>, x: string, before: seq<Edge>, after: seq<Edge>, n: Node,
                  nodes: map<string, Node>)
    requires EdgesOf(c, done, before)
    requires x in c.byId && n.id == x && n.prerequisites == ParsePrerequisites(c.byId[x].prerequisite)
    requires forall k :: k in nodes <==> k in c.byId
    requires forall e :: e in after <==>
      || e in before
      || (e.to == n.id && e.kind == UpgradeEdge && e.from in n.prerequisites.upgrades && e.from in nodes)
      || (e.to == n.id && e.kind == FarmStageEdge && e.from in n.prerequisites.farmStages)
      || (e.to == n.id && e.kind == ToolEdge && e.from in n.prerequisites.tools)
      || (e.to == n.id && e.kind == BuildingEdge && e.from in n.prerequisites.buildings)
    ensures EdgesOf(c, done + [x], after)
  {
  }

  lemma NodeOfKeep(c: Catalogue, a: map<string, Node>, b: map<string, Node>)
    requires NodeOf(c, a) && a.Keys == b.Keys
    requires forall k :: k in a ==> b[k] == a[k].(dependents := b[k].dependents)
    ensures NodeOf(c, b)
  {
  }

  /** Changing depths alone keeps the node records and the dependents. */
  lemma SameButDepthKeeps(c: Catalogue, done: seq<string>, a: map<string, Node>, b: map<string, Node>)
    requires SameButDepth(a, b) && NodeOf(c, a) && DependentsOf(c, done, a)
    ensures NodeOf(c, b) && DependentsOf(c, done, b)
  {
    forall k | k in b
      ensures b[k].id == k && b[k].upgrade == c.byId[k]
      ensures b[k].prerequisites == ParsePrerequisites(c.byId[k].prerequisite)
    {
      assert b[k] == a[k].(depth := b[k].depth);
    }
    forall p, m | p in b
      ensures m in b[p].dependents <==> m in done && m in c.byId && p in ParsePrerequisites(c.byId[m].prerequisite).upgrades
    {
      assert b[p].dependents == a[p].dependents;
      DependentsAt(c, done, a, p, m);
    }
  }

  lemma DependentsAt(c: Catalogue, done: seq<string>, a: map<string, Node>, p: string, m: string)
    requires DependentsOf(c, done, a) && p in a
    ensures m in a[p].dependents <==> m in done && m in c.byId && p in ParsePrerequisites(c.byId[m].prerequisite).upgrades
  {
  }

  // ---------------------------------------------------------------- depths

  /** Every node has depth 0 when it has no upgrade prerequisites and -Infinity when none of its
      upgrade prerequisites is a node. */
  ghost predicate DepthsAssigned(nodes: map<string, Node>)
  {
    forall k :: k in nodes ==> DepthOk(nodes, k)
  }

  /** Fields other than the depth are left alone. */
  ghost predicate SameButDepth(a: map<string, Node>, b: map<string, Node>)
  {
    a.Keys == b.Keys && forall k :: k in a ==> b[k] == a[k].(depth := b[k].depth)
  }

  /** The depth of node `k` agrees with its prerequisites in the two cases that do not depend on
      the order of the traversal. */
  ghost predicate DepthOk(nodes: map<string, Node>, k: string)
    requires k in nodes
  {
    var ps := nodes[k].prerequisites.upgrades;
    (ps == [] ==> nodes[k].depth == Fin(0))
    && (ps != [] && Known(ps, nodes) == [] ==> nodes[k].depth == NegInf)
  }

  lemma DepthOkStable(a: map<string, Node>, b: map<string, Node>, k: string)
    requires SameButDepth(a, b) && k in a && b[k].depth == a[k].depth && DepthOk(a, k)
    ensures DepthOk(b, k)
  {
    KnownSameKeys(a[k].prerequisites.upgrades, a, b);
  }

  lemma {:induction false} KnownSameKeys(ps: seq<string>, a: map<string, Node>, b: map<string, Node>)
    requires a.Keys == b.Keys
    ensures Known(ps, a) == Known(ps, b)
  {
    if ps != [] { KnownSameKeys(ps[1..], a, b); }
  }

  /** A node with upgrade prerequisites has one more than the largest depth of those that
      are nodes (`Math.max` of their depths plus one), and -Infinity when none is. */
  ghost predicate DepthEq(nodes: map<string, Node>, k: string)
    requires k in nodes
  {
    var ps := nodes[k].prerequisites.upgrades;
    ps != [] ==> nodes[k].depth == KnownMax(Known(ps, nodes), nodes)
  }

  /** Upgrade prerequisites among the nodes form no cycle: a rank strictly decreases along
      every such edge. */
  ghost predicate RankedNodes(nodes: map<string, Node>, rank: map<string, nat>)
  {
    forall n :: n in nodes ==>
      n in rank
      && forall p :: p in nodes[n].prerequisites.upgrades && p in nodes ==> p in rank && rank[p] < rank[n]
  }

  /** A node expanded to the end: its depth obeys `DepthEq` and its known prerequisites are
      all in `seen`. */
  ghost predicate Final(nodes: map<string, Node>, k: string, seen: set<string>)
    requires k in nodes
  {
    DepthEq(nodes, k) && forall p :: p in Known(nodes[k].prerequisites.upgrades, nodes) ==> p in seen
  }

  lemma RankedSame(a: map<string, Node>, b: map<string, Node>, rank: map<string, nat>)
    requires SameButDepth(a, b) && RankedNodes(a, rank)
    ensures RankedNodes(b, rank)
  {
    forall n | n in b ensures n in rank && forall p :: p in b[n].prerequisites.upgrades && p in b ==> p in rank && rank[p] < rank[n] {
      assert b[n].prerequisites == a[n].prerequisites;
    }
  }

  lemma {:induction false} KnownMaxSame(ps: seq<string>, a: map<string, Node>, b: map<string, Node>)
    requires forall p :: p in ps ==> p in a && p in b && b[p].depth == a[p].depth
    ensures KnownMax(ps, a) == KnownMax(ps, b)
  {
    if ps != [] { KnownMaxSame(ps[..|ps| - 1], a, b); }
  }

  /** A finished node stays finished while its depth and its prerequisites' depths stay. */
  lemma FinalStable(a: map<string, Node>, b: map<string, Node>, k: string, seen: set<string>, seen': set<string>)
    requires SameButDepth(a, b) && k in a && Final(a, k, seen) && seen <= seen'
    requires b[k].depth == a[k].depth
    requires forall p :: p in Known(a[k].prerequisites.upgrades, a) ==> b[p].depth == a[p].depth
    ensures Final(b, k, seen')
  {
    var ps := a[k].prerequisites.upgrades;
    assert b[k].prerequisites.upgrades == ps;
    KnownSameKeys(ps, a, b);
    KnownMaxSame(Known(ps, a), a, b);
  }

  /** `calculateDepth(nodeId)`: a node already visited answers its current depth (its initial
      depth while it is still being expanded), so cycles terminate; each node is expanded once,
      and only the nodes it expands change depth.  When the prerequisites are ranked, every
      node it expands is finished: its depth is one more than the largest depth of its known
      prerequisites. */
  method CalculateDepth(nodeId: string, nodes: map<string, Node>, visited: set<string>, ghost rank: map<string, nat>)
    returns (d: Depth, nodes': map<string, Node>, visited': set<string>)
    requires nodeId in nodes
    requires visited <= nodes.Keys
    ensures SameButDepth(nodes, nodes')
    ensures visited <= visited' <= nodes.Keys && nodeId in visited'
    ensures forall k :: k in visited ==> nodes'[k].depth == nodes[k].depth
    ensures forall k :: k in visited' - visited ==> DepthOk(nodes', k)
    ensures RankedNodes(nodes, rank) ==>
      forall k :: k in visited' - visited ==> rank[k] <= rank[nodeId] && Final(nodes', k, visited')
    ensures d == nodes'[nodeId].depth
    decreases nodes.Keys - visited, 0
  {
    if nodeId in visited {
      return nodes[nodeId].depth, nodes, visited;
    }
    var ps := nodes[nodeId].prerequisites.upgrades;
    var known := Known(ps, nodes);
    if |ps| == 0 {
      d, nodes', visited' := Fin(0), nodes, visited + {nodeId};
    } else {
      d, nodes', visited' := DepthOfKnown(nodeId, known, nodes, visited + {nodeId}, rank);
    }
    ghost var before := nodes';
    nodes' := nodes'[nodeId := nodes'[nodeId].(depth := d)];
    SetDepth(nodeId, d, known, nodes, before, nodes', visited, visited', rank);
  }

  /** The loop of `calculateDepth` over `known`, the upgrade prerequisites of `nodeId` that are
      nodes: each is visited in turn and `d` is `Math.max` of their depths plus one. */
  method DepthOfKnown(nodeId: string, known: seq<string>, nodes: map<string, Node>, visited: set<string>,
                      ghost rank: map<string, nat>)
    returns (d: Depth, nodes': map<string, Node>, visited': set<string>)
    requires nodeId in visited && visited <= nodes.Keys
    requires forall p :: p in known ==> p in nodes
    requires RankedNodes(nodes, rank) ==> nodeId in rank && forall p :: p in known ==> p in rank && rank[p] < rank[nodeId]
    ensures SameButDepth(nodes, nodes')
    ensures visited <= visited' <= nodes.Keys
    ensures forall k :: k in visited ==> nodes'[k].depth == nodes[k].depth
    ensures forall k :: k in visited' - visited ==> DepthOk(nodes', k)
    ensures forall p :: p in known ==> p in visited'
    ensures d == KnownMax(known, nodes')
    ensures RankedNodes(nodes, rank) ==>
      forall k :: k in visited' - visited ==> rank[k] < rank[nodeId] && Final(nodes', k, visited')
    decreases nodes.Keys - visited, 2
  {
    nodes', visited' := nodes, visited;
    d := NegInf;
    var i := 0;
    while i < |known|
      invariant 0 <= i <= |known|
      invariant Looping(nodeId, known, i, nodes, visited, rank, d, nodes', visited')
    {
      d, nodes', visited' := VisitPrerequisite(nodeId, known, i, nodes, visited, rank, d, nodes', visited');
      i := i + 1;
    }
    assert known[..i] == known;
  }

  /** The invariant of the loop of `DepthOfKnown` after `i` rounds. */
  ghost predicate Looping(nodeId: string, known: seq<string>, i: int, nodes: map<string, Node>, visited: set<string>,
                          rank: map<string, nat>, d: Depth, cur: map<string, Node>, seen: set<string>)
  {
    LoopBase(nodeId, known, i, nodes, visited, rank, d, cur, seen)
    && (RankedNodes(nodes, rank) ==> LoopRanked(nodeId, nodes, visited, rank, cur, seen))
  }

  ghost predicate LoopBase(nodeId: string, known: seq<string>, i: int, nodes: map<string, Node>, visited: set<string>,
                           rank: map<string, nat>, d: Depth, cur: map<string, Node>, seen: set<string>)
  {
    && 0 <= i <= |known| && (forall p :: p in known ==> p in nodes)
    && (RankedNodes(nodes, rank) ==> nodeId in rank && forall p :: p in known ==> p in rank && rank[p] < rank[nodeId])
    && SameButDepth(nodes, cur)
    && visited <= seen <= nodes.Keys
    && (forall k :: k in visited ==> cur[k].depth == nodes[k].depth)
    && (forall k :: k in seen - visited ==> DepthOk(cur, k))
    && (forall p :: p in known[..i] ==> p in seen)
    && d == KnownMax(known[..i], cur)
  }

  /** Under a ranking, every node the loop has expanded is finished and ranked below `nodeId`. */
  ghost predicate LoopRanked(nodeId: string, nodes: map<string, Node>, visited: set<string>,
                             rank: map<string, nat>, cur: map<string, Node>, seen: set<string>)
  {
    nodeId in rank
    && forall k :: k in seen - visited ==> k in rank && k in cur && rank[k] < rank[nodeId] && Final(cur, k, seen)
  }

  /** One round of the loop of `DepthOfKnown`: visits `known[i]` and takes its depth plus one
      into the maximum. */
  method VisitPrerequisite(nodeId: string, known: seq<string>, i: int, nodes: map<string, Node>, visited: set<string>,
                           ghost rank: map<string, nat>, d: Depth, cur: map<string, Node>, seen: set<string>)
    returns (d': Depth, cur': map<string, Node>, seen': set<string>)
    requires Looping(nodeId, known, i, nodes, visited, rank, d, cur, seen) && i < |known|
    ensures Looping(nodeId, known, i + 1, nodes, visited, rank, d', cur', seen')
    decreases cur.Keys - seen, 1
  {
    if RankedNodes(nodes, rank) { RankedSame(nodes, cur, rank); }
    var dp;
    dp, cur', seen' := CalculateDepth(known[i], cur, seen, rank);
    VisitStep(nodeId, known, i, nodes, visited, rank, d, cur, seen, dp, cur', seen');
    d' := MaxDepth(d, Succ(dp));
  }

  /** The loop invariant is kept by one call of `CalculateDepth` on `known[i]`. */
  lemma VisitStep(nodeId: string, known: seq<string>, i: int, nodes: map<string, Node>, visited: set<string>,
                  rank: map<string, nat>, d: Depth, cur: map<string, Node>, seen: set<string>,
                  dp: Depth, cur': map<string, Node>, seen': set<string>)
    requires Looping(nodeId, known, i, nodes, visited, rank, d, cur, seen) && i < |known|
    requires SameButDepth(cur, cur')
    requires seen <= seen' <= cur.Keys && known[i] in seen'
    requires forall k :: k in seen ==> cur'[k].depth == cur[k].depth
    requires forall k :: k in seen' - seen ==> DepthOk(cur', k)
    requires RankedNodes(cur, rank) ==>
      forall k :: k in seen' - seen ==> rank[k] <= rank[known[i]] && Final(cur', k, seen')
    requires dp == cur'[known[i]].depth
    ensures Looping(nodeId, known, i + 1, nodes, visited, rank, MaxDepth(d, Succ(dp)), cur', seen')
  {
    VisitBase(nodeId, known, i, nodes, visited, rank, d, cur, seen, dp, cur', seen');
    if RankedNodes(nodes, rank) {
      RankedSame(nodes, cur, rank);
      SameButDepthTrans(nodes, cur, cur');
      RankedStep(nodeId, known[i], nodes, cur, cur', visited, seen, seen', rank);
    }
  }

  lemma VisitBase(nodeId: string, known: seq<string>, i: int, nodes: map<string, Node>, visited: set<string>,
                  rank: map<string, nat>, d: Depth, cur: map<string, Node>, seen: set<string>,
                  dp: Depth, cur': map<string, Node>, seen': set<string>)
    requires LoopBase(nodeId, known, i, nodes, visited, rank, d, cur, seen) && i < |known|
    requires SameButDepth(cur, cur')
    requires seen <= seen' <= cur.Keys && known[i] in seen'
    requires forall k :: k in seen ==> cur'[k].depth == cur[k].depth
    requires forall k :: k in seen' - seen ==> DepthOk(cur', k)
    requires dp == cur'[known[i]].depth
    ensures LoopBase(nodeId, known, i + 1, nodes, visited, rank, MaxDepth(d, Succ(dp)), cur', seen')
  {
    SameButDepthTrans(nodes, cur, cur');
    DepthOkSetStable(cur, cur', seen - visited, seen);
    KnownStep(known, i, cur, cur', seen, seen', d, dp);
  }

  lemma SameButDepthTrans(a: map<string, Node>, b: map<string, Node>, c: map<string, Node>)
    requires SameButDepth(a, b) && SameButDepth(b, c)
    ensures SameButDepth(a, c)
  {
    forall k | k in a ensures c[k] == a[k].(depth := c[k].depth) {
      assert b[k] == a[k].(depth := b[k].depth);
    }
  }

  /** The nodes of `t` keep the two base rules while the depths of `seen` stay. */
  lemma DepthOkSetStable(a: map<string, Node>, b: map<string, Node>, t: set<string>, seen: set<string>)
    requires SameButDepth(a, b) && t <= seen <= a.Keys
    requires forall k :: k in seen ==> b[k].depth == a[k].depth
    requires forall k :: k in t ==> DepthOk(a, k)
    ensures forall k :: k in t ==> DepthOk(b, k)
  {
    forall k | k in t ensures DepthOk(b, k) {
      DepthOkStable(a, b, k);
    }
  }

  /** The nodes of `t`, finished within `seen`, stay finished while the depths of `seen` stay. */
  lemma FinalSetStable(a: map<string, Node>, b: map<string, Node>, t: set<string>, seen: set<string>, seen': set<string>)
    requires SameButDepth(a, b) && t <= seen <= seen' && seen <= a.Keys
    requires forall k :: k in seen ==> b[k].depth == a[k].depth
    requires forall k :: k in t ==> Final(a, k, seen)
    ensures forall k :: k in t ==> Final(b, k, seen')
  {
    forall k | k in t ensures Final(b, k, seen') {
      FinalStable(a, b, k, seen, seen');
    }
  }

  /** One round of the loop of `DepthOfKnown` under a ranking: the nodes finished before the
      round stay finished, and the round finishes only nodes ranked below `nodeId`. */
  lemma RankedStep(nodeId: string, p: string, nodes: map<string, Node>, before: map<string, Node>,
                   after: map<string, Node>, visited: set<string>, seen: set<string>, visited': set<string>,
                   rank: map<string, nat>)
    requires RankedNodes(nodes, rank) && nodeId in rank && p in rank && rank[p] < rank[nodeId]
    requires SameButDepth(nodes, before) && SameButDepth(before, after)
    requires visited <= seen <= visited' <= nodes.Keys
    requires forall k :: k in seen ==> after[k].depth == before[k].depth
    requires forall k :: k in seen - visited ==> rank[k] < rank[nodeId] && Final(before, k, seen)
    requires forall k :: k in visited' - seen ==> rank[k] <= rank[p] && Final(after, k, visited')
    ensures forall k :: k in visited' - visited ==> rank[k] < rank[nodeId] && Final(after, k, visited')
  {
    FinalSetStable(before, after, seen - visited, seen, visited');
  }

  /** One round of the loop of `DepthOfKnown`: `known[i]` is now visited and its depth plus one
      joins the maximum. */
  lemma KnownStep(known: seq<string>, i: int, before: map<string, Node>, after: map<string, Node>,
                  seen: set<string>, visited': set<string>, d: Depth, dp: Depth)
    requires 0 <= i < |known| && forall p :: p in known ==> p in before && p in after
    requires seen <= visited' && known[i] in visited'
    requires forall k :: k in seen ==> k in before && k in after && after[k].depth == before[k].depth
    requires forall p :: p in known[..i] ==> p in seen
    requires d == KnownMax(known[..i], before) && dp == after[known[i]].depth
    ensures forall p :: p in known[..i + 1] ==> p in visited'
    ensures MaxDepth(d, Succ(dp)) == KnownMax(known[..i + 1], after)
  {
    KnownMaxSame(known[..i], before, after);
    assert known[..i + 1] == known[..i] + [known[i]];
    assert known[..i + 1][..i] == known[..i];
  }

  /** The last step of `calculateDepth`: writing the depth of `nodeId` keeps every other node
      it expanded finished, and finishes `nodeId`. */
  lemma SetDepth(nodeId: string, d: Depth, known: seq<string>, nodes: map<string, Node>, before: map<string, Node>,
                 after: map<string, Node>, visited: set<string>, visited': set<string>, rank: map<string, nat>)
    requires nodeId in nodes && nodeId !in visited && visited + {nodeId} <= visited' <= nodes.Keys
    requires known == Known(nodes[nodeId].prerequisites.upgrades, nodes)
    requires SameButDepth(nodes, before) && after == before[nodeId := before[nodeId].(depth := d)]
    requires forall k :: k in visited + {nodeId} ==> before[k].depth == nodes[k].depth
    requires forall k :: k in visited' - visited - {nodeId} ==> DepthOk(before, k)
    requires nodes[nodeId].prerequisites.upgrades == [] ==> d == Fin(0)
    requires nodes[nodeId].prerequisites.upgrades != [] ==>
      (forall p :: p in known ==> p in visited') && d == KnownMax(known, before)
    requires RankedNodes(nodes, rank) ==>
      forall k :: k in visited' - visited - {nodeId} ==> rank[k] < rank[nodeId] && Final(before, k, visited')
    ensures SameButDepth(nodes, after)
    ensures forall k :: k in visited ==> after[k].depth == nodes[k].depth
    ensures forall k :: k in visited' - visited ==> DepthOk(after, k)
    ensures RankedNodes(nodes, rank) ==>
      forall k :: k in visited' - visited ==> rank[k] <= rank[nodeId] && Final(after, k, visited')
  {
    var ps := nodes[nodeId].prerequisites.upgrades;
    KnownSameKeys(ps, nodes, after);
    forall k | k in visited' - visited - {nodeId} ensures DepthOk(after, k) {
      DepthOkStable(before, after, k);
    }
    if RankedNodes(nodes, rank) {
      SetDepthOthers(nodeId, d, nodes, before, after, visited' - visited - {nodeId}, visited', rank);
      SetDepthSelf(nodeId, d, known, nodes, before, after, visited', rank);
    }
  }

  /** Under a ranking no node finished below `nodeId` has `nodeId` among its prerequisites. */
  lemma SetDepthOthers(nodeId: string, d: Depth, nodes: map<string, Node>, before: map<string, Node>,
                       after: map<string, Node>, t: set<string>, seen: set<string>, rank: map<string, nat>)
    requires RankedNodes(nodes, rank) && nodeId in nodes && nodeId !in t && t <= nodes.Keys
    requires SameButDepth(nodes, before) && after == before[nodeId := before[nodeId].(depth := d)]
    requires forall k :: k in t ==> rank[k] < rank[nodeId] && Final(before, k, seen)
    ensures forall k :: k in t ==> rank[k] <= rank[nodeId] && Final(after, k, seen)
  {
    forall k | k in t ensures Final(after, k, seen) {
      SetDepthOther(nodeId, d, nodes, before, after, k, seen, rank);
    }
  }

  lemma SetDepthOther(nodeId: string, d: Depth, nodes: map<string, Node>, before: map<string, Node>,
                      after: map<string, Node>, k: string, seen: set<string>, rank: map<string, nat>)
    requires RankedNodes(nodes, rank) && nodeId in nodes && k in nodes && k != nodeId && rank[k] < rank[nodeId]
    requires SameButDepth(nodes, before) && after == before[nodeId := before[nodeId].(depth := d)]
    requires Final(before, k, seen)
    ensures Final(after, k, seen)
  {
    var ps := before[k].prerequisites.upgrades;
    assert ps == nodes[k].prerequisites.upgrades;
    forall p | p in Known(ps, before) ensures after[p].depth == before[p].depth {
      assert rank[p] < rank[k];
    }
    FinalStable(before, after, k, seen, seen);
  }

  /** Writing `KnownMax` of its known prerequisites finishes `nodeId`. */
  lemma SetDepthSelf(nodeId: string, d: Depth, known: seq<string>, nodes: map<string, Node>, before: map<string, Node>,
                     after: map<string, Node>, seen: set<string>, rank: map<string, nat>)
    requires RankedNodes(nodes, rank) && nodeId in nodes
    requires known == Known(nodes[nodeId].prerequisites.upgrades, nodes)
    requires SameButDepth(nodes, before) && after == before[nodeId := before[nodeId].(depth := d)]
    requires nodes[nodeId].prerequisites.upgrades == [] ==> d == Fin(0)
    requires nodes[nodeId].prerequisites.upgrades != [] ==>
      (forall p :: p in known ==> p in seen) && d == KnownMax(known, before)
    ensures Final(after, nodeId, seen)
  {
    var ps := nodes[nodeId].prerequisites.upgrades;
    KnownSameKeys(ps, nodes, after);
    if ps != [] {
      KnownMaxSame(known, before, after);
    }
  }

  /** `calculateNodeDepths(nodes)`: every node is visited in key order; when the prerequisites
      are ranked, every depth is one more than the largest depth of the node's known
      prerequisites. */
  method CalculateNodeDepths(order: seq<string>, nodes: map<string, Node>, ghost rank: map<string, nat>)
    returns (nodes': map<string, Node>)
    requires forall k :: k in order <==> k in nodes
    ensures SameButDepth(nodes, nodes')
    ensures DepthsAssigned(nodes')
    ensures RankedNodes(nodes, rank) ==> forall k :: k in nodes' ==> DepthEq(nodes', k)
  {
    ghost var ranked := RankedNodes(nodes, rank);
    nodes' := nodes;
    var visited: set<string> := {};
    var i := 0;
    while i < |order|
      invariant 0 <= i <= |order|
      invariant SameButDepth(nodes, nodes')
      invariant visited <= nodes.Keys
      invariant forall k :: k in order[..i] ==> k in visited
      invariant forall k :: k in visited ==> DepthOk(nodes', k)
      invariant ranked ==> forall k :: k in visited ==> Final(nodes', k, visited)
    {
      if order[i] !in visited {
        ghost var (before, seen) := (nodes', visited);
        var d;
        if ranked { RankedSame(nodes, before, rank); }
        d, nodes', visited := CalculateDepth(order[i], nodes', visited, rank);
        DepthOkSetStable(before, nodes', seen, seen);
        if ranked {
          FinalSetStable(before, nodes', seen, seen, visited);
        }
      }
      assert order[..i + 1] == order[..i] + [order[i]];
      i := i + 1;
    }
    assert order[..i] == order;
  }

  // ---------------------------------------------------------------- critical path

  /** The path so far: unowned nodes, each once and each visited, and every unowned node
      prerequisite of a path element already visited. */
  ghost predicate PathInv(g: Graph, owned: seq<string>, visited: set<string>, path: seq<string>)
  {
    Distinct(path)
    && (forall x :: x in path ==> x !in owned && x in g.nodes && x in visited)
    && (forall x, p ::
          (x in path && p in g.nodes[x].prerequisites.upgrades && p !in owned && p in g.nodes) ==> p in visited)
  }

  /** Upgrade prerequisites among known nodes form no cycle: a rank strictly decreases along
      every such edge. */
  ghost predicate Ranked(g: Graph, rank: map<string, nat>)
  {
    forall n :: n in g.nodes ==>
      n in rank
      && forall p :: p in g.nodes[n].prerequisites.upgrades && p in g.nodes ==> p in rank && rank[p] < rank[n]
  }

  /** Every unowned known upgrade prerequisite of a path element comes before it. */
  ghost predicate Ordered(g: Graph, owned: seq<string>, path: seq<string>)
  {
    forall i, p ::
      (0 <= i < |path| && path[i] in g.nodes && p in g.nodes[path[i]].prerequisites.upgrades
       && p !in owned && p in g.nodes) ==> p in path[..i]
  }

  /** A visited known node is on the path or still being expanded. */
  ghost predicate Settled(g: Graph, visited: set<string>, path: seq<string>, stack: set<string>)
  {
    forall v :: v in visited && v in g.nodes ==> v in path || v in stack
  }

  /** The nodes being expanded all rank above `nodeId`. */
  ghost predicate Above(g: Graph, rank: map<string, nat>, nodeId: string, stack: set<string>)
  {
    forall s :: s in stack ==> s in g.nodes && (nodeId in g.nodes && nodeId in rank && s in rank ==> rank[nodeId] < rank[s])
  }

  /** `buildPath(nodeId)` of `findCriticalPath`: owned or visited ids are skipped, an unknown id
      is marked visited and dropped, and a node is appended after its unowned prerequisites.
      Every node first visited by the call is on the path when it returns. With no cycle among
      the upgrade prerequisites, `stack` holds the nodes whose expansion is under way and the
      path lists prerequisites first. */
  method BuildPath(nodeId: string, g: Graph, owned: seq<string>, visited: set<string>, path: seq<string>,
                   ghost stack: set<string>, ghost rank: map<string, nat>)
    returns (visited': set<string>, path': seq<string>)
    requires PathInv(g, owned, visited, path)
    requires Ranked(g, rank) ==>
      Settled(g, visited, path, stack) && Ordered(g, owned, path) && Above(g, rank, nodeId, stack)
    ensures PathInv(g, owned, visited', path')
    ensures visited <= visited'
    ensures path <= path'
    ensures nodeId !in owned ==> nodeId in visited'
    ensures nodeId !in owned && nodeId !in visited && nodeId in g.nodes ==> |path'| > 0 && path'[|path'| - 1] == nodeId
    ensures forall x :: x in path' && x !in path ==> x in visited' - visited
    ensures forall v :: v in visited' - visited && v in g.nodes ==> v in path'
    ensures Ranked(g, rank) ==> Settled(g, visited', path', stack) && Ordered(g, owned, path')
    decreases g.nodes.Keys - visited
  {
    if nodeId in visited || nodeId in owned {
      return visited, path;
    }
    visited' := visited + {nodeId};
    path' := path;
    if nodeId !in g.nodes {
      return;
    }
    var ps := g.nodes[nodeId].prerequisites.upgrades;
    var i := 0;
    while i < |ps|
      invariant 0 <= i <= |ps|
      invariant PathInv(g, owned, visited', path')
      invariant visited + {nodeId} <= visited'
      invariant path <= path'
      invariant forall x :: x in path' && x !in path ==> x in visited' - visited - {nodeId}
      invariant forall v :: v in visited' - visited - {nodeId} && v in g.nodes ==> v in path'
      invariant forall p :: p in ps[..i] && p !in owned ==> p in visited'
      invariant Ranked(g, rank) ==> Settled(g, visited', path', stack + {nodeId}) && Ordered(g, owned, path')
    {
      if ps[i] !in owned {
        ghost var deeper := stack + {nodeId};
        if Ranked(g, rank) {
          StackDescends(g, rank, nodeId, ps[i], stack);
        }
        var v, pa := BuildPath(ps[i], g, owned, visited', path', deeper, rank);
        visited', path' := v, pa;
      }
      assert ps[..i + 1] == ps[..i] + [ps[i]];
      i := i + 1;
    }
    assert ps[..i] == ps;
    if Ranked(g, rank) {
      AppendSettled(g, owned, visited', path', stack, rank, nodeId);
    }
    path' := path' + [nodeId];
  }

  /** A prerequisite of the node being expanded ranks below everything being expanded. */
  lemma StackDescends(g: Graph, rank: map<string, nat>, nodeId: string, p: string, stack: set<string>)
    requires Ranked(g, rank) && Above(g, rank, nodeId, stack)
    requires nodeId in g.nodes && p in g.nodes[nodeId].prerequisites.upgrades
    ensures Above(g, rank, p, stack + {nodeId})
  {
  }

  /** Appending a fully expanded node keeps the path ordered and every visited node settled. */
  lemma AppendSettled(g: Graph, owned: seq<string>, visited: set<string>, path: seq<string>,
                      stack: set<string>, rank: map<string, nat>, nodeId: string)
    requires Ranked(g, rank) && Above(g, rank, nodeId, stack) && nodeId in g.nodes
    requires Settled(g, visited, path, stack + {nodeId}) && Ordered(g, owned, path)
    requires forall p :: p in g.nodes[nodeId].prerequisites.upgrades && p !in owned ==> p in visited
    ensures Settled(g, visited, path + [nodeId], stack)
    ensures Ordered(g, owned, path + [nodeId])
  {
    var path' := path + [nodeId];
    forall i, p | 0 <= i < |path'| && path'[i] in g.nodes && p in g.nodes[path'[i]].prerequisites.upgrades
                  && p !in owned && p in g.nodes
      ensures p in path'[..i]
    {
      if i < |path| {
        assert path'[..i] == path[..i];
      } else {
        assert path'[..i] == path;
        assert p in visited;
      }
    }
  }

  /** `findCriticalPath(targetId, allUpgrades, gameState)`: the unowned upgrades to buy for the
      target, each once, the target last when it is unowned and known, and closed under unowned
      known upgrade prerequisites; with no prerequisite cycle, prerequisites come first. */
  method FindCriticalPath(targetId: string, c: Catalogue, gs: TreeState) returns (path: seq<string>)
    requires WellFormed(c)
    ensures Distinct(path)
    ensures forall x :: x in path ==> x !in gs.ownedUpgrades && x in c.byId
    ensures targetId !in gs.ownedUpgrades && targetId in c.byId ==> |path| > 0 && path[|path| - 1] == targetId
    ensures forall x, p ::
      (x in path && p in ParsePrerequisites(c.byId[x].prerequisite).upgrades && p !in gs.ownedUpgrades && p in c.byId)
      ==> p in path
    ensures Acyclic(c) ==> PrerequisitesFirst(c, gs.ownedUpgrades, path)
  {
    var g := BuildDependencyGraph(c);
    path := CriticalPathIn(targetId, g, gs.ownedUpgrades);
    if Acyclic(c) {
      ghost var rank :| CatalogueRanked(c, rank);
      assert Ranked(g, rank);
    }
  }

  /** Upgrade prerequisites within the catalogue form no cycle. */
  ghost predicate CatalogueRanked(c: Catalogue, rank: map<string, nat>)
  {
    forall n :: n in c.byId ==>
      n in rank
      && forall p :: p in ParsePrerequisites(c.byId[n].prerequisite).upgrades && p in c.byId ==> p in rank && rank[p] < rank[n]
  }

  ghost predicate Acyclic(c: Catalogue)
  {
    exists rank :: CatalogueRanked(c, rank)
  }

  /** Every unowned catalogue prerequisite of a path element comes before it. */
  ghost predicate PrerequisitesFirst(c: Catalogue, owned: seq<string>, path: seq<string>)
  {
    forall i, p ::
      (0 <= i < |path| && path[i] in c.byId && p in ParsePrerequisites(c.byId[path[i]].prerequisite).upgrades
       && p !in owned && p in c.byId) ==> p in path[..i]
  }

  /** The same traversal over an already built graph (used by the path finder). */
  method CriticalPathIn(targetId: string, g: Graph, owned: seq<string>) returns (path: seq<string>)
    ensures Distinct(path)
    ensures forall x :: x in path ==> x !in owned && x in g.nodes
    ensures targetId !in owned && targetId in g.nodes ==> |path| > 0 && path[|path| - 1] == targetId
    ensures forall x, p ::
      (x in path && p in g.nodes[x].prerequisites.upgrades && p !in owned && p in g.nodes) ==> p in path
    ensures forall rank :: Ranked(g, rank) ==> Ordered(g, owned, path)
  {
    var visited;
    ghost var rank: map<string, nat> := map[];
    if exists r :: Ranked(g, r) {
      rank :| Ranked(g, rank);
    }
    visited, path := BuildPath(targetId, g, owned, {}, [], {}, rank);
  }

  // ---------------------------------------------------------------- unlocks and status

  /** `ownedUpgrades: [...(gameState.ownedUpgrades || []), ...upgradeIds]` */
  function Owning(gs: TreeState, ids: seq<string>): TreeState
  {
    gs.(ownedUpgrades := gs.ownedUpgrades + ids)
  }

  function UnlockedIn(us: seq<Upgrade>, ids: seq<string>, gs: TreeState): (r: seq<Upgrade>)
    ensures forall u :: u in r <==>
      u in us && !CheckPrerequisites(u, gs).canPurchase && CheckPrerequisites(u, Owning(gs, ids)).canPurchase
  {
    if us == [] then []
    else
      (if !CheckPrerequisites(us[0], gs).canPurchase && CheckPrerequisites(us[0], Owning(gs, ids)).canPurchase
       then [us[0]] else [])
      + UnlockedIn(us[1..], ids, gs)
  }

  /** `getUnlockedUpgrades(upgradeIds, allUpgrades, gameState)`: the catalogue upgrades blocked
      now and purchasable once `ids` are owned too. */
  function GetUnlockedUpgrades(ids: seq<string>, c: Catalogue, gs: TreeState): (r: seq<Upgrade>)
    requires WellFormed(c)
    ensures forall u :: u in r <==>
      (u.id in c.byId && c.byId[u.id] == u
       && !CheckPrerequisites(u, gs).canPurchase && CheckPrerequisites(u, Owning(gs, ids)).canPurchase)
  {
    var vs := Values(c);
    ValuesMembership(c);
    UnlockedIn(vs, ids, gs)
  }

  /** An unlocked upgrade is one whose only unmet requirements were upgrades, each among `ids`. */
  lemma UnlockedMeansOnlyUpgradesMissing(ids: seq<string>, u: Upgrade, gs: TreeState)
    requires !CheckPrerequisites(u, gs).canPurchase && CheckPrerequisites(u, Owning(gs, ids)).canPurchase
    ensures var st := CheckPrerequisites(u, gs);
      st.missingFarmStages == [] && st.missingTools == [] && st.missingBuildings == []
      && st.missingUpgrades != [] && (forall x :: x in st.missingUpgrades ==> x in ids)
      && st.blockingType == Some(BlockUpgrade)
  {
    CheckPrerequisitesSpec(u, gs);
    CheckPrerequisitesSpec(u, Owning(gs, ids));
    var p := ParsePrerequisites(u.prerequisite);
    NoUnmet(p.upgrades, gs.ownedUpgrades + ids);
    var st := CheckPrerequisites(u, gs);
    forall x | x in st.missingUpgrades ensures x in ids {
      assert x in p.upgrades;
    }
  }

  datatype UpgradeStatus = Owned | Available | PrerequisiteMissing | FarmLocked | ToolLocked | BuildingLocked

  /** `getUpgradeStatus(upgrade, gameState, allUpgrades)` */
  function GetUpgradeStatus(u: Upgrade, gs: TreeState): (r: UpgradeStatus)
    ensures r == Owned <==> u.id in gs.ownedUpgrades
    ensures r == Available <==> u.id !in gs.ownedUpgrades && CheckPrerequisites(u, gs).canPurchase
  {
    if u.id in gs.ownedUpgrades then Owned
    else
      var st := CheckPrerequisites(u, gs);
      if !st.canPurchase then
        match st.blockingType
        case Some(BlockFarmStage) => FarmLocked
        case Some(BlockTool) => ToolLocked
        case Some(BlockBuilding) => BuildingLocked
        case _ => PrerequisiteMissing
      else Available
  }

  /** A locked status names the kind of the first unmet requirement, upgrades before farm stages,
      then tools, then buildings. */
  lemma StatusNamesFirstBlocker(u: Upgrade, gs: TreeState)
    requires u.id !in gs.ownedUpgrades
    ensures var st := CheckPrerequisites(u, gs);
      && (GetUpgradeStatus(u, gs) == PrerequisiteMissing <==> st.missingUpgrades != [])
      && (GetUpgradeStatus(u, gs) == FarmLocked <==> st.missingUpgrades == [] && st.missingFarmStages != [])
      && (GetUpgradeStatus(u, gs) == ToolLocked <==>
            st.missingUpgrades == [] && st.missingFarmStages == [] && st.missingTools != [])
      && (GetUpgradeStatus(u, gs) == BuildingLocked <==>
            st.missingUpgrades == [] && st.missingFarmStages == [] && st.missingTools == [] && st.missingBuildings != [])
  {
    CheckPrerequisitesSpec(u, gs);
  }
}
