/**
 * The node classification engine of the upgrade-tree editor: every CSV row becomes one node,
 * placed in a source (the swim lane: a game screen or a town vendor) and an area (the node
 * colour: the part of the game it affects), with its prerequisites and costs parsed.
 */
module NodeClassification {
  import opened Common
  import opened Calculator

  /** The columns of a CSV row that the engine reads, as text; an absent column reads as the
      empty string, which is falsy wherever the source tests a field. */
  datatype Row = Row(
    id: string,
    name: string,
    itemType: string,
    category: string,
    prerequisite: string,
    prerequisiteBlueprint: string,
    goldCost: string,
    gold_cost: string,
    cost: string,
    energyCost: string,
    energy_cost: string,
    build_energy: string,
    materials: string,
    boss_materials: string,
    bossMaterials: string,
    description: string,
    effect: string,
    vendor: string)

  /** `a || b || …` over text fields: the first one that is not empty, or "" when all are. */
  function FirstOf(fields: seq<string>): (r: string)
  {
    if fields == [] then "" else if fields[0] != "" then fields[0] else FirstOf(fields[1..])
  }

  /** The chain of two fields. */
  lemma FirstOfTwo(a: string, b: string)
    ensures FirstOf([a, b]) == if a != "" then a else b
  {
    assert [a, b][1..] == [b];
    assert [b][1..] == [];
    assert FirstOf([b]) == b;
  }

  /** The chain of three fields. */
  lemma FirstOfThree(a: string, b: string, c: string)
    ensures FirstOf([a, b, c]) == if a != "" then a else if b != "" then b else c
  {
    assert [a, b, c][1..] == [b, c];
    FirstOfTwo(b, c);
  }

  /** The lane names the layout engine knows (its `SOURCES` table). */
  const SourceIds: seq<string> := ["farm", "adventure", "forge", "mine", "tower", "blacksmith",
    "agronomist", "landSteward", "carpenter", "skillsTrainer", "vendor"]

  /** The area names the layout engine knows (its `AREAS` table). */
  const AreaIds: seq<string> := ["energy", "water", "forge", "hero", "housing", "tower",
    "storage", "materials", "deeds"]

  /** A lookup table's value is one of the table's values. */
  lemma GetFrom(table: Obj<string>, k: string, range: seq<string>)
    requires forall i :: 0 <= i < |table| ==> table[i].1 in range
    ensures Get(table, k).Some? ==> Get(table, k).value in range
  {
    if table != [] && table[0].0 != k {
      GetFrom(table[1..], k, range);
    }
  }

  // ---------------------------------------------------------------- sources

  /** The direct mapping of the town vendor files. */
  const TownMappings: Obj<string> := [("townBlacksmith", "blacksmith"), ("townAgronomist", "agronomist"),
    ("townLandSteward", "landSteward"), ("townCarpenter", "carpenter"),
    ("townSkillsTrainer", "skillsTrainer"), ("townMaterialTrader", "vendor")]

  /** The mapping of the other files to game screens and vendors. */
  const SourceMappings: Obj<string> := [("crops", "farm"), ("farmProjects", "farm"), ("farmStages", "farm"),
    ("adventures", "adventure"), ("xpProgression", "adventure"), ("forgeCrafting", "forge"),
    ("weapons", "forge"), ("mining", "mine"), ("towerLevels", "tower"),
    ("phaseTransitions", "landSteward"), ("vendors", "vendor"), ("bossMaterials", "vendor")]

  /** `classifySource(item, csvSource)`: the town table first, then the screen table, and
      'vendor' for any other file. The row itself is not consulted. */
  function ClassifySource(csvSource: string): string
  {
    match Get(TownMappings, csvSource)
    case Some(s) => s
    case None =>
      match Get(SourceMappings, csvSource)
      case Some(s) => s
      case None => "vendor"
  }

  /** Every file lands in a lane the layout engine knows; the town table wins over the screen
      table, and a file in neither goes to 'vendor'. */
  lemma ClassifySourceSpec(csvSource: string)
    ensures ClassifySource(csvSource) in SourceIds
    ensures Get(TownMappings, csvSource).Some? ==> ClassifySource(csvSource) == Get(TownMappings, csvSource).value
    ensures Get(TownMappings, csvSource).None? && Get(SourceMappings, csvSource).None? ==>
      ClassifySource(csvSource) == "vendor"
  {
    GetFrom(TownMappings, csvSource, SourceIds);
    GetFrom(SourceMappings, csvSource, SourceIds);
  }

  /** The expected lanes of the source-fix script. */
  lemma ClassifyScreenExamples()
    ensures ClassifySource("crops") == "farm"
    ensures ClassifySource("adventures") == "adventure"
  {
  }

  lemma ClassifyMiningExample()
    ensures ClassifySource("mining") == "mine"
  {
    var k := "mining";
    assert Get(TownMappings, k) == None by { GetSkip(TownMappings, k, 6); }
    assert Get(SourceMappings, k) == Some("mine") by { GetSkip(SourceMappings, k, 7); }
  }

  /** A lookup passes over the leading entries whose keys differ. */
  lemma GetSkip<V>(o: Obj<V>, k: string, n: nat)
    requires n <= |o| && forall i :: 0 <= i < n ==> o[i].0 != k
    ensures Get(o, k) == Get(o[n..], k)
  {
    if n > 0 {
      GetSkip(o[1..], k, n - 1);
      assert o[1..][n - 1..] == o[n..];
    }
  }

  lemma ClassifyTownExamples()
    ensures ClassifySource("townBlacksmith") == "blacksmith"
    ensures ClassifySource("townAgronomist") == "agronomist"
  {
  }

  // ---------------------------------------------------------------- areas

  const TypeMappings: Obj<string> := [("energy_storage", "energy"), ("water_system", "water"),
    ("tool", "forge"), ("weapon", "forge"), ("adventure", "hero"), ("crop", "energy"),
    ("building", "housing"), ("tower", "tower"), ("material", "materials"), ("deed", "deeds"),
    ("skill", "hero")]

  const CategoryMappings: Obj<string> := [("energy", "energy"), ("water", "water"), ("forge", "forge"),
    ("combat", "forge"), ("housing", "housing"), ("tower", "tower"), ("storage", "storage"),
    ("materials", "materials"), ("deeds", "deeds"), ("hero", "hero")]

  const FileMappings: Obj<string> := [("town_blacksmith", "forge"), ("town_agronomist", "energy"),
    ("town_land_steward", "deeds"), ("town_carpenter", "housing"), ("town_skills_trainer", "hero"),
    ("town_material_trader", "materials"), ("forge_crafting", "forge"), ("farm_projects", "energy"),
    ("farm_stages", "deeds"), ("adventures", "hero"), ("crops", "energy"), ("mining", "materials"),
    ("weapons", "forge"), ("tower_levels", "tower"), ("vendors", "materials"),
    ("boss_materials", "materials"), ("xp_progression", "hero"), ("phase_transitions", "deeds")]

  /** `if (item.type)` and the type is in its table. */
  predicate TypeHit(item: Row)
  {
    item.itemType != "" && Get(TypeMappings, item.itemType).Some?
  }

  /** `if (item.category)` and the category is in its table. */
  predicate CategoryHit(item: Row)
  {
    item.category != "" && Get(CategoryMappings, item.category).Some?
  }

  /** `classifyArea(item, csvSource)`: the row's type, then its category, then its file, and
      'materials' when none of them is in its table. */
  function ClassifyArea(item: Row, csvSource: string): string
  {
    if TypeHit(item) then Get(TypeMappings, item.itemType).value
    else if CategoryHit(item) then Get(CategoryMappings, item.category).value
    else if Get(FileMappings, csvSource).Some? then Get(FileMappings, csvSource).value
    else "materials"
  }

  /** Every row lands in an area the layout engine knows, its type deciding first, its
      category next and its file last. */
  lemma ClassifyAreaSpec(item: Row, csvSource: string)
    ensures ClassifyArea(item, csvSource) in AreaIds
    ensures TypeHit(item) ==> ClassifyArea(item, csvSource) == Get(TypeMappings, item.itemType).value
    ensures !TypeHit(item) && CategoryHit(item) ==> ClassifyArea(item, csvSource) == Get(CategoryMappings, item.category).value
    ensures !TypeHit(item) && !CategoryHit(item) ==>
      ClassifyArea(item, csvSource) == (if Get(FileMappings, csvSource).Some? then Get(FileMappings, csvSource).value else "materials")
  {
    TypeRange();
    CategoryRange();
    FileRange();
    GetFrom(TypeMappings, item.itemType, AreaIds);
    GetFrom(CategoryMappings, item.category, AreaIds);
    GetFrom(FileMappings, csvSource, AreaIds);
  }

  lemma TypeRange()
    ensures forall i :: 0 <= i < |TypeMappings| ==> TypeMappings[i].1 in AreaIds
  {
  }

  lemma CategoryRange()
    ensures forall i :: 0 <= i < |CategoryMappings| ==> CategoryMappings[i].1 in AreaIds
  {
  }

  lemma FileRange()
    ensures forall i :: 0 <= i < |FileMappings| ==> FileMappings[i].1 in AreaIds
  {
  }

  // ---------------------------------------------------------------- fields

  /** `parsePrerequisites(field)`: the `;`-separated ids, trimmed, blanks dropped. */
  function ParsePrerequisites(field: string): (r: seq<string>)
    ensures Blank(field) ==> r == []
  {
    TrimSpec(field);
    if field == "" || Trim(field) == "" then [] else Tokens(field, ';')
  }

  /** No entry is empty or padded, none holds a `;`, and an id list written with `;` is read
      back in its own order. */
  lemma ParsePrerequisitesSpec(field: string, ids: seq<string>)
    ensures forall i :: 0 <= i < |ParsePrerequisites(field)| ==>
      ParsePrerequisites(field)[i] != "" && Trim(ParsePrerequisites(field)[i]) == ParsePrerequisites(field)[i]
      && ';' !in ParsePrerequisites(field)[i]
    ensures |ids| >= 1 && (forall i :: 0 <= i < |ids| ==> PlainName(ids[i])) ==>
      ParsePrerequisites(Join(ids, ";")) == ids
  {
    TokensSpec(field, ';');
    TrimSpec(field);
    if |ids| >= 1 && forall i :: 0 <= i < |ids| ==> PlainName(ids[i]) {
      TokensOfJoin(ids, ';');
      var s := Join(ids, ";");
      JoinHead(ids, ";");
      assert !Blank(s) by { assert !IsSpace(s[0]); }
      TrimSpec(s);
    }
  }

  /** One `material:amount` pair: the key lower-cased, and `parseInt(amount) || 1`. */
  function MaterialPair(pair: string): Option<(string, int)>
  {
    var pieces := Split(pair, ':');
    var material := Trim(pieces[0]);
    var amount := if |pieces| >= 2 then Trim(pieces[1]) else "";
    if material == "" || amount == "" then None
    else Some((Lower(material), OrDefault(ParseInt(amount), 1)))
  }

  function PairsOf(parts: seq<string>): (r: seq<Option<(string, int)>>)
    ensures |r| == |parts|
  {
    if parts == [] then [] else [MaterialPair(parts[0])] + PairsOf(parts[1..])
  }

  lemma {:induction false} PairsOfAt(parts: seq<string>)
    ensures forall i :: 0 <= i < |parts| ==> PairsOf(parts)[i] == MaterialPair(parts[i])
  {
    if parts != [] {
      PairsOfAt(parts[1..]);
    }
  }

  /** `parseMaterials(field)` of the classification engine: every `;` piece (not filtered),
      a later key overwriting an earlier one. */
  function ParseMaterials(field: string): (r: Obj<int>)
    ensures Blank(field) ==> r == []
    ensures DistinctKeys(r)
  {
    TrimSpec(field);
    if field == "" || Trim(field) == "" then [] else PutEntries(PairsOf(Split(field, ';')), [])
  }

  /** Every pair that parses has a lower-case, non-empty key and a non-zero amount. */
  lemma MaterialPairSpec(pair: string)
    ensures MaterialPair(pair).Some? ==>
      var e := MaterialPair(pair).value;
      e.0 != "" && Lower(e.0) == e.0 && e.1 != 0
  {
    if MaterialPair(pair).Some? {
      var e := MaterialPair(pair).value;
      LowerIdempotent(Trim(Split(pair, ':')[0]));
    }
  }

  lemma LowerIdempotent(s: string)
    ensures Lower(Lower(s)) == Lower(s)
  {
  }

  /** Every stored key is a lower-cased, non-empty name with a non-zero amount. */
  lemma ParseMaterialsKeys(field: string)
    ensures forall i :: 0 <= i < |ParseMaterials(field)| ==>
      ParseMaterials(field)[i].0 != "" && Lower(ParseMaterials(field)[i].0) == ParseMaterials(field)[i].0
      && ParseMaterials(field)[i].1 != 0
  {
    TrimSpec(field);
    if !(field == "" || Trim(field) == "") {
      var parts := Split(field, ';');
      PairsOfAt(parts);
      forall i | 0 <= i < |parts| ensures GoodPair(PairsOf(parts)[i]) {
        MaterialPairSpec(parts[i]);
      }
      PutGood(PairsOf(parts), []);
    }
  }

  predicate GoodPair(e: Option<(string, int)>)
  {
    e.Some? ==> e.value.0 != "" && Lower(e.value.0) == e.value.0 && e.value.1 != 0
  }

  predicate GoodEntries(o: Obj<int>)
  {
    forall i :: 0 <= i < |o| ==> o[i].0 != "" && Lower(o[i].0) == o[i].0 && o[i].1 != 0
  }

  lemma {:induction false} PutGood(entries: seq<Option<(string, int)>>, acc: Obj<int>)
    requires DistinctKeys(acc) && GoodEntries(acc)
    requires forall i :: 0 <= i < |entries| ==> GoodPair(entries[i])
    ensures GoodEntries(PutEntries(entries, acc))
  {
    if entries != [] {
      match entries[0]
      case None =>
        PutGood(entries[1..], acc);
      case Some(e) =>
        PutKeepsDistinct(acc, e.0, e.1);
        PutKeepsGood(acc, e.0, e.1);
        PutGood(entries[1..], Put(acc, e.0, e.1));
    }
  }

  lemma {:induction false} PutKeepsGood(o: Obj<int>, k: string, v: int)
    requires GoodEntries(o) && k != "" && Lower(k) == k && v != 0
    ensures GoodEntries(Put(o, k, v))
  {
    if o != [] && o[0].0 != k {
      PutKeepsGood(o[1..], k, v);
      var r := Put(o, k, v);
      assert forall i :: 1 <= i < |r| ==> r[i] == Put(o[1..], k, v)[i - 1];
    }
  }

  /** An amount of 0 or a non-number counts as 1, and a written positive amount is kept. */
  lemma MaterialPairAmounts(name: string, n: nat)
    requires PlainName(name)
    ensures MaterialPair(name + ":" + NatToString(n)) == Some((Lower(name), if n == 0 then 1 else n))
    ensures MaterialPair(name + ":x") == Some((Lower(name), 1))
  {
    MaterialPairNumber(name, n);
    MaterialPairWord(name);
  }

  lemma MaterialPairNumber(name: string, n: nat)
    requires PlainName(name)
    ensures MaterialPair(name + ":" + NatToString(n)) == Some((Lower(name), if n == 0 then 1 else n))
  {
    var d := NatToString(n);
    assert Join([name, d], [':']) == name + ":" + d;
    assert forall k :: 0 <= k < |d| ==> d[k] != ':' by { assert forall k :: 0 <= k < |d| ==> IsDigit(d[k]); }
    SplitJoin([name, d], ':');
    TrimNoEdges(name);
    TrimNoEdges(d);
    ParseIntOfNatToString(n);
  }

  lemma MaterialPairWord(name: string)
    requires PlainName(name)
    ensures MaterialPair(name + ":x") == Some((Lower(name), 1))
  {
    var x := "x";
    assert Join([name, x], [':']) == name + ":x";
    SplitJoin([name, x], ':');
    TrimNoEdges(name);
    TrimNoEdges(x);
    assert DigitRun(x) == 0;
  }

  /** A lower-case name with a positive amount survives a write and a read. */
  lemma PairRoundTrip(e: (string, int))
    requires PlainName(e.0) && Lower(e.0) == e.0 && e.1 >= 1
    ensures MaterialPair(FormatEntry(e)) == Some(e)
  {
    MaterialPairAmounts(e.0, e.1);
  }

  /** Reading the canonical text of a list of distinct lower-case names with positive amounts
      gives the list back. */
  lemma ParseMaterialsFormatted(es: Obj<int>)
    requires forall i :: 0 <= i < |es| ==> PlainName(es[i].0) && Lower(es[i].0) == es[i].0 && es[i].1 >= 1
    requires DistinctKeys(es)
    ensures ParseMaterials(FormatMaterials(es)) == es
  {
    var parts := Pieces(es);
    var s := FormatMaterials(es);
    if es == [] {
      assert s == [];
    } else {
      PiecesPlain(es);
      forall i, k | 0 <= i < |parts| && 0 <= k < |parts[i]| ensures parts[i][k] != ';' {
      }
      SplitJoin(parts, ';');
      assert !Blank(s) by { JoinHead(parts, ";"); }
      TrimSpec(s);
      PairsOfAt(parts);
      forall i | 0 <= i < |es| ensures PairsOf(parts)[i] == Some(es[i]) {
        PairRoundTrip(es[i]);
      }
      assert PairsOf(parts) == Somes(es);
      PutSomes(es, []);
    }
  }

  /** The costs of a row. */
  function ExtractCosts(item: Row): (r: Costs)
    ensures DistinctKeys(r.materials) && DistinctKeys(r.bossMaterials)
  {
    var gold := FirstOf([item.goldCost, item.gold_cost, item.cost]);
    var energy := FirstOf([item.energyCost, item.energy_cost, item.build_energy]);
    Costs(OrDefault(ParseInt(gold), 0), OrDefault(ParseInt(energy), 0),
          ParseMaterials(item.materials),
          ParseMaterials(FirstOf([item.boss_materials, item.bossMaterials])))
  }

  /** Gold is read from the first of goldCost, gold_cost and cost that is present, and is 0
      when none is; a field holding a written number yields that number. */
  lemma GoldChain(item: Row, n: nat)
    ensures item.goldCost == NatToString(n) ==> ExtractCosts(item).gold == n
    ensures item.goldCost == "" && item.gold_cost == NatToString(n) ==> ExtractCosts(item).gold == n
    ensures item.goldCost == "" && item.gold_cost == "" && item.cost == NatToString(n) ==> ExtractCosts(item).gold == n
    ensures item.goldCost == "" && item.gold_cost == "" && item.cost == "" ==> ExtractCosts(item).gold == 0
  {
    ParseIntOfNatToString(n);
    FirstOfThree(item.goldCost, item.gold_cost, item.cost);
    assert ParseInt("") == None;
  }

  /** Energy likewise from energyCost, energy_cost and build_energy. */
  lemma EnergyChain(item: Row, n: nat)
    ensures item.energyCost == NatToString(n) ==> ExtractCosts(item).energy == n
    ensures item.energyCost == "" && item.energy_cost == NatToString(n) ==> ExtractCosts(item).energy == n
    ensures item.energyCost == "" && item.energy_cost == "" && item.build_energy == NatToString(n) ==>
      ExtractCosts(item).energy == n
    ensures item.energyCost == "" && item.energy_cost == "" && item.build_energy == "" ==> ExtractCosts(item).energy == 0
  {
    ParseIntOfNatToString(n);
    FirstOfThree(item.energyCost, item.energy_cost, item.build_energy);
    assert ParseInt("") == None;
  }

  // ---------------------------------------------------------------- nodes

  /** The unified node of the tree editor (the position it is created with is always the
      origin and is not kept). */
  datatype Node = Node(
    id: string,
    name: string,
    description: string,
    effect: string,
    source: string,
    area: string,
    category: string,
    vendor: string,
    costs: Costs,
    prerequisites: seq<string>,
    csvSource: string,
    rawData: Row,
    isAvailable: bool,
    isLocked: bool)

  function OrElse(s: string, d: string): string
  {
    if s != "" then s else d
  }

  /** `createNode(item, csvSource, index)` */
  function CreateNode(item: Row, csvSource: string, index: nat): Node
  {
    var source := ClassifySource(csvSource);
    var prerequisites := ParsePrerequisites(FirstOf([item.prerequisite, item.prerequisiteBlueprint]));
    Node(
      OrElse(item.id, csvSource + "_" + NatToString(index)),
      OrElse(item.name, "Unnamed Item"),
      FirstOf([item.description, item.effect]),
      item.effect,
      source,
      ClassifyArea(item, csvSource),
      OrElse(item.category, "general"),
      OrElse(item.vendor, source),
      ExtractCosts(item),
      prerequisites,
      csvSource,
      item,
      |prerequisites| == 0,
      |prerequisites| > 0)
  }

  /** A node is available exactly when it has no prerequisites and locked otherwise; it sits
      in a known lane and area, and its id, name and category are never empty, falling back to
      `<file>_<index>`, 'Unnamed Item' and 'general'; its vendor falls back to its lane. */
  lemma CreateNodeSpec(item: Row, csvSource: string, index: nat)
    ensures var r := CreateNode(item, csvSource, index);
      && (r.isAvailable <==> r.prerequisites == [])
      && (r.isLocked <==> !r.isAvailable)
      && r.source in SourceIds && r.area in AreaIds
      && r.id != "" && r.name != "" && r.category != ""
      && r.id == (if item.id != "" then item.id else csvSource + "_" + NatToString(index))
      && (item.name == "" ==> r.name == "Unnamed Item")
      && (item.category == "" ==> r.category == "general")
      && (item.vendor == "" ==> r.vendor == r.source)
      && r.description == (if item.description != "" then item.description else item.effect)
  {
    ClassifySourceSpec(csvSource);
    ClassifyAreaSpec(item, csvSource);
    FirstOfTwo(item.description, item.effect);
  }

  // ---------------------------------------------------------------- all files

  /** The files skipped by the tree editor. */
  const ExcludedSources: seq<string> := ["armor_base", "armor_effects", "armor_potential",
    "enemy_types_damage", "route_loot_table", "route_wave_composition", "tools",
    "material_refinement", "helpers", "gnome_roles", "helper_roles", "farm_cleanups"]

  /** The parsed content of one file: an array of rows (a row may be null), or anything
      else. */
  datatype CsvData = Rows(items: seq<Option<Row>>) | NotArray

  predicate Included(src: string, data: CsvData)
  {
    src !in ExcludedSources && data.Rows?
  }

  /** `item && item.id` */
  predicate HasId(item: Option<Row>)
  {
    item.Some? && item.value.id != ""
  }

  /** A row chosen for the tree, with its file and its position in the file. */
  datatype Pick = Pick(item: Row, csvSource: string, index: nat)

  /** The rows with an id of one file, from position `i` on. */
  function PicksFrom(items: seq<Option<Row>>, src: string, i: nat): (r: seq<Pick>)
    requires i <= |items|
    ensures |r| <= |items| - i
    decreases |items| - i
  {
    if i == |items| then []
    else (if HasId(items[i]) then [Pick(items[i].value, src, i)] else []) + PicksFrom(items, src, i + 1)
  }

  /** The rows with an id of the included files, file by file. */
  function Picks(all: Obj<CsvData>): (r: seq<Pick>)
    ensures |r| <= IncludedRows(all)
  {
    if all == [] then []
    else
      var (src, data) := all[0];
      (if Included(src, data) then PicksFrom(data.items, src, 0) else []) + Picks(all[1..])
  }

  /** How many rows the included files hold. */
  function IncludedRows(all: Obj<CsvData>): nat
  {
    if all == [] then 0
    else (if Included(all[0].0, all[0].1) then |all[0].1.items| else 0) + IncludedRows(all[1..])
  }

  /** `processAllNodes(allCsvData)`: one node per row with an id of an included file, at
      most one per included row. */
  function ProcessAllNodes(all: Obj<CsvData>): (r: seq<Node>)
    ensures |r| <= IncludedRows(all)
  {
    var ps := Picks(all);
    seq(|ps|, k requires 0 <= k < |ps| => CreateNode(ps[k].item, ps[k].csvSource, ps[k].index))
  }

  /** The pick is a row with an id of an included file. */
  ghost predicate FromRow(all: Obj<CsvData>, p: Pick)
  {
    exists j, i :: 0 <= j < |all| && Included(all[j].0, all[j].1) && 0 <= i < |all[j].1.items|
      && HasId(all[j].1.items[i]) && p == Pick(all[j].1.items[i].value, all[j].0, i)
  }

  lemma {:induction false} PicksFromSpec(items: seq<Option<Row>>, src: string, i: nat, p: Pick)
    requires i <= |items|
    ensures p in PicksFrom(items, src, i) <==>
      exists k :: i <= k < |items| && HasId(items[k]) && p == Pick(items[k].value, src, k)
    decreases |items| - i
  {
    if i < |items| {
      PicksFromSpec(items, src, i + 1, p);
    }
  }

  /** Exactly the rows with an id in the included files are picked. */
  lemma {:induction false} PicksSpec(all: Obj<CsvData>, p: Pick)
    ensures p in Picks(all) <==> FromRow(all, p)
  {
    if all != [] {
      PicksSpec(all[1..], p);
      var (src, data) := all[0];
      if Included(src, data) {
        PicksFromSpec(data.items, src, 0, p);
      }
      if FromRow(all[1..], p) {
        var j, i :| 0 <= j < |all[1..]| && Included(all[1..][j].0, all[1..][j].1) && 0 <= i < |all[1..][j].1.items|
          && HasId(all[1..][j].1.items[i]) && p == Pick(all[1..][j].1.items[i].value, all[1..][j].0, i);
        assert all[j + 1] == all[1..][j];
      }
      if FromRow(all, p) {
        var j, i :| 0 <= j < |all| && Included(all[j].0, all[j].1) && 0 <= i < |all[j].1.items|
          && HasId(all[j].1.items[i]) && p == Pick(all[j].1.items[i].value, all[j].0, i);
        if j > 0 { assert all[1..][j - 1] == all[j]; }
      }
    }
  }

  /** Exactly the rows with an id in the included files become nodes; each node is named by
      its row's id (so the `<file>_<index>` fallback of createNode is never taken here) and
      sits in a known lane and area. */
  lemma ProcessAllNodesSpec(all: Obj<CsvData>, p: Pick)
    ensures FromRow(all, p) ==> CreateNode(p.item, p.csvSource, p.index) in ProcessAllNodes(all)
    ensures forall n :: n in ProcessAllNodes(all) ==> exists q :: FromRow(all, q) && n == CreateNode(q.item, q.csvSource, q.index)
    ensures forall n :: n in ProcessAllNodes(all) ==> n.id != "" && n.source in SourceIds && n.area in AreaIds
  {
    var ps := Picks(all);
    var r := ProcessAllNodes(all);
    PicksSpec(all, p);
    if FromRow(all, p) {
      var k :| 0 <= k < |ps| && ps[k] == p;
      assert r[k] == CreateNode(p.item, p.csvSource, p.index);
    }
    forall n | n in r
      ensures exists q :: FromRow(all, q) && n == CreateNode(q.item, q.csvSource, q.index)
      ensures n.id != "" && n.source in SourceIds && n.area in AreaIds
    {
      var k :| 0 <= k < |r| && r[k] == n;
      var q := ps[k];
      PicksSpec(all, q);
      CreateNodeSpec(q.item, q.csvSource, q.index);
      assert q.item.id != "" by { var j, i :| 0 <= j < |all| && Included(all[j].0, all[j].1) && 0 <= i < |all[j].1.items|
          && HasId(all[j].1.items[i]) && q == Pick(all[j].1.items[i].value, all[j].0, i); }
    }
  }
}
