# TimeHeroSim core in Dafny

TimeHeroSim is a browser simulator for the farming and adventure game *Time Hero*. It plays a game forward
minute by minute, from a catalogue of game values (crops, adventures, mining depths, helpers, upgrades), and then
analyses the run. This project is a Dafny model of the simulator's deterministic core, with proofs about
that model:

- **The tick-driven game state.** `Simulation` models the Pinia store `stores/simulation.js`: its clock,
  energy ledger, farm plots, hero actions, helpers, upgrades, phases and event log. `Engine` models the
  standalone engine `utils/simulationEngine.js`, and `SimulatorWorker` models the web worker
  `workers/simulator.worker.js` with its message handlers and tick budget.
- **The upgrade graph.** `Prerequisites` models `utils/upgradePrerequisites.js`: it parses prerequisite
  strings, builds the dependency graph, computes depths and the critical path, and reports statuses. `Calculator`
  models `utils/upgradeCalculator.js`: material costs, affordability, time to afford and path costs.
  `Pathfinding` models `utils/pathfinding.js`, and `TreeLayout` models `utils/treeLayoutEngine.js`.
- **Configuration.** `NodeClassification` models `utils/nodeClassification.js`, `GameValues` models
  `stores/gameValues.js` (its validators, the item edits and the CSV export), and `Importers` models
  `utils/importers.js`.
- **Analysis and orchestration.** `MonteCarlo` models `utils/monteCarloManager.js`, `Results` models
  `stores/results.js`, and `ScenarioTests` models `utils/scenarioTestManager.js`.
- **Small state machines.** `UpgradeFilters` models `composables/useUpgradeFilters.js`, and `WorkerManager`
  models `utils/workerManager.js`.
- **Shared helpers.** `Common` holds the option type, JavaScript string helpers (trim, split, join,
  lower-case, includes), number printing and parsing, and ordered objects as sequences of pairs. `Sorting`
  holds the stable sorts the sources use.

Some things are taken as parameters:

- Every `Math.random()` draw is an input (a real in [0, 1) or a boolean).
- Clock readings (`Date.now()`, `new Date()`, `performance.now()`) are inputs.
- `Math.pow(depth, 1.2)`, `Math.log10`, `Math.sqrt` and `Math.sin` are functions supplied by the caller.

JavaScript numbers are modelled as follows:

- Counters are `int` or `nat`.
- Fractional amounts (energy, gold, materials) are `real`.
- `parseInt` and `parseFloat` are modelled on the digit strings they accept.
- An object whose key order matters is a sequence of key/value pairs, with JavaScript's assignment rule:
  an existing key keeps its place, and a new key goes last.

Where a source file changes state in place, the model is a class with the same fields:

- the simulation store;
- the engine's game state;
- the worker's module state;
- the Monte Carlo manager;
- the results store;
- the scenario test manager;
- the filter state;
- the worker manager;
- the game values store.

The methods of these classes state their whole new state. Lemmas about the specification functions they use
carry the properties.

## Model

| member | source | states |
|---|---|---|
| Prerequisites.ParsePrerequisites | time-hero-simulator/src/utils/upgradePrerequisites.js:19-22 | a missing or blank prerequisite string has no prerequisites of any kind |
| Prerequisites.ParseBuckets | time-hero-simulator/src/utils/upgradePrerequisites.js:24-45 | every `;`-separated, trimmed, non-empty token goes, in input order, to the bucket of its kind (farm stage by name, then `_tool`/`_weapon`, then `_built`/`_complete`, else upgrade) and to no other; together the buckets hold exactly the tokens |
| Prerequisites.ParseExample | time-hero-simulator/src/utils/upgradePrerequisites.js:14 | `"pump_2;tank_3;homestead"` gives upgrades `pump_2`, `tank_3` and farm stage `homestead` |
| Prerequisites.PlainUpgrade | time-hero-simulator/src/utils/upgradePrerequisites.js:34-42 | a token that is not a farm stage and lacks the letters of the tool and building markers is an upgrade |
| Prerequisites.CheckPrerequisitesSpec | time-hero-simulator/src/utils/upgradePrerequisites.js:56-117 | each missing list is exactly the unmet prerequisites of its kind, in order; `canPurchase` holds iff all four are empty; `nextRequirement`/`blockingType` name the first unmet one, upgrades before farm stages before tools before buildings, and are null when nothing is missing |
| Prerequisites.CanPurchaseIff | time-hero-simulator/src/utils/upgradePrerequisites.js:56-117 | `canPurchase` holds iff every parsed prerequisite is owned, reached or built |
| Prerequisites.GetDependentUpgrades | time-hero-simulator/src/utils/upgradePrerequisites.js:126-131 | an upgrade is returned iff it is in the catalogue and lists the id among its upgrade prerequisites |
| Prerequisites.BuildDependencyGraph | time-hero-simulator/src/utils/upgradePrerequisites.js:139-198 | one node per catalogue upgrade with its parsed prerequisites; an upgrade edge p→n iff p is an upgrade prerequisite of n and a node, and then n is among p's dependents; a farm-stage, tool or building edge for every such prerequisite; depths assigned, and on an acyclic catalogue every node with upgrade prerequisites has one more than the largest depth of those that are nodes (-Infinity when none is) |
| Prerequisites.CreateNodes | time-hero-simulator/src/utils/upgradePrerequisites.js:143-152 | a node per upgrade, with no dependents and depth 0 |
| Prerequisites.AddAllEdges | time-hero-simulator/src/utils/upgradePrerequisites.js:154-192 | after the second pass the edges and the dependents are exactly those of the catalogue |
| Prerequisites.CalculateDepth | time-hero-simulator/src/utils/upgradePrerequisites.js:208-225 | only depths change; visited nodes keep theirs; a newly visited node without upgrade prerequisites gets depth 0, and one whose upgrade prerequisites are all unknown gets `Math.max()` of nothing, -Infinity; when the prerequisites are ranked (no cycle), every node it expands has depth one more than the largest depth of its known prerequisites, and those are all visited |
| Prerequisites.DepthOfKnown | time-hero-simulator/src/utils/upgradePrerequisites.js:217-221 | the `filter`/`map` over the known prerequisites visits each of them, and the result is `Math.max` of their depths plus one as they stand afterwards; when the prerequisites are ranked, every node it expands is finished |
| Prerequisites.KnownMaxIsMax | time-hero-simulator/src/utils/upgradePrerequisites.js:217-221 | the `Math.max` of the depths plus one is -Infinity for no prerequisites, and otherwise is at least every prerequisite's depth plus one and equal to one of them |
| Prerequisites.CalculateNodeDepths | time-hero-simulator/src/utils/upgradePrerequisites.js:205-232 | every node is visited, only depths change, and every node's depth follows the two rules above; when the prerequisites are ranked (no cycle), every node with upgrade prerequisites has depth one more than the largest depth of those that are nodes |
| Prerequisites.BuildPath | time-hero-simulator/src/utils/upgradePrerequisites.js:247-268 | the path stays duplicate-free and unowned; a newly expanded node is appended after its prerequisites; every unowned known prerequisite of a path node is on the path |
| Prerequisites.FindCriticalPath | time-hero-simulator/src/utils/upgradePrerequisites.js:242-272 | the path is duplicate-free, holds only unowned catalogue upgrades, ends with the target when the target is unowned and known, is closed under unowned known upgrade prerequisites, and on an acyclic catalogue lists every prerequisite before its dependent |
| Prerequisites.GetUnlockedUpgrades | time-hero-simulator/src/utils/upgradePrerequisites.js:282-294 | an upgrade is returned iff it is in the catalogue, cannot be bought now, and can be bought once the given ids are owned as well |
| Prerequisites.UnlockedMeansOnlyUpgradesMissing | time-hero-simulator/src/utils/upgradePrerequisites.js:282-294 | an unlocked upgrade misses upgrades only, all among the given ids, and is blocked by an upgrade |
| Prerequisites.GetUpgradeStatus | time-hero-simulator/src/utils/upgradePrerequisites.js:304-325 | 'owned' iff owned; 'available' iff unowned and purchasable |
| Prerequisites.StatusNamesFirstBlocker | time-hero-simulator/src/utils/upgradePrerequisites.js:310-322 | an unowned, blocked upgrade is prerequisite_missing, farm_locked, tool_locked or building_locked according to the first non-empty missing list, upgrades first |
| Calculator.ParseMaterials | time-hero-simulator/src/utils/upgradeCalculator.js:19-35 | a blank string gives no materials, and the result never names a material twice |
| Calculator.ParseFormatted | time-hero-simulator/src/utils/upgradeCalculator.js:19-35 | parsing the canonical `name:amount;…` text of a list of distinct plain names with natural amounts gives the list back |
| Calculator.ParseMaterialsExamples | time-hero-simulator/src/utils/upgradeCalculator.js:11-14 | `"stone:5"`, `"wood:100;iron:5"` and `""` parse to the documented objects |
| Calculator.ParseMaterialsLast | time-hero-simulator/src/utils/upgradeCalculator.js:27-32 | when a material is named twice, the later amount wins |
| Calculator.ParseUpgradeCosts | time-hero-simulator/src/utils/upgradeCalculator.js:43-50 | the parsed material and boss material lists never name a material twice |
| Calculator.ParseUpgradeCostsDefaults | time-hero-simulator/src/utils/upgradeCalculator.js:45-46 | a gold or energy cost that is not a number reads as 0, and a written natural number reads as itself |
| Calculator.CanAffordSpec | time-hero-simulator/src/utils/upgradeCalculator.js:59-105 | `canAfford` holds iff every cost is covered; gold and energy are reported missing iff the cost exceeds the balance, by exactly the difference; each material's shortfall is `required - available` when positive; `totalShortfall` counts the gold shortfall only |
| Calculator.ShortfallsSpec | time-hero-simulator/src/utils/upgradeCalculator.js:80-103 | the shortfall object is created iff some material is short, and holds exactly the short ones |
| Calculator.AffordAfter | time-hero-simulator/src/utils/upgradeCalculator.js:115-192 | after waiting `t` hours only the gold and energy tests change |
| Calculator.TimeToAffordNow | time-hero-simulator/src/utils/upgradeCalculator.js:116-125 | `canAffordNow` iff affordable, and then the time is 0 with no bottleneck and the text 'Available now' |
| Calculator.TimeFromInfinite | time-hero-simulator/src/utils/upgradeCalculator.js:127-182 | the time is Infinity iff missing gold or energy has no income, or materials or boss materials are missing; the bottleneck is the first such in the order gold, energy, materials, boss materials |
| Calculator.TimeFromFinite | time-hero-simulator/src/utils/upgradeCalculator.js:127-191 | a finite wait is positive, is the longer of the gold and energy waits with gold winning a tie, and names that resource as the bottleneck |
| Calculator.TimeToAffordInfinite | time-hero-simulator/src/utils/upgradeCalculator.js:115-192 | an infinite time means that no wait makes the upgrade affordable |
| Calculator.TimeToAffordFinite | time-hero-simulator/src/utils/upgradeCalculator.js:115-192 | with non-negative income, a finite time is exactly enough: the upgrade is affordable after that many hours and not after any shorter wait |
| Calculator.FormatTimeCases | time-hero-simulator/src/utils/upgradeCalculator.js:200-224 | Infinity prints 'Never' and 0 prints 'Now'; whole hours below a day print as `Nh`, and whole days as `Nd` |
| Calculator.PathCostSpec | time-hero-simulator/src/utils/upgradeCalculator.js:289-316 | the total is the component-wise sum of the parsed costs of the path's catalogue upgrades; unknown ids are skipped |
| Calculator.PathCostConcat | time-hero-simulator/src/utils/upgradeCalculator.js:289-316 | the cost of two paths one after the other is the sum of their costs |
| Calculator.UpgradePriority | time-hero-simulator/src/utils/upgradeCalculator.js:387-415 | the priority is never negative, at least 100 for an upgrade affordable now, and at most 245 (the sum of the largest bonuses) unless the tier is negative, since the tier bonus has no upper clamp |
| Calculator.TierBonus | time-hero-simulator/src/utils/upgradeCalculator.js:410-412 | the tier bonus is exactly `max(0, 20 - 2·tier)` for a numeric tier: never negative, at most 20 for a tier of 0 or more, 0 from tier 10 on, and above 20 for a negative tier |
| Calculator.GetUpgradeRecommendations | time-hero-simulator/src/utils/upgradeCalculator.js:358-377 | at most ten recommendations; each is an unowned catalogue upgrade with a finite time to afford and its own computed record, and the list is ordered by non-increasing priority |
| Calculator.TopTenKeepsBest | time-hero-simulator/src/utils/upgradeCalculator.js:374-376 | the kept list is a prefix of the stable descending sort, all of it when it is short, and nothing left out ranks above anything kept |
| Pathfinding.FindCriticalPath | time-hero-simulator/src/utils/pathfinding.js:19-58 | the path is duplicate-free, unowned and known, ends with an unowned known target, is closed under unowned known prerequisites and lists prerequisites first on an acyclic catalogue; cost, time, bottlenecks, farm stages and the alternative are those of the path |
| Pathfinding.FindAlternativePaths | time-hero-simulator/src/utils/pathfinding.js:68-98 | no alternatives for an unknown target; otherwise one (the single combination) unless the limit is 0, each ending with the target after its unowned prerequisites, with its own cost and score, sorted by score |
| Pathfinding.VisitCombination | time-hero-simulator/src/utils/pathfinding.js:82-123 | the alternative path is duplicate-free and unowned, covers every unowned prerequisite in the combination, and is ordered prerequisites first on an acyclic graph |
| Pathfinding.PathScoreAppend | time-hero-simulator/src/utils/pathfinding.js:141-156 | one more upgrade with a non-negative gold cost lowers the score by at least 10 |
| Pathfinding.EstimatePathTime | time-hero-simulator/src/utils/pathfinding.js:161-179 | the loop computes the sum of the per-step waits, each computed from the resources left after paying the earlier known upgrades (clamped at 0) |
| Pathfinding.PathTimeSpec | time-hero-simulator/src/utils/pathfinding.js:161-179 | the total is Infinity iff some step is; a finite total bounds every step, and each step is non-negative |
| Pathfinding.FirstStep | time-hero-simulator/src/utils/pathfinding.js:168-169 | the first step's wait is the upgrade's time to afford from the starting resources |
| Pathfinding.SpendSpec | time-hero-simulator/src/utils/pathfinding.js:175-176 | simulated spending leaves non-negative gold and energy, touches nothing else, and subtracts the cost exactly when it was affordable |
| Pathfinding.BottlenecksSound | time-hero-simulator/src/utils/pathfinding.js:184-219 | every reported bottleneck names a known path upgrade, and is either a resource bottleneck of an upgrade whose time to afford is Infinity or an unreached farm stage it requires |
| Pathfinding.BottlenecksComplete | time-hero-simulator/src/utils/pathfinding.js:184-219 | every never-affordable known path upgrade and every unreached farm stage it requires is reported |
| Pathfinding.FindFarmStageRequirements | time-hero-simulator/src/utils/pathfinding.js:224-236 | the stages are strictly ascending, each once, and are exactly the farm-stage prerequisites of the path's known upgrades |
| Pathfinding.CategoryScore | time-hero-simulator/src/utils/pathfinding.js:296-307 | a category scores between 10 and 90 |
| Pathfinding.AffordabilityScore | time-hero-simulator/src/utils/pathfinding.js:284-293 | the affordability bonus is between 0 and 100 |
| Pathfinding.GoalBonus | time-hero-simulator/src/utils/pathfinding.js:309-318 | the goal bonus is between 0 and 60 |
| Pathfinding.UpgradeScore | time-hero-simulator/src/utils/pathfinding.js:281-325 | the score is at least 10, and at most 277 for a tier of 1 or more |
| Pathfinding.SoonerScoresHigher | time-hero-simulator/src/utils/pathfinding.js:284-293 | an upgrade affordable sooner never scores lower |
| Pathfinding.SoonerPriorityHigher | time-hero-simulator/src/utils/upgradeCalculator.js:390-397 | an upgrade affordable sooner never has a lower priority |
| Pathfinding.UpgradeImpact | time-hero-simulator/src/utils/pathfinding.js:330-343 | `unlocksCount` is the number of unlocks, and the unlocks are exactly the catalogue upgrades listing it as an upgrade prerequisite, with their names |
| Pathfinding.Purchasable | time-hero-simulator/src/utils/pathfinding.js:247-252 | exactly the unowned upgrades whose prerequisites are met, each with its computed record |
| Pathfinding.FindOptimalNextUpgrades | time-hero-simulator/src/utils/pathfinding.js:246-276 | at most ten recommendations, each an unowned purchasable catalogue upgrade with its own record, ordered by non-increasing score |
| Pathfinding.OptimalKeepsBest | time-hero-simulator/src/utils/pathfinding.js:272-275 | a purchasable upgrade left out scores no higher than any kept one, and with at most ten purchasable upgrades every one is kept |
| Pathfinding.TallySpec | time-hero-simulator/src/utils/pathfinding.js:411-426 | each vendor's tally counts its upgrades and splits them into owned, available and locked; a vendor appears iff it has an upgrade |
| Pathfinding.TreeCompletenessSpec | time-hero-simulator/src/utils/pathfinding.js:407-439 | per vendor: total, owned, available and locked counts with total = owned + available + locked, and both percentages in [0, 100] |
| Pathfinding.GetWithPercentages | time-hero-simulator/src/utils/pathfinding.js:429-436 | the percentages are added to every vendor and to nothing else |
| Pathfinding.EarliestMissing | time-hero-simulator/src/utils/pathfinding.js:460-466 | the first missing prerequisite that is known and purchasable, or none when there is no such one |
| Pathfinding.GapSpec | time-hero-simulator/src/utils/pathfinding.js:448-478 | an upgrade yields a gap iff it is unowned, misses an upgrade prerequisite and one of those is purchasable; the gap names the first such and has impact 10 × its dependents |
| Pathfinding.FindUpgradeGaps | time-hero-simulator/src/utils/pathfinding.js:448-478 | the gaps are exactly those of the catalogue's upgrades, sorted by non-increasing impact |
| TreeLayout.GetSourceConfigSpec | time-hero-simulator/src/utils/treeLayoutEngine.js:160-168 | a listed source gets its `SOURCES` entry; any other id gets a grey entry named by the id and described as an unknown source |
| TreeLayout.SourcesKeys | time-hero-simulator/src/utils/treeLayoutEngine.js:14-95 | the `SOURCES` table lists exactly the lanes the classification engine assigns |
| TreeLayout.ClassifiedLaneListed | time-hero-simulator/src/utils/nodeClassification.js:11-50 | every source lane that `classifySource` assigns has a `SOURCES` entry |
| TreeLayout.PhaseForTierSpec | time-hero-simulator/src/utils/treeLayoutEngine.js:225-231 | tier 0 is Tutorial, 1-2 Early, 3-4 Mid, 5-6 Late, 7 and above Endgame, and the phase never goes back as the tier grows |
| TreeLayout.CalculateTier | time-hero-simulator/src/utils/treeLayoutEngine.js:183-208 | an unknown id has tier 0; a memoised tier is returned as it is; a node already being visited returns 0 and stays unset; otherwise the node's tier is memoised; all tiers stay non-negative, and on an acyclic graph every memoised tier satisfies the tier equation |
| TreeLayout.MaxPrerequisiteTier | time-hero-simulator/src/utils/treeLayoutEngine.js:198-203 | the loop's `maxTier` is the largest memoised tier among the prerequisites, or 0 |
| TreeLayout.TierFromSpec | time-hero-simulator/src/utils/treeLayoutEngine.js:196-204 | the equation: 0 without prerequisites; otherwise one more than the largest prerequisite tier, an unknown one counting 0 |
| TreeLayout.CalculateAll | time-hero-simulator/src/utils/treeLayoutEngine.js:211 | every node gets a non-negative tier, which is 0 iff it has no prerequisites, and on an acyclic graph the tiers satisfy the equation |
| TreeLayout.GroupByTier | time-hero-simulator/src/utils/treeLayoutEngine.js:214-217 | every node is in the group of its tier, each group holds only nodes of that tier, and no node is listed twice |
| TreeLayout.CalculateNodeTiers | time-hero-simulator/src/utils/treeLayoutEngine.js:173-220 | the two results above for the nodes of `nodeMap`, where a later node with the same id replaces an earlier one |
| TreeLayout.TierGroupSpec | time-hero-simulator/src/utils/treeLayoutEngine.js:285-312 | a lane's tier group holds exactly the lane's nodes of that tier, sorted by name |
| TreeLayout.PlaceGroup | time-hero-simulator/src/utils/treeLayoutEngine.js:307-330 | the cards of one sorted group share the tier's column and are stacked from below the lane header, one card and one margin apart |
| TreeLayout.PlaceLane | time-hero-simulator/src/utils/treeLayoutEngine.js:307-330 | the cards of one lane are those of its tier groups, from tier 0 up |
| TreeLayout.PlaceLanes | time-hero-simulator/src/utils/treeLayoutEngine.js:281-333 | the swim-lane loop computes each lane's band and cards, with `currentY` advancing by each lane's height and the lane margin |
| TreeLayout.CalculateSourceTreeLayout | time-hero-simulator/src/utils/treeLayoutEngine.js:236-384 | the tiers are those of `calculateNodeTiers`, and the layout is the specification `LayoutOf` of the nodes and tiers |
| TreeLayout.MaxTierOfSpec | time-hero-simulator/src/utils/treeLayoutEngine.js:278 | `maxTier` bounds every node's tier and is one of them, or 0 when there are no nodes |
| TreeLayout.LayoutOfSpec | time-hero-simulator/src/utils/treeLayoutEngine.js:236-384 | the canvas width is `180 + (maxTier + 1)·220 + 100`; there is one tier marker per tier with its phase; every node gets a card in its tier's column, inside its lane's band and the canvas |
| TreeLayout.LaneOrdered | time-hero-simulator/src/utils/treeLayoutEngine.js:307-330 | within a lane the cards of a column are sorted by name and spaced one card and one margin apart |
| TreeLayout.SectionsStacked | time-hero-simulator/src/utils/treeLayoutEngine.js:277-332 | the lane bands start at the top margin and are stacked in lane order, a lane margin apart |
| TreeLayout.PlacementsInBands | time-hero-simulator/src/utils/treeLayoutEngine.js:294-330 | every card lies inside the band of its lane |
| TreeLayout.EdgesOfSpec | time-hero-simulator/src/utils/treeLayoutEngine.js:356-380 | an edge runs from a laid-out prerequisite into the card that needs it, with id `from-to`; every such pair has an edge |
| TreeLayout.LayoutEdges | time-hero-simulator/src/utils/treeLayoutEngine.js:356-380 | in the layout, every edge joins two laid-out cards |
| TreeLayout.FilterLayoutSpec | time-hero-simulator/src/utils/treeLayoutEngine.js:407-455 | a missing layout stays missing; otherwise the filtered layout keeps exactly the visible cards, exactly the edges whose ends are both kept, and the sections, size and markers |
| TreeLayout.FilterNothing | time-hero-simulator/src/utils/treeLayoutEngine.js:420-436 | filters whose lists are unset or contain 'all', with a blank search, change nothing |
| TreeLayout.FilterIdempotent | time-hero-simulator/src/utils/treeLayoutEngine.js:407-455 | filtering twice with the same filters is filtering once |
| NodeClassification.ClassifySourceSpec | time-hero-simulator/src/utils/nodeClassification.js:11-50 | every file lands in a lane the layout engine knows; the town table wins over the screen table, and an unlisted file goes to 'vendor' |
| NodeClassification.ClassifyScreenExamples | time-hero-simulator/test-source-fix.js:9-10 | crops go to the farm lane and adventures to the adventure lane |
| NodeClassification.ClassifyMiningExample | time-hero-simulator/test-source-fix.js:11 | mining goes to the mine lane |
| NodeClassification.ClassifyTownExamples | time-hero-simulator/test-source-fix.js:12-13 | the blacksmith and agronomist files go to their own vendor lanes |
| NodeClassification.ClassifyAreaSpec | time-hero-simulator/src/utils/nodeClassification.js:55-118 | every row lands in an area the layout engine knows; a listed type decides first, then a listed category, then the file, with 'materials' as the fallback |
| NodeClassification.ParsePrerequisitesSpec | time-hero-simulator/src/utils/nodeClassification.js:125-135 | no id is empty, padded or holds a `;`, and a `;`-joined list of plain ids reads back as itself |
| NodeClassification.ParseMaterials | time-hero-simulator/src/utils/nodeClassification.js:141-157 | a blank field gives no materials, and no material is named twice |
| NodeClassification.ParseMaterialsKeys | time-hero-simulator/src/utils/nodeClassification.js:148-153 | every stored name is non-empty and lower-case, with a non-zero amount |
| NodeClassification.MaterialPairAmounts | time-hero-simulator/src/utils/nodeClassification.js:150-152 | an amount of 0 or one that is not a number counts as 1, and a written positive amount is kept |
| NodeClassification.ParseMaterialsFormatted | time-hero-simulator/src/utils/nodeClassification.js:141-157 | the canonical text of distinct lower-case names with positive amounts reads back as the list |
| NodeClassification.GoldChain | time-hero-simulator/src/utils/nodeClassification.js:164-172 | gold comes from the first present of goldCost, gold_cost and cost, and is 0 when none is |
| NodeClassification.EnergyChain | time-hero-simulator/src/utils/nodeClassification.js:165-173 | energy comes from the first present of energyCost, energy_cost and build_energy, and is 0 when none is |
| NodeClassification.CreateNodeSpec | time-hero-simulator/src/utils/nodeClassification.js:182-208 | a node is available iff it has no prerequisites and locked otherwise; its lane and area are known; its id falls back to `file_index`, its name to 'Unnamed Item', its category to 'general', its vendor to its lane, and its description to the effect |
| NodeClassification.PicksSpec | time-hero-simulator/src/utils/nodeClassification.js:229-238 | exactly the rows with an id in the files that are not excluded are picked |
| NodeClassification.ProcessAllNodesSpec | time-hero-simulator/src/utils/nodeClassification.js:213-257 | every row with an id in an included file gives its node, every node comes from such a row, and each has an id, a known lane and a known area |
| NodeClassification.ProcessAllNodes | time-hero-simulator/src/utils/nodeClassification.js:213-257 | there are no more nodes than rows in the included files |
| GameValues.ValidateMaterialsFormat | time-hero-simulator/src/stores/gameValues.js:251-277 | a blank materials string is always well-formed |
| GameValues.CountEntry | time-hero-simulator/src/stores/gameValues.js:257-272 | `name:n` with a digit run `n` is accepted both as a materials entry and as an enemy entry |
| GameValues.RangeEntry | time-hero-simulator/src/stores/gameValues.js:264-269 | `name:a-b` with digit runs `a` and `b` is accepted as a materials entry |
| GameValues.RangeAccepted | time-hero-simulator/src/stores/gameValues.js:250-277 | "stone:8-12" is a well-formed materials string |
| GameValues.TrailingSeparatorRejected | time-hero-simulator/src/stores/gameValues.js:255-258 | "wood:5;" is rejected: its last entry does not split into two parts |
| GameValues.ValidateEnemyTypesFormat | time-hero-simulator/src/stores/gameValues.js:280-294 | a blank enemy-types string is always well-formed |
| GameValues.EnemyPair | time-hero-simulator/src/stores/gameValues.js:284-290 | two `name:n` entries joined by `;` make a well-formed enemy-types string |
| GameValues.EnemySharesAccepted | time-hero-simulator/src/stores/gameValues.js:279-294 | "beasts:60;slimes:40" is a well-formed enemy-types string |
| GameValues.ParseFormatted | time-hero-simulator/src/stores/gameValues.js:297-308 | reading back written materials with clean names and amounts gives each name its last amount, names in first-seen order |
| GameValues.ParsedTrimmed | time-hero-simulator/src/stores/gameValues.js:297-308 | every parsed name is non-empty and trimmed and every amount is trimmed: segments without a name or an amount are skipped |
| GameValues.Stamp | time-hero-simulator/src/stores/gameValues.js:192-244 | each failed check of a row becomes exactly one message naming that row, in check order |
| GameValues.NumericTextCompared | time-hero-simulator/src/stores/gameValues.js:202 | a string holding an integer takes part in `<` and `>` as that integer, as JavaScript's relational operators coerce it |
| GameValues.NegativeTextFlagged | time-hero-simulator/src/stores/gameValues.js:193 | a field holding the text of a negative integer is flagged as not positive |
| GameValues.NumericMaterialsThrow | time-hero-simulator/src/stores/gameValues.js:218-251 | a truthy number in a weapon's or tool's materials field makes the validation throw, since `trim` is called on it outside the validator's `try` |
| GameValues.RowProblemsIff | time-hero-simulator/src/stores/gameValues.js:192-244 | a row raises no message exactly when it is valid for its kind (numeric text compared by its numeric reading): crop energy and growth time positive, tier one of Early/Mid/Late/Endgame, seed level in 0..9; weapon damage positive, type one of the five kinds, level in 1..10, materials well-formed; tool tier and category from their lists, materials well-formed; adventure enemy types and common materials well-formed |
| GameValues.AllProblemsIff | time-hero-simulator/src/stores/gameValues.js:188-248 | the collected message list is empty exactly when every crop, weapon, tool and adventure row is valid |
| GameValues.TableProblemsNameRows | time-hero-simulator/src/stores/gameValues.js:192-244 | every message names a row of the table it came from |
| GameValues.HeadersSpec | time-hero-simulator/src/stores/gameValues.js:389-398 | the CSV header lists every key of every row exactly once, except `_csvIndex`, and nothing else |
| GameValues.SortRows | time-hero-simulator/src/stores/gameValues.js:404-411 | the sorted rows are a permutation of the input rows |
| GameValues.SortRowsSpec | time-hero-simulator/src/stores/gameValues.js:404-411 | the sorted rows follow the CSV row order, and the rows with a `_csvIndex` come first, in index order |
| GameValues.AppendRows | time-hero-simulator/src/stores/gameValues.js:413-423 | the loop appends exactly one written line per row, in order, to the content |
| GameValues.BuildCsv | time-hero-simulator/src/stores/gameValues.js:385-423 | the builder yields the header line followed by one line per row in the CSV row order, and nothing for an empty category |
| GameValues.CellEncodes | time-hero-simulator/src/stores/gameValues.js:415-419 | a written cell encodes the text of its value: falsy values print as '', and a field with a comma, quote or newline is quoted with inner quotes doubled |
| GameValues.CsvRoundTrip | time-hero-simulator/src/stores/gameValues.js:389-423 | reading the CSV text back under section 2 of RFC 4180 gives the header and then each sorted row's field texts under each header |
| GameValues.Store.GetCrop | time-hero-simulator/src/stores/gameValues.js:311-313 | the crop is found exactly when the crop table has a row with that id, and is null otherwise; the crop returned is the row stored under that id (the first entry with it) |
| GameValues.Store.GetAdventure | time-hero-simulator/src/stores/gameValues.js:316-318 | the adventure is found exactly when the adventure table has a row with that id, and is null otherwise; the adventure returned is the row stored under that id (the first entry with it) |
| GameValues.Store.ValidateGameValues | time-hero-simulator/src/stores/gameValues.js:188-248 | throws exactly when some weapon or tool materials, adventure enemy types or common materials field is a truthy number, and then leaves the stored messages as they were; otherwise stores exactly the collected messages and returns true iff there are none; only the message list may change |
| GameValues.Store.UpdateItemValue | time-hero-simulator/src/stores/gameValues.js:327-336 | for an existing row: only the given key of that row changes, other rows and categories are untouched and the store is marked changed; an unknown category or row changes nothing |
| GameValues.Store.AddItem | time-hero-simulator/src/stores/gameValues.js:352-364 | for a known category the row is written under its id, other rows and categories are untouched and the store is marked changed; an unknown category changes nothing |
| GameValues.Store.DeleteItem | time-hero-simulator/src/stores/gameValues.js:366-378 | for an existing row only that row disappears, other rows and categories are untouched and the store is marked changed; otherwise nothing changes |
| GameValues.Store.ExportCategoryCsv | time-hero-simulator/src/stores/gameValues.js:489-537 | the export is the CSV text of the category's rows, and nothing for an unknown or empty category |
| Importers.UnderscoreSpec | time-hero-simulator/src/utils/importers.js:97 | replacing white-space runs by '_' leaves no white space, and changes nothing in a string without any |
| Importers.KeepSlugCharsSpec | time-hero-simulator/src/utils/importers.js:97 | removing the characters outside `a-z`, `0-9` and '_' leaves only those, and keeps a string made of them as it is |
| Importers.CropKeySpec | time-hero-simulator/src/utils/importers.js:97 | a crop key is made of slug characters only, and the key of a key is the key itself |
| Importers.IndexBySpec | time-hero-simulator/src/utils/importers.js:64-114 | filing rows under a key gives one entry per distinct key of the rows and no other, each holding the last row filed under it |
| Importers.ArrayToKeyedObjectSpec | time-hero-simulator/src/utils/importers.js:62-69 | the conversion throws exactly when a row has neither a truthy key nor a name that is text; otherwise each key (the key field, else the slugged name, else `item_<index>`) holds the last row with it, and there are no other keys |
| Importers.ValidateRequiredFields | time-hero-simulator/src/utils/importers.js:72-84 | every (row, field) pair whose value is null or undefined has its message in the result, and every message in the result is that of such a pair; the messages are those of `MissingFields`, one each and in its row-then-field order |
| Importers.MissingFieldsSpec | time-hero-simulator/src/utils/importers.js:72-84 | a (row, field) pair is reported exactly when that field is null or undefined in that row; no pair twice when the fields are distinct; pairs row by row and, within a row, in field-list order |
| Importers.ParseFloatOfNatToString | time-hero-simulator/src/utils/importers.js:102-107 | parseFloat reads back a natural number written in decimal |
| Importers.ApplySpec | time-hero-simulator/src/utils/importers.js:98-107 | each converted cell holds its conversion of the original row (with its default when the parse fails or gives 0), and every other cell is kept |
| Importers.ProcessCropSpec | time-hero-simulator/src/utils/importers.js:96-113 | a crop gets its key as `id`, its converted numeric cells, and stage multiplier 1.0 for three stages, 1.5 for four and 2.0 otherwise; its other cells are kept |
| Importers.ProcessCropsDataSpec | time-hero-simulator/src/utils/importers.js:87-117 | the crops table fails exactly when a required field is missing (and throws on a name that is not text), and otherwise keys each crop by its crop key, the last crop of a key winning |
| Importers.CropIndexSpec | time-hero-simulator/src/utils/importers.js:95-114 | the keyed crops have distinct keys, a key is present exactly when some row has it, and each key holds the processed last row of that key |
| Importers.CheckedSpec | time-hero-simulator/src/utils/importers.js:120-246 | the adventure, upgrade, mining, helper and combat tables throw exactly when a required field is missing, and otherwise file each row under its key, the last row of a key winning |
| Importers.CostOf | time-hero-simulator/src/utils/importers.js:152-161 | the cost object lists the eight costs in order, each the row's cell or 0 when it is falsy; the combat table builds the same object (importers.js:228-237) |
| Importers.UpgradeTotals | time-hero-simulator/src/utils/importers.js:142-175 | with numeric costs, an upgrade's material cost is the sum of the six material costs and its total cost is gold plus energy plus that sum |
| Importers.CostedTotals | time-hero-simulator/src/utils/importers.js:152-170 | the same sums for any eight cost fields in the order gold, energy, then six materials |
| Importers.MiningKeyedByDepth | time-hero-simulator/src/utils/importers.js:178-195 | a mining level is filed under the text of its depth |
| Importers.HelperGain | time-hero-simulator/src/utils/importers.js:198-215 | a helper's efficiency gain is its maximum less its base efficiency, and its other cells are kept |
| Importers.TransformSpec | time-hero-simulator/src/utils/importers.js:249-367 | each weapon, armor, tool, helper-role, tower-level, vendor, cleanup and boss-material row is filed under its key cell, the last one of a key winning, with its converted cells set and all others kept |
| Results.ResultsStore.constructor | time-hero-simulator/src/stores/results.js:12-19 | a new store has no reports, no current report and empty analyses |
| Results.AnalysePhaseSpec | time-hero-simulator/src/stores/results.js:145-170 | a phase's duration is read in hours for the tutorial target and in days otherwise; it is too fast exactly below the target's minimum and too slow exactly above its maximum, each with its positive percentage deviation, and normal with no deviation otherwise |
| Results.PhaseEntriesSpec | time-hero-simulator/src/stores/results.js:135-173 | exactly the phases with a target (tutorial 1-4 hours; early 1-5, mid 3-8, late 5-12, endgame 10-25 days) are analysed, each from its own duration |
| Results.AnalyseScreenSpec | time-hero-simulator/src/stores/results.js:188-210 | a screen's share is its time over the total times 100, or 0 with no time; it is under-utilised exactly below its minimum share, over-utilised exactly above its maximum, and balanced otherwise |
| Results.ScreenEntriesSpec | time-hero-simulator/src/stores/results.js:175-212 | exactly the screens with a threshold (home, adventure, mine, forge, tower, town) are analysed, each from its own time and the total |
| Results.SharesAddUp | time-hero-simulator/src/stores/results.js:54-62 | when there is any screen time, the shares of all screens add up to 100, as the report analysis computes them again (results.js:186-189) |
| Results.DistributionSpec | time-hero-simulator/src/stores/results.js:50-65 | every screen appears in the distribution with its own time and share, and no other key does |
| Results.PhaseBottleneckSpec | time-hero-simulator/src/stores/results.js:230-239 | a phase is a bottleneck exactly when it is too slow by more than 50 percent, and then of high severity exactly beyond 100 percent |
| Results.EnergyReported | time-hero-simulator/src/stores/results.js:217-227 | energy waste is reported exactly when more than a tenth of the generated energy is wasted, and then first and of high severity |
| Results.PhasesReported | time-hero-simulator/src/stores/results.js:229-240 | every phase too slow by more than 50 percent is reported, and every phase report comes from such a phase |
| Results.ScreensReported | time-hero-simulator/src/stores/results.js:242-253 | every over-utilised screen with more than half of the time is reported, and every screen report comes from such a screen |
| Results.RecommendationsSpec | time-hero-simulator/src/stores/results.js:256-284 | one recommendation per bottleneck comes first, in order, with the bottleneck's category, critical exactly for a high-severity one; then one per phase off its target |
| Results.PhaseRecommendationsSpec | time-hero-simulator/src/stores/results.js:270-283 | every phase off its target gets a phase-timing recommendation after the bottleneck ones, critical exactly when its deviation exceeds 100 percent, and every later recommendation comes from such a phase |
| Results.AvgPhaseTimeSpec | time-hero-simulator/src/stores/results.js:29-48 | a phase has an average exactly when some report has a duration for it, and the average is the mean of those durations |
| Results.FindReport | time-hero-simulator/src/stores/results.js:302-311 | the index found is that of the first report with the id, and none is found exactly when no report has it |
| Results.ResultsStore.AnalyzePhases | time-hero-simulator/src/stores/results.js:135-173 | the phase analysis becomes the old one updated with each phase that has a target; nothing else changes |
| Results.ResultsStore.AnalyzeScreenTime | time-hero-simulator/src/stores/results.js:175-212 | the screen analysis becomes the old one updated with each screen that has a threshold, against the total time; nothing else changes |
| Results.ResultsStore.DetectBottlenecks | time-hero-simulator/src/stores/results.js:214-254 | the bottleneck list is replaced by the bottlenecks of the report and the current analyses; nothing else changes |
| Results.ResultsStore.GenerateAnalysisRecommendations | time-hero-simulator/src/stores/results.js:256-284 | the recommendation list is replaced by those of the current bottlenecks and phase analysis; nothing else changes |
| Results.ResultsStore.AnalyzeReport | time-hero-simulator/src/stores/results.js:115-133 | the analyses are reset and rebuilt from the report: phases, screens, bottlenecks, then recommendations; the stored reports do not change |
| Results.ResultsStore.SaveSimulationReport | time-hero-simulator/src/stores/results.js:68-113 | the report is appended and made current, its id is returned, and the phase, screen-time, bottleneck and recommendation lists are exactly the report's analysis |
| Results.ResultsStore.LoadReport | time-hero-simulator/src/stores/results.js:301-308 | the first report with the id is returned and made current, and the phase, screen-time, bottleneck and recommendation lists are exactly its analysis; with none, nothing changes |
| Results.ResultsStore.DeleteReport | time-hero-simulator/src/stores/results.js:310-318 | the first report with the id is removed, and the current report is cleared when it has that id; with none, nothing changes; the analyses stay |
| Results.DeleteRemovesOne | time-hero-simulator/src/stores/results.js:311-313 | deleting leaves one report fewer: the others, in order and as a multiset |
| ScenarioTests.ScenarioTestManager.constructor | time-hero-simulator/src/utils/scenarioTestManager.js:5-13 | a new manager has no results, no current test and is not running |
| ScenarioTests.ValidateMetricSpec | time-hero-simulator/src/utils/scenarioTestManager.js:441-475 | `less_than` and `greater_than` are strict, `within_range` is inclusive and throws on a single number, `equals` allows a difference below 0.01, any other operator fails; a missing metric never passes; the check names the metric and carries the validation's severity |
| ScenarioTests.SeverityDefault | time-hero-simulator/src/utils/scenarioTestManager.js:470 | a validation without a severity is of severity `error`; a non-empty one is kept |
| ScenarioTests.ExpectationHeadSpec | time-hero-simulator/src/utils/scenarioTestManager.js:480-508 | a maximum number of days gives an error-severity check on the completion time, first; a minimum number of helpers a warning-severity check on the helper count, next |
| ScenarioTests.PhaseChecksSpec | time-hero-simulator/src/utils/scenarioTestManager.js:510-528 | every simulated phase with a timed maximum gets a warning-severity check that its duration is within it, and every phase check comes from such a phase |
| ScenarioTests.ExpectationCountSpec | time-hero-simulator/src/utils/scenarioTestManager.js:477-531 | the number of expectation checks is one per present bound plus one per timed phase |
| ScenarioTests.StatusMonotone | time-hero-simulator/src/utils/scenarioTestManager.js:338-348 | more checks never improve a test's status, and a test passes exactly when no failed check has severity `error` or `warning` |
| ScenarioTests.SingleTestSpec | time-hero-simulator/src/utils/scenarioTestManager.js:288-363 | a test result carries the test's id; its status is `error` when the run throws and otherwise the status of all its checks; every issue is a failed error check and every warning a failed check of another severity |
| ScenarioTests.RunSingleTest | time-hero-simulator/src/utils/scenarioTestManager.js:288-363 | the loop over the validations and then the expectation checks yields the result of the specification above |
| ScenarioTests.ThrewStays | time-hero-simulator/src/utils/scenarioTestManager.js:311-361 | once a validation throws, the later ones are not run |
| ScenarioTests.CountsBounded | time-hero-simulator/src/utils/scenarioTestManager.js:247-253 | together the passed, failed and warning counts never exceed the number of tests |
| ScenarioTests.LastTen | time-hero-simulator/src/utils/scenarioTestManager.js:264-267 | a suite keeps the last ten of its results, all of them when there are at most ten |
| ScenarioTests.SliceEnd | time-hero-simulator/src/utils/scenarioTestManager.js:544 | `slice(0, limit)` ends at the limit, at most the length, and a negative limit counts from the end |
| ScenarioTests.ScenarioTestManager.AddTestSuite | time-hero-simulator/src/utils/scenarioTestManager.js:198-206 | the suite is registered under the id, replacing one already there, with no run and no results yet; nothing else changes |
| ScenarioTests.ScenarioTestManager.RunTestSuite | time-hero-simulator/src/utils/scenarioTestManager.js:208-286 | an unknown suite or a run in progress is refused with nothing changed; otherwise each test is run in order, the summary counts the passed, failed and warning tests, the suite fails exactly when one test failed, the suite keeps its last ten results, the result is appended to the history and nothing is running afterwards |
| ScenarioTests.ScenarioTestManager.RunTests | time-hero-simulator/src/utils/scenarioTestManager.js:239-252 | the results are the tests' single results in test order, and the passed, failed and warning counts are the numbers of results with those statuses |
| ScenarioTests.ScenarioTestManager.GetRecentResults | time-hero-simulator/src/utils/scenarioTestManager.js:541-545 | the history is sorted latest first in place, and the first `limit` results are returned |
| ScenarioTests.RecentResultsSpec | time-hero-simulator/src/utils/scenarioTestManager.js:541-545 | the recent results are at most `limit` results of the history, latest first |
| MonteCarlo.MonteCarloManager.constructor | time-hero-simulator/src/utils/monteCarloManager.js:11-26 | a new manager has no workers, no results, no configuration and is not running |
| MonteCarlo.ConfigDefaults | time-hero-simulator/src/utils/monteCarloManager.js:31-86 | a truthy number of runs or workers is kept; otherwise there are 100 runs and at most 8 workers (4 without a hardware count, never more than a non-zero hardware count); 28 days and the default metrics when none are given |
| MonteCarlo.ScheduleShape | time-hero-simulator/src/utils/monteCarloManager.js:164-182 | every run is scheduled once, in index order, in a batch below the batch count and on a worker slot below the number of workers; the last run is in the last batch |
| MonteCarlo.FactorRange | time-hero-simulator/src/utils/monteCarloManager.js:297-343 | a draw in [0, 1) scales a value by a factor within the variance either way |
| MonteCarlo.VarySpec | time-hero-simulator/src/utils/monteCarloManager.js:293-309 | every varied value keeps its place and stays within the variance of itself |
| MonteCarlo.VariantGameValuesSpec | time-hero-simulator/src/utils/monteCarloManager.js:287-312 | growth times and gold rewards are present exactly when the base values have them, and stay within their variance of the base values |
| MonteCarlo.VariantProfileSpec | time-hero-simulator/src/utils/monteCarloManager.js:317-348 | every phase keeps its efficiency entry, clamped into [0.1, 1.0]; check-ins (3 and 5) and session lengths (15 and 30) stay within their variance |
| MonteCarlo.GroupBySpec | time-hero-simulator/src/utils/monteCarloManager.js:407-449 | grouping gives each key met exactly the values paired with it, in order, and no other key |
| MonteCarlo.PairsHas | time-hero-simulator/src/utils/monteCarloManager.js:410-446 | every value an event of a run yields is collected |
| MonteCarlo.SumPermutation | time-hero-simulator/src/utils/monteCarloManager.js:461-464 | a sum depends only on the multiset of its terms, so sorting in place keeps the mean |
| MonteCarlo.SortedExtremes | time-hero-simulator/src/utils/monteCarloManager.js:466-467 | the first and last of the sorted values are the least and greatest of the original values, and are among them |
| MonteCarlo.SortedMean | time-hero-simulator/src/utils/monteCarloManager.js:464-467 | the mean of the sorted values lies between the minimum and the maximum |
| MonteCarlo.DistSpec | time-hero-simulator/src/utils/monteCarloManager.js:454-514 | a distribution's minimum, percentiles, median and maximum come in order, bound every value, the extremes are values, the mean is the mean of the values and lies between the extremes, and the deviation is never negative |
| MonteCarlo.MapNonEmptyHas | time-hero-simulator/src/utils/monteCarloManager.js:457-502 | every non-empty list gets its statistic under its key |
| MonteCarlo.MapNonEmptyFrom | time-hero-simulator/src/utils/monteCarloManager.js:457-502 | every statistic comes from a non-empty list under the same key |
| MonteCarlo.IntervalSpec | time-hero-simulator/src/utils/monteCarloManager.js:484-505 | a confidence interval is centred on the mean with a margin that is never negative |
| MonteCarlo.SortedLists | time-hero-simulator/src/utils/monteCarloManager.js:461 | after the distributions the lists are left sorted in place |
| MonteCarlo.InsightsSpec | time-hero-simulator/src/utils/monteCarloManager.js:531-551 | a phase is flagged exactly when its transition days vary highly (coefficient of variation above 0.5) |
| MonteCarlo.AnalyzeResultsSpec | time-hero-simulator/src/utils/monteCarloManager.js:364-402 | there is an analysis exactly when there are results; it counts every run, at most that many completed, a success rate in [0, 1] and the average time per run (the summary of monteCarloManager.js:519-526) |
| MonteCarlo.HighVariancePhasesSpec | time-hero-simulator/src/utils/monteCarloManager.js:531-551 | the phases flagged are exactly those whose transition distribution varies highly |
| MonteCarlo.ResourceDistsSpec | time-hero-simulator/src/utils/monteCarloManager.js:388-391 | (corrected) every resource with readings gets the distribution of its readings across all runs |
| MonteCarlo.TransitionDistsSpec | time-hero-simulator/src/utils/monteCarloManager.js:382-386 | each phase some run entered gets the distribution of its transition days, their confidence interval (over the list already sorted) and the sorted list itself |
| MonteCarlo.AsWrittenThrows | time-hero-simulator/src/utils/monteCarloManager.js:389-461 | as written, the analysis throws exactly when some run recorded its resources |
| MonteCarlo.OneReadingThrows | time-hero-simulator/src/utils/monteCarloManager.js:389-461 | one run with one resource reading makes the analysis as written throw, while the corrected one reports the reading's distribution |
| MonteCarlo.MonteCarloManager.Configure | time-hero-simulator/src/utils/monteCarloManager.js:31-86 | the configuration becomes the defaults applied to the input; nothing else changes |
| MonteCarlo.MonteCarloManager.Stop | time-hero-simulator/src/utils/monteCarloManager.js:142-146 | the manager stops and holds no workers; nothing else changes |
| MonteCarlo.MonteCarloManager.InitializeWorkers | time-hero-simulator/src/utils/monteCarloManager.js:151-159 | `min(maxWorkers, runs)` more workers are started; nothing else changes |
| MonteCarlo.MonteCarloManager.Schedule | time-hero-simulator/src/utils/monteCarloManager.js:164-182 | run `i` goes to batch `i / workers` on worker `i % workers`, every run exactly once |
| MonteCarlo.MonteCarloManager.ScheduleBatch | time-hero-simulator/src/utils/monteCarloManager.js:168-179 | one batch adds the runs from its start up to the next batch or the last run, each on its slot |
| MonteCarlo.MonteCarloManager.CompleteRun | time-hero-simulator/src/utils/monteCarloManager.js:255-282 | the run is appended, marked completed with its end time, and one more run is counted; nothing else changes |
| MonteCarlo.MonteCarloManager.Start | time-hero-simulator/src/utils/monteCarloManager.js:98-137 | (corrected) a running manager or a missing configuration is refused with nothing changed; otherwise every run is done in order with its variant values and profile, all are counted, and the analysis of those results is returned with the manager no longer running |
| MonteCarlo.MonteCarloManager.RunScheduled | time-hero-simulator/src/utils/monteCarloManager.js:164-182 | every configured run is carried out and completed, and result `i` is run `i` finished with the game values and profile varied for index `i` |
| MonteCarlo.MonteCarloManager.GetProgress | time-hero-simulator/src/utils/monteCarloManager.js:572-580 | the percentage is the completed share of the runs times 100, or 0 with no runs; the counts are those of the manager |
| MonteCarlo.CalculateDistributions | time-hero-simulator/src/utils/monteCarloManager.js:454-479 | each list is sorted in place and the result is the distribution of every non-empty list |
| MonteCarlo.SortInPlace | time-hero-simulator/src/utils/monteCarloManager.js:461 | the array ends up holding its old values sorted ascending |
| MonteCarlo.Frac | time-hero-simulator/src/utils/monteCarloManager.js:353-359 | the seeded generator's draw, a number less its floor, lies in [0, 1) |
| UpgradeFilters.FilterState.constructor | time-hero-simulator/src/composables/useUpgradeFilters.js:15-35 | the filters start in their initial state |
| UpgradeFilters.DedupSpec | time-hero-simulator/src/composables/useUpgradeFilters.js:384-390 | `new Set(array)` holds each element once and nothing else, and keeps an array without repeats as it is |
| UpgradeFilters.Remove | time-hero-simulator/src/composables/useUpgradeFilters.js:213-253 | deleting an id leaves exactly the other members |
| UpgradeFilters.RemoveAbsent | time-hero-simulator/src/composables/useUpgradeFilters.js:213-253 | deleting an id that is not present changes nothing |
| UpgradeFilters.ToggleKeepsDiscipline | time-hero-simulator/src/composables/useUpgradeFilters.js:206-261 | a toggle keeps 'all' exclusive of the other ids; toggling 'all' gives exactly {'all'}, and toggling a new id into a set without 'all' appends it |
| UpgradeFilters.ToggleTwice | time-hero-simulator/src/composables/useUpgradeFilters.js:206-261 | toggling the same id twice gives back the same members, and the same order unless the id was present before and not last |
| UpgradeFilters.ApplyPresetSpec | time-hero-simulator/src/composables/useUpgradeFilters.js:188-201 | (corrected) an unknown name changes nothing; a known one resets the filters and then sets exactly the keys the preset lists, the reset being `resetFilters` (useUpgradeFilters.js:287-312) |
| UpgradeFilters.InheritedPresetThrows | time-hero-simulator/src/composables/useUpgradeFilters.js:188-201 | as written the name 'toString' finds an inherited member, resets the filters and throws; the corrected lookup leaves them alone |
| UpgradeFilters.ActiveAfterReset | time-hero-simulator/src/composables/useUpgradeFilters.js:356-363 | after a reset no filter is active, while the filters as first created count as active, because affordability starts as the string 'all' (the reset of useUpgradeFilters.js:287-312, the declarations of useUpgradeFilters.js:15-35) |
| UpgradeFilters.InactivePassesAll | time-hero-simulator/src/composables/useUpgradeFilters.js:120-183 | with no active filter every node passes, "active" being `hasActiveFilters` (useUpgradeFilters.js:356-363) |
| UpgradeFilters.DefaultsPassAll | time-hero-simulator/src/composables/useUpgradeFilters.js:120-183 | with the reset filters, or the filters as first created, every node passes (the reset of useUpgradeFilters.js:287-312, the declarations of useUpgradeFilters.js:15-35) |
| UpgradeFilters.SearchIgnoresCase | time-hero-simulator/src/composables/useUpgradeFilters.js:143-156 | a search term and its lower-case form admit the same nodes |
| UpgradeFilters.SearchFindsName | time-hero-simulator/src/composables/useUpgradeFilters.js:143-156 | a term found in the upgrade's name, ignoring case, matches it |
| UpgradeFilters.SetFiltersRestrict | time-hero-simulator/src/composables/useUpgradeFilters.js:123-140 | a vendor, category or status set without 'all' admits only upgrades with one of its members |
| UpgradeFilters.ExportImportRoundTrip | time-hero-simulator/src/composables/useUpgradeFilters.js:368-401 | importing an export restores the filters; an affordability still the string 'all' comes back as the object of its characters |
| UpgradeFilters.FilterState.ToggleVendor | time-hero-simulator/src/composables/useUpgradeFilters.js:206-221 | only the vendor set changes, by the toggle |
| UpgradeFilters.FilterState.ToggleCategory | time-hero-simulator/src/composables/useUpgradeFilters.js:226-241 | only the category set changes, by the toggle |
| UpgradeFilters.FilterState.ToggleStatus | time-hero-simulator/src/composables/useUpgradeFilters.js:246-261 | only the status set changes, by the toggle |
| UpgradeFilters.FilterState.SetSearch | time-hero-simulator/src/composables/useUpgradeFilters.js:266-268 | only the search term changes |
| UpgradeFilters.FilterState.ToggleAffordability | time-hero-simulator/src/composables/useUpgradeFilters.js:273-275 | flips one affordability flag; while affordability is still a string the assignment fails and nothing changes |
| UpgradeFilters.FilterState.ToggleSpecial | time-hero-simulator/src/composables/useUpgradeFilters.js:280-282 | only the one special flag changes, to the negation of its truthiness |
| UpgradeFilters.FilterState.ResetFilters | time-hero-simulator/src/composables/useUpgradeFilters.js:287-312 | the filters become the reset defaults |
| UpgradeFilters.FilterState.ApplyPresetNamed | time-hero-simulator/src/composables/useUpgradeFilters.js:188-201 | the filters become those of the corrected preset application |
| UpgradeFilters.FilterState.Import | time-hero-simulator/src/composables/useUpgradeFilters.js:382-401 | the filters become the import of the configuration over the old ones |
| WorkerManager.Posts | time-hero-simulator/src/utils/workerManager.js:137-147 | posting a list of messages posts each of them, in order |
| WorkerManager.RemoveFirstSpec | time-hero-simulator/src/utils/workerManager.js:117-122 | unsubscribing removes exactly one occurrence of a registered handler and keeps the rest in order, and changes nothing for one not registered |
| WorkerManager.SubscribeThenUnsubscribe | time-hero-simulator/src/utils/workerManager.js:109-125 | unsubscribing right after subscribing gives back the handler list as it was, when the handler was not already in it |
| WorkerManager.MergeSpec | time-hero-simulator/src/utils/workerManager.js:70-74 | an object spread takes each key from the later object when it has it, and from the earlier one otherwise |
| WorkerManager.MetricsAfterSpec | time-hero-simulator/src/utils/workerManager.js:69-75 | performance values override the old metrics key by key, and the update stamp is always the current time |
| WorkerManager.RunCalls | time-hero-simulator/src/utils/workerManager.js:86-103 | dispatch calls exactly the registered callbacks, in order, whatever the manager's own handlers do meanwhile |
| WorkerManager.RunInitialized | time-hero-simulator/src/utils/workerManager.js:44-93 | the manager is initialised after dispatch exactly when it was before or a ready handler ran |
| WorkerManager.RunQueue | time-hero-simulator/src/utils/workerManager.js:143-169 | dispatch leaves the queue and the posted log alone unless a successful init-complete handler runs, which empties the queue |
| WorkerManager.SimulationWorkerManager.constructor | time-hero-simulator/src/utils/workerManager.js:9-20 | a new manager has no worker, no handlers, nothing queued, no state and zero metrics |
| WorkerManager.SimulationWorkerManager.Register | time-hero-simulator/src/utils/workerManager.js:109-125 | the handler is appended to those of its type and its unsubscribe closure returned; nothing else changes |
| WorkerManager.SimulationWorkerManager.OnMessage | time-hero-simulator/src/utils/workerManager.js:109-125 | a caller's callback is appended to the handlers of its type, as the state, event and error subscriptions do (the subscriptions are at workerManager.js:279-295) |
| WorkerManager.SimulationWorkerManager.Unsubscribe | time-hero-simulator/src/utils/workerManager.js:116-124 | the first occurrence of the handler in the current list of its type is removed; nothing else changes |
| WorkerManager.SimulationWorkerManager.SendMessage | time-hero-simulator/src/utils/workerManager.js:130-138 | a message is posted when a worker exists and is initialised, and queued otherwise |
| WorkerManager.SimulationWorkerManager.ProcessPendingMessages | time-hero-simulator/src/utils/workerManager.js:143-150 | the queued messages are sent again in order and the queue is emptied |
| WorkerManager.SimulationWorkerManager.Invoke | time-hero-simulator/src/utils/workerManager.js:87-103 | one handler call has the effect of that handler: a caller's call recorded, or the manager's own readiness, flush or snapshot handling |
| WorkerManager.SimulationWorkerManager.InvokeAll | time-hero-simulator/src/utils/workerManager.js:86-103 | the handlers run in order, each as one call |
| WorkerManager.SimulationWorkerManager.HandleWorkerMessage | time-hero-simulator/src/utils/workerManager.js:65-104 | metrics and the cached state are updated first, then the type's handlers and then the general handlers run, as registered before dispatch; the manager becomes initialised exactly when it was or a ready handler ran |
| WorkerManager.SimulationWorkerManager.Initialize | time-hero-simulator/src/utils/workerManager.js:25-60 | an initialised manager does nothing; otherwise a worker is created and a ready handler registered, and nothing else changes |
| WorkerManager.SimulationWorkerManager.InitializeSimulation | time-hero-simulator/src/utils/workerManager.js:155-173 | an init-complete handler is registered and an INIT message carrying the game values and state is sent (posted or queued) |
| WorkerManager.SimulationWorkerManager.GetCurrentState | time-hero-simulator/src/utils/workerManager.js:219-232 | a snapshot handler is registered, never removed, and a GET_STATE message is sent |
| WorkerManager.SimulationWorkerManager.ResetSimulation | time-hero-simulator/src/utils/workerManager.js:199-207 | the cached state is forgotten, the metrics are zeroed and a RESET message is sent |
| WorkerManager.SimulationWorkerManager.Destroy | time-hero-simulator/src/utils/workerManager.js:258-274 | the worker is terminated if there is one and the handlers, queue and cached state are cleared, so the manager is no longer running |
| WorkerManager.SimulationWorkerManager.StartSimulation | time-hero-simulator/src/utils/workerManager.js:178-180 | a START message with the speed is sent |
| WorkerManager.SimulationWorkerManager.PauseSimulation | time-hero-simulator/src/utils/workerManager.js:185-187 | a PAUSE message is sent |
| WorkerManager.SimulationWorkerManager.ResumeSimulation | time-hero-simulator/src/utils/workerManager.js:192-194 | a RESUME message with the speed is sent |
| WorkerManager.SimulationWorkerManager.SetSimulationSpeed | time-hero-simulator/src/utils/workerManager.js:212-214 | a SET_SPEED message with the speed is sent |
| WorkerManager.SimulationWorkerManager.UpdatePlayerProfile | time-hero-simulator/src/utils/workerManager.js:237-239 | an UPDATE_PROFILE message with the profile is sent |
| WorkerManager.SimulationWorkerManager.SubscribeToLifecycle | time-hero-simulator/src/utils/workerManager.js:300-312 | five wrappers are registered, one per lifecycle message, each relabelling the payload for the caller's callback |
| WorkerManager.QueueThenFlush | time-hero-simulator/src/utils/workerManager.js:130-173 | messages sent before the worker is ready reach it in the order they were sent, once a successful init-complete arrives, and the queue ends up empty |
| SimulatorWorker.NextMinuteSpec | time-hero-simulator/src/workers/simulator.worker.js:81-90 | a clock in range stays in range and moves on by exactly one minute; the day moves only when 23:59 rolls over |
| SimulatorWorker.AdvanceSpec | time-hero-simulator/src/workers/simulator.worker.js:71-121 | one tick moves the clock by a minute and the tick count by one, follows the clock's day, takes an hourly sample of the resources when the old tick count is a multiple of 60 and otherwise keeps the history, keeps the history within 672 samples, and changes nothing else |
| SimulatorWorker.BoundedKeepsRecent | time-hero-simulator/src/workers/simulator.worker.js:104-107 | bounding the history keeps its most recent samples, at most 672 of them |
| SimulatorWorker.TicksSpec | time-hero-simulator/src/workers/simulator.worker.js:213-276 | after `n` ticks from a clock in range the clock is in range and exactly `n` minutes later, the tick count is `n` higher and the history stays within 672 samples |
| SimulatorWorker.TicksKeepClock | time-hero-simulator/src/workers/simulator.worker.js:71-121 | ticks keep the clock present and count themselves, even from a clock out of range |
| SimulatorWorker.CreateStateDiffSpec | time-hero-simulator/src/workers/simulator.worker.js:279-303 | the diff reports every helper in order, a missing `isWorking` as not working and a missing or zero efficiency as 1, with the worker's tick count, the day and the clock |
| SimulatorWorker.FrameBudget | time-hero-simulator/src/workers/simulator.worker.js:218-220 | a frame runs at most 1000 ticks at maximum speed, at most `min(10 * speed, 100)` at a numeric speed, and none at an unset speed |
| SimulatorWorker.InheritedTypeSwallowed | time-hero-simulator/src/workers/simulator.worker.js:309-311 | as written a 'toString' message finds an inherited member and is silently swallowed; looked up on own keys it is reported as unknown |
| SimulatorWorker.RouteSpec | time-hero-simulator/src/workers/simulator.worker.js:306-331 | (corrected) a message type is handled exactly when it is one of the eight handler names, and is never swallowed; outside inherited names the two lookups agree |
| SimulatorWorker.Worker.constructor | time-hero-simulator/src/workers/simulator.worker.js:13-19 | a loaded worker has no state and no values, is stopped at speed 1 with zero ticks, and has posted the ready signal (simulator.worker.js:333-337) |
| SimulatorWorker.Worker.RunSimulation | time-hero-simulator/src/workers/simulator.worker.js:213-276 | without a state, values or a running flag nothing happens; otherwise the frame runs within its tick budget, the state is that many ticks later, every posted update carries a tick of this frame, and the next frame is scheduled; a state without a clock posts a simulation error and stops |
| SimulatorWorker.Worker.TickOnce | time-hero-simulator/src/workers/simulator.worker.js:220-264 | one tick advances the state and the worker tick; a state update is posted, and the report time becomes now, exactly when the new tick is a multiple of 100 or more than 1000 ms have passed since the last report; the update carries the state's diff, the new tick and the frame's ticks per second |
| SimulatorWorker.Worker.Init | time-hero-simulator/src/workers/simulator.worker.js:126-133 | the game values are remembered, the state is a copy of the one handed over or a fresh one, and INIT_COMPLETE is posted |
| SimulatorWorker.Worker.Start | time-hero-simulator/src/workers/simulator.worker.js:136-144 | the speed is the one given or 1 and SIMULATION_STARTED is posted last; with a clocked state and game values the state and the worker tick are those after the frame's ticks, within the tick budget; a state without a clock posts a simulation error first and stops when the speed allows a tick; without a state or values nothing else changes |
| SimulatorWorker.Worker.Pause | time-hero-simulator/src/workers/simulator.worker.js:147-153 | the worker stops and posts SIMULATION_PAUSED with its tick; nothing else changes |
| SimulatorWorker.Worker.Resume | time-hero-simulator/src/workers/simulator.worker.js:156-164 | the speed is the one given or the current one and SIMULATION_RESUMED is posted last; with a clocked state and game values the state and the worker tick are those after the frame's ticks, within the tick budget; a state without a clock posts a simulation error first and stops when the speed allows a tick; without a state or values nothing else changes |
| SimulatorWorker.Worker.Reset | time-hero-simulator/src/workers/simulator.worker.js:167-177 | the worker stops with the new values, a fresh state and zeroed counters, and posts SIMULATION_RESET |
| SimulatorWorker.Worker.SetSpeed | time-hero-simulator/src/workers/simulator.worker.js:180-186 | the speed becomes the one given, unset included, and SPEED_CHANGED is posted |
| SimulatorWorker.Worker.GetState | time-hero-simulator/src/workers/simulator.worker.js:189-198 | a snapshot of the state, the tick and the running flag is posted; nothing else changes |
| SimulatorWorker.Worker.UpdateProfile | time-hero-simulator/src/workers/simulator.worker.js:201-209 | with a state the profile is stored and PROFILE_UPDATED posted; without one nothing happens |
| SimulatorWorker.Worker.Receive | time-hero-simulator/src/workers/simulator.worker.js:306-331 | (corrected) an unknown type is answered with an error and changes nothing else; each handled type ends in the state its handler states (`Inited`, `Started`, `Paused`, `Resumed`, `WasReset`, `SpeedSet`, `StatePosted`, `ProfileSet`, the same predicates that the handlers ensure), with the frame's tick count returned for `START` and `RESUME` and 0 otherwise; a handled type posts something, except a profile update without a state, which changes nothing |
| Simulation.InitialGameState | time-hero-simulator/src/stores/simulation.js:21-59 | the initial state is day 1 at 8:00 in the tutorial, with no energy, a cap of 50, three plots, an idle hero and no helpers |
| Simulation.InitialMetrics | time-hero-simulator/src/stores/simulation.js:111-130 | every counter and duration starts at zero and every table starts empty |
| Simulation.TrimLog | time-hero-simulator/src/stores/simulation.js:271-288 | after one push the log keeps only its newest `maxLogEntries` (10000) entries |
| Simulation.LogBounded | time-hero-simulator/src/stores/simulation.js:271-288 | a log within the limit stays within it, and every push keeps the event just logged as the newest entry |
| Simulation.SpendSpec | time-hero-simulator/src/stores/simulation.js:465-484 | spending succeeds exactly when the kind is known and its balance covers the amount; it then lowers that balance alone and leaves it non-negative |
| Simulation.AddThenSpend | time-hero-simulator/src/stores/simulation.js:454-484 | spending what was just added restores the resources |
| Simulation.SpendKeepsNonNegative | time-hero-simulator/src/stores/simulation.js:465-484 | no spend drives a balance negative |
| Simulation.GrowthSpec | time-hero-simulator/src/stores/simulation.js:355-384 | growth only raises a plot's stage, to `min(4, floor(4·elapsed/growthTime))`; an empty plot or one planted at time 0 does not grow |
| Simulation.RipeningCount | time-hero-simulator/src/stores/simulation.js:355-384 | no more plots ripen in one pass than there are plots |
| Simulation.RipeningCountSpec | time-hero-simulator/src/stores/simulation.js:367-382 | the count of ripening events is the number of plots whose growth reaches stage 4 from below in this pass |
| Simulation.NoMatureNoEnergy | time-hero-simulator/src/stores/simulation.js:387-406 | only mature plots (stage 4) generate energy |
| Simulation.CapEnergySpec | time-hero-simulator/src/stores/simulation.js:409-420 | capped energy is within the cap, the waste is exactly the excess, nothing changes within the cap, and capping twice wastes nothing more |
| Simulation.FindPlot | time-hero-simulator/src/stores/simulation.js:488 | the result is the first plot carrying the id, and none is found only when no plot carries it |
| Simulation.PlantSpec | time-hero-simulator/src/stores/simulation.js:487-501 | planting succeeds exactly on an existing empty plot with a known crop, and sets that plot alone to the crop at stage 0, planted now |
| Simulation.HarvestSpec | time-hero-simulator/src/stores/simulation.js:504-523 | harvesting fails on a missing or empty plot and below stage 4; otherwise it yields the crop's energy and empties that plot alone |
| Simulation.PlantGrowHarvest | time-hero-simulator/src/stores/simulation.js:355-523 | a crop planted, left for its growth time and harvested yields its energy, leaves the plot empty and lets it be planted again |
| Simulation.PhaseIndex | time-hero-simulator/src/stores/simulation.js:1125-1128 | the position of a phase in tutorial, early, mid, late, endgame, and -1 for any other name |
| Simulation.NextPhaseStep | time-hero-simulator/src/stores/simulation.js:423-451 | one progression check moves at most one phase forward and never backward; an unknown phase and the endgame stay put |
| Simulation.TutorialAdvances | time-hero-simulator/src/stores/simulation.js:423-451 | from the tutorial the check always advances, since the day is at least 1 |
| Simulation.ExpectedPhaseMonotone | time-hero-simulator/src/stores/simulation.js:1116-1122 | the expected phase is always a known phase and never regresses as days pass |
| Simulation.StartAdventureSpec | time-hero-simulator/src/stores/simulation.js:528-578 | an adventure starts exactly when the route is known, the hero is idle, the route is unlocked, the duration's energy and minutes exist and are non-zero, and the energy covers the cost; it then deducts the cost and records the action |
| Simulation.MiningCostIsFloor | time-hero-simulator/src/stores/simulation.js:631-632 | the mining cost is the floor of `10·depth^1.5`, computed exactly as the integer square root of `100·depth³` |
| Simulation.DepthFiveCost | time-hero-simulator/src/stores/simulation.js:631-632 | depth 5 costs 111 energy |
| Simulation.StartMiningSpec | time-hero-simulator/src/stores/simulation.js:624-653 | mining starts exactly when the hero is idle and the energy covers the cost; it then deducts the cost and records the action |
| Simulation.MiningRewardSpec | time-hero-simulator/src/stores/simulation.js:656-685 | mining pays `floor(50·depth^1.2)` gold and `2·depth` stone, and pays no copper below depth 5 and no iron below depth 10 |
| Simulation.DiscoveryChanceBounded | time-hero-simulator/src/stores/simulation.js:690-721 | the discovery chance is non-negative and never exceeds its cap of 0.15, 0.08 or 0.03 for the first, second and later helpers |
| Simulation.DiscoveryAtCap | time-hero-simulator/src/stores/simulation.js:690-721 | no helper, 20 active plots and ten days passed give exactly the cap |
| Simulation.HelperIdsDistinct | time-hero-simulator/src/stores/simulation.js:724-759 | helpers found at different counts get different ids |
| Simulation.MaterialsCoveredSpec | time-hero-simulator/src/stores/simulation.js:869-874 | the materials of a cost are covered exactly when no entry is short |
| Simulation.AffordableSpec | time-hero-simulator/src/stores/simulation.js:859-878 | an upgrade is affordable exactly when it has a cost, gold and energy cover it, and every other material that is held covers its amount |
| Simulation.MissingMaterialAffordable | time-hero-simulator/src/stores/simulation.js:869-874 | a material the player does not hold does not block a purchase |
| Simulation.PayMaterialsNonNegative | time-hero-simulator/src/stores/simulation.js:881-920 | paying for an affordable upgrade never drives a balance negative |
| Simulation.ApplyEffectSpec | time-hero-simulator/src/stores/simulation.js:923-987 | tower floors become the larger of the old and the new floor, so they never decrease; each effect changes one field, and an unknown effect changes nothing |
| Simulation.TowerTokens | time-hero-simulator/src/stores/simulation.js:923-987 | the tower effects name floors 2 to 7 |
| Simulation.LowMaterials | time-hero-simulator/src/stores/simulation.js:1035-1113 | the count of materials below 5 never exceeds the number of materials |
| Simulation.LowMaterialsSpec | time-hero-simulator/src/stores/simulation.js:1076-1077 | the count is the number of materials holding less than 5 after day 7, and none up to day 7 |
| Simulation.BottlenecksSpec | time-hero-simulator/src/stores/simulation.js:1035-1113 | each of the six bottlenecks is reported exactly when its condition holds |
| Simulation.UpgradeLookupThrows | time-hero-simulator/src/stores/simulation.js:847-856 | every call of `isUpgradeAvailable`, and so of `purchaseUpgrade`, throws, whatever the id |
| Simulation.SimulationStore.constructor | time-hero-simulator/src/stores/simulation.js:13-129 | a fresh store holds the initial clock (day 1, 08:00), the initial game state, zeroed metrics and an empty log, and is neither running nor paused |
| Simulation.SimulationStore.ResetSimulation | time-hero-simulator/src/stores/simulation.js:188-259 | the clock, game state and metrics return to their initial values and the loop is stopped; unlike a fresh store, the log then holds the one reset event and the metrics count it |
| Simulation.SimulationStore.LogEvent | time-hero-simulator/src/stores/simulation.js:271-288 | the event is pushed, the log trimmed to the limit and the logged count raised by one |
| Simulation.SimulationStore.AdvanceTime | time-hero-simulator/src/stores/simulation.js:290-313 | the clock moves by exactly the minutes given, carrying minutes into hours and hours into days, and the elapsed game time follows |
| Simulation.SimulationStore.ProcessFarmGrowth | time-hero-simulator/src/stores/simulation.js:355-384 | every plot is grown in place, one event is logged per plot that ripens and a summary when any did |
| Simulation.SimulationStore.ProcessEnergyGeneration | time-hero-simulator/src/stores/simulation.js:387-406 | the mature plots' rates are summed and, when positive, added to the energy and to the generated total |
| Simulation.SimulationStore.ProcessResourceCaps | time-hero-simulator/src/stores/simulation.js:409-420 | energy is clamped to its cap, the excess counted as wasted, and an overflow logged on minutes divisible by ten |
| Simulation.SimulationStore.CheckPhaseProgression | time-hero-simulator/src/stores/simulation.js:423-451 | the phase moves at most one step; on a change the old phase's duration is recorded and an event logged |
| Simulation.SimulationStore.AddResource | time-hero-simulator/src/stores/simulation.js:454-462 | the resources become `Add` of the old ones |
| Simulation.SimulationStore.SpendResource | time-hero-simulator/src/stores/simulation.js:465-484 | the result is true exactly when the balance covers the amount; energy spent is tracked |
| Simulation.SimulationStore.PlantCrop | time-hero-simulator/src/stores/simulation.js:487-501 | the result is true exactly when `Plant` succeeds, and then only the plots change; otherwise nothing changes |
| Simulation.SimulationStore.HarvestCrop | time-hero-simulator/src/stores/simulation.js:504-523 | the result is true exactly when `HarvestPlot` succeeds, and then the plot is emptied and its energy added |
| Simulation.SimulationStore.StartAdventure | time-hero-simulator/src/stores/simulation.js:528-578 | the result is true exactly when `StartAdventureOf` starts; a refusal changes only the log |
| Simulation.SimulationStore.CompleteAdventure | time-hero-simulator/src/stores/simulation.js:581-619 | the route's rewards are paid and the hero sent home; nothing happens unless the current action is an adventure |
| Simulation.SimulationStore.StartMining | time-hero-simulator/src/stores/simulation.js:624-653 | a refusal changes only the log; otherwise the mining cost is deducted and the trip recorded |
| Simulation.SimulationStore.CompleteMining | time-hero-simulator/src/stores/simulation.js:656-685 | the depth's rewards are paid and the hero sent home |
| Simulation.SimulationStore.ProcessOngoingActions | time-hero-simulator/src/stores/simulation.js:1372-1387 | the current action loses a minute and, once none is left, an adventure or a mining trip completes |
| Simulation.SimulationStore.CheckHelperDiscovery | time-hero-simulator/src/stores/simulation.js:690-721 | a helper is found exactly when the draw is below the discovery chance |
| Simulation.SimulationStore.DiscoverHelper | time-hero-simulator/src/stores/simulation.js:724-759 | exactly one helper is appended, of the kind due for the number found so far |
| Simulation.SimulationStore.ApplyUpgradeEffect | time-hero-simulator/src/stores/simulation.js:923-987 | the state becomes `ApplyEffect` of the parsed effect, with its events logged |
| Simulation.SimulationStore.PurchaseUpgrade | time-hero-simulator/src/stores/simulation.js:881-920 | (corrected) the purchase succeeds exactly when the upgrade is available and affordable; it then pays the cost, records the upgrade as owned, applies its effect and logs its timing; a refusal changes only the log |
| Simulation.SimulationStore.CompletePurchase | time-hero-simulator/src/stores/simulation.js:895-918 | an allowed purchase pays the cost, appends the id to the owned upgrades, applies the effect, logs one major event after the effect's events, counts the energy spent and records the day and game time of the purchase |
| Engine.TickAddsMinute | time-hero-simulator/src/utils/simulationEngine.js:142-155 | one tick keeps the clock in range, adds exactly one minute of the day and moves the day on only after 23:59 |
| Engine.FirstMatch | time-hero-simulator/src/utils/simulationEngine.js:311-359 | the index of the first plot that matches, or -1 exactly when none does |
| Engine.FindCrop | time-hero-simulator/src/utils/simulationEngine.js:533-535 | the crop found has the id asked for and is the first catalogue crop with it, as `.find` returns; none is found only when no crop has that id |
| Engine.FindRoute | time-hero-simulator/src/utils/simulationEngine.js:219-220 | the route found has the action's target as its id and is the first catalogue route with it, as `.find` returns; when none is found and there is a target, no route in the catalogue has that id |
| Engine.CountUpdate | time-hero-simulator/src/utils/simulationEngine.js:311-359 | replacing one plot changes a filter count by exactly what the old and the new plot contribute |
| Engine.DecisionPriority | time-hero-simulator/src/utils/simulationEngine.js:447-505 | the decision is harvest when a plot is ready, else water when a planted plot is dry and the tank has water, else plant when a plot is empty, else an adventure when energy is below 30% of the cap and a route exists, else idle; each case holds exactly then, and the action starts now |
| Engine.WaterAllSpec | time-hero-simulator/src/utils/simulationEngine.js:510-524 | watering never drives the tank below zero, spends one unit per plot it waters, waters only dry planted plots, and leaves none dry while water remains |
| Engine.HarvestLeavesUnknown | time-hero-simulator/src/utils/simulationEngine.js:529-556 | after harvesting only plots whose crop is missing from the catalogue are still ready; every harvested plot is fully emptied |
| Engine.CropToPlant | time-hero-simulator/src/utils/simulationEngine.js:563 | the crop planted is never empty: the action's target, or carrots by default |
| Engine.AutomatedSpec | time-hero-simulator/src/utils/simulationEngine.js:364-383 | only planted, watered plots grow, only on ticks divisible by 30, by one stage and never beyond stage 3; nothing else about the plot changes |
| Engine.AddAllSpec | time-hero-simulator/src/utils/simulationEngine.js:225-229 | each rewarded material grows by its reward, from 0 when it was absent, and every other material is unchanged |
| Engine.MiningFindsSpec | time-hero-simulator/src/utils/simulationEngine.js:258-278 | mining discovers a helper only of a type not yet discovered and only of the three types, appending at most one, and a discovery is reported exactly when one is appended |
| Engine.AtMostThreeFound | time-hero-simulator/src/utils/simulationEngine.js:258-278 | at most three helpers can ever be discovered by mining |
| Engine.GolemWithReadyPlotThrows | time-hero-simulator/src/utils/simulationEngine.js:330-359 | as written, a working golem with any ready plot throws, so the tick fails |
| Engine.GolemHarvests | time-hero-simulator/src/utils/simulationEngine.js:330-359 | the corrected golem harvests the first ready plot whose crop is known, that plot alone, so one plot fewer is ready, and energy rises by the crop's value up to the cap; with no such plot nothing changes |
| Engine.GnomeWaters | time-hero-simulator/src/utils/simulationEngine.js:311-325 | the gnome waters the first dry planted plot, spending one unit of water, when the tank is not empty; otherwise nothing changes |
| Engine.HelpersRunSpec | time-hero-simulator/src/utils/simulationEngine.js:290-306 | (corrected) the helpers fail exactly when one of them is a working fairy, and a well-formed yard stays well formed |
| Engine.HelpersRunStops | time-hero-simulator/src/utils/simulationEngine.js:290-306 | once a helper has failed, the later helpers have no effect on the outcome |
| Engine.PhaseTransitionOf | time-hero-simulator/src/utils/simulationEngine.js:388-442 | the tutorial ends with the first upgrade, early with the first helper, mid with three helpers, late on day 21 with ten upgrades; a transition is always one step forward, and the endgame and unknown phases never move |
| Engine.PhaseHistorySpec | time-hero-simulator/src/utils/simulationEngine.js:93-103 | a transition appends exactly one open entry, closes the previous one with `day - startDay`, and leaves every earlier entry unchanged |
| Engine.RecordedSpec | time-hero-simulator/src/utils/simulationEngine.js:112-124 | the resource history never exceeds 672 entries, ends with the new snapshot and keeps the most recent earlier entries |
| Engine.GameState.constructor | time-hero-simulator/src/utils/simulationEngine.js:12-59 | the initial state: day 1 at 8:00, no energy with a cap of 50, seven materials at zero, three empty plots, a full tank of 20, the hero at home, the tutorial phase opened on day 1 |
| Engine.GameState.AdvanceTime | time-hero-simulator/src/utils/simulationEngine.js:142-155 | the clock moves one minute and the day field follows the clock only when a new day starts |
| Engine.GameState.ProcessCurrentAction | time-hero-simulator/src/utils/simulationEngine.js:160-183 | with no action nothing changes; otherwise the action loses a minute, and when none is left it completes, is cleared, and the hero goes home unless it was idling |
| Engine.GameState.CompleteAction | time-hero-simulator/src/utils/simulationEngine.js:188-213 | the completion is the one for the action's type; crafting only reports, and an unknown type changes nothing |
| Engine.GameState.CompleteFarmAction | time-hero-simulator/src/utils/simulationEngine.js:201-209 | watering, harvesting and planting each complete as their own completion states, with no major event, and keep the yard well formed |
| Engine.GameState.CompleteAdventure | time-hero-simulator/src/utils/simulationEngine.js:218-236 | the resources become those of the finished route, and a missing route changes nothing |
| Engine.GameState.CompleteMining | time-hero-simulator/src/utils/simulationEngine.js:241-285 | the mining rewards are paid, a helper may be discovered, and the trip is reported with its stones |
| Engine.GameState.ProcessHelpers | time-hero-simulator/src/utils/simulationEngine.js:290-306 | (corrected) the yard, the events and the error are those of running the helpers in order |
| Engine.GameState.GnomeWatering | time-hero-simulator/src/utils/simulationEngine.js:311-325 | the plots, the tank and the events are those of one gnome step |
| Engine.GameState.GolemHarvesting | time-hero-simulator/src/utils/simulationEngine.js:330-359 | the plots, the resources and the events are those of one corrected golem step |
| Engine.GameState.ProcessFarmAutomation | time-hero-simulator/src/utils/simulationEngine.js:364-383 | every plot is advanced by the automation rule, and a well-formed yard stays well formed |
| Engine.GameState.CheckPhaseProgression | time-hero-simulator/src/utils/simulationEngine.js:88-104 | the phase changes exactly when a transition is due, then by one step with the history updated; otherwise neither changes |
| Engine.GameState.MakeAIDecision | time-hero-simulator/src/utils/simulationEngine.js:447-505 | the hero's new action is the prioritised decision and the location follows it |
| Engine.GameState.CompleteWatering | time-hero-simulator/src/utils/simulationEngine.js:510-524 | the plots and the tank become those of watering them in order, and the count of watered plots is reported |
| Engine.GameState.CompleteHarvesting | time-hero-simulator/src/utils/simulationEngine.js:529-556 | every ready plot with a known crop is emptied, and energy becomes `min(cap, energy + total yield)` |
| Engine.GameState.CompletePlanting | time-hero-simulator/src/utils/simulationEngine.js:561-577 | every empty plot is planted with the target crop, carrots by default, at the current tick, so afterwards no plot is empty |
| Engine.GameState.UpdatePhaseHistory | time-hero-simulator/src/utils/simulationEngine.js:93-103 | the phase history becomes the one after the transition |
| Engine.GameState.RecordResources | time-hero-simulator/src/utils/simulationEngine.js:112-124 | the resource history gets the snapshot, trimmed to 672 entries |
| Engine.GameState.BeginTick | time-hero-simulator/src/utils/simulationEngine.js:73-79 | the clock moves one minute; with no action nothing else changes; otherwise the action loses a minute, and when none is left its completion is the one for its type, it is cleared and the hero goes home unless idling; the state stays well formed |
| Engine.GameState.FinishTick | time-hero-simulator/src/utils/simulationEngine.js:84-126 | every plot is advanced by the automation rule and the ready plots reported; the phase moves by one step with the history updated exactly when a transition is due, and the transition replaces the major event; a free hero gets the decided action for the automated plots; an hourly snapshot is taken on ticks divisible by 60; the tick count rises by one and the tank and resources are untouched |
| Engine.GameState.FarmAndPhase | time-hero-simulator/src/utils/simulationEngine.js:84-104 | the plots are automated and reported, and the phase and its history change exactly when a transition is due, by one step |
| Engine.GameState.EndTick | time-hero-simulator/src/utils/simulationEngine.js:106-126 | a free hero gets the decided action, an hourly snapshot is taken on ticks divisible by 60, and the tick count rises by one |
| Engine.GameState.SimulateGameTick | time-hero-simulator/src/utils/simulationEngine.js:64-137 | (corrected) the clock moves a minute and the current action progresses or completes, giving an intermediate state; the helpers then run on its yard; a working fairy makes the tick fail with the error result, keeping the yard the helpers before it left and counting no tick; otherwise the plots are automated, the phase check runs, a free hero gets the decided action, the hourly snapshot is taken and the tick is counted; the phase moves at most one step forward and the invariants are kept |
| Engine.GameState.RestOfTick | time-hero-simulator/src/utils/simulationEngine.js:81-126 | (corrected) the helpers run on the yard; a working fairy makes the tick fail, leaving the yard as the helpers before it left it and everything else unchanged; otherwise the tick ends as `FinishTick` states, from the yard the helpers left |

## Left out

Across the project:

- Floating point: amounts are exact reals, so rounding, `NaN` and `Infinity` are not modelled except where a member says so.
- Texts are left out: event messages, `toFixed` strings, icons, `console.log` output and the bezier edge paths of `calculateEdgePath`.
- Vue reactivity, `computed` wrappers and the Pinia plumbing around the stores are not modelled.
- Timers, promises, `setTimeout` loops and workers are modelled only as the state changes they cause.
- Ids and timestamps made from `Date.now()` are taken as inputs.
- The UI composables `useUpgradeInteractions.js` and `useUpgradeTree.js`, the router and the build configuration are not part of this model.
- Object keys are looked up as own keys. An id that names an `Object.prototype` member, such as `constructor` or `toString`, finds nothing in the model. The source finds the inherited member there and then usually throws: `graph.nodes[id]` in `utils/pathfinding.js` and `utils/upgradePrerequisites.js`, and the target and threshold tables of `stores/results.js`. The three places where this is the point are modelled both ways under "## Findings".
- Objects keep their keys in insertion order. JavaScript lists integer-like keys first, in ascending order; the model does not.
- Lower-casing (`toLowerCase`) covers the ASCII letters only, wherever it is used: material names, the importers' keys and the layout and filter searches.
- Names are compared by code unit. The source sorts names with `localeCompare`, which orders by locale ("apple" before "Banana"); the model orders by code unit ("Banana" before "apple").
- Sorting.SortDesc: the result is ordered by key and is a permutation of the input; that tied items keep their input order, as JavaScript's stable `sort` does, is not stated.

`stores/simulation.js`:

- `gameTick`, the helper automation (`processHelperAutomation` and the `auto*` functions) and the player sessions (`checkPlayerSession`, `simulatePlayerSession`, `performSessionActions`, the crop and adventure choosers) are not part of this model. They are schedulers over the modelled operations, driven by the real clock and by random draws.
- `considerUpgradePurchases` and `getUpgradePriority` are not part of this model; they rank upgrades with `Math.log10`.
- `generateSimulationReport` and `generateRecommendations` produce report text and are not modelled.
- The derived values `gameTime`, `currentEfficiency`, `energyPercentage` and `isPlayerActive` are not modelled.
- `startSimulation`, `pauseSimulation`, `resumeSimulation`, `stopSimulation`, `updatePlayerProfile`, `updateSimulationSettings` and the tick loop are not modelled. They set flags, merge settings, log one event each and schedule timers.
- Simulation.SimulationStore.LogEvent: an event keeps its category and level; its id, text, details and timestamp are left out.
- Simulation.BottlenecksSpec: stated only for a non-zero energy cap, a generated total other than -1 and at least one plot; otherwise the source divides by zero and compares `NaN` or `Infinity`.
- Simulation.RipeningCount: its own contract only bounds the count by the number of plots. Which plots ripen is stated by `Simulation.RipeningCountSpec`.
- Simulation.LowMaterials: its own contract only bounds the count by the number of materials. Which materials count is stated by `Simulation.LowMaterialsSpec`.

`utils/simulationEngine.js`:

- Engine.GameState.CompleteMining: a missing `stone`, `copper` or `iron` entry is counted from 0. The source would store `NaN` there, which cannot happen from the initial state since it holds all three.
- The engine's helper type index is clamped into the three types; a draw in [0, 1) never needs the clamp.
- Engine.GameState: the fields of `initializeGameState` that no tick reads are left out: `tools`, `tower`, `blueprints`, `unlockedFeatures`, `upgradeHistory`, `purchasedUpgrades`, `carryCapacity`, `expansionsCompleted` and `cameraWidth`.
- Engine.Decide: a route's duration is a number, so `duration || 30` gives 30 for a zero duration; a missing or `NaN` duration is not representable.
- A working fairy calls `processFairyPlanting`, which the module does not define. The model keeps this as the tick's error path, since the intended planting behaviour is unknown.

`workers/simulator.worker.js`:

- The `performance.now()` readings of `runSimulation` come from a clock function given as an input.
- Frames scheduled with `setTimeout` are counted but not run.

`utils/upgradeCalculator.js`, `utils/pathfinding.js`, `utils/treeLayoutEngine.js`, `utils/nodeClassification.js`:

- `formatUpgradeCost` and `getMaterialIcon` produce display text and are not modelled.
- `calculateEfficiencyScore` is not modelled: nothing in the core calls it, and it is floating-point scoring.
- The reasoning text of `findOptimalNextUpgrades` (`generateRecommendationReasoning`) is not modelled.
- Prerequisites.CalculateDepth: on a cyclic graph the depth of a node with known upgrade prerequisites is not stated, since it depends on the visit order there; only the two rules that hold in any order are proved (no prerequisites gives 0, and only unknown ones give `-Infinity`). On an acyclic graph the full rule is proved.
- Prerequisites.CalculateNodeDepths: the same holds, for cyclic graphs only.
- TreeLayout.LaneOrdered: cards of one tier are ordered by the code units of their names, where the source uses `localeCompare`.
- TreeLayout.TierGroupSpec: a tier group is sorted by code units, where the source uses `localeCompare`.
- Calculator.TierBonus: a tier that is not a number gives `NaN` in the source, since `Math.max(0, NaN)` is `NaN`, and with it a `NaN` priority; the model gives 0.

`stores/gameValues.js`:

- `loadGameValues`, the server saves (`saveConfiguration`, `saveConfigurationSet`, `updateItem`'s request), `downloadCSV`, `exportAllAsCSV` and `resetToDefaults` are not modelled. They are `fetch`, Blob, DOM download and `window.location.reload` calls.
- `exportItemsAsCSV` is not modelled; it is Blob and DOM glue around the modelled CSV builder.
- The stubs `importFromCSV`, `updateUpgrade`, `deleteUpgrade` and `exportUpgradeTree` are not modelled.
- The read-only filters `getCropsBySeedLevel` and `getWeaponsByType` are not part of this model.
- GameValues.SortRowsSpec: rows without a `_csvIndex` are ordered by the code units of their ids, where the source uses `localeCompare`.
- GameValues.BuildCsv: the row order is stated by code units for the same reason.
- GameValues.Store.ExportCategoryCsv: the same holds for the export.
- GameValues.NumberOf: text is read as `Number` reads plain decimal text (surrounding white space, an optional sign, digits with an optional fraction); hexadecimal, exponent forms and `Infinity` read as `NaN` in the model.

`utils/importers.js`:

- `parseCSVData`, `loadCSVFile` and `loadAllGameData` are not modelled; they are Papa Parse and `fetch` calls.
- The derived ratios are left out: `energyPerMinute`, `energyEfficiency`, the adventure efficiencies and the mining `efficiencyRatio`. They are floating-point divisions that can give `NaN` or `Infinity`.
- `parseFloat` and `parseInt` are modelled on plain decimal strings; exponent forms, `Infinity` and the `0x` prefix that `parseInt` reads as hexadecimal are not.

`utils/monteCarloManager.js`:

- Timeouts, `Promise.all` batches, the completion polling of `runSingleSimulation`/`checkCompletion`, `setCallbacks` and the callbacks themselves are not modelled.
- Results are appended in run order; in the source a batch's runs finish in any order.
- `Math.sin` and `Math.sqrt` are parameters.
- The recommendation texts of `generateRecommendations` are not modelled.
- MonteCarlo.MonteCarloManager.Schedule: requires at least one worker when there are runs. With none the source computes `ceil(runs/0)` and never ends.
- The number of runs is a natural number.

`stores/results.js`:

- Report building from `Date.now()` and `navigator`, `exportReports`, `compareReports` and the stubs `analyzeDeviations`, `generateRecommendations` and `detectWarnings` are not modelled.
- The textual impact and concern fields are left out.
- The computed `latestReport` (the last report, or null) is not modelled.

`utils/scenarioTestManager.js`:

- ScenarioTests.ScenarioTestManager.constructor: starts with no suites. The default scenario catalogue of `initializeDefaultScenarios` is data, and suites are added with `AddTestSuite`.
- The mocks `simulateTest` and `extractMetrics` are an oracle parameter; their random numbers and `async` delay are not modelled.
- Messages, durations, `exportResults` and the getters `getTestSuites` and `getTestSuite` are not modelled.

`composables/useUpgradeFilters.js`:

- `getFilterSummary` and the formatting helpers are not modelled: they produce text and icons.
- The option lists `availableVendors`, `availableCategories` and `availableStatuses` are not modelled: they are fixed lists.
- Filter sets are values, so aliasing is not modelled. `applyPreset` (`composables/useUpgradeFilters.js:196-199`) assigns the preset's own `special` and `affordability` objects (presets at lines 53-74) to the active filters, so a later `toggleSpecial` or `toggleAffordability` (lines 274 and 281) also changes the stored preset; in the model a preset never changes.
- The `criticalPath` special filter is a TODO in the source and is not checked.

`utils/workerManager.js`:

- Promises, timeouts and the values they resolve to are not modelled.
- The worker's error listener is not modelled.
- Creating the `Worker` is not modelled; posted messages go to an output log.
- A handler that throws is modelled as having no effect.
- The getters `getLatestState` and `getPerformanceMetrics` are not modelled.

## Findings

| source | as written | input that shows it | evidently intended | confidence | as-written member | corrected member |
|---|---|---|---|---|---|---|
| time-hero-simulator/src/utils/monteCarloManager.js:389-391 | `finalResources` is a list of resource objects, handed to `calculateDistributions`, which expects lists of numbers | any set of runs in which one run reported a state update | a distribution per resource over the runs | not executed | `MonteCarlo.OneReadingThrows` | `MonteCarlo.ResourceDistsSpec`, used by `MonteCarlo.MonteCarloManager.Start` |
| time-hero-simulator/src/composables/useUpgradeFilters.js:188-201 | `presets[name]` also finds `Object.prototype` members | `applyPreset('toString')` | an unknown name changes nothing | not executed | `UpgradeFilters.InheritedPresetThrows` | `UpgradeFilters.ApplyPresetSpec` |
| time-hero-simulator/src/workers/simulator.worker.js:309-311 | `messageHandlers[type]` also finds `Object.prototype` members | a message of type `toString` | an unknown type is answered with an error | not executed | `SimulatorWorker.InheritedTypeSwallowed` | `SimulatorWorker.RouteSpec`, used by `SimulatorWorker.Worker.Receive` |
| time-hero-simulator/src/stores/simulation.js:847-856 | `gameValues.getUpgrade` is called, but the game-values store defines no `getUpgrade` | `purchaseUpgrade` with any id | look the upgrade up in the catalogue | not executed | `Simulation.UpgradeLookupThrows` | `Simulation.SimulationStore.PurchaseUpgrade` |
| time-hero-simulator/src/utils/simulationEngine.js:330-359 | `processGolemHarvesting` reads `gameValues`, which is not in its scope | a working golem and a plot with a crop at stage 3 | harvest with the crop catalogue the tick is given | not executed | `Engine.GolemWithReadyPlotThrows` | `Engine.GolemHarvests`, used by `Engine.HelpersRunSpec`, `Engine.GameState.ProcessHelpers`, `Engine.GameState.RestOfTick` and `Engine.GameState.SimulateGameTick` |
