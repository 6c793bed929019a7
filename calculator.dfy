/**
 * Cost logic of the upgrade tree: material-cost strings, the parsed costs of an upgrade,
 * affordability against the player's resources, the time until an upgrade becomes
 * affordable at the current income, the total cost of a path and the recommendation list.
 */
module Calculator {
  import opened Common
  import opened Sorting
  import opened Upgrades

  // ---------------------------------------------------------------- parsing

  /** One `material:amount` piece; None when the name or the amount is missing. */
  function MaterialEntry(part: string): Option<(string, int)>
  {
    var pieces := Split(part, ':');
    var material := Trim(pieces[0]);
    if |pieces| < 2 then None
    else
      var amount := Trim(pieces[1]);
      if material == [] || amount == [] then None
      else Some((material, OrDefault(ParseInt(amount), 0)))
  }

  /** The pieces of a cost string, each parsed on its own. */
  function EntriesOf(parts: seq<string>): (r: seq<Option<(string, int)>>)
    ensures |r| == |parts|
  {
    if parts == [] then [] else [MaterialEntry(parts[0])] + EntriesOf(parts[1..])
  }

  lemma {:induction false} EntriesOfAt(parts: seq<string>)
    ensures forall i :: 0 <= i < |parts| ==> EntriesOf(parts)[i] == MaterialEntry(parts[i])
  {
    if parts != [] {
      EntriesOfAt(parts[1..]);
    }
  }

  /** `parts.forEach(part => { … materials[material] = … })`: a later key overwrites. */
  function PutEntries(entries: seq<Option<(string, int)>>, acc: Obj<int>): (r: Obj<int>)
    requires DistinctKeys(acc)
    ensures DistinctKeys(r)
  {
    if entries == [] then acc
    else
      match entries[0]
      case None => PutEntries(entries[1..], acc)
      case Some(e) =>
        PutKeepsDistinct(acc, e.0, e.1);
        PutEntries(entries[1..], Put(acc, e.0, e.1))
  }

  /** `parseMaterials(materialsString)` */
  function ParseMaterials(s: string): (r: Obj<int>)
    ensures Blank(s) ==> r == []
    ensures DistinctKeys(r)
  {
    TrimSpec(s);
    if s == [] || Trim(s) == [] then [] else PutEntries(EntriesOf(Tokens(s, ';')), [])
  }

  /** The canonical text of a cost list: `name:amount` pieces joined with `;`. */
  function FormatEntry(e: (string, int)): string
    requires e.1 >= 0
  {
    e.0 + ":" + NatToString(e.1)
  }

  /** The pieces of a cost list, one `name:amount` per entry. */
  function Pieces(es: Obj<int>): (r: seq<string>)
    requires forall i :: 0 <= i < |es| ==> es[i].1 >= 0
    ensures |r| == |es|
    ensures forall i :: 0 <= i < |es| ==> r[i] == FormatEntry(es[i])
  {
    if es == [] then [] else [FormatEntry(es[0])] + Pieces(es[1..])
  }

  function FormatMaterials(es: Obj<int>): string
    requires forall i :: 0 <= i < |es| ==> es[i].1 >= 0
  {
    Join(Pieces(es), ";")
  }

  /** A material name that survives the round trip: non-empty, trimmed, no `;` or `:`. */
  predicate PlainName(n: string)
  {
    n != [] && !IsSpace(n[0]) && !IsSpace(n[|n| - 1]) && ';' !in n && ':' !in n
  }

  lemma EntryRoundTrip(e: (string, int))
    requires PlainName(e.0) && e.1 >= 0
    ensures MaterialEntry(FormatEntry(e)) == Some(e)
  {
    var digits := NatToString(e.1);
    assert Join([e.0, digits], [':']) == FormatEntry(e);
    SplitJoin([e.0, digits], ':');
    TrimNoEdges(e.0);
    TrimNoEdges(digits);
    ParseIntOfNatToString(e.1);
  }

  function Somes(es: Obj<int>): (r: seq<Option<(string, int)>>)
    ensures |r| == |es| && forall i :: 0 <= i < |es| ==> r[i] == Some(es[i])
  {
    seq(|es|, i requires 0 <= i < |es| => Some(es[i]))
  }

  /** No key of `acc` is a key of `es`. */
  predicate KeysApart(acc: Obj<int>, es: Obj<int>)
  {
    forall i, j :: 0 <= i < |acc| && 0 <= j < |es| ==> acc[i].0 != es[j].0
  }

  /** Putting fresh, distinct entries one after another appends them. */
  lemma {:induction false} PutSomes(es: Obj<int>, acc: Obj<int>)
    requires DistinctKeys(es) && DistinctKeys(acc) && KeysApart(acc, es)
    ensures PutEntries(Somes(es), acc) == acc + es
  {
    if es != [] {
      var acc' := acc + [es[0]];
      var rest := es[1..];
      PutSomesStep(es, acc);
      MoveKey(es, acc);
      PutSomes(rest, acc');
      ShiftHead(acc, es);
    }
  }

  /** The first fresh entry is appended to `acc`. */
  lemma PutSomesStep(es: Obj<int>, acc: Obj<int>)
    requires es != [] && DistinctKeys(acc) && KeysApart(acc, es)
    ensures DistinctKeys(acc + [es[0]])
    ensures PutEntries(Somes(es), acc) == PutEntries(Somes(es[1..]), acc + [es[0]])
  {
    GetSome(acc, es[0].0);
    PutFresh(acc, es[0].0, es[0].1);
    PutKeepsDistinct(acc, es[0].0, es[0].1);
    assert Somes(es)[1..] == Somes(es[1..]);
  }

  /** Moving the first key of `es` to the end of `acc` keeps the two apart. */
  lemma MoveKey(es: Obj<int>, acc: Obj<int>)
    requires es != [] && DistinctKeys(es) && KeysApart(acc, es)
    ensures DistinctKeys(es[1..]) && KeysApart(acc + [es[0]], es[1..])
  {
    var acc' := acc + [es[0]];
    forall i, j | 0 <= i < |acc'| && 0 <= j < |es| - 1 ensures acc'[i].0 != es[1..][j].0 {
      if i < |acc| { assert acc'[i] == acc[i]; } else { assert es[1..][j] == es[j + 1]; }
    }
  }

  /** Each canonical piece parses back to its entry. */
  lemma EntriesOfPieces(es: Obj<int>)
    requires forall i :: 0 <= i < |es| ==> PlainName(es[i].0) && es[i].1 >= 0
    ensures EntriesOf(Pieces(es)) == Somes(es)
  {
    EntriesOfAt(Pieces(es));
    forall i | 0 <= i < |es| ensures EntriesOf(Pieces(es))[i] == Some(es[i]) {
      EntryRoundTrip(es[i]);
    }
  }

  /** Each piece is non-empty, trimmed and free of `;`. */
  lemma PiecesPlain(es: Obj<int>)
    requires forall i :: 0 <= i < |es| ==> PlainName(es[i].0) && es[i].1 >= 0
    ensures forall i :: 0 <= i < |es| ==> Pieces(es)[i] != [] && ';' !in Pieces(es)[i]
    ensures forall i :: 0 <= i < |es| ==>
      !IsSpace(Pieces(es)[i][0]) && !IsSpace(Pieces(es)[i][|Pieces(es)[i]| - 1])
  {
    var parts := Pieces(es);
    forall i | 0 <= i < |parts|
      ensures parts[i] != [] && ';' !in parts[i]
      ensures !IsSpace(parts[i][0]) && !IsSpace(parts[i][|parts[i]| - 1])
    {
      var d := NatToString(es[i].1);
      assert parts[i] == es[i].0 + ":" + d;
      assert parts[i][0] == es[i].0[0];
      assert parts[i][|parts[i]| - 1] == d[|d| - 1];
      assert ';' !in d by { assert forall j :: 0 <= j < |d| ==> IsDigit(d[j]); }
    }
  }

  /** Parsing the canonical text of a list with distinct plain names gives the list back. */
  lemma ParseFormatted(es: Obj<int>)
    requires forall i :: 0 <= i < |es| ==> PlainName(es[i].0) && es[i].1 >= 0
    requires DistinctKeys(es)
    ensures ParseMaterials(FormatMaterials(es)) == es
  {
    var parts := Pieces(es);
    if es == [] {
      assert FormatMaterials(es) == [];
    } else {
      PiecesPlain(es);
      TokensOfJoin(parts, ';');
      var s := FormatMaterials(es);
      assert !Blank(s) by { JoinHead(parts, ";"); }
      TrimSpec(s);
      EntriesOfPieces(es);
      PutSomes(es, []);
    }
  }

  /** A join of pieces starts with the first piece. */
  lemma JoinHead(parts: seq<string>, sep: string)
    requires parts != [] && parts[0] != []
    ensures Join(parts, sep) != [] && Join(parts, sep)[0] == parts[0][0]
  {
  }

  /** The documented examples. */
  lemma ParseMaterialsExamples(s1: string, s2: string)
    requires s1 == "stone:5" && s2 == "wood:100;iron:5"
    ensures ParseMaterials(s1) == [("stone", 5)]
    ensures ParseMaterials(s2) == [("wood", 100), ("iron", 5)]
    ensures ParseMaterials("") == []
  {
    var e1: Obj<int> := [("stone", 5)];
    ExampleOne(e1);
    assert FormatMaterials(e1) == s1;
    ParseFormatted(e1);
    var e2: Obj<int> := [("wood", 100), ("iron", 5)];
    ExampleTwo(e2);
    assert FormatMaterials(e2) == s2;
    ParseFormatted(e2);
  }

  lemma ExampleOne(e: Obj<int>)
    requires e == [("stone", 5)]
    ensures forall i :: 0 <= i < |e| ==> PlainName(e[i].0) && e[i].1 >= 0
    ensures DistinctKeys(e)
    ensures FormatMaterials(e) == "stone:5"
  {
    assert NatToString(5) == "5";
    assert FormatEntry(e[0]) == "stone:5";
    assert Pieces(e) == ["stone:5"];
  }

  lemma ExampleTwo(e: Obj<int>)
    requires e == [("wood", 100), ("iron", 5)]
    ensures forall i :: 0 <= i < |e| ==> PlainName(e[i].0) && e[i].1 >= 0
    ensures DistinctKeys(e)
    ensures FormatMaterials(e) == "wood:100;iron:5"
  {
    assert NatToString(5) == "5";
    assert NatToString(100) == "100" by { assert NatToString(10) == "10"; }
    assert FormatEntry(e[0]) == "wood:100";
    assert FormatEntry(e[1]) == "iron:5";
    var ps := Pieces(e);
    assert ps == ["wood:100", "iron:5"];
    assert ps[1..] == ["iron:5"];
    assert Join(ps[1..], ";") == "iron:5";
    assert Join(ps, ";") == "wood:100" + ";" + "iron:5";
  }

  /** The last value the pieces write for `k`, or `current` when none names it. */
  function LastValue(entries: seq<Option<(string, int)>>, k: string, current: Option<int>): Option<int>
  {
    if entries == [] then current
    else
      var e := entries[0];
      LastValue(entries[1..], k, if e.Some? && e.value.0 == k then Some(e.value.1) else current)
  }

  lemma {:induction false} PutEntriesLast(entries: seq<Option<(string, int)>>, acc: Obj<int>, k: string)
    requires DistinctKeys(acc)
    ensures Get(PutEntries(entries, acc), k) == LastValue(entries, k, Get(acc, k))
  {
    if entries != [] {
      var e := entries[0];
      if e.Some? {
        PutKeepsDistinct(acc, e.value.0, e.value.1);
        PutEntriesLast(entries[1..], Put(acc, e.value.0, e.value.1), k);
      } else {
        PutEntriesLast(entries[1..], acc, k);
      }
    }
  }

  /** When a material is named twice the later amount wins. */
  lemma ParseMaterialsLast(s: string, k: string)
    requires !Blank(s)
    ensures Get(ParseMaterials(s), k) == LastValue(EntriesOf(Tokens(s, ';')), k, None)
  {
    TrimSpec(s);
    PutEntriesLast(EntriesOf(Tokens(s, ';')), [], k);
  }

  datatype Costs = Costs(gold: int, energy: int, materials: Obj<int>, bossMaterials: Obj<int>)

  /** `parseUpgradeCosts(upgrade)` */
  function ParseUpgradeCosts(u: Upgrade): (r: Costs)
    ensures DistinctKeys(r.materials) && DistinctKeys(r.bossMaterials)
  {
    Costs(OrDefault(ParseInt(u.goldCost), 0), OrDefault(ParseInt(u.energyCost), 0),
          ParseMaterials(u.materials), ParseMaterials(u.bossMaterials))
  }

  /** A cost that is not a number reads as 0, and a written number reads as itself. */
  lemma ParseUpgradeCostsDefaults(u: Upgrade)
    ensures ParseInt(u.goldCost).None? ==> ParseUpgradeCosts(u).gold == 0
    ensures ParseInt(u.energyCost).None? ==> ParseUpgradeCosts(u).energy == 0
    ensures forall n: nat :: u.goldCost == NatToString(n) ==> ParseUpgradeCosts(u).gold == n
    ensures forall n: nat :: u.energyCost == NatToString(n) ==> ParseUpgradeCosts(u).energy == n
  {
    forall n: nat | u.goldCost == NatToString(n) ensures ParseUpgradeCosts(u).gold == n {
      ParseIntOfNatToString(n);
    }
    forall n: nat | u.energyCost == NatToString(n) ensures ParseUpgradeCosts(u).energy == n {
      ParseIntOfNatToString(n);
    }
  }

  // ---------------------------------------------------------------- affordability

  /** `resources.materials?.[material] || 0` */
  function Avail(m: map<string, real>, k: string): real
  {
    if k in m then m[k] else 0.0
  }

  /** The amount an object holds for `k`, 0 when absent. */
  function Amount(o: Obj<int>, k: string): int
  {
    match Get(o, k)
    case None => 0
    case Some(v) => v
  }

  datatype MissingResources = MissingResources(
    gold: Option<real>,
    energy: Option<real>,
    materials: Option<Obj<real>>,
    bossMaterials: Option<Obj<real>>)

  datatype Affordability = Affordability(canAfford: bool, missing: MissingResources, totalShortfall: real)

  /** `Object.entries(costs.materials).forEach(…)`: the object of shortfalls, created on the
      first one. */
  function Shortfalls(entries: Obj<int>, have: map<string, real>, acc: Option<Obj<real>>): Option<Obj<real>>
  {
    if entries == [] then acc
    else
      var k := entries[0].0;
      var required := entries[0].1 as real;
      var available := Avail(have, k);
      Shortfalls(entries[1..], have,
        if required > available then Some(Put(if acc.Some? then acc.value else [], k, required - available))
        else acc)
  }

  /** The shortfall of material `k`: required − available when positive. */
  function ShortOf(entries: Obj<int>, have: map<string, real>, k: string): Option<real>
  {
    match Get(entries, k)
    case None => None
    case Some(v) => if v as real > Avail(have, k) then Some(v as real - Avail(have, k)) else None
  }

  function GetIn(acc: Option<Obj<real>>, k: string): Option<real>
  {
    if acc.None? then None else Get(acc.value, k)
  }

  lemma {:induction false} ShortfallsSpec(entries: Obj<int>, have: map<string, real>, acc: Option<Obj<real>>, k: string)
    requires DistinctKeys(entries)
    ensures GetIn(Shortfalls(entries, have, acc), k) == (if ShortOf(entries, have, k).Some? then ShortOf(entries, have, k) else GetIn(acc, k))
    ensures Shortfalls(entries, have, acc).None? <==>
      acc.None? && forall i :: 0 <= i < |entries| ==> entries[i].1 as real <= Avail(have, entries[i].0)
  {
    if entries != [] {
      var k0 := entries[0].0;
      var required := entries[0].1 as real;
      var available := Avail(have, k0);
      var acc' := if required > available then Some(Put(if acc.Some? then acc.value else [], k0, required - available)) else acc;
      ShortfallsSpec(entries[1..], have, acc', k);
      assert Get(entries[1..], k0).None? by {
        GetSome(entries[1..], k0);
      }
      if k != k0 {
        assert Get(entries, k) == Get(entries[1..], k);
      }
      assert forall i :: 1 <= i < |entries| ==> entries[i] == entries[1..][i - 1];
    }
  }

  /** `canAffordUpgrade(upgrade, resources)` */
  function CanAffordUpgrade(u: Upgrade, res: Resources): Affordability
  {
    CanAffordCosts(ParseUpgradeCosts(u), res)
  }

  /** The body of `canAffordUpgrade` once the costs are parsed. */
  function CanAffordCosts(costs: Costs, res: Resources): Affordability
  {
    var goldShort := costs.gold as real > res.gold;
    var energyShort := costs.energy as real > res.energy;
    var mats := Shortfalls(costs.materials, res.materials, None);
    var boss := Shortfalls(costs.bossMaterials, res.bossMaterials, None);
    Affordability(
      !goldShort && !energyShort && mats.None? && boss.None?,
      MissingResources(
        if goldShort then Some(costs.gold as real - res.gold) else None,
        if energyShort then Some(costs.energy as real - res.energy) else None,
        mats, boss),
      if goldShort then costs.gold as real - res.gold else 0.0)
  }

  /** Every cost is covered by what the player holds. */
  ghost predicate Covers(costs: Costs, res: Resources)
  {
    costs.gold as real <= res.gold && costs.energy as real <= res.energy
    && CoveredBy(costs.materials, res.materials)
    && CoveredBy(costs.bossMaterials, res.bossMaterials)
  }

  /** Every listed material is held in at least the listed amount. */
  ghost predicate CoveredBy(entries: Obj<int>, have: map<string, real>)
  {
    forall k :: Get(entries, k).Some? ==> Get(entries, k).value as real <= Avail(have, k)
  }

  lemma ShortfallNone(entries: Obj<int>, have: map<string, real>)
    requires DistinctKeys(entries)
    ensures Shortfalls(entries, have, None).None? <==> CoveredBy(entries, have)
  {
    ShortfallsSpec(entries, have, None, "");
    if forall i :: 0 <= i < |entries| ==> entries[i].1 as real <= Avail(have, entries[i].0) {
      forall k | Get(entries, k).Some? ensures Get(entries, k).value as real <= Avail(have, k) {
        GetSome(entries, k);
        var i :| 0 <= i < |entries| && entries[i].0 == k;
        GetDistinct(entries, i);
      }
    }
    if CoveredBy(entries, have) {
      forall i | 0 <= i < |entries| ensures entries[i].1 as real <= Avail(have, entries[i].0) {
        GetDistinct(entries, i);
      }
    }
  }

  /** The costs are affordable exactly when every one is covered; each missing amount is the
      exact shortfall of that resource, reported only for resources that fall short; the total
      shortfall counts gold only. */
  lemma CanAffordSpec(costs: Costs, res: Resources)
    requires DistinctKeys(costs.materials) && DistinctKeys(costs.bossMaterials)
    ensures var a := CanAffordCosts(costs, res);
      && (a.canAfford <==> Covers(costs, res))
      && (a.missing.gold.Some? <==> costs.gold as real > res.gold)
      && (a.missing.gold.Some? ==> a.missing.gold.value == costs.gold as real - res.gold)
      && (a.missing.energy.Some? <==> costs.energy as real > res.energy)
      && (a.missing.energy.Some? ==> a.missing.energy.value == costs.energy as real - res.energy)
      && (forall k :: GetIn(a.missing.materials, k) == ShortOf(costs.materials, res.materials, k))
      && (forall k :: GetIn(a.missing.bossMaterials, k) == ShortOf(costs.bossMaterials, res.bossMaterials, k))
      && a.totalShortfall == (if costs.gold as real > res.gold then costs.gold as real - res.gold else 0.0)
  {
    ShortfallNone(costs.materials, res.materials);
    ShortfallNone(costs.bossMaterials, res.bossMaterials);
    forall k ensures GetIn(CanAffordCosts(costs, res).missing.materials, k) == ShortOf(costs.materials, res.materials, k) {
      ShortfallsSpec(costs.materials, res.materials, None, k);
    }
    forall k ensures GetIn(CanAffordCosts(costs, res).missing.bossMaterials, k) == ShortOf(costs.bossMaterials, res.bossMaterials, k) {
      ShortfallsSpec(costs.bossMaterials, res.bossMaterials, None, k);
    }
  }

  // ---------------------------------------------------------------- time to afford

  /** A number of hours, or `Infinity`. */
  datatype Hours = Finite(h: real) | Infinite

  datatype Bottleneck = GoldBottleneck | EnergyBottleneck | MaterialsBottleneck | BossMaterialsBottleneck

  datatype TimeToAfford = TimeToAfford(canAffordNow: bool, timeInHours: Hours, timeFormatted: string, bottleneck: Option<Bottleneck>)

  /** `calculateTimeToAfford(upgrade, resources, incomeRates)` */
  function CalculateTimeToAfford(u: Upgrade, res: Resources, rates: IncomeRates): TimeToAfford
  {
    var e := TimeFrom(CanAffordUpgrade(u, res), rates);
    TimeToAfford(e.canAffordNow, e.hours, Describe(e), e.bottleneck)
  }

  /** The result of `calculateTimeToAfford` without its text. */
  datatype Estimate = Estimate(canAffordNow: bool, hours: Hours, bottleneck: Option<Bottleneck>)

  /** The body of `calculateTimeToAfford`, from the affordability it computes first. The
      largest time starts at 0 and a resource replaces it only when strictly longer. */
  function TimeFrom(a: Affordability, rates: IncomeRates): Estimate
  {
    if a.canAfford then Estimate(true, Finite(0.0), None)
    else
      var g := a.missing.gold;
      if g.Some? && rates.goldPerHour <= 0.0 then Estimate(false, Infinite, Some(GoldBottleneck))
      else
        var gt: real := if g.Some? then g.value / rates.goldPerHour else 0.0;
        var t1 := if g.Some? && gt > 0.0 then gt else 0.0;
        var b1 := if g.Some? && gt > 0.0 then Some(GoldBottleneck) else None;
        var e := a.missing.energy;
        if e.Some? && rates.energyPerHour <= 0.0 then Estimate(false, Infinite, Some(EnergyBottleneck))
        else
          var et: real := if e.Some? then e.value / rates.energyPerHour else 0.0;
          var t2 := if e.Some? && et > t1 then et else t1;
          var b2 := if e.Some? && et > t1 then Some(EnergyBottleneck) else b1;
          if a.missing.materials.Some? then Estimate(false, Infinite, Some(MaterialsBottleneck))
          else if a.missing.bossMaterials.Some? then Estimate(false, Infinite, Some(BossMaterialsBottleneck))
          else Estimate(false, Finite(t2), b2)
  }

  /** The `timeFormatted` text each return of `calculateTimeToAfford` carries. */
  function Describe(e: Estimate): string
  {
    if e.canAffordNow then "Available now"
    else
      match e.bottleneck
      case Some(GoldBottleneck) => if e.hours.Infinite? then "Never (no gold income)" else FormatTime(e.hours)
      case Some(EnergyBottleneck) => if e.hours.Infinite? then "Never (no energy regen)" else FormatTime(e.hours)
      case Some(MaterialsBottleneck) => "Manual materials needed"
      case Some(BossMaterialsBottleneck) => "Boss materials needed"
      case None => FormatTime(e.hours)
  }

  /** What `canAffordUpgrade` guarantees of its result: affordable exactly when nothing is
      missing, and every missing gold or energy amount positive. */
  ghost predicate Consistent(a: Affordability)
  {
    (a.canAfford <==> a.missing.gold.None? && a.missing.energy.None? && a.missing.materials.None? && a.missing.bossMaterials.None?)
    && (a.missing.gold.Some? ==> a.missing.gold.value > 0.0)
    && (a.missing.energy.Some? ==> a.missing.energy.value > 0.0)
  }

  lemma CanAffordConsistent(costs: Costs, res: Resources)
    ensures Consistent(CanAffordCosts(costs, res))
  {
  }

  /** The resources after `t` hours of income (materials are not produced). */
  function After(res: Resources, rates: IncomeRates, t: real): Resources
  {
    res.(gold := res.gold + t * rates.goldPerHour, energy := res.energy + t * rates.energyPerHour)
  }

  /** Waiting changes only gold and energy, so only their tests change. */
  lemma AffordAfter(costs: Costs, res: Resources, rates: IncomeRates, t: real)
    ensures var a := CanAffordCosts(costs, res);
      CanAffordCosts(costs, After(res, rates, t)).canAfford <==>
        (costs.gold as real <= res.gold + t * rates.goldPerHour
         && costs.energy as real <= res.energy + t * rates.energyPerHour
         && a.missing.materials.None? && a.missing.bossMaterials.None?)
  {
    assert After(res, rates, t).materials == res.materials;
    assert After(res, rates, t).bossMaterials == res.bossMaterials;
  }

  /** Affordable now: time 0, no bottleneck. */
  lemma TimeToAffordNow(u: Upgrade, res: Resources, rates: IncomeRates)
    ensures var r := CalculateTimeToAfford(u, res, rates);
      && (r.canAffordNow <==> CanAffordUpgrade(u, res).canAfford)
      && (r.canAffordNow ==> r.timeInHours == Finite(0.0) && r.bottleneck.None? && r.timeFormatted == "Available now")
  {
  }

  /** The time is infinite exactly when a missing resource has no income, the first such in
      the order gold, energy, materials, boss materials being the bottleneck. */
  lemma TimeFromInfinite(a: Affordability, rates: IncomeRates)
    requires Consistent(a)
    ensures var r := TimeFrom(a, rates);
      var noGold := a.missing.gold.Some? && rates.goldPerHour <= 0.0;
      var noEnergy := a.missing.energy.Some? && rates.energyPerHour <= 0.0;
      && (r.hours.Infinite? <==> noGold || noEnergy || a.missing.materials.Some? || a.missing.bossMaterials.Some?)
      && (r.hours.Infinite? ==>
            r.bottleneck == Some(
              if noGold then GoldBottleneck
              else if noEnergy then EnergyBottleneck
              else if a.missing.materials.Some? then MaterialsBottleneck
              else BossMaterialsBottleneck))
  {
  }

  /** A finite time that is not "now" is the longer of the gold and the energy waits, gold
      winning a tie, and that resource is the bottleneck. */
  lemma TimeFromFinite(a: Affordability, rates: IncomeRates)
    requires Consistent(a)
    requires var r := TimeFrom(a, rates); !r.canAffordNow && r.hours.Finite?
    ensures a.missing.materials.None? && a.missing.bossMaterials.None?
    ensures var t := TimeFrom(a, rates).hours.h;
      var b := TimeFrom(a, rates).bottleneck;
      var g := a.missing.gold;
      var e := a.missing.energy;
      && t > 0.0
      && (g.Some? ==> rates.goldPerHour > 0.0 && g.value / rates.goldPerHour <= t)
      && (e.Some? ==> rates.energyPerHour > 0.0 && e.value / rates.energyPerHour <= t)
      && ((b == Some(GoldBottleneck) && g.Some? && t == g.value / rates.goldPerHour)
          || (b == Some(EnergyBottleneck) && e.Some? && t == e.value / rates.energyPerHour
              && (g.Some? ==> g.value / rates.goldPerHour < t)))
  {
    var g := a.missing.gold;
    var e := a.missing.energy;
    if g.Some? {
      assert g.value / rates.goldPerHour > 0.0 by { PositiveQuotient(g.value, rates.goldPerHour); }
    }
    if e.Some? {
      assert e.value / rates.energyPerHour > 0.0 by { PositiveQuotient(e.value, rates.energyPerHour); }
    }
  }

  lemma PositiveQuotient(m: real, r: real)
    requires m > 0.0 && r > 0.0
    ensures m / r > 0.0
  {
  }

  /** An infinite time means no wait makes the upgrade affordable. */
  lemma TimeToAffordInfinite(costs: Costs, res: Resources, rates: IncomeRates, t: real)
    requires TimeFrom(CanAffordCosts(costs, res), rates).hours.Infinite?
    requires t >= 0.0
    ensures !CanAffordCosts(costs, After(res, rates, t)).canAfford
  {
    var a := CanAffordCosts(costs, res);
    CanAffordConsistent(costs, res);
    TimeFromInfinite(a, rates);
    AffordAfter(costs, res, rates, t);
    if a.missing.gold.Some? && rates.goldPerHour <= 0.0 {
      NonPosProduct(t, rates.goldPerHour);
    } else if a.missing.energy.Some? && rates.energyPerHour <= 0.0 {
      NonPosProduct(t, rates.energyPerHour);
    }
  }

  lemma NonNegProduct(t: real, r: real)
    requires t >= 0.0 && r >= 0.0
    ensures t * r >= 0.0
  {
  }

  lemma NonPosProduct(t: real, r: real)
    requires t >= 0.0 && r <= 0.0
    ensures t * r <= 0.0
  {
  }

  /** A finite time `t` is exactly enough: with income that does not drain resources, the
      costs are affordable after `t` hours and not after any shorter wait. */
  lemma TimeToAffordFinite(costs: Costs, res: Resources, rates: IncomeRates)
    requires rates.goldPerHour >= 0.0 && rates.energyPerHour >= 0.0
    requires var r := TimeFrom(CanAffordCosts(costs, res), rates); !r.canAffordNow && r.hours.Finite?
    ensures var t := TimeFrom(CanAffordCosts(costs, res), rates).hours.h;
      t > 0.0 && CanAffordCosts(costs, After(res, rates, t)).canAfford
    ensures var t := TimeFrom(CanAffordCosts(costs, res), rates).hours.h;
      forall t' :: 0.0 <= t' < t ==> !CanAffordCosts(costs, After(res, rates, t')).canAfford
  {
    var a := CanAffordCosts(costs, res);
    var t := TimeFrom(a, rates).hours.h;
    TimeSuffices(costs, res, rates, a, t);
    TimeNeeded(costs, res, rates, a, t);
  }

  /** The finite wait of `TimeFrom` makes the costs affordable. */
  lemma TimeSuffices(costs: Costs, res: Resources, rates: IncomeRates, a: Affordability, t: real)
    requires rates.goldPerHour >= 0.0 && rates.energyPerHour >= 0.0
    requires a == CanAffordCosts(costs, res)
    requires !TimeFrom(a, rates).canAffordNow && TimeFrom(a, rates).hours == Finite(t)
    ensures t > 0.0 && CanAffordCosts(costs, After(res, rates, t)).canAfford
  {
    CanAffordConsistent(costs, res);
    TimeFromFinite(a, rates);
    AffordAfter(costs, res, rates, t);
    Covered(costs.gold as real, res.gold, rates.goldPerHour, t);
    Covered(costs.energy as real, res.energy, rates.energyPerHour, t);
  }

  /** One resource after `t` hours at rate `r`: a shortfall earned back within `t` hours, or
      none, leaves the cost covered. */
  lemma Covered(cost: real, have: real, r: real, t: real)
    requires r >= 0.0 && t > 0.0
    requires cost > have ==> r > 0.0 && (cost - have) / r <= t
    ensures cost <= have + t * r
  {
    if cost > have {
      Enough(cost - have, r, t);
    } else {
      NonNegProduct(t, r);
    }
  }

  /** No shorter wait than the finite wait of `TimeFrom` makes the costs affordable. */
  lemma TimeNeeded(costs: Costs, res: Resources, rates: IncomeRates, a: Affordability, t: real)
    requires rates.goldPerHour >= 0.0 && rates.energyPerHour >= 0.0
    requires a == CanAffordCosts(costs, res)
    requires !TimeFrom(a, rates).canAffordNow && TimeFrom(a, rates).hours == Finite(t)
    ensures forall t' :: 0.0 <= t' < t ==> !CanAffordCosts(costs, After(res, rates, t')).canAfford
  {
    CanAffordConsistent(costs, res);
    TimeFromFinite(a, rates);
    forall t' | 0.0 <= t' < t ensures !CanAffordCosts(costs, After(res, rates, t')).canAfford {
      AffordAfter(costs, res, rates, t');
      if TimeFrom(a, rates).bottleneck == Some(GoldBottleneck) {
        NotEnough(a.missing.gold.value, rates.goldPerHour, t');
      } else {
        NotEnough(a.missing.energy.value, rates.energyPerHour, t');
      }
    }
  }

  /** Waiting at least `m / r` hours at rate `r` earns `m`. */
  lemma Enough(m: real, r: real, t: real)
    requires m > 0.0 && r > 0.0 && t >= m / r
    ensures t * r >= m
  {
    assert t * r >= (m / r) * r;
  }

  /** Waiting less than `m / r` hours at rate `r` does not. */
  lemma NotEnough(m: real, r: real, t: real)
    requires m > 0.0 && r > 0.0 && 0.0 <= t < m / r
    ensures t * r < m
  {
    assert t * r < (m / r) * r;
  }

  /** JavaScript's `Math.ceil`. */
  function Ceil(x: real): int
  {
    -((-x).Floor)
  }

  /** `formatTime(hours)` */
  function FormatTime(hours: Hours): string
  {
    match hours
    case Infinite => "Never"
    case Finite(h) =>
      if h == 0.0 then "Now"
      else if h < 1.0 then IntToString(Ceil(h * 60.0)) + "m"
      else if h < 24.0 then
        var whole := h.Floor;
        var minutes := Ceil((h - whole as real) * 60.0);
        if minutes == 0 then IntToString(whole) + "h"
        else IntToString(whole) + "h " + IntToString(minutes) + "m"
      else
        var days := (h / 24.0).Floor;
        var remaining := (h - 24.0 * days as real).Floor;
        if remaining == 0 then IntToString(days) + "d"
        else IntToString(days) + "d " + IntToString(remaining) + "h"
  }

  /** The special cases, and whole hours and whole days in their short forms. */
  lemma FormatTimeCases(n: nat)
    ensures FormatTime(Infinite) == "Never" && FormatTime(Finite(0.0)) == "Now"
    ensures 1 <= n < 24 ==> FormatTime(Finite(n as real)) == NatToString(n) + "h"
    ensures n >= 1 ==> FormatTime(Finite(24.0 * n as real)) == NatToString(n) + "d"
  {
    if n >= 1 {
      assert (24.0 * n as real / 24.0) == n as real;
    }
  }

  // ---------------------------------------------------------------- path cost

  datatype TotalCost = TotalCost(gold: int, energy: int, materials: Obj<int>, bossMaterials: Obj<int>)

  const NoCost := TotalCost(0, 0, [], [])

  /** `Object.entries(add).forEach(([m, a]) => total[m] = (total[m] || 0) + a)` */
  function AddAmounts(total: Obj<int>, add: Obj<int>): Obj<int>
    decreases |add|
  {
    if add == [] then total
    else AddAmounts(Put(total, add[0].0, Amount(total, add[0].0) + add[0].1), add[1..])
  }

  lemma {:induction false} AddAmountsSpec(total: Obj<int>, add: Obj<int>, k: string)
    requires DistinctKeys(add)
    ensures Amount(AddAmounts(total, add), k) == Amount(total, k) + Amount(add, k)
    decreases |add|
  {
    if add != [] {
      var total' := Put(total, add[0].0, Amount(total, add[0].0) + add[0].1);
      assert DistinctKeys(add[1..]) by {
        forall i, j | 0 <= i < j < |add[1..]| ensures add[1..][i].0 != add[1..][j].0 {
          assert add[1..][i] == add[i + 1] && add[1..][j] == add[j + 1];
        }
      }
      AddAmountsSpec(total', add[1..], k);
      if k == add[0].0 {
        GetSome(add[1..], k);
        assert Get(add[1..], k).None?;
      }
    }
  }

  /** The parsed costs of the path's upgrades that the catalogue knows, in path order. */
  function KnownCosts(path: seq<string>, c: Catalogue): (r: seq<Costs>)
    ensures |r| <= |path|
    ensures forall i :: 0 <= i < |r| ==> DistinctKeys(r[i].materials) && DistinctKeys(r[i].bossMaterials)
  {
    if path == [] then []
    else (if path[0] in c.byId then [ParseUpgradeCosts(c.byId[path[0]])] else []) + KnownCosts(path[1..], c)
  }

  lemma {:induction false} KnownCostsConcat(a: seq<string>, b: seq<string>, c: Catalogue)
    ensures KnownCosts(a + b, c) == KnownCosts(a, c) + KnownCosts(b, c)
  {
    if a == [] {
      assert a + b == b;
    } else {
      assert (a + b)[0] == a[0];
      assert (a + b)[1..] == a[1..] + b;
      KnownCostsConcat(a[1..], b, c);
      var h := if a[0] in c.byId then [ParseUpgradeCosts(c.byId[a[0]])] else [];
      assert KnownCosts(a + b, c) == h + KnownCosts(a[1..] + b, c);
      assert h + (KnownCosts(a[1..], c) + KnownCosts(b, c)) == (h + KnownCosts(a[1..], c)) + KnownCosts(b, c);
    }
  }

  function AddCosts(acc: TotalCost, costs: Costs): TotalCost
  {
    TotalCost(acc.gold + costs.gold, acc.energy + costs.energy,
      AddAmounts(acc.materials, costs.materials), AddAmounts(acc.bossMaterials, costs.bossMaterials))
  }

  /** The `upgradePath.forEach` loop of `calculatePathCost` over the known upgrades. */
  function SumCosts(cs: seq<Costs>, acc: TotalCost): TotalCost
  {
    if cs == [] then acc else SumCosts(cs[1..], AddCosts(acc, cs[0]))
  }

  /** `calculatePathCost(upgradePath, allUpgrades)` */
  function CalculatePathCost(path: seq<string>, c: Catalogue): TotalCost
  {
    SumCosts(KnownCosts(path, c), NoCost)
  }

  /** The reference sums of a list of costs. */
  function SumGold(cs: seq<Costs>): int
  {
    if cs == [] then 0 else cs[0].gold + SumGold(cs[1..])
  }

  function SumEnergy(cs: seq<Costs>): int
  {
    if cs == [] then 0 else cs[0].energy + SumEnergy(cs[1..])
  }

  function SumMaterial(cs: seq<Costs>, k: string, boss: bool): int
  {
    if cs == [] then 0
    else Amount(if boss then cs[0].bossMaterials else cs[0].materials, k) + SumMaterial(cs[1..], k, boss)
  }

  lemma {:induction false} SumCostsSpec(cs: seq<Costs>, acc: TotalCost, k: string)
    requires forall i :: 0 <= i < |cs| ==> DistinctKeys(cs[i].materials) && DistinctKeys(cs[i].bossMaterials)
    ensures var r := SumCosts(cs, acc);
      && r.gold == acc.gold + SumGold(cs)
      && r.energy == acc.energy + SumEnergy(cs)
      && Amount(r.materials, k) == Amount(acc.materials, k) + SumMaterial(cs, k, false)
      && Amount(r.bossMaterials, k) == Amount(acc.bossMaterials, k) + SumMaterial(cs, k, true)
  {
    if cs != [] {
      AddAmountsSpec(acc.materials, cs[0].materials, k);
      AddAmountsSpec(acc.bossMaterials, cs[0].bossMaterials, k);
      assert forall i :: 0 <= i < |cs[1..]| ==> cs[1..][i] == cs[i + 1];
      SumCostsSpec(cs[1..], AddCosts(acc, cs[0]), k);
    }
  }

  /** The total is the component-wise sum of the costs of the path's known upgrades. */
  lemma PathCostSpec(path: seq<string>, c: Catalogue, k: string)
    ensures var r := CalculatePathCost(path, c);
      var cs := KnownCosts(path, c);
      && r.gold == SumGold(cs) && r.energy == SumEnergy(cs)
      && Amount(r.materials, k) == SumMaterial(cs, k, false)
      && Amount(r.bossMaterials, k) == SumMaterial(cs, k, true)
  {
    SumCostsSpec(KnownCosts(path, c), NoCost, k);
  }

  lemma {:induction false} SumsConcat(a: seq<Costs>, b: seq<Costs>, k: string, boss: bool)
    ensures SumGold(a + b) == SumGold(a) + SumGold(b)
    ensures SumEnergy(a + b) == SumEnergy(a) + SumEnergy(b)
    ensures SumMaterial(a + b, k, boss) == SumMaterial(a, k, boss) + SumMaterial(b, k, boss)
  {
    if a != [] {
      assert (a + b)[1..] == a[1..] + b;
      SumsConcat(a[1..], b, k, boss);
    } else {
      assert a + b == b;
    }
  }

  /** The cost of two paths one after the other is the sum of their costs. */
  lemma PathCostConcat(a: seq<string>, b: seq<string>, c: Catalogue, k: string)
    ensures var (ra, rb, rab) := (CalculatePathCost(a, c), CalculatePathCost(b, c), CalculatePathCost(a + b, c));
      && rab.gold == ra.gold + rb.gold && rab.energy == ra.energy + rb.energy
      && Amount(rab.materials, k) == Amount(ra.materials, k) + Amount(rb.materials, k)
      && Amount(rab.bossMaterials, k) == Amount(ra.bossMaterials, k) + Amount(rb.bossMaterials, k)
  {
    PathCostSpec(a, c, k);
    PathCostSpec(b, c, k);
    PathCostSpec(a + b, c, k);
    KnownCostsConcat(a, b, c);
    SumsConcat(KnownCosts(a, c), KnownCosts(b, c), k, false);
    SumsConcat(KnownCosts(a, c), KnownCosts(b, c), k, true);
  }

  // ---------------------------------------------------------------- recommendations

  /** `calculateUpgradePriority(upgrade, gameState, timeToAfford)` */
  function UpgradePriority(u: Upgrade, t: TimeToAfford): (r: real)
    ensures 0.0 <= r
    ensures (u.tier == [] || ParseInt(u.tier).None? || ParseInt(u.tier).value >= 0) ==> r <= 100.0 + 75.0 + 50.0 + 20.0
    ensures t.canAffordNow ==> r >= 100.0
  {
    var time := if t.canAffordNow then 100.0
      else if t.timeInHours.Finite? && t.timeInHours.h < 1.0 then 50.0
      else if t.timeInHours.Finite? && t.timeInHours.h < 24.0 then 25.0
      else 0.0;
    var shift := if u.category == "deeds" || Contains(u.name, "Auto") then 75.0 else 0.0;
    var infra := if u.category in ["storage", "water", "energy"] then 50.0 else 0.0;
    var tier := if u.tier != [] then TierBonus(u.tier) else 0.0;
    time + shift + infra + tier
  }

  /** `Math.max(0, 20 - parseInt(tier, 10) * 2)`: no upper clamp, so a negative tier earns more
      than 20; a tier that is not a number gives 0 here. */
  function TierBonus(tier: string): (r: real)
    ensures 0.0 <= r
    ensures ParseInt(tier).Some? ==> r == (if 20 - 2 * ParseInt(tier).value < 0 then 0.0 else (20 - 2 * ParseInt(tier).value) as real)
    ensures ParseInt(tier).Some? && ParseInt(tier).value >= 0 ==> r <= 20.0
    ensures ParseInt(tier).Some? && ParseInt(tier).value >= 10 ==> r == 0.0
  {
    match ParseInt(tier)
    case None => 0.0
    case Some(n) => if 20 - 2 * n < 0 then 0.0 else (20 - 2 * n) as real
  }

  datatype Recommendation = Recommendation(upgrade: Upgrade, timeToAfford: TimeToAfford, affordability: Affordability, priority: real)

  function PriorityOf(r: Recommendation): real { r.priority }

  /** The record `getUpgradeRecommendations` builds for one upgrade. */
  function Recommend(u: Upgrade, res: Resources, rates: IncomeRates): Recommendation
  {
    var t := CalculateTimeToAfford(u, res, rates);
    Recommendation(u, t, CanAffordUpgrade(u, res), UpgradePriority(u, t))
  }

  /** The unowned upgrades, each with its record. */
  function Candidates(us: seq<Upgrade>, gs: TreeState, res: Resources, rates: IncomeRates): (r: seq<Recommendation>)
    ensures forall x :: x in r ==> x.upgrade in us && x.upgrade.id !in gs.ownedUpgrades
    ensures forall x :: x in r ==> x == Recommend(x.upgrade, res, rates)
  {
    if us == [] then []
    else
      (if us[0].id !in gs.ownedUpgrades then [Recommend(us[0], res, rates)] else [])
      + Candidates(us[1..], gs, res, rates)
  }

  function FiniteOnly(rs: seq<Recommendation>): (r: seq<Recommendation>)
    ensures forall x :: x in r <==> x in rs && x.timeToAfford.timeInHours.Finite?
  {
    if rs == [] then []
    else (if rs[0].timeToAfford.timeInHours.Finite? then [rs[0]] else []) + FiniteOnly(rs[1..])
  }

  /** `.filter(rec => rec.timeToAfford.timeInHours < Infinity).sort(…).slice(0, 10)` */
  function TopTen(rs: seq<Recommendation>): (r: seq<Recommendation>)
    ensures |r| <= 10
    ensures forall x :: x in r ==> x in rs && x.timeToAfford.timeInHours.Finite?
    ensures NonIncreasing(r, PriorityOf)
  {
    Top(FiniteOnly(rs), PriorityOf, 10)
  }

  /** `getUpgradeRecommendations(allUpgrades, gameState, resources, incomeRates)`: at most ten
      catalogue upgrades, none owned and none that can never be afforded, by non-increasing
      priority, each with its own time, affordability and priority. */
  function GetUpgradeRecommendations(c: Catalogue, gs: TreeState, res: Resources, rates: IncomeRates): (r: seq<Recommendation>)
    requires WellFormed(c)
    ensures |r| <= 10
    ensures forall x :: x in r ==> x.upgrade.id in c.byId && c.byId[x.upgrade.id] == x.upgrade
    ensures forall x :: x in r ==> x.upgrade.id !in gs.ownedUpgrades && x.timeToAfford.timeInHours.Finite?
    ensures forall x :: x in r ==> x == Recommend(x.upgrade, res, rates)
    ensures NonIncreasing(r, PriorityOf)
  {
    ValuesMembership(c);
    TopTen(Candidates(Values(c), gs, res, rates))
  }

  /** Only the ten best are kept: every finite candidate left out ranks no higher than any
      kept one, and with fewer than ten finite candidates all are kept. */
  lemma TopTenKeepsBest(rs: seq<Recommendation>)
    ensures var all := SortDesc(FiniteOnly(rs), PriorityOf);
      var r := TopTen(rs);
      && r == all[..|r|]
      && (|all| <= 10 ==> r == all)
      && forall x, y :: x in all[|r|..] && y in r ==> x.priority <= y.priority
  {
    TopKeepsBest(FiniteOnly(rs), PriorityOf, 10);
  }
}
