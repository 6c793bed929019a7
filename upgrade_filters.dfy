// The upgrade-tree filters: three id sets with an 'all' member, a search term, affordability
// and special flags, presets, and the export/import pair.

module UpgradeFilters {
  import opened Common
  import opened Upgrades
  import Prerequisites
  import Calculator

  // ---------------------------------------------------------------- values

  /** A value held in one of the filter objects. */
  datatype Val = Flag(b: bool) | Text(s: string)

  /** JavaScript truthiness of a looked-up value; a missing key is `undefined`. */
  predicate Truthy(v: Option<Val>)
  {
    v.Some? && match v.value
      case Flag(b) => b
      case Text(s) => s != ""
  }

  /** `Object.values(o).some(Boolean)` */
  predicate AnyTruthy(o: Obj<Val>)
  {
    exists i :: 0 <= i < |o| && Truthy(Some(o[i].1))
  }

  /** The affordability filter starts out as the string 'all' and becomes an object of flags
      once reset. */
  datatype Affordability = AffText(s: string) | AffObject(o: Obj<Val>)

  /** `affordability[key]`: a string has no property of the flag names used here. */
  predicate AffFlag(a: Affordability, key: string)
  {
    a.AffObject? && Truthy(Get(a.o, key))
  }

  /** `Object.values(affordability).some(Boolean)`: the values of a string are its characters. */
  predicate AffAny(a: Affordability)
  {
    match a
    case AffText(s) => s != ""
    case AffObject(o) => AnyTruthy(o)
  }

  /** `{ ...affordability }`: a string spreads into an object of its characters by index. */
  function Spread(a: Affordability): Obj<Val>
  {
    match a
    case AffText(s) => seq(|s|, i requires 0 <= i < |s| => (NatToString(i), Text([s[i]])))
    case AffObject(o) => o
  }

  /** A JavaScript Set of ids, in insertion order. */
  type IdSet = seq<string>

  /** `new Set(array)`: the first occurrence of each element, in order. */
  function Dedup(xs: seq<string>): (r: IdSet)
  {
    if xs == [] then []
    else
      var init := Dedup(xs[..|xs| - 1]);
      init + (if xs[|xs| - 1] in init then [] else [xs[|xs| - 1]])
  }

  /** `new Set(array)` holds each element once, and nothing else. */
  lemma {:induction false} DedupSpec(xs: seq<string>)
    ensures Distinct(Dedup(xs))
    ensures forall x :: x in Dedup(xs) <==> x in xs
    ensures Distinct(xs) ==> Dedup(xs) == xs
  {
    if xs != [] {
      var n := |xs| - 1;
      DedupSpec(xs[..n]);
      assert xs == xs[..n] + [xs[n]];
      if Distinct(xs) {
        assert Distinct(xs[..n]) by {
          forall i, j | 0 <= i < j < n ensures xs[..n][i] != xs[..n][j] {
            assert xs[..n][i] == xs[i] && xs[..n][j] == xs[j];
          }
        }
        assert xs[n] !in xs[..n] by {
          forall i | 0 <= i < n ensures xs[..n][i] != xs[n] {
            assert xs[..n][i] == xs[i];
          }
        }
      }
    }
  }

  // ---------------------------------------------------------------- the filter record

  /** `activeFilters.value` */
  datatype Filters = Filters(
    vendors: IdSet, categories: IdSet, status: IdSet, search: string,
    affordability: Affordability, dependencies: Option<string>, special: Obj<Val>,
    phases: IdSet, timeframes: Obj<Val>)

  function Flags(keys: seq<string>): (o: Obj<Val>)
    ensures |o| == |keys| && forall i :: 0 <= i < |keys| ==> o[i] == (keys[i], Flag(false))
  {
    seq(|keys|, i requires 0 <= i < |keys| => (keys[i], Flag(false)))
  }

  const SpecialKeys: seq<string> := ["criticalPath", "paradigmShifts", "bossMaterials", "automationUpgrades"]
  const TimeframeKeys: seq<string> := ["immediate", "shortTerm", "longTerm", "infinite"]
  const AffordabilityKeys: seq<string> := ["affordableNow", "affordableSoon", "neverAffordable"]

  /** The filters as first created: affordability and dependencies are the string 'all'. */
  function Initial(): Filters
  {
    Filters(["all"], ["all"], ["all"], "", AffText("all"), Some("all"), Flags(SpecialKeys), ["all"], Flags(TimeframeKeys))
  }

  /** The filters `resetFilters` installs: affordability becomes an object of false flags and
      there is no dependencies entry. */
  function Defaults(): Filters
  {
    Filters(["all"], ["all"], ["all"], "", AffObject(Flags(AffordabilityKeys)), None, Flags(SpecialKeys), ["all"], Flags(TimeframeKeys))
  }

  // ---------------------------------------------------------------- toggles

  /** `set.delete(id)` */
  function Remove(s: IdSet, id: string): (r: IdSet)
    ensures forall x :: x in r <==> x in s && x != id
    ensures |r| <= |s|
  {
    if s == [] then [] else if s[0] == id then Remove(s[1..], id) else [s[0]] + Remove(s[1..], id)
  }

  /** The body shared by `toggleVendor`, `toggleCategory` and `toggleStatus`. */
  function Toggle(s: IdSet, id: string): IdSet
  {
    if id == "all" then ["all"]
    else if "all" in s then [id]
    else if id in s then (if Remove(s, id) == [] then ["all"] else Remove(s, id))
    else s + [id]
  }

  /** The discipline the toggles keep: never empty, no repeats, and 'all' only on its own. */
  predicate AllExclusive(s: IdSet)
  {
    s != [] && Distinct(s) && ("all" in s ==> s == ["all"])
  }

  lemma {:induction false} RemoveDistinct(s: IdSet, id: string)
    requires Distinct(s)
    ensures Distinct(Remove(s, id))
  {
    if s != [] {
      RemoveDistinct(s[1..], id);
      assert Distinct(s[1..]) by {
        forall i, j | 0 <= i < j < |s| - 1 ensures s[1..][i] != s[1..][j] {
          assert s[1..][i] == s[i + 1] && s[1..][j] == s[j + 1];
        }
      }
      if s[0] != id {
        assert s[0] !in s[1..] by {
          forall i | 0 <= i < |s| - 1 ensures s[1..][i] != s[0] {
            assert s[1..][i] == s[i + 1];
          }
        }
        var r := [s[0]] + Remove(s[1..], id);
        forall i, j | 0 <= i < j < |r| ensures r[i] != r[j] {
          if i == 0 {
            assert r[j] in Remove(s[1..], id);
          }
        }
      }
    }
  }

  lemma AppendDistinct(s: IdSet, x: string)
    requires Distinct(s) && x !in s
    ensures Distinct(s + [x])
  {
    var r := s + [x];
    forall i, j | 0 <= i < j < |r| ensures r[i] != r[j] {
      if j == |s| {
        assert r[i] == s[i];
      } else {
        assert r[i] == s[i] && r[j] == s[j];
      }
    }
  }

  /** Every toggle keeps the discipline, and toggling 'all' always gives exactly {'all'}. */
  lemma ToggleKeepsDiscipline(s: IdSet, id: string)
    requires AllExclusive(s)
    ensures AllExclusive(Toggle(s, id))
    ensures id == "all" ==> Toggle(s, id) == ["all"]
    ensures id != "all" && "all" !in s && id !in s ==> Toggle(s, id) == s + [id]
  {
    if id != "all" && "all" !in s {
      if id in s {
        RemoveDistinct(s, id);
      } else {
        AppendDistinct(s, id);
      }
    }
  }

  /** Removing an id that is not present changes nothing. */
  lemma {:induction false} RemoveAbsent(s: IdSet, id: string)
    requires id !in s
    ensures Remove(s, id) == s
  {
    if s != [] {
      assert s[0] != id;
      RemoveAbsent(s[1..], id);
      assert s == [s[0]] + s[1..];
    }
  }

  lemma {:induction false} RemoveLast(s: IdSet, id: string)
    requires id !in s
    ensures Remove(s + [id], id) == s
  {
    if s == [] {
      assert [id][1..] == [];
    } else {
      assert (s + [id])[1..] == s[1..] + [id];
      RemoveLast(s[1..], id);
      assert s == [s[0]] + s[1..];
    }
  }

  /** Toggling the same id twice gives back the same members; the order is kept too unless the
      id was present but not last. */
  lemma ToggleTwice(s: IdSet, id: string)
    requires AllExclusive(s) && id != "all"
    ensures forall x :: x in Toggle(Toggle(s, id), id) <==> x in s
    ensures id !in s || s[|s| - 1] == id ==> Toggle(Toggle(s, id), id) == s
  {
    if "all" in s {
      assert s == ["all"];
      assert Toggle(s, id) == [id];
      assert Remove([id], id) == [];
    } else if id in s {
      var r := Remove(s, id);
      if r == [] {
        assert forall x :: x in s ==> x == id;
        assert s == [id] by {
          assert s[0] in s && s[|s| - 1] in s;
        }
      } else {
        assert id !in r;
        assert "all" !in r;
        if s[|s| - 1] == id {
          var n := |s| - 1;
          assert s == s[..n] + [id];
          assert id !in s[..n] by {
            forall i | 0 <= i < n ensures s[..n][i] != id {
              assert s[..n][i] == s[i];
            }
          }
          RemoveLast(s[..n], id);
        }
      }
    } else {
      RemoveLast(s, id);
      assert "all" !in s + [id];
    }
  }

  // ---------------------------------------------------------------- presets

  /** The filters a preset lists; the other keys keep their reset values. */
  datatype Preset = Preset(vendors: Option<IdSet>, categories: Option<IdSet>, status: Option<IdSet>,
                           affordability: Option<Affordability>, special: Option<Obj<Val>>)

  /** `filterPresets[name]`, for the names the presets object owns. */
  function PresetNamed(name: string): Option<Preset>
  {
    if name == "default" then Some(Preset(Some(["all"]), Some(["all"]), Some(["all"]), None, None))
    else if name == "immediate" then Some(Preset(None, None, Some(["available"]), Some(AffObject([("affordableNow", Flag(true))])), None))
    else if name == "progression" then Some(Preset(None, None, None, None, Some([("criticalPath", Flag(true))])))
    else if name == "paradigm" then Some(Preset(None, None, None, None, Some([("paradigmShifts", Flag(true))])))
    else if name == "automation" then Some(Preset(None, None, None, None, Some([("automationUpgrades", Flag(true))])))
    else if name == "storage" then Some(Preset(None, Some(["energy", "water", "storage"]), None, None, None))
    else None
  }

  /** Overwrites the keys a preset lists; every one of them exists after a reset. */
  function Overwrite(f: Filters, p: Preset): Filters
  {
    f.(vendors := if p.vendors.Some? then p.vendors.value else f.vendors,
       categories := if p.categories.Some? then p.categories.value else f.categories,
       status := if p.status.Some? then p.status.value else f.status,
       affordability := if p.affordability.Some? then p.affordability.value else f.affordability,
       special := if p.special.Some? then p.special.value else f.special)
  }

  /** `applyPreset`, for a name that is not a preset doing nothing. */
  function ApplyPreset(f: Filters, name: string): Filters
  {
    var p := PresetNamed(name);
    if p.None? then f else Overwrite(Defaults(), p.value)
  }

  /** An unknown name changes nothing; a known one resets and then sets exactly the keys the
      preset lists, leaving every other key at its reset value. */
  lemma ApplyPresetSpec(f: Filters, name: string)
    ensures PresetNamed(name).None? ==> ApplyPreset(f, name) == f
    ensures PresetNamed(name).Some? ==>
      var p := PresetNamed(name).value;
      var g := ApplyPreset(f, name);
      && g.search == "" && g.phases == ["all"] && g.timeframes == Defaults().timeframes && g.dependencies.None?
      && g.vendors == (if p.vendors.Some? then p.vendors.value else ["all"])
      && g.categories == (if p.categories.Some? then p.categories.value else ["all"])
      && g.status == (if p.status.Some? then p.status.value else ["all"])
      && g.affordability == (if p.affordability.Some? then p.affordability.value else Defaults().affordability)
      && g.special == (if p.special.Some? then p.special.value else Defaults().special)
  {
  }

  /** The names `filterPresets[name]` finds on `Object.prototype`; each is truthy and has no
      `filters`. */
  predicate InheritedName(name: string)
  {
    name in {"constructor", "toString", "toLocaleString", "valueOf", "hasOwnProperty", "isPrototypeOf",
             "propertyIsEnumerable", "__proto__", "__defineGetter__", "__defineSetter__",
             "__lookupGetter__", "__lookupSetter__"}
  }

  datatype PresetOutcome = Applied(f: Filters) | Threw(after: Filters)

  /** `applyPreset` as written: an inherited name passes the `!preset` guard, the filters are
      reset, and `Object.entries(undefined)` throws. */
  function ApplyPresetAsWritten(f: Filters, name: string): PresetOutcome
  {
    if PresetNamed(name).Some? then Applied(ApplyPreset(f, name))
    else if InheritedName(name) then Threw(Defaults())
    else Applied(f)
  }

  /** As written, the name 'toString' wipes the filters and throws; the own-key lookup leaves
      them alone. */
  lemma InheritedPresetThrows(f: Filters, name: string)
    requires name == "toString"
    ensures ApplyPresetAsWritten(f, name) == Threw(Defaults())
    ensures ApplyPreset(f, name) == f
  {
  }

  // ---------------------------------------------------------------- whether a node passes

  /** The id `getUpgradeStatus` returns. */
  function StatusId(s: Prerequisites.UpgradeStatus): string
  {
    match s
    case Owned => "owned"
    case Available => "available"
    case PrerequisiteMissing => "prerequisite_missing"
    case FarmLocked => "farm_locked"
    case ToolLocked => "tool_locked"
    case BuildingLocked => "building_locked"
  }

  /** The text the search looks in: name, description, effect, vendor and category. */
  function SearchText(u: Upgrade): string
  {
    Join([u.name, u.description, u.effect, u.vendor, u.category], " ")
  }

  predicate Matches(u: Upgrade, search: string)
  {
    Contains(Lower(SearchText(u)), Lower(search))
  }

  predicate IsParadigmShift(u: Upgrade)
  {
    Contains(u.name, "Auto") || Contains(u.name, "Deed") || Contains(u.name, "Forge") || Contains(u.name, "Tower")
    || u.category == "deeds" || Contains(Lower(u.description), "paradigm")
  }

  predicate Admits(set_: IdSet, id: string)
  {
    "all" in set_ || id in set_
  }

  /** `passesFilters(node, gameState)`; the critical-path flag is not consulted. */
  predicate PassesFilters(f: Filters, u: Upgrade, gs: TreeState)
  {
    && Admits(f.vendors, u.vendor)
    && Admits(f.categories, u.category)
    && Admits(f.status, StatusId(Prerequisites.GetUpgradeStatus(u, gs)))
    && (f.search != "" ==> Matches(u, f.search))
    && (AffFlag(f.affordability, "affordableNow") ==> Calculator.CanAffordUpgrade(u, gs.resources).canAfford)
    && (Truthy(Get(f.special, "paradigmShifts")) ==> IsParadigmShift(u))
    && (Truthy(Get(f.special, "automationUpgrades")) ==> Contains(Lower(u.name), "auto"))
    && (Truthy(Get(f.special, "bossMaterials")) ==> u.bossMaterials != "")
  }

  /** `hasActiveFilters` */
  predicate HasActiveFilters(f: Filters)
  {
    !("all" in f.vendors) || !("all" in f.categories) || !("all" in f.status)
    || |f.search| > 0 || AffAny(f.affordability) || AnyTruthy(f.special)
  }

  lemma FlagsInactive(keys: seq<string>, key: string)
    ensures !AnyTruthy(Flags(keys)) && !Truthy(Get(Flags(keys), key))
  {
    var o := Flags(keys);
    if Get(o, key).Some? {
      var i := GetFound(o, key);
    }
  }

  /** After a reset no filter is active, while the filters as first created count as active
      because the string 'all' has truthy characters. */
  lemma ActiveAfterReset()
    ensures !HasActiveFilters(Defaults())
    ensures HasActiveFilters(Initial())
  {
    FlagsInactive(SpecialKeys, "");
    FlagsInactive(AffordabilityKeys, "");
  }

  /** No flag of an object without truthy values is set. */
  lemma NoTruthyFlag(o: Obj<Val>, k: string)
    requires !AnyTruthy(o)
    ensures !Truthy(Get(o, k))
  {
    if Get(o, k).Some? {
      var i := GetFound(o, k);
    }
  }

  /** With no active filter every node passes. */
  lemma InactivePassesAll(f: Filters, u: Upgrade, gs: TreeState)
    requires !HasActiveFilters(f)
    ensures PassesFilters(f, u, gs)
  {
    NoTruthyFlag(f.special, "paradigmShifts");
    NoTruthyFlag(f.special, "automationUpgrades");
    NoTruthyFlag(f.special, "bossMaterials");
    if f.affordability.AffObject? {
      NoTruthyFlag(f.affordability.o, "affordableNow");
    }
  }

  /** With the reset or the first filters every node passes. */
  lemma DefaultsPassAll(u: Upgrade, gs: TreeState)
    ensures PassesFilters(Defaults(), u, gs)
    ensures PassesFilters(Initial(), u, gs)
  {
    ActiveAfterReset();
    InactivePassesAll(Defaults(), u, gs);
    FlagsInactive(SpecialKeys, "paradigmShifts");
    FlagsInactive(SpecialKeys, "automationUpgrades");
    FlagsInactive(SpecialKeys, "bossMaterials");
  }

  lemma LowerIdempotent(s: string)
    ensures Lower(Lower(s)) == Lower(s)
  {
    forall i | 0 <= i < |s| ensures Lower(Lower(s))[i] == Lower(s)[i] {
    }
  }

  /** The search ignores case: a term and its lower-case form admit the same nodes. */
  lemma SearchIgnoresCase(f: Filters, u: Upgrade, gs: TreeState)
    ensures PassesFilters(f, u, gs) <==> PassesFilters(f.(search := Lower(f.search)), u, gs)
  {
    LowerIdempotent(f.search);
    assert f.search != "" <==> Lower(f.search) != "";
  }

  lemma ContainsExtend(a: string, t: string, b: string)
    requires Contains(a, t)
    ensures Contains(a + b, t)
  {
    ContainsIff(a, t);
    var i :| OccursAt(a, t, i);
    assert (a + b)[i..i + |t|] == a[i..i + |t|];
    assert OccursAt(a + b, t, i);
    ContainsIff(a + b, t);
  }

  /** A search term found in the upgrade's name, ignoring case, admits it. */
  lemma SearchFindsName(u: Upgrade, search: string)
    requires Contains(Lower(u.name), Lower(search))
    ensures Matches(u, search)
  {
    var rest := Join([u.description, u.effect, u.vendor, u.category], " ");
    assert SearchText(u) == u.name + " " + rest;
    assert u.name + " " + rest == u.name + (" " + rest);
    LowerConcat(u.name, " " + rest);
    ContainsExtend(Lower(u.name), Lower(search), Lower(" " + rest));
  }

  /** A vendor, category or status set without 'all' admits only its own members. */
  lemma SetFiltersRestrict(f: Filters, u: Upgrade, gs: TreeState)
    requires PassesFilters(f, u, gs)
    ensures "all" !in f.vendors ==> u.vendor in f.vendors
    ensures "all" !in f.categories ==> u.category in f.categories
    ensures "all" !in f.status ==> StatusId(Prerequisites.GetUpgradeStatus(u, gs)) in f.status
  {
  }

  // ---------------------------------------------------------------- export and import

  /** The configuration `exportFilters` returns and `importFilters` reads; a missing key is
      None. */
  datatype Config = Config(vendors: Option<seq<string>>, categories: Option<seq<string>>, status: Option<seq<string>>,
                           search: Option<string>, affordability: Option<Obj<Val>>, special: Option<Obj<Val>>)

  /** `exportFilters`: the sets as arrays, and copies of the two flag objects. */
  function ExportFilters(f: Filters): Config
  {
    Config(Some(f.vendors), Some(f.categories), Some(f.status), Some(f.search), Some(Spread(f.affordability)), Some(f.special))
  }

  /** `importFilters`: every key present replaces its filter; arrays are always truthy. */
  function ImportFilters(f: Filters, c: Config): Filters
  {
    f.(vendors := if c.vendors.Some? then Dedup(c.vendors.value) else f.vendors,
       categories := if c.categories.Some? then Dedup(c.categories.value) else f.categories,
       status := if c.status.Some? then Dedup(c.status.value) else f.status,
       search := if c.search.Some? then c.search.value else f.search,
       affordability := if c.affordability.Some? then AffObject(c.affordability.value) else f.affordability,
       special := if c.special.Some? then c.special.value else f.special)
  }

  /** Importing an export restores the filters; an affordability that is still the string
      'all' comes back as the object of its characters. */
  lemma ExportImportRoundTrip(f: Filters, g: Filters)
    requires Distinct(f.vendors) && Distinct(f.categories) && Distinct(f.status)
    ensures f.affordability.AffObject? ==> ImportFilters(g, ExportFilters(f)) == f.(dependencies := g.dependencies, phases := g.phases, timeframes := g.timeframes)
    ensures f.affordability.AffText? ==>
      ImportFilters(g, ExportFilters(f)) == f.(affordability := AffObject(Spread(f.affordability)), dependencies := g.dependencies, phases := g.phases, timeframes := g.timeframes)
  {
    DedupSpec(f.vendors);
    DedupSpec(f.categories);
    DedupSpec(f.status);
  }

  // ---------------------------------------------------------------- the composable

  datatype ToggleError = NotAnObject

  /** The filters with one affordability flag negated, for an object-valued affordability. */
  function Flipped(f: Filters, key: string): Filters
    requires f.affordability.AffObject?
  {
    f.(affordability := AffObject(Put(f.affordability.o, key, Flag(!AffFlag(f.affordability, key)))))
  }

  class FilterState {
    /** `activeFilters.value` */
    var activeFilters: Filters

    constructor ()
      ensures activeFilters == Initial()
    {
      activeFilters := Initial();
    }

    method ToggleVendor(id: string)
      modifies this
      ensures activeFilters == old(activeFilters).(vendors := Toggle(old(activeFilters).vendors, id))
    {
      activeFilters := activeFilters.(vendors := Toggle(activeFilters.vendors, id));
    }

    method ToggleCategory(id: string)
      modifies this
      ensures activeFilters == old(activeFilters).(categories := Toggle(old(activeFilters).categories, id))
    {
      activeFilters := activeFilters.(categories := Toggle(activeFilters.categories, id));
    }

    method ToggleStatus(id: string)
      modifies this
      ensures activeFilters == old(activeFilters).(status := Toggle(old(activeFilters).status, id))
    {
      activeFilters := activeFilters.(status := Toggle(activeFilters.status, id));
    }

    method SetSearch(term: string)
      modifies this
      ensures activeFilters == old(activeFilters).(search := term)
    {
      activeFilters := activeFilters.(search := term);
    }

    /** Flips one affordability flag; while affordability is still a string the assignment
        throws and nothing changes. */
    method ToggleAffordability(key: string) returns (r: Option<ToggleError>)
      modifies this
      ensures old(activeFilters).affordability.AffText? ==> r == Some(NotAnObject) && activeFilters == old(activeFilters)
      ensures old(activeFilters).affordability.AffObject? ==> r.None? && activeFilters == Flipped(old(activeFilters), key)
    {
      if activeFilters.affordability.AffText? {
        return Some(NotAnObject);
      }
      var o := activeFilters.affordability.o;
      activeFilters := activeFilters.(affordability := AffObject(Put(o, key, Flag(!Truthy(Get(o, key))))));
      r := None;
    }

    method ToggleSpecial(key: string)
      modifies this
      ensures activeFilters == old(activeFilters).(special := Put(old(activeFilters).special, key,
                Flag(!Truthy(Get(old(activeFilters).special, key)))))
    {
      var o := activeFilters.special;
      activeFilters := activeFilters.(special := Put(o, key, Flag(!Truthy(Get(o, key)))));
    }

    method ResetFilters()
      modifies this
      ensures activeFilters == Defaults()
    {
      activeFilters := Defaults();
    }

    method ApplyPresetNamed(name: string)
      modifies this
      ensures activeFilters == ApplyPreset(old(activeFilters), name)
    {
      var p := PresetNamed(name);
      if p.None? {
        return;
      }
      ResetFilters();
      activeFilters := Overwrite(activeFilters, p.value);
    }

    method Import(c: Config)
      modifies this
      ensures activeFilters == ImportFilters(old(activeFilters), c)
    {
      activeFilters := ImportFilters(activeFilters, c);
    }
  }
}
