/**
 * The upgrade catalogue shared by the prerequisite, cost, path-finding, layout and filter
 * utilities: one record per CSV row, keyed by its id, and the slice of the player's state
 * those utilities read.
 */
module Upgrades {

  /** One upgrade row. Every field is the raw CSV text; an absent field is the empty string,
      which is falsy in the same places the source tests for it. */
  datatype Upgrade = Upgrade(
    id: string,
    name: string,
    prerequisite: string,
    goldCost: string,
    energyCost: string,
    materials: string,
    bossMaterials: string,
    category: string,
    vendor: string,
    tier: string,
    effect: string,
    description: string,
    source: string)

  /** `allUpgrades`: an object keyed by upgrade id, whose keys iterate in `order`. */
  datatype Catalogue = Catalogue(order: seq<string>, byId: map<string, Upgrade>)

  predicate Distinct<T(==)>(s: seq<T>)
  {
    forall i, j :: 0 <= i < j < |s| ==> s[i] != s[j]
  }

  /** The object's keys are its ids, listed once each in iteration order. */
  predicate WellFormed(c: Catalogue)
  {
    Distinct(c.order)
    && (forall k :: k in c.order ==> k in c.byId)
    && (forall k :: k in c.byId ==> k in c.order)
    && (forall k :: k in c.byId ==> c.byId[k].id == k)
  }

  /** `Object.values(allUpgrades)` */
  function Values(c: Catalogue): (r: seq<Upgrade>)
    requires WellFormed(c)
    ensures |r| == |c.order|
    ensures forall i :: 0 <= i < |r| ==> r[i] == c.byId[c.order[i]] && r[i].id == c.order[i]
  {
    seq(|c.order|, i requires 0 <= i < |c.order| => c.byId[c.order[i]])
  }

  /** The values are exactly the catalogue's records. */
  lemma ValuesMembership(c: Catalogue)
    requires WellFormed(c)
    ensures forall u :: u in Values(c) <==> u.id in c.byId && c.byId[u.id] == u
  {
    var vs := Values(c);
    forall u: Upgrade | u.id in c.byId && c.byId[u.id] == u ensures u in vs {
      var i :| 0 <= i < |c.order| && c.order[i] == u.id;
      assert vs[i] == u;
    }
  }

  /** Player resources as the cost utilities read them; a missing entry reads as 0. */
  datatype Resources = Resources(
    gold: real,
    energy: real,
    materials: map<string, real>,
    bossMaterials: map<string, real>)

  /** Income per hour; a missing rate reads as 0. */
  datatype IncomeRates = IncomeRates(goldPerHour: real, energyPerHour: real)

  /** The parts of the game state the upgrade-tree utilities read. A missing list is empty,
      which answers `includes` the same way as `undefined?.includes`. */
  datatype TreeState = TreeState(
    ownedUpgrades: seq<string>,
    farmStages: seq<string>,
    ownedTools: seq<string>,
    buildings: seq<string>,
    resources: Resources,
    incomeRates: IncomeRates)
}
