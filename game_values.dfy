/**
 * The game-values store: the imported design tables (crops, weapons, tools, adventures and
 * the other categories), their format validators, the editing actions of the configuration
 * screen and the CSV text written for a category.
 */
module GameValues {
  import opened Common
  import opened Sorting

  /** A field value of an imported row: a number or a string. */
  datatype Value = Num(n: real) | Str(s: string)

  /** An imported row, as its fields in insertion order. */
  type Item = Obj<Value>

  /** JavaScript truthiness of a possibly missing field (NaN is not modelled). */
  predicate Truthy(v: Option<Value>)
  {
    match v
    case None => false
    case Some(Num(x)) => x != 0.0
    case Some(Str(s)) => s != ""
  }

  /** How a relational operator reads a field: a number as itself, a string through
      `Number`, and a missing field as NaN. */
  function NumberOf(v: Option<Value>): Option<real>
  {
    match v
    case None => None
    case Some(Num(x)) => Some(x)
    case Some(Str(s)) => ToNumber(s)
  }

  /** `v < c`: false whenever the field reads as NaN. */
  predicate Below(v: Option<Value>, c: real)
  {
    NumberOf(v).Some? && NumberOf(v).value < c
  }

  /** `v > c` */
  predicate Above(v: Option<Value>, c: real)
  {
    NumberOf(v).Some? && NumberOf(v).value > c
  }

  /** A string holding an integer compares as that integer. */
  lemma NumericTextCompared(k: int, c: real)
    ensures Below(Some(Str(IntToString(k))), c) <==> (k as real) < c
    ensures Above(Some(Str(IntToString(k))), c) <==> (k as real) > c
  {
    ToNumberOfInt(k);
  }

  /** `list.includes(v)` for a list of strings: strict equality, so only a string matches. */
  predicate OneOf(v: Option<Value>, list: seq<string>)
  {
    v.Some? && v.value.Str? && v.value.s in list
  }

  // ---------------------------------------------------------------- format validators

  /** The amount of a materials entry: an integer-prefixed number, or `a-b` with both ends
      integer-prefixed. */
  predicate AmountOk(a: string)
  {
    if '-' in a then
      var r := Split(a, '-');
      |r| == 2 && ParseInt(r[0]).Some? && ParseInt(r[1]).Some?
    else ParseInt(a).Some?
  }

  /** One `;`-separated materials entry: exactly `name:amount` with a non-blank name. */
  predicate MaterialEntryOk(entry: string)
  {
    var parts := Split(Trim(entry), ':');
    |parts| == 2 && !Blank(parts[0]) && AmountOk(Trim(parts[1]))
  }

  /** `validateMaterialsFormat(s)`: a blank string, or every entry well-formed. */
  function ValidateMaterialsFormat(s: string): (ok: bool)
    ensures Blank(s) ==> ok
  {
    Blank(s) || forall i :: 0 <= i < |Split(s, ';')| ==> MaterialEntryOk(Split(s, ';')[i])
  }

  /** One `;`-separated enemy entry: exactly `name:share` with a non-blank name and an
      integer-prefixed share. */
  predicate EnemyEntryOk(entry: string)
  {
    var parts := Split(Trim(entry), ':');
    |parts| == 2 && Trim(parts[0]) != "" && ParseInt(parts[1]).Some?
  }

  /** `validateEnemyTypesFormat(s)` */
  function ValidateEnemyTypesFormat(s: string): (ok: bool)
    ensures Blank(s) ==> ok
  {
    Blank(s) || forall i :: 0 <= i < |Split(s, ';')| ==> EnemyEntryOk(Split(s, ';')[i])
  }

  /** Splitting a string without the separator leaves it whole. */
  lemma SplitWhole(s: string, c: char)
    requires c !in s
    ensures Split(s, c) == [s]
  {
    SplitNoSep(s, c);
  }

  /** Splitting `a + [c] + b` where `a` lacks `c` gives `a` and then the pieces of `b`. */
  lemma {:induction false} SplitAt(a: string, c: char, b: string)
    requires c !in a
    ensures Split(a + [c] + b, c) == [a] + Split(b, c)
  {
    if a == [] {
      assert ([c] + b)[1..] == b;
    } else {
      assert (a + [c] + b)[1..] == a[1..] + [c] + b;
      SplitAt(a[1..], c, b);
      assert [a[0]] + a[1..] == a;
    }
  }

  /** A non-empty run of digits parses as an integer. */
  lemma DigitsParse(s: string)
    requires s != [] && forall i :: 0 <= i < |s| ==> IsDigit(s[i])
    ensures ParseInt(s).Some? && Trim(s) == s
  {
    assert TrimStart(s) == s;
    TrimNoEdges(s);
  }

  /** A name that is non-empty, trimmed and free of the separators. */
  predicate Name(t: string)
  {
    t != [] && !IsSpace(t[0]) && !IsSpace(t[|t| - 1]) && ';' !in t && ':' !in t && '-' !in t
  }

  /** `name:n` with a digit string `n` is a well-formed materials entry and enemy entry. */
  lemma CountEntry(name: string, n: string)
    requires Name(name) && Digits(n)
    ensures MaterialEntryOk(name + [':'] + n) && EnemyEntryOk(name + [':'] + n)
  {
    var e := name + [':'] + n;
    assert e[0] == name[0] && e[|e| - 1] == n[|n| - 1];
    TrimNoEdges(e);
    assert forall i :: 0 <= i < |n| ==> n[i] != ':' && n[i] != '-';
    SplitAt(name, ':', n);
    SplitWhole(n, ':');
    DigitsParse(n);
    TrimNoEdges(name);
    assert !Blank(name) by { assert !IsSpace(name[0]); }
  }

  /** `name:a-b` with digit strings `a` and `b` is a well-formed materials entry. */
  lemma RangeEntry(name: string, a: string, b: string)
    requires Name(name)
    requires Digits(a) && Digits(b)
    ensures MaterialEntryOk(name + [':'] + a + ['-'] + b)
  {
    var amount := a + ['-'] + b;
    assert name + [':'] + a + ['-'] + b == name + [':'] + amount;
    RangeAmount(a, b);
    NamedEntry(name, amount);
  }

  /** `a-b` with digit strings `a` and `b` is a trimmed, colon-free, well-formed amount. */
  lemma RangeAmount(a: string, b: string)
    requires Digits(a) && Digits(b)
    ensures var amount := a + ['-'] + b;
      amount != [] && !IsSpace(amount[0]) && !IsSpace(amount[|amount| - 1]) &&
      ':' !in amount && AmountOk(amount)
  {
    var amount := a + ['-'] + b;
    assert forall i :: 0 <= i < |a| ==> a[i] != ':' && a[i] != '-';
    assert forall i :: 0 <= i < |b| ==> b[i] != ':' && b[i] != '-';
    assert amount[0] == a[0] && amount[|amount| - 1] == b[|b| - 1];
    SplitAt(a, '-', b);
    SplitWhole(b, '-');
    DigitsParse(a);
    DigitsParse(b);
  }

  /** `name:amount` with a trimmed, colon-free, well-formed amount is a materials entry. */
  lemma NamedEntry(name: string, amount: string)
    requires Name(name)
    requires amount != [] && !IsSpace(amount[0]) && !IsSpace(amount[|amount| - 1])
    requires ':' !in amount && AmountOk(amount)
    ensures MaterialEntryOk(name + [':'] + amount)
  {
    var e := name + [':'] + amount;
    assert e[0] == name[0] && e[|e| - 1] == amount[|amount| - 1];
    TrimNoEdges(e);
    SplitAt(name, ':', amount);
    SplitWhole(amount, ':');
    TrimNoEdges(amount);
    assert !Blank(name) by { assert !IsSpace(name[0]); }
  }

  /** `stone:8-12` is a well-formed materials string. */
  lemma RangeAccepted(s: string)
    requires s == "stone:8-12"
    ensures ValidateMaterialsFormat(s)
  {
    assert s == "stone" + [':'] + "8" + ['-'] + "12";
    RangeEntry("stone", "8", "12");
    SplitWhole(s, ';');
  }

  /** `wood:5;` is not: its last entry is empty. */
  lemma TrailingSeparatorRejected(s: string)
    requires s == "wood:5;"
    ensures !ValidateMaterialsFormat(s)
  {
    assert s == "wood:5" + [';'] + "";
    SplitAt("wood:5", ';', "");
    assert Split(s, ';')[1] == "";
    assert !Blank(s) by { assert !IsSpace(s[0]); }
    assert !MaterialEntryOk("");
  }

  predicate Digits(s: string)
  {
    s != [] && forall i :: 0 <= i < |s| ==> IsDigit(s[i])
  }

  /** A `name:n` entry holds no `;`. */
  lemma EntryNoSemicolon(name: string, n: string)
    requires Name(name) && Digits(n)
    ensures ';' !in name + [':'] + n
  {
    assert forall i :: 0 <= i < |n| ==> n[i] != ';';
  }

  /** Two pieces without the separator, joined by it, split back into the two. */
  lemma SplitTwo(e1: string, c: char, e2: string)
    requires c !in e1 && c !in e2
    ensures Split(e1 + [c] + e2, c) == [e1, e2]
  {
    SplitAt(e1, c, e2);
    SplitWhole(e2, c);
  }

  /** Two `name:n` entries joined by `;` make a well-formed enemy-types string. */
  lemma EnemyPair(n1: string, c1: string, n2: string, c2: string)
    requires Name(n1) && Digits(c1) && Name(n2) && Digits(c2)
    ensures ValidateEnemyTypesFormat(n1 + [':'] + c1 + [';'] + n2 + [':'] + c2)
  {
    var e1 := n1 + [':'] + c1;
    var e2 := n2 + [':'] + c2;
    var s := n1 + [':'] + c1 + [';'] + n2 + [':'] + c2;
    assert s == e1 + [';'] + e2;
    CountEntry(n1, c1);
    CountEntry(n2, c2);
    EntryNoSemicolon(n1, c1);
    EntryNoSemicolon(n2, c2);
    SplitTwo(e1, ';', e2);
    EnemyPieces(s, e1, e2);
  }

  /** Text that splits into two well-formed enemy entries is a well-formed enemy-types string. */
  lemma EnemyPieces(s: string, e1: string, e2: string)
    requires Split(s, ';') == [e1, e2] && EnemyEntryOk(e1) && EnemyEntryOk(e2)
    ensures ValidateEnemyTypesFormat(s)
  {
    var parts := Split(s, ';');
    assert forall i :: 0 <= i < |parts| ==> parts[i] == e1 || parts[i] == e2;
  }

  /** `beasts:60;slimes:40` is a well-formed enemy-types string. */
  lemma EnemySharesAccepted(s: string)
    requires s == "beasts:60;slimes:40"
    ensures ValidateEnemyTypesFormat(s)
  {
    assert s == "beasts" + [':'] + "60" + [';'] + "slimes" + [':'] + "40";
    EnemyPair("beasts", "60", "slimes", "40");
  }

  // ---------------------------------------------------------------- parseMaterials

  /** One entry of `parseMaterials`: the trimmed name and trimmed amount, when both the name
      and the amount piece are non-empty. */
  function MaterialEntry(entry: string): Option<(string, string)>
  {
    var parts := Split(Trim(entry), ':');
    if parts[0] != "" && |parts| >= 2 && parts[1] != "" then Some((Trim(parts[0]), Trim(parts[1])))
    else None
  }

  function AddEntries(acc: Obj<string>, entries: seq<string>): Obj<string>
    decreases |entries|
  {
    if entries == [] then acc
    else
      var acc' := match MaterialEntry(entries[0])
        case Some(p) => Put(acc, p.0, p.1)
        case None => acc;
      AddEntries(acc', entries[1..])
  }

  /** `parseMaterials(s)` of the store: amounts stay strings; a later name overwrites an
      earlier one in its place. */
  function ParseMaterials(s: string): Obj<string>
  {
    if Blank(s) then [] else AddEntries([], Split(s, ';'))
  }

  /** The written form of materials: `name:amount` entries joined by `;`. */
  function FormatMaterials(ms: seq<(string, string)>): string
  {
    Join(MapEntries(ms), [';'])
  }

  function MapEntries(ms: seq<(string, string)>): (r: seq<string>)
    ensures |r| == |ms|
    ensures forall i :: 0 <= i < |ms| ==> r[i] == ms[i].0 + [':'] + ms[i].1
  {
    if ms == [] then [] else [ms[0].0 + [':'] + ms[0].1] + MapEntries(ms[1..])
  }

  /** A name or amount that survives writing and reading: non-empty, already trimmed, free of
      both separators. */
  predicate Token(t: string)
  {
    t != [] && !IsSpace(t[0]) && !IsSpace(t[|t| - 1]) && ';' !in t && ':' !in t
  }

  lemma EntryRoundTrip(name: string, amount: string)
    requires Token(name) && Token(amount)
    ensures MaterialEntry(name + [':'] + amount) == Some((name, amount))
  {
    var e := name + [':'] + amount;
    assert e[0] == name[0];
    assert e[|e| - 1] == amount[|amount| - 1];
    TrimNoEdges(e);
    SplitAt(name, ':', amount);
    SplitWhole(amount, ':');
    TrimNoEdges(name);
    TrimNoEdges(amount);
  }

  lemma {:induction false} AddEntriesOfFormat(acc: Obj<string>, ms: seq<(string, string)>)
    requires forall i :: 0 <= i < |ms| ==> Token(ms[i].0) && Token(ms[i].1)
    ensures AddEntries(acc, MapEntries(ms)) == PutAll(acc, ms)
    decreases |ms|
  {
    if ms != [] {
      EntryRoundTrip(ms[0].0, ms[0].1);
      assert MapEntries(ms)[1..] == MapEntries(ms[1..]);
      AddEntriesOfFormat(Put(acc, ms[0].0, ms[0].1), ms[1..]);
    }
  }

  /** Writing each pair into an object in turn. */
  function PutAll(acc: Obj<string>, ms: seq<(string, string)>): Obj<string>
    decreases |ms|
  {
    if ms == [] then acc else PutAll(Put(acc, ms[0].0, ms[0].1), ms[1..])
  }

  lemma {:induction false} SplitJoinEntries(parts: seq<string>)
    requires |parts| >= 1
    requires forall i :: 0 <= i < |parts| ==> ';' !in parts[i]
    ensures Split(Join(parts, [';']), ';') == parts
  {
    forall i, k | 0 <= i < |parts| && 0 <= k < |parts[i]| ensures parts[i][k] != ';' {
      assert parts[i][k] in parts[i];
    }
    SplitJoin(parts, ';');
  }

  /** Reading back written materials gives each name its (last) amount, names in first-seen
      order. */
  lemma ParseFormatted(ms: seq<(string, string)>)
    requires ms != []
    requires forall i :: 0 <= i < |ms| ==> Token(ms[i].0) && Token(ms[i].1)
    ensures ParseMaterials(FormatMaterials(ms)) == PutAll([], ms)
  {
    var parts := MapEntries(ms);
    var s := FormatMaterials(ms);
    SplitJoinEntries(parts);
    AddEntriesOfFormat([], ms);
    assert !Blank(s) by {
      JoinSplit(s, ';');
      assert Split(s, ';')[0] == parts[0];
      assert |parts[0]| > 0 && !IsSpace(parts[0][0]);
      JoinFirst(parts, [';']);
    }
  }

  /** A join starts with its first piece. */
  lemma JoinFirst(parts: seq<string>, sep: string)
    requires parts != [] && parts[0] != []
    ensures |Join(parts, sep)| > 0 && Join(parts, sep)[0] == parts[0][0]
  {
  }

  /** Every name is non-empty and every name and amount is trimmed. */
  predicate TrimmedEntries(o: Obj<string>)
  {
    forall i :: 0 <= i < |o| ==> o[i].0 != "" && Trim(o[i].0) == o[i].0 && Trim(o[i].1) == o[i].1
  }

  lemma {:induction false} AddEntriesTrimmed(acc: Obj<string>, entries: seq<string>)
    requires TrimmedEntries(acc)
    ensures TrimmedEntries(AddEntries(acc, entries))
    decreases |entries|
  {
    if entries != [] {
      var m := MaterialEntry(entries[0]);
      if m.Some? {
        var p := m.value;
        var t := Trim(entries[0]);
        var parts := Split(t, ':');
        TrimSpec(entries[0]);
        assert parts[0] != "";
        SplitFirst(t, ':');
        TrimNoEdgesFirst(parts[0]);
        TrimIdempotent(parts[0]);
        TrimIdempotent(parts[1]);
        PutEntries(acc, p.0, p.1);
        var acc' := Put(acc, p.0, p.1);
        forall i | 0 <= i < |acc'|
          ensures acc'[i].0 != "" && Trim(acc'[i].0) == acc'[i].0 && Trim(acc'[i].1) == acc'[i].1
        {
          if acc'[i] != (p.0, p.1) {
            var j :| 0 <= j < |acc| && acc[j] == acc'[i];
          }
        }
        AddEntriesTrimmed(acc', entries[1..]);
      } else {
        AddEntriesTrimmed(acc, entries[1..]);
      }
    }
  }

  /** A piece that starts with a non-space character trims to a non-empty string. */
  lemma TrimNoEdgesFirst(s: string)
    requires s != [] && !IsSpace(s[0])
    ensures Trim(s) != ""
  {
    TrimSpec(s);
  }

  /** A non-empty first piece starts where the string does. */
  lemma {:induction false} SplitFirst(s: string, c: char)
    requires Split(s, c)[0] != []
    ensures s != [] && Split(s, c)[0][0] == s[0]
  {
  }

  /** `Put` writes only the given entry. */
  lemma {:induction false} PutEntries(o: Obj<string>, k: string, v: string)
    ensures forall i :: 0 <= i < |Put(o, k, v)| ==>
      Put(o, k, v)[i] == (k, v) || Put(o, k, v)[i] in o
  {
    if o != [] && o[0].0 != k {
      PutEntries(o[1..], k, v);
      var r := Put(o, k, v);
      forall i | 0 <= i < |r| ensures r[i] == (k, v) || r[i] in o {
        if i > 0 { assert r[i] == Put(o[1..], k, v)[i - 1]; }
      }
    }
  }

  /** `parseMaterials` yields non-empty trimmed names and trimmed amounts. */
  lemma ParsedTrimmed(s: string)
    ensures TrimmedEntries(ParseMaterials(s))
  {
    if !Blank(s) {
      AddEntriesTrimmed([], Split(s, ';'));
    }
  }

  // ---------------------------------------------------------------- validateGameValues

  /** The four kinds of checked rows. */
  datatype Kind = CropRow | WeaponRow | ToolRow | AdventureRow

  /** The checks of `validateGameValues`, one per message it can collect. */
  datatype Check =
    | CropEnergy | CropGrowthTime | CropTier | CropSeedLevel
    | WeaponDamage | WeaponType | WeaponLevel | WeaponMaterials
    | ToolTier | ToolCategory | ToolMaterials
    | AdventureEnemyTypes | AdventureCommonMaterials

  /** One collected validation message: which check failed for which row id. */
  datatype Problem = Problem(check: Check, id: string)

  const CropTiers: seq<string> := ["Early", "Mid", "Late", "Endgame"]
  const WeaponTypes: seq<string> := ["spear", "sword", "bow", "crossbow", "wand"]
  const ToolTiers: seq<string> := ["base", "plus", "master", "iron", "silver", "crystal", "mythril"]
  const ToolCategories: seq<string> := ["farm", "mining"]

  function Flag(bad: bool, c: Check): seq<Check>
  {
    if bad then [c] else []
  }

  /** `!v || v < 0`: missing, zero, empty or negative. */
  predicate NotPositive(v: Option<Value>)
  {
    !Truthy(v) || Below(v, 0.0)
  }

  /** `v && !validate(v)` for a materials field holding text. */
  predicate BadMaterials(v: Option<Value>)
  {
    Truthy(v) && v.value.Str? && !ValidateMaterialsFormat(v.value.s)
  }

  predicate BadEnemyTypes(v: Option<Value>)
  {
    Truthy(v) && v.value.Str? && !ValidateEnemyTypesFormat(v.value.s)
  }

  /** A truthy number handed to a format validator: `materialsString.trim` is not a function,
      and the TypeError is raised before the validator's `try`. */
  predicate TrimThrows(v: Option<Value>)
  {
    Truthy(v) && v.value.Num?
  }

  /** The row makes `validateGameValues` throw. */
  predicate RowThrows(k: Kind, row: Item)
  {
    match k
    case CropRow => false
    case WeaponRow => TrimThrows(Get(row, "materials"))
    case ToolRow => TrimThrows(Get(row, "materials"))
    case AdventureRow => TrimThrows(Get(row, "enemyTypes")) || TrimThrows(Get(row, "commonMat"))
  }

  predicate TableThrows(k: Kind, rows: Obj<Item>)
  {
    exists i :: 0 <= i < |rows| && RowThrows(k, rows[i].1)
  }

  /** Some row of some table makes `validateGameValues` throw, so that nothing is stored. */
  predicate ValidationThrows(crops: Obj<Item>, weapons: Obj<Item>, tools: Obj<Item>, adventures: Obj<Item>)
  {
    TableThrows(CropRow, crops) || TableThrows(WeaponRow, weapons)
    || TableThrows(ToolRow, tools) || TableThrows(AdventureRow, adventures)
  }

  function CropChecks(c: Item): seq<Check>
  {
    Flag(NotPositive(Get(c, "energy_per_harvest")), CropEnergy)
    + Flag(NotPositive(Get(c, "growth_time_min")), CropGrowthTime)
    + Flag(!OneOf(Get(c, "tier"), CropTiers), CropTier)
    + Flag(Get(c, "seed_level").None? || Below(Get(c, "seed_level"), 0.0) || Above(Get(c, "seed_level"), 9.0), CropSeedLevel)
  }

  function WeaponChecks(w: Item): seq<Check>
  {
    Flag(NotPositive(Get(w, "damage")), WeaponDamage)
    + Flag(!Truthy(Get(w, "type")) || !OneOf(Get(w, "type"), WeaponTypes), WeaponType)
    + Flag(!Truthy(Get(w, "level")) || Below(Get(w, "level"), 1.0) || Above(Get(w, "level"), 10.0), WeaponLevel)
    + Flag(BadMaterials(Get(w, "materials")), WeaponMaterials)
  }

  function ToolChecks(t: Item): seq<Check>
  {
    Flag(!Truthy(Get(t, "tier")) || !OneOf(Get(t, "tier"), ToolTiers), ToolTier)
    + Flag(!Truthy(Get(t, "category")) || !OneOf(Get(t, "category"), ToolCategories), ToolCategory)
    + Flag(BadMaterials(Get(t, "materials")), ToolMaterials)
  }

  function AdventureChecks(a: Item): seq<Check>
  {
    Flag(BadEnemyTypes(Get(a, "enemyTypes")), AdventureEnemyTypes)
    + Flag(BadMaterials(Get(a, "commonMat")), AdventureCommonMaterials)
  }


  function RowChecks(k: Kind, row: Item): seq<Check>
  {
    match k
    case CropRow => CropChecks(row)
    case WeaponRow => WeaponChecks(row)
    case ToolRow => ToolChecks(row)
    case AdventureRow => AdventureChecks(row)
  }

  /** The failed checks of a row, as messages naming it. */
  function Stamp(cs: seq<Check>, id: string): (r: seq<Problem>)
    ensures |r| == |cs|
    ensures forall i :: 0 <= i < |cs| ==> r[i] == Problem(cs[i], id)
  {
    if cs == [] then [] else [Problem(cs[0], id)] + Stamp(cs[1..], id)
  }

  function RowProblems(k: Kind, id: string, row: Item): seq<Problem>
  {
    Stamp(RowChecks(k, row), id)
  }

  /** The messages of one table, row by row in entry order. */
  function TableProblems(k: Kind, rows: Obj<Item>): seq<Problem>
  {
    if rows == [] then [] else RowProblems(k, rows[0].0, rows[0].1) + TableProblems(k, rows[1..])
  }

  /** All messages: crops, then weapons, tools and adventures. */
  function AllProblems(crops: Obj<Item>, weapons: Obj<Item>, tools: Obj<Item>, adventures: Obj<Item>): seq<Problem>
  {
    TableProblems(CropRow, crops) + TableProblems(WeaponRow, weapons)
    + TableProblems(ToolRow, tools) + TableProblems(AdventureRow, adventures)
  }

  /** A number above zero, or a non-empty string that does not read as a negative number. */
  predicate Positive(v: Option<Value>)
  {
    v.Some? && (if v.value.Num? then v.value.n > 0.0
                else v.value.s != "" && (ToNumber(v.value.s).None? || ToNumber(v.value.s).value >= 0.0))
  }

  /** Present, and not reading as a number outside `[lo, hi]`. */
  predicate Within(v: Option<Value>, lo: real, hi: real)
  {
    v.Some? && (NumberOf(v).Some? ==> lo <= NumberOf(v).value <= hi)
  }

  /** Absent, empty, a number (which throws instead, see `TrimThrows`), or a string in the
      given format. */
  predicate Optional(v: Option<Value>, wellFormed: string -> bool)
  {
    v.None? || v.value == Str("") || v.value.Num? || wellFormed(v.value.s)
  }

  /** What a row of each kind must satisfy. */
  predicate RowValid(k: Kind, row: Item)
  {
    match k
    case CropRow =>
      Positive(Get(row, "energy_per_harvest")) && Positive(Get(row, "growth_time_min"))
      && OneOf(Get(row, "tier"), CropTiers) && Within(Get(row, "seed_level"), 0.0, 9.0)
    case WeaponRow =>
      Positive(Get(row, "damage")) && OneOf(Get(row, "type"), WeaponTypes)
      && Truthy(Get(row, "level")) && Within(Get(row, "level"), 1.0, 10.0)
      && Optional(Get(row, "materials"), ValidateMaterialsFormat)
    case ToolRow =>
      OneOf(Get(row, "tier"), ToolTiers) && OneOf(Get(row, "category"), ToolCategories)
      && Optional(Get(row, "materials"), ValidateMaterialsFormat)
    case AdventureRow =>
      Optional(Get(row, "enemyTypes"), ValidateEnemyTypesFormat)
      && Optional(Get(row, "commonMat"), ValidateMaterialsFormat)
  }

  /** A string in a list is truthy unless the list holds the empty string. */
  lemma OneOfTruthy(v: Option<Value>, list: seq<string>)
    requires "" !in list && OneOf(v, list)
    ensures Truthy(v)
  {
  }

  lemma PositiveIff(v: Option<Value>)
    ensures !NotPositive(v) <==> Positive(v)
  {
  }

  /** Text holding a negative integer is flagged like the number itself. */
  lemma NegativeTextFlagged(k: int)
    requires k < 0
    ensures NotPositive(Some(Str(IntToString(k))))
    ensures !Positive(Some(Str(IntToString(k))))
  {
    NumericTextCompared(k, 0.0);
  }

  /** A weapon whose truthy materials field is a number aborts validation. */
  lemma NumericMaterialsThrow(row: Item, x: real)
    requires Get(row, "materials") == Some(Num(x)) && x != 0.0
    ensures RowThrows(WeaponRow, row) && RowThrows(ToolRow, row)
    ensures ValidationThrows([], [("w", row)], [], [])
  {
    assert RowThrows(WeaponRow, [("w", row)][0].1);
  }

  lemma OptionalIff(v: Option<Value>)
    ensures !BadMaterials(v) <==> Optional(v, ValidateMaterialsFormat)
    ensures !BadEnemyTypes(v) <==> Optional(v, ValidateEnemyTypesFormat)
  {
  }

  /** A row raises no message exactly when it is valid. */
  lemma RowProblemsIff(k: Kind, id: string, row: Item)
    ensures RowProblems(k, id, row) == [] <==> RowValid(k, row)
  {
    RowChecksIff(k, row);
  }

  lemma RowChecksIff(k: Kind, row: Item)
    ensures RowChecks(k, row) == [] <==> RowValid(k, row)
  {
    match k
    case CropRow => CropChecksIff(row);
    case WeaponRow => WeaponChecksIff(row);
    case ToolRow => ToolChecksIff(row);
    case AdventureRow => AdventureChecksIff(row);
  }

  lemma CropChecksIff(row: Item)
    ensures CropChecks(row) == [] <==> RowValid(CropRow, row)
  {
    PositiveIff(Get(row, "energy_per_harvest"));
    PositiveIff(Get(row, "growth_time_min"));
  }

  lemma WeaponChecksIff(row: Item)
    ensures WeaponChecks(row) == [] <==> RowValid(WeaponRow, row)
  {
    PositiveIff(Get(row, "damage"));
    OptionalIff(Get(row, "materials"));
    if OneOf(Get(row, "type"), WeaponTypes) {
      OneOfTruthy(Get(row, "type"), WeaponTypes);
    }
  }

  lemma ToolChecksIff(row: Item)
    ensures ToolChecks(row) == [] <==> RowValid(ToolRow, row)
  {
    OptionalIff(Get(row, "materials"));
    if OneOf(Get(row, "tier"), ToolTiers) {
      OneOfTruthy(Get(row, "tier"), ToolTiers);
    }
    if OneOf(Get(row, "category"), ToolCategories) {
      OneOfTruthy(Get(row, "category"), ToolCategories);
    }
  }

  lemma AdventureChecksIff(row: Item)
    ensures AdventureChecks(row) == [] <==> RowValid(AdventureRow, row)
  {
    OptionalIff(Get(row, "enemyTypes"));
    OptionalIff(Get(row, "commonMat"));
  }

  lemma {:induction false} TableProblemsIff(k: Kind, rows: Obj<Item>)
    ensures TableProblems(k, rows) == [] <==> forall i :: 0 <= i < |rows| ==> RowValid(k, rows[i].1)
  {
    if rows != [] {
      RowProblemsIff(k, rows[0].0, rows[0].1);
      TableProblemsIff(k, rows[1..]);
      var p := (x: (string, Item)) => RowValid(k, x.1);
      AllCons(rows, p, forall i :: 0 <= i < |rows| ==> RowValid(k, rows[i].1),
        forall i :: 0 <= i < |rows[1..]| ==> RowValid(k, rows[1..][i].1));
    }
  }

  /** `validateGameValues` finds nothing exactly when every crop, weapon, tool and adventure
      row is valid. */
  lemma AllProblemsIff(crops: Obj<Item>, weapons: Obj<Item>, tools: Obj<Item>, adventures: Obj<Item>)
    ensures AllProblems(crops, weapons, tools, adventures) == [] <==>
      (forall i :: 0 <= i < |crops| ==> RowValid(CropRow, crops[i].1))
      && (forall i :: 0 <= i < |weapons| ==> RowValid(WeaponRow, weapons[i].1))
      && (forall i :: 0 <= i < |tools| ==> RowValid(ToolRow, tools[i].1))
      && (forall i :: 0 <= i < |adventures| ==> RowValid(AdventureRow, adventures[i].1))
  {
    TableProblemsIff(CropRow, crops);
    TableProblemsIff(WeaponRow, weapons);
    TableProblemsIff(ToolRow, tools);
    TableProblemsIff(AdventureRow, adventures);
  }

  /** Every message names a row of its table. */
  lemma {:induction false} TableProblemsNameRows(k: Kind, rows: Obj<Item>)
    ensures forall p :: p in TableProblems(k, rows) ==> exists i :: 0 <= i < |rows| && rows[i].0 == p.id
  {
    if rows != [] {
      TableProblemsNameRows(k, rows[1..]);
      var here := RowProblems(k, rows[0].0, rows[0].1);
      assert TableProblems(k, rows) == here + TableProblems(k, rows[1..]);
      forall p | p in here + TableProblems(k, rows[1..]) ensures exists i :: 0 <= i < |rows| && rows[i].0 == p.id {
        if p in TableProblems(k, rows[1..]) {
          var i :| 0 <= i < |rows[1..]| && rows[1..][i].0 == p.id;
          assert rows[i + 1].0 == p.id;
        } else {
          assert rows[0].0 == p.id;
        }
      }
    }
  }

  // ---------------------------------------------------------------- CSV text

  function AddKey(acc: seq<string>, k: string): seq<string>
  {
    if k == "_csvIndex" || k in acc then acc else acc + [k]
  }

  function AddKeys(acc: seq<string>, o: Item): seq<string>
    decreases |o|
  {
    if o == [] then acc else AddKeys(AddKey(acc, o[0].0), o[1..])
  }

  /** The header of a category's CSV: every key of every row, except `_csvIndex`, in the
      order the keys are first met. */
  function Headers(items: seq<Item>): seq<string>
  {
    if items == [] then [] else AddKeys(Headers(items[..|items| - 1]), items[|items| - 1])
  }

  predicate HasKey(o: Item, k: string)
  {
    exists j :: 0 <= j < |o| && o[j].0 == k
  }

  predicate InSomeRow(items: seq<Item>, k: string)
  {
    exists i :: 0 <= i < |items| && HasKey(items[i], k)
  }

  predicate NoDuplicates(s: seq<string>)
  {
    forall i, j :: 0 <= i < j < |s| ==> s[i] != s[j]
  }

  lemma {:induction false} AddKeysSpec(acc: seq<string>, o: Item)
    requires NoDuplicates(acc)
    ensures NoDuplicates(AddKeys(acc, o))
    ensures forall k :: k in AddKeys(acc, o) <==> k in acc || (k != "_csvIndex" && HasKey(o, k))
    decreases |o|
  {
    if o != [] {
      var acc' := AddKey(acc, o[0].0);
      assert forall k :: k in acc' <==> k in acc || (k != "_csvIndex" && k == o[0].0);
      AddKeysSpec(acc', o[1..]);
      forall k ensures HasKey(o, k) <==> k == o[0].0 || HasKey(o[1..], k) {
        if HasKey(o[1..], k) {
          var j :| 0 <= j < |o[1..]| && o[1..][j].0 == k;
          assert o[j + 1].0 == k;
        }
        if HasKey(o, k) && k != o[0].0 {
          var j :| 0 <= j < |o| && o[j].0 == k;
          assert o[1..][j - 1].0 == k;
        }
      }
    }
  }

  /** The header lists each key of the rows once, and nothing else, leaving out
      `_csvIndex`. */
  lemma {:induction false} HeadersSpec(items: seq<Item>)
    ensures NoDuplicates(Headers(items))
    ensures forall k :: k in Headers(items) <==> k != "_csvIndex" && InSomeRow(items, k)
  {
    if items != [] {
      var init := items[..|items| - 1];
      HeadersSpec(init);
      AddKeysSpec(Headers(init), items[|items| - 1]);
      assert items == init + [items[|items| - 1]];
      forall k ensures InSomeRow(items, k) <==> InSomeRow(init, k) || HasKey(items[|items| - 1], k)
      {
        if InSomeRow(init, k) {
          var i :| 0 <= i < |init| && HasKey(init[i], k);
          assert items[i] == init[i];
        }
      }
    }
  }

  /** A numeric `_csvIndex`, when the row has one. */
  function CsvIndex(it: Item): Option<real>
  {
    var v: Option<Value> := Get(it, "_csvIndex");
    match v
    case Some(Num(x)) => Some(x)
    case _ => None
  }

  /** `item.id || ''` */
  function IdText(it: Item): string
  {
    var v: Option<Value> := Get(it, "id");
    match v
    case Some(Str(s)) => s
    case _ => ""
  }

  /** The CSV row order: indexed rows first, by index; the others by id. */
  predicate CsvLeq(a: Item, b: Item)
  {
    match (CsvIndex(a), CsvIndex(b))
    case (Some(x), Some(y)) => x <= y
    case (Some(_), None) => true
    case (None, Some(_)) => false
    case (None, None) => LexLeq(IdText(a), IdText(b))
  }

  lemma CsvTotal(a: Item, b: Item)
    ensures CsvLeq(a, b) || CsvLeq(b, a)
  {
    if CsvIndex(a).None? && CsvIndex(b).None? {
      LexTotal(IdText(a), IdText(b));
      if IdText(a) == IdText(b) { LexIrreflexive(IdText(a)); }
      if LexLess(IdText(a), IdText(b)) { LexAsymmetric(IdText(a), IdText(b)); }
    }
  }

  lemma CsvTransitive(a: Item, b: Item, c: Item)
    requires CsvLeq(a, b) && CsvLeq(b, c)
    ensures CsvLeq(a, c)
  {
    if CsvIndex(a).None? && CsvIndex(b).None? && CsvIndex(c).None? {
      LexLeqTransitive(IdText(a), IdText(b), IdText(c));
    }
  }

  predicate CsvSorted(s: seq<Item>)
  {
    forall i, j :: 0 <= i < j < |s| ==> CsvLeq(s[i], s[j])
  }

  /** Inserts `x` before the first row it does not follow, so that equal rows keep their
      order. */
  function InsertRow(x: Item, s: seq<Item>): (r: seq<Item>)
    ensures multiset(r) == multiset(s) + multiset{x}
  {
    if s == [] then [x]
    else if CsvLeq(x, s[0]) then [x] + s
    else
      assert s == [s[0]] + s[1..];
      [s[0]] + InsertRow(x, s[1..])
  }

  lemma {:induction false} InsertRowSorted(x: Item, s: seq<Item>)
    requires CsvSorted(s)
    ensures CsvSorted(InsertRow(x, s))
  {
    if s == [] {
    } else if CsvLeq(x, s[0]) {
      forall k | 0 <= k < |s| ensures CsvLeq(x, s[k]) {
        if k > 0 { CsvTransitive(x, s[0], s[k]); }
      }
      ConsSorted(x, s);
    } else {
      CsvTotal(x, s[0]);
      assert CsvSorted(s[1..]);
      InsertRowSorted(x, s[1..]);
      var t := InsertRow(x, s[1..]);
      InsertedAbove(x, s, t);
      ConsSorted(s[0], t);
    }
  }

  /** A row no later than every row of a sorted sequence can head it. */
  lemma ConsSorted(h: Item, t: seq<Item>)
    requires CsvSorted(t)
    requires forall k :: 0 <= k < |t| ==> CsvLeq(h, t[k])
    ensures CsvSorted([h] + t)
  {
    var r := [h] + t;
    forall i, j | 0 <= i < j < |r| ensures CsvLeq(r[i], r[j]) {
      if i == 0 {
        assert r[j] == t[j - 1];
      } else {
        assert r[i] == t[i - 1] && r[j] == t[j - 1];
      }
    }
  }

  /** The head of a sorted sequence, not following `x`, precedes every row of the rest with
      `x` inserted. */
  lemma InsertedAbove(x: Item, s: seq<Item>, t: seq<Item>)
    requires CsvSorted(s) && s != [] && CsvLeq(s[0], x)
    requires t == InsertRow(x, s[1..])
    ensures forall k :: 0 <= k < |t| ==> CsvLeq(s[0], t[k])
  {
    forall k | 0 <= k < |t| ensures CsvLeq(s[0], t[k]) {
      assert t[k] in multiset(t);
      assert t[k] == x || t[k] in multiset(s[1..]);
      if t[k] != x {
        var m :| 0 <= m < |s[1..]| && s[1..][m] == t[k];
        assert s[m + 1] == t[k];
      }
    }
  }

  /** `items.sort(...)` by the CSV row order (a stable sort). */
  function SortRows(s: seq<Item>): (r: seq<Item>)
    ensures multiset(r) == multiset(s) && |r| == |s|
  {
    if s == [] then []
    else
      assert s == [s[0]] + s[1..];
      InsertRow(s[0], SortRows(s[1..]))
  }

  /** The sorted rows are the input rows, with the indexed rows first in index order. */
  lemma {:induction false} SortRowsSpec(s: seq<Item>)
    ensures CsvSorted(SortRows(s))
    ensures var r := SortRows(s);
      forall i, j :: 0 <= i < j < |r| && CsvIndex(r[j]).Some? ==>
        CsvIndex(r[i]).Some? && CsvIndex(r[i]).value <= CsvIndex(r[j]).value
  {
    if s != [] {
      SortRowsSpec(s[1..]);
      InsertRowSorted(s[0], SortRows(s[1..]));
    }
  }

  predicate Safe(t: string)
  {
    ',' !in t && '"' !in t && '\n' !in t
  }

  /** Inner quotes doubled. */
  function DoubleQuotes(s: string): string
  {
    if s == [] then []
    else (if s[0] == '"' then "\"\"" else [s[0]]) + DoubleQuotes(s[1..])
  }

  /** A string field as written: quoted, with inner quotes doubled, when it holds a comma, a
      quote or a newline. */
  function Escape(s: string): string
  {
    if Safe(s) then s else "\"" + DoubleQuotes(s) + "\""
  }

  /** The text a field stands for: `value || ''`, with `numText` the runtime's rendering of
      a number. */
  function Plain(v: Option<Value>, numText: real -> string): string
  {
    if !Truthy(v) then "" else
    match v.value
    case Num(x) => numText(x)
    case Str(t) => t
  }

  /** The field as written. */
  function Cell(v: Option<Value>, numText: real -> string): string
  {
    if !Truthy(v) then "" else
    match v.value
    case Num(x) => numText(x)
    case Str(t) => Escape(t)
  }

  function Cells(headers: seq<string>, item: Item, numText: real -> string): (r: seq<string>)
    ensures |r| == |headers|
    ensures forall i :: 0 <= i < |headers| ==> r[i] == Cell(Get(item, headers[i]), numText)
  {
    if headers == [] then [] else [Cell(Get(item, headers[0]), numText)] + Cells(headers[1..], item, numText)
  }

  function Plains(headers: seq<string>, item: Item, numText: real -> string): (r: seq<string>)
    ensures |r| == |headers|
    ensures forall i :: 0 <= i < |headers| ==> r[i] == Plain(Get(item, headers[i]), numText)
  {
    if headers == [] then [] else [Plain(Get(item, headers[0]), numText)] + Plains(headers[1..], item, numText)
  }

  function RowText(headers: seq<string>, item: Item, numText: real -> string): string
  {
    Join(Cells(headers, item, numText), ",") + "\n"
  }

  function RowsText(headers: seq<string>, items: seq<Item>, numText: real -> string): string
  {
    if items == [] then "" else RowText(headers, items[0], numText) + RowsText(headers, items[1..], numText)
  }

  /** The CSV text of a category's rows, or none when it has no rows. */
  function CsvText(items: seq<Item>, numText: real -> string): Option<string>
  {
    if items == [] then None
    else
      var headers := Headers(items);
      Some(Join(headers, ",") + "\n" + RowsText(headers, SortRows(items), numText))
  }

  lemma StringAssoc(a: string, b: string, c: string)
    ensures a + (b + c) == (a + b) + c
  {
  }

  lemma {:induction false} RowsTextSnoc(headers: seq<string>, items: seq<Item>, numText: real -> string, i: nat)
    requires i < |items|
    ensures RowsText(headers, items[..i + 1], numText) == RowsText(headers, items[..i], numText) + RowText(headers, items[i], numText)
  {
    if i > 0 {
      var tail := items[1..];
      RowsTextSnoc(headers, tail, numText, i - 1);
      assert items[..i + 1][1..] == tail[..i];
      assert items[..i][1..] == tail[..i - 1];
      assert tail[i - 1] == items[i];
      StringAssoc(RowText(headers, items[0], numText), RowsText(headers, tail[..i - 1], numText), RowText(headers, items[i], numText));
    } else {
      assert items[..1] == [items[0]];
    }
  }

  /** Appends one line per row to `content`. */
  method AppendRows(content0: string, headers: seq<string>, rows: seq<Item>, numText: real -> string)
    returns (content: string)
    ensures content == content0 + RowsText(headers, rows, numText)
  {
    content := content0;
    assert rows[..0] == [];
    for i := 0 to |rows|
      invariant content == content0 + RowsText(headers, rows[..i], numText)
    {
      RowsTextSnoc(headers, rows, numText, i);
      content := content + RowText(headers, rows[i], numText);
    }
    assert rows[..|rows|] == rows;
  }

  /** The CSV builder: the header line, then one line per row in the CSV row order. */
  method BuildCsv(items: seq<Item>, numText: real -> string) returns (csv: Option<string>)
    ensures csv == CsvText(items, numText)
  {
    if |items| == 0 {
      return None;
    }
    var headers := Headers(items);
    var sorted := SortRows(items);
    var content := AppendRows(Join(headers, ",") + "\n", headers, sorted, numText);
    csv := Some(content);
  }

  // ---------------------------------------------------------------- reading CSV back

  /** The rest of a quoted field after its opening quote, up to the closing quote; a doubled
      quote stands for one (section 2, rule 7 of RFC 4180). */
  function ReadQuoted(s: string): (r: Option<(string, string)>)
    ensures r.Some? ==> |r.value.1| < |s|
    decreases |s|
  {
    if s == [] then None
    else if s[0] == '"' then
      if |s| >= 2 && s[1] == '"' then
        match ReadQuoted(s[2..])
        case Some(p) => Some(("\"" + p.0, p.1))
        case None => None
      else Some(("", s[1..]))
    else
      match ReadQuoted(s[1..])
      case Some(p) => Some(([s[0]] + p.0, p.1))
      case None => None
  }

  /** An unquoted field: up to the next comma or line break. */
  function ReadPlain(s: string): (r: (string, string))
    ensures |r.1| <= |s|
  {
    if s == [] || s[0] == ',' || s[0] == '\n' then ("", s)
    else
      var p := ReadPlain(s[1..]);
      ([s[0]] + p.0, p.1)
  }

  function ReadField(s: string): (r: Option<(string, string)>)
    ensures r.Some? ==> |r.value.1| <= |s|
  {
    if s != [] && s[0] == '"' then ReadQuoted(s[1..]) else Some(ReadPlain(s))
  }

  /** One record: fields separated by commas and ended by a line break. */
  function ReadRecord(s: string): (r: Option<(seq<string>, string)>)
    ensures r.Some? ==> |r.value.1| < |s|
    decreases |s|
  {
    match ReadField(s)
    case None => None
    case Some(p) =>
      if p.1 != [] && p.1[0] == '\n' then Some(([p.0], p.1[1..]))
      else if p.1 != [] && p.1[0] == ',' then
        match ReadRecord(p.1[1..])
        case Some(q) => Some(([p.0] + q.0, q.1))
        case None => None
      else None
  }

  /** A whole document: records until the text ends. */
  function ReadDocument(s: string): Option<seq<seq<string>>>
    decreases |s|
  {
    if s == [] then Some([])
    else
      match ReadRecord(s)
      case None => None
      case Some(p) =>
        match ReadDocument(p.1)
        case Some(rs) => Some([p.0] + rs)
        case None => None
  }

  /** What follows a field: a comma or a line break. */
  predicate FieldEnd(u: string)
  {
    u != [] && (u[0] == ',' || u[0] == '\n')
  }

  lemma {:induction false} ReadQuotedBack(s: string, u: string)
    requires FieldEnd(u)
    ensures ReadQuoted(DoubleQuotes(s) + "\"" + u) == Some((s, u))
  {
    if s == [] {
      assert DoubleQuotes(s) + "\"" + u == ['"'] + u;
    } else {
      ReadQuotedBack(s[1..], u);
      if s[0] == '"' {
        QuoteReadBack(s, u);
      } else {
        PlainReadBack(s, u);
      }
    }
  }

  /** A doubled quote is read back as one quote. */
  lemma QuoteReadBack(s: string, u: string)
    requires s != [] && s[0] == '"'
    requires ReadQuoted(DoubleQuotes(s[1..]) + "\"" + u) == Some((s[1..], u))
    ensures ReadQuoted(DoubleQuotes(s) + "\"" + u) == Some((s, u))
  {
    var t := DoubleQuotes(s[1..]) + "\"" + u;
    assert DoubleQuotes(s) + "\"" + u == ['"', '"'] + t;
    assert (['"', '"'] + t)[2..] == t;
    assert [s[0]] + s[1..] == s;
  }

  /** Any other character inside the quotes is read back as itself. */
  lemma PlainReadBack(s: string, u: string)
    requires s != [] && s[0] != '"'
    requires ReadQuoted(DoubleQuotes(s[1..]) + "\"" + u) == Some((s[1..], u))
    ensures ReadQuoted(DoubleQuotes(s) + "\"" + u) == Some((s, u))
  {
    var t := DoubleQuotes(s[1..]) + "\"" + u;
    assert DoubleQuotes(s) + "\"" + u == [s[0]] + t;
    assert ([s[0]] + t)[1..] == t;
    assert [s[0]] + s[1..] == s;
  }

  lemma {:induction false} ReadPlainBack(s: string, u: string)
    requires Safe(s) && FieldEnd(u)
    ensures ReadPlain(s + u) == (s, u)
  {
    if s == [] {
      assert s + u == u;
    } else {
      assert (s + u)[1..] == s[1..] + u;
      assert Safe(s[1..]) by {
        assert forall c :: c in s[1..] ==> c in s;
      }
      ReadPlainBack(s[1..], u);
      assert [s[0]] + s[1..] == s;
    }
  }

  /** A field text written as `f`: the safe text itself, or `f` quoted with doubled quotes. */
  predicate Encodes(text: string, f: string)
  {
    (Safe(f) && text == f) || text == "\"" + DoubleQuotes(f) + "\""
  }

  lemma ReadFieldBack(text: string, f: string, u: string)
    requires Encodes(text, f) && FieldEnd(u)
    ensures ReadField(text + u) == Some((f, u))
  {
    if Safe(f) && text == f {
      ReadPlainBack(f, u);
      if f != [] { assert f[0] in f; }
    } else {
      ReadQuotedBack(f, u);
      assert text + u == ['"'] + (DoubleQuotes(f) + "\"" + u);
    }
  }

  lemma {:induction false} ReadRecordBack(texts: seq<string>, fields: seq<string>, t: string)
    requires |texts| == |fields| >= 1
    requires forall i :: 0 <= i < |texts| ==> Encodes(texts[i], fields[i])
    ensures ReadRecord(Join(texts, ",") + "\n" + t) == Some((fields, t))
    decreases |texts|
  {
    if |texts| == 1 {
      ReadFieldBack(texts[0], fields[0], "\n" + t);
      assert Join(texts, ",") + "\n" + t == texts[0] + ("\n" + t);
      assert ("\n" + t)[1..] == t;
      assert fields == [fields[0]];
    } else {
      var rest := Join(texts[1..], ",") + "\n" + t;
      ReadFieldBack(texts[0], fields[0], "," + rest);
      assert Join(texts, ",") + "\n" + t == texts[0] + ("," + rest);
      assert ("," + rest)[1..] == rest;
      ReadRecordBack(texts[1..], fields[1..], t);
      assert [fields[0]] + fields[1..] == fields;
    }
  }

  /** Each written cell encodes the text of its value, given safe number renderings. */
  lemma CellEncodes(v: Option<Value>, numText: real -> string)
    requires forall x :: Safe(numText(x))
    ensures Encodes(Cell(v, numText), Plain(v, numText))
  {
  }

  lemma {:induction false} ReadRowsBack(headers: seq<string>, items: seq<Item>, numText: real -> string)
    requires headers != []
    requires forall x :: Safe(numText(x))
    ensures ReadDocument(RowsText(headers, items, numText)) == Some(PlainRows(headers, items, numText))
  {
    if items != [] {
      var cells := Cells(headers, items[0], numText);
      var plains := Plains(headers, items[0], numText);
      forall i | 0 <= i < |cells| ensures Encodes(cells[i], plains[i]) {
        CellEncodes(Get(items[0], headers[i]), numText);
      }
      var rest := RowsText(headers, items[1..], numText);
      ReadRecordBack(cells, plains, rest);
      assert RowsText(headers, items, numText) == Join(cells, ",") + "\n" + rest;
      ReadRowsBack(headers, items[1..], numText);
    }
  }

  /** The text of each row's field under each header. */
  function PlainRows(headers: seq<string>, items: seq<Item>, numText: real -> string): (r: seq<seq<string>>)
    ensures |r| == |items|
    ensures forall i :: 0 <= i < |items| ==> r[i] == Plains(headers, items[i], numText)
  {
    if items == [] then [] else [Plains(headers, items[0], numText)] + PlainRows(headers, items[1..], numText)
  }

  /** Reading the written CSV back by the rules of section 2 of RFC 4180 gives the header
      and, for each row in the CSV row order, the text of its field under each header, as
      long as the header names and the number renderings hold no comma, quote or newline. */
  lemma CsvRoundTrip(items: seq<Item>, numText: real -> string)
    requires Headers(items) != []
    requires forall k :: k in Headers(items) ==> Safe(k)
    requires forall x :: Safe(numText(x))
    ensures CsvText(items, numText).Some?
    ensures ReadDocument(CsvText(items, numText).value)
      == Some([Headers(items)] + PlainRows(Headers(items), SortRows(items), numText))
  {
    var headers := Headers(items);
    var rows := RowsText(headers, SortRows(items), numText);
    forall i | 0 <= i < |headers| ensures Encodes(headers[i], headers[i]) {
      assert headers[i] in headers;
    }
    ReadRecordBack(headers, headers, rows);
    ReadRowsBack(headers, SortRows(items), numText);
  }

  // ---------------------------------------------------------------- the store

  /** The names `getDataRef` resolves. */
  const Categories: set<string> := {
    "crops", "adventures", "mining", "helpers", "tools", "storage", "weapons", "armorBase",
    "armorPotential", "armorEffects", "routeLootTable", "enemyTypesDamage", "routeWaveComposition",
    "helperRoles", "towerLevels", "vendors", "bossMaterials", "farmCleanups", "farmStages",
    "farmProjects", "gnomeRoles", "xpProgression", "townBlacksmith", "townAgronomist",
    "townCarpenter", "townLandSteward", "townMaterialTrader", "townSkillsTrainer",
    "forgeCrafting", "materialRefinement", "phaseTransitions"}

  /** `delete o[k]` */
  function Remove<V>(o: Obj<V>, k: string): (r: Obj<V>)
    ensures Get(r, k).None?
    ensures forall k' :: k' != k ==> Get(r, k') == Get(o, k')
  {
    if o == [] then []
    else if o[0].0 == k then Remove(o[1..], k)
    else [o[0]] + Remove(o[1..], k)
  }

  /** `Object.values(o)` */
  function Values<V>(o: Obj<V>): (r: seq<V>)
    ensures |r| == |o|
    ensures forall i :: 0 <= i < |o| ==> r[i] == o[i].1
  {
    if o == [] then [] else [o[0].1] + Values(o[1..])
  }

  /** The game-values store: one table per category, the last validation messages and the
      unsaved-changes flag. */
  class Store {
    var data: map<string, Obj<Item>>
    var validationErrors: seq<Problem>
    var hasUnsavedChanges: bool

    /** Every category resolves to a table. */
    predicate Valid()
      reads this
    {
      data.Keys == Categories
    }

    constructor()
      ensures Valid() && validationErrors == [] && !hasUnsavedChanges
      ensures forall c :: c in data ==> data[c] == []
    {
      data := map c | c in Categories :: [];
      validationErrors := [];
      hasUnsavedChanges := false;
    }

    function Table(category: string): Obj<Item>
      reads this
    {
      if category in data then data[category] else []
    }

    /** `getCrop(id)`: the crop row, or null when there is none. */
    function GetCrop(id: string): (r: Option<Item>)
      reads this
      ensures r.Some? <==> exists i :: 0 <= i < |Table("crops")| && Table("crops")[i].0 == id
      ensures r.Some? ==> exists i :: 0 <= i < |Table("crops")| && Table("crops")[i] == (id, r.value)
                                      && forall j :: 0 <= j < i ==> Table("crops")[j].0 != id
    {
      GetSome(Table("crops"), id);
      GetFirst(Table("crops"), id);
      Get(Table("crops"), id)
    }

    /** `getAdventure(id)`: the adventure row, or null when there is none. */
    function GetAdventure(id: string): (r: Option<Item>)
      reads this
      ensures r.Some? <==> exists i :: 0 <= i < |Table("adventures")| && Table("adventures")[i].0 == id
      ensures r.Some? ==> exists i :: 0 <= i < |Table("adventures")| && Table("adventures")[i] == (id, r.value)
                                      && forall j :: 0 <= j < i ==> Table("adventures")[j].0 != id
    {
      GetSome(Table("adventures"), id);
      GetFirst(Table("adventures"), id);
      Get(Table("adventures"), id)
    }

    /** `validateGameValues()`: collects the messages, stores them, and reports whether there
        were none. */
    method ValidateGameValues() returns (threw: bool, ok: bool)
      modifies this`validationErrors
      ensures threw <==> ValidationThrows(Table("crops"), Table("weapons"), Table("tools"), Table("adventures"))
      ensures threw ==> !ok && validationErrors == old(validationErrors)
      ensures !threw ==>
        validationErrors == AllProblems(Table("crops"), Table("weapons"), Table("tools"), Table("adventures"))
        && (ok <==> validationErrors == [])
    {
      threw := ValidationThrows(Table("crops"), Table("weapons"), Table("tools"), Table("adventures"));
      if threw {
        ok := false;
      } else {
        var errors := AllProblems(Table("crops"), Table("weapons"), Table("tools"), Table("adventures"));
        validationErrors := errors;
        ok := |errors| == 0;
      }
    }

    /** `updateItemValue(category, id, key, value)`: sets one field of an existing row and
        marks the store changed; an unknown category or row changes nothing. */
    method UpdateItemValue(category: string, itemId: string, key: string, value: Value)
      requires Valid()
      modifies this
      ensures Valid() && validationErrors == old(validationErrors)
      ensures category in old(data) && Get(old(data)[category], itemId).Some? ==>
        var before := Get(old(data)[category], itemId).value;
        && hasUnsavedChanges
        && (forall c :: c in data && c != category ==> data[c] == old(data)[c])
        && Get(data[category], itemId).Some?
        && Get(Get(data[category], itemId).value, key) == Some(value)
        && (forall k :: k != key ==> Get(Get(data[category], itemId).value, k) == Get(before, k))
        && (forall id :: id != itemId ==> Get(data[category], id) == Get(old(data)[category], id))
        && |data[category]| == |old(data)[category]|
      ensures !(category in old(data) && Get(old(data)[category], itemId).Some?) ==>
        data == old(data) && hasUnsavedChanges == old(hasUnsavedChanges)
    {
      if category in data {
        var table := data[category];
        var found := Get(table, itemId);
        if found.Some? {
          var updated := Put(found.value, key, value);
          data := data[category := Put(table, itemId, updated)];
          hasUnsavedChanges := true;
        }
      }
    }

    /** `addItem(category, id, row)`: writes the row under `id` (replacing one that is there)
        and marks the store changed; an unknown category changes nothing. */
    method AddItem(category: string, itemId: string, newItem: Item)
      requires Valid()
      modifies this
      ensures Valid() && validationErrors == old(validationErrors)
      ensures category in old(data) ==>
        && hasUnsavedChanges
        && (forall c :: c in data && c != category ==> data[c] == old(data)[c])
        && Get(data[category], itemId) == Some(newItem)
        && (forall id :: id != itemId ==> Get(data[category], id) == Get(old(data)[category], id))
      ensures category !in old(data) ==> data == old(data) && hasUnsavedChanges == old(hasUnsavedChanges)
    {
      if category in data {
        data := data[category := Put(data[category], itemId, newItem)];
        hasUnsavedChanges := true;
      }
    }

    /** `deleteItem(category, id)`: removes an existing row and marks the store changed; an
        unknown category or row changes nothing. */
    method DeleteItem(category: string, itemId: string)
      requires Valid()
      modifies this
      ensures Valid() && validationErrors == old(validationErrors)
      ensures category in old(data) && Get(old(data)[category], itemId).Some? ==>
        && hasUnsavedChanges
        && (forall c :: c in data && c != category ==> data[c] == old(data)[c])
        && Get(data[category], itemId).None?
        && (forall id :: id != itemId ==> Get(data[category], id) == Get(old(data)[category], id))
      ensures !(category in old(data) && Get(old(data)[category], itemId).Some?) ==>
        data == old(data) && hasUnsavedChanges == old(hasUnsavedChanges)
    {
      if category in data && Get(data[category], itemId).Some? {
        data := data[category := Remove(data[category], itemId)];
        hasUnsavedChanges := true;
      }
    }

    /** `exportCategoryAsCSV(category)` without the download: the CSV text of the category's
        rows, or none for an unknown or empty category. */
    method ExportCategoryCsv(category: string, numText: real -> string) returns (csv: Option<string>)
      ensures csv == (if category in data then CsvText(Values(data[category]), numText) else None)
    {
      if category !in data {
        return None;
      }
      csv := BuildCsv(Values(data[category]), numText);
    }
  }
}
