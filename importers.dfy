// The CSV importers: a parsed CSV file arrives as a list of rows (property name to typed cell)
// and each data type's transform turns it into an object keyed by the row's id, with some
// cells converted to numbers and a few derived cells added.

module Importers {
  import opened Common

  /** A cell after CSV parsing with type conversion; an empty cell is null. */
  datatype Field = Null | Number(x: real) | Text(s: string) | Bool(b: bool) | NaN

  /** One CSV row: its cells by column name, in column order. */
  type Row = Obj<Field>

  /** JavaScript truthiness of a cell that may be absent (`None` is undefined). */
  predicate Truthy(v: Option<Field>)
  {
    match v
    case None => false
    case Some(Null) => false
    case Some(Number(x)) => x != 0.0
    case Some(Text(s)) => s != []
    case Some(Bool(b)) => b
    case Some(NaN) => false
  }

  /** `String(f)`; `numText` is the runtime's rendering of a number. */
  function FieldText(f: Field, numText: real -> string): string
  {
    match f
    case Null => "null"
    case Number(x) => numText(x)
    case Text(s) => s
    case Bool(b) => if b then "true" else "false"
    case NaN => "NaN"
  }

  /** The property key a cell names when used as `obj[cell]`. */
  function KeyText(v: Option<Field>, numText: real -> string): string
  {
    if v.None? then "undefined" else FieldText(v.value, numText)
  }

  // ---------------------------------------------------------------- slugs

  function DropSpaces(s: string): (r: string)
    ensures |r| <= |s|
  {
    if s != [] && IsSpace(s[0]) then DropSpaces(s[1..]) else s
  }

  /** `s.replace(/\s+/g, '_')`: each run of white space becomes one underscore. */
  function Underscore(s: string): string
    decreases |s|
  {
    if s == [] then []
    else if IsSpace(s[0]) then "_" + Underscore(DropSpaces(s[1..]))
    else [s[0]] + Underscore(s[1..])
  }

  predicate SlugChar(c: char)
  {
    'a' <= c <= 'z' || IsDigit(c) || c == '_'
  }

  predicate NoSpace(s: string)
  {
    forall i :: 0 <= i < |s| ==> !IsSpace(s[i])
  }

  predicate AllSlug(s: string)
  {
    forall i :: 0 <= i < |s| ==> SlugChar(s[i])
  }

  lemma {:induction false} DropSpacesSpec(s: string)
    ensures DropSpaces(s) == [] || !IsSpace(DropSpaces(s)[0])
    ensures NoSpace(s) ==> DropSpaces(s) == s
  {
    if s != [] && IsSpace(s[0]) { DropSpacesSpec(s[1..]); }
  }

  /** The result holds no white space, and a string without white space is kept as it is. */
  lemma {:induction false} UnderscoreSpec(s: string)
    ensures NoSpace(Underscore(s))
    ensures NoSpace(s) ==> Underscore(s) == s
    decreases |s|
  {
    if s != [] {
      if IsSpace(s[0]) {
        UnderscoreSpec(DropSpaces(s[1..]));
        assert !IsSpace('_');
        var r := Underscore(s);
        assert r == "_" + Underscore(DropSpaces(s[1..]));
        forall i | 0 <= i < |r| ensures !IsSpace(r[i]) {
          if i > 0 { assert r[i] == Underscore(DropSpaces(s[1..]))[i - 1]; }
        }
      } else {
        UnderscoreSpec(s[1..]);
        var r := Underscore(s);
        assert r == [s[0]] + Underscore(s[1..]);
        forall i | 0 <= i < |r| ensures !IsSpace(r[i]) {
          if i > 0 { assert r[i] == Underscore(s[1..])[i - 1]; }
        }
        if NoSpace(s) {
          assert NoSpace(s[1..]) by {
            forall i | 0 <= i < |s[1..]| ensures !IsSpace(s[1..][i]) { assert s[1..][i] == s[i + 1]; }
          }
          assert [s[0]] + s[1..] == s;
        }
      }
    }
  }

  /** `s.replace(/[^a-z0-9_]/g, '')` */
  function KeepSlugChars(s: string): string
  {
    if s == [] then [] else (if SlugChar(s[0]) then [s[0]] else []) + KeepSlugChars(s[1..])
  }

  /** Only letters `a`-`z`, digits and underscores survive, and a string made of them alone is
      kept as it is. */
  lemma {:induction false} KeepSlugCharsSpec(s: string)
    ensures AllSlug(KeepSlugChars(s))
    ensures AllSlug(s) ==> KeepSlugChars(s) == s
  {
    if s != [] {
      KeepSlugCharsSpec(s[1..]);
      var head := if SlugChar(s[0]) then [s[0]] else [];
      var r := KeepSlugChars(s);
      assert r == head + KeepSlugChars(s[1..]);
      forall i | 0 <= i < |r| ensures SlugChar(r[i]) {
        if i >= |head| { assert r[i] == KeepSlugChars(s[1..])[i - |head|]; }
      }
      if AllSlug(s) {
        assert AllSlug(s[1..]) by {
          forall i | 0 <= i < |s[1..]| ensures SlugChar(s[1..][i]) { assert s[1..][i] == s[i + 1]; }
        }
        assert [s[0]] + s[1..] == s;
      }
    }
  }

  /** The key of a crop: its name in lower case, white-space runs turned into underscores, and
      every other character outside `a`-`z`, `0`-`9` and `_` removed. */
  function CropKey(name: string): string
  {
    KeepSlugChars(Underscore(Lower(name)))
  }

  lemma {:induction false} LowerSlug(s: string)
    requires AllSlug(s)
    ensures Lower(s) == s
  {
    if s != [] {
      assert AllSlug(s[1..]) by {
        forall i | 0 <= i < |s[1..]| ensures SlugChar(s[1..][i]) { assert s[1..][i] == s[i + 1]; }
      }
      LowerSlug(s[1..]);
      assert SlugChar(s[0]);
      assert [s[0]] + s[1..] == s;
    }
  }

  /** A crop key is made of slug characters only, and turning a key into a key again changes
      nothing. */
  lemma CropKeySpec(name: string)
    ensures AllSlug(CropKey(name))
    ensures CropKey(CropKey(name)) == CropKey(name)
  {
    var k := CropKey(name);
    KeepSlugCharsSpec(Underscore(Lower(name)));
    LowerSlug(k);
    assert NoSpace(k) by {
      forall i | 0 <= i < |k| ensures !IsSpace(k[i]) { assert SlugChar(k[i]); }
    }
    UnderscoreSpec(k);
    KeepSlugCharsSpec(k);
  }

  // ---------------------------------------------------------------- keyed objects

  /** Rows gathered into an object: row `i` is stored under `key(rows[i], i)` and a later row
      with the same key overwrites. */
  function IndexBy<T>(rows: seq<Row>, key: (Row, nat) -> string, make: Row -> T): Obj<T>
  {
    if rows == [] then []
    else
      var n := |rows| - 1;
      Put(IndexBy(rows[..n], key, make), key(rows[n], n), make(rows[n]))
  }

  predicate KeyedAt(rows: seq<Row>, key: (Row, nat) -> string, i: int, k: string)
  {
    0 <= i < |rows| && key(rows[i], i) == k
  }

  /** No later row has the same key as row `i`. */
  predicate LastOfKey(rows: seq<Row>, key: (Row, nat) -> string, i: int)
    requires 0 <= i < |rows|
  {
    forall j :: i < j < |rows| ==> key(rows[j], j) != key(rows[i], i)
  }

  predicate HasKeyed(rows: seq<Row>, key: (Row, nat) -> string, k: string)
  {
    exists i :: 0 <= i < |rows| && KeyedAt(rows, key, i, k)
  }

  lemma {:induction false} IndexByKeys<T>(rows: seq<Row>, key: (Row, nat) -> string, make: Row -> T)
    ensures DistinctKeys(IndexBy(rows, key, make))
    ensures forall k :: Get(IndexBy(rows, key, make), k).Some? <==> HasKeyed(rows, key, k)
  {
    if rows != [] {
      var n := |rows| - 1;
      var init := rows[..n];
      IndexByKeys(init, key, make);
      PutKeepsDistinct(IndexBy(init, key, make), key(rows[n], n), make(rows[n]));
      forall k ensures HasKeyed(rows, key, k) <==> HasKeyed(init, key, k) || key(rows[n], n) == k {
        if HasKeyed(rows, key, k) {
          var i :| 0 <= i < |rows| && KeyedAt(rows, key, i, k);
          if i < n {
            assert init[i] == rows[i];
            assert KeyedAt(init, key, i, k);
          }
        }
        if HasKeyed(init, key, k) {
          var i :| 0 <= i < |init| && KeyedAt(init, key, i, k);
          assert init[i] == rows[i];
          assert KeyedAt(rows, key, i, k);
        }
        if key(rows[n], n) == k { assert KeyedAt(rows, key, n, k); }
      }
    }
  }

  lemma {:induction false} IndexByLast<T>(rows: seq<Row>, key: (Row, nat) -> string, make: Row -> T, i: nat)
    requires i < |rows| && LastOfKey(rows, key, i)
    ensures Get(IndexBy(rows, key, make), key(rows[i], i)) == Some(make(rows[i]))
  {
    var n := |rows| - 1;
    if i < n {
      var init := rows[..n];
      assert init[i] == rows[i];
      assert LastOfKey(init, key, i) by {
        forall j | i < j < |init| ensures key(init[j], j) != key(init[i], i) { assert init[j] == rows[j]; }
      }
      IndexByLast(init, key, make, i);
      assert key(rows[n], n) != key(rows[i], i);
    }
  }

  /** The object holds one entry per distinct key of the rows, and no other, and under each
      key the last row that has it. */
  lemma IndexBySpec<T>(rows: seq<Row>, key: (Row, nat) -> string, make: Row -> T)
    ensures DistinctKeys(IndexBy(rows, key, make))
    ensures forall k :: Get(IndexBy(rows, key, make), k).Some? <==> HasKeyed(rows, key, k)
    ensures forall i :: 0 <= i < |rows| && LastOfKey(rows, key, i) ==>
      Get(IndexBy(rows, key, make), key(rows[i], i)) == Some(make(rows[i]))
  {
    IndexByKeys(rows, key, make);
    forall i | 0 <= i < |rows| && LastOfKey(rows, key, i)
      ensures Get(IndexBy(rows, key, make), key(rows[i], i)) == Some(make(rows[i]))
    {
      IndexByLast(rows, key, make, i);
    }
  }

  /** `item.name?.toLowerCase()` throws: the name is present but is not text. */
  predicate NameThrows(item: Row, keyField: string)
  {
    var name: Option<Field> := Get(item, "name");
    !Truthy(Get(item, keyField)) &&
    match name
    case Some(Number(_)) => true
    case Some(Bool(_)) => true
    case Some(NaN) => true
    case _ => false
  }

  /** The key `arrayToKeyedObject` files row `index` under: the key field when truthy, else
      the lower-cased name with white-space runs as underscores, else `item_<index>`. */
  function ArrayKey(item: Row, index: nat, keyField: string, numText: real -> string): string
  {
    var k := Get(item, keyField);
    if Truthy(k) then FieldText(k.value, numText)
    else
      var name := Get(item, "name");
      if name.Some? && name.value.Text? && name.value.s != [] then Underscore(Lower(name.value.s))
      else "item_" + NatToString(index)
  }

  function ArrayKeyOf(keyField: string, numText: real -> string): (Row, nat) -> string
  {
    (r: Row, i: nat) => ArrayKey(r, i, keyField, numText)
  }

  /** `arrayToKeyedObject(rows, keyField)`, or none when it throws. */
  function ArrayToKeyedObject(rows: seq<Row>, keyField: string, numText: real -> string): Option<Obj<Row>>
  {
    if exists i :: 0 <= i < |rows| && NameThrows(rows[i], keyField) then None
    else Some(IndexBy(rows, ArrayKeyOf(keyField, numText), (r: Row) => r))
  }

  /** It throws exactly when some row has neither a truthy key nor a text name; otherwise each
      key holds the last row filed under it, and there are no other keys. */
  lemma ArrayToKeyedObjectSpec(rows: seq<Row>, keyField: string, numText: real -> string)
    ensures ArrayToKeyedObject(rows, keyField, numText).None? <==>
      exists i :: 0 <= i < |rows| && NameThrows(rows[i], keyField)
    ensures var r := ArrayToKeyedObject(rows, keyField, numText);
      var key := ArrayKeyOf(keyField, numText);
      r.Some? ==>
        && DistinctKeys(r.value)
        && (forall k :: Get(r.value, k).Some? <==> HasKeyed(rows, key, k))
        && (forall i :: 0 <= i < |rows| && LastOfKey(rows, key, i) ==>
             Get(r.value, ArrayKey(rows[i], i, keyField, numText)) == Some(rows[i]))
  {
    IndexBySpec(rows, ArrayKeyOf(keyField, numText), (r: Row) => r);
  }

  // ---------------------------------------------------------------- required fields

  /** A required field found null or undefined in row `index`. */
  datatype Missing = Missing(field: string, index: nat)

  predicate Nullish(v: Option<Field>)
  {
    v.None? || v.value.Null?
  }

  function MissingIn(item: Row, index: nat, fields: seq<string>): seq<Missing>
  {
    if fields == [] then []
    else (if Nullish(Get(item, fields[0])) then [Missing(fields[0], index)] else []) + MissingIn(item, index, fields[1..])
  }

  /** The (row, field) pairs `validateRequiredFields` reports, row by row. */
  function MissingFields(rows: seq<Row>, fields: seq<string>): seq<Missing>
  {
    if rows == [] then [] else MissingFields(rows[..|rows| - 1], fields) + MissingIn(rows[|rows| - 1], |rows| - 1, fields)
  }

  /** The message for one missing field. */
  function MissingMessage(m: Missing, dataType: string): string
  {
    "Missing required field '" + m.field + "' in " + dataType + " at index " + NatToString(m.index)
  }

  predicate MissingAt(rows: seq<Row>, fields: seq<string>, m: Missing)
  {
    m.index < |rows| && m.field in fields && Nullish(Get(rows[m.index], m.field))
  }

  /** `validateRequiredFields(rows, fields, dataType)`: a message for each (row, field) pair
      whose value is null or undefined, and no other message. */
  function ValidateRequiredFields(rows: seq<Row>, fields: seq<string>, dataType: string): (r: seq<string>)
    ensures forall m :: MissingAt(rows, fields, m) ==> MissingMessage(m, dataType) in r
    ensures forall i :: 0 <= i < |r| ==> exists m :: MissingAt(rows, fields, m) && r[i] == MissingMessage(m, dataType)
    ensures |r| == |MissingFields(rows, fields)|
    ensures forall i :: 0 <= i < |r| ==> r[i] == MissingMessage(MissingFields(rows, fields)[i], dataType)
  {
    var ms := MissingFields(rows, fields);
    MissingFieldsAt(rows, fields);
    var r := seq(|ms|, i requires 0 <= i < |ms| => MissingMessage(ms[i], dataType));
    assert forall m :: m in ms ==> MissingMessage(m, dataType) in r by {
      forall m | m in ms ensures MissingMessage(m, dataType) in r {
        var i :| 0 <= i < |ms| && ms[i] == m;
        assert r[i] == MissingMessage(m, dataType);
      }
    }
    assert forall i :: 0 <= i < |r| ==> ms[i] in ms && r[i] == MissingMessage(ms[i], dataType);
    r
  }

  lemma {:induction false} MissingInSpec(item: Row, index: nat, fields: seq<string>)
    ensures forall m :: m in MissingIn(item, index, fields) <==>
      m.index == index && m.field in fields && Nullish(Get(item, m.field))
    ensures NoDuplicates(fields) ==> NoDuplicates(MissingIn(item, index, fields))
  {
    if fields != [] {
      MissingInSpec(item, index, fields[1..]);
      assert fields == [fields[0]] + fields[1..];
      if NoDuplicates(fields) {
        assert NoDuplicates(fields[1..]) by {
          forall i, j | 0 <= i < j < |fields[1..]| ensures fields[1..][i] != fields[1..][j] {
            assert fields[1..][i] == fields[i + 1] && fields[1..][j] == fields[j + 1];
          }
        }
        assert fields[0] !in fields[1..] by {
          forall i | 0 <= i < |fields[1..]| ensures fields[1..][i] != fields[0] { assert fields[1..][i] == fields[i + 1]; }
        }
      }
    }
  }

  /** `f` comes before `g` in the field list. */
  predicate FieldBefore(fields: seq<string>, f: string, g: string)
  {
    exists p, q :: 0 <= p < q < |fields| && fields[p] == f && fields[q] == g
  }

  /** Reports listed row by row, and within a row in field-list order. */
  predicate ReportOrdered(ms: seq<Missing>, fields: seq<string>)
  {
    forall i, j :: 0 <= i < j < |ms| ==>
      ms[i].index < ms[j].index || (ms[i].index == ms[j].index && FieldBefore(fields, ms[i].field, ms[j].field))
  }

  predicate NoDuplicates<T(==)>(s: seq<T>)
  {
    forall i, j :: 0 <= i < j < |s| ==> s[i] != s[j]
  }

  lemma ReportOrderedWiden(ms: seq<Missing>, fields: seq<string>)
    requires fields != [] && ReportOrdered(ms, fields[1..])
    ensures ReportOrdered(ms, fields)
  {
    forall i, j | 0 <= i < j < |ms| && ms[i].index == ms[j].index && FieldBefore(fields[1..], ms[i].field, ms[j].field)
      ensures FieldBefore(fields, ms[i].field, ms[j].field)
    {
      var p, q :| 0 <= p < q < |fields[1..]| && fields[1..][p] == ms[i].field && fields[1..][q] == ms[j].field;
      assert fields[p + 1] == ms[i].field && fields[q + 1] == ms[j].field;
    }
  }

  lemma ReportOrderedCons(h: Missing, ms: seq<Missing>, fields: seq<string>)
    requires ReportOrdered(ms, fields)
    requires forall j :: 0 <= j < |ms| ==> ms[j].index == h.index && FieldBefore(fields, h.field, ms[j].field)
    ensures ReportOrdered([h] + ms, fields)
  {
    var r := [h] + ms;
    forall i, j | 0 <= i < j < |r|
      ensures r[i].index < r[j].index || (r[i].index == r[j].index && FieldBefore(fields, r[i].field, r[j].field))
    {
      if i == 0 { assert r[j] == ms[j - 1]; } else { assert r[i] == ms[i - 1] && r[j] == ms[j - 1]; }
    }
  }

  lemma {:induction false} MissingInOrdered(item: Row, index: nat, fields: seq<string>)
    ensures ReportOrdered(MissingIn(item, index, fields), fields)
  {
    if fields != [] {
      var tl := fields[1..];
      MissingInOrdered(item, index, tl);
      MissingInSpec(item, index, tl);
      var t := MissingIn(item, index, tl);
      ReportOrderedWiden(t, fields);
      if Nullish(Get(item, fields[0])) {
        forall j | 0 <= j < |t| ensures t[j].index == index && FieldBefore(fields, fields[0], t[j].field) {
          assert t[j] in t;
          var q :| 0 <= q < |tl| && tl[q] == t[j].field;
          assert fields[q + 1] == t[j].field;
        }
        ReportOrderedCons(Missing(fields[0], index), t, fields);
      }
    }
  }

  lemma {:induction false} MissingFieldsAt(rows: seq<Row>, fields: seq<string>)
    ensures forall m :: m in MissingFields(rows, fields) <==> MissingAt(rows, fields, m)
  {
    if rows != [] {
      var n := |rows| - 1;
      var init := rows[..n];
      MissingFieldsAt(init, fields);
      MissingInSpec(rows[n], n, fields);
      forall m ensures m in MissingFields(rows, fields) <==> MissingAt(rows, fields, m) {
        if m.index < n { assert init[m.index] == rows[m.index]; }
      }
    }
  }

  /** Reports of earlier rows followed by reports of row `n`. */
  lemma ConcatReports(a: seq<Missing>, b: seq<Missing>, n: nat, fields: seq<string>)
    requires forall i :: 0 <= i < |a| ==> a[i].index < n
    requires forall i :: 0 <= i < |b| ==> b[i].index == n
    ensures ReportOrdered(a, fields) && ReportOrdered(b, fields) ==> ReportOrdered(a + b, fields)
    ensures NoDuplicates(a) && NoDuplicates(b) ==> NoDuplicates(a + b)
  {
    var ms := a + b;
    if ReportOrdered(a, fields) && ReportOrdered(b, fields) {
      forall i, j | 0 <= i < j < |ms|
        ensures ms[i].index < ms[j].index || (ms[i].index == ms[j].index && FieldBefore(fields, ms[i].field, ms[j].field))
      {
        if j >= |a| && i < |a| { assert ms[i] == a[i] && ms[j] == b[j - |a|]; }
        if i >= |a| { assert ms[i] == b[i - |a|] && ms[j] == b[j - |a|]; }
        if j < |a| { assert ms[i] == a[i] && ms[j] == a[j]; }
      }
    }
    if NoDuplicates(a) && NoDuplicates(b) {
      forall i, j | 0 <= i < j < |ms| ensures ms[i] != ms[j] {
        if j >= |a| && i < |a| { assert ms[i] == a[i] && ms[j] == b[j - |a|]; }
        if i >= |a| { assert ms[i] == b[i - |a|] && ms[j] == b[j - |a|]; }
        if j < |a| { assert ms[i] == a[i] && ms[j] == a[j]; }
      }
    }
  }

  lemma {:induction false} MissingFieldsOrder(rows: seq<Row>, fields: seq<string>)
    ensures ReportOrdered(MissingFields(rows, fields), fields)
    ensures NoDuplicates(fields) ==> NoDuplicates(MissingFields(rows, fields))
  {
    if rows != [] {
      var n := |rows| - 1;
      var init := rows[..n];
      MissingFieldsOrder(init, fields);
      MissingFieldsAt(init, fields);
      MissingInSpec(rows[n], n, fields);
      MissingInOrdered(rows[n], n, fields);
      var a := MissingFields(init, fields);
      var b := MissingIn(rows[n], n, fields);
      forall i | 0 <= i < |a| ensures a[i].index < n { assert a[i] in a; }
      forall i | 0 <= i < |b| ensures b[i].index == n { assert b[i] in b; }
      ConcatReports(a, b, n, fields);
    }
  }

  /** One report for each (row, field) pair whose value is null or undefined, and no other:
      no pair is reported twice when the field list has no repeats, and pairs are reported
      row by row and within a row in field-list order. */
  lemma MissingFieldsSpec(rows: seq<Row>, fields: seq<string>)
    ensures forall m :: m in MissingFields(rows, fields) <==> MissingAt(rows, fields, m)
    ensures NoDuplicates(fields) ==> NoDuplicates(MissingFields(rows, fields))
    ensures ReportOrdered(MissingFields(rows, fields), fields)
  {
    MissingFieldsAt(rows, fields);
    MissingFieldsOrder(rows, fields);
  }

  // ---------------------------------------------------------------- number cells

  /** Truncation toward zero, as `parseInt` of a number's decimal text gives. */
  function Trunc(x: real): int
  {
    if x >= 0.0 then x.Floor else -((-x).Floor)
  }

  /** `parseInt(cell)`; `None` stands for NaN. */
  function ParseIntOf(v: Option<Field>): Option<int>
  {
    match v
    case Some(Number(x)) => Some(Trunc(x))
    case Some(Text(s)) => ParseInt(s)
    case _ => None
  }

  /** `parseFloat(s)` on decimal text: leading white space, an optional sign, digits with an
      optional fraction, and at least one digit. */
  function ParseFloat(s: string): Option<real>
  {
    var t := TrimStart(s);
    var neg := t != [] && t[0] == '-';
    var u := if t != [] && (t[0] == '+' || t[0] == '-') then t[1..] else t;
    var n := DigitRun(u);
    DigitRunSpec(u);
    var f := if n < |u| && u[n] == '.' then u[n + 1..] else [];
    var m := DigitRun(f);
    DigitRunSpec(f);
    if n + m == 0 then None
    else
      var v: real := DigitsValue(u[..n]) as real + DigitsValue(f[..m]) as real / Pow10(m) as real;
      Some(if neg then -v else v)
  }

  /** parseFloat reads back an integer written in decimal, as parseInt does. */
  lemma ParseFloatOfNatToString(n: nat)
    ensures ParseFloat(NatToString(n)) == Some(n as real)
  {
    var s := NatToString(n);
    assert TrimStart(s) == s;
    assert s[0] != '+' && s[0] != '-';
    DigitRunAll(s);
    assert s[..|s|] == s;
    NatToStringValue(n);
    assert DigitRun([]) == 0;
    var v: real := DigitsValue(s) as real + DigitsValue([]) as real / Pow10(0) as real;
    assert v == n as real;
  }

  /** `parseFloat(cell)` */
  function ParseFloatOf(v: Option<Field>): Option<real>
  {
    match v
    case Some(Number(x)) => Some(x)
    case Some(Text(s)) => ParseFloat(s)
    case _ => None
  }

  /** `parseInt(row[s1]) || parseInt(row[s2]) || ... || d` */
  function IntChain(row: Row, sources: seq<string>, d: int): int
  {
    if sources == [] then d
    else
      var p := ParseIntOf(Get(row, sources[0]));
      if p.Some? && p.value != 0 then p.value else IntChain(row, sources[1..], d)
  }

  /** `parseFloat(row[name]) || d` */
  function FloatOr(row: Row, name: string, d: real): real
  {
    var p := ParseFloatOf(Get(row, name));
    if p.Some? && p.value != 0.0 then p.value else d
  }

  /** One converted cell of a transform. */
  datatype Conversion =
    | IntOf(name: string, sources: seq<string>, intDefault: int)
    | FloatOf(name: string, realDefault: real)
    | IsTrueText(name: string)

  function Converted(row: Row, c: Conversion): Field
  {
    match c
    case IntOf(_, sources, d) => Number(IntChain(row, sources, d) as real)
    case FloatOf(name, d) => Number(FloatOr(row, name, d))
    case IsTrueText(name) => Bool(Get(row, name) == Some(Text("true")))
  }

  /** `{...row, c1: ..., c2: ...}`: the cells of `acc` with each conversion of `row` written
      over them, in order. */
  function Apply(row: Row, acc: Row, cs: seq<Conversion>): Row
    decreases |cs|
  {
    if cs == [] then acc else Apply(row, Put(acc, cs[0].name, Converted(row, cs[0])), cs[1..])
  }

  predicate DistinctNames(cs: seq<Conversion>)
  {
    forall i, j :: 0 <= i < j < |cs| ==> cs[i].name != cs[j].name
  }

  predicate Converts(cs: seq<Conversion>, k: string)
  {
    exists i :: 0 <= i < |cs| && cs[i].name == k
  }

  /** Each converted cell holds its conversion of the original row, and every other cell is
      kept. */
  lemma {:induction false} ApplySpec(row: Row, acc: Row, cs: seq<Conversion>)
    requires DistinctNames(cs)
    ensures forall i :: 0 <= i < |cs| ==> Get(Apply(row, acc, cs), cs[i].name) == Some(Converted(row, cs[i]))
    ensures forall k :: !Converts(cs, k) ==> Get(Apply(row, acc, cs), k) == Get(acc, k)
    decreases |cs|
  {
    if cs != [] {
      var acc' := Put(acc, cs[0].name, Converted(row, cs[0]));
      assert DistinctNames(cs[1..]) by {
        forall i, j | 0 <= i < j < |cs[1..]| ensures cs[1..][i].name != cs[1..][j].name {
          assert cs[1..][i] == cs[i + 1] && cs[1..][j] == cs[j + 1];
        }
      }
      ApplySpec(row, acc', cs[1..]);
      forall i | 0 <= i < |cs| ensures Get(Apply(row, acc, cs), cs[i].name) == Some(Converted(row, cs[i])) {
        if i == 0 {
          assert !Converts(cs[1..], cs[0].name) by {
            forall j | 0 <= j < |cs[1..]| ensures cs[1..][j].name != cs[0].name { assert cs[1..][j] == cs[j + 1]; }
          }
        } else {
          assert cs[1..][i - 1] == cs[i];
        }
      }
      forall k | !Converts(cs, k) ensures Get(Apply(row, acc, cs), k) == Get(acc, k) {
        assert cs[0].name != k;
        assert !Converts(cs[1..], k) by {
          forall j | 0 <= j < |cs[1..]| ensures cs[1..][j].name != k { assert cs[1..][j] == cs[j + 1]; }
        }
      }
    }
  }

  // ---------------------------------------------------------------- JavaScript arithmetic

  /** `ToNumber` of a cell that is not text; `None` stands for NaN. */
  function NumberOf(v: Option<Field>): Option<real>
  {
    match v
    case None => None
    case Some(Null) => Some(0.0)
    case Some(Number(x)) => Some(x)
    case Some(Bool(b)) => Some(if b then 1.0 else 0.0)
    case Some(Text(_)) => None
    case Some(NaN) => None
  }

  /** `a + b`: text on either side concatenates, otherwise the numbers add. */
  function Plus(a: Field, b: Field, numText: real -> string): Field
  {
    if a.Text? || b.Text? then Text(FieldText(a, numText) + FieldText(b, numText))
    else
      var x := NumberOf(Some(a));
      var y := NumberOf(Some(b));
      if x.Some? && y.Some? then Number(x.value + y.value) else NaN
  }

  lemma PlusNumbers(a: Field, b: Field, numText: real -> string)
    requires a.Number? && b.Number?
    ensures Plus(a, b, numText) == Number(a.x + b.x)
  {
  }

  /** `a - b` */
  function Minus(a: Option<Field>, b: Option<Field>): Field
  {
    var x := NumberOf(a);
    var y := NumberOf(b);
    if x.Some? && y.Some? then Number(x.value - y.value) else NaN
  }

  /** `v || 0` */
  function OrZero(v: Option<Field>): Field
  {
    if Truthy(v) then v.value else Number(0.0)
  }

  // ---------------------------------------------------------------- the transforms

  /** A transform's outcome: the keyed rows, the missing required fields it throws on, or a
      type error thrown by a name that is not text. */
  datatype Outcome<T> = Ok(value: Obj<T>) | Invalid(missing: seq<Missing>) | NameNotText

  function ById(numText: real -> string): (Row, nat) -> string
  {
    (r: Row, i: nat) => KeyText(Get(r, "id"), numText)
  }

  function ByField(field: string, numText: real -> string): (Row, nat) -> string
  {
    (r: Row, i: nat) => KeyText(Get(r, field), numText)
  }

  /** A table transform without required fields: each row keyed by `field`, with its
      conversions applied. */
  function Transform(rows: seq<Row>, field: string, cs: seq<Conversion>, numText: real -> string): Obj<Row>
  {
    IndexBy(rows, ByField(field, numText), (r: Row) => Apply(r, r, cs))
  }

  /** A transform with required fields: it throws when one is missing, and otherwise keys the
      rows with `make`. */
  function Checked<T>(rows: seq<Row>, required: seq<string>, key: (Row, nat) -> string, make: Row -> T): Outcome<T>
  {
    var missing := MissingFields(rows, required);
    if missing != [] then Invalid(missing) else Ok(IndexBy(rows, key, make))
  }

  // crops

  const CropRequired: seq<string> := ["name", "tier", "energy", "growthTime", "seedLevel"]

  const CropConversions: seq<Conversion> := [
    IntOf("seedLevel", ["seedLevel"], 0),
    IntOf("stages", ["stages", "growthStages"], 1),
    FloatOf("growthTime", 1.0),
    FloatOf("energy", 0.0),
    IntOf("seedCost", ["seedCost"], 0),
    IntOf("waterConsumption", ["waterConsumption"], 1)
  ]

  /** 1.0 for three stages, 1.5 for four, 2.0 otherwise. */
  function StageMultiplier(stages: int): real
  {
    if stages == 3 then 1.0 else if stages == 4 then 1.5 else 2.0
  }

  function CropName(row: Row): string
  {
    var name: Option<Field> := Get(row, "name");
    match name
    case Some(Text(s)) => s
    case _ => ""
  }

  /** One crop: its key as `id`, the converted cells, and the stage multiplier. */
  function ProcessCrop(row: Row): Row
  {
    var withId := Put(row, "id", Text(CropKey(CropName(row))));
    Put(Apply(row, withId, CropConversions), "stageMultiplier",
      Number(StageMultiplier(IntChain(row, ["stages", "growthStages"], 1))))
  }

  predicate CropNameThrows(row: Row)
  {
    var name := Get(row, "name");
    name.Some? && !name.value.Text? && !name.value.Null?
  }

  const ByCropKey: (Row, nat) -> string := (r: Row, i: nat) => CropKey(CropName(r))

  /** `processCropsData(rows)` */
  function ProcessCropsData(rows: seq<Row>): Outcome<Row>
  {
    var missing := MissingFields(rows, CropRequired);
    if missing != [] then Invalid(missing)
    else if exists i :: 0 <= i < |rows| && CropNameThrows(rows[i]) then NameNotText
    else Ok(IndexBy(rows, ByCropKey, ProcessCrop))
  }

  /** A cell set first, the conversions applied over it, and a cell set last. */
  lemma PutApplyPut(row: Row, acc: Row, k: string, v: Field, cs: seq<Conversion>, m: string, w: Field)
    requires DistinctNames(cs) && !Converts(cs, k) && !Converts(cs, m) && k != m
    ensures var c := Put(Apply(row, Put(acc, k, v), cs), m, w);
      && Get(c, k) == Some(v)
      && Get(c, m) == Some(w)
      && (forall i :: 0 <= i < |cs| ==> Get(c, cs[i].name) == Some(Converted(row, cs[i])))
      && (forall x :: x != k && x != m && !Converts(cs, x) ==> Get(c, x) == Get(acc, x))
  {
    ApplySpec(row, Put(acc, k, v), cs);
    forall i | 0 <= i < |cs| ensures cs[i].name != m { }
  }

  lemma CropConversionsDistinct()
    ensures DistinctNames(CropConversions)
    ensures !Converts(CropConversions, "id") && !Converts(CropConversions, "stageMultiplier")
  {
  }

  /** A processed crop keeps every cell of its row except the ones it sets: `id` is the crop
      key, each converted cell is its conversion of the row (`parseInt(seedLevel) || 0`,
      `parseInt(stages) || parseInt(growthStages) || 1`, ...), and the stage multiplier is
      derived from the stages. */
  lemma ProcessCropSpec(row: Row)
    ensures var c := ProcessCrop(row);
      && Get(c, "id") == Some(Text(CropKey(CropName(row))))
      && (forall i :: 0 <= i < |CropConversions| ==> Get(c, CropConversions[i].name) == Some(Converted(row, CropConversions[i])))
      && Get(c, "stageMultiplier") == Some(Number(StageMultiplier(IntChain(row, ["stages", "growthStages"], 1))))
      && forall k :: k != "id" && k != "stageMultiplier" && !Converts(CropConversions, k) ==> Get(c, k) == Get(row, k)
  {
    CropConversionsDistinct();
    PutApplyPut(row, row, "id", Text(CropKey(CropName(row))), CropConversions, "stageMultiplier",
      Number(StageMultiplier(IntChain(row, ["stages", "growthStages"], 1))));
  }

  /** processCropsData throws when a required field is missing and otherwise keys each crop by
      its crop key, the last crop of a key winning. */
  lemma ProcessCropsDataSpec(rows: seq<Row>)
    ensures ProcessCropsData(rows).Invalid? <==> exists m :: MissingAt(rows, CropRequired, m)
    ensures ProcessCropsData(rows).Ok? ==> CropsIndexed(rows, ProcessCropsData(rows).value)
  {
    CropsMissingIff(rows);
    CropIndexSpec(rows);
    if ProcessCropsData(rows).Ok? {
      assert ProcessCropsData(rows).value == IndexBy(rows, ByCropKey, ProcessCrop);
    }
  }

  /** Some message is raised exactly when some crop lacks a required field. */
  lemma CropsMissingIff(rows: seq<Row>)
    ensures MissingFields(rows, CropRequired) != [] <==> exists m :: MissingAt(rows, CropRequired, m)
  {
    MissingFieldsSpec(rows, CropRequired);
    var ms := MissingFields(rows, CropRequired);
    if ms != [] { assert ms[0] in ms; }
  }

  /** Crops keyed by crop key: distinct keys, one per keyed row, the last row of a key winning. */
  ghost predicate CropsIndexed(rows: seq<Row>, idx: Obj<Row>)
  {
    && DistinctKeys(idx)
    && (forall k :: Get(idx, k).Some? <==> HasKeyed(rows, ByCropKey, k))
    && (forall i :: 0 <= i < |rows| && LastOfKey(rows, ByCropKey, i) ==>
         Get(idx, CropKey(CropName(rows[i]))) == Some(ProcessCrop(rows[i])))
  }

  lemma CropIndexSpec(rows: seq<Row>)
    ensures CropsIndexed(rows, IndexBy(rows, ByCropKey, ProcessCrop))
  {
    var idx := IndexBy(rows, ByCropKey, ProcessCrop);
    IndexBySpec(rows, ByCropKey, ProcessCrop);
    forall i | 0 <= i < |rows| && LastOfKey(rows, ByCropKey, i)
      ensures Get(idx, CropKey(CropName(rows[i]))) == Some(ProcessCrop(rows[i]))
    {
      assert ByCropKey(rows[i], i) == CropKey(CropName(rows[i]));
    }
  }

  // adventures

  const AdventureRequired: seq<string> := ["id", "name", "shortEnergy", "shortDuration", "shortGold"]

  /** `processAdventuresData(rows)` without the efficiency ratios. */
  function ProcessAdventuresData(rows: seq<Row>, numText: real -> string): Outcome<Row>
  {
    Checked(rows, AdventureRequired, ById(numText), (r: Row) => r)
  }

  // upgrades and combat items

  /** A row with its structured cost object. */
  datatype Costed = Costed(cells: Row, cost: Obj<Field>)

  /** An upgrade row with its cost object, its material total and its total cost. */
  datatype Upgrade = Upgrade(cells: Row, cost: Obj<Field>, totalMaterialCost: Field, totalCost: Field)

  const CostFields: seq<(string, string)> := [
    ("gold", "goldCost"), ("energy", "energyCost"), ("stone", "stoneCost"), ("copper", "copperCost"),
    ("iron", "ironCost"), ("silver", "silverCost"), ("crystal", "crystalCost"), ("mythril", "mythrilCost")
  ]

  /** `{gold: row.goldCost || 0, energy: row.energyCost || 0, ...}` */
  function CostOf(row: Row, fields: seq<(string, string)>): (r: Obj<Field>)
    ensures |r| == |fields|
    ensures forall i :: 0 <= i < |fields| ==> r[i] == (fields[i].0, OrZero(Get(row, fields[i].1)))
  {
    if fields == [] then [] else [(fields[0].0, OrZero(Get(row, fields[0].1)))] + CostOf(row, fields[1..])
  }

  /** `stone + copper + iron + silver + crystal + mythril`, added left to right. */
  function MaterialCost(cost: Obj<Field>, numText: real -> string): Field
    requires |cost| == 8
  {
    Plus(Plus(Plus(Plus(Plus(cost[2].1, cost[3].1, numText), cost[4].1, numText), cost[5].1, numText), cost[6].1, numText), cost[7].1, numText)
  }

  /** One upgrade: its cost object, the material total and the total cost. */
  function ProcessUpgrade(row: Row, numText: real -> string): Upgrade
  {
    CostedWith(row, CostFields, numText)
  }

  function CostedWith(row: Row, fields: seq<(string, string)>, numText: real -> string): Upgrade
    requires |fields| == 8
  {
    var cost := CostOf(row, fields);
    var material := MaterialCost(cost, numText);
    Upgrade(row, cost, material, Plus(Plus(cost[0].1, cost[1].1, numText), material, numText))
  }

  const UpgradeRequired: seq<string> := ["id", "name", "category", "goldCost", "vendor"]

  /** `processUpgradesData(rows)` */
  function ProcessUpgradesData(rows: seq<Row>, numText: real -> string): Outcome<Upgrade>
  {
    Checked(rows, UpgradeRequired, ById(numText), (r: Row) => ProcessUpgrade(r, numText))
  }

  /** A cost cell that is a number, or absent, null or falsy (read as 0). */
  predicate NumericCost(v: Option<Field>)
  {
    !Truthy(v) || v.value.Number?
  }

  function CostValue(v: Option<Field>): real
  {
    if Truthy(v) && v.value.Number? then v.value.x else 0.0
  }

  /** The amount of cost `i` of a row, in the order of `fields`. */
  function CostAt(row: Row, fields: seq<(string, string)>, i: nat): real
    requires i < |fields|
  {
    CostValue(Get(row, fields[i].1))
  }

  lemma SixNumbers(a: Field, b: Field, c: Field, d: Field, e: Field, f: Field, numText: real -> string)
    requires a.Number? && b.Number? && c.Number? && d.Number? && e.Number? && f.Number?
    ensures Plus(Plus(Plus(Plus(Plus(a, b, numText), c, numText), d, numText), e, numText), f, numText)
      == Number(a.x + b.x + c.x + d.x + e.x + f.x)
  {
    var p := Plus(a, b, numText);
    PlusNumbers(a, b, numText);
    var q := Plus(p, c, numText);
    PlusNumbers(p, c, numText);
    var r := Plus(q, d, numText);
    PlusNumbers(q, d, numText);
    var t := Plus(r, e, numText);
    PlusNumbers(r, e, numText);
    PlusNumbers(t, f, numText);
  }

  /** With numeric or missing cost cells, every cost entry is a number: the cell, or 0. */
  lemma CostNumbers(row: Row, fields: seq<(string, string)>)
    requires forall i :: 0 <= i < |fields| ==> NumericCost(Get(row, fields[i].1))
    ensures forall i :: 0 <= i < |fields| ==> CostOf(row, fields)[i].1 == Number(CostAt(row, fields, i))
  {
    var cost := CostOf(row, fields);
    forall i | 0 <= i < |fields| ensures cost[i].1 == Number(CostAt(row, fields, i)) {
      assert NumericCost(Get(row, fields[i].1));
    }
  }

  lemma CostedTotals(row: Row, fields: seq<(string, string)>, numText: real -> string)
    requires |fields| == 8
    requires forall i :: 0 <= i < 8 ==> NumericCost(Get(row, fields[i].1))
    ensures var u := CostedWith(row, fields, numText);
      var m := CostAt(row, fields, 2) + CostAt(row, fields, 3) + CostAt(row, fields, 4)
        + CostAt(row, fields, 5) + CostAt(row, fields, 6) + CostAt(row, fields, 7);
      && (forall i :: 0 <= i < 8 ==> u.cost[i] == (fields[i].0, Number(CostAt(row, fields, i))))
      && u.totalMaterialCost == Number(m)
      && u.totalCost == Number(CostAt(row, fields, 0) + CostAt(row, fields, 1) + m)
  {
    CostNumbers(row, fields);
    var cost := CostOf(row, fields);
    SixNumbers(cost[2].1, cost[3].1, cost[4].1, cost[5].1, cost[6].1, cost[7].1, numText);
    var material := MaterialCost(cost, numText);
    var m := CostAt(row, fields, 2) + CostAt(row, fields, 3) + CostAt(row, fields, 4)
      + CostAt(row, fields, 5) + CostAt(row, fields, 6) + CostAt(row, fields, 7);
    assert material == Number(m);
    var g := Plus(cost[0].1, cost[1].1, numText);
    PlusNumbers(cost[0].1, cost[1].1, numText);
    var total := Plus(g, material, numText);
    PlusNumbers(g, material, numText);
  }

  /** When every cost cell is a number or missing, each missing cost counts as 0, the
      material total is the sum of the six material costs (stone to mythril, entries 2 to 7
      of `CostFields`) and the total cost is gold + energy + that sum. */
  lemma UpgradeTotals(row: Row, numText: real -> string)
    requires forall i :: 0 <= i < |CostFields| ==> NumericCost(Get(row, CostFields[i].1))
    ensures var u := ProcessUpgrade(row, numText);
      var m := CostAt(row, CostFields, 2) + CostAt(row, CostFields, 3) + CostAt(row, CostFields, 4)
        + CostAt(row, CostFields, 5) + CostAt(row, CostFields, 6) + CostAt(row, CostFields, 7);
      && (forall i :: 0 <= i < |CostFields| ==> u.cost[i] == (CostFields[i].0, Number(CostAt(row, CostFields, i))))
      && u.totalMaterialCost == Number(m)
      && u.totalCost == Number(CostAt(row, CostFields, 0) + CostAt(row, CostFields, 1) + m)
  {
    CostedTotals(row, CostFields, numText);
  }

  const CombatRequired: seq<string> := ["id", "name", "type", "category"]

  /** `processCombatData(rows)` */
  function ProcessCombatData(rows: seq<Row>, numText: real -> string): Outcome<Costed>
  {
    Checked(rows, CombatRequired, ById(numText), (r: Row) => Costed(r, CostOf(r, CostFields)))
  }

  // mining and helpers

  const MiningRequired: seq<string> := ["depth", "name", "energyDrain"]

  /** `processMiningData(rows)`, keyed by depth, without the efficiency ratio. */
  function ProcessMiningData(rows: seq<Row>, numText: real -> string): Outcome<Row>
  {
    Checked(rows, MiningRequired, ByField("depth", numText), (r: Row) => r)
  }

  const HelperRequired: seq<string> := ["id", "name", "rescueRoute", "baseHousing"]

  /** One helper with its efficiency gain. */
  function ProcessHelper(row: Row): Row
  {
    Put(row, "efficiencyGain", Minus(Get(row, "maxEfficiency"), Get(row, "baseEfficiency")))
  }

  /** `processHelpersData(rows)` */
  function ProcessHelpersData(rows: seq<Row>, numText: real -> string): Outcome<Row>
  {
    Checked(rows, HelperRequired, ById(numText), ProcessHelper)
  }

  /** A checked transform throws exactly when some required field is null or undefined, and
      otherwise files each row under its key, the last one of a key winning. */
  lemma CheckedSpec<T>(rows: seq<Row>, required: seq<string>, key: (Row, nat) -> string, make: Row -> T)
    ensures Checked(rows, required, key, make).Invalid? <==> exists m :: MissingAt(rows, required, m)
    ensures var r := Checked(rows, required, key, make);
      r.Ok? ==>
        && DistinctKeys(r.value)
        && (forall k :: Get(r.value, k).Some? <==> HasKeyed(rows, key, k))
        && (forall i :: 0 <= i < |rows| && LastOfKey(rows, key, i) ==> Get(r.value, key(rows[i], i)) == Some(make(rows[i])))
  {
    MissingFieldsSpec(rows, required);
    var ms := MissingFields(rows, required);
    if ms != [] { assert ms[0] in ms; }
    IndexBySpec(rows, key, make);
  }

  /** Mining levels are keyed by the text of their depth. */
  lemma MiningKeyedByDepth(rows: seq<Row>, numText: real -> string)
    ensures var r := ProcessMiningData(rows, numText);
      r.Ok? ==> forall i :: 0 <= i < |rows| && LastOfKey(rows, ByField("depth", numText), i) ==>
        Get(r.value, KeyText(Get(rows[i], "depth"), numText)) == Some(rows[i])
  {
    CheckedSpec(rows, MiningRequired, ByField("depth", numText), (r: Row) => r);
  }

  /** A helper's efficiency gain is its maximum less its base efficiency, when both are
      numbers, and its other cells are kept. */
  lemma HelperGain(row: Row)
    requires Get(row, "maxEfficiency").Some? && Get(row, "maxEfficiency").value.Number?
    requires Get(row, "baseEfficiency").Some? && Get(row, "baseEfficiency").value.Number?
    ensures Get(ProcessHelper(row), "efficiencyGain")
      == Some(Number(Get(row, "maxEfficiency").value.x - Get(row, "baseEfficiency").value.x))
    ensures forall k :: k != "efficiencyGain" ==> Get(ProcessHelper(row), k) == Get(row, k)
  {
  }

  // the tables without required fields

  const WeaponConversions: seq<Conversion> := [
    IntOf("level", ["level"], 1), IntOf("goldCost", ["goldCost"], 0), IntOf("energyCost", ["energyCost"], 0),
    IntOf("damage", ["damage"], 0), FloatOf("attackSpeed", 1.0)
  ]

  const ArmorConversions: seq<Conversion> := [
    IntOf("baseDefense", ["baseDefense"], 0), IntOf("effectValue", ["effectValue"], 0), FloatOf("dropWeight", 0.0)
  ]

  const ToolConversions: seq<Conversion> := [
    IntOf("goldCost", ["goldCost"], 0), IntOf("energyCost", ["energyCost"], 0), IntOf("craftTime", ["craftTime"], 0)
  ]

  const HelperRoleConversions: seq<Conversion> := [
    IntOf("baseEffect", ["baseEffect"], 0), FloatOf("effectPerLevel", 0.0), IntOf("maxEffect", ["maxEffect"], 0)
  ]

  const TowerLevelConversions: seq<Conversion> := [
    IntOf("reachLevel", ["reachLevel"], 1), IntOf("seedLevel", ["seedLevel"], 0), IntOf("goldCost", ["goldCost"], 0),
    IntOf("energyCost", ["energyCost"], 0), FloatOf("catchRate", 1.0)
  ]

  const CleanupConversions: seq<Conversion> := [
    IntOf("stage", ["stage"], 1), IntOf("plotsAdded", ["plotsAdded"], 0), IntOf("totalPlots", ["totalPlots"], 0),
    IntOf("energyCost", ["energyCost"], 0), IntOf("cooldown", ["cooldown"], 0), IsTrueText("repeatable")
  ]

  const BossMaterialConversions: seq<Conversion> := [FloatOf("dropChance", 0.0)]

  function ProcessWeaponsData(rows: seq<Row>, numText: real -> string): Obj<Row>
  { Transform(rows, "id", WeaponConversions, numText) }

  function ProcessArmorData(rows: seq<Row>, numText: real -> string): Obj<Row>
  { Transform(rows, "id", ArmorConversions, numText) }

  function ProcessToolsData(rows: seq<Row>, numText: real -> string): Obj<Row>
  { Transform(rows, "id", ToolConversions, numText) }

  /** Helper roles are keyed by their role. */
  function ProcessHelperRolesData(rows: seq<Row>, numText: real -> string): Obj<Row>
  { Transform(rows, "role", HelperRoleConversions, numText) }

  /** Tower levels are keyed by the reach level as written, before its conversion. */
  function ProcessTowerLevelsData(rows: seq<Row>, numText: real -> string): Obj<Row>
  { Transform(rows, "reachLevel", TowerLevelConversions, numText) }

  function ProcessVendorsData(rows: seq<Row>, numText: real -> string): Obj<Row>
  { Transform(rows, "id", [], numText) }

  function ProcessCleanupsData(rows: seq<Row>, numText: real -> string): Obj<Row>
  { Transform(rows, "id", CleanupConversions, numText) }

  function ProcessBossMaterialsData(rows: seq<Row>, numText: real -> string): Obj<Row>
  { Transform(rows, "id", BossMaterialConversions, numText) }

  /** Each row of a plain transform is filed under its key cell, the last one of a key
      winning, with its converted cells set and all others kept. */
  lemma TransformSpec(rows: seq<Row>, field: string, cs: seq<Conversion>, numText: real -> string)
    requires DistinctNames(cs)
    ensures var r := Transform(rows, field, cs, numText);
      && DistinctKeys(r)
      && (forall k :: Get(r, k).Some? <==> HasKeyed(rows, ByField(field, numText), k))
      && forall i :: 0 <= i < |rows| && LastOfKey(rows, ByField(field, numText), i) ==>
        var item := Get(r, KeyText(Get(rows[i], field), numText));
        && item.Some?
        && (forall j :: 0 <= j < |cs| ==> Get(item.value, cs[j].name) == Some(Converted(rows[i], cs[j])))
        && (forall k :: !Converts(cs, k) ==> Get(item.value, k) == Get(rows[i], k))
  {
    var key := ByField(field, numText);
    var make := (r: Row) => Apply(r, r, cs);
    IndexBySpec(rows, key, make);
    forall i | 0 <= i < |rows| && LastOfKey(rows, key, i)
      ensures var item := Get(Transform(rows, field, cs, numText), KeyText(Get(rows[i], field), numText));
        && item.Some?
        && (forall j :: 0 <= j < |cs| ==> Get(item.value, cs[j].name) == Some(Converted(rows[i], cs[j])))
        && (forall k :: !Converts(cs, k) ==> Get(item.value, k) == Get(rows[i], k))
    {
      ApplySpec(rows[i], rows[i], cs);
    }
  }
}
