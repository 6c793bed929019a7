/**
 * `Array.prototype.sort` with a numeric comparator (`(a, b) => key(b) - key(a)` for a
 * descending order). The JavaScript sort is stable, and so is this insertion sort.
 */
module Sorting {

  predicate NonIncreasing<T>(s: seq<T>, key: T -> real)
  {
    forall i, j :: 0 <= i < j < |s| ==> key(s[i]) >= key(s[j])
  }

  predicate NonDecreasingReals(s: seq<real>)
  {
    forall i, j :: 0 <= i < j < |s| ==> s[i] <= s[j]
  }

  /** Places `x` before the first element whose key does not exceed its own. */
  function InsertDesc<T>(x: T, s: seq<T>, key: T -> real): (r: seq<T>)
    ensures multiset(r) == multiset(s) + multiset{x}
    ensures |r| == |s| + 1
  {
    if s == [] || key(s[0]) <= key(x) then [x] + s
    else
      assert s == [s[0]] + s[1..];
      [s[0]] + InsertDesc(x, s[1..], key)
  }

  lemma {:induction false} InsertDescBounded<T>(x: T, s: seq<T>, key: T -> real, b: real)
    requires key(x) <= b
    requires forall i :: 0 <= i < |s| ==> key(s[i]) <= b
    ensures forall i :: 0 <= i < |InsertDesc(x, s, key)| ==> key(InsertDesc(x, s, key)[i]) <= b
  {
    if s != [] && key(s[0]) > key(x) {
      InsertDescBounded(x, s[1..], key, b);
    }
  }

  lemma {:induction false} InsertDescSorted<T>(x: T, s: seq<T>, key: T -> real)
    requires NonIncreasing(s, key)
    ensures NonIncreasing(InsertDesc(x, s, key), key)
  {
    if s != [] && key(s[0]) > key(x) {
      var rest := InsertDesc(x, s[1..], key);
      InsertDescSorted(x, s[1..], key);
      InsertDescBounded(x, s[1..], key, key(s[0]));
      var r := [s[0]] + rest;
      assert forall i :: 1 <= i < |r| ==> r[i] == rest[i - 1];
    }
  }

  /** `s.slice().sort((a, b) => key(b) - key(a))` */
  function SortDesc<T>(s: seq<T>, key: T -> real): (r: seq<T>)
    ensures multiset(r) == multiset(s)
    ensures |r| == |s|
    ensures NonIncreasing(r, key)
  {
    if s == [] then []
    else
      assert s == [s[0]] + s[1..];
      assert multiset(s) == multiset{s[0]} + multiset(s[1..]);
      InsertDescSorted(s[0], SortDesc(s[1..], key), key);
      InsertDesc(s[0], SortDesc(s[1..], key), key)
  }

  function Negate(x: real): real { -x }

  /** `values.sort((a, b) => a - b)` */
  function SortAsc(s: seq<real>): (r: seq<real>)
    ensures multiset(r) == multiset(s)
    ensures |r| == |s|
    ensures NonDecreasingReals(r)
  {
    var r := SortDesc(s, Negate);
    assert forall i, j :: 0 <= i < j < |r| ==> Negate(r[i]) >= Negate(r[j]);
    r
  }

  /** A prefix of a sorted sequence is sorted and holds elements of the whole. */
  lemma TakeSorted<T>(s: seq<T>, key: T -> real, n: nat)
    requires NonIncreasing(s, key)
    ensures NonIncreasing(s[..if n < |s| then n else |s|], key)
    ensures multiset(s[..if n < |s| then n else |s|]) <= multiset(s)
  {
    var k := if n < |s| then n else |s|;
    assert s == s[..k] + s[k..];
    assert multiset(s) == multiset(s[..k]) + multiset(s[k..]);
  }

  /** `sorted.slice(0, n)` of a descending sort: the `n` best, best first. */
  function Top<T>(s: seq<T>, key: T -> real, n: nat): (r: seq<T>)
    ensures |r| <= n && |r| <= |s|
    ensures NonIncreasing(r, key)
    ensures forall x :: x in r ==> x in s
  {
    var sorted := SortDesc(s, key);
    var k := if n < |sorted| then n else |sorted|;
    TakeSorted(sorted, key, n);
    forall x | x in sorted[..k] ensures x in s {
      assert multiset(sorted[..k])[x] > 0;
      assert multiset(sorted)[x] > 0;
    }
    sorted[..k]
  }

  /** The kept elements are a prefix of the sorted whole, the whole when it is short, and
      nothing left out ranks above anything kept. */
  lemma TopKeepsBest<T>(s: seq<T>, key: T -> real, n: nat)
    ensures var all := SortDesc(s, key);
      var r := Top(s, key, n);
      && r == all[..|r|]
      && (|s| <= n ==> r == all)
      && forall x, y :: x in all[|r|..] && y in r ==> key(x) <= key(y)
  {
    var all := SortDesc(s, key);
    var r := Top(s, key, n);
    forall x, y | x in all[|r|..] && y in r ensures key(x) <= key(y) {
      var i :| |r| <= i < |all| && all[i] == x;
      var j :| 0 <= j < |r| && r[j] == y;
      assert all[j] == y;
    }
  }

  /** One element of the input: kept whenever the input is short, and otherwise ranked no
      higher than anything kept. */
  lemma TopKeepsMember<T>(s: seq<T>, key: T -> real, n: nat, x: T)
    requires x in s
    ensures x !in Top(s, key, n) ==> forall y :: y in Top(s, key, n) ==> key(x) <= key(y)
    ensures |s| <= n ==> x in Top(s, key, n)
  {
    var all := SortDesc(s, key);
    TopKeepsBest(s, key, n);
    var r := Top(s, key, n);
    assert multiset(all)[x] > 0;
    assert all == all[..|r|] + all[|r|..];
    if x !in r {
      assert x in all[|r|..];
    }
  }

  // ---------------------------------------------------------------- strings

  /** The default `Array.prototype.sort` order on strings: by character code, a proper prefix
      first. */
  predicate LexLess(a: string, b: string)
  {
    if a == [] then b != []
    else if b == [] then false
    else if a[0] != b[0] then a[0] < b[0]
    else LexLess(a[1..], b[1..])
  }

  lemma {:induction false} LexIrreflexive(a: string)
    ensures !LexLess(a, a)
  {
    if a != [] { LexIrreflexive(a[1..]); }
  }

  lemma {:induction false} LexTotal(a: string, b: string)
    ensures a == b || LexLess(a, b) || LexLess(b, a)
  {
    if a != [] && b != [] && a[0] == b[0] {
      LexTotal(a[1..], b[1..]);
      if a[1..] == b[1..] {
        assert a == [a[0]] + a[1..] && b == [b[0]] + b[1..];
      }
    }
  }

  lemma {:induction false} LexTransitive(a: string, b: string, c: string)
    requires LexLess(a, b) && LexLess(b, c)
    ensures LexLess(a, c)
  {
    if a != [] && b != [] && c != [] && a[0] == b[0] && b[0] == c[0] {
      LexTransitive(a[1..], b[1..], c[1..]);
    }
  }

  lemma LexAsymmetric(a: string, b: string)
    requires LexLess(a, b)
    ensures !LexLess(b, a)
  {
    if LexLess(b, a) {
      LexTransitive(a, b, a);
      LexIrreflexive(a);
    }
  }

  predicate StrictlyAscending(s: seq<string>)
  {
    forall i, j :: 0 <= i < j < |s| ==> LexLess(s[i], s[j])
  }

  /** Inserts `x` into an ascending list unless it is already there. */
  function InsertUnique(x: string, s: seq<string>): (r: seq<string>)
    requires StrictlyAscending(s)
    ensures StrictlyAscending(r)
    ensures forall y :: y in r <==> y == x || y in s
  {
    if s == [] then [x]
    else if x == s[0] then s
    else if LexLess(x, s[0]) then
      forall j | 0 <= j < |s| ensures LexLess(x, s[j]) {
        if j > 0 { LexTransitive(x, s[0], s[j]); }
      }
      [x] + s
    else
      LexTotal(x, s[0]);
      var rest := InsertUnique(x, s[1..]);
      assert forall y :: y in rest ==> LexLess(s[0], y);
      [s[0]] + rest
  }

  /** `Array.from(new Set(items)).sort()`: each item once, ascending. */
  function SortUnique(items: seq<string>): (r: seq<string>)
    ensures StrictlyAscending(r)
    ensures forall y :: y in r <==> y in items
  {
    if items == [] then [] else InsertUnique(items[0], SortUnique(items[1..]))
  }

  /** A strictly ascending list has no repeated element. */
  lemma AscendingDistinct(s: seq<string>)
    requires StrictlyAscending(s)
    ensures forall i, j :: 0 <= i < j < |s| ==> s[i] != s[j]
  {
    forall i, j | 0 <= i < j < |s| ensures s[i] != s[j] {
      if s[i] == s[j] { LexIrreflexive(s[i]); }
    }
  }

  // ---------------------------------------------------------------- ascending by a string key

  /** `a` does not come after `b` in code-unit order. */
  predicate LexLeq(a: string, b: string)
  {
    !LexLess(b, a)
  }

  lemma LexLeqTransitive(a: string, b: string, c: string)
    requires LexLeq(a, b) && LexLeq(b, c)
    ensures LexLeq(a, c)
  {
    LexTotal(a, b);
    LexTotal(b, c);
    if a != b && b != c {
      LexTransitive(a, b, c);
      LexAsymmetric(a, c);
    } else if a != b {
      LexAsymmetric(a, b);
    } else if b != c {
      LexAsymmetric(b, c);
    }
  }

  predicate AscendingBy<T>(s: seq<T>, key: T -> string)
  {
    forall i, j :: 0 <= i < j < |s| ==> LexLeq(key(s[i]), key(s[j]))
  }

  /** Places `x` before the first element whose key is not below its own. */
  function InsertBy<T>(x: T, s: seq<T>, key: T -> string): (r: seq<T>)
    ensures multiset(r) == multiset(s) + multiset{x}
    ensures |r| == |s| + 1
  {
    if s == [] || LexLeq(key(x), key(s[0])) then [x] + s
    else
      assert s == [s[0]] + s[1..];
      [s[0]] + InsertBy(x, s[1..], key)
  }

  lemma {:induction false} InsertByBounded<T>(x: T, s: seq<T>, key: T -> string, b: string)
    requires LexLeq(b, key(x))
    requires forall i :: 0 <= i < |s| ==> LexLeq(b, key(s[i]))
    ensures forall i :: 0 <= i < |InsertBy(x, s, key)| ==> LexLeq(b, key(InsertBy(x, s, key)[i]))
  {
    if s != [] && !LexLeq(key(x), key(s[0])) {
      InsertByBounded(x, s[1..], key, b);
    }
  }

  lemma {:induction false} InsertBySorted<T>(x: T, s: seq<T>, key: T -> string)
    requires AscendingBy(s, key)
    ensures AscendingBy(InsertBy(x, s, key), key)
  {
    if s == [] {
    } else if LexLeq(key(x), key(s[0])) {
      var r := [x] + s;
      forall i, j | 0 <= i < j < |r| ensures LexLeq(key(r[i]), key(r[j])) {
        if i == 0 && j > 1 {
          LexLeqTransitive(key(x), key(s[0]), key(s[j - 1]));
        }
      }
    } else {
      var rest := InsertBy(x, s[1..], key);
      InsertBySorted(x, s[1..], key);
      LexAsymmetric(key(s[0]), key(x));
      InsertByBounded(x, s[1..], key, key(s[0]));
      var r := [s[0]] + rest;
      assert forall i :: 1 <= i < |r| ==> r[i] == rest[i - 1];
    }
  }

  /** `s.sort((a, b) => compare(key(a), key(b)))`: ascending by the key, stable. */
  function SortBy<T>(s: seq<T>, key: T -> string): (r: seq<T>)
    ensures multiset(r) == multiset(s)
    ensures |r| == |s|
    ensures AscendingBy(r, key)
  {
    if s == [] then []
    else
      assert s == [s[0]] + s[1..];
      assert multiset(s) == multiset{s[0]} + multiset(s[1..]);
      InsertBySorted(s[0], SortBy(s[1..], key), key);
      InsertBy(s[0], SortBy(s[1..], key), key)
  }
}
