/**
 * String and number primitives of the JavaScript runtime that the simulator
 * relies on: `split`, `trim`, `toLowerCase`, `includes`, `join`, `parseInt`
 * and the decimal rendering of integers.
 */
module Common {

  datatype Option<T> = None | Some(value: T)

  /** Moving the head of `s` onto the end of `a` leaves the concatenation unchanged. */
  lemma ShiftHead<T>(a: seq<T>, s: seq<T>)
    requires s != []
    ensures (a + [s[0]]) + s[1..] == a + s
  {
    var l, r := (a + [s[0]]) + s[1..], a + s;
    assert |l| == |r|;
    forall i | 0 <= i < |l| ensures l[i] == r[i] {
      if i < |a| { assert l[i] == a[i]; } else if i > |a| { assert l[i] == s[i - |a|]; }
    }
  }

  /** The indices of `s` where `p` holds (`b`): those of `init`, all but its last element (`a`),
      and the last one if `p` holds there. */
  lemma CountSnoc<T>(s: seq<T>, init: seq<T>, p: T -> bool, a: set<int>, b: set<int>)
    requires s != [] && init == s[..|s| - 1]
    requires forall i :: i in a <==> 0 <= i < |init| && p(init[i])
    requires forall i :: i in b <==> 0 <= i < |s| && p(s[i])
    ensures |b| == |a| + (if p(s[|s| - 1]) then 1 else 0)
  {
    var n := |s| - 1;
    assert forall i :: 0 <= i < n ==> init[i] == s[i];
    if p(s[n]) {
      assert forall i :: i in b <==> i in a + {n};
      assert b == a + {n};
    } else {
      assert forall i :: i in b <==> i in a;
      assert b == a;
    }
  }

  /** `p` holds on all of `s` (`all`) exactly when it holds on the head and on the rest (`rest`). */
  lemma AllCons<T>(s: seq<T>, p: T -> bool, all: bool, rest: bool)
    requires s != []
    requires all <==> forall i :: 0 <= i < |s| ==> p(s[i])
    requires rest <==> forall i :: 0 <= i < |s[1..]| ==> p(s[1..][i])
    ensures all <==> p(s[0]) && rest
  {
    if p(s[0]) && rest {
      forall i | 0 <= i < |s| ensures p(s[i]) {
        if i > 0 {
          assert s[i] == s[1..][i - 1];
        }
      }
    }
  }

  /** JavaScript's `x || d` on a number read with parseInt: NaN and 0 are falsy. */
  function OrDefault(n: Option<int>, d: int): (r: int)
    ensures n.Some? && n.value != 0 ==> r == n.value
    ensures n.None? || n.value == 0 ==> r == d
  {
    if n.Some? && n.value != 0 then n.value else d
  }

  // ---------------------------------------------------------------- whitespace

  /** The white-space and line-terminator characters that `String.prototype.trim` and `\s`
      match: tab, the line breaks, vertical tab, form feed, the byte-order mark and the space
      separators of Unicode. */
  predicate IsSpace(c: char)
  {
    c == ' ' || c == '\t' || c == '\n' || c == '\r' || c == '\U{000B}' || c == '\U{000C}'
    || c == '\U{00A0}' || c == '\U{FEFF}' || c == '\U{2028}' || c == '\U{2029}'
    || c == '\U{1680}' || ('\U{2000}' <= c <= '\U{200A}') || c == '\U{202F}' || c == '\U{205F}'
    || c == '\U{3000}'
  }

  function TrimStart(s: string): (r: string)
    ensures |r| <= |s|
  {
    if s != [] && IsSpace(s[0]) then TrimStart(s[1..]) else s
  }

  /** `trimStart` drops a prefix of white space and leaves a string that does not start
      with any. */
  lemma {:induction false} TrimStartSpec(s: string)
    ensures var r := TrimStart(s);
      && r == s[|s| - |r|..]
      && (r == [] || !IsSpace(r[0]))
      && forall i :: 0 <= i < |s| - |r| ==> IsSpace(s[i])
  {
    if s != [] && IsSpace(s[0]) {
      TrimStartSpec(s[1..]);
    }
  }

  function TrimEnd(s: string): (r: string)
    ensures |r| <= |s|
  {
    if s != [] && IsSpace(s[|s| - 1]) then TrimEnd(s[..|s| - 1]) else s
  }

  /** `trimEnd` drops a suffix of white space and leaves a string that does not end with
      any. */
  lemma {:induction false} TrimEndSpec(s: string)
    ensures var r := TrimEnd(s);
      && r == s[..|r|]
      && (r == [] || !IsSpace(r[|r| - 1]))
      && forall i :: |r| <= i < |s| ==> IsSpace(s[i])
  {
    if s != [] && IsSpace(s[|s| - 1]) {
      TrimEndSpec(s[..|s| - 1]);
    }
  }

  /** `s.trim()` */
  function Trim(s: string): (r: string)
  {
    TrimEnd(TrimStart(s))
  }

  /** Trimming leaves a string without white space at its ends unchanged. */
  lemma TrimNoEdges(s: string)
    requires s == [] || (!IsSpace(s[0]) && !IsSpace(s[|s| - 1]))
    ensures Trim(s) == s
  {
  }

  /** A string that trims to the empty string consists of white space only. */
  predicate Blank(s: string)
  {
    forall i :: 0 <= i < |s| ==> IsSpace(s[i])
  }

  /** Trimming leaves an infix of the input that neither starts nor ends with white space,
      and it removes white space only. */
  lemma TrimSpec(s: string)
    ensures var r := Trim(s);
      (exists k :: OccursAt(s, r, k))
      && (r == [] || (!IsSpace(r[0]) && !IsSpace(r[|r| - 1])))
      && (r == [] <==> Blank(s))
  {
    var t := TrimStart(s);
    var r := TrimEnd(t);
    assert r == Trim(s);
    var k := |s| - |t|;
    assert OccursAt(s, r, k) by {
      TrimStartSpec(s);
      TrimEndSpec(t);
      assert r == s[k..k + |r|];
    }
    assert r == [] || (!IsSpace(r[0]) && !IsSpace(r[|r| - 1])) by {
      TrimStartSpec(s);
      TrimEndSpec(t);
    }
    assert r == [] <==> Blank(s) by {
      TrimStartSpec(s);
      TrimEndSpec(t);
      if r == [] {
        forall i | 0 <= i < |s| ensures IsSpace(s[i]) {
          assert i < k;
        }
      } else {
        assert s[k] == r[0];
      }
    }
  }

  /** Trimming twice is trimming once. */
  lemma TrimIdempotent(s: string)
    ensures Trim(Trim(s)) == Trim(s)
  {
    var r := Trim(s);
    TrimSpec(s);
    if r != [] {
      assert TrimStart(r) == r;
      assert TrimEnd(r) == r;
    }
  }

  // ---------------------------------------------------------------- case

  function LowerChar(c: char): (r: char)
    ensures 'A' <= c <= 'Z' ==> r as int == c as int + 32
    ensures !('A' <= c <= 'Z') ==> r == c
  {
    if 'A' <= c <= 'Z' then (c as int + 32) as char else c
  }

  /** `s.toLowerCase()` on the ASCII letters. */
  function Lower(s: string): (r: string)
    ensures |r| == |s|
    ensures forall i :: 0 <= i < |s| ==> r[i] == LowerChar(s[i])
  {
    if s == [] then [] else [LowerChar(s[0])] + Lower(s[1..])
  }

  lemma {:induction false} LowerConcat(a: string, b: string)
    ensures Lower(a + b) == Lower(a) + Lower(b)
  {
    if a == [] {
      assert a + b == b;
    } else {
      assert (a + b)[1..] == a[1..] + b;
      LowerConcat(a[1..], b);
    }
  }

  // ---------------------------------------------------------------- substring

  /** `s.startsWith(t)` */
  predicate StartsWith(s: string, t: string)
  {
    |t| <= |s| && s[..|t|] == t
  }

  /** `s.includes(t)`: some position of `s` starts an occurrence of `t`. */
  predicate OccursAt(s: string, t: string, i: int)
  {
    0 <= i && i + |t| <= |s| && s[i..i + |t|] == t
  }

  /** `s.includes(t)`, computed by scanning. */
  function Contains(s: string, t: string): (r: bool)
    decreases |s|
  {
    StartsWith(s, t) || (s != [] && Contains(s[1..], t))
  }

  /** The scan finds an occurrence exactly when one exists. */
  lemma {:induction false} ContainsIff(s: string, t: string)
    ensures Contains(s, t) <==> exists i :: OccursAt(s, t, i)
    decreases |s|
  {
    if StartsWith(s, t) {
      assert OccursAt(s, t, 0);
    } else if s == [] {
      assert |t| > 0;
      assert forall i :: !OccursAt(s, t, i);
    } else {
      ContainsIff(s[1..], t);
      if exists i :: OccursAt(s, t, i) {
        var i :| OccursAt(s, t, i);
        assert i != 0;
        assert s[1..][i - 1..i - 1 + |t|] == s[i..i + |t|];
        assert OccursAt(s[1..], t, i - 1);
      }
      if exists j :: OccursAt(s[1..], t, j) {
        var j :| OccursAt(s[1..], t, j);
        assert s[1..][j..j + |t|] == s[j + 1..j + 1 + |t|];
        assert OccursAt(s, t, j + 1);
      }
    }
  }

  /** A string does not contain a pattern with a character the string lacks. */
  lemma MissingChar(s: string, t: string, ch: char)
    requires ch in t && ch !in s
    ensures !Contains(s, t)
  {
    ContainsIff(s, t);
  }

  /** A string contains each of its own infixes. */
  lemma ContainsInfix(a: string, t: string, b: string)
    ensures Contains(a + t + b, t)
  {
    var s := a + t + b;
    assert s[|a|..|a| + |t|] == t;
    assert OccursAt(s, t, |a|);
    ContainsIff(s, t);
  }

  // ---------------------------------------------------------------- split / join

  /** `s.split(c)` for a one-character separator. */
  function Split(s: string, c: char): (r: seq<string>)
    ensures |r| >= 1
    decreases |s|
  {
    if s == [] then [[]]
    else
      var rest := Split(s[1..], c);
      if s[0] == c then [[]] + rest else [[s[0]] + rest[0]] + rest[1..]
  }

  /** No piece holds the separator. */
  lemma {:induction false} SplitAvoids(s: string, c: char)
    ensures forall i :: 0 <= i < |Split(s, c)| ==> c !in Split(s, c)[i]
    decreases |s|
  {
    if s != [] {
      SplitAvoids(s[1..], c);
      var rest := Split(s[1..], c);
      if s[0] != c {
        assert c !in [s[0]] + rest[0];
        assert forall i :: 1 <= i < |Split(s, c)| ==> Split(s, c)[i] == rest[i];
      } else {
        assert forall i :: 1 <= i < |Split(s, c)| ==> Split(s, c)[i] == rest[i - 1];
      }
    }
  }

  /** `parts.join(sep)` */
  function Join(parts: seq<string>, sep: string): (r: string)
  {
    if parts == [] then []
    else if |parts| == 1 then parts[0]
    else parts[0] + sep + Join(parts[1..], sep)
  }

  /** Splitting at a character and joining with it gives the string back. */
  lemma {:induction false} JoinSplit(s: string, c: char)
    ensures Join(Split(s, c), [c]) == s
    decreases |s|
  {
    if s != [] {
      JoinSplit(s[1..], c);
      var rest := Split(s[1..], c);
      if s[0] == c {
        assert Join([[]] + rest, [c]) == [] + [c] + Join(rest, [c]);
      } else {
        var parts := [[s[0]] + rest[0]] + rest[1..];
        if |rest| == 1 {
          assert Join(rest, [c]) == rest[0];
        } else {
          assert parts[1..] == rest[1..];
          assert Join(rest, [c]) == rest[0] + [c] + Join(rest[1..], [c]);
        }
      }
    }
  }

  /** Joining pieces that do not contain the separator and splitting again gives the pieces back. */
  lemma {:induction false} SplitJoin(parts: seq<string>, c: char)
    requires |parts| >= 1
    requires forall i, k :: 0 <= i < |parts| && 0 <= k < |parts[i]| ==> parts[i][k] != c
    ensures Split(Join(parts, [c]), c) == parts
    decreases |parts|, |parts[0]|
  {
    if |parts| == 1 {
      SplitNoSep(parts[0], c);
    } else if parts[0] == [] {
      var tail := Join(parts[1..], [c]);
      assert Join(parts, [c]) == [c] + tail;
      assert ([c] + tail)[1..] == tail;
      SplitJoin(parts[1..], c);
      assert parts == [[]] + parts[1..];
    } else {
      var p := parts[0];
      var parts' := [p[1..]] + parts[1..];
      assert parts'[1..] == parts[1..];
      SplitJoin(parts', c);
      var s := Join(parts, [c]);
      assert s == [p[0]] + Join(parts', [c]);
      assert s[1..] == Join(parts', [c]);
      assert s[0] == p[0] && p[0] != c;
      assert Split(s, c) == [[p[0]] + p[1..]] + parts[1..];
      assert p == [p[0]] + p[1..];
    }
  }

  lemma {:induction false} SplitNoSep(s: string, c: char)
    requires forall k :: 0 <= k < |s| ==> s[k] != c
    ensures Split(s, c) == [s]
    decreases |s|
  {
    if s != [] {
      SplitNoSep(s[1..], c);
      assert [s[0]] + s[1..] == s;
    }
  }

  /** `.map(p => p.trim()).filter(Boolean)` */
  function TrimAll(parts: seq<string>): (r: seq<string>)
    ensures |r| <= |parts|
  {
    if parts == [] then []
    else if Trim(parts[0]) == [] then TrimAll(parts[1..])
    else [Trim(parts[0])] + TrimAll(parts[1..])
  }

  /** The blank pieces are dropped. */
  lemma {:induction false} TrimAllNonEmpty(parts: seq<string>)
    ensures forall i :: 0 <= i < |TrimAll(parts)| ==> TrimAll(parts)[i] != []
  {
    if parts != [] {
      TrimAllNonEmpty(parts[1..]);
    }
  }

  /** `s.split(c).map(p => p.trim()).filter(Boolean)`: the non-blank pieces of `s`, trimmed. */
  function Tokens(s: string, c: char): (r: seq<string>)
  {
    TrimAll(Split(s, c))
  }

  /** Joining non-empty pieces that are already trimmed and free of the separator and then
      splitting, trimming and dropping empty pieces gives the pieces back. */
  lemma TokensOfJoin(parts: seq<string>, c: char)
    requires |parts| >= 1
    requires forall i :: 0 <= i < |parts| ==> parts[i] != [] && c !in parts[i]
    requires forall i :: 0 <= i < |parts| ==> !IsSpace(parts[i][0]) && !IsSpace(parts[i][|parts[i]| - 1])
    ensures Tokens(Join(parts, [c]), c) == parts
  {
    SplitJoin(parts, c);
    TrimAllTrimmed(parts);
  }

  lemma {:induction false} TrimAllTrimmed(parts: seq<string>)
    requires forall i :: 0 <= i < |parts| ==> parts[i] != []
    requires forall i :: 0 <= i < |parts| ==> !IsSpace(parts[i][0]) && !IsSpace(parts[i][|parts[i]| - 1])
    ensures TrimAll(parts) == parts
  {
    if parts != [] {
      TrimNoEdges(parts[0]);
      TrimAllTrimmed(parts[1..]);
    }
  }

  /** Every token is non-empty, already trimmed and free of the separator. */
  lemma TokensSpec(s: string, c: char)
    ensures forall i :: 0 <= i < |Tokens(s, c)| ==>
      Tokens(s, c)[i] != [] && Trim(Tokens(s, c)[i]) == Tokens(s, c)[i] && c !in Tokens(s, c)[i]
  {
    var pieces := Split(s, c);
    SplitAvoids(s, c);
    TrimAllSpec(pieces, c);
    TrimAllNonEmpty(pieces);
  }

  lemma {:induction false} TrimAllSpec(parts: seq<string>, c: char)
    requires forall i :: 0 <= i < |parts| ==> c !in parts[i]
    ensures forall i :: 0 <= i < |TrimAll(parts)| ==>
      Trim(TrimAll(parts)[i]) == TrimAll(parts)[i] && c !in TrimAll(parts)[i]
  {
    if parts != [] {
      TrimAllSpec(parts[1..], c);
      TrimAvoids(parts[0], c);
      TrimIdempotent(parts[0]);
    }
  }

  /** Trimming does not introduce characters. */
  lemma TrimAvoids(p: string, c: char)
    requires c !in p
    ensures c !in Trim(p)
  {
    TrimSpec(p);
    var t := Trim(p);
    var k :| OccursAt(p, t, k);
    forall j | 0 <= j < |t| ensures t[j] != c { assert t[j] == p[k + j]; }
  }

  // ---------------------------------------------------------------- numbers

  predicate IsDigit(c: char) { '0' <= c <= '9' }

  function DigitValue(c: char): (r: nat)
    requires IsDigit(c)
    ensures r < 10
  {
    c as int - '0' as int
  }

  /** The length of the longest prefix of digits. */
  function DigitRun(s: string): (n: nat)
    ensures n <= |s|
  {
    if s != [] && IsDigit(s[0]) then 1 + DigitRun(s[1..]) else 0
  }

  /** The run is all digits and stops at the first character that is not one. */
  lemma {:induction false} DigitRunSpec(s: string)
    ensures var n := DigitRun(s);
      && (forall i :: 0 <= i < n ==> IsDigit(s[i]))
      && (n < |s| ==> !IsDigit(s[n]))
  {
    if s != [] && IsDigit(s[0]) {
      DigitRunSpec(s[1..]);
    }
  }

  /** The value of a string of decimal digits. */
  function DigitsValue(s: string): (n: nat)
    requires forall i :: 0 <= i < |s| ==> IsDigit(s[i])
  {
    if s == [] then 0 else DigitsValue(s[..|s| - 1]) * 10 + DigitValue(s[|s| - 1])
  }

  /** `parseInt(s, 10)`: leading white space, an optional sign, then at least one digit; the
      rest of the string is ignored. `None` stands for NaN. */
  function ParseInt(s: string): (r: Option<int>)
  {
    var t := TrimStart(s);
    var neg := t != [] && t[0] == '-';
    var u := if t != [] && (t[0] == '+' || t[0] == '-') then t[1..] else t;
    var n := DigitRun(u);
    DigitRunSpec(u);
    if n == 0 then None
    else
      var v: int := DigitsValue(u[..n]);
      Some(if neg then -v else v)
  }

  function Pow10(n: nat): (r: nat)
    ensures r >= 1
  {
    if n == 0 then 1 else 10 * Pow10(n - 1)
  }

  /** `Number(s)` on decimal text, which is how `<` and `>` read a string: white space around
      an optional sign and digits with an optional fraction, at least one digit and nothing
      else; blank text reads as 0. `None` stands for NaN. */
  function ToNumber(s: string): (r: Option<real>)
  {
    var t := Trim(s);
    if t == [] then Some(0.0)
    else
      var v := Unsigned(if t[0] == '+' || t[0] == '-' then t[1..] else t);
      if v.Some? && t[0] == '-' then Some(-v.value) else v
  }

  /** Digits with an optional fraction and nothing after them, at least one digit in all. */
  function Unsigned(u: string): (r: Option<real>)
  {
    var n := DigitRun(u);
    DigitRunSpec(u);
    if n == |u| then (if n == 0 then None else Some(DigitsValue(u) as real))
    else if u[n] != '.' then None
    else
      var f := u[n + 1..];
      var m := DigitRun(f);
      DigitRunSpec(f);
      if n + m == 0 || m != |f| then None
      else Some(DigitsValue(u[..n]) as real + DigitsValue(f) as real / Pow10(m) as real)
  }

  /** `Number` reads back what `String(n)` writes for an integer. */
  lemma ToNumberOfInt(n: int)
    ensures ToNumber(IntToString(n)) == Some(n as real)
  {
    var d := NatToString(if n < 0 then -n else n);
    var s := IntToString(n);
    assert s == (if n < 0 then "-" else "") + d;
    assert !IsSpace(s[0]) && !IsSpace(s[|s| - 1]) by { assert IsDigit(d[|d| - 1]); assert IsDigit(d[0]); }
    TrimNoEdges(s);
    assert (if s[0] == '+' || s[0] == '-' then s[1..] else s) == d;
    NatToStringValue(if n < 0 then -n else n);
    DigitRunAll(d);
  }

  /** Decimal digits of a natural number, most significant first. */
  function NatToString(n: nat): (r: string)
    ensures |r| >= 1
    ensures forall i :: 0 <= i < |r| ==> IsDigit(r[i])
  {
    if n < 10 then [('0' as int + n) as char]
    else NatToString(n / 10) + [('0' as int + n % 10) as char]
  }

  /** `String(n)` for an integer. */
  function IntToString(n: int): (r: string)
  {
    if n < 0 then "-" + NatToString(-n) else NatToString(n)
  }

  lemma {:induction false} NatToStringValue(n: nat)
    ensures DigitsValue(NatToString(n)) == n
  {
    if n >= 10 {
      NatToStringValue(n / 10);
      var s := NatToString(n);
      assert s[..|s| - 1] == NatToString(n / 10);
    }
  }

  /** parseInt reads back what `String(n)` writes. */
  lemma ParseIntOfNatToString(n: nat)
    ensures ParseInt(NatToString(n)) == Some(n)
  {
    var s := NatToString(n);
    assert TrimStart(s) == s;
    assert DigitRun(s) == |s| by { DigitRunAll(s); }
    assert s[..|s|] == s;
    NatToStringValue(n);
  }

  lemma {:induction false} DigitRunAll(s: string)
    requires forall i :: 0 <= i < |s| ==> IsDigit(s[i])
    ensures DigitRun(s) == |s|
  {
    if s != [] { DigitRunAll(s[1..]); }
  }

  // ---------------------------------------------------------------- objects

  /** A JavaScript object with string keys, as its entries in insertion order. */
  type Obj<V> = seq<(string, V)>

  /** `o[k]`, or None when the key is absent. */
  function Get<V>(o: Obj<V>, k: string): Option<V>
  {
    if o == [] then None else if o[0].0 == k then Some(o[0].1) else Get(o[1..], k)
  }

  /** `o[k] = v`: an existing key keeps its place, a new key goes last. */
  function Put<V>(o: Obj<V>, k: string, v: V): (r: Obj<V>)
    ensures Get(r, k) == Some(v)
    ensures forall k' :: k' != k ==> Get(r, k') == Get(o, k')
    ensures |r| == (if Get(o, k).Some? then |o| else |o| + 1)
  {
    if o == [] then [(k, v)]
    else if o[0].0 == k then [(k, v)] + o[1..]
    else [o[0]] + Put(o[1..], k, v)
  }

  /** `Object.keys(o)` */
  function KeysOf<V>(o: Obj<V>): (r: seq<string>)
    ensures |r| == |o|
    ensures forall i :: 0 <= i < |o| ==> r[i] == o[i].0
  {
    if o == [] then [] else [o[0].0] + KeysOf(o[1..])
  }

  /** Every key occurs once, as in a real object. */
  predicate DistinctKeys<V>(o: Obj<V>)
  {
    forall i, j :: 0 <= i < j < |o| ==> o[i].0 != o[j].0
  }

  lemma {:induction false} GetSome<V>(o: Obj<V>, k: string)
    ensures Get(o, k).Some? <==> exists i :: 0 <= i < |o| && o[i].0 == k
  {
    if o != [] {
      GetSome(o[1..], k);
      if o[0].0 != k && exists i :: 0 <= i < |o| && o[i].0 == k {
        var i :| 0 <= i < |o| && o[i].0 == k;
        assert o[1..][i - 1].0 == k;
      }
      if exists i :: 0 <= i < |o[1..]| && o[1..][i].0 == k {
        var i :| 0 <= i < |o[1..]| && o[1..][i].0 == k;
        assert o[i + 1].0 == k;
      }
    }
  }

  lemma {:induction false} GetDistinct<V>(o: Obj<V>, i: nat)
    requires DistinctKeys(o) && i < |o|
    ensures Get(o, o[i].0) == Some(o[i].1)
  {
    if i > 0 {
      GetDistinct(o[1..], i - 1);
    }
  }

  lemma {:induction false} PutKeepsDistinct<V>(o: Obj<V>, k: string, v: V)
    requires DistinctKeys(o)
    ensures DistinctKeys(Put(o, k, v))
  {
    if o != [] && o[0].0 != k {
      PutKeepsDistinct(o[1..], k, v);
      var r := Put(o, k, v);
      forall j | 0 < j < |r| ensures r[0].0 != r[j].0 {
        GetSome(Put(o[1..], k, v), o[0].0);
        GetSome(o[1..], o[0].0);
        assert r[j] == Put(o[1..], k, v)[j - 1];
      }
    }
  }

  /** `o[k]` is the value of the first entry with key `k`. */
  lemma {:induction false} GetFirst<V>(o: Obj<V>, k: string)
    ensures Get(o, k).Some? ==>
      exists i :: 0 <= i < |o| && o[i] == (k, Get(o, k).value) && forall j :: 0 <= j < i ==> o[j].0 != k
  {
    if o != [] && o[0].0 != k && Get(o, k).Some? {
      GetFirst(o[1..], k);
      var i :| 0 <= i < |o[1..]| && o[1..][i] == (k, Get(o, k).value) && forall j :: 0 <= j < i ==> o[1..][j].0 != k;
      assert o[i + 1] == (k, Get(o, k).value);
      forall j | 0 <= j < i + 1 ensures o[j].0 != k {
        if j > 0 { assert o[j] == o[1..][j - 1]; }
      }
    }
  }

  /** A key that is found has an entry with the value found. */
  lemma {:induction false} GetFound<V>(o: Obj<V>, k: string) returns (i: nat)
    requires Get(o, k).Some?
    ensures i < |o| && o[i] == (k, Get(o, k).value)
  {
    if o[0].0 == k {
      i := 0;
    } else {
      var j := GetFound(o[1..], k);
      i := j + 1;
    }
  }

  /** A fresh key is appended at the end. */
  lemma {:induction false} PutFresh<V>(o: Obj<V>, k: string, v: V)
    requires Get(o, k).None?
    ensures Put(o, k, v) == o + [(k, v)]
  {
    if o != [] { PutFresh(o[1..], k, v); }
  }

  /** Looking up in an object with one more entry at the end. */
  lemma {:induction false} GetAppend<V>(o: Obj<V>, k: string, v: V, key: string)
    ensures Get(o + [(k, v)], key) == if Get(o, key).Some? then Get(o, key) else if k == key then Some(v) else None
  {
    if o != [] {
      assert (o + [(k, v)])[1..] == o[1..] + [(k, v)];
      GetAppend(o[1..], k, v, key);
    }
  }

  /** The last entry of an object with distinct keys is not among the earlier ones. */
  lemma DistinctInit<V>(o: Obj<V>)
    requires DistinctKeys(o) && o != []
    ensures DistinctKeys(o[..|o| - 1])
    ensures Get(o[..|o| - 1], o[|o| - 1].0).None?
    ensures o == o[..|o| - 1] + [o[|o| - 1]]
  {
    var init := o[..|o| - 1];
    GetSome(init, o[|o| - 1].0);
    forall i | 0 <= i < |init| ensures init[i].0 != o[|o| - 1].0 { assert init[i] == o[i]; }
  }

  // ---------------------------------------------------------------- collecting

  /** The results of `f` that are present, in order (a filter followed by a map). */
  function Collect<A, B>(xs: seq<A>, f: A -> Option<B>): seq<B>
  {
    if xs == [] then []
    else Collect(xs[..|xs| - 1], f) + (match f(xs[|xs| - 1]) case Some(b) => [b] case None => [])
  }

  /** The number of elements `f` gives a result for. */
  function CountSome<A, B>(xs: seq<A>, f: A -> Option<B>): nat
  {
    if xs == [] then 0 else CountSome(xs[..|xs| - 1], f) + (if f(xs[|xs| - 1]).Some? then 1 else 0)
  }

  /** Collecting one more element of a prefix. */
  lemma CollectPrefix<A, B>(xs: seq<A>, i: int, f: A -> Option<B>)
    requires 0 <= i < |xs|
    ensures Collect(xs[..i + 1], f) == Collect(xs[..i], f) + (if f(xs[i]).Some? then [f(xs[i]).value] else [])
  {
    assert xs[..i + 1][..i] == xs[..i];
  }

  /** `xs.forEach(x => { const y = f(x); if (y) acc.push(y) })`. */
  method AppendCollected<A, B>(acc: seq<B>, xs: seq<A>, f: A -> Option<B>) returns (r: seq<B>)
    ensures r == acc + Collect(xs, f)
  {
    r := acc;
    for i := 0 to |xs|
      invariant r == acc + Collect(xs[..i], f)
    {
      CollectPrefix(xs, i, f);
      var y := f(xs[i]);
      if y.Some? {
        r := r + [y.value];
      }
    }
    assert xs[..|xs|] == xs;
  }

  lemma CollectSingle<A, B>(x: A, f: A -> Option<B>)
    ensures Collect([x], f) == if f(x).Some? then [f(x).value] else []
  {
    assert [x][..0] == [];
  }

  /** Every collected value comes from some element, every element's value is collected, and
      there is one per element with a value. */
  lemma {:induction false} CollectSpec<A, B>(xs: seq<A>, f: A -> Option<B>)
    ensures forall b :: b in Collect(xs, f) <==> exists i :: 0 <= i < |xs| && f(xs[i]) == Some(b)
    ensures |Collect(xs, f)| == CountSome(xs, f)
  {
    if xs != [] {
      var n := |xs| - 1;
      var init := xs[..n];
      CollectSpec(init, f);
      forall b ensures (exists i :: 0 <= i < |xs| && f(xs[i]) == Some(b)) <==>
        (exists i :: 0 <= i < n && f(init[i]) == Some(b)) || f(xs[n]) == Some(b)
      {
        if exists i :: 0 <= i < |xs| && f(xs[i]) == Some(b) {
          var i :| 0 <= i < |xs| && f(xs[i]) == Some(b);
          if i < n { assert init[i] == xs[i]; }
        }
        if exists i :: 0 <= i < n && f(init[i]) == Some(b) {
          var i :| 0 <= i < n && f(init[i]) == Some(b);
          assert init[i] == xs[i];
        }
      }
    }
  }

  /** An element's value is collected. */
  lemma {:induction false} CollectHas<A, B>(xs: seq<A>, f: A -> Option<B>, i: nat)
    requires i < |xs| && f(xs[i]).Some?
    ensures f(xs[i]).value in Collect(xs, f)
  {
    if i < |xs| - 1 {
      CollectHas(xs[..|xs| - 1], f, i);
    }
  }

  /** A collected value comes from some element. */
  lemma {:induction false} CollectFrom<A, B>(xs: seq<A>, f: A -> Option<B>, b: B) returns (i: nat)
    requires b in Collect(xs, f)
    ensures i < |xs| && f(xs[i]) == Some(b)
  {
    var n := |xs| - 1;
    if b in Collect(xs[..n], f) {
      i := CollectFrom(xs[..n], f, b);
    } else {
      i := n;
    }
  }
}
