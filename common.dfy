// Shared vocabulary of the site's TypeScript utilities: optional values,
// the four-level severity scale, and the string operations the source takes
// from JavaScript (startsWith, endsWith, includes, trim, toLowerCase, join,
// slice with a negative start, number-to-string).

module Common {

  datatype Option<T> = None | Some(value: T)

  /** `o ?? d` for a field an update may leave out. */
  function UnwrapOr<T>(o: Option<T>, d: T): (r: T)
    ensures o.Some? ==> r == o.value
    ensures o.None? ==> r == d
  {
    if o.Some? then o.value else d
  }

  /** The severity scale shared by security events, threats and errors. */
  datatype Severity = Low | Medium | High | Critical

  /** Ranks used wherever the source compares severities (low 1 .. critical 4). */
  function Rank(s: Severity): (r: nat)
    ensures 1 <= r <= 4
    ensures s == Critical <==> r == 4
    ensures s == Low <==> r == 1
  {
    match s
    case Low => 1
    case Medium => 2
    case High => 3
    case Critical => 4
  }

  lemma RankInjective(a: Severity, b: Severity)
    ensures Rank(a) == Rank(b) <==> a == b
  {
  }

  function SeverityName(s: Severity): string
  {
    match s
    case Low => "low"
    case Medium => "medium"
    case High => "high"
    case Critical => "critical"
  }

  // ---------------------------------------------------------------------
  // Substrings

  predicate StartsWith(s: string, p: string)
  {
    |p| <= |s| && s[..|p|] == p
  }

  predicate EndsWith(s: string, p: string)
  {
    |p| <= |s| && s[|s| - |p|..] == p
  }

  /** `p` occurs in `s` at index `i`. */
  predicate OccursAt(s: string, p: string, i: int)
  {
    0 <= i && i + |p| <= |s| && s[i..i + |p|] == p
  }

  /** JavaScript's `s.includes(p)`. */
  predicate Contains(s: string, p: string)
  {
    exists i | 0 <= i <= |s| - |p| :: OccursAt(s, p, i)
  }

  lemma ContainsPrefix(s: string, p: string, t: string)
    requires Contains(s, p)
    ensures Contains(s + t, p)
  {
    var i :| 0 <= i <= |s| - |p| && OccursAt(s, p, i);
    assert (s + t)[i..i + |p|] == s[i..i + |p|];
    assert OccursAt(s + t, p, i);
  }

  // ---------------------------------------------------------------------
  // Characters

  predicate IsAsciiUpper(c: char) { 'A' <= c <= 'Z' }
  predicate IsAsciiLower(c: char) { 'a' <= c <= 'z' }
  predicate IsAsciiLetter(c: char) { IsAsciiUpper(c) || IsAsciiLower(c) }
  predicate IsDigit(c: char) { '0' <= c <= '9' }

  function LowerChar(c: char): (r: char)
    ensures !IsAsciiUpper(r)
    ensures !IsAsciiUpper(c) ==> r == c
  {
    if IsAsciiUpper(c) then (c as int + 32) as char else c
  }

  /** `toLowerCase`, restricted to the ASCII letters. */
  function Lower(s: string): (r: string)
    ensures |r| == |s|
    ensures forall i :: 0 <= i < |s| ==> r[i] == LowerChar(s[i])
  {
    if s == [] then [] else [LowerChar(s[0])] + Lower(s[1..])
  }

  /** Text with no upper-case letter is its own lower case. */
  lemma LowerKeepsLower(s: string)
    requires forall i :: 0 <= i < |s| ==> !IsAsciiUpper(s[i])
    ensures Lower(s) == s
  {
    var r := Lower(s);
    assert forall i :: 0 <= i < |s| ==> r[i] == s[i];
  }

  /** Case-insensitive `includes` against an all-lower-case pattern (a regex with the i flag). */
  predicate ContainsCI(s: string, p: string)
  {
    Contains(Lower(s), p)
  }

  /** The characters JavaScript's `\s` and `String.prototype.trim` treat as white space. */
  predicate IsJsSpace(c: char)
  {
    c == '\t' || c == '\n' || c == '\U{B}' || c == '\U{C}' || c == '\r' || c == ' '
    || c == '\U{A0}' || c == '\U{1680}' || ('\U{2000}' <= c <= '\U{200A}')
    || c == '\U{2028}' || c == '\U{2029}' || c == '\U{202F}' || c == '\U{205F}'
    || c == '\U{3000}' || c == '\U{FEFF}'
  }

  /** The characters a regex `.` does not match. */
  predicate IsLineTerminator(c: char)
  {
    c == '\n' || c == '\r' || c == '\U{2028}' || c == '\U{2029}'
  }

  function TrimStart(s: string): (r: string)
    ensures |r| <= |s| && r == s[|s| - |r|..]
    ensures r == [] || !IsJsSpace(r[0])
    ensures forall i :: 0 <= i < |s| - |r| ==> IsJsSpace(s[i])
  {
    if s != [] && IsJsSpace(s[0]) then
      var t := s[1..];
      var r := TrimStart(t);
      assert t[|t| - |r|..] == s[|s| - |r|..];
      assert forall i :: 1 <= i < |s| - |r| ==> s[i] == t[i - 1];
      r
    else s
  }

  function TrimEnd(s: string): (r: string)
    ensures |r| <= |s| && r == s[..|r|]
    ensures r == [] || !IsJsSpace(r[|r| - 1])
    ensures forall i :: |r| <= i < |s| ==> IsJsSpace(s[i])
  {
    if s != [] && IsJsSpace(s[|s| - 1]) then TrimEnd(s[..|s| - 1]) else s
  }

  /** `String.prototype.trim`. */
  function Trim(s: string): (r: string)
    ensures |r| <= |s|
    ensures r == [] || (!IsJsSpace(r[0]) && !IsJsSpace(r[|r| - 1]))
  {
    TrimEnd(TrimStart(s))
  }

  /** A string is blank when it trims to the empty string. */
  lemma TrimEmptyIffBlank(s: string)
    ensures Trim(s) == [] <==> forall i :: 0 <= i < |s| ==> IsJsSpace(s[i])
  {
  }

  // ---------------------------------------------------------------------
  // Sequences

  /** `Array.prototype.join(sep)` over strings. */
  function Join(xs: seq<string>, sep: string): string
  {
    if |xs| == 0 then ""
    else if |xs| == 1 then xs[0]
    else xs[0] + sep + Join(xs[1..], sep)
  }

  /** The last element of a non-empty join is its last piece, and the first its first. */
  lemma {:induction false} JoinEnds(xs: seq<string>, sep: string)
    requires xs != []
    ensures StartsWith(Join(xs, sep), xs[0])
    ensures EndsWith(Join(xs, sep), xs[|xs| - 1])
  {
    if |xs| > 1 {
      JoinEnds(xs[1..], sep);
      var j := Join(xs[1..], sep);
      assert Join(xs, sep) == xs[0] + sep + j;
      assert (xs[0] + sep + j)[..|xs[0]|] == xs[0];
      assert (xs[0] + sep + j)[|xs[0] + sep + j| - |xs[|xs| - 1]|..] == j[|j| - |xs[|xs| - 1]|..];
    }
  }

  /** A character in none of the pieces nor the separator is not in the join. */
  lemma {:induction false} JoinAvoids(xs: seq<string>, sep: string, c: char)
    requires c !in sep && forall i :: 0 <= i < |xs| ==> c !in xs[i]
    ensures c !in Join(xs, sep)
  {
    if |xs| > 1 {
      JoinAvoids(xs[1..], sep, c);
    }
  }

  /** The first index of `c` in `s`. */
  function IndexOf(s: string, c: char): (r: nat)
    requires c in s
    ensures r < |s| && s[r] == c && c !in s[..r]
  {
    if s[0] == c then 0 else 1 + IndexOf(s[1..], c)
  }

  lemma IndexOfAfter(a: string, c: char, b: string)
    requires c !in a
    ensures c in a + [c] + b && IndexOf(a + [c] + b, c) == |a|
  {
    var s := a + [c] + b;
    assert s[|a|] == c;
    var i := IndexOf(s, c);
    assert s[..|a|] == a;
  }

  /** `s.split(c)` for a one-character separator. */
  function Split(s: string, c: char): (r: seq<string>)
    ensures |r| >= 1
    decreases |s|
  {
    if c !in s then [s]
    else
      var i := IndexOf(s, c);
      [s[..i]] + Split(s[i + 1..], c)
  }

  lemma SplitAfter(a: string, c: char, b: string)
    requires c !in a
    ensures Split(a + [c] + b, c) == [a] + Split(b, c)
  {
    IndexOfAfter(a, c, b);
    var s := a + [c] + b;
    assert s[..|a|] == a && s[|a| + 1..] == b;
  }

  /** Every piece prefixed with `t`. */
  function Prefixed(t: string, xs: seq<string>): (r: seq<string>)
    ensures |r| == |xs|
    ensures forall i :: 0 <= i < |xs| ==> r[i] == t + xs[i]
  {
    seq(|xs|, i requires 0 <= i < |xs| => t + xs[i])
  }

  /** Splitting a join on the separator's first character gives the pieces back,
    * each but the first still carrying the rest of the separator. */
  lemma {:induction false} SplitJoin(p: string, xs: seq<string>, c: char, t: string)
    requires xs != [] && c !in p && c !in t
    requires forall i :: 0 <= i < |xs| ==> c !in xs[i]
    ensures Split(p + Join(xs, [c] + t), c) == [p + xs[0]] + Prefixed(t, xs[1..])
    decreases |xs|
  {
    var sep := [c] + t;
    if |xs| == 1 {
      assert c !in p + xs[0];
    } else {
      var rest := Join(xs[1..], sep);
      assert p + Join(xs, sep) == (p + xs[0]) + [c] + (t + rest);
      SplitAfter(p + xs[0], c, t + rest);
      SplitJoin(t, xs[1..], c, t);
      assert [t + xs[1..][0]] + Prefixed(t, xs[1..][1..]) == Prefixed(t, xs[1..]);
    }
  }

  /** `xs.slice(-n)` for n >= 0; note that `slice(-0)` is `slice(0)` and keeps everything. */
  function SliceLast<T>(xs: seq<T>, n: nat): (r: seq<T>)
    ensures n == 0 ==> r == xs
    ensures n > 0 ==> |r| == (if |xs| < n then |xs| else n)
    ensures r == xs[|xs| - |r|..]
  {
    if n == 0 || |xs| <= n then xs else xs[|xs| - n..]
  }

  /** `xs.slice(0, n)`. */
  function Take<T>(xs: seq<T>, n: nat): (r: seq<T>)
    ensures |r| == (if |xs| < n then |xs| else n)
    ensures r == xs[..|r|]
  {
    if |xs| <= n then xs else xs[..n]
  }

  /** `Array.prototype.filter`. */
  function Filter<T(==,!new)>(xs: seq<T>, keep: T -> bool): (r: seq<T>)
    ensures |r| <= |xs|
    ensures forall i :: 0 <= i < |r| ==> keep(r[i])
    ensures forall x :: x in r <==> x in xs && keep(x)
  {
    if xs == [] then []
    else if keep(xs[0]) then [xs[0]] + Filter(xs[1..], keep)
    else Filter(xs[1..], keep)
  }

  lemma {:induction false} FilterAppend<T(!new)>(a: seq<T>, b: seq<T>, keep: T -> bool)
    ensures Filter(a + b, keep) == Filter(a, keep) + Filter(b, keep)
  {
    if a != [] {
      FilterAppend(a[1..], b, keep);
      assert a == [a[0]] + a[1..];
      assert a + b == [a[0]] + (a[1..] + b);
      FilterCons(a[0], a[1..] + b, keep);
      FilterCons(a[0], a[1..], keep);
      var head := if keep(a[0]) then [a[0]] else [];
      JoinHead(head, Filter(a, keep), Filter(a[1..], keep), Filter(b, keep),
               Filter(a[1..] + b, keep), Filter(a + b, keep));
    } else {
      assert a + b == b;
    }
  }

  lemma FilterCons<T(!new)>(x: T, xs: seq<T>, keep: T -> bool)
    ensures Filter([x] + xs, keep) == (if keep(x) then [x] else []) + Filter(xs, keep)
  {
    assert ([x] + xs)[0] == x && ([x] + xs)[1..] == xs;
  }

  /** The sequence step of FilterAppend, over plain sequences. */
  lemma JoinHead<T>(head: seq<T>, fa: seq<T>, fa1: seq<T>, fb: seq<T>, fa1b: seq<T>, fab: seq<T>)
    requires fa == head + fa1 && fa1b == fa1 + fb && fab == head + fa1b
    ensures fab == fa + fb
  {
  }

  /** A filter that keeps every element changes nothing. */
  lemma {:induction false} FilterAll<T(!new)>(xs: seq<T>, keep: T -> bool)
    requires forall i :: 0 <= i < |xs| ==> keep(xs[i])
    ensures Filter(xs, keep) == xs
  {
    if xs != [] {
      FilterAll(xs[1..], keep);
    }
  }

  /** A filter and its complement split the list. */
  lemma {:induction false} FilterComplement<T(!new)>(xs: seq<T>, keep: T -> bool, drop: T -> bool)
    requires forall x :: drop(x) == !keep(x)
    ensures |Filter(xs, keep)| + |Filter(xs, drop)| == |xs|
  {
    if xs != [] {
      FilterComplement(xs[1..], keep, drop);
    }
  }

  predicate NoDup<T(==)>(xs: seq<T>)
  {
    forall i, j :: 0 <= i < j < |xs| ==> xs[i] != xs[j]
  }

  lemma {:induction false} FilterKeepsNoDup<T(!new)>(xs: seq<T>, keep: T -> bool)
    requires NoDup(xs)
    ensures NoDup(Filter(xs, keep))
  {
    if xs != [] {
      FilterKeepsNoDup(xs[1..], keep);
      assert xs[0] !in xs[1..];
    }
  }

  /** Insertion into a JavaScript `Set`, which keeps insertion order. */
  function SetAdd<T(==,!new)>(xs: seq<T>, x: T): (r: seq<T>)
    ensures NoDup(xs) ==> NoDup(r)
    ensures forall y :: y in r <==> y in xs || y == x
  {
    if x in xs then xs else xs + [x]
  }

  /** Deletion from a JavaScript `Set`. */
  function SetDelete<T(==,!new)>(xs: seq<T>, x: T): (r: seq<T>)
    ensures |r| <= |xs|
    ensures NoDup(xs) ==> NoDup(r)
    ensures forall y :: y in r <==> y in xs && y != x
  {
    if xs == [] then []
    else if xs[0] == x then SetDelete(xs[1..], x)
    else
      var rest := SetDelete(xs[1..], x);
      assert NoDup(xs) ==> xs[0] !in xs[1..];
      [xs[0]] + rest
  }

  // ---------------------------------------------------------------------
  // Insertion-ordered maps (a JavaScript `Map`, or an object's own keys):
  // key/value pairs, each key at most once, in the order keys were first set.

  function Keys<K, V>(m: seq<(K, V)>): (r: seq<K>)
    ensures |r| == |m|
    ensures forall i :: 0 <= i < |m| ==> r[i] == m[i].0
  {
    seq(|m|, i requires 0 <= i < |m| => m[i].0)
  }

  /** `Array.from(map.values())`. */
  function Values<K, V>(m: seq<(K, V)>): (r: seq<V>)
    ensures |r| == |m|
    ensures forall i :: 0 <= i < |m| ==> r[i] == m[i].1
  {
    seq(|m|, i requires 0 <= i < |m| => m[i].1)
  }

  /** `map.get(k)`. */
  function Get<K(==), V>(m: seq<(K, V)>, k: K): (r: Option<V>)
    ensures r.None? <==> k !in Keys(m)
    ensures r.Some? ==> (k, r.value) in m
  {
    if m == [] then None
    else if m[0].0 == k then Some(m[0].1)
    else
      assert Keys(m) == [m[0].0] + Keys(m[1..]);
      Get(m[1..], k)
  }

  /** The value of the first entry with key `k`. */
  lemma {:induction false} GetAt<K, V>(m: seq<(K, V)>, k: K, i: nat)
    requires i < |m| && m[i].0 == k
    requires forall j :: 0 <= j < i ==> m[j].0 != k
    ensures Get(m, k) == Some(m[i].1)
    decreases i
  {
    if i > 0 {
      GetAt(m[1..], k, i - 1);
    }
  }

  /** `map.set(k, v)`: an existing key keeps its position, a new one goes last. */
  function Put<K(==), V>(m: seq<(K, V)>, k: K, v: V): (r: seq<(K, V)>)
    ensures Keys(r) == if k in Keys(m) then Keys(m) else Keys(m) + [k]
  {
    if m == [] then
      KeysCons((k, v), []);
      [(k, v)]
    else if m[0].0 == k then
      PutKeysHit(m, k, v);
      [(k, v)] + m[1..]
    else
      var rest := Put(m[1..], k, v);
      PutKeysStep(m, k, rest);
      [m[0]] + rest
  }

  lemma PutKeysHit<K, V>(m: seq<(K, V)>, k: K, v: V)
    requires m != [] && m[0].0 == k
    ensures Keys([(k, v)] + m[1..]) == Keys(m)
  {
    assert m == [m[0]] + m[1..];
    KeysCons(m[0], m[1..]);
    KeysCons((k, v), m[1..]);
  }

  lemma PutKeysStep<K, V>(m: seq<(K, V)>, k: K, rest: seq<(K, V)>)
    requires m != [] && m[0].0 != k
    requires Keys(rest) == if k in Keys(m[1..]) then Keys(m[1..]) else Keys(m[1..]) + [k]
    ensures Keys([m[0]] + rest) == if k in Keys(m) then Keys(m) else Keys(m) + [k]
  {
    var head, tail := m[0].0, Keys(m[1..]);
    assert m == [m[0]] + m[1..];
    KeysCons(m[0], m[1..]);
    KeysCons(m[0], rest);
    assert Keys(m) == [head] + tail && Keys([m[0]] + rest) == [head] + Keys(rest);
    assert k in Keys(m) <==> k in tail;
    if k !in tail {
      assert [head] + (tail + [k]) == ([head] + tail) + [k];
    }
  }

  lemma KeysCons<K, V>(x: (K, V), m: seq<(K, V)>)
    ensures Keys([x] + m) == [x.0] + Keys(m)
  {
    var l, r := Keys([x] + m), [x.0] + Keys(m);
    assert |l| == |r|;
    forall i | 0 <= i < |l|
      ensures l[i] == r[i]
    {
      if i > 0 {
        assert ([x] + m)[i] == m[i - 1];
      }
    }
  }

  lemma {:induction false} PutGet<K, V>(m: seq<(K, V)>, k: K, v: V, j: K)
    ensures Get(Put(m, k, v), j) == if j == k then Some(v) else Get(m, j)
  {
    if m != [] && m[0].0 != k {
      PutGet(m[1..], k, v, j);
    }
  }

  lemma PutKeepsNoDup<K, V>(m: seq<(K, V)>, k: K, v: V)
    requires NoDup(Keys(m))
    ensures NoDup(Keys(Put(m, k, v)))
  {
  }

  /** `map.delete(k)`: the other entries keep their order. */
  function Remove<K(==,!new), V>(m: seq<(K, V)>, k: K): (r: seq<(K, V)>)
    ensures Keys(r) == Filter(Keys(m), j => j != k)
  {
    if m == [] then []
    else
      var rest := Remove(m[1..], k);
      RemoveKeysStep(m, k, rest, j => j != k);
      if m[0].0 == k then rest else [m[0]] + rest
  }

  lemma RemoveKeysStep<K(!new), V>(m: seq<(K, V)>, k: K, rest: seq<(K, V)>, keep: K -> bool)
    requires m != [] && forall j :: keep(j) == (j != k)
    requires Keys(rest) == Filter(Keys(m[1..]), keep)
    ensures Keys(if m[0].0 == k then rest else [m[0]] + rest) == Filter(Keys(m), keep)
  {
    assert m == [m[0]] + m[1..];
    KeysCons(m[0], m[1..]);
    assert Keys(m)[0] == m[0].0 && Keys(m)[1..] == Keys(m[1..]);
    if m[0].0 != k {
      KeysCons(m[0], rest);
    }
  }

  lemma {:induction false} RemoveGet<K(!new), V>(m: seq<(K, V)>, k: K, j: K)
    ensures Get(Remove(m, k), j) == if j == k then None else Get(m, j)
  {
    if m != [] {
      RemoveGet(m[1..], k, j);
    }
  }

  lemma {:induction false} RemoveKeepsNoDup<K(!new), V>(m: seq<(K, V)>, k: K)
    requires NoDup(Keys(m))
    ensures NoDup(Keys(Remove(m, k)))
  {
    FilterKeepsNoDup(Keys(m), j => j != k);
  }

  // ---------------------------------------------------------------------
  // Numbers

  function DigitChar(d: nat): char
    requires d < 10
  {
    "0123456789"[d]
  }

  function NatToString(n: nat): (r: string)
    ensures |r| >= 1
    ensures forall i :: 0 <= i < |r| ==> IsDigit(r[i])
  {
    if n < 10 then [DigitChar(n)] else NatToString(n / 10) + [DigitChar(n % 10)]
  }

  /** Template-literal interpolation of an integer. */
  function IntToString(n: int): string
  {
    if n < 0 then "-" + NatToString(-n) else NatToString(n)
  }

  /** Reading the digits back. */
  function DigitsValue(s: string): int
  {
    if s == [] then 0 else DigitsValue(s[..|s| - 1]) * 10 + (s[|s| - 1] as int - '0' as int)
  }

  lemma {:induction false} NatToStringValue(n: nat)
    ensures DigitsValue(NatToString(n)) == n
  {
    if n >= 10 {
      NatToStringValue(n / 10);
      var s := NatToString(n / 10) + [DigitChar(n % 10)];
      assert s[..|s| - 1] == NatToString(n / 10);
    }
  }

  /** `Math.round(a / b)` for a positive divisor: halves round toward positive infinity. */
  function RoundDiv(a: int, b: nat): (r: int)
    requires b > 0
    ensures 2 * a - b < 2 * r * b <= 2 * a + b
  {
    (2 * a + b) / (2 * b)
  }

  /** `Math.ceil(a / b)` for a positive divisor. */
  function CeilDiv(a: int, b: nat): (r: int)
    requires b > 0
    ensures a <= r * b < a + b
  {
    (a + b - 1) / b
  }

  function Min(a: int, b: int): int { if a < b then a else b }
  function Max(a: int, b: int): int { if a < b then b else a }
}
