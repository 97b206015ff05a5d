// Python's list operations used throughout the program: slicing with
// Python's index rules, filtering by a comprehension, string ordering, and
// the stable descending sort of `list.sort(key=..., reverse=True)`.
module Seqs {

  /** Where a Python slice bound `i` lands in a sequence of length `len`
      (negative bounds count from the end, and bounds are clamped). */
  function SliceBound(len: nat, i: int): (r: nat)
    ensures r <= len
    ensures 0 <= i <= len ==> r == i
    ensures i > len ==> r == len
    ensures i < 0 ==> r == if len + i < 0 then 0 else len + i
  {
    if i < 0 then (if len + i < 0 then 0 else len + i)
    else if i > len then len
    else i
  }

  /** Python's `s[a:b]`. */
  function Slice<T>(s: seq<T>, a: int, b: int): (r: seq<T>)
    ensures |r| <= |s|
    ensures 0 <= a <= b <= |s| ==> r == s[a..b]
  {
    var lo := SliceBound(|s|, a);
    var hi := SliceBound(|s|, b);
    if lo < hi then s[lo..hi] else []
  }

  /** Python's `s[:n]`. */
  function Prefix<T>(s: seq<T>, n: int): (r: seq<T>)
    ensures |r| == SliceBound(|s|, n)
    ensures r == s[..SliceBound(|s|, n)]
    ensures n >= 0 ==> |r| == if n < |s| then n else |s|
  {
    Slice(s, 0, n)
  }

  /** Python's `s[a:]`. */
  function Suffix<T>(s: seq<T>, a: int): (r: seq<T>)
    ensures r == s[SliceBound(|s|, a)..]
  {
    Slice(s, a, |s|)
  }

  /** The list comprehension `[x for x in s if p(x)]`. */
  function Filter<T(!new)>(s: seq<T>, p: T -> bool): (r: seq<T>)
    ensures |r| <= |s|
    ensures forall x :: x in r <==> x in s && p(x)
    ensures multiset(r) <= multiset(s)
  {
    if s == [] then []
    else
      assert s == [s[0]] + s[1..];
      if p(s[0]) then [s[0]] + Filter(s[1..], p)
      else Filter(s[1..], p)
  }

  lemma {:induction false} FilterAppend<T(!new)>(s: seq<T>, t: seq<T>, p: T -> bool)
    ensures Filter(s + t, p) == Filter(s, p) + Filter(t, p)
  {
    if s == [] {
      assert s + t == t;
    } else {
      assert (s + t)[1..] == s[1..] + t;
      FilterAppend(s[1..], t, p);
    }
  }

  /** The position of the last occurrence of `x`: where a key assigned in
      a loop got its final value. */
  function LastIndex<T(==)>(s: seq<T>, x: T): (r: nat)
    requires x in s
    ensures r < |s| && s[r] == x && forall j :: r < j < |s| ==> s[j] != x
  {
    if s[|s| - 1] == x then |s| - 1 else LastIndex(s[..|s| - 1], x)
  }

  /** An element other than the last one occurs, last, in the front. */
  lemma LastIndexInFront<T>(s: seq<T>, x: T)
    requires x in s && x != s[|s| - 1]
    ensures x in s[..|s| - 1] && LastIndex(s, x) == LastIndex(s[..|s| - 1], x)
  {
    var k :| 0 <= k < |s| && s[k] == x;
    assert s[..|s| - 1][k] == x;
  }

  /** The members of a non-empty sequence are those of its front and its last element. */
  lemma InFrontOrLast<T>(s: seq<T>)
    requires s != []
    ensures forall y :: y in s <==> y in s[..|s| - 1] || y == s[|s| - 1]
  {
    assert s == s[..|s| - 1] + [s[|s| - 1]];
  }

  /** `[f(x) for x in s]`. */
  function Map<A, B>(s: seq<A>, f: A -> B): (r: seq<B>)
    ensures |r| == |s|
    ensures forall i :: 0 <= i < |s| ==> r[i] == f(s[i])
  {
    seq(|s|, i requires 0 <= i < |s| => f(s[i]))
  }

  /** Mapping a sequence with one more element at the end. */
  lemma MapSnoc<A, B>(s: seq<A>, x: A, f: A -> B)
    ensures Map(s + [x], f) == Map(s, f) + [f(x)]
  {
  }

  /** The same, after a fixed head. */
  lemma MapPrefixAfter<A, B>(head: seq<B>, s: seq<A>, i: nat, f: A -> B)
    requires i < |s|
    ensures head + Map(s[..i + 1], f) == (head + Map(s[..i], f)) + [f(s[i])]
  {
    MapPrefix(s, i, f);
  }

  /** No element occurs twice. */
  ghost predicate Distinct<T>(s: seq<T>)
  {
    forall i, j :: 0 <= i < j < |s| ==> s[i] != s[j]
  }

  /** A sequence without repetitions holds each element at most once. */
  lemma {:induction false} DistinctCounts<T>(s: seq<T>)
    requires Distinct(s)
    ensures forall x :: multiset(s)[x] <= 1
  {
    if s != [] {
      var n := |s| - 1;
      assert s == s[..n] + [s[n]];
      assert Distinct(s[..n]);
      DistinctCounts(s[..n]);
      assert s[n] !in s[..n];
    }
  }

  /** A sequence holding each element at most once has no repetitions. */
  lemma CountsDistinct<T>(s: seq<T>)
    requires forall x :: multiset(s)[x] <= 1
    ensures Distinct(s)
  {
    forall i, j | 0 <= i < j < |s| ensures s[i] != s[j] {
      assert s == s[..j] + [s[j]] + s[j + 1..];
      assert multiset(s)[s[j]] == multiset(s[..j])[s[j]] + 1 + multiset(s[j + 1..])[s[j]];
      assert s[i] in s[..j];
      assert multiset(s[..j])[s[i]] >= 1;
    }
  }

  /** Reordering keeps a sequence free of repetitions. */
  lemma PermutationDistinct<T>(s: seq<T>, t: seq<T>)
    requires Distinct(s) && multiset(s) == multiset(t)
    ensures Distinct(t)
  {
    DistinctCounts(s);
    CountsDistinct(t);
  }

  /** The image of every element is in the image of the sequence. */
  lemma MapMembers<A, B>(s: seq<A>, f: A -> B)
    ensures forall x :: x in s ==> f(x) in Map(s, f)
  {
    forall x | x in s ensures f(x) in Map(s, f) {
      var i :| 0 <= i < |s| && s[i] == x;
      assert Map(s, f)[i] == f(x);
    }
  }

  /** Extending a prefix by one element extends its image by one. */
  lemma MapPrefix<A, B>(s: seq<A>, i: nat, f: A -> B)
    requires i < |s|
    ensures Map(s[..i + 1], f) == Map(s[..i], f) + [f(s[i])]
  {
    assert s[..i + 1] == s[..i] + [s[i]];
  }

  /** A prefix of a prefix is a prefix. */
  lemma PrefixOfPrefix<T>(s: seq<T>, n: nat, k: nat)
    requires k <= n <= |s|
    ensures s[..n][..k] == s[..k]
  {
  }

  /** Appending two pieces one after the other appends their concatenation. */
  lemma SliceThree<T>(s: seq<T>, i: nat, j: nat)
    requires i <= j <= |s|
    ensures s == s[..i] + s[i..j] + s[j..]
  {
    assert s[..j] == s[..i] + s[i..j];
    assert s == s[..j] + s[j..];
  }

  lemma AppendTwo<T>(a: seq<T>, b: seq<T>, c: seq<T>)
    ensures a + b + c == a + (b + c)
  {
    assert (a + b + c)[..|a|] == a;
  }

  /** Appending three pieces one after the other appends their concatenation. */
  lemma AppendThree<T>(a: seq<T>, b: seq<T>, c: seq<T>, d: seq<T>)
    ensures a + b + c + d == a + (b + c + d)
  {
    assert a + b + c + d == a + (b + c) + d;
  }

  /** The concatenation of a list of lists (`for x in xs: out.extend(x)`). */
  function Flatten<T>(xs: seq<seq<T>>): seq<T>
  {
    if xs == [] then [] else Flatten(xs[..|xs| - 1]) + xs[|xs| - 1]
  }

  /** Python's ordering of strings: lexicographic by code point, where a
      proper prefix comes first. `LexLe(a, b)` is `a <= b`. */
  predicate LexLe(a: string, b: string)
    decreases |a|
  {
    |a| == 0 || (|b| > 0 && (a[0] < b[0] || (a[0] == b[0] && LexLe(a[1..], b[1..]))))
  }

  lemma {:induction false} LexLeReflexive(a: string)
    ensures LexLe(a, a)
    decreases |a|
  {
    if |a| > 0 {
      LexLeReflexive(a[1..]);
    }
  }

  lemma {:induction false} LexLeTotal(a: string, b: string)
    ensures LexLe(a, b) || LexLe(b, a)
    decreases |a|
  {
    if |a| > 0 && |b| > 0 && a[0] == b[0] {
      LexLeTotal(a[1..], b[1..]);
    }
  }

  lemma {:induction false} LexLeAntisymmetric(a: string, b: string)
    requires LexLe(a, b) && LexLe(b, a)
    ensures a == b
    decreases |a|
  {
    if |a| > 0 {
      LexLeAntisymmetric(a[1..], b[1..]);
      assert a == [a[0]] + a[1..] && b == [b[0]] + b[1..];
    }
  }

  lemma {:induction false} LexLeTransitive(a: string, b: string, c: string)
    requires LexLe(a, b) && LexLe(b, c)
    ensures LexLe(a, c)
    decreases |a|
  {
    if |a| > 0 && a[0] == b[0] && b[0] == c[0] {
      LexLeTransitive(a[1..], b[1..], c[1..]);
    }
  }

  /** A sort key: a number or a text. Python orders numbers by value and
      texts by `LexLe`; between a number and a text it has no order (and
      raises), so the order placed here between the two kinds, numbers
      first, only makes `KeyLe` total. */
  datatype Key = NumberKey(x: real) | TextKey(s: string)

  predicate KeyLe(a: Key, b: Key)
  {
    match (a, b)
    case (NumberKey(x), NumberKey(y)) => x <= y
    case (TextKey(s), TextKey(t)) => LexLe(s, t)
    case (NumberKey(_), TextKey(_)) => true
    case (TextKey(_), NumberKey(_)) => false
  }

  lemma KeyLeReflexive(a: Key)
    ensures KeyLe(a, a)
  {
    if a.TextKey? {
      LexLeReflexive(a.s);
    }
  }

  lemma KeyLeTotal(a: Key, b: Key)
    ensures KeyLe(a, b) || KeyLe(b, a)
  {
    if a.TextKey? && b.TextKey? {
      LexLeTotal(a.s, b.s);
    }
  }

  lemma KeyLeTransitive(a: Key, b: Key, c: Key)
    requires KeyLe(a, b) && KeyLe(b, c)
    ensures KeyLe(a, c)
  {
    if a.TextKey? && b.TextKey? && c.TextKey? {
      LexLeTransitive(a.s, b.s, c.s);
    }
  }

  /** Every element's key is at least the key of every later element. */
  predicate SortedDesc<T>(s: seq<T>, key: T -> Key)
  {
    forall i, j :: 0 <= i < j < |s| ==> KeyLe(key(s[j]), key(s[i]))
  }

  /** The first `n` elements of a sorted sequence are its greatest: every
      element left out is no greater than any kept. */
  lemma SortedPrefixGreatest<T>(s: seq<T>, key: T -> Key, n: nat)
    requires SortedDesc(s, key) && n <= |s|
    ensures SortedDesc(s[..n], key)
    ensures forall x :: x in s && x !in s[..n] ==> forall i :: 0 <= i < n ==> KeyLe(key(x), key(s[i]))
  {
    forall x | x in s && x !in s[..n] ensures forall i :: 0 <= i < n ==> KeyLe(key(x), key(s[i])) {
      var j :| 0 <= j < |s| && s[j] == x;
    }
  }

  /** Inserts `x` before the first element whose key is not greater than
      `x`'s, so that equal keys keep their original order. */
  function Insert<T>(x: T, s: seq<T>, key: T -> Key): (r: seq<T>)
    ensures multiset(r) == multiset(s) + multiset{x}
    ensures |r| == |s| + 1
  {
    if s == [] then [x]
    else if KeyLe(key(s[0]), key(x)) then [x] + s
    else
      assert s == [s[0]] + s[1..];
      [s[0]] + Insert(x, s[1..], key)
  }

  lemma {:induction false} InsertSorted<T>(x: T, s: seq<T>, key: T -> Key)
    requires SortedDesc(s, key)
    ensures SortedDesc(Insert(x, s, key), key)
    ensures forall i :: 0 <= i < |Insert(x, s, key)| ==>
      Insert(x, s, key)[i] == x || Insert(x, s, key)[i] in s
  {
    if s == [] {
    } else if KeyLe(key(s[0]), key(x)) {
      var r := [x] + s;
      forall i, j | 0 <= i < j < |r| ensures KeyLe(key(r[j]), key(r[i])) {
        if i == 0 {
          if j > 1 {
            KeyLeTransitive(key(s[j - 1]), key(s[0]), key(x));
          }
        }
      }
    } else {
      var t := Insert(x, s[1..], key);
      InsertSorted(x, s[1..], key);
      var r := [s[0]] + t;
      KeyLeTotal(key(s[0]), key(x));
      forall i, j | 0 <= i < j < |r| ensures KeyLe(key(r[j]), key(r[i])) {
        if i == 0 {
          assert r[j] == t[j - 1];
          if t[j - 1] != x {
            assert t[j - 1] in s[1..];
            var k :| 0 <= k < |s[1..]| && s[1..][k] == t[j - 1];
            assert s[k + 1] == t[j - 1];
          }
        }
      }
    }
  }

  /** `sorted(s, key=key, reverse=True)`: a stable sort, largest key first. */
  function SortDesc<T>(s: seq<T>, key: T -> Key): (r: seq<T>)
    ensures multiset(r) == multiset(s)
    ensures |r| == |s|
    ensures SortedDesc(r, key)
  {
    if s == [] then []
    else
      var rest := SortDesc(s[1..], key);
      InsertSorted(s[0], rest, key);
      MultisetOfCons(s);
      Insert(s[0], rest, key)
  }

  lemma MultisetOfCons<T>(s: seq<T>)
    requires s != []
    ensures multiset(s) == multiset(s[1..]) + multiset{s[0]}
  {
    assert s == [s[0]] + s[1..];
  }

  /** Sorting neither adds nor drops elements. */
  lemma SortDescMembers<T>(s: seq<T>, key: T -> Key)
    ensures forall x :: x in SortDesc(s, key) <==> x in s
  {
    var r := SortDesc(s, key);
    forall x ensures x in r <==> x in s {
      assert x in r <==> x in multiset(r);
      assert x in s <==> x in multiset(s);
    }
  }

  /** A sorted list's first element carries the greatest key. */
  lemma SortDescHeadIsMax<T>(s: seq<T>, key: T -> Key)
    requires |s| > 0
    ensures forall x :: x in s ==> KeyLe(key(x), key(SortDesc(s, key)[0]))
  {
    var r := SortDesc(s, key);
    forall x | x in s ensures KeyLe(key(x), key(r[0])) {
      assert x in multiset(s);
      assert x in multiset(r);
      var k :| 0 <= k < |r| && r[k] == x;
      if k == 0 {
        KeyLeReflexive(key(x));
      }
    }
  }
}
