/**
 * The array operations the stores and components are built from
 * (`filter`, `find`, `some`, `map` with a replacement, `slice(0, n)`,
 * filtering by index), each given as a recursive definition together with
 * the characterisation the callers rely on.
 */
module Seqs {
  import opened Wrappers

  /** `r` arises from `s` by deleting elements; the kept ones stay in order. */
  predicate IsSubsequence<T(==)>(r: seq<T>, s: seq<T>)
  {
    if r == [] then true
    else if s == [] then false
    else if r[0] == s[0] then IsSubsequence(r[1..], s[1..])
    else IsSubsequence(r, s[1..])
  }

  /** A prefix of a subsequence is a subsequence too. */
  lemma {:induction false} PrefixIsSubsequence<T>(p: seq<T>, r: seq<T>, s: seq<T>)
    requires p <= r && IsSubsequence(r, s)
    ensures IsSubsequence(p, s)
    decreases |s|
  {
    if p != [] && s != [] {
      if r[0] == s[0] {
        PrefixIsSubsequence(p[1..], r[1..], s[1..]);
      } else {
        PrefixIsSubsequence(p, r, s[1..]);
      }
    }
  }

  /** Number of elements of `s` that satisfy `p`. */
  function Count<T>(s: seq<T>, p: T -> bool): (n: nat)
    ensures n <= |s|
  {
    if s == [] then 0 else (if p(s[0]) then 1 else 0) + Count(s[1..], p)
  }

  /** `Array.prototype.filter`. */
  function Filter<T(==)>(s: seq<T>, keep: T -> bool): (r: seq<T>)
    ensures |r| == Count(s, keep)
    ensures forall i :: 0 <= i < |r| ==> keep(r[i])
    ensures forall i :: 0 <= i < |s| && keep(s[i]) ==> s[i] in r
    ensures IsSubsequence(r, s)
  {
    if s == [] then []
    else if keep(s[0]) then [s[0]] + Filter(s[1..], keep)
    else Filter(s[1..], keep)
  }

  /** Every element of a filter comes from the filtered sequence. */
  lemma {:induction false} FilterFromSource<T>(s: seq<T>, keep: T -> bool)
    ensures forall i :: 0 <= i < |Filter(s, keep)| ==> Filter(s, keep)[i] in s
  {
    if s != [] {
      FilterFromSource(s[1..], keep);
    }
  }

  /** Filtering keeps everything when every element passes. */
  lemma {:induction false} FilterAll<T>(s: seq<T>, keep: T -> bool)
    requires forall i :: 0 <= i < |s| ==> keep(s[i])
    ensures Filter(s, keep) == s
  {
    if s != [] {
      FilterAll(s[1..], keep);
    }
  }

  /** Filtering removes everything when no element passes. */
  lemma {:induction false} FilterNone<T>(s: seq<T>, keep: T -> bool)
    requires forall i :: 0 <= i < |s| ==> !keep(s[i])
    ensures Filter(s, keep) == []
  {
    if s != [] {
      FilterNone(s[1..], keep);
    }
  }

  /** A filter is empty exactly when no element passes. */
  lemma FilterEmptyIff<T>(s: seq<T>, keep: T -> bool)
    ensures Filter(s, keep) == [] <==> forall i :: 0 <= i < |s| ==> !keep(s[i])
  {
    if forall i :: 0 <= i < |s| ==> !keep(s[i]) {
      FilterNone(s, keep);
    }
  }

  /** Filtering distributes over concatenation. */
  lemma {:induction false} FilterConcat<T>(a: seq<T>, b: seq<T>, keep: T -> bool)
    ensures Filter(a + b, keep) == Filter(a, keep) + Filter(b, keep)
  {
    if a == [] {
      assert a + b == b;
    } else {
      assert (a + b)[1..] == a[1..] + b;
      FilterConcat(a[1..], b, keep);
    }
  }

  /** Keys of the elements of `s` are pairwise distinct. */
  predicate DistinctBy<T>(s: seq<T>, key: T -> string)
  {
    forall i, j :: 0 <= i < j < |s| ==> key(s[i]) != key(s[j])
  }

  /** A filter of a sequence with distinct keys still has distinct keys. */
  lemma {:induction false} FilterDistinct<T>(s: seq<T>, keep: T -> bool, key: T -> string)
    requires DistinctBy(s, key)
    ensures DistinctBy(Filter(s, keep), key)
  {
    if s != [] {
      FilterDistinct(s[1..], keep, key);
      if keep(s[0]) {
        var rest := Filter(s[1..], keep);
        FilterFromSource(s[1..], keep);
        forall j | 0 <= j < |rest|
          ensures key(s[0]) != key(rest[j])
        {
          assert rest[j] in s[1..];
          var k :| 0 <= k < |s[1..]| && s[1..][k] == rest[j];
          assert s[k + 1] == rest[j];
        }
      }
    }
  }

  /** Index of the first element satisfying `p`, if any (`findIndex`). */
  function FirstIndex<T>(s: seq<T>, p: T -> bool): (r: Option<nat>)
    ensures r.Some? ==> r.value < |s| && p(s[r.value])
    ensures r.Some? ==> forall j :: 0 <= j < r.value ==> !p(s[j])
    ensures r.None? ==> forall j :: 0 <= j < |s| ==> !p(s[j])
  {
    if s == [] then None
    else if p(s[0]) then Some(0)
    else match FirstIndex(s[1..], p)
      case None => None
      case Some(k) => Some(k + 1)
  }

  /** `Array.prototype.find`: the first element satisfying `p`, if any. */
  function Find<T>(s: seq<T>, p: T -> bool): (r: Option<T>)
    ensures r.Some? <==> exists i :: 0 <= i < |s| && p(s[i])
    ensures r.Some? ==> exists i :: 0 <= i < |s| && s[i] == r.value && p(s[i]) &&
                                    forall j :: 0 <= j < i ==> !p(s[j])
  {
    match FirstIndex(s, p)
    case None => None
    case Some(i) => Some(s[i])
  }

  /** `Array.prototype.some`. */
  function Any<T>(s: seq<T>, p: T -> bool): (b: bool)
    ensures b <==> exists i :: 0 <= i < |s| && p(s[i])
  {
    if s == [] then false
    else p(s[0]) || Any(s[1..], p)
  }

  /** `s.map(x => matches(x) ? row : x)`. */
  function ReplaceWhere<T>(s: seq<T>, matches: T -> bool, row: T): (r: seq<T>)
    ensures |r| == |s|
    ensures forall i :: 0 <= i < |s| && matches(s[i]) ==> r[i] == row
    ensures forall i :: 0 <= i < |s| && !matches(s[i]) ==> r[i] == s[i]
  {
    if s == [] then []
    else [if matches(s[0]) then row else s[0]] + ReplaceWhere(s[1..], matches, row)
  }

  /** `s.slice(0, n)` for a non-negative `n`. */
  function Take<T>(s: seq<T>, n: nat): (r: seq<T>)
    ensures |r| == if |s| < n then |s| else n
    ensures r <= s
  {
    if |s| <= n then s else s[..n]
  }

  /** `s.filter((_, i) => i !== index)`. */
  function RemoveAt<T>(s: seq<T>, index: int): (r: seq<T>)
    ensures 0 <= index < |s| ==> r == s[..index] + s[index + 1..]
    ensures !(0 <= index < |s|) ==> r == s
  {
    if s == [] then []
    else (if index == 0 then [] else [s[0]]) + RemoveAt(s[1..], index - 1)
  }

  /** Position of the first occurrence of `x` in `s` (`indexOf`). */
  function IndexOf<T(==)>(s: seq<T>, x: T): (i: nat)
    requires x in s
    ensures i < |s| && s[i] == x
    ensures forall j :: 0 <= j < i ==> s[j] != x
  {
    if s[0] == x then 0 else IndexOf(s[1..], x) + 1
  }

  /** Appending an element does not move the first occurrence of an element already present. */
  lemma {:induction false} IndexOfAppend<T>(s: seq<T>, x: T, y: T)
    requires y in s
    ensures IndexOf(s + [x], y) == IndexOf(s, y)
  {
    if s[0] != y {
      assert (s + [x])[1..] == s[1..] + [x];
      IndexOfAppend(s[1..], x, y);
    }
  }

  /**
   * `Array.from(new Set(s))`: the distinct elements of `s`, each at the
   * position of its first occurrence.
   */
  function Dedupe<T(==)>(s: seq<T>): (r: seq<T>)
    ensures |r| <= |s|
    ensures forall i, j :: 0 <= i < j < |r| ==> r[i] != r[j]
    ensures forall i :: 0 <= i < |s| ==> s[i] in r
  {
    if s == [] then []
    else
      var init := s[..|s| - 1];
      var r := Dedupe(init);
      assert forall i :: 0 <= i < |s| - 1 ==> s[i] == init[i];
      if s[|s| - 1] in r then r else r + [s[|s| - 1]]
  }

  /** Every element of `Dedupe(s)` occurs in `s`. */
  lemma {:induction false} DedupeFromSource<T>(s: seq<T>)
    ensures forall i :: 0 <= i < |Dedupe(s)| ==> Dedupe(s)[i] in s
  {
    if s != [] {
      var init := s[..|s| - 1];
      DedupeFromSource(init);
      assert forall x :: x in init ==> x in s;
    }
  }

  /** Every two elements of `s`, taken in order, are related by `before`. */
  predicate Chain<T>(s: seq<T>, before: (T, T) -> bool)
  {
    forall i, j :: 0 <= i < j < |s| ==> before(s[i], s[j])
  }

  /** A filter keeps the relative order of the elements it keeps. */
  lemma {:induction false} FilterChain<T>(s: seq<T>, keep: T -> bool, before: (T, T) -> bool)
    requires Chain(s, before)
    ensures Chain(Filter(s, keep), before)
  {
    if s != [] {
      assert Chain(s[1..], before) by {
        forall i, j | 0 <= i < j < |s[1..]| ensures before(s[1..][i], s[1..][j]) {
          assert s[1..][i] == s[i + 1] && s[1..][j] == s[j + 1];
        }
      }
      FilterChain(s[1..], keep, before);
      if keep(s[0]) {
        var rest := Filter(s[1..], keep);
        FilterFromSource(s[1..], keep);
        forall j | 0 <= j < |rest| ensures before(s[0], rest[j]) {
          var m :| 0 <= m < |s[1..]| && s[1..][m] == rest[j];
          assert s[m + 1] == rest[j];
        }
      }
    }
  }

  /** `x` occurs in `source` before `y` does. */
  function FirstBefore<T(==)>(source: seq<T>): (T, T) -> bool
  {
    (x, y) => x in source && y in source && IndexOf(source, x) < IndexOf(source, y)
  }

  /** `Dedupe(s)` lists the elements of `s` in the order of their first occurrences. */
  lemma {:induction false} DedupeFirstOccurrenceOrder<T>(s: seq<T>)
    ensures Chain(Dedupe(s), FirstBefore(s))
  {
    DedupeFromSource(s);
    if s != [] {
      var init, x := s[..|s| - 1], s[|s| - 1];
      assert s == init + [x];
      var ri := Dedupe(init);
      DedupeFirstOccurrenceOrder(init);
      DedupeFromSource(init);
      forall k | 0 <= k < |ri| ensures IndexOf(s, ri[k]) == IndexOf(init, ri[k]) {
        IndexOfAppend(init, x, ri[k]);
      }
      if x !in ri {
        assert x !in init;
        assert IndexOf(s, x) == |init|;
      }
    }
  }
}
