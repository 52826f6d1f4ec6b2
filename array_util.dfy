/**
 * The array helpers the analytics code relies on: the `onlyUnique` filter,
 * the `!=` filter, a stable sort by a numeric key (what `Array.prototype.sort`
 * does with a consistent comparator), maxima, minima and sums.
 */
module ArrayUtil {

  /** No element occurs twice. */
  predicate Distinct<T(==)>(s: seq<T>) {
    forall i, j :: 0 <= i < j < |s| ==> s[i] != s[j]
  }

  /**
   * `s.filter(onlyUnique)` with `onlyUnique(value, index, self) = self.indexOf(value) === index`:
   * an element is kept exactly when no equal element comes before it.
   */
  function OnlyUnique<T(==)>(s: seq<T>): (r: seq<T>)
    ensures |r| <= |s|
    ensures Distinct(r)
    ensures forall i :: 0 <= i < |r| ==> r[i] in s
    ensures forall i :: 0 <= i < |s| ==> s[i] in r
    decreases |s|
  {
    if s == [] then []
    else
      var init, last := s[..|s| - 1], s[|s| - 1];
      assert s == init + [last];
      if last in init then OnlyUnique(init) else OnlyUnique(init) + [last]
  }

  /** `s.indexOf(v)`: the index of the first element equal to `v`, searching from the front. */
  function FirstIndex<T(==)>(s: seq<T>, v: T): (i: nat)
    requires v in s
    ensures i < |s| && s[i] == v && v !in s[..i]
  {
    if s[0] == v then 0
    else
      assert v in s[1..];
      1 + FirstIndex(s[1..], v)
  }

  /** An index holding `v` with no `v` before it is the first index of `v`. */
  lemma FirstIndexUnique<T>(s: seq<T>, v: T, k: nat)
    requires k < |s| && s[k] == v && v !in s[..k]
    ensures FirstIndex(s, v) == k
  {
  }

  /** An element's first index is the same in a prefix that contains it. */
  lemma FirstIndexPrefix<T>(s: seq<T>, n: nat, v: T)
    requires n <= |s| && v in s[..n]
    ensures FirstIndex(s, v) == FirstIndex(s[..n], v)
  {
    var i := FirstIndex(s[..n], v);
    assert s[..n][..i] == s[..i];
    FirstIndexUnique(s, v, i);
  }

  /**
   * onlyUnique keeps the values in the order of their first occurrences:
   * earlier entries of the result first occur earlier in the input.
   */
  lemma {:induction false} OnlyUniqueOrder<T>(s: seq<T>)
    ensures forall i, j :: 0 <= i < j < |OnlyUnique(s)| ==> FirstIndex(s, OnlyUnique(s)[i]) < FirstIndex(s, OnlyUnique(s)[j])
    decreases |s|
  {
    if s != [] {
      var init, last := s[..|s| - 1], s[|s| - 1];
      assert s == init + [last];
      OnlyUniqueOrder(init);
      var u, r := OnlyUnique(init), OnlyUnique(s);
      assert forall k :: 0 <= k < |u| ==> u[k] in init;
      forall k | 0 <= k < |u|
        ensures FirstIndex(s, u[k]) == FirstIndex(init, u[k]) < |init|
      {
        FirstIndexPrefix(s, |s| - 1, u[k]);
      }
      if last !in init {
        assert r == u + [last];
        FirstIndexUnique(s, last, |init|);
      }
    }
  }

  /** onlyUnique keeps every element of a sequence without repetitions, and only of such a sequence. */
  lemma {:induction false} OnlyUniqueKeepsAll<T>(s: seq<T>)
    ensures |OnlyUnique(s)| == |s| <==> Distinct(s)
    ensures Distinct(s) ==> OnlyUnique(s) == s
    decreases |s|
  {
    if s != [] {
      var init, last := s[..|s| - 1], s[|s| - 1];
      assert s == init + [last];
      OnlyUniqueKeepsAll(init);
      if Distinct(s) {
        assert Distinct(init) by {
          forall i, j | 0 <= i < j < |init| ensures init[i] != init[j] { assert init[i] == s[i] && init[j] == s[j]; }
        }
        assert last !in init by {
          forall i | 0 <= i < |init| ensures init[i] != last { assert s[i] == init[i]; }
        }
      }
      if |OnlyUnique(s)| == |s| {
        assert last !in init && Distinct(init);
        forall i, j | 0 <= i < j < |s| ensures s[i] != s[j] {
          if j < |s| - 1 { assert s[i] == init[i] && s[j] == init[j]; } else { assert s[i] in init; }
        }
      }
    }
  }

  /** A sequence without repetitions has as many elements as its set. */
  lemma {:induction false} DistinctCardinality<T>(s: seq<T>)
    requires Distinct(s)
    ensures |set x | x in s| == |s|
    decreases |s|
  {
    if s != [] {
      var init, last := s[..|s| - 1], s[|s| - 1];
      assert s == init + [last];
      assert Distinct(init) by {
        forall i, j | 0 <= i < j < |init| ensures init[i] != init[j] { assert init[i] == s[i] && init[j] == s[j]; }
      }
      DistinctCardinality(init);
      assert last !in init by {
        forall i | 0 <= i < |init| ensures init[i] != last { assert s[i] == init[i]; }
      }
      assert (set x | x in s) == (set x | x in init) + {last};
    }
  }

  /** How many times `x` occurs in `s`. */
  function Occurrences<T(==)>(s: seq<T>, x: T): nat
    decreases |s|
  {
    if s == [] then 0 else Occurrences(s[..|s| - 1], x) + (if s[|s| - 1] == x then 1 else 0)
  }

  /** `x` occurs at least once exactly when it is an element. */
  lemma {:induction false} OccurrencesMembership<T>(s: seq<T>, x: T)
    ensures Occurrences(s, x) > 0 <==> x in s
    decreases |s|
  {
    if s != [] {
      var init := s[..|s| - 1];
      assert s == init + [s[|s| - 1]];
      OccurrencesMembership(init, x);
    }
  }

  /** `s.filter(v => v != x)`. */
  function RemoveAll<T(==)>(s: seq<T>, x: T): (r: seq<T>)
    ensures forall i :: 0 <= i < |r| ==> r[i] in s && r[i] != x
    ensures forall i :: 0 <= i < |s| && s[i] != x ==> s[i] in r
    ensures |r| + Occurrences(s, x) == |s|
    ensures Distinct(s) ==> Distinct(r)
    decreases |s|
  {
    if s == [] then []
    else
      var init, last := s[..|s| - 1], s[|s| - 1];
      assert s == init + [last];
      assert Distinct(s) ==> Distinct(init) by {
        if Distinct(s) {
          forall i, j | 0 <= i < j < |init| ensures init[i] != init[j] { assert init[i] == s[i] && init[j] == s[j]; }
        }
      }
      assert Distinct(s) ==> last !in init by {
        if Distinct(s) {
          forall i | 0 <= i < |init| ensures init[i] != last { assert s[i] == init[i]; }
        }
      }
      if last == x then RemoveAll(init, x) else RemoveAll(init, x) + [last]
  }

  /** The keys of `s` never decrease. */
  predicate SortedBy<T>(s: seq<T>, key: T -> real) {
    forall i, j :: 0 <= i < j < |s| ==> key(s[i]) <= key(s[j])
  }

  /** Puts `x` in front of the first element whose key is at least its own. */
  function Insert<T>(x: T, t: seq<T>, key: T -> real): (r: seq<T>)
    ensures |r| == |t| + 1
    ensures multiset(r) == multiset(t) + multiset{x}
    decreases |t|
  {
    if t == [] then [x]
    else if key(x) <= key(t[0]) then [x] + t
    else
      assert t == [t[0]] + t[1..];
      [t[0]] + Insert(x, t[1..], key)
  }

  /** A lower bound on the keys of `t` and of `x` bounds the keys after inserting. */
  lemma {:induction false} InsertBound<T>(x: T, t: seq<T>, key: T -> real, low: real)
    requires low <= key(x) && forall k :: 0 <= k < |t| ==> low <= key(t[k])
    ensures forall k :: 0 <= k < |Insert(x, t, key)| ==> low <= key(Insert(x, t, key)[k])
    decreases |t|
  {
    if t != [] && key(x) > key(t[0]) {
      var tail := t[1..];
      assert forall k :: 0 <= k < |tail| ==> tail[k] == t[k + 1];
      InsertBound(x, tail, key, low);
    }
  }

  lemma {:induction false} InsertSorted<T>(x: T, t: seq<T>, key: T -> real)
    requires SortedBy(t, key)
    ensures SortedBy(Insert(x, t, key), key)
    decreases |t|
  {
    if t != [] && key(x) > key(t[0]) {
      var tail := t[1..];
      var rest := Insert(x, tail, key);
      assert forall k :: 0 <= k < |tail| ==> tail[k] == t[k + 1];
      InsertSorted(x, tail, key);
      InsertBound(x, tail, key, key(t[0]));
      var r := [t[0]] + rest;
      assert forall k :: 0 <= k < |rest| ==> r[k + 1] == rest[k];
      forall i, j | 0 <= i < j < |r| ensures key(r[i]) <= key(r[j]) {
        assert r[j] == rest[j - 1];
      }
    }
  }

  /**
   * `s.sort((a, b) => key(a) - key(b))`: ascending by key, elements with equal
   * keys in their original order (the sort is stable).
   */
  function SortBy<T>(s: seq<T>, key: T -> real): (r: seq<T>)
    ensures |r| == |s|
    ensures multiset(r) == multiset(s)
    ensures SortedBy(r, key)
    decreases |s|
  {
    if s == [] then [] else
      assert s == [s[0]] + s[1..];
      InsertSorted(s[0], SortBy(s[1..], key), key);
      Insert(s[0], SortBy(s[1..], key), key)
  }

  /** The last index of `s` whose key is largest. */
  function LastMaxIndex<T>(s: seq<T>, key: T -> real): (r: nat)
    requires |s| > 0
    ensures r < |s|
    ensures forall i :: 0 <= i < |s| ==> key(s[i]) <= key(s[r])
    ensures forall i :: r < i < |s| ==> key(s[i]) < key(s[r])
    decreases |s|
  {
    if |s| == 1 then 0
    else
      var j := LastMaxIndex(s[1..], key);
      assert forall i :: 1 <= i < |s| ==> s[i] == s[1..][i - 1];
      if key(s[0]) > key(s[1 + j]) then 0 else 1 + j
  }

  /** The last element of a sorted sequence has its largest key. */
  lemma {:induction false} InsertLast<T>(x: T, t: seq<T>, key: T -> real)
    requires |t| > 0 && SortedBy(t, key)
    ensures Insert(x, t, key)[|t|] == if key(x) > key(t[|t| - 1]) then x else t[|t| - 1]
    decreases |t|
  {
    if key(x) > key(t[0]) && |t| > 1 {
      assert SortedBy(t[1..], key);
      InsertLast(x, t[1..], key);
    }
  }

  /**
   * After the stable ascending sort, the last element is the one at the last
   * index of a largest key: ties go to the element that came last.
   */
  lemma {:induction false} LastOfSortBy<T>(s: seq<T>, key: T -> real)
    requires |s| > 0
    ensures SortBy(s, key)[|s| - 1] == s[LastMaxIndex(s, key)]
    decreases |s|
  {
    if |s| > 1 {
      var tail := s[1..];
      var t := SortBy(tail, key);
      LastOfSortBy(tail, key);
      InsertLast(s[0], t, key);
      assert s[1 + LastMaxIndex(tail, key)] == tail[LastMaxIndex(tail, key)];
    }
  }

  /** The largest element, as the loop `if (arr[i] > max) max = arr[i]` finds it. */
  function Max(s: seq<real>): (m: real)
    requires |s| > 0
    ensures m in s
    ensures forall i :: 0 <= i < |s| ==> s[i] <= m
    decreases |s|
  {
    if |s| == 1 then s[0]
    else
      var m := Max(s[1..]);
      assert forall i :: 1 <= i < |s| ==> s[i] == s[1..][i - 1];
      if s[0] > m then s[0] else m
  }

  /** The smallest element. */
  function Min(s: seq<real>): (m: real)
    requires |s| > 0
    ensures m in s
    ensures forall i :: 0 <= i < |s| ==> m <= s[i]
    decreases |s|
  {
    if |s| == 1 then s[0]
    else
      var m := Min(s[1..]);
      assert forall i :: 1 <= i < |s| ==> s[i] == s[1..][i - 1];
      if s[0] < m then s[0] else m
  }

  /** The sum of `f` over the elements, added left to right. */
  function SumBy<T>(s: seq<T>, f: T -> real): real
    decreases |s|
  {
    if s == [] then 0.0 else SumBy(s[..|s| - 1], f) + f(s[|s| - 1])
  }

  lemma {:induction false} SumByPrepend<T>(x: T, s: seq<T>, f: T -> real)
    ensures SumBy([x] + s, f) == f(x) + SumBy(s, f)
    decreases |s|
  {
    if s != [] {
      var t := [x] + s;
      assert t[..|t| - 1] == [x] + s[..|s| - 1];
      SumByPrepend(x, s[..|s| - 1], f);
    } else {
      assert ([x] + s)[..0] == [];
    }
  }

  lemma {:induction false} SumByInsert<T>(x: T, t: seq<T>, key: T -> real, f: T -> real)
    ensures SumBy(Insert(x, t, key), f) == f(x) + SumBy(t, f)
    decreases |t|
  {
    if t == [] {
      SumByPrepend(x, t, f);
    } else if key(x) <= key(t[0]) {
      SumByPrepend(x, t, f);
    } else {
      SumByInsert(x, t[1..], key, f);
      SumByPrepend(t[0], Insert(x, t[1..], key), f);
      SumByPrepend(t[0], t[1..], f);
      assert t == [t[0]] + t[1..];
    }
  }

  /** Sorting does not change a sum. */
  lemma {:induction false} SumBySortBy<T>(s: seq<T>, key: T -> real, f: T -> real)
    ensures SumBy(SortBy(s, key), f) == SumBy(s, f)
    decreases |s|
  {
    if s != [] {
      SumBySortBy(s[1..], key, f);
      SumByInsert(s[0], SortBy(s[1..], key), key, f);
      SumByPrepend(s[0], s[1..], f);
      assert s == [s[0]] + s[1..];
    }
  }

  /** SumBy over a prefix one longer. */
  lemma SumByStep<T>(s: seq<T>, k: nat, f: T -> real)
    requires k < |s|
    ensures SumBy(s[..k + 1], f) == SumBy(s[..k], f) + f(s[k])
  {
    assert s[..k + 1][..k] == s[..k];
  }

  /** A permutation of a sequence without repetitions has none either. */
  lemma DistinctPermutation<T>(a: seq<T>, b: seq<T>)
    requires multiset(a) == multiset(b) && Distinct(a)
    ensures Distinct(b)
  {
    forall i, j | 0 <= i < j < |b| ensures b[i] != b[j] {
      assert b[j] in multiset(a);
      var k :| 0 <= k < |a| && a[k] == b[j];
      SingleOccurrence(a, k);
      RepeatedOccurrence(b, i, j);
    }
  }

  lemma SingleOccurrence<T>(a: seq<T>, k: nat)
    requires Distinct(a) && k < |a|
    ensures multiset(a)[a[k]] == 1
  {
    assert a == a[..k] + [a[k]] + a[k + 1..];
    assert a[k] !in a[..k] by {
      forall m | 0 <= m < k ensures a[..k][m] != a[k] { assert a[..k][m] == a[m]; }
    }
    var after := a[k + 1..];
    assert a[k] !in after by {
      forall m | 0 <= m < |after| ensures after[m] != a[k] { assert after[m] == a[k + 1 + m]; }
    }
  }

  lemma RepeatedOccurrence<T>(b: seq<T>, i: nat, j: nat)
    requires i < j < |b|
    ensures b[i] == b[j] ==> multiset(b)[b[j]] >= 2
  {
    assert b == b[..j] + [b[j]] + b[j + 1..];
    assert b[i] in b[..j];
  }

  /** How many elements of `s` belong to `c`. */
  function OccurrencesOfAny<T(==)>(s: seq<T>, c: seq<T>): nat
    decreases |s|
  {
    if s == [] then 0 else OccurrencesOfAny(s[..|s| - 1], c) + (if s[|s| - 1] in c then 1 else 0)
  }

  /** Adding a new value `x` to `c` adds the occurrences of `x`. */
  lemma {:induction false} OccurrencesOfAnyAppend<T>(s: seq<T>, c: seq<T>, x: T)
    requires x !in c
    ensures OccurrencesOfAny(s, c + [x]) == OccurrencesOfAny(s, c) + Occurrences(s, x)
    decreases |s|
  {
    if s != [] {
      OccurrencesOfAnyAppend(s[..|s| - 1], c, x);
    }
  }

  /** When `c` holds exactly the elements of `s` other than `x`, it catches all but the x's. */
  lemma {:induction false} OccurrencesOfAllBut<T>(s: seq<T>, c: seq<T>, x: T)
    requires forall k :: 0 <= k < |s| ==> (s[k] in c <==> s[k] != x)
    ensures OccurrencesOfAny(s, c) == |s| - Occurrences(s, x)
    decreases |s|
  {
    if s != [] {
      var init := s[..|s| - 1];
      assert forall k :: 0 <= k < |init| ==> init[k] == s[k];
      OccurrencesOfAllBut(init, c, x);
    }
  }
}
