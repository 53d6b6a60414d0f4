/**
 * Listing queries: `find(filter).sort({closed_at: -1}).skip(skip).limit(limit)`
 * as a stable descending sort on an optional date followed by a window.
 */
module Listing {
  import opened Wrappers

  /** The document store's descending order on a possibly-null date: null
      sorts below every date, so `a` may precede `b` when this holds. */
  predicate AtLeast(a: Option<int>, b: Option<int>) {
    b.None? || (a.Some? && a.value >= b.value)
  }

  ghost predicate SortedDesc<T>(s: seq<T>, key: T -> Option<int>) {
    forall i, j :: 0 <= i < j < |s| ==> AtLeast(key(s[i]), key(s[j]))
  }

  /** Inserts `x` before the first element it is not below. */
  function InsertDesc<T>(x: T, s: seq<T>, key: T -> Option<int>): (r: seq<T>)
    ensures multiset(r) == multiset(s) + multiset{x}
  {
    if s == [] then [x]
    else if AtLeast(key(x), key(s[0])) then [x] + s
    else
      assert s == [s[0]] + s[1..];
      [s[0]] + InsertDesc(x, s[1..], key)
  }

  lemma SortedDescTail<T>(s: seq<T>, key: T -> Option<int>)
    requires s != [] && SortedDesc(s, key)
    ensures SortedDesc(s[1..], key)
  {
    forall i, j | 0 <= i < j < |s[1..]| ensures AtLeast(key(s[1..][i]), key(s[1..][j])) {
      assert s[1..][i] == s[i + 1] && s[1..][j] == s[j + 1];
    }
  }

  /** Prepending an element at least every element of a sorted sequence
      keeps it sorted. */
  lemma SortedDescCons<T>(y: T, s: seq<T>, key: T -> Option<int>)
    requires SortedDesc(s, key)
    requires forall z :: z in multiset(s) ==> AtLeast(key(y), key(z))
    ensures SortedDesc([y] + s, key)
  {
    forall i, j | 0 <= i < j < |[y] + s| ensures AtLeast(key(([y] + s)[i]), key(([y] + s)[j])) {
      assert ([y] + s)[j] == s[j - 1];
      if i > 0 {
        assert ([y] + s)[i] == s[i - 1];
      } else {
        assert s[j - 1] in multiset(s);
      }
    }
  }

  /** Insertion keeps a sorted sequence sorted. */
  lemma {:induction false} InsertDescSorted<T>(x: T, s: seq<T>, key: T -> Option<int>)
    requires SortedDesc(s, key)
    ensures SortedDesc(InsertDesc(x, s, key), key)
  {
    if s != [] {
      if AtLeast(key(x), key(s[0])) {
        forall z | z in multiset(s) ensures AtLeast(key(x), key(z)) {
          var k :| 0 <= k < |s| && s[k] == z;
          assert k == 0 || AtLeast(key(s[0]), key(s[k]));
        }
        SortedDescCons(x, s, key);
      } else {
        SortedDescTail(s, key);
        InsertDescSorted(x, s[1..], key);
        var t := InsertDesc(x, s[1..], key);
        forall z | z in multiset(t) ensures AtLeast(key(s[0]), key(z)) {
          if z != x {
            assert z in multiset(s[1..]);
            var k :| 0 <= k < |s[1..]| && s[1..][k] == z;
            assert s[k + 1] == z;
          }
        }
        SortedDescCons(s[0], t, key);
      }
    }
  }

  /** Stable insertion sort, latest first. */
  function SortDesc<T>(s: seq<T>, key: T -> Option<int>): (r: seq<T>)
    ensures multiset(r) == multiset(s)
    ensures |r| == |s|
    ensures SortedDesc(r, key)
  {
    if s == [] then []
    else
      assert s == [s[0]] + s[1..];
      var t := SortDesc(s[1..], key);
      InsertDescSorted(s[0], t, key);
      InsertDesc(s[0], t, key)
  }

  /** `find(filter)`: the elements satisfying `keep`, in their stored order. */
  function Where<T>(s: seq<T>, keep: T -> bool): (r: seq<T>)
    ensures |r| <= |s|
    ensures forall i :: 0 <= i < |r| ==> r[i] in s && keep(r[i])
    ensures forall i :: 0 <= i < |s| && keep(s[i]) ==> s[i] in r
    ensures multiset(r) <= multiset(s)
  {
    if s == [] then []
    else
      var t := Where(s[1..], keep);
      WhereStep(s, keep, t);
      if keep(s[0]) then [s[0]] + t else t
  }

  /** One step of `Where`: filtering the tail to `t`, then keeping or
      dropping the head. */
  lemma WhereStep<T>(s: seq<T>, keep: T -> bool, t: seq<T>)
    requires s != [] && |t| <= |s| - 1
    requires forall i :: 0 <= i < |t| ==> t[i] in s[1..] && keep(t[i])
    requires forall i :: 0 <= i < |s| - 1 && keep(s[1..][i]) ==> s[1..][i] in t
    requires multiset(t) <= multiset(s[1..])
    ensures var r := if keep(s[0]) then [s[0]] + t else t;
      && |r| <= |s|
      && (forall i :: 0 <= i < |r| ==> r[i] in s && keep(r[i]))
      && (forall i :: 0 <= i < |s| && keep(s[i]) ==> s[i] in r)
      && multiset(r) <= multiset(s)
  {
    var r := if keep(s[0]) then [s[0]] + t else t;
    assert s == [s[0]] + s[1..];
    assert multiset(s) == multiset{s[0]} + multiset(s[1..]);
    forall i | 0 <= i < |s| && keep(s[i]) ensures s[i] in r {
      if i > 0 {
        assert s[i] == s[1..][i - 1];
      }
    }
  }

  function Min(a: int, b: int): int { if a <= b then a else b }

  /** `skip(skip).limit(limit)`: the window of at most `limit` elements
      starting at position `skip`. */
  function Paginate<T>(s: seq<T>, skip: nat, limit: nat): (r: seq<T>)
    ensures |r| == if skip >= |s| then 0 else Min(limit, |s| - skip)
    ensures forall i :: 0 <= i < |r| ==> skip + i < |s| && r[i] == s[skip + i]
  {
    if skip >= |s| then [] else s[skip..Min(skip + limit, |s|)]
  }

  /** A page of a sorted listing is sorted and holds elements of the listing only. */
  lemma PageOfSorted<T>(s: seq<T>, key: T -> Option<int>, skip: nat, limit: nat)
    requires SortedDesc(s, key)
    ensures var p := Paginate(s, skip, limit);
            SortedDesc(p, key) && forall i :: 0 <= i < |p| ==> p[i] in s
  {
    var p := Paginate(s, skip, limit);
    forall i, j | 0 <= i < j < |p| ensures AtLeast(key(p[i]), key(p[j])) {
      assert p[i] == s[skip + i] && p[j] == s[skip + j];
    }
  }

  /** `(page - 1) * limit`: never negative for a page of at least 1, so
      the listings can use it as the number of documents to skip. */
  function Skip(page: int, limit: nat): (r: int)
    ensures page >= 1 ==> r >= 0
  {
    (page - 1) * limit
  }

  /** Paging partitions the listing: the i-th element appears on page
      `i / limit + 1`, at position `i % limit`. */
  lemma PageOfIndex<T>(s: seq<T>, limit: nat, i: nat)
    requires 0 < limit && i < |s|
    ensures var p := Paginate(s, Skip(i / limit + 1, limit), limit);
            i % limit < |p| && p[i % limit] == s[i]
  {
    var q, r := i / limit, i % limit;
    assert i == q * limit + r;
    assert Skip(q + 1, limit) == q * limit;
    assert 0 <= q * limit <= i;
  }

  /** The sum of `f` over the elements, in order. */
  function SumBy<T>(s: seq<T>, f: T -> int): int {
    if s == [] then 0 else f(s[0]) + SumBy(s[1..], f)
  }

  lemma SumBySuffix<T>(s: seq<T>, i: nat, f: T -> int)
    requires i < |s|
    ensures SumBy(s[i..], f) == f(s[i]) + SumBy(s[i + 1..], f)
  {
    assert s[i..][1..] == s[i + 1..];
  }

  lemma {:induction false} SumByRemove<T>(s: seq<T>, f: T -> int, j: nat)
    requires j < |s|
    ensures SumBy(s, f) == f(s[j]) + SumBy(s[..j] + s[j + 1..], f)
  {
    if j > 0 {
      var t := s[1..];
      SumByRemove(t, f, j - 1);
      var r := s[..j] + s[j + 1..];
      assert r[0] == s[0];
      assert r[1..] == t[..j - 1] + t[j..];
    } else {
      assert s[..0] + s[1..] == s[1..];
    }
  }

  lemma MultisetRemove<T>(s: seq<T>, j: nat)
    requires j < |s|
    ensures multiset(s[..j] + s[j + 1..]) == multiset(s) - multiset{s[j]}
  {
    assert s == s[..j] + [s[j]] + s[j + 1..];
  }

  /** Removing the first element of `a` and a matching element of `b` keeps
      two permutations of each other. */
  lemma PermutationTails<T>(a: seq<T>, b: seq<T>, j: nat)
    requires multiset(a) == multiset(b)
    requires a != [] && j < |b| && b[j] == a[0]
    ensures multiset(a[1..]) == multiset(b[..j] + b[j + 1..])
  {
    MultisetRemove(a, 0);
    assert a[..0] + a[1..] == a[1..];
    MultisetRemove(b, j);
  }

  /** A sum does not depend on the order of the elements. */
  lemma {:induction false} SumByPermutation<T>(a: seq<T>, b: seq<T>, f: T -> int)
    requires multiset(a) == multiset(b)
    ensures SumBy(a, f) == SumBy(b, f)
  {
    if a != [] {
      assert a[0] in multiset(b);
      var j :| 0 <= j < |b| && b[j] == a[0];
      var b' := b[..j] + b[j + 1..];
      PermutationTails(a, b, j);
      SumByPermutation(a[1..], b', f);
      SumByRemove(b, f, j);
    } else {
      assert |b| == |multiset(b)|;
    }
  }
}
