/**
 * Small shared vocabulary: an Option type for the source's optional
 * (`undefined`-able) values, and the order-preserving `filter` that the
 * source applies to arrays in several places.
 */
module Prelude {

  datatype Option<T> = None | Some(value: T)

  /** `Array.prototype.filter`: the elements of `s` satisfying `p`, in order. */
  function Filter<T(!new)>(s: seq<T>, p: T -> bool): (r: seq<T>)
    ensures |r| <= |s|
    ensures forall i :: 0 <= i < |r| ==> p(r[i])
    ensures forall x :: x in r <==> x in s && p(x)
  {
    if s == [] then [] else (if p(s[0]) then [s[0]] else []) + Filter(s[1..], p)
  }

  /** `a` can be obtained from `b` by deleting elements, keeping the order. */
  ghost predicate IsSubsequence<T(!new)>(a: seq<T>, b: seq<T>)
    decreases |b|
  {
    a == [] ||
    (b != [] && ((a[0] == b[0] && IsSubsequence(a[1..], b[1..])) || IsSubsequence(a, b[1..])))
  }

  lemma {:induction false} SubsequenceOfSelf<T(!new)>(s: seq<T>)
    ensures IsSubsequence(s, s)
    decreases |s|
  {
    if s != [] {
      SubsequenceOfSelf(s[1..]);
    }
  }

  lemma {:induction false} FilterIsSubsequence<T(!new)>(s: seq<T>, p: T -> bool)
    ensures IsSubsequence(Filter(s, p), s)
    decreases |s|
  {
    if s != [] {
      FilterIsSubsequence(s[1..], p);
      if p(s[0]) {
        assert Filter(s, p) == [s[0]] + Filter(s[1..], p);
        assert Filter(s, p)[1..] == Filter(s[1..], p);
      } else {
        assert Filter(s, p) == Filter(s[1..], p);
      }
    }
  }

  /** Filtering distributes over concatenation: relative order is preserved. */
  lemma {:induction false} FilterConcat<T(!new)>(a: seq<T>, b: seq<T>, p: T -> bool)
    ensures Filter(a + b, p) == Filter(a, p) + Filter(b, p)
    decreases |a|
  {
    if a != [] {
      assert (a + b)[1..] == a[1..] + b;
      FilterConcat(a[1..], b, p);
    } else {
      assert a + b == b;
    }
  }

  /** A filter whose predicate holds everywhere is the identity. */
  lemma {:induction false} FilterAll<T(!new)>(s: seq<T>, p: T -> bool)
    requires forall i :: 0 <= i < |s| ==> p(s[i])
    ensures Filter(s, p) == s
    decreases |s|
  {
    if s != [] {
      FilterAll(s[1..], p);
    }
  }

  /** A filter whose predicate holds nowhere is empty. */
  lemma {:induction false} FilterNone<T(!new)>(s: seq<T>, p: T -> bool)
    requires forall i :: 0 <= i < |s| ==> !p(s[i])
    ensures Filter(s, p) == []
    decreases |s|
  {
    if s != [] {
      FilterNone(s[1..], p);
    }
  }

  // ---------------------------------------------------------------------------
  // `Array.prototype.sort` with a comparator `(a, b) => key(b) - key(a)`:
  // a stable sort into descending key order.

  predicate SortedDesc<T>(rs: seq<T>, key: T -> int) {
    forall i, j :: 0 <= i < j < |rs| ==> key(rs[i]) >= key(rs[j])
  }

  /** Inserts `x` after every element whose key is at least its own (so equal keys keep their order). */
  function InsertDesc<T>(rs: seq<T>, x: T, key: T -> int): (r: seq<T>)
    ensures multiset(r) == multiset(rs) + multiset{x}
    ensures |r| == |rs| + 1
  {
    if rs == [] then [x]
    else if key(rs[0]) < key(x) then [x] + rs
    else
      assert rs == [rs[0]] + rs[1..];
      [rs[0]] + InsertDesc(rs[1..], x, key)
  }

  /** A stable sort by descending key: insertion of each element in turn. */
  function SortDesc<T>(rs: seq<T>, key: T -> int): (r: seq<T>)
    ensures multiset(r) == multiset(rs)
    ensures |r| == |rs|
  {
    if rs == [] then []
    else
      assert rs == rs[..|rs| - 1] + [rs[|rs| - 1]];
      InsertDesc(SortDesc(rs[..|rs| - 1], key), rs[|rs| - 1], key)
  }

  lemma SortDescMembers<T>(s: seq<T>, key: T -> int, x: T)
    ensures x in SortDesc(s, key) <==> x in s
  {
    assert x in SortDesc(s, key) <==> x in multiset(SortDesc(s, key));
  }

  lemma {:induction false} InsertKeepsSorted<T>(rs: seq<T>, x: T, key: T -> int)
    requires SortedDesc(rs, key)
    ensures SortedDesc(InsertDesc(rs, x, key), key)
    decreases |rs|
  {
    if rs != [] && key(rs[0]) >= key(x) {
      InsertKeepsSorted(rs[1..], x, key);
      var tail := InsertDesc(rs[1..], x, key);
      forall j | 0 <= j < |tail| ensures key(rs[0]) >= key(tail[j]) {
        assert tail[j] in multiset(tail);
        assert tail[j] in multiset(rs[1..]) || tail[j] == x;
        if tail[j] != x {
          var k :| 0 <= k < |rs[1..]| && rs[1..][k] == tail[j];
          assert rs[k + 1] == tail[j];
        }
      }
    }
  }

  lemma {:induction false} SortDescSorted<T>(rs: seq<T>, key: T -> int)
    ensures SortedDesc(SortDesc(rs, key), key)
    decreases |rs|
  {
    if rs != [] {
      SortDescSorted(rs[..|rs| - 1], key);
      InsertKeepsSorted(SortDesc(rs[..|rs| - 1], key), rs[|rs| - 1], key);
    }
  }

  function KeyIs<T>(key: T -> int, t: int): T -> bool {
    (x: T) => key(x) == t
  }

  lemma {:induction false} InsertStable<T(!new)>(rs: seq<T>, x: T, key: T -> int, t: int)
    requires SortedDesc(rs, key)
    ensures Filter(InsertDesc(rs, x, key), KeyIs(key, t)) ==
            Filter(rs, KeyIs(key, t)) + (if key(x) == t then [x] else [])
    decreases |rs|
  {
    var p := KeyIs(key, t);
    var mid := if key(x) == t then [x] else [];
    assert Filter([x], p) == mid;
    if rs == [] {
      assert InsertDesc(rs, x, key) == [x];
    } else if key(rs[0]) < key(x) {
      assert InsertDesc(rs, x, key) == [x] + rs;
      FilterConcat([x], rs, p);
      if key(x) == t {
        FilterNone(rs, p);
      }
    } else {
      var tail := InsertDesc(rs[1..], x, key);
      assert InsertDesc(rs, x, key) == [rs[0]] + tail;
      InsertStable(rs[1..], x, key, t);
      FilterConcat([rs[0]], tail, p);
      assert [rs[0]] + rs[1..] == rs;
      FilterConcat([rs[0]], rs[1..], p);
    }
  }

  lemma {:induction false} SortDescStable<T(!new)>(rs: seq<T>, key: T -> int, t: int)
    ensures Filter(SortDesc(rs, key), KeyIs(key, t)) == Filter(rs, KeyIs(key, t))
    decreases |rs|
  {
    if rs != [] {
      var p := KeyIs(key, t);
      var init, last := rs[..|rs| - 1], rs[|rs| - 1];
      var sortedInit := SortDesc(init, key);
      assert SortDesc(rs, key) == InsertDesc(sortedInit, last, key);
      SortDescStable(init, key, t);
      SortDescSorted(init, key);
      InsertStable(sortedInit, last, key, t);
      assert Filter([last], p) == (if key(last) == t then [last] else []);
      assert rs == init + [last];
      FilterConcat(init, [last], p);
    }
  }

  /** `Array.prototype.reverse`. */
  function Reverse<T>(s: seq<T>): (r: seq<T>)
    ensures |r| == |s|
    ensures forall i :: 0 <= i < |s| ==> r[i] == s[|s| - 1 - i]
  {
    if s == [] then [] else Reverse(s[1..]) + [s[0]]
  }

  /** Strictly increasing keys along the sequence. */
  predicate IncreasingBy<T>(s: seq<T>, key: T -> int) {
    forall i, j :: 0 <= i < j < |s| ==> key(s[i]) < key(s[j])
  }

  lemma {:induction false} FilterKeepsIncreasing<T(!new)>(s: seq<T>, p: T -> bool, key: T -> int)
    requires IncreasingBy(s, key)
    ensures IncreasingBy(Filter(s, p), key)
    decreases |s|
  {
    if s != [] {
      FilterKeepsIncreasing(s[1..], p, key);
      var tail := Filter(s[1..], p);
      if p(s[0]) {
        assert Filter(s, p) == [s[0]] + tail;
        forall j | 0 <= j < |tail| ensures key(s[0]) < key(tail[j]) {
          assert tail[j] in s[1..];
        }
      } else {
        assert Filter(s, p) == tail;
      }
    }
  }
}
