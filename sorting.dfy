/**
 * Python's `list.sort(key=..., reverse=True)` followed by slicing: a stable
 * sort that puts greater keys first, and `s[:n]`. The order is given as a
 * relation `geq(x, y)`: "x may come before y".
 */
module Sorting {

  /** `geq` is total and transitive, as `>=` on a sort key is. */
  ghost predicate TotalPreorder<T(!new)>(geq: (T, T) -> bool) {
    && (forall x, y :: geq(x, y) || geq(y, x))
    && (forall x, y, z :: geq(x, y) && geq(y, z) ==> geq(x, z))
  }

  /** Every element may come before every later one. */
  predicate SortedBy<T>(s: seq<T>, geq: (T, T) -> bool) {
    forall i, j :: 0 <= i < j < |s| ==> geq(s[i], s[j])
  }

  /** Puts `x` in front of the first element it may precede. */
  function Insert<T>(x: T, s: seq<T>, geq: (T, T) -> bool): (r: seq<T>)
    ensures |r| == |s| + 1
    ensures multiset(r) == multiset(s) + multiset{x}
  {
    if s == [] || geq(x, s[0]) then [x] + s
    else
      assert s == [s[0]] + s[1..];
      [s[0]] + Insert(x, s[1..], geq)
  }

  /** Stable sort, greatest first. */
  function StableSort<T>(s: seq<T>, geq: (T, T) -> bool): (r: seq<T>)
    ensures |r| == |s|
    ensures multiset(r) == multiset(s)
  {
    if s == [] then []
    else
      assert s == [s[0]] + s[1..];
      Insert(s[0], StableSort(s[1..], geq), geq)
  }

  lemma {:induction false} InsertSorted<T(!new)>(x: T, s: seq<T>, geq: (T, T) -> bool)
    requires TotalPreorder(geq)
    requires SortedBy(s, geq)
    ensures SortedBy(Insert(x, s, geq), geq)
  {
    if s != [] && !geq(x, s[0]) {
      InsertSorted(x, s[1..], geq);
      var r := Insert(x, s, geq);
      assert r == [s[0]] + Insert(x, s[1..], geq);
      forall j | 0 < j < |r| ensures geq(r[0], r[j]) {
        assert r[j] in multiset(Insert(x, s[1..], geq));
        assert r[j] == x || r[j] in multiset(s[1..]);
        if r[j] != x {
          var k :| 1 <= k < |s| && s[k] == r[j] by {
            assert r[j] in s[1..];
            var m :| 0 <= m < |s[1..]| && s[1..][m] == r[j];
            assert s[m + 1] == r[j];
          }
        }
      }
    }
  }

  /** The result is ordered. */
  lemma {:induction false} StableSortSorted<T(!new)>(s: seq<T>, geq: (T, T) -> bool)
    requires TotalPreorder(geq)
    ensures SortedBy(StableSort(s, geq), geq)
  {
    if s != [] {
      StableSortSorted(s[1..], geq);
      InsertSorted(s[0], StableSort(s[1..], geq), geq);
    }
  }

  /** The elements of `s` that are equivalent to `v`, in their order in `s`. */
  function Ties<T>(s: seq<T>, v: T, geq: (T, T) -> bool): seq<T> {
    if s == [] then []
    else (if geq(s[0], v) && geq(v, s[0]) then [s[0]] else []) + Ties(s[1..], v, geq)
  }

  lemma {:induction false} InsertTies<T(!new)>(x: T, s: seq<T>, v: T, geq: (T, T) -> bool)
    requires TotalPreorder(geq)
    ensures Ties(Insert(x, s, geq), v, geq)
         == (if geq(x, v) && geq(v, x) then [x] else []) + Ties(s, v, geq)
  {
    if s != [] && !geq(x, s[0]) {
      InsertTies(x, s[1..], v, geq);
      assert Insert(x, s, geq) == [s[0]] + Insert(x, s[1..], geq);
    }
  }

  /**
   * Stability: the elements with equal keys keep their original relative
   * order. For every `v`, sorting does not reorder the elements tied with it.
   */
  lemma {:induction false} StableSortStable<T(!new)>(s: seq<T>, v: T, geq: (T, T) -> bool)
    requires TotalPreorder(geq)
    ensures Ties(StableSort(s, geq), v, geq) == Ties(s, v, geq)
  {
    if s != [] {
      StableSortStable(s[1..], v, geq);
      InsertTies(s[0], StableSort(s[1..], geq), v, geq);
    }
  }

  lemma {:induction false} TiesAppend<T>(a: seq<T>, b: seq<T>, v: T, geq: (T, T) -> bool)
    ensures Ties(a + b, v, geq) == Ties(a, v, geq) + Ties(b, v, geq)
  {
    if a != [] {
      assert (a + b)[1..] == a[1..] + b;
      TiesAppend(a[1..], b, v, geq);
    } else {
      assert a + b == b;
    }
  }

  /** `s[:n]`. */
  function Take<T>(s: seq<T>, n: nat): (r: seq<T>)
    ensures |r| == if n < |s| then n else |s|
    ensures r <= s
  {
    if n < |s| then s[..n] else s
  }
}
