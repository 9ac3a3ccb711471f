/** Python's `sorted(...)` and `sorted(set(...))`, for any element type with a
    total order (integers, reals, strings by code point). */
module Sorting {

  /** `leq` is a total order: total, antisymmetric and transitive. */
  ghost predicate IsTotalOrder<T(!new)>(leq: (T, T) -> bool)
  {
    && (forall a, b :: leq(a, b) || leq(b, a))
    && (forall a, b :: leq(a, b) && leq(b, a) ==> a == b)
    && (forall a, b, c :: leq(a, b) && leq(b, c) ==> leq(a, c))
  }

  predicate SortedBy<T>(s: seq<T>, leq: (T, T) -> bool)
  {
    forall i, j | 0 <= i < j < |s| :: leq(s[i], s[j])
  }

  /** Sorted and free of repeats: the shape of `sorted(set(xs))`. */
  predicate StrictlySortedBy<T(==)>(s: seq<T>, leq: (T, T) -> bool)
  {
    SortedBy(s, leq) && forall i, j | 0 <= i < j < |s| :: s[i] != s[j]
  }

  function Insert<T>(x: T, s: seq<T>, leq: (T, T) -> bool): seq<T>
  {
    if s == [] || leq(x, s[0]) then [x] + s else [s[0]] + Insert(x, s[1..], leq)
  }

  lemma {:induction false} InsertSorted<T(!new)>(x: T, s: seq<T>, leq: (T, T) -> bool)
    requires IsTotalOrder(leq)
    requires SortedBy(s, leq)
    ensures multiset(Insert(x, s, leq)) == multiset(s) + multiset{x}
    ensures SortedBy(Insert(x, s, leq), leq)
  {
    if s != [] && !leq(x, s[0]) {
      var tail := Insert(x, s[1..], leq);
      InsertSorted(x, s[1..], leq);
      assert s == [s[0]] + s[1..];
      forall k | 0 <= k < |tail| ensures leq(s[0], tail[k]) {
        assert tail[k] in multiset(tail);
        if tail[k] != x {
          assert tail[k] in multiset(s[1..]);
          var j :| 0 <= j < |s[1..]| && s[1..][j] == tail[k];
          assert s[j + 1] == tail[k];
        }
      }
      var r := [s[0]] + tail;
      forall i, j | 0 <= i < j < |r| ensures leq(r[i], r[j]) {
        if i > 0 { assert r[i] == tail[i - 1] && r[j] == tail[j - 1]; }
      }
    }
  }

  /** `sorted(s)`: a sorted permutation of `s`. */
  function Sort<T(!new)>(s: seq<T>, leq: (T, T) -> bool): (r: seq<T>)
    requires IsTotalOrder(leq)
    ensures multiset(r) == multiset(s)
    ensures SortedBy(r, leq)
  {
    if s == [] then []
    else
      var rest := Sort(s[1..], leq);
      InsertSorted(s[0], rest, leq);
      assert s == [s[0]] + s[1..];
      Insert(s[0], rest, leq)
  }

  /** Sorting keeps the length and the members. */
  lemma SortMembers<T(!new)>(s: seq<T>, leq: (T, T) -> bool)
    requires IsTotalOrder(leq)
    ensures |Sort(s, leq)| == |s|
    ensures forall x :: x in Sort(s, leq) <==> x in s
  {
    var r := Sort(s, leq);
    assert |multiset(r)| == |multiset(s)|;
    assert forall x :: x in r <==> x in multiset(r);
    assert forall x :: x in s <==> x in multiset(s);
  }

  /** Drops each element equal to its successor; on a sorted sequence that
      leaves one copy of every value. */
  function Dedup<T(==)>(s: seq<T>): seq<T>
  {
    if |s| <= 1 then s
    else if s[0] == s[1] then Dedup(s[1..])
    else [s[0]] + Dedup(s[1..])
  }

  lemma {:induction false} DedupSorted<T(!new)>(s: seq<T>, leq: (T, T) -> bool)
    requires IsTotalOrder(leq)
    requires SortedBy(s, leq)
    ensures StrictlySortedBy(Dedup(s), leq)
    ensures forall x :: x in Dedup(s) <==> x in s
    decreases |s|
  {
    if |s| > 1 {
      DedupSorted(s[1..], leq);
      var d := Dedup(s[1..]);
      assert forall x :: x in s <==> x == s[0] || x in s[1..] by {
        assert s == [s[0]] + s[1..];
      }
      if s[0] != s[1] {
        forall x | x in d ensures leq(s[0], x) && s[0] != x {
          var k :| 0 <= k < |s[1..]| && s[1..][k] == x;
          assert leq(s[1], s[k + 1]) || k == 0;
          assert leq(s[0], s[1]);
        }
        var r := [s[0]] + d;
        forall i, j | 0 <= i < j < |r| ensures leq(r[i], r[j]) && r[i] != r[j] {
          if i == 0 { assert r[j] in d; } else { assert r[i] == d[i - 1] && r[j] == d[j - 1]; }
        }
      }
    }
  }

  /** `sorted(set(s))`: the distinct values of `s`, ascending. */
  function SortedDistinct<T(!new,==)>(s: seq<T>, leq: (T, T) -> bool): (r: seq<T>)
    requires IsTotalOrder(leq)
    ensures StrictlySortedBy(r, leq)
    ensures forall x :: x in r <==> x in s
  {
    var sorted := Sort(s, leq);
    DedupSorted(sorted, leq);
    assert forall x :: x in sorted <==> x in multiset(sorted);
    assert forall x :: x in s <==> x in multiset(s);
    Dedup(sorted)
  }

  function IntLeq(a: int, b: int): bool { a <= b }

  function RealLeq(a: real, b: real): bool { a <= b }

  lemma IntLeqIsTotalOrder()
    ensures IsTotalOrder(IntLeq)
  {
  }

  lemma RealLeqIsTotalOrder()
    ensures IsTotalOrder(RealLeq)
  {
  }

  lemma ExistsMin(s: set<int>)
    requires s != {}
    ensures exists m :: m in s && forall y | y in s :: m <= y
    decreases |s|
  {
    var x :| x in s;
    if s == {x} {
      assert forall y | y in s :: x <= y;
    } else {
      var rest := s - {x};
      assert rest != {} by { var z :| z in s && z != x; assert z in rest; }
      ExistsMin(rest);
      var m :| m in rest && forall y | y in rest :: m <= y;
      if x < m {
        assert forall y | y in s :: x <= y by { forall y | y in s ensures x <= y { if y != x { assert y in rest; } } }
      } else {
        assert forall y | y in s :: m <= y by { forall y | y in s ensures m <= y { if y != x { assert y in rest; } } }
      }
    }
  }

  function SetMin(s: set<int>): (m: int)
    requires s != {}
    ensures m in s && forall y | y in s :: m <= y
  {
    ExistsMin(s);
    var m :| m in s && forall y | y in s :: m <= y;
    m
  }

  /** `sorted(s)` for a Python set of integers. */
  function SortedSet(s: set<int>): (r: seq<int>)
    ensures |r| == |s|
    ensures forall x :: x in r <==> x in s
    ensures forall i, j | 0 <= i < j < |r| :: r[i] < r[j]
    decreases |s|
  {
    if s == {} then []
    else
      var m := SetMin(s);
      var others := s - {m};
      var rest := SortedSet(others);
      assert |others| == |s| - 1;
      var r := [m] + rest;
      assert forall x :: x in r <==> x == m || x in rest;
      assert forall i | 0 < i < |r| :: r[i] in others && m < r[i];
      r
  }
}
