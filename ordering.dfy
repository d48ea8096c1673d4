/** Orders and sorting used by the extractors.

    Python compares `str` values lexicographically by code point; ISO dates
    such as "2024-03-31" are compared that way by the downloaders, never
    parsed. `StrLt` is that comparison. `sorted(...)` over a set of distinct
    values is modelled by insertion into a strictly ascending sequence. */
module Ordering {

  /** Python's `a < b` on strings. */
  predicate StrLt(a: string, b: string)
    decreases |a|
  {
    if a == [] then b != []
    else if b == [] then false
    else if a[0] < b[0] then true
    else if a[0] == b[0] then StrLt(a[1..], b[1..])
    else false
  }

  /** Python's `a <= b` on strings. */
  predicate StrLe(a: string, b: string) {
    a == b || StrLt(a, b)
  }

  lemma {:induction false} StrLtIrreflexive(a: string)
    ensures !StrLt(a, a)
    decreases |a|
  {
    if a != [] {
      StrLtIrreflexive(a[1..]);
    }
  }

  lemma {:induction false} StrLtTransitive(a: string, b: string, c: string)
    requires StrLt(a, b) && StrLt(b, c)
    ensures StrLt(a, c)
    decreases |a|
  {
    if a != [] && b != [] && c != [] && a[0] == b[0] == c[0] {
      StrLtTransitive(a[1..], b[1..], c[1..]);
    }
  }

  lemma {:induction false} StrLtConnected(a: string, b: string)
    requires a != b
    ensures StrLt(a, b) || StrLt(b, a)
    decreases |a|
  {
    if a != [] && b != [] && a[0] == b[0] {
      assert a == [a[0]] + a[1..] && b == [b[0]] + b[1..];
      StrLtConnected(a[1..], b[1..]);
    }
  }

  lemma StrLtAsymmetric(a: string, b: string)
    ensures !(StrLt(a, b) && StrLt(b, a))
  {
    StrLtIrreflexive(a);
    if StrLt(a, b) && StrLt(b, a) {
      StrLtTransitive(a, b, a);
    }
  }

  /** `lt` is a strict total order on `T`. */
  ghost predicate StrictTotalOrder<T(!new)>(lt: (T, T) -> bool) {
    && (forall a :: !lt(a, a))
    && (forall a, b, c :: lt(a, b) && lt(b, c) ==> lt(a, c))
    && (forall a, b :: a != b ==> lt(a, b) || lt(b, a))
  }

  lemma StrLtIsStrictTotalOrder()
    ensures StrictTotalOrder(StrLt)
  {
    forall a ensures !StrLt(a, a) { StrLtIrreflexive(a); }
    forall a, b, c | StrLt(a, b) && StrLt(b, c) ensures StrLt(a, c) {
      StrLtTransitive(a, b, c);
    }
    forall a, b | a != b ensures StrLt(a, b) || StrLt(b, a) {
      StrLtConnected(a, b);
    }
  }

  /** Every element of `s` is below every later one. */
  ghost predicate StrictlyAscending<T>(s: seq<T>, lt: (T, T) -> bool) {
    forall i, j :: 0 <= i < j < |s| ==> lt(s[i], s[j])
  }

  /** Put `x` in front of the first element it is below. */
  function Insert<T>(s: seq<T>, x: T, lt: (T, T) -> bool): (r: seq<T>)
    ensures |r| == |s| + 1
    ensures multiset(r) == multiset(s) + multiset{x}
  {
    if s == [] then [x]
    else if lt(x, s[0]) then [x] + s
    else
      assert s == [s[0]] + s[1..];
      [s[0]] + Insert(s[1..], x, lt)
  }

  lemma {:induction false} InsertAscending<T(!new)>(s: seq<T>, x: T, lt: (T, T) -> bool)
    requires StrictTotalOrder(lt)
    requires StrictlyAscending(s, lt) && x !in s
    ensures StrictlyAscending(Insert(s, x, lt), lt)
  {
    if s != [] && !lt(x, s[0]) {
      assert s[0] != x;
      assert lt(s[0], x);
      assert forall j :: 0 <= j < |s| - 1 ==> s[1..][j] == s[j + 1];
      InsertAscending(s[1..], x, lt);
      var r := Insert(s[1..], x, lt);
      forall y | y in r ensures lt(s[0], y) {
        assert y in multiset(r);
        if y != x {
          assert y in multiset(s[1..]);
          var k :| 0 <= k < |s[1..]| && s[1..][k] == y;
          assert s[k + 1] == y;
        }
      }
    }
  }

  /** Python's `sorted(values)` over a set of distinct values. */
  method SortSet<T(==,!new)>(values: set<T>, lt: (T, T) -> bool) returns (sorted: seq<T>)
    requires StrictTotalOrder(lt)
    ensures StrictlyAscending(sorted, lt)
    ensures forall x :: x in sorted <==> x in values
    ensures |sorted| == |values|
  {
    sorted := [];
    var rest := values;
    while rest != {}
      invariant rest <= values
      invariant StrictlyAscending(sorted, lt)
      invariant forall x :: x in sorted <==> x in values - rest
      invariant |sorted| + |rest| == |values|
      decreases rest
    {
      var x :| x in rest;
      InsertAscending(sorted, x, lt);
      ghost var old_sorted := sorted;
      sorted := Insert(sorted, x, lt);
      forall y ensures y in sorted <==> y in old_sorted || y == x {
        assert y in sorted <==> y in multiset(sorted);
        assert y in old_sorted <==> y in multiset(old_sorted);
      }
      rest := rest - {x};
    }
  }

  /** `sorted(values)` for a set of strings. */
  method SortStrings(values: set<string>) returns (sorted: seq<string>)
    ensures StrictlyAscending(sorted, StrLt)
    ensures forall x :: x in sorted <==> x in values
  {
    StrLtIsStrictTotalOrder();
    sorted := SortSet(values, StrLt);
  }

  /** Two strictly ascending sequences holding the same elements are equal:
      a sorted listing of a set is unique. */
  lemma {:induction false} AscendingUnique<T(!new)>(s: seq<T>, t: seq<T>, lt: (T, T) -> bool)
    requires StrictTotalOrder(lt)
    requires StrictlyAscending(s, lt) && StrictlyAscending(t, lt)
    requires forall x :: x in s <==> x in t
    ensures s == t
    decreases |s|
  {
    assert s != [] ==> s[0] in s;
    assert t != [] ==> t[0] in t;
    if s != [] && t != [] {
      assert s[0] in t && t[0] in s;
      var m :| 0 <= m < |t| && t[m] == s[0];
      var k :| 0 <= k < |s| && s[k] == t[0];
      var s0, t0 := s[0], t[0];
      assert m == 0 || lt(t0, s0);
      assert k == 0 || lt(s0, t0);
      if s[0] != t[0] {
        assert false;
      }
      forall x ensures x in s[1..] <==> x in t[1..] {
        if x in s[1..] {
          var k :| 1 <= k < |s| && s[k] == x;
          assert lt(s[0], x) && x != s[0];
          assert x in t;
        }
        if x in t[1..] {
          var k :| 1 <= k < |t| && t[k] == x;
          assert lt(t[0], x) && x != t[0];
          assert x in s;
        }
      }
      AscendingUnique(s[1..], t[1..], lt);
      assert s == [s[0]] + s[1..] && t == [t[0]] + t[1..];
    }
  }
}
