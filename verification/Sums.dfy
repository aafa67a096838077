// Sums over sequences and over finite sets, and the exchange laws that let a
// total be regrouped.  Every report and trigger of the ledger is such a sum.
module Sums {

  function Sum<T>(s: seq<T>, f: T -> int): int {
    if s == [] then 0 else Sum(s[..|s| - 1], f) + f(s[|s| - 1])
  }

  lemma SumSnoc<T>(s: seq<T>, x: T, f: T -> int)
    ensures Sum(s + [x], f) == Sum(s, f) + f(x)
  {
    assert (s + [x])[..|s|] == s;
  }

  lemma {:induction false} SumConcat<T>(a: seq<T>, b: seq<T>, f: T -> int)
    ensures Sum(a + b, f) == Sum(a, f) + Sum(b, f)
  {
    if b == [] {
      assert a + b == a;
    } else {
      var n := |b| - 1;
      assert a + b == (a + b[..n]) + [b[n]];
      SumSnoc(a + b[..n], b[n], f);
      SumConcat(a, b[..n], f);
    }
  }

  lemma {:induction false} SumCong<T>(s: seq<T>, f: T -> int, g: T -> int)
    requires forall x :: x in s ==> f(x) == g(x)
    ensures Sum(s, f) == Sum(s, g)
  {
    if s != [] {
      SumCong(s[..|s| - 1], f, g);
    }
  }

  lemma {:induction false} SumZero<T>(s: seq<T>, f: T -> int)
    requires forall x :: x in s ==> f(x) == 0
    ensures Sum(s, f) == 0
  {
    if s != [] {
      SumZero(s[..|s| - 1], f);
    }
  }

  /** A sum of a linear combination is that combination of the sums. */
  lemma {:induction false} SumLinear<T>(s: seq<T>, f: T -> int, g: T -> int, h: T -> int, c: int)
    requires forall x :: x in s ==> f(x) == g(x) + c * h(x)
    ensures Sum(s, f) == Sum(s, g) + c * Sum(s, h)
  {
    if s != [] {
      SumLinear(s[..|s| - 1], f, g, h, c);
    }
  }

  // ----- Finite sets -----

  ghost function SetSum<K>(s: set<K>, f: K -> int): int {
    if s == {} then 0 else var k :| k in s; f(k) + SetSum(s - {k}, f)
  }

  lemma {:induction false} SetSumRemove<K>(s: set<K>, k: K, f: K -> int)
    requires k in s
    ensures SetSum(s, f) == f(k) + SetSum(s - {k}, f)
    decreases |s|
  {
    var c :| c in s && SetSum(s, f) == f(c) + SetSum(s - {c}, f);
    if c != k {
      SetSumRemove(s - {c}, k, f);
      SetSumRemove(s - {k}, c, f);
      assert s - {c} - {k} == s - {k} - {c};
    }
  }

  lemma {:induction false} SetSumCong<K>(s: set<K>, f: K -> int, g: K -> int)
    requires forall k :: k in s ==> f(k) == g(k)
    ensures SetSum(s, f) == SetSum(s, g)
    decreases |s|
  {
    if s != {} {
      var k :| k in s;
      SetSumRemove(s, k, f);
      SetSumRemove(s, k, g);
      SetSumCong(s - {k}, f, g);
    }
  }

  lemma {:induction false} SetSumZero<K>(s: set<K>, f: K -> int)
    requires forall k :: k in s ==> f(k) == 0
    ensures SetSum(s, f) == 0
    decreases |s|
  {
    if s != {} {
      var k :| k in s;
      SetSumRemove(s, k, f);
      SetSumZero(s - {k}, f);
    }
  }

  /** The part of weight f that belongs to group k. */
  function InGroup<T, K(==)>(f: T -> int, key: T -> K, k: K): T -> int {
    (x: T) => if key(x) == k then f(x) else 0
  }

  function GroupTotals<T, K(==)>(s: seq<T>, f: T -> int, key: T -> K): K -> int {
    (k: K) => Sum(s, InGroup(f, key, k))
  }

  /** Regrouping: a total is the sum of its group totals, for any set of groups
      that holds the group of every element of non-zero weight. */
  lemma {:induction false} SumByGroups<T, K>(s: seq<T>, f: T -> int, key: T -> K, groups: set<K>)
    requires forall x :: x in s && f(x) != 0 ==> key(x) in groups
    ensures Sum(s, f) == SetSum(groups, GroupTotals(s, f, key))
  {
    if s == [] {
      SetSumZero(groups, GroupTotals(s, f, key));
    } else {
      var p, x := s[..|s| - 1], s[|s| - 1];
      SumByGroups(p, f, key, groups);
      var before, after := GroupTotals(p, f, key), GroupTotals(s, f, key);
      if key(x) in groups {
        SetSumRemove(groups, key(x), before);
        SetSumRemove(groups, key(x), after);
        SetSumCong(groups - {key(x)}, before, after);
      } else {
        SetSumCong(groups, before, after);
      }
    }
  }
}
