/** Sorting rows in descending order of a numeric key, and keeping the first N.

    The order is computed on row positions: a row comes before another when its key is
    larger, or when the keys are equal and it came first in the input. This is one of
    the orders pandas `sort_values(ascending=False)` may produce, and exactly the order
    `nlargest(n, key)` uses (ties go to the earlier row). */
module Ranking {

  /** Row `i` precedes row `j` in the descending, tie-stable order. */
  predicate Before<T>(s: seq<T>, key: T -> real, i: nat, j: nat)
    requires i < |s| && j < |s|
  {
    key(s[i]) > key(s[j]) || (key(s[i]) == key(s[j]) && i < j)
  }

  /** Every position in `o` is a position of a sequence of length `n`. */
  predicate InRange(o: seq<nat>, n: nat)
  {
    forall r :: 0 <= r < |o| ==> o[r] < n
  }

  /** The positions in `o` are listed in the descending, tie-stable order. */
  predicate SortedBy<T>(s: seq<T>, key: T -> real, o: seq<nat>)
    requires InRange(o, |s|)
  {
    forall p, q :: 0 <= p < q < |o| ==> Before(s, key, o[p], o[q])
  }

  /** Puts position `i` in front of the first position whose key is not larger. */
  function Insert<T>(s: seq<T>, key: T -> real, i: nat, t: seq<nat>): (u: seq<nat>)
    requires i < |s| && InRange(t, |s|)
    ensures InRange(u, |s|)
    ensures multiset(u) == multiset(t) + multiset{i}
    ensures forall x :: x in u <==> x in t || x == i
    ensures |u| == |t| + 1
  {
    if t == [] then [i]
    else if key(s[t[0]]) <= key(s[i]) then [i] + t
    else
      var u := [t[0]] + Insert(s, key, i, t[1..]);
      assert t == [t[0]] + t[1..];
      u
  }

  /** Inserting a position smaller than all those already sorted keeps the order
      sorted: among equal keys it lands in front, where its input position says. */
  lemma {:induction false} InsertSorted<T>(s: seq<T>, key: T -> real, i: nat, t: seq<nat>)
    requires i < |s| && InRange(t, |s|) && SortedBy(s, key, t)
    requires forall r :: 0 <= r < |t| ==> i < t[r]
    ensures SortedBy(s, key, Insert(s, key, i, t))
  {
    if t != [] {
      var u := Insert(s, key, i, t);
      if key(s[t[0]]) <= key(s[i]) {
        assert u == [i] + t;
        forall q | 0 < q < |u|
          ensures Before(s, key, u[0], u[q])
        {
          assert u[q] == t[q - 1];
          if q > 1 {
            assert Before(s, key, t[0], t[q - 1]);
          }
        }
      } else {
        var rest := Insert(s, key, i, t[1..]);
        assert u == [t[0]] + rest;
        InsertSorted(s, key, i, t[1..]);
        forall q | 0 < q < |u|
          ensures Before(s, key, u[0], u[q])
        {
          assert u[q] in multiset(rest);
          assert u[q] in multiset(t[1..]) || u[q] == i;
          if u[q] != i {
            var r :| 0 <= r < |t[1..]| && t[1..][r] == u[q];
            assert Before(s, key, t[0], t[r + 1]);
          }
        }
      }
    }
  }

  /** The positions k .. |s|-1 in the descending, tie-stable order (insertion sort,
      inserting from the last row towards the first). */
  function OrderFrom<T>(s: seq<T>, key: T -> real, k: nat): (o: seq<nat>)
    requires k <= |s|
    ensures InRange(o, |s|) && |o| == |s| - k
    decreases |s| - k
  {
    if k == |s| then [] else Insert(s, key, k, OrderFrom(s, key, k + 1))
  }

  /** The order of rows k.. holds exactly the positions k .. |s|-1. */
  lemma {:induction false} OrderFromMembers<T>(s: seq<T>, key: T -> real, k: nat)
    requires k <= |s|
    ensures forall x :: x in OrderFrom(s, key, k) <==> k <= x < |s|
    decreases |s| - k
  {
    if k < |s| {
      OrderFromMembers(s, key, k + 1);
      assert OrderFrom(s, key, k) == Insert(s, key, k, OrderFrom(s, key, k + 1));
    }
  }

  /** The order of rows k.. is sorted. */
  lemma {:induction false} OrderFromSorted<T>(s: seq<T>, key: T -> real, k: nat)
    requires k <= |s|
    ensures SortedBy(s, key, OrderFrom(s, key, k))
    decreases |s| - k
  {
    if k < |s| {
      var t := OrderFrom(s, key, k + 1);
      OrderFromSorted(s, key, k + 1);
      assert forall r :: 0 <= r < |t| ==> k < t[r] by {
        OrderFromMembers(s, key, k + 1);
        forall r | 0 <= r < |t|
          ensures k < t[r]
        {
          assert t[r] in t;
        }
      }
      InsertSorted(s, key, k, t);
    }
  }

  /** All positions of `s` in the descending, tie-stable order. */
  function Order<T>(s: seq<T>, key: T -> real): (o: seq<nat>)
    ensures InRange(o, |s|) && |o| == |s|
    ensures forall i :: 0 <= i < |s| ==> i in o
    ensures SortedBy(s, key, o)
  {
    OrderFromMembers(s, key, 0);
    OrderFromSorted(s, key, 0);
    OrderFrom(s, key, 0)
  }

  /** The rows of `s` at the positions `o`, in that order. */
  function Apply<T>(s: seq<T>, o: seq<nat>): (r: seq<T>)
    requires InRange(o, |s|)
    ensures |r| == |o|
    ensures forall p :: 0 <= p < |o| ==> r[p] == s[o[p]]
  {
    seq(|o|, p requires 0 <= p < |o| => s[o[p]])
  }

  lemma {:induction false} ApplyAppend<T>(s: seq<T>, a: seq<nat>, b: seq<nat>)
    requires InRange(a, |s|) && InRange(b, |s|)
    ensures InRange(a + b, |s|)
    ensures Apply(s, a + b) == Apply(s, a) + Apply(s, b)
  {
  }

  /** Listing the rows at the inserted positions adds exactly row `i`. */
  lemma {:induction false} ApplyInsert<T>(s: seq<T>, key: T -> real, i: nat, t: seq<nat>)
    requires i < |s| && InRange(t, |s|)
    ensures multiset(Apply(s, Insert(s, key, i, t))) == multiset(Apply(s, t)) + multiset{s[i]}
  {
    if t != [] {
      if key(s[t[0]]) <= key(s[i]) {
        assert Insert(s, key, i, t) == [i] + t;
        ApplyAppend(s, [i], t);
        assert Apply(s, [i]) == [s[i]];
      } else {
        var rest := Insert(s, key, i, t[1..]);
        assert Insert(s, key, i, t) == [t[0]] + rest;
        ApplyAppend(s, [t[0]], rest);
        assert t == [t[0]] + t[1..];
        ApplyAppend(s, [t[0]], t[1..]);
        ApplyInsert(s, key, i, t[1..]);
      }
    }
  }

  /** The ordered rows k.. are a permutation of the input's rows k.. . */
  lemma {:induction false} ApplyOrderFrom<T>(s: seq<T>, key: T -> real, k: nat)
    requires k <= |s|
    ensures multiset(Apply(s, OrderFrom(s, key, k))) == multiset(s[k..])
    decreases |s| - k
  {
    if k < |s| {
      var t := OrderFrom(s, key, k + 1);
      ApplyOrderFrom(s, key, k + 1);
      InsertStep(s, key, k, t);
      assert OrderFrom(s, key, k) == Insert(s, key, k, t);
    }
  }

  lemma {:induction false} InsertStep<T>(s: seq<T>, key: T -> real, k: nat, t: seq<nat>)
    requires k < |s| && InRange(t, |s|)
    requires multiset(Apply(s, t)) == multiset(s[k + 1..])
    ensures multiset(Apply(s, Insert(s, key, k, t))) == multiset(s[k..])
  {
    ApplyInsert(s, key, k, t);
    SliceMultiset(s, k);
  }

  /** The rows k.. are row k and the rows k+1.. . */
  lemma SliceMultiset<T>(s: seq<T>, k: nat)
    requires k < |s|
    ensures multiset(s[k..]) == multiset{s[k]} + multiset(s[k + 1..])
  {
    assert s[k..] == [s[k]] + s[k + 1..];
  }

  /** Sorting: the rows of `s` with non-increasing keys, as a permutation of `s`. */
  function SortDesc<T>(s: seq<T>, key: T -> real): (r: seq<T>)
    ensures |r| == |s|
    ensures multiset(r) == multiset(s)
    ensures forall p, q :: 0 <= p < q < |r| ==> key(r[p]) >= key(r[q])
  {
    var o := Order(s, key);
    ApplyOrderFrom(s, key, 0);
    assert s[0..] == s;
    var r := Apply(s, o);
    assert forall p, q :: 0 <= p < q < |r| ==> Before(s, key, o[p], o[q]);
    r
  }

  /** The first row of the sorted order is a row of `s` with the largest key. */
  lemma SortDescFirst<T>(s: seq<T>, key: T -> real)
    requires |s| > 0
    ensures SortDesc(s, key)[0] in s
    ensures forall x :: x in s ==> key(x) <= key(SortDesc(s, key)[0])
  {
    var r := SortDesc(s, key);
    assert r[0] in multiset(s);
    forall x | x in s
      ensures key(x) <= key(r[0])
    {
      assert x in multiset(r);
      var q :| 0 <= q < |r| && r[q] == x;
    }
  }

  function Min(a: int, b: int): int
  {
    if a <= b then a else b
  }

  /** The first `n` rows of the sorted order (`sort_values(...).head(n)`,
      `nlargest(n, ...)`). */
  function Top<T>(s: seq<T>, key: T -> real, n: nat): (r: seq<T>)
    ensures |r| == Min(n, |s|)
    ensures multiset(r) <= multiset(s)
    ensures forall p, q :: 0 <= p < q < |r| ==> key(r[p]) >= key(r[q])
  {
    var m := Min(n, |s|);
    var sorted := SortDesc(s, key);
    assert sorted == sorted[..m] + sorted[m..];
    sorted[..m]
  }

  /** A row left out of the top `n` has a key no larger than any row kept, and when the
      keys tie, the kept row came earlier in the input (`keep='first'`). */
  lemma TopDominates<T>(s: seq<T>, key: T -> real, n: nat, i: nat)
    requires i < |s|
    requires i !in Order(s, key)[..Min(n, |s|)]
    ensures forall p :: 0 <= p < Min(n, |s|) ==>
      key(Top(s, key, n)[p]) >= key(s[i]) &&
      (key(Top(s, key, n)[p]) == key(s[i]) ==> Order(s, key)[p] < i)
  {
    var o, m := Order(s, key), Min(n, |s|);
    assert i in o;
    var q :| 0 <= q < |o| && o[q] == i;
    assert forall p :: 0 <= p < m ==> o[..m][p] == o[p];
    assert q >= m;
    forall p | 0 <= p < m
      ensures key(Top(s, key, n)[p]) >= key(s[i])
      ensures key(Top(s, key, n)[p]) == key(s[i]) ==> o[p] < i
    {
      assert Before(s, key, o[p], o[q]);
      assert Top(s, key, n)[p] == s[o[p]];
    }
  }

  /** The top rows are the rows at the first positions of the order. */
  lemma TopAt<T>(s: seq<T>, key: T -> real, n: nat, p: nat)
    requires p < Min(n, |s|)
    ensures Top(s, key, n)[p] == s[Order(s, key)[p]]
  {
  }
}
