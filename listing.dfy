/** The listing record and the tabular frame that every part of the tool passes around,
    plus the small sequence helpers (row selection, sums, keyword grouping) they share. */
module Listings {

  datatype Option<T> = None | Some(value: T)

  /** The configured search keywords, one per product category. */
  const SearchKeywords: seq<string> := ["日本 零食", "日本 泡麵", "日本 調味料", "日本 咖啡", "日本 生活用品", "日本 美容"]

  /** A column name of the results table. `Extra` stands for any key a sample entry may
      carry that is not one of the known columns. */
  datatype Column =
    | Timestamp | Keyword | Name | Price | Sales | ShopRating
    | PriceJpy | EstimatedCostJpy | EstimatedProfitJpy
    | Revenue | Cost | Profit
    | Extra(key: string)

  /** One observed listing: the scraper's columns (timestamp .. estimatedProfitJpy) and
      the dashboard's recomputed columns (revenue, cost, profit). `priceJpy` is shared:
      the scraper stores it and the dashboard overwrites it. */
  datatype Listing = Listing(
    timestamp: int,
    keyword: string,
    name: string,
    price: real,
    sales: int,
    shopRating: real,
    priceJpy: real,
    estimatedCostJpy: real,
    estimatedProfitJpy: real,
    revenue: real,
    cost: real,
    profit: real)

  /** A data frame: the columns present, in order, and the rows. A row's value for a
      column not in `columns` carries no meaning. */
  datatype Frame = Frame(columns: seq<Column>, rows: seq<Listing>)

  /** The rows of `s` that satisfy `keep`, in their original order (a boolean mask). */
  function Where(s: seq<Listing>, keep: Listing -> bool): (r: seq<Listing>)
    ensures |r| <= |s|
    ensures forall x :: x in r <==> x in s && keep(x)
  {
    if s == [] then [] else (if keep(s[0]) then [s[0]] else []) + Where(s[1..], keep)
  }

  /** Selecting from a concatenation selects from each part: the mask keeps row order. */
  lemma {:induction false} WhereAppend(a: seq<Listing>, b: seq<Listing>, keep: Listing -> bool)
    ensures Where(a + b, keep) == Where(a, keep) + Where(b, keep)
  {
    if a == [] {
      assert a + b == b;
    } else {
      assert (a + b)[1..] == a[1..] + b;
      WhereAppend(a[1..], b, keep);
    }
  }

  /** The mask keeps exactly the rows satisfying `keep`, counted with multiplicity. */
  lemma {:induction false} WhereMultiset(s: seq<Listing>, keep: Listing -> bool, x: Listing)
    ensures multiset(Where(s, keep))[x] == if keep(x) then multiset(s)[x] else 0
  {
    if s != [] {
      WhereMultiset(s[1..], keep, x);
      assert s == [s[0]] + s[1..];
    }
  }

  /** A mask that nothing passes selects nothing. */
  lemma {:induction false} WhereNone(s: seq<Listing>, keep: Listing -> bool)
    requires forall x :: x in s ==> !keep(x)
    ensures Where(s, keep) == []
  {
    if s != [] {
      WhereNone(s[1..], keep);
    }
  }

  /** Sum of an integer column. */
  function SumInt(s: seq<Listing>, f: Listing -> int): int
  {
    if s == [] then 0 else f(s[0]) + SumInt(s[1..], f)
  }

  /** Sum of a real column. */
  function SumReal(s: seq<Listing>, f: Listing -> real): real
  {
    if s == [] then 0.0 else f(s[0]) + SumReal(s[1..], f)
  }

  /** Mean of a real column over a non-empty selection (pandas `mean`). */
  function Mean(s: seq<Listing>, f: Listing -> real): real
    requires |s| > 0
  {
    SumReal(s, f) / (|s| as real)
  }

  /** Smallest value of a real column over a non-empty selection. */
  function MinOf(s: seq<Listing>, f: Listing -> real): (m: real)
    requires |s| > 0
    ensures forall x :: x in s ==> m <= f(x)
    ensures exists x :: x in s && m == f(x)
  {
    if |s| == 1 then f(s[0])
    else
      var rest := MinOf(s[1..], f);
      assert s[1] in s[1..];
      if f(s[0]) <= rest then f(s[0]) else rest
  }

  /** Largest value of a real column over a non-empty selection. */
  function MaxOf(s: seq<Listing>, f: Listing -> real): (m: real)
    requires |s| > 0
    ensures forall x :: x in s ==> f(x) <= m
    ensures exists x :: x in s && m == f(x)
  {
    if |s| == 1 then f(s[0])
    else
      var rest := MaxOf(s[1..], f);
      assert s[1] in s[1..];
      if f(s[0]) >= rest then f(s[0]) else rest
  }

  /** `n` copies of `v` added up. */
  function Times(n: nat, v: real): real
  {
    if n == 0 then 0.0 else v + Times(n - 1, v)
  }

  lemma {:induction false} TimesIsProduct(n: nat, v: real)
    ensures Times(n, v) == (n as real) * v
  {
    if n > 0 {
      TimesIsProduct(n - 1, v);
      assert (n as real) * v == ((n - 1) as real) * v + v;
    }
  }

  /** A sum of values between `lo` and `hi` lies between as many copies of each. */
  lemma {:induction false} SumTimes(s: seq<Listing>, f: Listing -> real, lo: real, hi: real)
    requires forall x :: x in s ==> lo <= f(x) <= hi
    ensures Times(|s|, lo) <= SumReal(s, f) <= Times(|s|, hi)
  {
    if s != [] {
      assert forall x :: x in s[1..] ==> x in s;
      assert s[0] in s;
      SumTimes(s[1..], f, lo, hi);
    }
  }

  /** The mean of a non-empty selection lies between its minimum and its maximum. */
  lemma {:induction false} MeanBetween(s: seq<Listing>, f: Listing -> real)
    requires |s| > 0
    ensures MinOf(s, f) <= Mean(s, f) <= MaxOf(s, f)
  {
    var lo, hi := MinOf(s, f), MaxOf(s, f);
    SumTimes(s, f, lo, hi);
    MeanOfTimes(|s|, SumReal(s, f), lo, hi);
  }

  /** A total between n copies of `lo` and n copies of `hi` has its n-th part between
      `lo` and `hi`. */
  lemma MeanOfTimes(n: nat, total: real, lo: real, hi: real)
    requires n > 0 && Times(n, lo) <= total <= Times(n, hi)
    ensures lo <= total / (n as real) <= hi
  {
    TimesIsProduct(n, lo);
    TimesIsProduct(n, hi);
    DivBetween(total, n as real, lo, hi);
  }

  lemma DivBetween(total: real, n: real, lo: real, hi: real)
    requires n > 0.0 && n * lo <= total <= n * hi
    ensures lo <= total / n <= hi
  {
    var q := total / n;
    assert q * n == total;
    assert n * (q - lo) >= 0.0;
    assert n * (hi - q) >= 0.0;
  }

  /** The distinct keywords of `s` in order of first appearance (pandas `unique`). */
  function Keywords(s: seq<Listing>): (ks: seq<string>)
    ensures forall k :: k in ks <==> exists x :: x in s && x.keyword == k
    ensures NoDup(ks)
    ensures |ks| <= |s|
  {
    KeywordsFrom(s, [])
  }

  /** Appends to `seen` the keywords of `s` not yet in it, in order. */
  function KeywordsFrom(s: seq<Listing>, seen: seq<string>): (ks: seq<string>)
    requires NoDup(seen)
    ensures forall k :: k in ks <==> (k in seen || exists x :: x in s && x.keyword == k)
    ensures NoDup(ks)
    ensures |ks| <= |seen| + |s|
    decreases |s|
  {
    if s == [] then seen
    else
      var seen' := if s[0].keyword in seen then seen else seen + [s[0].keyword];
      var ks := KeywordsFrom(s[1..], seen');
      assert forall x :: x in s <==> x == s[0] || x in s[1..];
      ks
  }

  /** First-appearance order: one more row adds its keyword at the end, exactly when
      the keyword is new. */
  lemma KeywordsSnoc(s: seq<Listing>, x: Listing)
    ensures Keywords(s + [x]) ==
      if x.keyword in Keywords(s) then Keywords(s) else Keywords(s) + [x.keyword]
  {
    KeywordsFromSnoc(s, [], x);
  }

  lemma {:induction false} KeywordsFromSnoc(s: seq<Listing>, seen: seq<string>, x: Listing)
    requires NoDup(seen)
    ensures var ks := KeywordsFrom(s, seen);
      KeywordsFrom(s + [x], seen) == if x.keyword in ks then ks else ks + [x.keyword]
    decreases |s|
  {
    if s == [] {
      assert s + [x] == [x];
      assert [x][1..] == [];
    } else {
      assert (s + [x])[0] == s[0];
      assert (s + [x])[1..] == s[1..] + [x];
      var seen' := if s[0].keyword in seen then seen else seen + [s[0].keyword];
      KeywordsFromSnoc(s[1..], seen', x);
    }
  }

  /** No value occurs twice. */
  predicate NoDup<T(==)>(s: seq<T>)
  {
    forall i, j :: 0 <= i < j < |s| ==> s[i] != s[j]
  }

  /** The rows of keyword `k` (one group of `groupby("keyword")`). */
  function Group(s: seq<Listing>, k: string): (g: seq<Listing>)
    ensures forall x :: x in g <==> x in s && x.keyword == k
    ensures |g| <= |s|
  {
    if s == [] then []
    else
      var rest := Group(s[1..], k);
      assert forall x :: x in s <==> x == s[0] || x in s[1..];
      if s[0].keyword == k then [s[0]] + rest else rest
  }

  /** Total of an integer column over the groups of the keywords `ks`. */
  function GroupTotal(ks: seq<string>, s: seq<Listing>, f: Listing -> int): int
  {
    if ks == [] then 0 else SumInt(Group(s, ks[0]), f) + GroupTotal(ks[1..], s, f)
  }

  /** Summing per-keyword totals over a list that names each keyword of `s` exactly once
      gives the total of the whole selection: no row is lost or counted twice. */
  lemma {:induction false} GroupTotalPartition(ks: seq<string>, s: seq<Listing>, f: Listing -> int)
    requires NoDup(ks)
    requires forall x :: x in s ==> x.keyword in ks
    ensures GroupTotal(ks, s, f) == SumInt(s, f)
  {
    if s == [] {
      GroupTotalEmpty(ks, f);
    } else {
      var x, rest := s[0], s[1..];
      assert s == [x] + rest;
      assert forall y :: y in rest ==> y in s;
      GroupTotalPartition(ks, rest, f);
      GroupTotalCons(ks, x, rest, f);
    }
  }

  lemma {:induction false} GroupTotalEmpty(ks: seq<string>, f: Listing -> int)
    ensures GroupTotal(ks, [], f) == 0
  {
    if ks != [] {
      GroupTotalEmpty(ks[1..], f);
    }
  }

  /** Adding one row at the front adds its value to the total of exactly one group. */
  lemma {:induction false} GroupTotalCons(ks: seq<string>, x: Listing, rest: seq<Listing>, f: Listing -> int)
    requires NoDup(ks)
    ensures GroupTotal(ks, [x] + rest, f)
         == GroupTotal(ks, rest, f) + (if x.keyword in ks then f(x) else 0)
  {
    if ks != [] {
      assert NoDup(ks[1..]);
      GroupTotalCons(ks[1..], x, rest, f);
      GroupSumCons(ks[0], x, rest, f);
      assert x.keyword in ks <==> x.keyword == ks[0] || x.keyword in ks[1..];
      assert x.keyword == ks[0] ==> x.keyword !in ks[1..];
    }
  }

  /** One group's total gains the new row's value exactly when the row has that keyword. */
  lemma GroupSumCons(k: string, x: Listing, rest: seq<Listing>, f: Listing -> int)
    ensures SumInt(Group([x] + rest, k), f)
         == SumInt(Group(rest, k), f) + (if x.keyword == k then f(x) else 0)
  {
    var s := [x] + rest;
    assert s[0] == x && s[1..] == rest;
    var g := Group(rest, k);
    if x.keyword == k {
      assert Group(s, k) == [x] + g;
      assert ([x] + g)[1..] == g;
      assert SumInt([x] + g, f) == f(x) + SumInt(g, f);
    } else {
      assert Group(s, k) == g;
    }
  }
}
