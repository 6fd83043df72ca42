/** Per-category figures: the `groupby("keyword")` sums and means behind the report's and
    the dashboard's bar charts, and the report's per-genre statistics with the best-selling
    genre. */
module Aggregates {
  import opened Listings
  import Selection
  import Ranking

  /** `groupby("keyword")[col].sum()` for an integer column. */
  function SumByKeyword(rows: seq<Listing>, f: Listing -> int): (m: map<string, int>)
    ensures forall k :: k in m <==> exists x :: x in rows && x.keyword == k
    ensures forall k :: k in m ==> m[k] == SumInt(Group(rows, k), f)
  {
    map k | k in Keywords(rows) :: SumInt(Group(rows, k), f)
  }

  /** The values of `m` at the keys `ks`, added up. */
  function MapTotal(ks: seq<string>, m: map<string, int>): int
    requires forall k :: k in ks ==> k in m
  {
    if ks == [] then 0 else m[ks[0]] + MapTotal(ks[1..], m)
  }

  /** The per-keyword sums add up to the sum over all rows: the groups split the rows. */
  lemma SumByKeywordTotal(rows: seq<Listing>, f: Listing -> int)
    ensures MapTotal(Keywords(rows), SumByKeyword(rows, f)) == SumInt(rows, f)
  {
    var ks, m := Keywords(rows), SumByKeyword(rows, f);
    MapTotalIsGroupTotal(ks, rows, f, m);
    GroupTotalPartition(ks, rows, f);
  }

  lemma {:induction false} MapTotalIsGroupTotal(ks: seq<string>, rows: seq<Listing>, f: Listing -> int, m: map<string, int>)
    requires forall k :: k in ks ==> k in m && m[k] == SumInt(Group(rows, k), f)
    ensures MapTotal(ks, m) == GroupTotal(ks, rows, f)
  {
    if ks != [] {
      MapTotalIsGroupTotal(ks[1..], rows, f, m);
    }
  }

  /** `groupby("keyword")[col].mean()` for a real column. */
  function MeanByKeyword(rows: seq<Listing>, f: Listing -> real): (m: map<string, real>)
    ensures forall k :: k in m <==> exists x :: x in rows && x.keyword == k
    ensures forall k :: k in m ==> |Group(rows, k)| > 0 && m[k] == Mean(Group(rows, k), f)
  {
    GroupsNonEmpty(rows);
    map k | k in Keywords(rows) :: Mean(Group(rows, k), f)
  }

  /** Each per-category mean lies between the lowest and the highest value of its
      category. */
  lemma MeanByKeywordBetween(rows: seq<Listing>, f: Listing -> real, k: string)
    requires k in MeanByKeyword(rows, f)
    ensures var g := Group(rows, k);
      |g| > 0 && MinOf(g, f) <= MeanByKeyword(rows, f)[k] <= MaxOf(g, f)
  {
    MeanBetween(Group(rows, k), f);
  }

  /** Every keyword that occurs has a non-empty group. */
  lemma GroupsNonEmpty(rows: seq<Listing>)
    ensures forall k :: k in Keywords(rows) ==> |Group(rows, k)| > 0
  {
    forall k | k in Keywords(rows)
      ensures |Group(rows, k)| > 0
    {
      GroupNonEmpty(rows, k);
    }
  }

  /** A keyword that occurs has a non-empty group. */
  lemma GroupNonEmpty(rows: seq<Listing>, k: string)
    requires k in Keywords(rows)
    ensures |Group(rows, k)| > 0
  {
    var x :| x in rows && x.keyword == k;
    assert x in Group(rows, k);
  }

  function Sales(x: Listing): int
  {
    x.sales
  }

  function DashboardProfit(x: Listing): real
  {
    x.profit
  }

  /** The report's sales chart: total sales per category of the latest batch. */
  function SalesChartData(f: Frame): (m: map<string, int>)
    ensures forall k :: k in m <==> exists x :: x in Selection.LatestSnapshot(f) && x.keyword == k
    ensures forall k :: k in m ==> m[k] == SumInt(Group(Selection.LatestSnapshot(f), k), Sales)
    ensures MapTotal(Keywords(Selection.LatestSnapshot(f)), m) == SumInt(Selection.LatestSnapshot(f), Sales)
  {
    var latest := Selection.LatestSnapshot(f);
    SumByKeywordTotal(latest, Sales);
    SumByKeyword(latest, Sales)
  }

  /** The report's profit chart: mean estimated profit per category of the latest batch,
      or nothing when the frame has no estimated-profit column. */
  function ProfitChartData(f: Frame): (r: Option<map<string, real>>)
    ensures r.None? <==> EstimatedProfitJpy !in f.columns
    ensures r.Some? ==> forall k :: k in r.value <==> exists x :: x in Selection.LatestSnapshot(f) && x.keyword == k
    ensures r.Some? ==> forall k :: k in r.value ==>
      var g := Group(Selection.LatestSnapshot(f), k);
      |g| > 0 && r.value[k] == Mean(g, Selection.EstimatedProfit)
  {
    if EstimatedProfitJpy !in f.columns then None
    else Some(MeanByKeyword(Selection.LatestSnapshot(f), Selection.EstimatedProfit))
  }

  /** The dashboard's category sales chart over the filtered rows. */
  function DashboardSalesByCategory(filtered: seq<Listing>): (m: map<string, int>)
    ensures forall k :: k in m <==> exists x :: x in filtered && x.keyword == k
    ensures forall k :: k in m ==> m[k] == SumInt(Group(filtered, k), Sales)
    ensures MapTotal(Keywords(filtered), m) == SumInt(filtered, Sales)
  {
    SumByKeywordTotal(filtered, Sales);
    SumByKeyword(filtered, Sales)
  }

  /** The dashboard's category profit chart: mean recomputed profit over the filtered rows. */
  function DashboardProfitByCategory(filtered: seq<Listing>): (m: map<string, real>)
    ensures forall k :: k in m <==> exists x :: x in filtered && x.keyword == k
    ensures forall k :: k in m ==> var g := Group(filtered, k);
      |g| > 0 && m[k] == Mean(g, DashboardProfit)
  {
    MeanByKeyword(filtered, DashboardProfit)
  }

  /** One line of the report's genre table. `avgProfit` is absent when the data has no
      estimated-profit column. */
  datatype GenreStat = GenreStat(
    genre: string,
    count: nat,
    avgPrice: real,
    totalSales: int,
    avgSales: real,
    avgRating: real,
    maxSales: int,
    avgProfit: Option<real>)

  /** The largest sales figure of a non-empty selection. */
  function MaxSales(rows: seq<Listing>): (m: int)
    requires |rows| > 0
    ensures forall x :: x in rows ==> x.sales <= m
    ensures exists x :: x in rows && x.sales == m
  {
    if |rows| == 1 then rows[0].sales
    else
      var rest := MaxSales(rows[1..]);
      assert rows[1] in rows[1..];
      if rows[0].sales >= rest then rows[0].sales else rest
  }

  function One(x: Listing): int
  {
    1
  }

  /** Counting rows is summing ones. */
  lemma {:induction false} SumOnes(rows: seq<Listing>)
    ensures SumInt(rows, One) == |rows|
  {
    if rows != [] {
      SumOnes(rows[1..]);
    }
  }

  function PriceOf(x: Listing): real
  {
    x.price
  }

  function SalesOf(x: Listing): real
  {
    x.sales as real
  }

  function RatingOf(x: Listing): real
  {
    x.shopRating
  }

  /** The statistics of genre `k`. The report asks only for keywords that occur, whose
      group is never empty; an absent keyword gets an all-zero line. */
  function StatOf(rows: seq<Listing>, k: string, hasProfit: bool): (st: GenreStat)
    ensures st.genre == k && st.count == |Group(rows, k)| && st.totalSales == SumInt(Group(rows, k), Sales)
  {
    var g := Group(rows, k);
    if g == [] then GenreStat(k, 0, 0.0, 0, 0.0, 0.0, 0, None)
    else
      GenreStat(
        k, |g|,
        Mean(g, PriceOf),
        SumInt(g, Sales),
        Mean(g, SalesOf),
        Mean(g, RatingOf),
        MaxSales(g),
        if hasProfit then Some(Mean(g, Selection.EstimatedProfit)) else None)
  }

  /** The columns of a genre line for a keyword that occurs: the means of price, sales
      and rating over the keyword's rows, each between that column's lowest and highest
      value, the mean sales being the total sales over the count, the largest sales
      figure, and the mean estimated profit exactly when the data has that column. */
  lemma StatOfColumns(rows: seq<Listing>, k: string, hasProfit: bool)
    requires exists x :: x in rows && x.keyword == k
    ensures var g, st := Group(rows, k), StatOf(rows, k, hasProfit);
      && |g| > 0
      && st.avgPrice == Mean(g, PriceOf) && MinOf(g, PriceOf) <= st.avgPrice <= MaxOf(g, PriceOf)
      && st.avgRating == Mean(g, RatingOf) && MinOf(g, RatingOf) <= st.avgRating <= MaxOf(g, RatingOf)
      && st.avgSales == Mean(g, SalesOf) && st.avgSales == (st.totalSales as real) / (st.count as real)
      && st.maxSales == MaxSales(g)
      && (st.avgProfit.Some? <==> hasProfit)
      && (hasProfit ==> st.avgProfit.value == Mean(g, Selection.EstimatedProfit))
  {
    var g := Group(rows, k);
    var x :| x in rows && x.keyword == k;
    assert x in g;
    var st := StatOf(rows, k, hasProfit);
    StatOfNonEmpty(rows, k, hasProfit);
    MeanBetween(g, PriceOf);
    MeanBetween(g, RatingOf);
    SumSalesReal(g);
  }

  /** For a non-empty group, the line is built from that group's means, maximum and
      (when present) mean profit. */
  lemma StatOfNonEmpty(rows: seq<Listing>, k: string, hasProfit: bool)
    requires |Group(rows, k)| > 0
    ensures var g, st := Group(rows, k), StatOf(rows, k, hasProfit);
      && st.avgPrice == Mean(g, PriceOf) && st.avgRating == Mean(g, RatingOf)
      && st.avgSales == Mean(g, SalesOf) && st.maxSales == MaxSales(g)
      && (st.avgProfit.Some? <==> hasProfit)
      && (hasProfit ==> st.avgProfit.value == Mean(g, Selection.EstimatedProfit))
  {
  }

  /** The sales summed as reals are the integer total. */
  lemma {:induction false} SumSalesReal(s: seq<Listing>)
    ensures SumReal(s, SalesOf) == SumInt(s, Sales) as real
  {
    if s != [] {
      SumSalesReal(s[1..]);
    }
  }

  /** The genre table for the keywords `ks`: one line per keyword, in order. */
  function GenreTable(rows: seq<Listing>, ks: seq<string>, hasProfit: bool): (t: seq<GenreStat>)
    ensures |t| == |ks|
    decreases |ks|
  {
    if ks == [] then []
    else GenreTable(rows, ks[..|ks| - 1], hasProfit) + [StatOf(rows, ks[|ks| - 1], hasProfit)]
  }

  /** Line `j` of the genre table describes keyword `j`. */
  lemma {:induction false} GenreTableAt(rows: seq<Listing>, ks: seq<string>, hasProfit: bool, j: nat)
    requires j < |ks|
    ensures GenreTable(rows, ks, hasProfit)[j] == StatOf(rows, ks[j], hasProfit)
    decreases |ks|
  {
    var n := |ks| - 1;
    var t, p := GenreTable(rows, ks, hasProfit), GenreTable(rows, ks[..n], hasProfit);
    var last := StatOf(rows, ks[n], hasProfit);
    assert t == p + [last];
    if j < n {
      GenreTableAt(rows, ks[..n], hasProfit, j);
      assert ks[..n][j] == ks[j];
      assert t[j] == p[j];
    } else {
      assert t[j] == last;
    }
  }

  /** Builds the genre table by appending one line per distinct keyword, in the order the
      keywords first appear. */
  method BuildGenreStats(analysis: seq<Listing>, hasProfit: bool) returns (stats: seq<GenreStat>)
    ensures stats == GenreTable(analysis, Keywords(analysis), hasProfit)
    ensures StatsCount(stats) == |analysis|
    ensures StatsSales(stats) == SumInt(analysis, Sales)
  {
    var ks := Keywords(analysis);
    stats := [];
    var i := 0;
    while i < |ks|
      invariant 0 <= i <= |ks|
      invariant stats == GenreTable(analysis, ks[..i], hasProfit)
    {
      PrefixStep(ks, i);
      stats := stats + [StatOf(analysis, ks[i], hasProfit)];
      i := i + 1;
    }
    assert ks[..i] == ks;
    GenreTableTotals(analysis, hasProfit);
  }

  /** The first i+1 elements are the first i followed by element i. */
  lemma PrefixStep<T>(s: seq<T>, i: nat)
    requires i < |s|
    ensures s[..i + 1][..i] == s[..i] && s[..i + 1][i] == s[i]
  {
  }

  /** The genre table over the distinct keywords counts every analysed row once and
      totals all their sales. */
  lemma GenreTableTotals(analysis: seq<Listing>, hasProfit: bool)
    ensures StatsCount(GenreTable(analysis, Keywords(analysis), hasProfit)) == |analysis|
    ensures StatsSales(GenreTable(analysis, Keywords(analysis), hasProfit)) == SumInt(analysis, Sales)
  {
    var ks := Keywords(analysis);
    GenreTableCount(analysis, ks, hasProfit);
    GenreTableSales(analysis, ks, hasProfit);
    GroupTotalPartition(ks, analysis, One);
    GroupTotalPartition(ks, analysis, Sales);
    SumOnes(analysis);
  }

  /** The genre table for `ks` counts, in total, the rows of those keywords. */
  lemma {:induction false} GenreTableCount(rows: seq<Listing>, ks: seq<string>, hasProfit: bool)
    ensures StatsCount(GenreTable(rows, ks, hasProfit)) == GroupTotal(ks, rows, One)
    decreases |ks|
  {
    if ks != [] {
      var n := |ks| - 1;
      var t, p := GenreTable(rows, ks, hasProfit), GenreTable(rows, ks[..n], hasProfit);
      GenreTableCount(rows, ks[..n], hasProfit);
      assert t == p + [StatOf(rows, ks[n], hasProfit)];
      assert t[..|t| - 1] == p;
      assert ks == ks[..n] + [ks[n]];
      GroupTotalSnoc(ks[..n], ks[n], rows, One);
      SumOnes(Group(rows, ks[n]));
    }
  }

  /** The genre table for `ks` totals the sales of those keywords. */
  lemma {:induction false} GenreTableSales(rows: seq<Listing>, ks: seq<string>, hasProfit: bool)
    ensures StatsSales(GenreTable(rows, ks, hasProfit)) == GroupTotal(ks, rows, Sales)
    decreases |ks|
  {
    if ks != [] {
      var n := |ks| - 1;
      var t, p := GenreTable(rows, ks, hasProfit), GenreTable(rows, ks[..n], hasProfit);
      GenreTableSales(rows, ks[..n], hasProfit);
      assert t == p + [StatOf(rows, ks[n], hasProfit)];
      assert t[..|t| - 1] == p;
      assert ks == ks[..n] + [ks[n]];
      GroupTotalSnoc(ks[..n], ks[n], rows, Sales);
    }
  }

  /** Sum of the `count` column of the genre table. */
  function StatsCount(stats: seq<GenreStat>): int
  {
    if stats == [] then 0 else StatsCount(stats[..|stats| - 1]) + stats[|stats| - 1].count
  }

  /** Sum of the `totalSales` column of the genre table. */
  function StatsSales(stats: seq<GenreStat>): int
  {
    if stats == [] then 0 else StatsSales(stats[..|stats| - 1]) + stats[|stats| - 1].totalSales
  }

  /** Totals over a keyword list grow by one group's total when a keyword is appended. */
  lemma {:induction false} GroupTotalSnoc(ks: seq<string>, k: string, rows: seq<Listing>, f: Listing -> int)
    ensures GroupTotal(ks + [k], rows, f) == GroupTotal(ks, rows, f) + SumInt(Group(rows, k), f)
  {
    if ks == [] {
      assert [] + [k] == [k];
    } else {
      assert (ks + [k])[1..] == ks[1..] + [k];
      GroupTotalSnoc(ks[1..], k, rows, f);
    }
  }

  function TotalSales(st: GenreStat): real
  {
    st.totalSales as real
  }

  /** The report's conclusion: the analysed batch, the genre table, and the genre with the
      largest total sales (the first line of the table sorted by total sales, descending). */
  datatype Report = Report(analysedRows: nat, storedRows: nat, stats: seq<GenreStat>, best: GenreStat)

  /** The report over the latest batch; nothing when the data is empty. */
  method AnalyzeResults(df: Frame) returns (report: Option<Report>)
    ensures report.None? <==> df.rows == []
    ensures report.Some? ==>
      var r := report.value;
      && r.storedRows == |df.rows|
      && r.analysedRows == |Selection.LatestSnapshot(df)|
      && r.stats == GenreTable(Selection.LatestSnapshot(df), Keywords(Selection.LatestSnapshot(df)),
                               EstimatedProfitJpy in df.columns)
      && StatsCount(r.stats) == r.analysedRows
      && StatsSales(r.stats) == SumInt(Selection.LatestSnapshot(df), Sales)
      && r.best in r.stats
      && (forall st :: st in r.stats ==> st.totalSales <= r.best.totalSales)
  {
    if df.rows == [] {
      return None;
    }
    var analysis := Selection.LatestSnapshot(df);
    var stats := BuildGenreStats(analysis, EstimatedProfitJpy in df.columns);
    assert analysis[0] in analysis;
    assert analysis[0].keyword in Keywords(analysis);
    var ranking := Ranking.SortDesc(stats, TotalSales);
    Ranking.SortDescFirst(stats, TotalSales);
    report := Some(Report(|analysis|, |df.rows|, stats, ranking[0]));
  }
}
