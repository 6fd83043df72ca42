/** Choosing and ordering rows: the latest fetch batch, the "treasure" finder and the
    profit ranking of the command-line report, and the dashboard's sidebar filter,
    treasure count and ranking table. */
module Selection {
  import opened Listings
  import Ranking

  /** The newest capture time among the rows. */
  function MaxTimestamp(rows: seq<Listing>): (m: int)
    requires |rows| > 0
    ensures forall x :: x in rows ==> x.timestamp <= m
    ensures exists x :: x in rows && x.timestamp == m
  {
    if |rows| == 1 then rows[0].timestamp
    else
      var rest := MaxTimestamp(rows[1..]);
      assert rows[1] in rows[1..];
      if rows[0].timestamp >= rest then rows[0].timestamp else rest
  }

  /** A row of the newest batch: no row was captured later. */
  predicate IsLatest(rows: seq<Listing>, x: Listing)
  {
    forall y :: y in rows ==> y.timestamp <= x.timestamp
  }

  /** The rows of the latest fetch batch: those stamped with the newest timestamp, in
      order; all rows when the frame has no timestamp column. */
  function LatestSnapshot(f: Frame): (r: seq<Listing>)
    ensures Timestamp !in f.columns ==> r == f.rows
    ensures Timestamp in f.columns ==> forall x :: x in r <==> x in f.rows && IsLatest(f.rows, x)
    ensures Timestamp in f.columns ==> forall x ::
      multiset(r)[x] == if IsLatest(f.rows, x) then multiset(f.rows)[x] else 0
    ensures Timestamp in f.columns && f.rows != [] ==>
      r == Where(f.rows, (x: Listing) => x.timestamp == MaxTimestamp(f.rows))
    ensures |f.rows| > 0 ==> |r| > 0
    ensures multiset(r) <= multiset(f.rows)
  {
    if Timestamp !in f.columns || f.rows == [] then f.rows
    else
      var m := MaxTimestamp(f.rows);
      var keep := (x: Listing) => x.timestamp == m;
      var r := Where(f.rows, keep);
      assert forall x :: x in f.rows ==> (keep(x) <==> IsLatest(f.rows, x));
      forall x
        ensures multiset(r)[x] == if IsLatest(f.rows, x) then multiset(f.rows)[x] else 0
      {
        WhereMultiset(f.rows, keep, x);
      }
      var w :| w in f.rows && w.timestamp == m;
      assert w in r;
      r
  }

  /** The report's default thresholds for a treasure item. */
  const TreasureMinProfit: real := 500.0
  const TreasureMinSales: int := 100
  const TreasureMinRating: real := 4.5

  /** Profit, sales and rating all at or above their thresholds. */
  predicate MeetsTreasure(x: Listing, minProfit: real, minSales: int, minRating: real)
  {
    x.estimatedProfitJpy >= minProfit && x.sales >= minSales && x.shopRating >= minRating
  }

  function EstimatedProfit(x: Listing): real
  {
    x.estimatedProfitJpy
  }

  /** Treasure items of the latest batch, most profitable first. */
  function FindTreasureProducts(f: Frame, minProfit: real, minSales: int, minRating: real): (r: seq<Listing>)
    ensures forall x :: x in r <==> x in LatestSnapshot(f) && MeetsTreasure(x, minProfit, minSales, minRating)
    ensures forall x :: multiset(r)[x] ==
                        (if MeetsTreasure(x, minProfit, minSales, minRating) then multiset(LatestSnapshot(f))[x] else 0)
    ensures forall p, q :: 0 <= p < q < |r| ==> r[p].estimatedProfitJpy >= r[q].estimatedProfitJpy
  {
    var latest := LatestSnapshot(f);
    var keep := (x: Listing) => MeetsTreasure(x, minProfit, minSales, minRating);
    var chosen := Where(latest, keep);
    forall x
      ensures multiset(chosen)[x] == if keep(x) then multiset(latest)[x] else 0
    {
      WhereMultiset(latest, keep, x);
    }
    Ranking.SortDesc(chosen, EstimatedProfit)
  }

  /** The thresholds are inclusive: a latest row at exactly 500 / 100 / 4.5 is a treasure
      item, and one at 499.99 profit is not, whatever its sales and rating. */
  lemma TreasureBoundary(f: Frame, x: Listing)
    requires x in LatestSnapshot(f)
    ensures x.estimatedProfitJpy == 500.0 && x.sales == 100 && x.shopRating == 4.5 ==>
      x in FindTreasureProducts(f, TreasureMinProfit, TreasureMinSales, TreasureMinRating)
    ensures x.estimatedProfitJpy == 499.99 ==>
      x !in FindTreasureProducts(f, TreasureMinProfit, TreasureMinSales, TreasureMinRating)
  {
  }

  /** The `topN` most profitable rows of the latest batch, most profitable first; on equal
      profit the earlier row wins. */
  function ShowProfitRanking(f: Frame, topN: nat): (r: seq<Listing>)
    ensures |r| == Ranking.Min(topN, |LatestSnapshot(f)|)
    ensures multiset(r) <= multiset(LatestSnapshot(f))
    ensures forall p, q :: 0 <= p < q < |r| ==> r[p].estimatedProfitJpy >= r[q].estimatedProfitJpy
  {
    Ranking.Top(LatestSnapshot(f), EstimatedProfit, topN)
  }

  /** Every row of the latest batch that did not make the ranking earns no more than every
      row that did, and on equal profit the ranked row came earlier in the batch. */
  lemma ProfitRankingDominates(f: Frame, topN: nat, i: nat)
    requires i < |LatestSnapshot(f)|
    requires i !in Ranking.Order(LatestSnapshot(f), EstimatedProfit)[..Ranking.Min(topN, |LatestSnapshot(f)|)]
    ensures forall p :: 0 <= p < |ShowProfitRanking(f, topN)| ==>
      ShowProfitRanking(f, topN)[p].estimatedProfitJpy >= LatestSnapshot(f)[i].estimatedProfitJpy
    ensures forall p ::
      (0 <= p < |ShowProfitRanking(f, topN)| &&
       ShowProfitRanking(f, topN)[p].estimatedProfitJpy == LatestSnapshot(f)[i].estimatedProfitJpy) ==>
      Ranking.Order(LatestSnapshot(f), EstimatedProfit)[p] < i
  {
    Ranking.TopDominates(LatestSnapshot(f), EstimatedProfit, topN, i);
  }

  /** The dashboard's sidebar filter: a selected category, at least the minimum profit
      (as recomputed) and at least the minimum sales. */
  predicate PassesFilter(x: Listing, selected: seq<string>, minProfit: real, minSales: int)
  {
    x.keyword in selected && x.profit >= minProfit && x.sales >= minSales
  }

  function FilterListings(rows: seq<Listing>, selected: seq<string>, minProfit: real, minSales: int): (r: seq<Listing>)
    ensures forall x :: x in r <==> x in rows && PassesFilter(x, selected, minProfit, minSales)
    ensures forall x :: multiset(r)[x] ==
                        (if PassesFilter(x, selected, minProfit, minSales) then multiset(rows)[x] else 0)
    ensures selected == [] ==> r == []
  {
    var keep := (x: Listing) => PassesFilter(x, selected, minProfit, minSales);
    var r := Where(rows, keep);
    forall x
      ensures multiset(r)[x] == if keep(x) then multiset(rows)[x] else 0
    {
      WhereMultiset(rows, keep, x);
    }
    assert selected == [] ==> r == [] by {
      if selected == [] {
        WhereNone(rows, keep);
      }
    }
    r
  }

  /** The filter keeps row order: filtering two consecutive parts and joining the results
      is filtering the whole. */
  lemma FilterKeepsOrder(a: seq<Listing>, b: seq<Listing>, selected: seq<string>, minProfit: real, minSales: int)
    ensures FilterListings(a + b, selected, minProfit, minSales)
         == FilterListings(a, selected, minProfit, minSales) + FilterListings(b, selected, minProfit, minSales)
  {
    WhereAppend(a, b, (x: Listing) => PassesFilter(x, selected, minProfit, minSales));
  }

  /** The dashboard's treasure tile: filtered rows with at least 500 profit and at least
      100 sales. Unlike the report it applies no rating threshold. */
  predicate DashboardTreasure(x: Listing)
  {
    x.profit >= 500.0 && x.sales >= 100
  }

  function TreasureCount(filtered: seq<Listing>): (n: nat)
    ensures n <= |filtered|
  {
    |Where(filtered, DashboardTreasure)|
  }

  /** The tile counts row by row: the count of a concatenation is the sum of the counts,
      and a single row counts one exactly when it has at least 500 profit and 100 sales. */
  lemma TreasureCountAdds(a: seq<Listing>, b: seq<Listing>, x: Listing)
    ensures TreasureCount(a + b) == TreasureCount(a) + TreasureCount(b)
    ensures TreasureCount([x]) == if x.profit >= 500.0 && x.sales >= 100 then 1 else 0
  {
    WhereAppend(a, b, DashboardTreasure);
    assert Where([x], DashboardTreasure) == (if DashboardTreasure(x) then [x] else []) + Where([], DashboardTreasure);
  }

  /** Since the tile drops the rating threshold, it counts at least as many rows as pass
      all three thresholds on the same profit column. */
  lemma TreasureCountAtLeastRated(filtered: seq<Listing>)
    ensures |Where(filtered, (x: Listing) => DashboardTreasure(x) && x.shopRating >= TreasureMinRating)|
         <= TreasureCount(filtered)
  {
    WhereWeaker(filtered, (x: Listing) => DashboardTreasure(x) && x.shopRating >= TreasureMinRating, DashboardTreasure);
  }

  /** A weaker mask keeps at least as many rows. */
  lemma {:induction false} WhereWeaker(s: seq<Listing>, strong: Listing -> bool, weak: Listing -> bool)
    requires forall x :: strong(x) ==> weak(x)
    ensures |Where(s, strong)| <= |Where(s, weak)|
  {
    if s != [] {
      WhereWeaker(s[1..], strong, weak);
    }
  }

  /** The column the ranking table sorts by. */
  datatype SortKey = ByProfit | BySales | ByPrice

  function KeyOf(k: SortKey): Listing -> real
  {
    match k
    case ByProfit => (x: Listing) => x.profit
    case BySales => (x: Listing) => x.sales as real
    case ByPrice => (x: Listing) => x.price
  }

  /** The ranking table: the filtered rows sorted by the chosen column, largest first,
      cut to the first `n`. */
  function RankingView(filtered: seq<Listing>, k: SortKey, n: nat): (r: seq<Listing>)
    ensures |r| == Ranking.Min(n, |filtered|)
    ensures multiset(r) <= multiset(filtered)
    ensures forall p, q :: 0 <= p < q < |r| ==> KeyOf(k)(r[p]) >= KeyOf(k)(r[q])
  {
    Ranking.Top(filtered, KeyOf(k), n)
  }
}
