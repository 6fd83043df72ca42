/** The resale profit model: a listing price in TWD and four parameters give the price in
    JPY, the revenue after the platform fee, the estimated purchase cost and the
    estimated profit. The dashboard recomputes these for a whole frame whenever a slider
    moves; the scraper computes them once with the configured constants and rounds them. */
module Profit {
  import opened Listings

  /** Exchange rate (JPY per TWD), sales-fee rate, fixed cost per item (JPY) and cost
      rate (purchase cost as a share of the JPY price). */
  datatype Params = Params(exchangeRate: real, feeRate: real, fixedCost: real, costRate: real)

  /** The configured constants (also the dashboard sliders' initial values). */
  const ExchangeRate: real := 4.8
  const SalesFeeRate: real := 0.10
  const FixedCostJpy: real := 200.0
  const CostRate: real := 0.50

  const ConfigParams: Params := Params(ExchangeRate, SalesFeeRate, FixedCostJpy, CostRate)

  datatype Breakdown = Breakdown(priceJpy: real, revenue: real, cost: real, profit: real)

  /** What each TWD of listing price contributes to profit, in JPY. */
  function Margin(p: Params): real
  {
    p.exchangeRate * (1.0 - p.feeRate - p.costRate)
  }

  /** The profit formula, step by step as the code computes it: convert, deduct the fee,
      estimate the cost, subtract cost and fixed cost. */
  function Derive(price: real, p: Params): (b: Breakdown)
    ensures b.priceJpy == price * p.exchangeRate
    ensures b.profit == b.revenue - b.cost - p.fixedCost
    ensures b.profit == price * Margin(p) - p.fixedCost
    ensures b.revenue == b.priceJpy - b.priceJpy * p.feeRate
    ensures b.priceJpy * p.costRate == b.cost
  {
    var priceJpy := price * p.exchangeRate;
    var revenue := priceJpy * (1.0 - p.feeRate);
    var cost := priceJpy * p.costRate;
    Breakdown(priceJpy, revenue, cost, revenue - cost - p.fixedCost)
  }

  /** With a non-negative margin, a dearer listing never yields less profit. */
  lemma ProfitMonotone(a: real, b: real, p: Params)
    requires a <= b && Margin(p) >= 0.0
    ensures Derive(a, p).profit <= Derive(b, p).profit
  {
    assert (b - a) * Margin(p) >= 0.0;
  }

  /** The worked example: 1000 TWD at the configured rates gives 4800 JPY, 4320 revenue,
      2400 cost and 1720 profit. */
  lemma ConfigExample()
    ensures Derive(1000.0, ConfigParams) == Breakdown(4800.0, 4320.0, 2400.0, 1720.0)
  {
  }

  /** The derived columns of `row` are those of the parameter set `p`. */
  predicate Current(row: Listing, p: Params)
  {
    var b := Derive(row.price, p);
    row.priceJpy == b.priceJpy && row.revenue == b.revenue && row.cost == b.cost && row.profit == b.profit
  }

  /** `a` and `b` agree on every column except the four the dashboard recomputes. */
  predicate SameStored(a: Listing, b: Listing)
  {
    a.timestamp == b.timestamp && a.keyword == b.keyword && a.name == b.name &&
    a.price == b.price && a.sales == b.sales && a.shopRating == b.shopRating &&
    a.estimatedCostJpy == b.estimatedCostJpy && a.estimatedProfitJpy == b.estimatedProfitJpy
  }

  /** One row with its derived columns replaced. */
  function RecalculateRow(row: Listing, p: Params): (r: Listing)
    ensures Current(r, p) && SameStored(row, r)
  {
    var b := Derive(row.price, p);
    row.(priceJpy := b.priceJpy, revenue := b.revenue, cost := b.cost, profit := b.profit)
  }

  /** `columns` followed by those of `extra` it lacks (pandas appends a newly assigned
      column at the end and leaves an existing one where it is). */
  function AddColumns(columns: seq<Column>, extra: seq<Column>): (r: seq<Column>)
    ensures |r| >= |columns| && r[..|columns|] == columns
    ensures forall c :: c in r <==> c in columns || c in extra
    decreases |extra|
  {
    if extra == [] then columns
    else AddColumns(if extra[0] in columns then columns else columns + [extra[0]], extra[1..])
  }

  const DerivedColumns: seq<Column> := [PriceJpy, Revenue, Cost, Profit]

  /** Recomputes the dashboard's derived columns on a copy of the frame. */
  function RecalculateProfit(f: Frame, p: Params): (r: Frame)
    ensures |r.rows| == |f.rows|
    ensures forall i :: 0 <= i < |f.rows| ==> Current(r.rows[i], p) && SameStored(f.rows[i], r.rows[i])
    ensures |r.columns| >= |f.columns| && r.columns[..|f.columns|] == f.columns
    ensures forall c :: c in r.columns <==> c in f.columns || c in DerivedColumns
  {
    var rows := seq(|f.rows|, i requires 0 <= i < |f.rows| => RecalculateRow(f.rows[i], p));
    assert forall i :: 0 <= i < |f.rows| ==> rows[i] == RecalculateRow(f.rows[i], p);
    Frame(AddColumns(f.columns, DerivedColumns), rows)
  }

  /** Recomputing with the same parameters a second time changes nothing. */
  lemma RecalculateIdempotent(f: Frame, p: Params)
    ensures RecalculateProfit(RecalculateProfit(f, p), p) == RecalculateProfit(f, p)
  {
    RecalculateLastWins(f, p, p);
  }

  /** The result of recomputing depends only on the stored columns and the last
      parameters used: earlier parameter sets leave no trace. */
  lemma RecalculateLastWins(f: Frame, p: Params, q: Params)
    ensures RecalculateProfit(RecalculateProfit(f, p), q) == RecalculateProfit(f, q)
  {
    var once := RecalculateProfit(f, p);
    var twice := RecalculateProfit(once, q);
    var direct := RecalculateProfit(f, q);
    AddColumnsIdempotent(f.columns, DerivedColumns);
    assert twice.columns == direct.columns;
    forall i | 0 <= i < |f.rows|
      ensures twice.rows[i] == direct.rows[i]
    {
      assert once.rows[i].price == f.rows[i].price;
    }
  }

  /** Adding the same columns twice adds them once. */
  lemma {:induction false} AddColumnsIdempotent(columns: seq<Column>, extra: seq<Column>)
    ensures AddColumns(AddColumns(columns, extra), extra) == AddColumns(columns, extra)
    decreases |extra|
  {
    var r := AddColumns(columns, extra);
    AddColumnsPresent(r, extra);
  }

  lemma {:induction false} AddColumnsPresent(columns: seq<Column>, extra: seq<Column>)
    requires forall c :: c in extra ==> c in columns
    ensures AddColumns(columns, extra) == columns
    decreases |extra|
  {
    if extra != [] {
      assert forall c :: c in extra[1..] ==> c in extra;
      AddColumnsPresent(columns, extra[1..]);
    }
  }

  /** The dashboard's profit simulation for one product, written out in one line. It is
      the profit of the same formula. */
  function SimulatedProfit(price: real, p: Params): (r: real)
    ensures r == Derive(price, p).profit
  {
    price * p.exchangeRate * (1.0 - p.feeRate) - price * p.exchangeRate * p.costRate - p.fixedCost
  }

  /** Listing at `premium` instead of `price` changes profit by the price difference
      times the margin. */
  lemma PremiumGain(price: real, premium: real, p: Params)
    ensures SimulatedProfit(premium, p) - SimulatedProfit(price, p) == (premium - price) * Margin(p)
  {
  }

  /** Python's `round(x)` on an exact value: nearest integer, halves to the even one. */
  function RoundHalfEven(x: real): (r: int)
    ensures x - 0.5 <= r as real <= x + 0.5
    ensures x == x.Floor as real ==> r == x.Floor
  {
    var f := x.Floor;
    var d := x - f as real;
    if d < 0.5 then f
    else if d > 0.5 then f + 1
    else if f % 2 == 0 then f
    else f + 1
  }

  /** `round(x, 1)`: to the nearest tenth, halves to the even tenth. */
  function RoundTenths(x: real): (r: real)
    ensures x - 0.05 <= r <= x + 0.05
    ensures Integral(x * 10.0) ==> r == x
  {
    var n := RoundHalfEven(x * 10.0);
    n as real / 10.0
  }

  /** The scraper's stored profit columns. */
  datatype ProfitInfo = ProfitInfo(priceJpy: real, estimatedCostJpy: real, estimatedProfitJpy: real)

  predicate Integral(x: real)
  {
    x == x.Floor as real
  }

  /** The scraper's profit columns: the formula with the configured constants, each
      result rounded to a whole yen on its own. */
  function CalculateProfit(priceTwd: real): (info: ProfitInfo)
    ensures var b := Derive(priceTwd, ConfigParams);
      info == ProfitInfo(RoundHalfEven(b.priceJpy) as real, RoundHalfEven(b.cost) as real,
                         RoundHalfEven(b.profit) as real)
  {
    var priceJpy := priceTwd * ExchangeRate;
    var revenueAfterFee := priceJpy * (1.0 - SalesFeeRate);
    var estimatedCost := priceJpy * CostRate;
    var estimatedProfit := revenueAfterFee - estimatedCost - FixedCostJpy;
    ProfitInfo(RoundHalfEven(priceJpy) as real, RoundHalfEven(estimatedCost) as real,
               RoundHalfEven(estimatedProfit) as real)
  }

  /** Each stored column is a whole number of yen within half a yen of the unrounded
      formula with the configured constants; the profit is 1.92 yen per TWD less 200. */
  lemma CalculateProfitBounds(priceTwd: real)
    ensures var info := CalculateProfit(priceTwd);
      Integral(info.priceJpy) && Integral(info.estimatedCostJpy) && Integral(info.estimatedProfitJpy)
    ensures var info, b := CalculateProfit(priceTwd), Derive(priceTwd, ConfigParams);
      && b.priceJpy - 0.5 <= info.priceJpy <= b.priceJpy + 0.5
      && b.cost - 0.5 <= info.estimatedCostJpy <= b.cost + 0.5
      && b.profit - 0.5 <= info.estimatedProfitJpy <= b.profit + 0.5
    ensures priceTwd * 1.92 - 200.5 <= CalculateProfit(priceTwd).estimatedProfitJpy <= priceTwd * 1.92 - 199.5
  {
  }

  /** The worked example through the scraper: 1000 TWD is stored as 4800 / 2400 / 1720. */
  lemma CalculateProfitExample()
    ensures CalculateProfit(1000.0) == ProfitInfo(4800.0, 2400.0, 1720.0)
  {
    var info := CalculateProfit(1000.0);
    assert (4800.0).Floor == 4800;
    assert (2400.0).Floor == 2400;
    assert (1720.0).Floor == 1720;
  }
}
