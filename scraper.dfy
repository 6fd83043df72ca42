/** The scraper's ingestion: turning search-API items into product records, capping each
    keyword at a fixed number of products, assembling a sample batch, falling back to
    the samples when the live search collected nothing, and shaping the output table
    (fixed column order, new rows appended after the existing ones).

    HTTP responses are inputs: one outcome per keyword for the main search endpoint and
    one optional payload per fallback endpoint. The clock is the `now` parameter, the
    bundled sample products are an input sequence and the existing output file is an
    optional input frame. */
module Scraper {
  import opened Listings
  import Profit
  import Ranking

  const ProductsPerKeyword: nat := 30
  const NameLimit: nat := 100

  /** The search API quotes prices in units of 1/100000 TWD. */
  const PriceScale: real := 100000.0

  /** The fallback endpoints, tried in this order. */
  const WebEndpoints: seq<string> := ["https://shopee.tw/api/v4/search/search_items",
                                      "https://shopee.tw/api/v2/search_items/"]

  /** The fields of an API item the scraper reads; `None` is a missing key. */
  datatype ItemFields = ItemFields(
    name: Option<string>,
    price: Option<int>,
    priceMin: Option<int>,
    sold: Option<int>,
    historicalSold: Option<int>,
    shopRating: Option<real>,
    ratingStar: Option<real>)

  /** An item: its `item_basic` record when it has one, otherwise its own fields. */
  datatype Item = Item(itemBasic: Option<ItemFields>, fields: ItemFields)

  /** A decoded response: the top-level `items` list and the `data.items` list. */
  datatype ResponseData = ResponseData(items: Option<seq<Item>>, dataItems: Option<seq<Item>>)

  /** The main search call: a decoded 200 response, or anything else (403, another
      status, an exception), which sends the scraper to the fallback endpoints. */
  datatype ApiOutcome = Answered(data: ResponseData) | Failed

  /** A product record: its keys in insertion order (the record is a dictionary) and
      their values. Values of fields not among `keys` carry no meaning. */
  datatype Product = Product(keys: seq<Column>, row: Listing)

  function GetOr<T>(o: Option<T>, d: T): T
  {
    if o.Some? then o.value else d
  }

  function Basic(item: Item): ItemFields
  {
    if item.itemBasic.Some? then item.itemBasic.value else item.fields
  }

  function Scaled(raw: int): real
  {
    raw as real / PriceScale
  }

  /** The price in TWD, falling back to `price_min` only when the price is zero. */
  function ApiPrice(b: ItemFields): (price: real)
    ensures Scaled(GetOr(b.price, 0)) != 0.0 ==> price == Scaled(b.price.value)
    ensures Scaled(GetOr(b.price, 0)) == 0.0 ==> price == Scaled(GetOr(b.priceMin, 0))
  {
    var p := Scaled(GetOr(b.price, 0));
    if p == 0.0 then Scaled(GetOr(b.priceMin, 0)) else p
  }

  /** Units sold, falling back to `historical_sold` only when `sold` is zero. */
  function ApiSales(b: ItemFields): (sales: int)
    ensures b.sold.Some? && b.sold.value != 0 ==> sales == b.sold.value
    ensures (b.sold.None? || b.sold == Some(0)) ==> sales == GetOr(b.historicalSold, 0)
  {
    var s := GetOr(b.sold, 0);
    if s == 0 then GetOr(b.historicalSold, 0) else s
  }

  /** The shop rating, falling back to the item's star rating only when it is zero. */
  function ApiRating(b: ItemFields): (rating: real)
    ensures b.shopRating.Some? && b.shopRating.value != 0.0 ==> rating == b.shopRating.value
    ensures (b.shopRating.None? || b.shopRating == Some(0.0)) ==> rating == GetOr(b.ratingStar, 0.0)
  {
    var r := GetOr(b.shopRating, 0.0);
    if r == 0.0 then GetOr(b.ratingStar, 0.0) else r
  }

  /** The fallbacks apply only to a zero value: a non-zero `sold` is kept even when
      `historical_sold` is larger, and a zero one is replaced even when the key is
      present. */
  lemma SalesFallbackOnlyOnZero(b: ItemFields, s: int, h: int)
    requires s != 0
    ensures ApiSales(b.(sold := Some(s), historicalSold := Some(h))) == s
    ensures ApiSales(b.(sold := Some(0), historicalSold := Some(h))) == h
    ensures ApiRating(b.(shopRating := Some(0.0), ratingStar := Some(4.5))) == 4.5
  {
  }

  /** `s[:n]`. */
  function Truncate(s: string, n: nat): (r: string)
    ensures |r| == Ranking.Min(|s|, n) && r == s[..|r|]
  {
    if |s| <= n then s else s[..n]
  }

  /** The keys of a freshly extracted product, in the order the record lists them. */
  const ProductKeys: seq<Column> :=
    [Keyword, Name, Price, Sales, ShopRating, PriceJpy, EstimatedCostJpy, EstimatedProfitJpy]

  const ProfitKeys: seq<Column> := [PriceJpy, EstimatedCostJpy, EstimatedProfitJpy]

  function MakeProduct(keyword: string, name: string, price: real, sales: int, rating: real,
                       info: Profit.ProfitInfo): Product
  {
    Product(ProductKeys, Listing(0, keyword, name, price, sales, rating, info.priceJpy,
                                 info.estimatedCostJpy, info.estimatedProfitJpy, 0.0, 0.0, 0.0))
  }

  /** The main search keeps only items with a name other than the placeholder. */
  predicate NameOk(name: string)
  {
    name != [] && name != "N/A"
  }

  /** What every product of the main search satisfies. */
  predicate Emitted(p: Product, keyword: string)
  {
    p.keys == ProductKeys && p.row.keyword == keyword && |p.row.name| <= NameLimit
  }

  /** One item of the main search: dropped when its name is missing, empty or "N/A";
      otherwise the name cut to 100 characters, the price and rating rounded, and the
      profit columns computed from the unrounded price. */
  function ApiProduct(keyword: string, item: Item): (p: Option<Product>)
    ensures p.Some? <==> NameOk(GetOr(Basic(item).name, "N/A"))
    ensures p.Some? ==> Emitted(p.value, keyword) && NameOk(p.value.row.name)
    ensures p.Some? ==>
      var b := Basic(item);
      && b.name.Some? && p.value.row.name == Truncate(b.name.value, NameLimit)
      && p.value.row.sales == ApiSales(b)
      && p.value.row.shopRating == Profit.RoundTenths(ApiRating(b))
    ensures p.Some? ==>
      var price := ApiPrice(Basic(item));
      var info := Profit.CalculateProfit(price);
      && price - 0.5 <= p.value.row.price <= price + 0.5
      && Profit.Integral(p.value.row.price)
      && p.value.row.priceJpy == info.priceJpy
      && p.value.row.estimatedCostJpy == info.estimatedCostJpy
      && p.value.row.estimatedProfitJpy == info.estimatedProfitJpy
  {
    var b := Basic(item);
    var name := GetOr(b.name, "N/A");
    var price := ApiPrice(b);
    if NameOk(name) then
      var short := Truncate(name, NameLimit);
      assert short == "N/A" ==> name == "N/A";
      Some(MakeProduct(keyword, short, Profit.RoundHalfEven(price) as real, ApiSales(b),
                       Profit.RoundTenths(ApiRating(b)), Profit.CalculateProfit(price)))
    else None
  }

  function OptSeq(o: Option<Product>): (r: seq<Product>)
    ensures |r| <= 1 && forall p :: p in r <==> o == Some(p)
  {
    if o.Some? then [o.value] else []
  }

  /** The products the main search extracts from `items`, in order. */
  function ApiProducts(keyword: string, items: seq<Item>): (ps: seq<Product>)
    ensures |ps| <= |items|
    ensures forall p :: p in ps ==> Emitted(p, keyword) && NameOk(p.row.name)
  {
    if items == [] then []
    else ApiProducts(keyword, items[..|items| - 1]) + OptSeq(ApiProduct(keyword, items[|items| - 1]))
  }

  lemma ConcatAssoc<T>(x: seq<T>, y: seq<T>, z: seq<T>)
    ensures (x + y) + z == x + (y + z)
  {
  }

  lemma Pointwise<T>(x: seq<T>, y: seq<T>)
    requires |x| == |y| && forall i :: 0 <= i < |x| ==> x[i] == y[i]
    ensures x == y
  {
  }

  lemma ConsMultiset<T>(s: seq<T>)
    requires |s| > 0
    ensures multiset(s) == multiset([s[0]]) + multiset(s[1..])
  {
    assert s == [s[0]] + s[1..];
  }

  lemma SnocSplit<T>(s: seq<T>)
    requires |s| > 0
    ensures s == s[..|s| - 1] + [s[|s| - 1]]
  {
  }

  lemma ApiProductsSnoc(keyword: string, items: seq<Item>, item: Item)
    ensures ApiProducts(keyword, items + [item]) == ApiProducts(keyword, items) + OptSeq(ApiProduct(keyword, item))
  {
    assert (items + [item])[..|items|] == items;
  }

  /** The products of two runs of items are those of each run, in order. */
  lemma {:induction false} ApiProductsAppend(keyword: string, a: seq<Item>, b: seq<Item>)
    ensures ApiProducts(keyword, a + b) == ApiProducts(keyword, a) + ApiProducts(keyword, b)
    decreases |b|
  {
    if b == [] {
      assert a + b == a;
    } else {
      var n := |b| - 1;
      var init, last := b[..n], b[n];
      ApiProductsAppend(keyword, a, init);
      SnocSplit(b);
      ConcatAssoc(a, init, [last]);
      ApiProductsSnoc(keyword, a + init, last);
      ApiProductsSnoc(keyword, init, last);
      ConcatAssoc(ApiProducts(keyword, a), ApiProducts(keyword, init), OptSeq(ApiProduct(keyword, last)));
    }
  }

  /** A product comes from an item exactly when that item has a real name: every such
      item contributes its product and nothing else is emitted. */
  lemma {:induction false} ApiProductsMembers(keyword: string, items: seq<Item>)
    ensures forall i :: 0 <= i < |items| && ApiProduct(keyword, items[i]).Some? ==>
      ApiProduct(keyword, items[i]).value in ApiProducts(keyword, items)
    ensures forall p :: p in ApiProducts(keyword, items) ==>
      exists i :: 0 <= i < |items| && ApiProduct(keyword, items[i]) == Some(p)
  {
    if items != [] {
      var n := |items| - 1;
      ApiProductsMembers(keyword, items[..n]);
      assert forall i :: 0 <= i < n ==> items[..n][i] == items[i];
    }
  }

  /** One item of a fallback endpoint: no name filter, the price not rounded, `sold`
      whenever the key is present (even at zero), and no star-rating fallback. */
  function WebProduct(keyword: string, item: Item): (p: Product)
    ensures Emitted(p, keyword)
  {
    var b := Basic(item);
    var price := Scaled(GetOr(b.price, 0));
    var sales := if b.sold.Some? then b.sold.value else GetOr(b.historicalSold, 0);
    MakeProduct(keyword, Truncate(GetOr(b.name, "N/A"), NameLimit), price, sales,
                Profit.RoundTenths(GetOr(b.shopRating, 0.0)), Profit.CalculateProfit(price))
  }

  /** A fallback product carries the item's name or "N/A" cut to 100 characters, the
      exact price, `sold` whenever that key is present (even at zero) and otherwise
      `historical_sold`, the shop rating rounded to a tenth without the star-rating
      fallback, and the profit columns of its own price. */
  lemma WebProductFields(keyword: string, item: Item)
    ensures var p, b := WebProduct(keyword, item), Basic(item);
      && p.row.name == Truncate(GetOr(b.name, "N/A"), NameLimit)
      && p.row.price == Scaled(GetOr(b.price, 0))
      && p.row.sales == (if b.sold.Some? then b.sold.value else GetOr(b.historicalSold, 0))
      && p.row.shopRating == Profit.RoundTenths(GetOr(b.shopRating, 0.0))
    ensures var p := WebProduct(keyword, item);
      var info := Profit.CalculateProfit(p.row.price);
      && p.row.priceJpy == info.priceJpy && p.row.estimatedCostJpy == info.estimatedCostJpy
      && p.row.estimatedProfitJpy == info.estimatedProfitJpy
  {
  }

  function WebProducts(keyword: string, items: seq<Item>): (ps: seq<Product>)
    ensures |ps| == |items|
    ensures forall i :: 0 <= i < |items| ==> ps[i] == WebProduct(keyword, items[i])
    ensures forall p :: p in ps ==> Emitted(p, keyword)
  {
    seq(|items|, i requires 0 <= i < |items| => WebProduct(keyword, items[i]))
  }

  /** `items[:30]`. */
  function Cap(items: seq<Item>): (r: seq<Item>)
    ensures |r| == Ranking.Min(ProductsPerKeyword, |items|) && r == items[..|r|]
  {
    items[..Ranking.Min(ProductsPerKeyword, |items|)]
  }

  /** The main search reads `items`, and `data.items` when that is missing or empty. */
  function ApiItems(data: ResponseData): (items: seq<Item>)
    ensures data.items.Some? && data.items.value != [] ==> items == data.items.value
    ensures (data.items.None? || data.items == Some([])) ==> items == GetOr(data.dataItems, [])
  {
    if data.items.Some? && data.items.value != [] then data.items.value
    else GetOr(data.dataItems, [])
  }

  /** A fallback endpoint reads `data.items` only when `items` is missing. */
  function WebItems(data: ResponseData): (items: seq<Item>)
    ensures data.items.Some? ==> items == data.items.value
    ensures data.items.None? ==> items == GetOr(data.dataItems, [])
  {
    if data.items.Some? then data.items.value else GetOr(data.dataItems, [])
  }

  /** The two readings differ only on an empty top-level list: the main search then
      reads `data.items`, a fallback endpoint reads nothing. */
  lemma ItemsReadings(data: ResponseData)
    ensures data.items != Some([]) ==> ApiItems(data) == WebItems(data)
    ensures data.items == Some([]) ==> WebItems(data) == [] && ApiItems(data) == GetOr(data.dataItems, [])
  {
  }

  /** An endpoint that answered with at least one item. */
  predicate Hit(r: Option<ResponseData>)
  {
    r.Some? && WebItems(r.value) != []
  }

  /** The fallback search: the products of the first endpoint that answered with items,
      none when no endpoint did. */
  function WebResult(keyword: string, web: seq<Option<ResponseData>>): (ps: seq<Product>)
    ensures |ps| <= ProductsPerKeyword
    ensures forall p :: p in ps ==> Emitted(p, keyword)
  {
    if web == [] then []
    else if Hit(web[0]) then WebProducts(keyword, Cap(WebItems(web[0].value)))
    else WebResult(keyword, web[1..])
  }

  /** The fallback search finds something exactly when some endpoint answered with
      items. */
  lemma {:induction false} WebResultHit(keyword: string, web: seq<Option<ResponseData>>)
    ensures WebResult(keyword, web) != [] <==> exists e :: 0 <= e < |web| && Hit(web[e])
  {
    if web != [] && !Hit(web[0]) {
      WebResultHit(keyword, web[1..]);
      assert forall e :: 0 < e < |web| ==> web[e] == web[1..][e - 1];
    }
  }

  /** The products one keyword's search yields. */
  /** At most 30 products per keyword, each tagged with the keyword and named in at most
      100 characters; when the main search answered, every name is a real one. */
  function SearchResult(keyword: string, outcome: ApiOutcome, web: seq<Option<ResponseData>>): (ps: seq<Product>)
    ensures |ps| <= ProductsPerKeyword
    ensures forall p :: p in ps ==> Emitted(p, keyword)
    ensures outcome.Answered? ==> forall p :: p in ps ==> NameOk(p.row.name)
  {
    match outcome
    case Answered(data) => ApiProducts(keyword, Cap(ApiItems(data)))
    case Failed => WebResult(keyword, web)
  }

  /** The fallback path does not filter names: an item without a name comes back as a
      product named "N/A" when the main search failed. */
  lemma FallbackKeepsPlaceholderName(keyword: string, item: Item)
    requires Basic(item).name == None
    ensures SearchResult(keyword, Failed, [Some(ResponseData(Some([item]), None)), None])[0].row.name == "N/A"
    ensures SearchResult(keyword, Answered(ResponseData(Some([item]), None)), []) == []
  {
    assert Cap([item]) == [item];
    assert ApiProducts(keyword, [item]) == ApiProducts(keyword, []) + OptSeq(ApiProduct(keyword, item));
  }

  /** For an item with a name and non-zero price, sales and shop rating, both paths
      agree on name, sales, rating and profit columns; the main search rounds the price
      the fallback keeps exact. */
  lemma ApiWebAgree(keyword: string, item: Item)
    requires NameOk(GetOr(Basic(item).name, "N/A"))
    requires GetOr(Basic(item).price, 0) != 0 && GetOr(Basic(item).sold, 0) != 0
    requires GetOr(Basic(item).shopRating, 0.0) != 0.0
    ensures ApiProduct(keyword, item).Some?
    ensures var a, w := ApiProduct(keyword, item).value, WebProduct(keyword, item);
      && a.keys == w.keys
      && a.row == w.row.(price := a.row.price)
      && a.row.price == Profit.RoundHalfEven(w.row.price) as real
  {
    var b := Basic(item);
    assert Scaled(GetOr(b.price, 0)) != 0.0;
  }

  /** The main search over the first 30 items. */
  method ExtractProducts(keyword: string, items: seq<Item>) returns (products: seq<Product>)
    ensures products == ApiProducts(keyword, Cap(items))
  {
    var capped := Cap(items);
    products := [];
    var i := 0;
    while i < |capped|
      invariant 0 <= i <= |capped|
      invariant products == ApiProducts(keyword, capped[..i])
    {
      var p := ApiProduct(keyword, capped[i]);
      if p.Some? {
        products := products + [p.value];
      }
      assert capped[..i + 1][..i] == capped[..i];
      i := i + 1;
    }
    assert capped[..i] == capped;
  }

  /** A fallback endpoint's first 30 items. */
  method ExtractWebProducts(keyword: string, items: seq<Item>) returns (products: seq<Product>)
    ensures products == WebProducts(keyword, Cap(items))
  {
    var capped := Cap(items);
    products := [];
    var j := 0;
    while j < |capped|
      invariant 0 <= j <= |capped|
      invariant |products| == j
      invariant forall t :: 0 <= t < j ==> products[t] == WebProduct(keyword, capped[t])
    {
      products := products + [WebProduct(keyword, capped[j])];
      j := j + 1;
    }
    Pointwise(products, WebProducts(keyword, capped));
  }

  /** The fallback search: endpoints in order, stopping at the first that answers with
      items. */
  method SearchViaWeb(keyword: string, web: seq<Option<ResponseData>>) returns (products: seq<Product>)
    requires |web| == |WebEndpoints|
    ensures products == WebResult(keyword, web)
  {
    products := [];
    var e := 0;
    while e < |web|
      invariant 0 <= e <= |web|
      invariant WebResult(keyword, web) == WebResult(keyword, web[e..])
    {
      if web[e].Some? {
        var items := WebItems(web[e].value);
        if items != [] {
          products := ExtractWebProducts(keyword, items);
          assert web[e..][0] == web[e];
          return;
        }
      }
      assert web[e..][1..] == web[e + 1..];
      e := e + 1;
    }
  }

  /** One keyword's search: the main endpoint, or the fallback endpoints when it fails. */
  method SearchProducts(keyword: string, outcome: ApiOutcome, web: seq<Option<ResponseData>>)
    returns (products: seq<Product>)
    requires |web| == |WebEndpoints|
    ensures products == SearchResult(keyword, outcome, web)
    ensures |products| <= ProductsPerKeyword
    ensures forall p :: p in products ==> Emitted(p, keyword)
  {
    match outcome
    case Answered(data) =>
      products := ExtractProducts(keyword, ApiItems(data));
    case Failed =>
      products := SearchViaWeb(keyword, web);
  }

  /** `product["timestamp"] = now`: the key is appended when new, the value replaced. */
  function Stamp(p: Product, now: int): (r: Product)
    ensures Timestamp in r.keys && r.row == p.row.(timestamp := now)
    ensures |r.keys| >= |p.keys| && r.keys[..|p.keys|] == p.keys
    ensures forall c :: c in r.keys <==> c in p.keys || c == Timestamp
  {
    Product(Profit.AddColumns(p.keys, [Timestamp]), p.row.(timestamp := now))
  }

  /** The keys of a refreshed sample record: the old keys in order, then the profit keys
      and the timestamp that were missing. */
  function RefreshedKeys(keys: seq<Column>): (r: seq<Column>)
    ensures |r| >= |keys| && r[..|keys|] == keys
    ensures forall c :: c in r <==> c in keys || c in ProfitKeys || c == Timestamp
  {
    AddColumnsTwice(keys, ProfitKeys, [Timestamp]);
    Profit.AddColumns(Profit.AddColumns(keys, ProfitKeys), [Timestamp])
  }

  lemma AddColumnsTwice(keys: seq<Column>, first: seq<Column>, second: seq<Column>)
    ensures var all := Profit.AddColumns(Profit.AddColumns(keys, first), second);
      && |all| >= |keys| && all[..|keys|] == keys
      && forall c :: c in all <==> c in keys || c in first || c in second
  {
    var mid := Profit.AddColumns(keys, first);
    var all := Profit.AddColumns(mid, second);
    assert all[..|keys|] == all[..|mid|][..|keys|];
  }

  /** A sample record after `product.update(profit_info)` and the timestamp. */
  function Refresh(p: Product, now: int): (r: Product)
    ensures Timestamp in r.keys && forall c :: c in ProfitKeys ==> c in r.keys
    ensures |r.keys| >= |p.keys| && r.keys[..|p.keys|] == p.keys
    ensures forall c :: c in r.keys <==> c in p.keys || c in ProfitKeys || c == Timestamp
    ensures var info := Profit.CalculateProfit(p.row.price);
      r.row == p.row.(timestamp := now, priceJpy := info.priceJpy,
                      estimatedCostJpy := info.estimatedCostJpy,
                      estimatedProfitJpy := info.estimatedProfitJpy)
  {
    var info := Profit.CalculateProfit(p.row.price);
    Product(RefreshedKeys(p.keys),
            p.row.(timestamp := now, priceJpy := info.priceJpy,
                   estimatedCostJpy := info.estimatedCostJpy,
                   estimatedProfitJpy := info.estimatedProfitJpy))
  }

  /** The samples recorded under `keyword`, in order. */
  function Matching(samples: seq<Product>, keyword: string): (r: seq<Product>)
    ensures |r| <= |samples|
    ensures forall p :: p in r <==> p in samples && p.row.keyword == keyword
  {
    if samples == [] then []
    else (if samples[0].row.keyword == keyword then [samples[0]] else []) + Matching(samples[1..], keyword)
  }

  /** Matching a concatenation matches each part, in order. */
  lemma {:induction false} MatchingAppend(a: seq<Product>, b: seq<Product>, keyword: string)
    ensures Matching(a + b, keyword) == Matching(a, keyword) + Matching(b, keyword)
  {
    if a == [] {
      assert a + b == b;
    } else {
      assert (a + b)[1..] == a[1..] + b;
      MatchingAppend(a[1..], b, keyword);
      ConcatAssoc(if a[0].row.keyword == keyword then [a[0]] else [], Matching(a[1..], keyword), Matching(b, keyword));
    }
  }

  /** Every sample of the keyword is kept as often as it occurs; no other sample is. */
  lemma {:induction false} MatchingMultiset(samples: seq<Product>, keyword: string, x: Product)
    ensures multiset(Matching(samples, keyword))[x] == if x.row.keyword == keyword then multiset(samples)[x] else 0
  {
    if samples != [] {
      var h := if samples[0].row.keyword == keyword then [samples[0]] else [];
      MatchingMultiset(samples[1..], keyword, x);
      ConsMultiset(samples);
      assert multiset(Matching(samples, keyword)) == multiset(h) + multiset(Matching(samples[1..], keyword));
    }
  }

  /** Sample mode for one keyword: its first 30 samples, refreshed and stamped. */
  function SampleFor(samples: seq<Product>, keyword: string, now: int): (r: seq<Product>)
    ensures |r| == Ranking.Min(ProductsPerKeyword, |Matching(samples, keyword)|)
    ensures forall j :: 0 <= j < |r| ==> r[j] == Refresh(Matching(samples, keyword)[j], now)
  {
    var m := Matching(samples, keyword);
    seq(Ranking.Min(ProductsPerKeyword, |m|), j requires 0 <= j < Ranking.Min(ProductsPerKeyword, |m|) => Refresh(m[j], now))
  }

  /** Every sample-mode product of a keyword has that keyword, the run's timestamp and
      the profit of its own price. */
  lemma SampleForFacts(samples: seq<Product>, keyword: string, now: int)
    ensures forall p :: p in SampleFor(samples, keyword, now) ==>
      && p.row.keyword == keyword && p.row.timestamp == now && Timestamp in p.keys
      && p.row.estimatedProfitJpy == Profit.CalculateProfit(p.row.price).estimatedProfitJpy
  {
    var m := Matching(samples, keyword);
    var r := SampleFor(samples, keyword, now);
    forall p | p in r
      ensures p.row.keyword == keyword
    {
      var j :| 0 <= j < |r| && r[j] == p;
      assert m[j] in m;
    }
  }

  /** Sample mode over all keywords, in keyword order; no keyword contributes more
      than 30. */
  function SampleBatch(keywords: seq<string>, samples: seq<Product>, now: int): (ps: seq<Product>)
    ensures |ps| <= ProductsPerKeyword * |keywords|
  {
    if keywords == [] then []
    else SampleBatch(keywords[..|keywords| - 1], samples, now) + SampleFor(samples, keywords[|keywords| - 1], now)
  }

  function StampAll(ps: seq<Product>, now: int): (r: seq<Product>)
    ensures |r| == |ps| && forall j :: 0 <= j < |ps| ==> r[j] == Stamp(ps[j], now)
  {
    seq(|ps|, j requires 0 <= j < |ps| => Stamp(ps[j], now))
  }

  /** Each keyword's search results, in keyword order. */
  function Results(keywords: seq<string>, outcomes: seq<ApiOutcome>, webs: seq<seq<Option<ResponseData>>>)
    : (rs: seq<seq<Product>>)
    requires |outcomes| == |keywords| && |webs| == |keywords|
    ensures |rs| == |keywords|
    ensures forall i :: 0 <= i < |keywords| ==> rs[i] == SearchResult(keywords[i], outcomes[i], webs[i])
  {
    seq(|keywords|, i requires 0 <= i < |keywords| => SearchResult(keywords[i], outcomes[i], webs[i]))
  }

  /** The result lists stamped and joined in order. */
  function Flatten(rs: seq<seq<Product>>, now: int): seq<Product>
  {
    if rs == [] then [] else Flatten(rs[..|rs| - 1], now) + StampAll(rs[|rs| - 1], now)
  }

  /** Live mode over all keywords: each keyword's search results, stamped. */
  function ApiBatch(keywords: seq<string>, outcomes: seq<ApiOutcome>, webs: seq<seq<Option<ResponseData>>>,
                    now: int): (ps: seq<Product>)
    requires |outcomes| == |keywords| && |webs| == |keywords|
    ensures |ps| <= ProductsPerKeyword * |keywords|
  {
    var rs := Results(keywords, outcomes, webs);
    FlattenLength(rs, now, ProductsPerKeyword);
    Flatten(rs, now)
  }

  lemma FlattenStep(rs: seq<seq<Product>>, now: int, i: nat)
    requires i < |rs|
    ensures Flatten(rs[..i + 1], now) == Flatten(rs[..i], now) + StampAll(rs[i], now)
  {
    assert rs[..i + 1][..i] == rs[..i];
  }

  /** Joining stamps nothing in and loses nothing: it is empty exactly when every list
      is. */
  lemma {:induction false} FlattenEmpty(rs: seq<seq<Product>>, now: int)
    ensures Flatten(rs, now) == [] <==> forall i :: 0 <= i < |rs| ==> rs[i] == []
  {
    if rs != [] {
      var n := |rs| - 1;
      FlattenEmpty(rs[..n], now);
      assert |StampAll(rs[n], now)| == |rs[n]|;
      assert forall i :: 0 <= i < n ==> rs[..n][i] == rs[i];
    }
  }

  /** Lists of at most `m` records join to at most `m` per list. */
  lemma {:induction false} FlattenLength(rs: seq<seq<Product>>, now: int, m: nat)
    requires forall i :: 0 <= i < |rs| ==> |rs[i]| <= m
    ensures |Flatten(rs, now)| <= m * |rs|
  {
    if rs != [] {
      var n := |rs| - 1;
      assert forall i :: 0 <= i < n ==> rs[..n][i] == rs[i];
      FlattenLength(rs[..n], now, m);
      assert |StampAll(rs[n], now)| == |rs[n]|;
      assert m * n + m == m * |rs|;
    }
  }

  /** Every joined record is a stamped record of one of the lists. */
  lemma {:induction false} FlattenMembers(rs: seq<seq<Product>>, now: int)
    ensures forall p :: p in Flatten(rs, now) ==>
      exists i, q :: 0 <= i < |rs| && q in rs[i] && p == Stamp(q, now)
  {
    if rs != [] {
      var n := |rs| - 1;
      FlattenMembers(rs[..n], now);
      assert forall i :: 0 <= i < n ==> rs[..n][i] == rs[i];
      var last := StampAll(rs[n], now);
      forall p | p in last
        ensures exists q :: q in rs[n] && p == Stamp(q, now)
      {
        var j :| 0 <= j < |last| && last[j] == p;
        assert rs[n][j] in rs[n];
      }
    }
  }

  lemma SampleBatchStep(keywords: seq<string>, samples: seq<Product>, now: int, i: nat)
    requires i < |keywords|
    ensures SampleBatch(keywords[..i + 1], samples, now)
         == SampleBatch(keywords[..i], samples, now) + SampleFor(samples, keywords[i], now)
  {
    assert keywords[..i + 1][..i] == keywords[..i];
  }

  /** Every sample-mode product belongs to a requested keyword, carries the run's
      timestamp and the profit columns of its own price. */
  lemma {:induction false} SampleBatchFacts(keywords: seq<string>, samples: seq<Product>, now: int)
    ensures forall p :: p in SampleBatch(keywords, samples, now) ==>
      && p.row.keyword in keywords && p.row.timestamp == now && Timestamp in p.keys
      && p.row.estimatedProfitJpy == Profit.CalculateProfit(p.row.price).estimatedProfitJpy
  {
    if keywords != [] {
      var n := |keywords| - 1;
      var k := keywords[n];
      var init, last := SampleBatch(keywords[..n], samples, now), SampleFor(samples, k, now);
      assert SampleBatch(keywords, samples, now) == init + last;
      SampleBatchFacts(keywords[..n], samples, now);
      SampleForFacts(samples, k, now);
      forall p: Product | p in init + last
        ensures p.row.keyword in keywords
      {
        if p in init {
          assert p.row.keyword in keywords[..n];
        }
      }
    }
  }

  /** Every live-mode product belongs to a requested keyword, carries the run's
      timestamp and a name of at most 100 characters. */
  lemma ApiBatchFacts(keywords: seq<string>, outcomes: seq<ApiOutcome>,
                      webs: seq<seq<Option<ResponseData>>>, now: int)
    requires |outcomes| == |keywords| && |webs| == |keywords|
    ensures forall p :: p in ApiBatch(keywords, outcomes, webs, now) ==>
      p.row.keyword in keywords && p.row.timestamp == now && |p.row.name| <= NameLimit && Timestamp in p.keys
  {
    var rs := Results(keywords, outcomes, webs);
    assert forall i :: 0 <= i < |rs| ==> forall q :: q in rs[i] ==> Emitted(q, keywords[i]);
    FlattenMembers(rs, now);
  }

  /** Live mode collects nothing exactly when every keyword's search came back empty. */
  lemma ApiBatchEmpty(keywords: seq<string>, outcomes: seq<ApiOutcome>,
                      webs: seq<seq<Option<ResponseData>>>, now: int)
    requires |outcomes| == |keywords| && |webs| == |keywords|
    ensures ApiBatch(keywords, outcomes, webs, now) == [] <==>
      forall i :: 0 <= i < |keywords| ==> SearchResult(keywords[i], outcomes[i], webs[i]) == []
  {
    FlattenEmpty(Results(keywords, outcomes, webs), now);
  }

  /** The products a run leaves in the scraper: sample mode adds the sample batch; live
      mode adds what the searches found, and only when the scraper then holds nothing at
      all does it add the sample batch instead. */
  function Collected(before: seq<Product>, keywords: seq<string>, useSample: bool, samples: seq<Product>,
                     outcomes: seq<ApiOutcome>, webs: seq<seq<Option<ResponseData>>>, now: int): (ps: seq<Product>)
    requires |outcomes| == |keywords| && |webs| == |keywords|
    ensures useSample ==> ps == before + SampleBatch(keywords, samples, now)
    ensures before <= ps
    ensures ps == [] ==> SampleBatch(keywords, samples, now) == []
  {
    if useSample then before + SampleBatch(keywords, samples, now)
    else
      var fetched := before + ApiBatch(keywords, outcomes, webs, now);
      if fetched == [] then SampleBatch(keywords, samples, now) else fetched
  }

  /** The samples stand in for live data only when live mode found nothing for any
      keyword and the scraper held no products from an earlier run. */
  lemma FallbackOnlyWhenEmpty(before: seq<Product>, keywords: seq<string>, samples: seq<Product>,
                              outcomes: seq<ApiOutcome>, webs: seq<seq<Option<ResponseData>>>, now: int)
    requires |outcomes| == |keywords| && |webs| == |keywords|
    ensures (before != [] || exists i :: 0 <= i < |keywords| && SearchResult(keywords[i], outcomes[i], webs[i]) != []) ==>
      Collected(before, keywords, false, samples, outcomes, webs, now) == before + ApiBatch(keywords, outcomes, webs, now)
    ensures (before == [] && forall i :: 0 <= i < |keywords| ==> SearchResult(keywords[i], outcomes[i], webs[i]) == []) ==>
      Collected(before, keywords, false, samples, outcomes, webs, now) == SampleBatch(keywords, samples, now)
  {
    ApiBatchEmpty(keywords, outcomes, webs, now);
  }

  /** The output columns, in this order, as far as the table has them. */
  const ColumnsOrder: seq<Column> :=
    [Timestamp, Keyword, Name, Price, Sales, ShopRating, PriceJpy, EstimatedCostJpy, EstimatedProfitJpy]

  /** The columns of `order` that `cols` has, in the order of `order`. */
  function Project(order: seq<Column>, cols: seq<Column>): (r: seq<Column>)
    ensures |r| <= |order|
    ensures forall c :: c in r <==> c in order && c in cols
    ensures NoDup(order) ==> NoDup(r)
  {
    if order == [] then []
    else
      var rest := Project(order[1..], cols);
      var r := (if order[0] in cols then [order[0]] else []) + rest;
      assert NoDup(order) ==> NoDup(r) by {
        if NoDup(order) {
          assert order[0] !in order[1..];
          assert forall i, j :: 0 <= i < j < |order[1..]| ==> order[1..][i] != order[1..][j];
        }
      }
      r
  }

  /** Projection keeps the order of `order`: projecting a concatenation projects each
      part, in order, so a column of an earlier part precedes every kept column of a
      later one. */
  lemma {:induction false} ProjectAppend(a: seq<Column>, b: seq<Column>, cols: seq<Column>)
    ensures Project(a + b, cols) == Project(a, cols) + Project(b, cols)
  {
    if a == [] {
      assert a + b == b;
    } else {
      assert (a + b)[1..] == a[1..] + b;
      ProjectAppend(a[1..], b, cols);
      ConcatAssoc(if a[0] in cols then [a[0]] else [], Project(a[1..], cols), Project(b, cols));
    }
  }

  /** A table holding every output column projects to exactly the fixed order. */
  lemma {:induction false} ProjectFull(order: seq<Column>, cols: seq<Column>)
    requires forall c :: c in order ==> c in cols
    ensures Project(order, cols) == order
  {
    if order != [] {
      ProjectFull(order[1..], cols);
    }
  }

  /** The columns of `pd.DataFrame(records)`: every key, in order of first appearance. */
  function KeyUnion(ps: seq<Product>): (cols: seq<Column>)
    ensures forall c :: c in cols <==> exists p :: p in ps && c in p.keys
  {
    if ps == [] then []
    else
      var n := |ps| - 1;
      var cols := Profit.AddColumns(KeyUnion(ps[..n]), ps[n].keys);
      assert forall p :: p in ps <==> p in ps[..n] || p == ps[n];
      cols
  }

  function Rows(ps: seq<Product>): (rows: seq<Listing>)
    ensures |rows| == |ps| && forall j :: 0 <= j < |ps| ==> rows[j] == ps[j].row
  {
    seq(|ps|, j requires 0 <= j < |ps| => ps[j].row)
  }

  function ToFrame(ps: seq<Product>): Frame
  {
    Frame(KeyUnion(ps), Rows(ps))
  }

  /** pandas' `empty`: no rows or no columns. */
  predicate Empty(f: Frame)
  {
    f.rows == [] || f.columns == []
  }

  /** Whether the run writes the output file. */
  predicate Saves(ps: seq<Product>)
  {
    !Empty(ToFrame(ps))
  }

  /** The table a run returns (and, when it saves, writes): the collected products
      projected onto the output columns, after the existing rows when there are any. */
  function Output(ps: seq<Product>, existing: Option<Frame>): (df: Frame)
    ensures !Saves(ps) ==> df == ToFrame(ps)
    ensures Saves(ps) && existing.None? ==> df.rows == Rows(ps) && df.columns == Project(ColumnsOrder, KeyUnion(ps))
    ensures Saves(ps) && existing.Some? ==>
      && df.rows == existing.value.rows + Rows(ps)
      && |df.columns| >= |existing.value.columns|
      && df.columns[..|existing.value.columns|] == existing.value.columns
      && forall c :: c in df.columns <==> c in existing.value.columns || (c in ColumnsOrder && c in KeyUnion(ps))
  {
    var df := ToFrame(ps);
    if Empty(df) then df
    else
      var projected := Frame(Project(ColumnsOrder, df.columns), df.rows);
      if existing.Some? then Frame(Profit.AddColumns(existing.value.columns, projected.columns),
                                   existing.value.rows + projected.rows)
      else projected
  }

  /** Appending keeps the existing rows as a prefix and adds one row per product; a run
      with no products saves nothing. */
  lemma OutputAppends(ps: seq<Product>, existing: Frame)
    ensures Saves(ps) ==> |Output(ps, Some(existing)).rows| == |existing.rows| + |ps|
    ensures Saves(ps) ==> Output(ps, Some(existing)).rows[..|existing.rows|] == existing.rows
    ensures ps == [] ==> !Saves(ps)
  {
    if Saves(ps) {
      var df := Output(ps, Some(existing));
      assert df.rows[..|existing.rows|] == existing.rows;
    }
  }

  /** One keyword in sample mode: copies of its samples, the first 30 refreshed in
      place. */
  method SampleProducts(samples: seq<Product>, keyword: string, now: int) returns (first: seq<Product>)
    ensures first == SampleFor(samples, keyword, now)
  {
    var keywordProducts := Matching(samples, keyword);
    first := keywordProducts[..Ranking.Min(ProductsPerKeyword, |keywordProducts|)];
    var j := 0;
    while j < |first|
      invariant 0 <= j <= |first| == Ranking.Min(ProductsPerKeyword, |keywordProducts|)
      invariant forall t :: 0 <= t < |first| ==>
        first[t] == if t < j then Refresh(keywordProducts[t], now) else keywordProducts[t]
    {
      first := first[j := Refresh(first[j], now)];
      j := j + 1;
    }
  }

  /** Sets the timestamp of each record in place. */
  method StampProducts(found: seq<Product>, now: int) returns (products: seq<Product>)
    ensures products == StampAll(found, now)
  {
    products := found;
    var j := 0;
    while j < |products|
      invariant 0 <= j <= |products| == |found|
      invariant forall t :: 0 <= t < |products| ==>
        products[t] == if t < j then Stamp(found[t], now) else found[t]
    {
      products := products[j := Stamp(products[j], now)];
      j := j + 1;
    }
  }

  /** Sample mode: for each keyword in order, the first 30 samples of that keyword,
      refreshed and stamped. */
  method SampleRun(keywords: seq<string>, samples: seq<Product>, now: int) returns (added: seq<Product>)
    ensures added == SampleBatch(keywords, samples, now)
  {
    added := [];
    var i := 0;
    while i < |keywords|
      invariant 0 <= i <= |keywords|
      invariant added == SampleBatch(keywords[..i], samples, now)
    {
      var first := SampleProducts(samples, keywords[i], now);
      SampleBatchStep(keywords, samples, now, i);
      added := added + first;
      i := i + 1;
    }
    assert keywords[..i] == keywords;
  }

  /** Live mode: each keyword's search results, stamped in place. */
  method LiveRun(keywords: seq<string>, outcomes: seq<ApiOutcome>, webs: seq<seq<Option<ResponseData>>>, now: int)
    returns (added: seq<Product>)
    requires |outcomes| == |keywords| && |webs| == |keywords|
    requires forall w :: w in webs ==> |w| == |WebEndpoints|
    ensures added == ApiBatch(keywords, outcomes, webs, now)
  {
    var rs := Results(keywords, outcomes, webs);
    added := [];
    var i := 0;
    while i < |keywords|
      invariant 0 <= i <= |keywords|
      invariant added == Flatten(rs[..i], now)
    {
      assert webs[i] in webs;
      var found := SearchProducts(keywords[i], outcomes[i], webs[i]);
      var products := StampProducts(found, now);
      FlattenStep(rs, now, i);
      added := added + products;
      i := i + 1;
    }
    assert rs[..i] == rs;
  }

  /** The scraper object: the products collected so far, kept across runs. */
  class ShopeeScraper {
    var allProducts: seq<Product>

    constructor()
      ensures allProducts == []
    {
      allProducts := [];
    }

    /** Sample mode: for each keyword in order, the first 30 samples of that keyword,
        each refreshed in place and stamped, appended to the collection. */
    method LoadSamples(keywords: seq<string>, samples: seq<Product>, now: int)
      modifies this
      ensures allProducts == old(allProducts) + SampleBatch(keywords, samples, now)
    {
      var batch := SampleRun(keywords, samples, now);
      allProducts := allProducts + batch;
    }

    /** Live mode: each keyword's search results, stamped in place, appended. */
    method Fetch(keywords: seq<string>, outcomes: seq<ApiOutcome>, webs: seq<seq<Option<ResponseData>>>, now: int)
      requires |outcomes| == |keywords| && |webs| == |keywords|
      requires forall w :: w in webs ==> |w| == |WebEndpoints|
      modifies this
      ensures allProducts == old(allProducts) + ApiBatch(keywords, outcomes, webs, now)
    {
      var batch := LiveRun(keywords, outcomes, webs, now);
      allProducts := allProducts + batch;
    }

    /** One run: the requested keywords (all configured ones by default), sample or
        live mode with its fallback, then the output table and whether it is saved. */
    method Run(keywords: Option<seq<string>>, useSample: bool, samples: seq<Product>, now: int,
               outcomes: seq<ApiOutcome>, webs: seq<seq<Option<ResponseData>>>, existing: Option<Frame>)
      returns (df: Frame, saved: bool)
      requires |outcomes| == |GetOr(keywords, SearchKeywords)| && |webs| == |GetOr(keywords, SearchKeywords)|
      requires forall w :: w in webs ==> |w| == |WebEndpoints|
      modifies this
      ensures allProducts ==
        Collected(old(allProducts), GetOr(keywords, SearchKeywords), useSample, samples, outcomes, webs, now)
      ensures df == Output(allProducts, existing)
      ensures saved == Saves(allProducts)
    {
      var ks := GetOr(keywords, SearchKeywords);
      if useSample {
        LoadSamples(ks, samples, now);
      } else {
        Fetch(ks, outcomes, webs, now);
        if allProducts == [] {
          LoadSamples(ks, samples, now);
        }
      }
      df := Output(allProducts, existing);
      saved := Saves(allProducts);
    }
  }
}
