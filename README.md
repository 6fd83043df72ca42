# Shopee Taiwan resale research: a verified model of the profit and selection pipeline

This project models the computational core of a small research tool for reselling
Japanese products on Shopee Taiwan.
It has three parts:

- a **scraper** that collects search results per keyword, prices them in yen and estimates a profit per item, and appends them to a CSV file;
- a **command-line report** that picks the latest batch, finds "treasure" items, ranks them by profit and summarises each category;
- a **dashboard** that recomputes the profit columns from four slider parameters, filters and ranks the rows, and prepares listing copy (premium price, food check, hashtags).

The modules follow the program's structure:

| module | file | what it models |
|---|---|---|
| `Listings` | `listing.dfy` | one table row (`Listing`), a table (`Frame` = column list + rows), row masks (`Where`), sums, means, min/max, distinct keywords and keyword groups |
| `Profit` | `profit.dfy` | the profit formula with its four parameters, the dashboard's recomputation of a whole table, the one-line profit simulation, and the scraper's rounded profit columns |
| `Ranking` | `ranking.dfy` | descending sort on a numeric key and "first N", as a tie-stable insertion order on row positions |
| `Selection` | `selection.dfy` | latest batch, treasure finder, profit ranking, dashboard filter, treasure tile, ranking table |
| `Aggregates` | `aggregates.dfy` | per-category sums and means behind the charts, and the report's genre table with the best-selling genre |
| `ListingCopy` | `listing_copy.dfy` | premium price advice, food check, hashtag list, shortened display name |
| `Scraper` | `scraper.dfy` | item extraction (main search and fallback endpoints), 30-per-keyword cap, sample batch, fallback to samples, output projection and append |

Modelling choices:

- **Numbers.** Money, rates and ratings are exact `real`s. Python's `round` is modelled as exact round-half-to-even (`RoundHalfEven`, `RoundTenths`), and their contracts state the half-unit bound and that a value already on the grid is left unchanged (a whole number for `RoundHalfEven`, a whole number of tenths for `RoundTenths`); the function `CalculateProfit` and the lemma `ApiWebAgree` name the rounding function itself.
- **Timestamps.** These are integers. The source's `"%Y-%m-%d %H:%M:%S"` strings order the same way.
- **Tables.** A table is a list of column names plus rows. A field whose column is absent from the list carries no meaning.
- **Product records.** A scraped record is a `Product`: its dictionary keys in insertion order, plus its values. Building the table takes the union of the keys (`KeyUnion`), and the output keeps the fixed columns that are present (`Project`).
- **Sorting.** The descending sort is one deterministic stable order. For pandas `sort_values` the contracts claim only non-increasing order and a permutation, because the source's quicksort has no fixed tie order. For `nlargest(n, ...)` the model also claims the `keep='first'` tie rule (`TopDominates`).
- **Imperative code stays imperative.** These are `while` loops, each proved against a specification function:
  - the genre table (`BuildGenreStats`);
  - the item loops of both searches (`ExtractProducts`, `ExtractWebProducts`);
  - the endpoint loop (`SearchViaWeb`);
  - the in-place record updates (`SampleProducts`, `StampProducts`);
  - the keyword loops (`SampleRun`, `LiveRun`).

  The scraper object is a class whose `allProducts` field persists across runs.
- **Outside inputs.** HTTP answers are inputs:
  - `ApiOutcome` is the main endpoint's decoded answer, or a failure;
  - one optional payload stands for each fallback endpoint.

  The clock is the `now` parameter, the bundled sample products are an input sequence, and an existing output file is an optional input frame.

Behaviour the model exposes:

- The fallback endpoints do not apply the main search's name filter. An item without a name comes back as a product named `"N/A"` when the main search failed (`FallbackKeepsPlaceholderName`). The "every product has a real name" guarantee holds only for the main path (`SearchResult`).
- The fallback to sample data tests the scraper's whole `all_products` list, which persists across runs. A second live run that finds nothing therefore does not fall back (`FallbackOnlyWhenEmpty`).
- The report's treasure finder requires a 4.5 rating. The dashboard's treasure tile does not, so it never counts fewer rows than the three-threshold test would (`TreasureCountAtLeastRated`).
- The docstring of `_calculate_profit` (scraper.py:63-66) says the yen price already has the sales fee deducted. The code (scraper.py:75) converts the price without deducting it. The model follows the code, and `ConfigExample` / `CalculateProfitExample` pin down the resulting figures.

## Model

| member | source | states |
|---|---|---|
| Listings.Where | app.py:363 | a boolean mask keeps exactly the rows that satisfy it, never more rows than the input |
| Listings.WhereAppend | app.py:363 | masking a concatenation is the concatenation of the masked parts, so row order is kept |
| Listings.WhereMultiset | main.py:131-135 | a masked row keeps its multiplicity; a rejected row has none |
| Listings.WhereNone | app.py:363 | a mask nobody passes gives the empty table |
| Listings.MinOf | app.py:252 | the minimum of a non-empty column is attained and bounds every value below |
| Listings.MeanBetween | main.py:61 | a mean lies between the minimum and the maximum of its group |
| Listings.SumTimes | main.py:61 | a sum of values between lo and hi lies between as many copies of lo and of hi |
| Listings.TimesIsProduct | main.py:61 | n copies of v add up to n·v |
| Listings.Keywords | main.py:518 | `unique()`: each keyword that occurs, once, and nothing else |
| Listings.KeywordsSnoc | main.py:518 | `unique()` keeps first-appearance order: one more row appends its keyword exactly when the keyword is new, and otherwise leaves the list unchanged |
| Listings.Group | main.py:519 | the rows of one keyword, exactly, never more rows than the input |
| Listings.GroupTotalPartition | main.py:27 | per-keyword totals over the distinct keywords add up to the total over all rows |
| Profit.Derive | app.py:234-237 | the yen price is the TWD price times the exchange rate; revenue is the yen price less the fee; cost is the yen price times the cost rate; profit is revenue − cost − fixed cost, which equals price·rate·(1−fee−costRate) − fixed |
| Profit.ProfitMonotone | app.py:234-237 | with a non-negative margin a dearer listing never earns less |
| Profit.ConfigExample | config.py:17-20 | 1000 TWD at the configured rates gives 4800 JPY, 4320 revenue, 2400 cost, 1720 profit |
| Profit.RecalculateRow | app.py:234-237 | one row gets the derived columns of the given parameters; all stored columns are unchanged |
| Profit.AddColumns | app.py:234-237 | assigning columns appends the new ones after the existing, which keep their order |
| Profit.RecalculateProfit | app.py:232-238 | same row count and order; each row current for the parameters with its stored columns unchanged; column list extended by exactly the derived columns |
| Profit.RecalculateIdempotent | app.py:232-238 | recomputing twice with the same parameters equals recomputing once |
| Profit.RecalculateLastWins | app.py:232-238 | recomputing with p and then q equals recomputing with q alone |
| Profit.AddColumnsIdempotent | app.py:234-237 | assigning the same columns twice adds them once |
| Profit.SimulatedProfit | app.py:449-450 | the dashboard's one-line profit simulation equals the recomputation formula's profit |
| Profit.PremiumGain | app.py:449-450 | listing at the premium changes profit by the price difference times the margin |
| Profit.RoundHalfEven | scraper.py:87-89 | `round(x)` is within half a unit of x and leaves integers unchanged |
| Profit.RoundTenths | scraper.py:150 | `round(x, 1)` is within 0.05 of x, and a whole number of tenths is left unchanged |
| Profit.CalculateProfit | scraper.py:60-90 | the three stored columns are the dashboard's yen price, cost and profit at the configured constants, each rounded half-to-even to a whole yen |
| Profit.CalculateProfitBounds | scraper.py:60-90 | each stored column is integral and within half a yen of the unrounded formula with the configured constants; profit is 1.92·price − 200 to within half a yen |
| Profit.CalculateProfitExample | scraper.py:75-89 | 1000 TWD is stored as 4800 / 2400 / 1720 |
| Ranking.Insert | main.py:135 | inserting a position adds exactly that position, once |
| Ranking.InsertSorted | main.py:135 | inserting a position before all equal keys keeps the order descending and tie-stable |
| Ranking.OrderFromMembers | main.py:135 | the order of rows k.. holds exactly the positions k to the end |
| Ranking.OrderFromSorted | main.py:135 | the order of rows k.. is descending and tie-stable |
| Ranking.Order | main.py:101 | a permutation of all row positions, descending by key, earlier row first on ties |
| Ranking.ApplyOrderFrom | main.py:135 | the ordered rows are a permutation of the input rows |
| Ranking.SortDesc | main.py:135 | `sort_values(ascending=False)`: same rows with multiplicity, keys non-increasing |
| Ranking.SortDescFirst | main.py:551-558 | the first row after the descending sort is a row of the input whose key is at least every row's key |
| Ranking.Top | app.py:407 | `head(n)` after the sort: min(n, length) rows drawn from the input, keys non-increasing |
| Ranking.TopDominates | main.py:101 | a row left out of `nlargest` has a key no larger than any kept row, and a kept row with an equal key came earlier |
| Ranking.TopAt | main.py:101 | the kept rows are the first positions of the order |
| Selection.MaxTimestamp | main.py:95 | the newest timestamp is attained and bounds all others |
| Selection.LatestSnapshot | main.py:94-98 | with a timestamp column, exactly the rows at the newest timestamp, each as often as in the table, in table order; otherwise every row; never empty for a non-empty table |
| Selection.FindTreasureProducts | main.py:124-135 | a latest-batch row is returned iff profit ≥ min, sales ≥ min and rating ≥ min, with its multiplicity; ordered by estimated profit, non-increasing |
| Selection.TreasureBoundary | main.py:131-134 | the thresholds are inclusive: 500 / 100 / 4.5 is in, 499.99 profit is out |
| Selection.ShowProfitRanking | main.py:94-101 | min(topN, latest batch) rows drawn, with multiplicity, from the latest batch, by estimated profit, non-increasing |
| Selection.ProfitRankingDominates | main.py:101 | every ranked row earns at least as much as every omitted one; ties favour the earlier row |
| Selection.FilterListings | app.py:363 | a row is kept iff its keyword is selected, profit ≥ minimum and sales ≥ minimum, with its multiplicity; no selected keyword gives no rows |
| Selection.FilterKeepsOrder | app.py:363 | the filter is an order-preserving subsequence: filtering a concatenation concatenates the filtered parts |
| Selection.TreasureCount | app.py:371 | the treasure tile counts at most the filtered rows |
| Selection.TreasureCountAdds | app.py:371 | the tile counts row by row: additive over concatenation, one for a row with profit ≥ 500 and sales ≥ 100, zero otherwise |
| Selection.TreasureCountAtLeastRated | app.py:371 | with no rating threshold the tile counts at least the rows that also pass the rating threshold |
| Selection.WhereWeaker | app.py:371 | a weaker mask keeps at least as many rows |
| Selection.RankingView | app.py:407 | min(n, filtered) filtered rows, non-increasing in the chosen column (profit, sales or price) |
| Aggregates.SumByKeyword | main.py:27 | the keys are exactly the keywords present; each value is the sum over that keyword's rows |
| Aggregates.SumByKeywordTotal | main.py:27 | the per-keyword sums add up to the total over all rows |
| Aggregates.MeanByKeyword | main.py:61 | the keys are exactly the keywords present; each value is the mean of that keyword's non-empty group |
| Aggregates.MeanByKeywordBetween | main.py:61 | each per-category mean lies between its category's lowest and highest value |
| Aggregates.SalesChartData | main.py:21-27 | sales per category of the latest batch: the keys are the categories present, each value is the total sales of that category's rows, and the values add up to the batch's sales |
| Aggregates.ProfitChartData | main.py:50-61 | nothing iff there is no estimated-profit column; otherwise the categories of the latest batch, each with the mean estimated profit of its rows |
| Aggregates.DashboardSalesByCategory | app.py:385 | sales per category of the filtered rows: the keys are the categories present, each value is the total sales of that category's rows, and the values add up to the filtered sales |
| Aggregates.DashboardProfitByCategory | app.py:389 | the categories of the filtered rows, each with the mean recomputed profit of its rows |
| Aggregates.MaxSales | main.py:528 | the largest sales figure is attained and bounds all others |
| Aggregates.SumOnes | main.py:523 | counting rows is summing ones |
| Aggregates.StatOf | main.py:519-532 | a genre line names its keyword with its row count and its total sales |
| Aggregates.StatOfColumns | main.py:519-532 | for a keyword that occurs: mean price and mean rating are the group's means and lie between its lowest and highest value; mean sales is the total sales over the count; max sales is the group's largest; the mean profit is present exactly when the data has that column, and is then the group's mean profit |
| Aggregates.BuildGenreStats | main.py:516-534 | the loop yields the genre table over the distinct keywords in first-appearance order (see Listings.KeywordsSnoc); its counts sum to the analysed rows and its total sales to their sales |
| Aggregates.GenreTable | main.py:518-534 | one statistics line per listed keyword |
| Aggregates.GenreTableAt | main.py:518-534 | line j of the genre table is the statistics line of keyword j |
| Aggregates.GenreTableTotals | main.py:516-534 | the genre table over the distinct keywords counts every analysed row once and totals all their sales |
| Aggregates.GenreTableCount | main.py:523 | the genre table for a keyword list counts, in total, the rows of those keywords |
| Aggregates.GenreTableSales | main.py:525 | the genre table for a keyword list totals the sales of those keywords |
| Aggregates.AnalyzeResults | main.py:492-558 | no report iff the table is empty; otherwise the genre table of the latest batch, whose counts sum to the batch size and whose sales sum to the batch's sales, and a best genre from that table whose total sales is at least every genre's |
| ListingCopy.CalculatePremiumPrice | app.py:250-254 | min ≤ avg; premium = min·(1+rate); with no rows of the keyword both are the given price; otherwise min is a price of that keyword and bounds all of them, and avg is the mean price of the keyword's rows |
| ListingCopy.PremiumFacts | app.py:250-254 | min ≤ avg and min is the category's attained lowest price, or the given price for an absent category |
| ListingCopy.PremiumNotBelowMin | app.py:250-254 | with non-negative prices and rate the premium is never below the minimum |
| ListingCopy.MarkupNotBelow | app.py:253 | a non-negative markup of a non-negative price is not below it |
| ListingCopy.Contains | app.py:259 | Python's `in` on strings: true iff the word occurs at some position |
| ListingCopy.AnyWordIn | app.py:259 | `any(...)`: true iff some word occurs in the keyword or in the name |
| ListingCopy.IsFood | app.py:257-259 | true iff one of the seven food words occurs in the keyword or the name |
| ListingCopy.FoodKeywords | app.py:257-259 | the snack, noodle, seasoning and coffee searches are food whatever the name |
| ListingCopy.CategoryTags | app.py:300-308 | three tags for each of the six configured keywords, one generic tag otherwise |
| ListingCopy.GenerateHashtags | app.py:299-309 | the four base tags first; 7 tags for a configured keyword, else 5 ending in the generic tag |
| ListingCopy.HashtagsWellFormed | app.py:299-309 | no tag is repeated and every tag is a '#' followed by a word |
| ListingCopy.DisplayName | main.py:107 | a name of at most 38 characters is unchanged; a longer one is its first 38 characters followed by "..." |
| ListingCopy.DisplayNamePrefix | main.py:107 | the shown name starts with the name (up to 38 characters) and has at most 41 |
| Scraper.Truncate | scraper.py:147 | `name[:100]`: a prefix of length min(len, 100) |
| Scraper.ApiPrice | scraper.py:129-131 | the price in TWD is the scaled `price`, or the scaled `price_min` exactly when the scaled price is zero |
| Scraper.ApiSales | scraper.py:133-135 | `sold` when present and non-zero; otherwise `historical_sold` (zero when missing) |
| Scraper.ApiRating | scraper.py:137-139 | `shop_rating` when present and non-zero; otherwise the item's star rating (zero when missing) |
| Scraper.SalesFallbackOnlyOnZero | scraper.py:133-139 | a non-zero `sold` is kept whatever `historical_sold` says, a zero one is replaced, and a zero shop rating takes the star rating |
| Scraper.ApiProduct | scraper.py:126-153 | an item is kept iff its name is present, non-empty and not "N/A"; the product has the searched keyword, the name cut to 100 characters, the fallback sales and rating (rating rounded to a tenth), an integral price within half a unit of the fallback price, and the three profit columns of the unrounded price |
| Scraper.ApiProducts | scraper.py:124-153 | at most one product per item, each carrying the keyword and a real name |
| Scraper.ApiProductsAppend | scraper.py:124-153 | the products of two runs of items are those of the first run followed by those of the second |
| Scraper.ApiProductsMembers | scraper.py:124-153 | every item with a real name contributes its product, and every product comes from such an item |
| Scraper.WebProduct | scraper.py:208-219 | a fallback product carries the keyword and a name of at most 100 characters |
| Scraper.WebProductFields | scraper.py:208-219 | a fallback product has the item's name or "N/A" cut to 100, the exact scaled price, `sold` whenever present (even at zero) else `historical_sold`, the shop rating rounded to a tenth with no star-rating fallback, and the profit columns of its price |
| Scraper.WebProducts | scraper.py:207-220 | one product per item, product i being item i's fallback product |
| Scraper.Cap | scraper.py:124 | `items[:30]`: a prefix of length min(30, len) |
| Scraper.ApiItems | scraper.py:118-120 | the main search reads `items`, and `data.items` when `items` is missing or empty |
| Scraper.WebItems | scraper.py:203 | a fallback endpoint reads `items`, and `data.items` only when `items` is missing |
| Scraper.ItemsReadings | scraper.py:118-120 | the two readings agree unless `items` is an empty list, where the fallback reads nothing and the main search reads `data.items` |
| Scraper.WebResult | scraper.py:178-226 | at most 30 products, each with the keyword |
| Scraper.WebResultHit | scraper.py:201-221 | the fallback finds something iff some endpoint answered with items |
| Scraper.SearchResult | scraper.py:92-172 | at most 30 products per keyword, each with the keyword and a name of at most 100 characters; real names whenever the main search answered |
| Scraper.FallbackKeepsPlaceholderName | scraper.py:212-214 | the fallback path emits an unnamed item as "N/A" where the main search drops it |
| Scraper.ApiWebAgree | scraper.py:128-153 | for an item with name, price, sales and rating present and non-zero, both paths agree except that the main search rounds the price |
| Scraper.ExtractProducts | scraper.py:124-153 | the loop over the first 30 items yields exactly the main search's products |
| Scraper.ExtractWebProducts | scraper.py:207-220 | the loop over the first 30 items yields exactly the fallback products |
| Scraper.SearchViaWeb | scraper.py:174-226 | endpoints tried in order; the first that answers with items supplies the result |
| Scraper.SearchProducts | scraper.py:92-172 | the main search, or the fallback on failure; at most 30 products, each with the keyword |
| Scraper.Stamp | scraper.py:266 | the record gains the timestamp key and value; its keys keep their order as a prefix, no other key is added, and no other value changes |
| Scraper.RefreshedKeys | scraper.py:254-256 | assigning the three profit columns and the timestamp keeps the old keys, in order, as a prefix and adds only those four |
| Scraper.Refresh | scraper.py:254-256 | a sample record gains the three profit keys and the timestamp; its old keys stay, in order, as a prefix, and no other key is added; its profit columns are those of its own price and nothing else in the row changes |
| Scraper.Matching | scraper.py:251 | exactly the samples of the keyword |
| Scraper.MatchingAppend | scraper.py:251 | matching a concatenation matches each part in order, so the samples keep their order |
| Scraper.MatchingMultiset | scraper.py:251 | each sample of the keyword is kept as often as it occurs, no other sample at all |
| Scraper.SampleFor | scraper.py:251-257 | the first min(30, matching) samples of the keyword, in order, refreshed |
| Scraper.SampleForFacts | scraper.py:251-256 | every sample product of a keyword has that keyword, the run's timestamp and the profit columns of its own price |
| Scraper.StampAll | scraper.py:265-266 | each record stamped, same length and order |
| Scraper.Results | scraper.py:262-263 | each keyword's search result, in keyword order |
| Scraper.FlattenEmpty | scraper.py:274 | the joined batch is empty iff every keyword's list is |
| Scraper.FlattenLength | scraper.py:124 | lists of at most 30 join to at most 30 per keyword |
| Scraper.FlattenMembers | scraper.py:262-267 | every joined record is a stamped record of some keyword's list |
| Scraper.SampleBatch | scraper.py:250-257 | at most 30 × the length of the keyword list sample records in all; what each entry adds is stated by Scraper.SampleBatchStep |
| Scraper.SampleBatchStep | scraper.py:250-257 | each entry of the keyword list contributes its own sample records (at most 30, by SampleFor), after those of the entries before it |
| Scraper.SampleBatchFacts | scraper.py:250-257 | every sample-mode record has a requested keyword, the run's timestamp and the profit of its own price |
| Scraper.ApiBatch | scraper.py:262-267 | at most 30 × the length of the keyword list live records in all; what each entry adds is stated by Scraper.FlattenStep |
| Scraper.FlattenStep | scraper.py:262-267 | each entry's search results (at most 30, by Results and SearchResult) are stamped and appended after those of the entries before it |
| Scraper.ApiBatchFacts | scraper.py:262-267 | every live record has a requested keyword, the run's timestamp and a name of at most 100 characters |
| Scraper.ApiBatchEmpty | scraper.py:274 | live mode collects nothing iff every keyword's search came back empty |
| Scraper.Collected | scraper.py:246-286 | in sample mode the sample batch is appended to the products already collected; in any mode a run never drops products already collected, and ends with nothing only when the sample batch is empty too |
| Scraper.FallbackOnlyWhenEmpty | scraper.py:274-286 | the samples replace live data only when the scraper holds nothing and every search was empty; otherwise live results are kept as collected |
| Scraper.Project | scraper.py:293-297 | the fixed columns that the table has, no others, without duplicates |
| Scraper.ProjectAppend | scraper.py:297 | projecting a concatenation of orders projects each part in turn, so kept columns follow the fixed order |
| Scraper.ProjectFull | scraper.py:293-297 | a table holding every output column projects to exactly the fixed order |
| Scraper.KeyUnion | scraper.py:289 | the table's columns are exactly the keys of its records |
| Scraper.Rows | scraper.py:289 | one row per record, in order |
| Scraper.Output | scraper.py:288-309 | an empty table is returned unsaved; otherwise the projected rows, after the existing rows when there are any, with the existing columns first |
| Scraper.OutputAppends | scraper.py:300-302 | the saved table has old + new rows and the old rows as a prefix; no products means nothing saved |
| Scraper.SampleProducts | scraper.py:251-256 | the in-place refresh loop yields the keyword's sample batch |
| Scraper.StampProducts | scraper.py:265-266 | the in-place stamping loop yields the stamped records |
| Scraper.SampleRun | scraper.py:250-258 | the keyword loop yields the sample batch, keyword by keyword |
| Scraper.LiveRun | scraper.py:262-267 | the keyword loop yields each keyword's stamped search results in order |
| Scraper.ShopeeScraper.constructor | scraper.py:26-29 | a new scraper holds no products |
| Scraper.ShopeeScraper.LoadSamples | scraper.py:250-258 | the sample batch is appended to the collected products |
| Scraper.ShopeeScraper.Fetch | scraper.py:262-267 | the live batch is appended to the collected products |
| Scraper.ShopeeScraper.Run | scraper.py:228-309 | default keywords when none are given; sample mode appends the sample batch; live mode appends the live batch and loads the samples only if the collection is then empty; returns the output table and whether it is saved |

## Left out

- Streamlit widgets, page layout, metric tiles other than the treasure count, tabs, text areas and download buttons (UI).
- Matplotlib charts, font set-up, the HTML report and base64 images; only the data behind the charts is modelled.
- The charts' `sort_values(ascending=True)` on the per-category series: a map has no order, so bar order is not modelled.
- Console printing, including the display-only `keyword.replace("日本 ", "")`.
- The HTTP session, headers, cookies, device id and random delays. Status codes and exceptions of the main call are folded into `ApiOutcome.Failed`; each fallback endpoint's outcome is an optional payload.
- JSON `null` values and ill-typed item fields: item fields are typed options, so the per-item `try/except` that skips a malformed item and the exceptions inside the fallback loop are not modelled.
- CSV reading and writing, file existence, deletion and modification times: the existing file is an optional input frame and "saved" is a returned flag.
- The Anthropic client, the API-key lookup and `generate_description`, a fixed text template.
- The contents of the bundled sample products: they are an input sequence. Since records are values, taking copies before updating them holds by construction and is not stated separately.
- IEEE floating point: arithmetic is exact over `real`, and Python's float `round` is modelled as exact round-half-to-even.
- pandas NaN cells: a column missing from some rows after `concat` or `DataFrame(records)` is not tracked per cell, and NaN comparisons are not modelled.
- Ranking.SortDesc: pandas' quicksort has no fixed tie order; the model uses one stable order and claims only sortedness and permutation for `sort_values`.
- Aggregates.AnalyzeResults: `df.empty` is modelled as "no rows"; a table with rows but no columns is treated as non-empty.
- Scraper.ShopeeScraper.LoadSamples: the field is extended once with the whole batch rather than once per keyword; the final state is the same and nothing observes the states in between. The same holds for Scraper.ShopeeScraper.Fetch.
- Scraper.SearchViaWeb: the two endpoint URLs are constants and only the number of answers is checked against them; the request parameters are not modelled.
- Selection.TreasureCount: its own contract states only the bound; what it counts is stated by Selection.TreasureCountAdds.
- Selection.FindTreasureProducts: on a table without an `estimated_profit_jpy` column the source raises `KeyError`, while the model reads the record's profit field; the page only calls it on data produced by the scraper, which always has that column. The same holds for Selection.ShowProfitRanking.
- Aggregates.StatOf: a keyword with no rows yields an all-zero line; the report only asks for keywords present in the batch, so this case never arises there.
- Aggregates.MeanByKeyword: its own contract ties each value to its group's mean; the bounds between the group's lowest and highest value are stated by Aggregates.MeanByKeywordBetween.
- Scraper.WebProduct: its own contract states only the keyword and the name bound; the field values are stated by Scraper.WebProductFields, which keeps the loops over fallback products small.
