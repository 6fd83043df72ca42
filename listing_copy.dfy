/** Helpers around a single product: the recommended premium price, the food check, the
    hashtag list for a listing, and the shortened name shown in the report's tables. */
module ListingCopy {
  import opened Listings

  /** The lowest and mean price of the product's category and the recommended price. */
  datatype PriceAdvice = PriceAdvice(min: real, avg: real, premium: real)

  function Price(x: Listing): real
  {
    x.price
  }

  /** The advice for a category whose rows are `same`. */
  function Advise(price: real, same: seq<Listing>, rate: real): PriceAdvice
  {
    var m := if same == [] then price else MinOf(same, Price);
    var avg := if same == [] then price else Mean(same, Price);
    PriceAdvice(m, avg, Markup(m, rate))
  }

  /** `m` raised by the share `rate`. */
  function Markup(m: real, rate: real): real
  {
    m * (1.0 + rate)
  }

  /** Recommends listing at the category's lowest price plus `rate`; a category with no
      rows falls back to the product's own price for both the minimum and the mean. */
  function CalculatePremiumPrice(price: real, rows: seq<Listing>, keyword: string, rate: real): (r: PriceAdvice)
    ensures r.min <= r.avg
    ensures r.premium == Markup(r.min, rate)
    ensures (forall x :: x in rows ==> x.keyword != keyword) ==> r.min == price && r.avg == price
    ensures var same := Group(rows, keyword); |same| > 0 ==> r.avg == Mean(same, Price)
    ensures forall x :: x in rows && x.keyword == keyword ==> r.min <= x.price
    ensures (exists x :: x in rows && x.keyword == keyword) ==>
      exists x :: x in rows && x.keyword == keyword && x.price == r.min
  {
    var r := Advise(price, Group(rows, keyword), rate);
    PremiumFacts(price, rows, keyword, rate, r);
    r
  }

  lemma {:induction false} PremiumFacts(price: real, rows: seq<Listing>, keyword: string, rate: real, r: PriceAdvice)
    requires r == Advise(price, Group(rows, keyword), rate)
    ensures r.min <= r.avg
    ensures (forall x :: x in rows ==> x.keyword != keyword) ==> r.min == price && r.avg == price
    ensures forall x :: x in rows && x.keyword == keyword ==> r.min <= x.price
    ensures (exists x :: x in rows && x.keyword == keyword) ==>
      exists x :: x in rows && x.keyword == keyword && x.price == r.min
  {
    var same := Group(rows, keyword);
    if same == [] {
      assert forall x :: x in rows ==> x.keyword != keyword;
    } else {
      var m := MinOf(same, Price);
      assert r.min == m && r.avg == Mean(same, Price);
      MeanBetween(same, Price);
      var w :| w in same && m == Price(w);
      assert w in rows && w.keyword == keyword && w.price == m;
      forall x | x in rows && x.keyword == keyword
        ensures m <= x.price
      {
        assert x in same;
        assert m <= Price(x);
      }
    }
  }

  /** A non-negative premium rate never recommends less than the category minimum. */
  lemma PremiumNotBelowMin(price: real, rows: seq<Listing>, keyword: string, rate: real)
    requires rate >= 0.0
    requires price >= 0.0 && forall x :: x in rows ==> x.price >= 0.0
    ensures CalculatePremiumPrice(price, rows, keyword, rate).premium
         >= CalculatePremiumPrice(price, rows, keyword, rate).min
  {
    var r := CalculatePremiumPrice(price, rows, keyword, rate);
    if exists x :: x in rows && x.keyword == keyword {
      var x :| x in rows && x.keyword == keyword && x.price == r.min;
    }
    MarkupNotBelow(r.min, rate);
  }

  lemma MarkupNotBelow(m: real, rate: real)
    requires m >= 0.0 && rate >= 0.0
    ensures Markup(m, rate) >= m
  {
    assert m * rate >= 0.0;
  }

  /** `sub` occurs in `s` starting at position `i`. */
  predicate OccursAt(sub: string, s: string, i: int)
  {
    0 <= i && i + |sub| <= |s| && s[i..i + |sub|] == sub
  }

  /** `sub` occurs in `s` as a contiguous piece (Python's `sub in s`). */
  ghost predicate IsSubstring(sub: string, s: string)
  {
    exists i :: OccursAt(sub, s, i)
  }

  /** Searches `s` for `sub` from the left. */
  function Contains(s: string, sub: string): (b: bool)
    ensures b <==> IsSubstring(sub, s)
    decreases |s|
  {
    if |sub| > |s| then false
    else if s[..|sub|] == sub then
      assert OccursAt(sub, s, 0);
      true
    else
      var b := Contains(s[1..], sub);
      assert forall i :: i >= 0 ==> (OccursAt(sub, s[1..], i) <==> OccursAt(sub, s, i + 1)) by {
        forall i | i >= 0
          ensures OccursAt(sub, s[1..], i) <==> OccursAt(sub, s, i + 1)
        {
          OccursShift(sub, s, i);
        }
      }
      assert IsSubstring(sub, s) ==> IsSubstring(sub, s[1..]) by {
        if IsSubstring(sub, s) {
          var i :| OccursAt(sub, s, i);
          assert i != 0;
          assert OccursAt(sub, s[1..], i - 1);
        }
      }
      b
  }

  /** An occurrence in the tail is an occurrence one position further in the whole. */
  lemma OccursShift(sub: string, s: string, i: int)
    requires |s| > 0 && i >= 0
    ensures OccursAt(sub, s[1..], i) <==> OccursAt(sub, s, i + 1)
  {
    if 0 <= i && i + |sub| <= |s[1..]| {
      assert s[1..][i..i + |sub|] == s[i + 1..i + 1 + |sub|];
    }
  }

  /** Words that mark a product as food. */
  const FoodWords: seq<string> := ["零食", "泡麵", "調味料", "咖啡", "食品", "餅乾", "糖果"]

  /** Some word of `words` occurs in the keyword or in the name. */
  function AnyWordIn(words: seq<string>, name: string, keyword: string): (b: bool)
    ensures b <==> exists w :: w in words && (IsSubstring(w, keyword) || IsSubstring(w, name))
  {
    if words == [] then false
    else
      assert forall w :: w in words <==> w == words[0] || w in words[1..];
      Contains(keyword, words[0]) || Contains(name, words[0]) || AnyWordIn(words[1..], name, keyword)
  }

  /** True when one of the seven food words occurs in the keyword or the name. */
  function IsFood(name: string, keyword: string): (b: bool)
    ensures b <==> exists w :: w in FoodWords && (IsSubstring(w, keyword) || IsSubstring(w, name))
  {
    AnyWordIn(FoodWords, name, keyword)
  }

  /** A food word found at a known position makes the product food. */
  lemma {:induction false} FoodAt(name: string, keyword: string, w: string, i: int)
    requires w in FoodWords && OccursAt(w, keyword, i)
    ensures IsFood(name, keyword)
  {
    assert IsSubstring(w, keyword);
  }

  /** The first four search keywords (snacks, instant noodles, seasonings, coffee) are
      food, whatever the product name: the food word sits after "日本 ". */
  lemma {:induction false} FoodKeywords(name: string, i: nat)
    requires i < 4
    ensures IsFood(name, SearchKeywords[i])
  {
    var k := SearchKeywords[i];
    assert k[3..3 + |FoodWords[i]|] == FoodWords[i];
    FoodAt(name, k, FoodWords[i], 3);
  }

  /** Tags every listing carries. */
  const BaseTags: seq<string> := ["#日本代購", "#日本直送", "#空運直送", "#日本正品"]

  /** Tags for a category: three for each configured search keyword, one generic tag
      otherwise. */
  function CategoryTags(keyword: string): (tags: seq<string>)
    ensures |tags| == if keyword in SearchKeywords then 3 else 1
  {
    if keyword == "日本 零食" then ["#日本零食", "#進口零食", "#日本伴手禮"]
    else if keyword == "日本 泡麵" then ["#日本泡麵", "#日本拉麵", "#日本美食"]
    else if keyword == "日本 調味料" then ["#日本調味料", "#料理必備", "#日本廚房"]
    else if keyword == "日本 咖啡" then ["#日本咖啡", "#咖啡控", "#辦公室必備"]
    else if keyword == "日本 生活用品" then ["#日本生活", "#日本雜貨", "#質感生活"]
    else if keyword == "日本 美容" then ["#日本美妝", "#日本保養", "#日本藥妝"]
    else ["#日本商品"]
  }

  /** The hashtags for a listing: the four base tags, then the category's tags. */
  function GenerateHashtags(keyword: string): (tags: seq<string>)
    ensures |tags| == if keyword in SearchKeywords then 7 else 5
    ensures tags[..4] == BaseTags
    ensures keyword !in SearchKeywords ==> tags[4] == "#日本商品"
  {
    BaseTags + CategoryTags(keyword)
  }

  /** Every hashtag list is free of repeats and made of '#'-words. */
  lemma HashtagsWellFormed(keyword: string)
    ensures NoDup(GenerateHashtags(keyword))
    ensures forall t :: t in GenerateHashtags(keyword) ==> |t| > 1 && t[0] == '#'
  {
    var c := CategoryTags(keyword);
    if keyword == "日本 零食" {
      assert c == ["#日本零食", "#進口零食", "#日本伴手禮"];
    } else if keyword == "日本 泡麵" {
      assert c == ["#日本泡麵", "#日本拉麵", "#日本美食"];
    } else if keyword == "日本 調味料" {
      assert c == ["#日本調味料", "#料理必備", "#日本廚房"];
    } else if keyword == "日本 咖啡" {
      assert c == ["#日本咖啡", "#咖啡控", "#辦公室必備"];
    } else if keyword == "日本 生活用品" {
      assert c == ["#日本生活", "#日本雜貨", "#質感生活"];
    } else if keyword == "日本 美容" {
      assert c == ["#日本美妝", "#日本保養", "#日本藥妝"];
    } else {
      assert c == ["#日本商品"];
    }
  }

  /** The report's table column for a product name: at most 38 characters, longer names
      cut to 38 and marked with "...". */
  function DisplayName(name: string): (r: string)
    ensures |name| <= 38 ==> r == name
    ensures |name| > 38 ==> |r| == 41 && r[..38] == name[..38] && r[38..] == "..."
  {
    if |name| > 38 then name[..38] + "..." else name
  }

  /** The shown name starts with the name itself up to 38 characters and never exceeds
      41 characters. */
  lemma DisplayNamePrefix(name: string)
    ensures |DisplayName(name)| <= 41
    ensures var n := if |name| <= 38 then |name| else 38;
      n <= |DisplayName(name)| && DisplayName(name)[..n] == name[..n]
  {
  }
}
