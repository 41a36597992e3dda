/** The shop page: the catalog query (search, category, sale, price range, sort) and the way the
    category and sale choices travel through the URL parameters. */
module Shop {

  import opened Seqs
  import opened Text
  import opened Catalog

  // ---------------------------------------------------------------------------------------
  // Filters

  /** `(p.isSale && p.salePrice) ? p.salePrice : p.price`: a sale price of 0 is falsy. */
  function EffectivePrice(p: Product): real
  {
    if p.isSale && p.salePrice.Some? && p.salePrice.value != 0.0 then p.salePrice.value else p.price
  }

  /** The lower-cased name or category contains the lower-cased query. */
  predicate MatchesSearch(p: Product, query: string)
  {
    Contains(Lower(p.name), Lower(query)) || Contains(Lower(p.category), Lower(query))
  }

  /** The sale filter: flagged as on sale, or carrying a positive sale price. */
  predicate OnSale(p: Product)
  {
    p.isSale || (p.salePrice.Some? && p.salePrice.value > 0.0)
  }

  predicate InPriceRange(p: Product, min: real, max: real)
  {
    min <= EffectivePrice(p) <= max
  }

  function BySearch(ps: seq<Product>, query: string): (r: seq<Product>)
    ensures forall i :: 0 <= i < |r| ==> MatchesSearch(r[i], query)
  {
    Filter((p: Product) => MatchesSearch(p, query), ps)
  }

  function BySale(ps: seq<Product>): (r: seq<Product>)
    ensures forall i :: 0 <= i < |r| ==> OnSale(r[i])
  {
    Filter((p: Product) => OnSale(p), ps)
  }

  function ByPrice(ps: seq<Product>, min: real, max: real): (r: seq<Product>)
    ensures forall i :: 0 <= i < |r| ==> InPriceRange(r[i], min, max)
  {
    Filter((p: Product) => InPriceRange(p, min, max), ps)
  }

  /** The search text the page reads: `searchParams.get('search')`, with a missing key as "". */
  function SearchQuery(params: map<string, string>): string
  {
    if "search" in params then params["search"] else ""
  }

  /** A query filters only when it is non-empty (`if (searchParam)`). */
  predicate SearchOk(p: Product, query: string)
  {
    query == "" || MatchesSearch(p, query)
  }

  /** A category filters only when it is present and non-empty (`if (selectedCategory)`). */
  predicate CategoryOk(p: Product, category: Option<string>)
  {
    category.None? || category.value == "" || p.category == category.value
  }

  predicate SaleOk(p: Product, saleOnly: bool)
  {
    !saleOnly || OnSale(p)
  }

  /** Everything a product must pass, all at once. */
  predicate Admits(p: Product, query: string, category: Option<string>, saleOnly: bool, min: real, max: real)
  {
    SearchOk(p, query) && CategoryOk(p, category) && SaleOk(p, saleOnly) && InPriceRange(p, min, max)
  }

  /** The reference definition of the filter stage: one pass in catalog order. */
  function Passing(ps: seq<Product>, query: string, category: Option<string>, saleOnly: bool, min: real, max: real): (r: seq<Product>)
    ensures forall i :: 0 <= i < |r| ==> Admits(r[i], query, category, saleOnly, min, max) && r[i] in ps
    ensures forall i :: 0 <= i < |ps| && Admits(ps[i], query, category, saleOnly, min, max) ==> ps[i] in r
  {
    Filter((p: Product) => Admits(p, query, category, saleOnly, min, max), ps)
  }

  // The conditions checked so far, after each step of the pipeline.

  function UpToSearch(ps: seq<Product>, query: string): seq<Product>
  {
    Filter((p: Product) => SearchOk(p, query), ps)
  }

  function UpToCategory(ps: seq<Product>, query: string, category: Option<string>): seq<Product>
  {
    Filter((p: Product) => SearchOk(p, query) && CategoryOk(p, category), ps)
  }

  function UpToSale(ps: seq<Product>, query: string, category: Option<string>, saleOnly: bool): seq<Product>
  {
    Filter((p: Product) => SearchOk(p, query) && CategoryOk(p, category) && SaleOk(p, saleOnly), ps)
  }

  // ---------------------------------------------------------------------------------------
  // Sorting

  datatype SortKey = PriceAsc | PriceDesc | Newest

  /** The number the comparator subtracts: ascending price, descending price, or new items (0)
      before the others (1). */
  function Rank(p: Product, key: SortKey): real
  {
    match key
    case PriceAsc => EffectivePrice(p)
    case PriceDesc => -EffectivePrice(p)
    case Newest => if p.isNew then 0.0 else 1.0
  }

  predicate SortedBy(s: seq<Product>, key: SortKey)
  {
    forall i, j :: 0 <= i < j < |s| ==> Rank(s[i], key) <= Rank(s[j], key)
  }

  /** Puts `x` before the first element of strictly greater rank. */
  function Insert(x: Product, s: seq<Product>, key: SortKey): (r: seq<Product>)
  {
    if s == [] then [x]
    else if Rank(s[0], key) > Rank(x, key) then [x] + s
    else [s[0]] + Insert(x, s[1..], key)
  }

  /** A stable sort by rank, the result `Array.prototype.sort` must give for this comparator. */
  function Sort(s: seq<Product>, key: SortKey): (r: seq<Product>)
  {
    if s == [] then [] else Insert(s[|s| - 1], Sort(s[..|s| - 1], key), key)
  }

  /** The products of rank `v`, in order. */
  function WithRank(s: seq<Product>, key: SortKey, v: real): seq<Product>
  {
    Filter((p: Product) => Rank(p, key) == v, s)
  }

  /** The sort step of the page: the three known options sort, anything else keeps the order. */
  function Arrange(s: seq<Product>, sortOption: string): seq<Product>
  {
    if sortOption == "price-asc" then Sort(s, PriceAsc)
    else if sortOption == "price-desc" then Sort(s, PriceDesc)
    else if sortOption == "newest" then Sort(s, Newest)
    else s
  }

  function NewArrivals(s: seq<Product>): seq<Product>
  {
    Filter((p: Product) => p.isNew, s)
  }

  function OlderItems(s: seq<Product>): seq<Product>
  {
    Filter((p: Product) => !p.isNew, s)
  }

  // ---------------------------------------------------------------------------------------
  // Facts about the sort

  lemma {:induction false} InsertPermutes(x: Product, s: seq<Product>, key: SortKey)
    ensures multiset(Insert(x, s, key)) == multiset(s) + multiset{x}
  {
    if s != [] && Rank(s[0], key) <= Rank(x, key) {
      InsertPermutes(x, s[1..], key);
      assert s == [s[0]] + s[1..];
    }
  }

  /** A first element no greater than the sorted rest keeps the sequence sorted. */
  lemma SortedCons(a: Product, r: seq<Product>, key: SortKey)
    requires SortedBy(r, key)
    requires forall i :: 0 <= i < |r| ==> Rank(a, key) <= Rank(r[i], key)
    ensures SortedBy([a] + r, key)
  {
    var t := [a] + r;
    forall i, j | 0 <= i < j < |t| ensures Rank(t[i], key) <= Rank(t[j], key) {
      assert t[j] == r[j - 1];
      if i > 0 {
        assert t[i] == r[i - 1];
      }
    }
  }

  lemma {:induction false} InsertSorted(x: Product, s: seq<Product>, key: SortKey)
    requires SortedBy(s, key)
    ensures SortedBy(Insert(x, s, key), key)
  {
    if s == [] {
    } else if Rank(s[0], key) > Rank(x, key) {
      forall i | 0 <= i < |s| ensures Rank(x, key) <= Rank(s[i], key) {
        if i > 0 {
          assert Rank(s[0], key) <= Rank(s[i], key);
        }
      }
      SortedCons(x, s, key);
    } else {
      var tail := s[1..];
      assert SortedBy(tail, key) by {
        forall i, j | 0 <= i < j < |tail| ensures Rank(tail[i], key) <= Rank(tail[j], key) {
          assert tail[i] == s[i + 1] && tail[j] == s[j + 1];
        }
      }
      InsertSorted(x, tail, key);
      var r := Insert(x, tail, key);
      InsertPermutes(x, tail, key);
      forall i | 0 <= i < |r| ensures Rank(s[0], key) <= Rank(r[i], key) {
        assert r[i] in multiset(r);
        if r[i] != x {
          assert r[i] in multiset(tail);
          var k :| 0 <= k < |tail| && tail[k] == r[i];
          assert tail[k] == s[k + 1];
        }
      }
      SortedCons(s[0], r, key);
    }
  }

  /** The sort orders by rank and is a permutation of its input. */
  lemma {:induction false} SortSpec(s: seq<Product>, key: SortKey)
    ensures SortedBy(Sort(s, key), key)
    ensures multiset(Sort(s, key)) == multiset(s)
  {
    if s != [] {
      var init := s[..|s| - 1];
      SortSpec(init, key);
      InsertSorted(s[|s| - 1], Sort(init, key), key);
      InsertPermutes(s[|s| - 1], Sort(init, key), key);
      assert s == init + [s[|s| - 1]];
    }
  }

  lemma WithRankAppend(a: seq<Product>, b: seq<Product>, key: SortKey, v: real)
    ensures WithRank(a + b, key, v) == WithRank(a, key, v) + WithRank(b, key, v)
  {
    FilterAppend((p: Product) => Rank(p, key) == v, a, b);
  }

  lemma WithRankNone(s: seq<Product>, key: SortKey, v: real)
    requires forall i :: 0 <= i < |s| ==> Rank(s[i], key) != v
    ensures WithRank(s, key, v) == []
  {
    FilterDropsAll((p: Product) => Rank(p, key) == v, s);
  }

  lemma SortedTail(s: seq<Product>, key: SortKey)
    requires SortedBy(s, key) && s != []
    ensures SortedBy(s[1..], key)
    ensures forall i :: 0 <= i < |s| ==> Rank(s[0], key) <= Rank(s[i], key)
  {
    var tail := s[1..];
    forall i, j | 0 <= i < j < |tail| ensures Rank(tail[i], key) <= Rank(tail[j], key) {
      assert tail[i] == s[i + 1] && tail[j] == s[j + 1];
    }
    forall i | 0 < i < |s| ensures Rank(s[0], key) <= Rank(s[i], key) {
    }
  }

  lemma WithRankAll(s: seq<Product>, key: SortKey, v: real)
    requires forall i :: 0 <= i < |s| ==> Rank(s[i], key) == v
    ensures WithRank(s, key, v) == s
  {
    FilterKeepsAll((p: Product) => Rank(p, key) == v, s);
  }

  /** Inserting into a sorted sequence keeps each rank's products in the order of appending. */
  lemma {:induction false} InsertStable(x: Product, s: seq<Product>, key: SortKey, v: real)
    requires SortedBy(s, key)
    ensures WithRank(Insert(x, s, key), key, v) == WithRank(s + [x], key, v)
  {
    if s == [] {
      assert s + [x] == [x];
    } else if Rank(s[0], key) > Rank(x, key) {
      InsertFront(x, s, key, v);
    } else {
      SortedTail(s, key);
      InsertStable(x, s[1..], key, v);
      InsertLater(x, s, key, v);
    }
  }

  lemma InsertFront(x: Product, s: seq<Product>, key: SortKey, v: real)
    requires SortedBy(s, key) && s != [] && Rank(s[0], key) > Rank(x, key)
    ensures WithRank(Insert(x, s, key), key, v) == WithRank(s + [x], key, v)
  {
    assert Insert(x, s, key) == [x] + s;
    WithRankAppend(s, [x], key, v);
    WithRankAppend([x], s, key, v);
    if v == Rank(x, key) {
      SortedTail(s, key);
      WithRankNone(s, key, v);
    } else {
      WithRankNone([x], key, v);
    }
  }

  lemma InsertLater(x: Product, s: seq<Product>, key: SortKey, v: real)
    requires s != [] && Rank(s[0], key) <= Rank(x, key)
    requires WithRank(Insert(x, s[1..], key), key, v) == WithRank(s[1..] + [x], key, v)
    ensures WithRank(Insert(x, s, key), key, v) == WithRank(s + [x], key, v)
  {
    var head, tail := [s[0]], s[1..];
    assert Insert(x, s, key) == head + Insert(x, tail, key);
    assert s + [x] == head + (tail + [x]);
    WithRankAppend(head, Insert(x, tail, key), key, v);
    WithRankAppend(head, tail + [x], key, v);
  }

  /** Stability: the products of any one rank keep their input order. */
  lemma {:induction false} SortStable(s: seq<Product>, key: SortKey, v: real)
    ensures WithRank(Sort(s, key), key, v) == WithRank(s, key, v)
  {
    if s != [] {
      var init, last := s[..|s| - 1], s[|s| - 1];
      SortStable(init, key, v);
      SortSpec(init, key);
      InsertStable(last, Sort(init, key), key, v);
      WithRankAppend(Sort(init, key), [last], key, v);
      WithRankAppend(init, [last], key, v);
      assert s == init + [last];
    }
  }

  /** A sequence made of products of one rank followed by products of another splits back into
      the two by rank. */
  lemma SplitByRank(front: seq<Product>, back: seq<Product>, key: SortKey, v0: real, v1: real)
    requires v0 != v1
    requires forall i :: 0 <= i < |front| ==> Rank(front[i], key) == v0
    requires forall i :: 0 <= i < |back| ==> Rank(back[i], key) == v1
    ensures WithRank(front + back, key, v0) == front
    ensures WithRank(front + back, key, v1) == back
  {
    WithRankAppend(front, back, key, v0);
    WithRankAppend(front, back, key, v1);
    WithRankAll(front, key, v0);
    WithRankNone(front, key, v1);
    WithRankNone(back, key, v0);
    WithRankAll(back, key, v1);
  }

  /** A sequence sorted by the newest key is its new items followed by the others. */
  lemma NewestSplit(s: seq<Product>)
    requires SortedBy(s, Newest)
    ensures s == WithRank(s, Newest, 0.0) + WithRank(s, Newest, 1.0)
  {
    var k := match FindIndex((p: Product) => !p.isNew, s) case None => |s| case Some(k) => k;
    var front, back := s[..k], s[k..];
    assert forall i :: 0 <= i < |front| ==> Rank(front[i], Newest) == 0.0;
    forall i | 0 <= i < |back| ensures Rank(back[i], Newest) == 1.0 {
      assert back[i] == s[k + i];
      assert Rank(s[k], Newest) <= Rank(s[k + i], Newest);
    }
    assert s == front + back;
    SplitByRank(front, back, Newest, 0.0, 1.0);
  }

  /** "Newest first" lists every new item before every other one, each group in input order. */
  lemma NewestFirst(s: seq<Product>)
    ensures Sort(s, Newest) == NewArrivals(s) + OlderItems(s)
  {
    var r := Sort(s, Newest);
    SortSpec(s, Newest);
    NewestSplit(r);
    SortStable(s, Newest, 0.0);
    SortStable(s, Newest, 1.0);
    FilterExtensional((p: Product) => Rank(p, Newest) == 0.0, (p: Product) => p.isNew, s);
    FilterExtensional((p: Product) => Rank(p, Newest) == 1.0, (p: Product) => !p.isNew, s);
  }

  /** Price ascending is non-decreasing in effective price, price descending non-increasing;
      both keep exactly the input products. */
  lemma PriceSorts(s: seq<Product>)
    ensures var r := Sort(s, PriceAsc);
      multiset(r) == multiset(s) &&
      forall i, j :: 0 <= i < j < |r| ==> EffectivePrice(r[i]) <= EffectivePrice(r[j])
    ensures var r := Sort(s, PriceDesc);
      multiset(r) == multiset(s) &&
      forall i, j :: 0 <= i < j < |r| ==> EffectivePrice(r[i]) >= EffectivePrice(r[j])
  {
    SortSpec(s, PriceAsc);
    SortSpec(s, PriceDesc);
  }

  /** Whatever the sort option, the arranged list holds exactly the products it was given. */
  lemma ArrangeIsPermutation(s: seq<Product>, sortOption: string)
    ensures multiset(Arrange(s, sortOption)) == multiset(s)
  {
    SortSpec(s, PriceAsc);
    SortSpec(s, PriceDesc);
    SortSpec(s, Newest);
  }

  /** No catalog entry carries a sale price, so the price filter and the price sorts read the list
      price of every catalog product, and the sale filter keeps the flagged products only. */
  lemma CatalogEffectivePrices()
    ensures forall i :: 0 <= i < |Products| ==>
      EffectivePrice(Products[i]) == Products[i].price && (OnSale(Products[i]) <==> Products[i].isSale)
  {
    CatalogPrices();
  }

  // ---------------------------------------------------------------------------------------
  // URL parameters

  /** A category counts only when it is present and non-empty (`if (category)`). */
  function Chosen(category: Option<string>): Option<string>
  {
    if category.Some? && category.value != "" then category else None
  }

  /** The parameters `handleCategoryChange` and `handleSaleToggle` install: `category` for a chosen
      category, `filter=sale` when sale-only is on, and nothing else (any search is dropped). */
  function ParamsFor(category: Option<string>, saleOnly: bool): (r: map<string, string>)
    ensures "category" in r <==> Chosen(category).Some?
    ensures "category" in r ==> r["category"] == category.value
    ensures "filter" in r <==> saleOnly
    ensures "filter" in r ==> r["filter"] == "sale"
    ensures forall k :: k in r ==> k == "category" || k == "filter"
  {
    var withCategory: map<string, string> := if Chosen(category).Some? then map["category" := category.value] else map[];
    if saleOnly then withCategory["filter" := "sale"] else withCategory
  }

  /** What the sync effect reads back: the category parameter when non-empty. */
  function CategoryFromParams(params: map<string, string>): (r: Option<string>)
    ensures r.Some? <==> "category" in params && params["category"] != ""
    ensures r.Some? ==> r.value == params["category"]
  {
    if "category" in params && params["category"] != "" then Some(params["category"]) else None
  }

  /** What the sync effect reads back: sale-only exactly when `filter` is `sale`. */
  predicate SaleFromParams(params: map<string, string>)
  {
    "filter" in params && params["filter"] == "sale"
  }

  /** Writing the state into parameters and reading it back gives the same state. */
  lemma ParamsRoundTrip(category: Option<string>, saleOnly: bool)
    ensures CategoryFromParams(ParamsFor(category, saleOnly)) == Chosen(category)
    ensures SaleFromParams(ParamsFor(category, saleOnly)) == saleOnly
    ensures "search" !in ParamsFor(category, saleOnly)
  {
  }

  /** Reading the state out of any parameters and writing it back keeps the `category` and
      `filter=sale` entries that mattered and drops the rest. */
  lemma ParamsNormalise(params: map<string, string>)
    ensures var r := ParamsFor(CategoryFromParams(params), SaleFromParams(params));
      && ("category" in r <==> "category" in params && params["category"] != "")
      && ("category" in r ==> r["category"] == params["category"])
      && ("filter" in r <==> SaleFromParams(params))
  {
  }

  // ---------------------------------------------------------------------------------------
  // The page

  class ShopPage {
    var searchParams: map<string, string>
    var selectedCategory: Option<string>
    var showOnlySale: bool
    var priceMin: real
    var priceMax: real
    var sortOption: string

    /** The page as first rendered, before the sync effect has run. */
    constructor (params: map<string, string>)
      ensures searchParams == params && selectedCategory == None && !showOnlySale
      ensures priceMin == 0.0 && priceMax == 1000.0 && sortOption == "default"
    {
      searchParams := params;
      selectedCategory := None;
      showOnlySale := false;
      priceMin := 0.0;
      priceMax := 1000.0;
      sortOption := "default";
    }

    /** The effect that copies the URL parameters into the category and sale state. */
    method SyncFromParams()
      modifies this
      ensures selectedCategory == CategoryFromParams(searchParams)
      ensures showOnlySale == SaleFromParams(searchParams)
      ensures searchParams == old(searchParams) && priceMin == old(priceMin)
      ensures priceMax == old(priceMax) && sortOption == old(sortOption)
    {
      var categoryParam := CategoryFromParams(searchParams);
      if categoryParam.Some? {
        selectedCategory := categoryParam;
      } else {
        selectedCategory := None;
      }
      showOnlySale := SaleFromParams(searchParams);
    }

    method HandleCategoryChange(category: Option<string>)
      modifies this
      ensures selectedCategory == category
      ensures searchParams == ParamsFor(category, old(showOnlySale))
      ensures CategoryFromParams(searchParams) == Chosen(category)
      ensures SaleFromParams(searchParams) == showOnlySale
      ensures showOnlySale == old(showOnlySale) && priceMin == old(priceMin)
      ensures priceMax == old(priceMax) && sortOption == old(sortOption)
    {
      selectedCategory := category;
      searchParams := ParamsFor(category, showOnlySale);
      ParamsRoundTrip(category, showOnlySale);
    }

    method HandleSaleToggle()
      modifies this
      ensures showOnlySale == !old(showOnlySale)
      ensures searchParams == ParamsFor(old(selectedCategory), showOnlySale)
      ensures CategoryFromParams(searchParams) == Chosen(selectedCategory)
      ensures SaleFromParams(searchParams) == showOnlySale
      ensures selectedCategory == old(selectedCategory) && priceMin == old(priceMin)
      ensures priceMax == old(priceMax) && sortOption == old(sortOption)
    {
      var nextSaleState := !showOnlySale;
      showOnlySale := nextSaleState;
      searchParams := ParamsFor(selectedCategory, nextSaleState);
      ParamsRoundTrip(selectedCategory, nextSaleState);
    }

    /** `filteredProducts`: each filter narrows the working list in turn, then the sort option
        arranges it. The products passed in are not changed (they are a value). */
    method FilteredProducts(products: seq<Product>) returns (result: seq<Product>)
      ensures result == Arrange(Passing(products, SearchQuery(searchParams), selectedCategory,
                                        showOnlySale, priceMin, priceMax), sortOption)
    {
      var query := SearchQuery(searchParams);
      result := products;
      SearchStep(products, query);
      if query != "" {
        result := BySearch(result, query);
      }
      CategoryStep(products, query, selectedCategory);
      if selectedCategory.Some? && selectedCategory.value != "" {
        result := InCategory(result, selectedCategory.value);
      }
      SaleStep(products, query, selectedCategory, showOnlySale);
      if showOnlySale {
        result := BySale(result);
      }
      PriceStep(products, query, selectedCategory, showOnlySale, priceMin, priceMax);
      result := ByPrice(result, priceMin, priceMax);
      result := Arrange(result, sortOption);
    }
  }

  // Each step of the pipeline narrows the previous stage to the next one.

  lemma SearchStep(ps: seq<Product>, query: string)
    ensures (if query != "" then BySearch(ps, query) else ps) == UpToSearch(ps, query)
  {
    if query != "" {
      FilterExtensional((p: Product) => MatchesSearch(p, query), (p: Product) => SearchOk(p, query), ps);
    } else {
      FilterKeepsAll((p: Product) => SearchOk(p, query), ps);
    }
  }

  lemma CategoryStep(ps: seq<Product>, query: string, category: Option<string>)
    ensures var before := UpToSearch(ps, query);
      (if category.Some? && category.value != "" then InCategory(before, category.value) else before)
        == UpToCategory(ps, query, category)
  {
    if category.Some? && category.value != "" {
      FilterFilter((p: Product) => SearchOk(p, query), (p: Product) => p.category == category.value,
                   (p: Product) => SearchOk(p, query) && CategoryOk(p, category), ps);
    } else {
      FilterExtensional((p: Product) => SearchOk(p, query),
                        (p: Product) => SearchOk(p, query) && CategoryOk(p, category), ps);
    }
  }

  lemma SaleStep(ps: seq<Product>, query: string, category: Option<string>, saleOnly: bool)
    ensures var before := UpToCategory(ps, query, category);
      (if saleOnly then BySale(before) else before) == UpToSale(ps, query, category, saleOnly)
  {
    if saleOnly {
      FilterFilter((p: Product) => SearchOk(p, query) && CategoryOk(p, category), (p: Product) => OnSale(p),
                   (p: Product) => SearchOk(p, query) && CategoryOk(p, category) && SaleOk(p, saleOnly), ps);
    } else {
      FilterExtensional((p: Product) => SearchOk(p, query) && CategoryOk(p, category),
                        (p: Product) => SearchOk(p, query) && CategoryOk(p, category) && SaleOk(p, saleOnly), ps);
    }
  }

  lemma PriceStep(ps: seq<Product>, query: string, category: Option<string>, saleOnly: bool, min: real, max: real)
    ensures ByPrice(UpToSale(ps, query, category, saleOnly), min, max) == Passing(ps, query, category, saleOnly, min, max)
  {
    FilterFilter((p: Product) => SearchOk(p, query) && CategoryOk(p, category) && SaleOk(p, saleOnly),
                 (p: Product) => InPriceRange(p, min, max),
                 (p: Product) => Admits(p, query, category, saleOnly, min, max), ps);
  }
}
