/** The catalog queries of the category details screen
    (src/App/Pages/Shop/CategoryDetailsScreen.tsx) and of the shop screen
    (src/App/Pages/Home/ShopScreen.tsx): case-insensitive filters, sorting by
    an option, top picks, and the tab filter. The shop screen sorts the shared
    catalog array itself, so the catalog is an `array` here and the methods
    that sort it say so in their `modifies` clauses. */
module CatalogQueries {
  import opened Wrappers
  import opened Sequences
  import opened Text
  import opened Catalog
  import opened ShopStore

  // ---------------------------------------------------------------------------
  // Sort orders

  /** The comparators used: price ascending, and price, rating or review
      count descending. */
  datatype SortKey = PriceAscending | PriceDescending | RatingDescending | ReviewsDescending

  /** The category screen's sort menu; 'All' and any unknown option do not sort. */
  function SortKeyOf(sortBy: string): (key: Option<SortKey>)
    ensures key.None? <==> sortBy !in ["Price: Low to High", "Price: High to Low", "Rating", "Best Selling"]
  {
    if sortBy == "Price: Low to High" then Some(PriceAscending)
    else if sortBy == "Price: High to Low" then Some(PriceDescending)
    else if sortBy == "Rating" then Some(RatingDescending)
    else if sortBy == "Best Selling" then Some(ReviewsDescending)
    else None
  }

  /** A product's position under a key: the comparator `(a, b) => f(a) - f(b)`
      orders by ascending rank. */
  function Rank(key: SortKey, p: Product): real {
    match key
    case PriceAscending => p.price
    case PriceDescending => -p.price
    case RatingDescending => -p.rating
    case ReviewsDescending => -(p.reviews as real)
  }

  predicate SortedBy(s: seq<Product>, key: SortKey) {
    forall i, j :: 0 <= i < j < |s| ==> Rank(key, s[i]) <= Rank(key, s[j])
  }

  /** What each order means for the field it sorts on. */
  lemma SortedByMeaning(s: seq<Product>)
    ensures SortedBy(s, PriceAscending) <==> forall i, j :: 0 <= i < j < |s| ==> s[i].price <= s[j].price
    ensures SortedBy(s, PriceDescending) <==> forall i, j :: 0 <= i < j < |s| ==> s[i].price >= s[j].price
    ensures SortedBy(s, RatingDescending) <==> forall i, j :: 0 <= i < j < |s| ==> s[i].rating >= s[j].rating
    ensures SortedBy(s, ReviewsDescending) <==> forall i, j :: 0 <= i < j < |s| ==> s[i].reviews >= s[j].reviews
  {
  }

  /** A prefix of a sorted sequence is sorted. */
  lemma SortedPrefix(s: seq<Product>, key: SortKey, n: nat)
    requires SortedBy(s, key)
    ensures SortedBy(Take(s, n), key)
  {
  }

  // ---------------------------------------------------------------------------
  // In-place sort

  /** `s[..hi]` is sorted except possibly around position `j`, and `s[j]` is
      no greater than anything after it up to `hi`: the state of an insertion
      step while the new element moves down. */
  ghost predicate SortedAround(s: seq<Product>, key: SortKey, j: int, hi: int)
    requires 0 <= j < hi <= |s|
  {
    && (forall k, l :: 0 <= k < l < hi && k != j && l != j ==> Rank(key, s[k]) <= Rank(key, s[l]))
    && (forall l :: j < l < hi ==> Rank(key, s[j]) <= Rank(key, s[l]))
  }

  lemma SortedAroundStart(s: seq<Product>, key: SortKey, i: int)
    requires 0 <= i < |s| && SortedBy(s[..i], key)
    ensures SortedAround(s, key, i, i + 1)
  {
    forall k, l | 0 <= k < l < i + 1 && k != i && l != i
      ensures Rank(key, s[k]) <= Rank(key, s[l])
    {
      assert s[..i][k] == s[k] && s[..i][l] == s[l];
    }
  }

  lemma {:induction false} SortedAroundStep(s: seq<Product>, key: SortKey, j: int, hi: int)
    requires 0 < j < hi <= |s| && SortedAround(s, key, j, hi)
    requires Rank(key, s[j - 1]) > Rank(key, s[j])
    ensures SortedAround(s[j - 1 := s[j]][j := s[j - 1]], key, j - 1, hi)
  {
    var t := s[j - 1 := s[j]][j := s[j - 1]];
    forall k, l | 0 <= k < l < hi && k != j - 1 && l != j - 1
      ensures Rank(key, t[k]) <= Rank(key, t[l])
    {
      if l == j {
        assert Rank(key, s[k]) <= Rank(key, s[j - 1]);
      } else if k == j {
        assert Rank(key, s[j - 1]) <= Rank(key, s[l]);
      }
    }
  }

  lemma SortedAroundDone(s: seq<Product>, key: SortKey, j: int, hi: int)
    requires 0 <= j < hi <= |s| && SortedAround(s, key, j, hi)
    requires j == 0 || Rank(key, s[j - 1]) <= Rank(key, s[j])
    ensures SortedBy(s[..hi], key)
  {
    forall k, l | 0 <= k < l < hi
      ensures Rank(key, s[k]) <= Rank(key, s[l])
    {
      if l == j && k < j - 1 {
        assert Rank(key, s[k]) <= Rank(key, s[j - 1]);
      }
    }
  }

  method Swap(a: array<Product>, i: int, j: int)
    requires 0 <= i < a.Length && 0 <= j < a.Length
    modifies a
    ensures a[..] == old(a[..])[i := old(a[j])][j := old(a[i])]
    ensures multiset(a[..]) == multiset(old(a[..]))
  {
    a[i], a[j] := a[j], a[i];
  }

  /** Moves `a[i]` down into the sorted prefix `a[..i]`. */
  method Insert(a: array<Product>, key: SortKey, i: int)
    requires 0 <= i < a.Length && SortedBy(a[..i], key)
    modifies a
    ensures SortedBy(a[..i + 1], key)
    ensures multiset(a[..]) == multiset(old(a[..]))
  {
    SortedAroundStart(a[..], key, i);
    var j := i;
    while j > 0 && Rank(key, a[j - 1]) > Rank(key, a[j])
      invariant 0 <= j <= i
      invariant SortedAround(a[..], key, j, i + 1)
      invariant multiset(a[..]) == multiset(old(a[..]))
    {
      SortedAroundStep(a[..], key, j, i + 1);
      Swap(a, j - 1, j);
      j := j - 1;
    }
    SortedAroundDone(a[..], key, j, i + 1);
  }

  /** `Array.prototype.sort` with the key's comparator, in place: the array
      ends up ordered by the key and holding the same products. */
  method Sort(a: array<Product>, key: SortKey)
    modifies a
    ensures SortedBy(a[..], key)
    ensures multiset(a[..]) == multiset(old(a[..]))
  {
    var i := 0;
    while i < a.Length
      invariant 0 <= i <= a.Length
      invariant SortedBy(a[..i], key)
      invariant multiset(a[..]) == multiset(old(a[..]))
    {
      Insert(a, key, i);
      i := i + 1;
    }
    assert a[..a.Length] == a[..];
  }

  // ---------------------------------------------------------------------------
  // Category details screen

  /** The products whose category contains `subCategory`, ignoring case,
      unless it is 'All'. */
  function SubCategoryFilter(products: seq<Product>, subCategory: string): (r: seq<Product>)
    ensures IsSubsequence(r, products)
    ensures subCategory == "All" ==> r == products
    ensures subCategory != "All" ==>
      forall p :: p in r <==> p in products && IncludesIgnoringCase(p.category, subCategory)
  {
    IsSubsequenceRefl(products);
    if subCategory != "All" then
      Filter(products, (p: Product) => IncludesIgnoringCase(p.category, subCategory))
    else products
  }

  /** The products whose name contains `query`, ignoring case, unless it is empty. */
  function SearchFilter(products: seq<Product>, query: string): (r: seq<Product>)
    ensures IsSubsequence(r, products)
    ensures query == "" ==> r == products
    ensures query != "" ==>
      forall p :: p in r <==> p in products && IncludesIgnoringCase(p.name, query)
  {
    IsSubsequenceRefl(products);
    if query != "" then
      Filter(products, (p: Product) => IncludesIgnoringCase(p.name, query))
    else products
  }

  /** The screen's list before sorting: the sub-category step, then the search step. */
  function CategoryProducts(catalog: seq<Product>, subCategory: string, query: string): (r: seq<Product>)
    ensures |r| <= |catalog|
    ensures forall p :: p in r ==> p in catalog
  {
    SearchFilter(SubCategoryFilter(catalog, subCategory), query)
  }

  /** Every product shown passes both active filters, and every catalog product
      that passes them is shown. */
  lemma CategoryProductsExact(catalog: seq<Product>, subCategory: string, query: string, p: Product)
    ensures p in CategoryProducts(catalog, subCategory, query) <==>
      && p in catalog
      && (subCategory != "All" ==> IncludesIgnoringCase(p.category, subCategory))
      && (query != "" ==> IncludesIgnoringCase(p.name, query))
  {
  }

  /** With 'All' and no query the whole catalog is listed, in catalog order. */
  lemma CategoryProductsUnfiltered(catalog: seq<Product>)
    ensures CategoryProducts(catalog, "All", "") == catalog
  {
  }

  /** `getSortedProducts`: sorts a copy, so its input is left alone; an
      unknown option keeps the filtered order. */
  method GetSortedProducts(categoryProducts: seq<Product>, sortBy: string) returns (sorted: seq<Product>)
    ensures multiset(sorted) == multiset(categoryProducts)
    ensures SortKeyOf(sortBy).Some? ==> SortedBy(sorted, SortKeyOf(sortBy).value)
    ensures SortKeyOf(sortBy).None? ==> sorted == categoryProducts
  {
    var copy := new Product[|categoryProducts|](i requires 0 <= i < |categoryProducts| => categoryProducts[i]);
    assert copy[..] == categoryProducts;
    var key := SortKeyOf(sortBy);
    if key.Some? {
      Sort(copy, key.value);
    }
    sorted := copy[..];
  }

  /** The category details screen's list: filters over the shared catalog, then
      a sorted copy. The catalog array is read, never reordered. */
  method CategoryDetailsList(catalog: array<Product>, subCategory: string, query: string, sortBy: string)
    returns (shown: seq<Product>)
    ensures multiset(shown) == multiset(CategoryProducts(catalog[..], subCategory, query))
    ensures SortKeyOf(sortBy).Some? ==> SortedBy(shown, SortKeyOf(sortBy).value)
    ensures SortKeyOf(sortBy).None? ==> shown == CategoryProducts(catalog[..], subCategory, query)
  {
    shown := GetSortedProducts(CategoryProducts(catalog[..], subCategory, query), sortBy);
  }

  // ---------------------------------------------------------------------------
  // Shop screen

  /** `topPicks`: sorts the shared catalog by rating, descending, in place,
      then takes the first ten. */
  method TopPicks(catalog: array<Product>) returns (picks: seq<Product>)
    modifies catalog
    ensures SortedBy(catalog[..], RatingDescending)
    ensures multiset(catalog[..]) == multiset(old(catalog[..]))
    ensures picks == Take(catalog[..], 10)
    ensures |picks| <= 10 && SortedBy(picks, RatingDescending)
  {
    Sort(catalog, RatingDescending);
    picks := Take(catalog[..], 10);
    SortedPrefix(catalog[..], RatingDescending, 10);
  }

  /** The tab step of `getFilteredProducts` for the tabs that do not sort:
      'All' keeps the list, '5-Star Rated' keeps rating exactly 5, 'New' is a
      reversed copy. */
  function TabFilter(products: seq<Product>, tab: ShopTab): (r: seq<Product>)
    requires tab != BestSellingItems
    ensures tab == AllTab ==> r == products
    ensures tab == FiveStarRated ==> IsSubsequence(r, products) && forall p :: p in r <==> p in products && p.rating == 5.0
    ensures tab == New ==> |r| == |products| && forall i :: 0 <= i < |r| ==> r[i] == products[|products| - 1 - i]
  {
    match tab
    case AllTab => products
    case FiveStarRated => Filter(products, (p: Product) => p.rating == 5.0)
    case New => Reverse(products)
  }

  /** `getFilteredProducts`: the tab step, then the search step. 'Best Selling
      Items' sorts the shared catalog in place by reviews, descending; the other
      tabs leave it as it is. */
  method GetFilteredProducts(catalog: array<Product>, tab: ShopTab, query: string) returns (filtered: seq<Product>)
    modifies catalog
    ensures tab != BestSellingItems ==> catalog[..] == old(catalog[..])
    ensures tab != BestSellingItems ==> filtered == SearchFilter(TabFilter(catalog[..], tab), query)
    ensures tab == BestSellingItems ==>
      && SortedBy(catalog[..], ReviewsDescending)
      && multiset(catalog[..]) == multiset(old(catalog[..]))
      && filtered == SearchFilter(catalog[..], query)
  {
    var tabbed: seq<Product>;
    if tab == BestSellingItems {
      Sort(catalog, ReviewsDescending);
      tabbed := catalog[..];
    } else {
      tabbed := TabFilter(catalog[..], tab);
    }
    filtered := SearchFilter(tabbed, query);
  }

  /** One render of the shop screen: top picks first, then the tab list, over
      the same catalog array. Because the top picks sort the catalog first,
      the 'All' tab without a query lists the catalog by rating, and so does
      '5-Star Rated' among its equal ratings, although neither tab sorts. */
  method RenderShopScreen(catalog: array<Product>, tab: ShopTab, query: string)
    returns (picks: seq<Product>, filtered: seq<Product>)
    modifies catalog
    ensures multiset(catalog[..]) == multiset(old(catalog[..]))
    ensures |picks| <= 10 && SortedBy(picks, RatingDescending)
    ensures tab == AllTab && query == "" ==> filtered == catalog[..] && SortedBy(filtered, RatingDescending)
    ensures tab == New && query == "" ==> SortedBy(Reverse(filtered), RatingDescending)
    ensures tab == BestSellingItems ==> SortedBy(catalog[..], ReviewsDescending)
    ensures tab != BestSellingItems ==> SortedBy(catalog[..], RatingDescending)
  {
    picks := TopPicks(catalog);
    ghost var ranked := catalog[..];
    filtered := GetFilteredProducts(catalog, tab, query);
    if tab != BestSellingItems {
      assert catalog[..] == ranked;
      if tab == New && query == "" {
        assert filtered == TabFilter(ranked, New);
        assert Reverse(filtered) == ranked;
      }
    }
  }
}
