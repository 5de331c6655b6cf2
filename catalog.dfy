/** The catalog page of app/catalog/page.tsx: the search query read from the address, the
    filter predicate over the product records, the in-place sort selected by `sortBy`, and
    the two handlers that look a product up by id and forward it to the store. */
module Catalog {
  import opened Wrappers
  import opened Keyed
  import opened Text
  import opened Sorting
  import opened SeqFacts
  import opened ProductFilters
  import ShopStore

  /** A catalog record; `rating` is in tenths of a star (4.8 is 48), an absent `isNew` is
      false and an absent `originalPrice` is `None`. */
  datatype CatalogProduct = CatalogProduct(
    id: Id, name: string, price: int, originalPrice: Option<int>, image: string,
    category: string, rating: int, reviews: int, isNew: bool, inStock: bool,
    lowStock: Option<bool>)

  function ProductId(p: CatalogProduct): Id { p.id }

  /** The six records the page lists. */
  function MockProducts(): seq<CatalogProduct> {
    [ CatalogProduct("1", "Handwoven Leather Tote Bag", 89, Some(120),
        "/placeholder.svg?height=300&width=300&text=Leather+Tote", "bags", 48, 24, true, true, None),
      CatalogProduct("2", "Abstract Canvas Painting", 150, None,
        "/placeholder.svg?height=300&width=300&text=Abstract+Art", "paintings", 49, 18, false, true, None),
      CatalogProduct("3", "Bohemian Crossbody Bag", 65, Some(85),
        "/placeholder.svg?height=300&width=300&text=Crossbody+Bag", "bags", 46, 32, false, true, Some(true)),
      CatalogProduct("4", "Handmade Silver Earrings", 45, None,
        "/placeholder.svg?height=300&width=300&text=Silver+Earrings", "accessories", 47, 15, false, false, None),
      CatalogProduct("5", "Vintage Canvas Tote", 55, None,
        "/placeholder.svg?height=300&width=300&text=Canvas+Tote", "totes", 45, 28, false, true, None),
      CatalogProduct("6", "Watercolor Landscape", 200, None,
        "/placeholder.svg?height=300&width=300&text=Watercolor+Art", "paintings", 49, 12, true, true, None) ]
  }

  /** `(searchParams.get("q") || "").trim().toLowerCase()`. */
  function SearchQuery(param: Option<string>): string {
    ToLower(Trim(param.GetOr("")))
  }

  /** The filter callback: each `if` rejects a product that fails one active criterion.
      `q` is the normalised query. */
  predicate Passes(p: CatalogProduct, filters: FilterState, q: string) {
    if q != "" && !(Includes(ToLower(p.name), q) || Includes(ToLower(p.category), q)) then false
    else if |filters.categories| > 0 && p.category !in filters.categories then false
    else if p.price < filters.priceRange.0 || p.price > filters.priceRange.1 then false
    else if filters.inStock && !p.inStock then false
    else if filters.onSale && (p.originalPrice.None? || p.originalPrice.value == 0) then false
    else if filters.rating > 0 && p.rating < 10 * filters.rating then false
    else true
  }

  /** `mockProducts.filter(...)`: the passing products, each as often as it occurs, in order. */
  function Filter(products: seq<CatalogProduct>, filters: FilterState, q: string): (r: seq<CatalogProduct>)
    ensures forall x :: x in r <==> x in products && Passes(x, filters, q)
    ensures forall x :: multiset(r)[x] == if Passes(x, filters, q) then multiset(products)[x] else 0
  {
    if |products| == 0 then []
    else
      var rest := Filter(products[1..], filters, q);
      SplitFirst(products);
      assert forall x :: x in products <==> x == products[0] || x in products[1..];
      if Passes(products[0], filters, q) then [products[0]] + rest else rest
  }

  /** The `sortBy` switch; every key it does not name falls through to "newest". */
  datatype SortOrder = PriceLow | PriceHigh | ByRating | Newest

  function SortOrderOf(sortBy: string): SortOrder {
    if sortBy == "price-low" then PriceLow
    else if sortBy == "price-high" then PriceHigh
    else if sortBy == "rating" then ByRating
    else Newest
  }

  /** Each comparator of the switch is `key(a) - key(b)` for one of these keys. */
  function PriceKey(p: CatalogProduct): int { p.price }
  function PriceDescKey(p: CatalogProduct): int { -p.price }
  function RatingDescKey(p: CatalogProduct): int { -p.rating }
  function NewFirstKey(p: CatalogProduct): int { if p.isNew then -1 else 0 }

  function KeyFor(order: SortOrder): CatalogProduct -> int {
    match order
    case PriceLow => PriceKey
    case PriceHigh => PriceDescKey
    case ByRating => RatingDescKey
    case Newest => NewFirstKey
  }

  /** What each order promises of a sequence sorted by its key. */
  predicate Ordered(s: seq<CatalogProduct>, order: SortOrder) {
    match order
    case PriceLow => forall i, j :: 0 <= i < j < |s| ==> s[i].price <= s[j].price
    case PriceHigh => forall i, j :: 0 <= i < j < |s| ==> s[i].price >= s[j].price
    case ByRating => forall i, j :: 0 <= i < j < |s| ==> s[i].rating >= s[j].rating
    case Newest => forall i, j :: 0 <= i < j < |s| && s[j].isNew ==> s[i].isNew
  }

  lemma SortedByKeyIsOrdered(s: seq<CatalogProduct>, order: SortOrder)
    requires SortedBy(s, KeyFor(order))
    ensures Ordered(s, order)
  {
    match order
    case PriceLow =>
    case PriceHigh =>
      forall i, j | 0 <= i < j < |s| ensures s[i].price >= s[j].price {
        assert PriceDescKey(s[i]) <= PriceDescKey(s[j]);
      }
    case ByRating =>
      forall i, j | 0 <= i < j < |s| ensures s[i].rating >= s[j].rating {
        assert RatingDescKey(s[i]) <= RatingDescKey(s[j]);
      }
    case Newest =>
      forall i, j | 0 <= i < j < |s| && s[j].isNew ensures s[i].isNew {
        assert NewFirstKey(s[i]) <= NewFirstKey(s[j]);
      }
  }

  /** The memoised `filteredProducts`: filter into a fresh array, then sort that array in
      place by the selected key. The result holds exactly the passing products, ordered as
      `sortBy` asks, with ties in catalog order. */
  method FilteredProducts(products: seq<CatalogProduct>, filters: FilterState, sortBy: string, q: string)
    returns (r: seq<CatalogProduct>)
    ensures forall x :: x in r <==> x in products && Passes(x, filters, q)
    ensures forall x :: multiset(r)[x] == if Passes(x, filters, q) then multiset(products)[x] else 0
    ensures Ordered(r, SortOrderOf(sortBy))
    ensures forall v :: WithKey(r, KeyFor(SortOrderOf(sortBy)), v) ==
                        WithKey(Filter(products, filters, q), KeyFor(SortOrderOf(sortBy)), v)
    ensures r == StableSort(Filter(products, filters, q), KeyFor(SortOrderOf(sortBy)))
  {
    var filtered := Filter(products, filters, q);
    var a := new CatalogProduct[|filtered|](i requires 0 <= i < |filtered| => filtered[i]);
    assert a[..] == filtered;
    var key := KeyFor(SortOrderOf(sortBy));
    SortInPlace(a, key);
    r := a[..];
    StableSortSorted(filtered, key);
    SortedByKeyIsOrdered(r, SortOrderOf(sortBy));
    forall v {
      StableSortIsStable(filtered, key, v);
    }
    assert forall x :: x in r <==> multiset(r)[x] > 0;
  }

  /** The store product `handleAddToCart` builds from a record. */
  function CartProductOf(p: CatalogProduct): ShopStore.Product {
    ShopStore.Product(p.id, p.name, p.price, p.originalPrice, p.image, p.category, Some(p.inStock), p.lowStock)
  }

  /** The wishlist input `handleAddToWishlist` builds; `rating ?? 0` and `reviews ?? 0`
      keep the record's values, which every record has. */
  function WishlistInputOf(p: CatalogProduct): ShopStore.WishlistInput {
    ShopStore.WishlistInput(p.id, p.name, p.price, p.originalPrice, p.image, p.category,
                            Some(p.rating), Some(p.reviews), Some(p.inStock), p.lowStock)
  }

  /** The page: `filters` and `sortBy` are its state; the store is shared. */
  class CatalogPage {
    const products: seq<CatalogProduct>
    const store: ShopStore.Store
    var filters: FilterState
    var sortBy: string

    constructor (store: ShopStore.Store)
      ensures this.store == store && products == MockProducts()
      ensures filters == Cleared() && sortBy == "newest"
    {
      this.store := store;
      products := MockProducts();
      filters := Cleared();
      sortBy := "newest";
    }

    /** `setFilters`, the panel's `onFiltersChange`. */
    method SetFilters(next: FilterState)
      modifies this
      ensures filters == next && sortBy == old(sortBy)
    {
      filters := next;
    }

    /** `setSortBy` from the sort selector. */
    method SetSortBy(next: string)
      modifies this
      ensures sortBy == next && filters == old(filters)
    {
      sortBy := next;
    }

    /** The products shown for the current state and the normalised query `q`. */
    method Shown(q: string) returns (r: seq<CatalogProduct>)
      ensures forall x :: x in r <==> x in products && Passes(x, filters, q)
      ensures Ordered(r, SortOrderOf(sortBy))
      ensures r == StableSort(Filter(products, filters, q), KeyFor(SortOrderOf(sortBy)))
    {
      r := FilteredProducts(products, filters, sortBy, q);
    }

    /** `handleAddToCart(productId, quantity = 1)`: an unknown id changes nothing; otherwise
        the first record with that id is added with `quantity`. */
    method HandleAddToCart(productId: Id, quantity: int := 1)
      modifies store
      ensures var i := IndexOf(products, ProductId, productId);
        if i < 0 then store.State() == old(store.State())
        else store.State() == old(store.State()).AddToCart(CartProductOf(products[i]), quantity)
      ensures old(store.State()).Valid() ==> store.State().Valid()
    {
      var i := IndexOf(products, ProductId, productId);
      if i < 0 {
        return;
      }
      store.AddToCart(CartProductOf(products[i]), quantity);
    }

    /** `handleAddToWishlist(productId)`: an unknown id changes nothing; otherwise the first
        record with that id is saved. */
    method HandleAddToWishlist(productId: Id)
      modifies store
      ensures var i := IndexOf(products, ProductId, productId);
        if i < 0 then store.State() == old(store.State())
        else store.State() == old(store.State()).AddToWishlist(WishlistInputOf(products[i]))
      ensures old(store.State()).Valid() ==> store.State().Valid()
    {
      var i := IndexOf(products, ProductId, productId);
      if i < 0 {
        return;
      }
      store.AddToWishlist(WishlistInputOf(products[i]));
    }
  }

  // ---------------------------------------------------------------------------------
  // Properties

  /** A product passes exactly when it meets every active criterion. */
  lemma PassesIff(p: CatalogProduct, filters: FilterState, q: string)
    ensures Passes(p, filters, q) <==>
      (q == "" || Includes(ToLower(p.name), q) || Includes(ToLower(p.category), q)) &&
      (filters.categories == [] || p.category in filters.categories) &&
      filters.priceRange.0 <= p.price <= filters.priceRange.1 &&
      (filters.inStock ==> p.inStock) &&
      (filters.onSale ==> p.originalPrice.Some? && p.originalPrice.value != 0) &&
      (filters.rating > 0 ==> p.rating >= 10 * filters.rating)
  {
  }

  /** With the initial (or cleared) filters and no query, exactly the products priced in
      [0, 500] pass. */
  lemma ClearedFiltersPassPriceRange(p: CatalogProduct)
    ensures Passes(p, Cleared(), "") <==> 0 <= p.price <= 500
  {
  }

  /** A missing or blank `q` parameter gives the empty query, which rejects nothing. */
  lemma {:induction false} BlankQueryRejectsNothing(param: Option<string>)
    ensures SearchQuery(None) == ""
    ensures param.Some? ==> (SearchQuery(param) == "" <==> AllWhitespace(param.value))
  {
    if param.Some? {
      TrimEmptyIff(param.value);
    }
  }

  /** Filtering keeps a list whose every product passes unchanged. */
  lemma {:induction false} FilterKeepsPassing(products: seq<CatalogProduct>, filters: FilterState, q: string)
    requires forall i :: 0 <= i < |products| ==> Passes(products[i], filters, q)
    ensures Filter(products, filters, q) == products
  {
    if |products| > 0 {
      var rest := products[1..];
      assert forall i :: 0 <= i < |rest| ==> rest[i] == products[i + 1];
      FilterKeepsPassing(rest, filters, q);
      SplitFirst(products);
    }
  }

  /** Every one of the six records passes the initial filters, so the initial page lists
      all of them. */
  lemma MockProductsAllShownInitially()
    ensures Filter(MockProducts(), Cleared(), "") == MockProducts()
  {
    var m := MockProducts();
    forall i | 0 <= i < |m| ensures Passes(m[i], Cleared(), "") {
      ClearedFiltersPassPriceRange(m[i]);
    }
    FilterKeepsPassing(m, Cleared(), "");
  }

  /** A sequence sorted by the "newest" key is its new products followed by the others. */
  lemma {:induction false} NewFirstSplit(r: seq<CatalogProduct>)
    requires SortedBy(r, NewFirstKey)
    ensures r == WithKey(r, NewFirstKey, -1) + WithKey(r, NewFirstKey, 0)
  {
    if |r| > 0 {
      NewFirstSplit(r[1..]);
      if !r[0].isNew {
        WithKeyAboveIsEmpty(r[1..], NewFirstKey, -1);
      }
      SplitFirst(r);
    }
  }

  /** "newest" lists every new product, in catalog order, then every other product, in
      catalog order. */
  lemma NewestPartition(s: seq<CatalogProduct>)
    ensures StableSort(s, NewFirstKey) == WithKey(s, NewFirstKey, -1) + WithKey(s, NewFirstKey, 0)
  {
    StableSortSorted(s, NewFirstKey);
    NewFirstSplit(StableSort(s, NewFirstKey));
    StableSortIsStable(s, NewFirstKey, -1);
    StableSortIsStable(s, NewFirstKey, 0);
  }
}
