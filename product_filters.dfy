/** The filter panel of components/product-filters.tsx. It holds no state of its own:
    every handler builds the next `FilterState` from the current one and hands it to
    `onFiltersChange`, so each handler is a function from the current filters to the
    filters it forwards. */
module ProductFilters {
  import opened Keyed

  /** `rating` is a whole number of stars; 0 means no minimum. */
  datatype FilterState = FilterState(
    categories: seq<string>, priceRange: (int, int), inStock: bool, onSale: bool, rating: int)

  /** A category id is its own key in the `filter(id => id !== categoryId)` of the panel. */
  function CategoryKey(c: string): Id { c }

  /** The filters `clearFilters` forwards, and the catalog's initial filters. */
  function Cleared(): FilterState {
    FilterState([], (0, 500), false, false, 0)
  }

  /** `handleCategoryChange(categoryId, checked)`. */
  function CategoryChanged(filters: FilterState, categoryId: string, checked: bool): FilterState {
    filters.(categories :=
      if checked then filters.categories + [categoryId]
      else Without(filters.categories, CategoryKey, categoryId))
  }

  /** `handlePriceChange(value)`. */
  function PriceChanged(filters: FilterState, value: (int, int)): FilterState {
    filters.(priceRange := value)
  }

  /** The "In Stock Only" checkbox. */
  function InStockChanged(filters: FilterState, checked: bool): FilterState {
    filters.(inStock := checked)
  }

  /** The "On Sale" checkbox. */
  function OnSaleChanged(filters: FilterState, checked: bool): FilterState {
    filters.(onSale := checked)
  }

  /** The checkbox of minimum rating `rating`: checked selects it, unchecked clears the minimum. */
  function RatingChanged(filters: FilterState, rating: int, checked: bool): FilterState {
    filters.(rating := if checked then rating else 0)
  }

  /** `clearFilters()`: the current filters play no part in what is forwarded. */
  function ClearFilters(filters: FilterState): FilterState {
    Cleared()
  }

  /** Two filter states that agree on everything but the categories. */
  predicate SameExceptCategories(a: FilterState, b: FilterState) {
    a.priceRange == b.priceRange && a.inStock == b.inStock && a.onSale == b.onSale && a.rating == b.rating
  }

  // ---------------------------------------------------------------------------------
  // Properties

  /** Checking a category appends it at the end, even when it is already selected. */
  lemma CheckCategoryAppends(filters: FilterState, c: string)
    ensures var r := CategoryChanged(filters, c, true);
      |r.categories| == |filters.categories| + 1 &&
      r.categories[..|filters.categories|] == filters.categories &&
      r.categories[|filters.categories|] == c &&
      SameExceptCategories(r, filters)
  {
  }

  /** Unchecking a category removes every occurrence of it and keeps every other one. */
  lemma UncheckCategoryRemoves(filters: FilterState, c: string)
    ensures var r := CategoryChanged(filters, c, false);
      c !in r.categories &&
      (forall x :: x in r.categories <==> x in filters.categories && x != c) &&
      (c !in filters.categories ==> r == filters) &&
      SameExceptCategories(r, filters)
  {
  }

  /** Checking a category that was not selected and then unchecking it restores the filters. */
  lemma CheckThenUncheck(filters: FilterState, c: string)
    requires c !in filters.categories
    ensures CategoryChanged(CategoryChanged(filters, c, true), c, false) == filters
  {
    var cs := filters.categories;
    WithoutAppend(cs, [c], CategoryKey, c);
    UncheckCategoryRemoves(filters, c);
    assert Without([c], CategoryKey, c) == [];
  }

  /** Unchecking twice is unchecking once. */
  lemma UncheckIdempotent(filters: FilterState, c: string)
    ensures CategoryChanged(CategoryChanged(filters, c, false), c, false) == CategoryChanged(filters, c, false)
  {
    UncheckCategoryRemoves(CategoryChanged(filters, c, false), c);
  }

  /** The price, in-stock, on-sale and rating updates set their own field and copy the rest. */
  lemma UpdatesTouchOnlyTheirField(filters: FilterState, value: (int, int), checked: bool, rating: int)
    ensures PriceChanged(filters, value) ==
      FilterState(filters.categories, value, filters.inStock, filters.onSale, filters.rating)
    ensures InStockChanged(filters, checked) ==
      FilterState(filters.categories, filters.priceRange, checked, filters.onSale, filters.rating)
    ensures OnSaleChanged(filters, checked) ==
      FilterState(filters.categories, filters.priceRange, filters.inStock, checked, filters.rating)
    ensures RatingChanged(filters, rating, checked) ==
      FilterState(filters.categories, filters.priceRange, filters.inStock, filters.onSale,
                  if checked then rating else 0)
  {
  }

  /** Checking rating r selects r; unchecking any rating clears the minimum. */
  lemma RatingCheckbox(filters: FilterState, rating: int)
    ensures RatingChanged(filters, rating, true).rating == rating
    ensures RatingChanged(filters, rating, false).rating == 0
    ensures RatingChanged(RatingChanged(filters, rating, true), rating, false) == filters.(rating := 0)
  {
  }

  /** Clearing forwards the same filters whatever the input, so clearing is idempotent. */
  lemma ClearFiltersIdempotent(a: FilterState, b: FilterState)
    ensures ClearFilters(a) == ClearFilters(b)
    ensures ClearFilters(ClearFilters(a)) == ClearFilters(a)
    ensures ClearFilters(a).categories == [] && ClearFilters(a).priceRange == (0, 500)
    ensures !ClearFilters(a).inStock && !ClearFilters(a).onSale && ClearFilters(a).rating == 0
  {
  }
}
