# A verified model of the storefront's cart, catalog and checkout logic

This project is a Dafny model of the sequential logic of a small Next.js storefront for
handmade goods.

**The store (`lib/shop-store.ts`).** The centre of the model is the cart/wishlist store:

- two ordered lists keyed by product id: cart lines with a quantity, and saved wishlist
  entries;
- eight actions that replace them: add, update quantity, remove and clear for the cart; add
  and remove for the wishlist; and the two moves between the lists;
- two derived sums: the unit count and the subtotal.

Each action's `set(state => ...)` updater is a pure function on the value `ShopState`. The
store object is the class `Store`. Its methods assign the two `seq` fields and are proved
to perform exactly those updates. They are also proved to keep the ids of each list
distinct.

**The pages and components.** Around the store sit the rules embedded in the page and
component handlers:

- the catalog's filter predicate and its sort. `Array.prototype.sort` is stable, and every
  comparator here is a difference of keys, so the sorted result is fully determined. It is
  modelled as an in-place stable insertion sort on an array, which produces that result;
- the catalog's lookup-and-forward handlers;
- the checkout's four-step counter, prices, delivery options and address book;
- the cart page's item count, shipping and discount-code lookup;
- the summary panel's free-shipping remainder and blank-code guard;
- the cart line's [1, 10] quantity guard and the cart drawer's forwarded values;
- the quick-view quantity counter and heart;
- the filter panel's record updates;
- the image gallery's wrap-around index, and the suggested-products carousel;
- the review distribution, review orderings and the "Load More" condition.

**Conventions.**

- Money and quantities are `int`, as every price in the data is whole.
- Catalog ratings are integer tenths of a star: 4.8 is 48.
- A callback prop such as `onUpdateQuantity` is modelled as the arguments the handler hands
  to it, as a returned value. No call is made.
- JavaScript's truncating `%` is written out as `JsRem`.
- Case mapping covers ASCII letters.

**Where the model follows the code, not the documented invariant.** The store's documented
invariant keeps every cart quantity in [1, 10], and says that re-adding a product is clamped
to 10. The code does not do this, and the model follows the code:

- `addToCart` adds to an existing line with no bound (`lib/shop-store.ts:66`);
- `moveWishlistToCart` caps at 10 from above only (`lib/shop-store.ts:131`);
- only `updateQuantity` clamps to [1, 10] (`lib/shop-store.ts:82`).

So the invariant proved for the store is that ids are distinct. `QuantityRulesDiffer` shows
the three rules side by side.

Modules:

| module | file |
|---|---|
| `Wrappers` | `Option` |
| `SeqFacts` | facts about slicing and concatenation |
| `Keyed` | `findIndex` and `filter` by id |
| `Sums` | the `reduce` sums |
| `Sorting` | the stable sort |
| `Text` | `trim`, case mapping, `includes` |
| `ShopStore`, `ShopStoreProperties` | the store |
| `Catalog`, `ProductFilters` | the catalog page and filter panel |
| `Checkout` | the checkout page |
| `CartPage`, `CartSummary`, `CartItemView`, `CartDrawer` | the cart views |
| `QuickView`, `ImageGallery`, `SuggestedProducts`, `ProductReviews` | the product components |

## Model

| member | source | states |
|---|---|---|
| ShopStore.Store.constructor | lib/shop-store.ts:55-56 | the cart and the wishlist start empty, and the id invariant holds |
| ShopStore.Store.CartCount | lib/shop-store.ts:58 | the unit count is 0 for an empty cart and never negative when no quantity is |
| ShopStore.Store.CartSubtotal | lib/shop-store.ts:59 | the subtotal is 0 for an empty cart and never negative when prices and quantities are not |
| ShopStore.Store.AddToCart | lib/shop-store.ts:61-78 | the new state is `addToCart`'s update of the old one, and distinct ids stay distinct |
| ShopStore.Store.UpdateQuantity | lib/shop-store.ts:80-83 | the new state is `updateQuantity`'s update, and distinct ids stay distinct |
| ShopStore.Store.RemoveFromCart | lib/shop-store.ts:85 | the new state is `removeFromCart`'s update, and distinct ids stay distinct |
| ShopStore.Store.ClearCart | lib/shop-store.ts:87 | the new state is `clearCart`'s update, and distinct ids stay distinct |
| ShopStore.Store.AddToWishlist | lib/shop-store.ts:89-99 | the new state is `addToWishlist`'s update, and distinct ids stay distinct |
| ShopStore.Store.RemoveFromWishlist | lib/shop-store.ts:101 | the new state is `removeFromWishlist`'s update, and distinct ids stay distinct |
| ShopStore.Store.MoveCartToWishlist | lib/shop-store.ts:103-123 | the new state is `moveCartToWishlist`'s update, and distinct ids stay distinct |
| ShopStore.Store.MoveWishlistToCart | lib/shop-store.ts:125-150 | the new state is `moveWishlistToCart`'s update, and distinct ids stay distinct |
| ShopStore.AddToCartKeepsValid | lib/shop-store.ts:63-77 | with distinct cart ids before `addToCart`, they are distinct after |
| ShopStore.UpdateQuantityKeepsValid | lib/shop-store.ts:80-83 | `updateQuantity` keeps the ids distinct |
| ShopStore.RemoveKeepsValid | lib/shop-store.ts:85-101 | removing an id from either list keeps the ids distinct |
| ShopStore.AddToWishlistKeepsValid | lib/shop-store.ts:89-99 | `addToWishlist` keeps the wishlist ids distinct |
| ShopStore.MoveCartToWishlistKeepsValid | lib/shop-store.ts:103-123 | moving a line to the wishlist keeps both lists' ids distinct |
| ShopStore.MoveWishlistToCartKeepsValid | lib/shop-store.ts:125-150 | moving an entry to the cart keeps both lists' ids distinct |
| ShopStore.WithQuantity | lib/shop-store.ts:82 | the `map` keeps length and order, and gives every line with the id the new quantity, leaving the others as they were |
| ShopStoreProperties.AddToCartExistingLine | lib/shop-store.ts:63-67 | re-adding an id changes only its first line, whose quantity grows by `quantity` with no clamp; length, order, the other lines and the wishlist are unchanged |
| ShopStoreProperties.AddToCartNewLine | lib/shop-store.ts:69-77 | a new id is appended at the end as `{...product, quantity}`; the earlier lines are unchanged |
| ShopStoreProperties.AddToCartDefaultQuantity | lib/shop-store.ts:61 | the quantity defaults to 1 |
| ShopStoreProperties.AddToCartTotals | lib/shop-store.ts:58-78 | `addToCart(p, q)` raises `cartCount` by q, and `cartSubtotal` by q times the price of the line it lands on |
| ShopStoreProperties.BumpedLineTotals | lib/shop-store.ts:58-67 | raising one line's quantity by q raises the count by q and the subtotal by its price times q |
| ShopStoreProperties.AppendedLineTotals | lib/shop-store.ts:58-77 | appending a line adds its quantity to the count and its price times quantity to the subtotal |
| ShopStoreProperties.AddToCartAccumulates | lib/shop-store.ts:61-78 | any run of `addToCart` calls for a new id leaves exactly one line for it, after the old lines, holding the sum of the quantities |
| ShopStoreProperties.AddTwiceScenario | lib/shop-store.ts:58-78 | adding product "1" at 89 with quantities 2 then 1 gives one line of 3, a count of 3 and a subtotal of 267 |
| ShopStoreProperties.UpdateQuantityClamps | lib/shop-store.ts:80-83 | every line with the id gets `min(10, max(1, q))`, which is in [1, 10]; ids, order and the other lines are untouched; an absent id changes nothing |
| ShopStoreProperties.UpdateQuantityIdempotent | lib/shop-store.ts:80-83 | setting a quantity twice is setting it once |
| ShopStoreProperties.RemoveFromCartEffect | lib/shop-store.ts:85 | every line with the id is dropped and exactly the others are kept; an absent id changes nothing |
| ShopStoreProperties.RemoveFromCartDropsOneLine | lib/shop-store.ts:85 | with distinct ids, removing a present id drops exactly its line and keeps the lines before and after it in order |
| ShopStoreProperties.RemoveFromCartTotals | lib/shop-store.ts:58-85 | removing a present id takes its units out of `cartCount` and its price times quantity out of `cartSubtotal` |
| ShopStoreProperties.RemovedLineTotals | lib/shop-store.ts:58-85 | dropping one line lowers the count by its quantity and the subtotal by its price times quantity |
| ShopStoreProperties.ClearCartEffect | lib/shop-store.ts:87 | the cart is empty, the wishlist unchanged, and both sums are 0 |
| ShopStoreProperties.AddToWishlistEffect | lib/shop-store.ts:89-99 | a saved id changes nothing; a new one is appended, with rating and reviews defaulting to 0 only when absent |
| ShopStoreProperties.AddToWishlistIdempotent | lib/shop-store.ts:91-92 | adding the same entry twice is adding it once |
| ShopStoreProperties.RemoveFromWishlistEffect | lib/shop-store.ts:101 | the id is gone, exactly the other entries are kept, the cart is unchanged, and an absent id changes nothing |
| ShopStoreProperties.MoveCartToWishlistEffect | lib/shop-store.ts:103-123 | an id not in the cart changes nothing; otherwise its lines leave the cart, and its first line is saved with rating 0 and 0 reviews unless the id is already saved |
| ShopStoreProperties.MoveWishlistToCartEffect | lib/shop-store.ts:125-150 | an id not saved changes nothing; otherwise it leaves the wishlist, and either each line with the id becomes `min(10, q + 1)` or a line of quantity 1 is appended |
| ShopStoreProperties.MoveRoundTrip | lib/shop-store.ts:103-150 | moving a line to the wishlist and back loses its quantity: it returns at the end of the cart with quantity 1, and the wishlist is as before |
| ShopStoreProperties.QuantityRulesDiffer | lib/shop-store.ts:66-131 | from quantity 10, `addToCart` reaches 11 while the other two stay at 10; from 0, `moveWishlistToCart` and `updateQuantity(id, 0)` give 1 |
| Keyed.IndexOf | lib/shop-store.ts:63 | `findIndex` returns -1 exactly when no element has the id, and otherwise the first position that has it |
| Keyed.Without | lib/shop-store.ts:85 | `filter(it => it.id !== k)` keeps exactly the elements without the id, and is the identity when the id is absent |
| Keyed.WithoutAppend | lib/shop-store.ts:85 | filtering distributes over concatenation, so the kept elements keep their order |
| Keyed.WithoutOnlyAt | lib/shop-store.ts:85 | when one position holds the id, filtering drops exactly that element |
| Keyed.WithoutKeepsDistinct | lib/shop-store.ts:85-101 | filtering keeps ids distinct |
| Keyed.AppendNewKeepsDistinct | lib/shop-store.ts:69-98 | appending an element with a new id keeps ids distinct |
| Sums.SumOfAppend | lib/shop-store.ts:58-59 | a `reduce` sum over a concatenation is the sum of the two sums |
| Sums.SumOfUpdate | lib/shop-store.ts:66 | replacing one element changes the sum by the difference of the two terms |
| Sums.SumOfRemove | lib/shop-store.ts:85 | dropping one element takes its term out of the sum |
| Sums.SumOfNonNegative | lib/shop-store.ts:58-59 | a sum of non-negative terms is non-negative |
| Catalog.Filter | app/catalog/page.tsx:112-138 | the filtered list holds exactly the passing products, each as often as in the catalog |
| Catalog.PassesIff | app/catalog/page.tsx:113-137 | a product passes exactly when it matches the query in name or category, is in a selected category if any are selected, is priced in the range, is in stock if required, has an original price if on sale is required, and meets the minimum rating if one is set |
| Catalog.ClearedFiltersPassPriceRange | app/catalog/page.tsx:92-138 | with the initial filters and no query, exactly the products priced in [0, 500] pass |
| Catalog.BlankQueryRejectsNothing | app/catalog/page.tsx:108 | a missing `q` parameter, or one that is all white space, gives the empty query |
| Catalog.FilterKeepsPassing | app/catalog/page.tsx:112-138 | filtering keeps a list whose every product passes unchanged |
| Catalog.MockProductsAllShownInitially | app/catalog/page.tsx:16-138 | with the initial filters and no query, all six records are listed, in order |
| Catalog.SortedByKeyIsOrdered | app/catalog/page.tsx:140-154 | sorting by the key of "price-low", "price-high", "rating" or "newest" gives non-decreasing prices, non-increasing prices, non-increasing ratings, or new products first |
| Catalog.FilteredProducts | app/catalog/page.tsx:111-157 | the list holds exactly the passing products, as often as in the catalog, ordered as `sortBy` asks, with equal keys in catalog order |
| Catalog.NewFirstSplit | app/catalog/page.tsx:152 | a list sorted by the "newest" key is its new products followed by the others |
| Catalog.NewestPartition | app/catalog/page.tsx:150-153 | "newest", and any unknown key, lists the new products in catalog order, then the others in catalog order |
| Catalog.CatalogPage.constructor | app/catalog/page.tsx:92-99 | the page starts with the six records, the cleared filters and "newest" |
| Catalog.CatalogPage.SetFilters | app/catalog/page.tsx:92 | `setFilters` replaces the filters only |
| Catalog.CatalogPage.SetSortBy | app/catalog/page.tsx:99 | `setSortBy` replaces the sort key only |
| Catalog.CatalogPage.Shown | app/catalog/page.tsx:111-157 | the shown list holds exactly the passing records, ordered by `sortBy` |
| Catalog.CatalogPage.HandleAddToCart | app/catalog/page.tsx:180-196 | an unknown id changes nothing; otherwise the first record with the id is added with `quantity`, which defaults to 1 |
| Catalog.CatalogPage.HandleAddToWishlist | app/catalog/page.tsx:163-178 | an unknown id changes nothing; otherwise the first record with the id is saved with its rating and reviews |
| ProductFilters.CheckCategoryAppends | components/product-filters.tsx:34-40 | checking a category appends it at the end, even when it is already selected, and copies the other fields |
| ProductFilters.UncheckCategoryRemoves | components/product-filters.tsx:37-39 | unchecking removes every occurrence and keeps the other categories; an unselected category changes nothing |
| ProductFilters.CheckThenUncheck | components/product-filters.tsx:34-40 | checking a category that was not selected and then unchecking it restores the filters |
| ProductFilters.UncheckIdempotent | components/product-filters.tsx:37 | unchecking twice is unchecking once |
| ProductFilters.UpdatesTouchOnlyTheirField | components/product-filters.tsx:42-170 | the price, in-stock, on-sale and rating updates each change only their own field |
| ProductFilters.RatingCheckbox | components/product-filters.tsx:166-171 | checking rating r selects r; unchecking clears the minimum to 0 |
| ProductFilters.ClearFiltersIdempotent | components/product-filters.tsx:46-54 | clearing forwards `{[], [0, 500], false, false, 0}` whatever the input, so clearing is idempotent |
| Checkout.CheckoutPage.constructor | app/checkout/page.tsx:62-67 | step 0, the two mock addresses, address "1" and standard delivery |
| Checkout.CheckoutPage.CurrentShipping | app/checkout/page.tsx:72-73 | for the page's lines, shipping is 0 exactly when express is not chosen, and 15 for express |
| Checkout.CheckoutPage.HandleNext | app/checkout/page.tsx:92-96 | Continue advances below the last step only, keeps the step in [0, 3], and changes nothing else |
| Checkout.CheckoutPage.HandleBack | app/checkout/page.tsx:98-102 | Back goes back above step 0 only, keeps the step in [0, 3], and changes nothing else |
| Checkout.CheckoutPage.SelectDelivery | app/checkout/page.tsx:240 | the radio group sets the delivery only |
| Checkout.CheckoutPage.HandleAddAddress | app/checkout/page.tsx:127-134 | the address is appended with the fresh id, earlier addresses stay, and the new id is selected |
| Checkout.StepsStayInRange | app/checkout/page.tsx:71-102 | both handlers keep the step in [0, 3]; Continue stays put only at 3, Back only at 0 |
| Checkout.NextBackRoundTrip | app/checkout/page.tsx:92-102 | Continue then Back returns to any step below 3, and Back then Continue to any step above 0 |
| Checkout.ButtonsMatchHandlers | app/checkout/page.tsx:336-339 | Back is enabled exactly when Back moves, and Continue is shown exactly when Continue moves |
| Checkout.MockSubtotal | app/checkout/page.tsx:19-72 | the two mock lines come to 328 |
| Checkout.ShippingRule | app/checkout/page.tsx:73 | express costs 15; otherwise shipping is 0 exactly from a subtotal of 75 on, and 10 below |
| Checkout.DeliveryOptionsAgreeWithShipping | app/checkout/page.tsx:73-90 | the listed price of the selected option is the shipping charged, and express lists 15 |
| Checkout.FindAddress | app/checkout/page.tsx:301 | `find` by id yields nothing exactly when no address has the id, and otherwise an address of the book with that id |
| Checkout.AddedAddressIsFound | app/checkout/page.tsx:127-134 | after an address is added and selected, looking up the selected id finds the entered address under its fresh id, unless an earlier address already had that id, in which case the earlier one is found |
| CartPage.Page.constructor | app/cart/page.tsx:20 | the discount starts at 0 |
| CartPage.Page.ItemCount | app/cart/page.tsx:24 | the item count is the store's `cartCount` |
| CartPage.Page.Shipping | app/cart/page.tsx:25 | shipping is 0 exactly from a subtotal of 75 on, and 10 otherwise |
| CartPage.Page.HandleApplyDiscount | app/cart/page.tsx:41-50 | the discount is replaced by the looked-up amount of the upper-cased code |
| CartPage.DiscountIgnoresCase | app/cart/page.tsx:48 | a code gives the same discount in lower, upper or mixed case |
| CartPage.FreeshipCoversShipping | app/cart/page.tsx:45-48 | "freeship" and "FREESHIP" both take off exactly the shipping |
| CartPage.UpperCaseCode | app/cart/page.tsx:48 | a code whose upper-case form is a known code gets that code's discount |
| CartPage.DiscountRange | app/cart/page.tsx:42-48 | an unknown code gives 0; a known one takes off at most a fifth of the subtotal, or the shipping |
| CartPage.RemainingAgreesWithShipping | app/cart/page.tsx:25 | the summary's remainder is 0 exactly when the page charges no shipping |
| CartPage.OtherLengthIsUnknown | app/cart/page.tsx:42-48 | a code whose length is not that of a known code gives 0 |
| CartPage.PaddedCodeIsAccepted | app/cart/page.tsx:48 | " save10", with a leading space, passes the summary's guard |
| CartPage.PaddedCodeIsUnknown | app/cart/page.tsx:48 | the page matches " save10" as no code, while "save10" gives a tenth of the subtotal |
| CartSummary.SummaryPanel.constructor | components/cart-summary.tsx:33-34 | an empty code, and no apply pending |
| CartSummary.SummaryPanel.Type | components/cart-summary.tsx:86 | typing replaces the code only |
| CartSummary.SummaryPanel.HandleApplyDiscount | components/cart-summary.tsx:36-43 | a blank code forwards nothing; any other code is forwarded as typed and the pending flag ends cleared |
| CartSummary.RemainingRule | components/cart-summary.tsx:45-46 | the remainder is never negative, is 0 exactly from 75 on, and tops a lower subtotal up to exactly 75 |
| CartSummary.BlankCodeNeverApplies | components/cart-summary.tsx:37-91 | the Apply button is enabled exactly for a code that is not all white space, with no apply pending |
| CartItemView.HandleQuantityChange | components/cart-item.tsx:37-41 | a quantity is forwarded, with the line's id, exactly when it is in [1, 10] |
| CartItemView.DisplayedTotal | components/cart-item.tsx:99 | the displayed total is the line's price times quantity, at least the price for a quantity of 1 or more |
| CartItemView.LineView.constructor | components/cart-item.tsx:30 | the line is not being removed |
| CartItemView.LineView.HandleRemove | components/cart-item.tsx:32-35 | the line is marked as leaving and its id is forwarded |
| CartItemView.ButtonsMatchGuard | components/cart-item.tsx:113-124 | for a quantity in [1, 10], each button is enabled exactly when the value it would send passes the guard |
| CartItemView.PressForwardsInRange | components/cart-item.tsx:38-123 | from [1, 10], a press forwards the neighbouring value or nothing, and the store keeps that value unclamped |
| CartItemView.ForwardedUpdateIsExact | components/cart-item.tsx:37-41 | a forwarded quantity reaches the store's lines exactly as sent |
| CartItemView.SaveForLaterMovesThisLine | components/cart-item.tsx:136 | "Save for Later" moves this line's id out of the cart and into the wishlist |
| CartDrawer.Decrement | components/cart-drawer.tsx:91 | minus forwards the line's id with `max(1, q - 1)`, always at least 1 |
| CartDrawer.Increment | components/cart-drawer.tsx:100 | plus forwards the line's id with `q + 1`, unbounded |
| CartDrawer.TotalsAgreeWithStore | components/cart-drawer.tsx:27-28 | the drawer's count and subtotal are the store's sums over the same lines, and 0 for none |
| CartDrawer.TotalsOfAppend | components/cart-drawer.tsx:27-28 | one more line adds its quantity to the count and its total to the subtotal |
| CartDrawer.StoreAbsorbsDrawerBounds | components/cart-drawer.tsx:91-100 | plus at 10 asks for 11, which the store turns back into 10; minus at 1 asks for 1 |
| CartDrawer.Remove | components/cart-drawer.tsx:110 | "Remove" forwards the line's own id |
| CartDrawer.RemoveDropsThisLine | components/cart-drawer.tsx:110 | the id "Remove" forwards makes the store drop that line and keep the wishlist; with distinct ids, the count falls by the line's quantity and the subtotal by its price times quantity |
| QuickView.QuickViewModal.constructor | components/quick-view-modal.tsx:34-35 | the quantity starts at 1 and the heart is empty |
| QuickView.QuickViewModal.DecrementQuantity | components/quick-view-modal.tsx:130 | minus sets `max(1, quantity - 1)`, never below 1 |
| QuickView.QuickViewModal.IncrementQuantity | components/quick-view-modal.tsx:140-141 | plus adds one; from [1, 10] with plus enabled the quantity stays in [1, 10] |
| QuickView.AddEnabled | components/quick-view-modal.tsx:150-156 | "Add to Cart" is enabled only for a product in stock; the handler requires it |
| QuickView.QuickViewModal.HandleAddToCart | components/quick-view-modal.tsx:39-42 | callable only for a product in stock, as the button is disabled otherwise; forwards the product's id with the quantity, which stays in [1, 10], then closes |
| QuickView.QuickViewModal.HandleWishlist | components/quick-view-modal.tsx:44-47 | flips the heart and always forwards the product's id |
| QuickView.DecrementedAtLeastOne | components/quick-view-modal.tsx:130 | minus never goes below 1, and steps down by one from 2 on |
| QuickView.PressesStayInRange | components/quick-view-modal.tsx:130-141 | any run of clicks from [1, 10] stays in [1, 10] |
| QuickView.PlusRunFrom | components/quick-view-modal.tsx:140-141 | n plus clicks from q reach `min(10, q + n)` |
| QuickView.PlusSaturatesAtTen | components/quick-view-modal.tsx:34-141 | ten plus clicks from the initial 1 stop at 10 |
| QuickView.HeartNeverRemoves | components/quick-view-modal.tsx:44-47 | the heart only ever adds: after two clicks the product is still saved, once |
| ImageGallery.JsRem | components/product-image-gallery.tsx:19-23 | JavaScript's remainder: below the divisor in size, with the sign of the dividend |
| ImageGallery.Gallery.constructor | components/product-image-gallery.tsx:15 | the first image is shown first |
| ImageGallery.Gallery.Counter | components/product-image-gallery.tsx:79 | the counter shows a position in [1, n] |
| ImageGallery.Gallery.NextImage | components/product-image-gallery.tsx:18-20 | the index becomes `(i + 1) % n` and stays valid |
| ImageGallery.Gallery.PrevImage | components/product-image-gallery.tsx:22-24 | the index becomes `(i - 1 + n) % n` and stays valid |
| ImageGallery.Gallery.SelectThumbnail | components/product-image-gallery.tsx:90 | a thumbnail click shows that image |
| ImageGallery.ArrowsWrap | components/product-image-gallery.tsx:18-24 | right from the last image wraps to the first, left from the first to the last; elsewhere the arrows step by one within [0, n) |
| ImageGallery.ArrowsAreInverse | components/product-image-gallery.tsx:18-24 | previous undoes next and next undoes previous |
| ImageGallery.RemainderOfMinusOne | components/product-image-gallery.tsx:23 | without the added length, -1 % n would be -1, not a valid index |
| SuggestedProducts.Carousel.constructor | components/suggested-products.tsx:39 | the window starts at the first product |
| SuggestedProducts.Carousel.ScrollLeft | components/suggested-products.tsx:45-47 | the index becomes `max(0, i - 1)`, never negative |
| SuggestedProducts.Carousel.ScrollRight | components/suggested-products.tsx:49-51 | the index becomes `min(n - 4, i + 1)`, which is i + 1 when enabled |
| SuggestedProducts.Carousel.SelectIndicator | components/suggested-products.tsx:108-111 | indicator k sets the index to k, which stays within reach |
| SuggestedProducts.IndicatorWithinReach | components/suggested-products.tsx:108-111 | every indicator's index is one the arrows can reach |
| SuggestedProducts.ArrowRules | components/suggested-products.tsx:42-51 | left is enabled exactly above 0 and never goes below 0; right, when enabled, moves one step within n - 4 |
| SuggestedProducts.ClicksStayInRange | components/suggested-products.tsx:39-75 | any run of clicks from [0, max(0, n - 4)] stays there |
| SuggestedProducts.IndicatorCountIsCeiling | components/suggested-products.tsx:53-108 | there are `ceil(n / 4)` indicators, none for an empty list, which renders nothing |
| SuggestedProducts.IndicatorHighlightsAnother | components/suggested-products.tsx:111-113 | clicking indicator k lights indicator `floor(k / 4)`, which is k only for k = 0 |
| ProductReviews.CountRating | components/product-reviews.tsx:36 | a count never exceeds the number of reviews |
| ProductReviews.RatingDistribution | components/product-reviews.tsx:35-39 | five bars for 5 down to 1 star, each counting the reviews with that rating, with percentage 0 when there are no reviews in total |
| ProductReviews.SortedReviews | components/product-reviews.tsx:41-53 | the sorted copy is a permutation of the reviews in the selected order |
| ProductReviews.SortedInOrder | components/product-reviews.tsx:42-52 | sorting by each order's key gives non-increasing or non-decreasing ratings, non-increasing helpful counts, or newest first |
| ProductReviews.CountRatingAppend | components/product-reviews.tsx:36 | counting distributes over concatenation |
| ProductReviews.CountRatingIsMultiplicity | components/product-reviews.tsx:36 | each count is how often that rating occurs among the reviews |
| ProductReviews.BarsCountEveryReview | components/product-reviews.tsx:35-36 | with ratings from 1 to 5, the five bars count every review once |
| ProductReviews.CountRatingOfPermutation | components/product-reviews.tsx:36-41 | reordering the reviews changes no count |
| ProductReviews.CountRatingOfRemove | components/product-reviews.tsx:36 | dropping one review takes it out of its rating's count |
| ProductReviews.DistributionOfSorted | components/product-reviews.tsx:35-41 | the distribution of the sorted copy is the distribution of the reviews |
| ProductReviews.PercentagesAddUp | components/product-reviews.tsx:37 | when the list is complete and every rating is 1 to 5, the percentages add up to 100 |
| ProductReviews.LoadMoreRule | components/product-reviews.tsx:175 | "Load More" shows exactly when fewer reviews are listed than exist, never for a complete list |
| Sorting.InsertSorted | app/catalog/page.tsx:140-154 | inserting into a sorted list keeps it sorted and adds exactly one element |
| Sorting.StableSortSorted | app/catalog/page.tsx:140-154 | the sort yields a sorted permutation of its input |
| Sorting.StableSortIsStable | app/catalog/page.tsx:140-154 | elements with equal keys keep their relative order |
| Sorting.WithKeyAppend | app/catalog/page.tsx:140-154 | picking out one key's elements distributes over concatenation |
| Sorting.InsertAt | app/catalog/page.tsx:140-154 | the element lands after exactly the elements not greater than it |
| Sorting.InsertInPlace | app/catalog/page.tsx:140-154 | one step of insertion sort on the array inserts `a[i]` into the sorted prefix and leaves the rest |
| Sorting.SortInPlace | app/catalog/page.tsx:140-154 | sorting the array in place leaves the stable sort of its old contents |
| Text.TrimStart | app/catalog/page.tsx:108 | dropping leading white space leaves a suffix that starts with something else |
| Text.TrimEnd | app/catalog/page.tsx:108 | dropping trailing white space leaves a prefix that ends with something else |
| Text.TrimEmptyIff | components/cart-summary.tsx:37 | a string trims to nothing exactly when it is all white space |
| Text.ToLower | app/catalog/page.tsx:108 | lower-casing maps each character in place |
| Text.ToUpper | app/cart/page.tsx:48 | upper-casing maps each character in place |
| Text.ToUpperOfLower | app/cart/page.tsx:48 | upper-casing a lower-cased string is upper-casing the string |
| Text.IncludesEmpty | app/catalog/page.tsx:113 | the empty string is part of every string |

## Left out

- Persistence: the `persist` middleware and `localStorage` are I/O through a library. The store is a plain class with no subscription or selectors.
- Order placement: `handlePlaceOrder` writes to `sessionStorage` and routes. It is not modelled, and neither is any `router.push` or link.
- Floating point: tax, `total`, the free-shipping progress bar and every `toFixed` are not modelled.
- Discounts and percentages: the SAVE10 and WELCOME20 discounts and the review percentages are exact `real` values. This idealises JavaScript's floating point.
- Timers: the 300 ms removal delay in the cart line and the 1 s apply delay in the summary are not modelled. `handleRemove` and `handleApplyDiscount` show what is forwarded and the state before and after. The summary's pending state during the delay is not observable in the model.
- Clock: `Date.now()` for a new address id is the parameter `freshId`.
- Review dates: `new Date(date).getTime()` is the parameter `timestamp`. Invalid dates, which give NaN in the comparator, are not modelled.
- Case mapping: `toLowerCase` and `toUpperCase` change ASCII letters only. Other scripts' case mappings are not modelled.
- Explicitly undefined rating/reviews: in `addToWishlist`, an explicitly `undefined` `rating` or `reviews` key would override the default through the spread. The model treats it as an absent key. Every caller passes values.
- Quantities: NaN and non-integer quantities are not modelled, since every value is an `int`.
- Gallery edge cases: a gallery with no images is not modelled (`NextImage` and `PrevImage` require at least one image, where the source would produce NaN). A change of the `images` prop is not modelled either.
- ImageGallery.Gallery.Valid: the model assumes the index starts in range and the image list does not change.
- Cart page pass-through handlers: `handleUpdateQuantity`, `handleRemoveItem` and `handleMoveToWishlist` call the store action unchanged and are covered by the store's methods.
- UI-only state: the drawer's and filter panel's open flags, the view mode, quick-view selection and zoom are not modelled.
- CartDrawer: has no [1, 10] guard of its own. `StoreAbsorbsDrawerBounds` shows the store's clamp absorbing it.
- Catalog.CatalogPage.HandleAddToCart: states the new store state through `old`, so its contract is about the shared store only. Other pages are not modelled as observers.
