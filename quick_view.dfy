/** The quick-view dialog of components/quick-view-modal.tsx: a quantity counter kept in
    [1, 10] by its buttons, the heart toggle, and the two actions that hand the product to
    the page. The counter is not reset when another product is shown, so the handlers take
    the product as a parameter. */
module QuickView {
  import opened Keyed
  import opened Catalog
  import ShopStore
  import ShopStoreProperties

  /** A press of one of the two quantity buttons. */
  datatype Press = Minus | Plus

  /** The minus button sets `Math.max(1, quantity - 1)`. */
  function Decremented(quantity: int): int { if 1 >= quantity - 1 then 1 else quantity - 1 }

  predicate MinusEnabled(quantity: int) { !(quantity <= 1) }
  predicate PlusEnabled(quantity: int) { !(quantity >= 10) }

  /** A click on a disabled button does nothing. */
  function Pressed(quantity: int, p: Press): int {
    match p
    case Minus => if MinusEnabled(quantity) then Decremented(quantity) else quantity
    case Plus => if PlusEnabled(quantity) then quantity + 1 else quantity
  }

  /** The quantity after a run of clicks. */
  function AfterPresses(quantity: int, presses: seq<Press>): int
    decreases |presses|
  {
    if |presses| == 0 then quantity
    else AfterPresses(Pressed(quantity, presses[0]), presses[1..])
  }

  /** "Add to Cart" is enabled for products in stock only. */
  predicate AddEnabled(product: CatalogProduct) { product.inStock }

  class QuickViewModal {
    var quantity: int
    var isWishlisted: bool

    predicate Valid()
      reads this
    {
      1 <= quantity <= 10
    }

    constructor ()
      ensures quantity == 1 && !isWishlisted
      ensures Valid()
    {
      quantity := 1;
      isWishlisted := false;
    }

    method DecrementQuantity()
      modifies this
      ensures quantity == Decremented(old(quantity)) && isWishlisted == old(isWishlisted)
      ensures quantity >= 1
      ensures old(Valid()) ==> Valid()
    {
      quantity := if 1 >= quantity - 1 then 1 else quantity - 1;
    }

    /** The plus button; it is disabled from 10 on, which `PlusEnabled` states. */
    method IncrementQuantity()
      modifies this
      ensures quantity == old(quantity) + 1 && isWishlisted == old(isWishlisted)
      ensures old(Valid()) && PlusEnabled(old(quantity)) ==> Valid()
    {
      quantity := quantity + 1;
    }

    /** `handleAddToCart`: hands `(product.id, quantity)` to `onAddToCart`, then asks the
        page to close the dialog. Its only caller is the "Add to Cart" button, which is
        disabled for a product out of stock. */
    method HandleAddToCart(product: CatalogProduct) returns (forwarded: (Id, int), closes: bool)
      requires AddEnabled(product)
      ensures forwarded == (product.id, quantity) && closes
      ensures Valid() ==> 1 <= forwarded.1 <= 10
    {
      forwarded := (product.id, quantity);
      closes := true;
    }

    /** `handleWishlist`: flips the heart and always hands `product.id` to `onAddToWishlist`. */
    method HandleWishlist(product: CatalogProduct) returns (forwarded: Id)
      modifies this
      ensures isWishlisted == !old(isWishlisted) && quantity == old(quantity)
      ensures forwarded == product.id
    {
      isWishlisted := !isWishlisted;
      forwarded := product.id;
    }
  }

  // ---------------------------------------------------------------------------------
  // Properties

  /** Minus never takes the quantity below 1. */
  lemma DecrementedAtLeastOne(quantity: int)
    ensures Decremented(quantity) >= 1
    ensures quantity >= 2 ==> Decremented(quantity) == quantity - 1
  {
  }

  /** Starting anywhere in [1, 10], any run of clicks keeps the quantity in [1, 10]. */
  lemma {:induction false} PressesStayInRange(quantity: int, presses: seq<Press>)
    requires 1 <= quantity <= 10
    ensures 1 <= AfterPresses(quantity, presses) <= 10
    decreases |presses|
  {
    if |presses| > 0 {
      PressesStayInRange(Pressed(quantity, presses[0]), presses[1..]);
    }
  }

  /** From the initial quantity 1, ten plus clicks stop at 10. */
  lemma {:induction false} PlusSaturatesAtTen()
    ensures AfterPresses(1, [Plus, Plus, Plus, Plus, Plus, Plus, Plus, Plus, Plus, Plus]) == 10
  {
    var ps := [Plus, Plus, Plus, Plus, Plus, Plus, Plus, Plus, Plus, Plus];
    PlusRunFrom(1, ps);
  }

  /** `n` plus clicks from `q` reach `min(10, q + n)`. */
  lemma {:induction false} PlusRunFrom(quantity: int, presses: seq<Press>)
    requires 1 <= quantity <= 10
    requires forall i :: 0 <= i < |presses| ==> presses[i] == Plus
    ensures AfterPresses(quantity, presses) ==
      if quantity + |presses| >= 10 then 10 else quantity + |presses|
    decreases |presses|
  {
    if |presses| > 0 {
      PlusRunFrom(Pressed(quantity, presses[0]), presses[1..]);
    }
  }

  /** The heart only ever adds: clicking it twice shows it empty again, but the product is
      still saved, and saved once. */
  lemma HeartNeverRemoves(s: ShopStore.ShopState, input: ShopStore.WishlistInput)
    ensures Has(s.AddToWishlist(input).wishlist, ShopStore.WishId, input.id)
    ensures s.AddToWishlist(input).AddToWishlist(input) == s.AddToWishlist(input)
  {
    ShopStoreProperties.AddToWishlistEffect(s, input);
    ShopStoreProperties.AddToWishlistIdempotent(s, input);
    var r := s.AddToWishlist(input);
    if !Has(s.wishlist, ShopStore.WishId, input.id) {
      assert ShopStore.WishId(r.wishlist[|r.wishlist| - 1]) == input.id;
    }
  }
}
