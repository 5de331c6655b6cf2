/** One line of the cart page, components/cart-item.tsx: the quantity buttons and the
    [1, 10] guard in front of `onUpdateQuantity`, the displayed line total, and the remove
    and save-for-later actions. A callback call is modelled as the arguments it is given. */
module CartItemView {
  import opened Wrappers
  import opened Keyed
  import opened ShopStore

  /** `handleQuantityChange(newQuantity)`: forwards `(item.id, newQuantity)` to
      `onUpdateQuantity` when the quantity is between 1 and 10, and nothing otherwise. */
  function HandleQuantityChange(item: CartItem, newQuantity: int): (r: Option<(Id, int)>)
    ensures r.Some? <==> 1 <= newQuantity <= 10
    ensures r.Some? ==> r.value.0 == item.id && 1 <= r.value.1 <= 10
  {
    if newQuantity >= 1 && newQuantity <= 10 then Some((item.id, newQuantity)) else None
  }

  predicate MinusEnabled(item: CartItem) { !(item.quantity <= 1) }
  predicate PlusEnabled(item: CartItem) { !(item.quantity >= 10) }

  /** The minus and plus buttons. */
  function MinusPressed(item: CartItem): Option<(Id, int)> { HandleQuantityChange(item, item.quantity - 1) }
  function PlusPressed(item: CartItem): Option<(Id, int)> { HandleQuantityChange(item, item.quantity + 1) }

  /** "Total: $…" under the line. */
  function DisplayedTotal(item: CartItem): (t: int)
    ensures t == LineTotal(item)
    ensures item.price >= 0 && item.quantity >= 1 ==> t >= item.price
  {
    item.price * item.quantity
  }

  /** "Save for Later": what `onMoveToWishlist` is given. */
  function SaveForLater(item: CartItem): Id { item.id }

  /** The line's own state: whether its removal animation has started. */
  class LineView {
    const item: CartItem
    var isRemoving: bool

    constructor (item: CartItem)
      ensures this.item == item && !isRemoving
    {
      this.item := item;
      isRemoving := false;
    }

    /** `handleRemove`: marks the line as leaving and hands its id to `onRemove`, which the
        source does after a 300 ms timer. */
    method HandleRemove() returns (forwarded: Id)
      modifies this
      ensures isRemoving && forwarded == item.id
    {
      isRemoving := true;
      forwarded := item.id;
    }
  }

  // ---------------------------------------------------------------------------------
  // Properties

  /** Each button is enabled exactly when the quantity it would send passes the guard, for a
      line whose quantity is in [1, 10]. */
  lemma ButtonsMatchGuard(item: CartItem)
    requires 1 <= item.quantity <= 10
    ensures MinusEnabled(item) <==> MinusPressed(item).Some?
    ensures PlusEnabled(item) <==> PlusPressed(item).Some?
  {
  }

  /** From a quantity in [1, 10] a press forwards a neighbouring value in [1, 10], or nothing;
      and the store keeps a forwarded value as it is, since its clamp does not touch it. */
  lemma PressForwardsInRange(item: CartItem)
    requires 1 <= item.quantity <= 10
    ensures MinusPressed(item).Some? ==> MinusPressed(item).value == (item.id, item.quantity - 1)
    ensures PlusPressed(item).Some? ==> PlusPressed(item).value == (item.id, item.quantity + 1)
    ensures forall q :: 1 <= q <= 10 ==> Clamp(q) == q
  {
  }

  /** Whatever the line's quantity, the guard never lets a value outside [1, 10] reach the
      store, so a line updated through this view is set to exactly the forwarded value. */
  lemma {:induction false} ForwardedUpdateIsExact(s: ShopState, item: CartItem, newQuantity: int)
    requires HandleQuantityChange(item, newQuantity).Some?
    ensures var (id, q) := HandleQuantityChange(item, newQuantity).value;
      forall i :: 0 <= i < |s.cart| && s.cart[i].id == id ==> s.UpdateQuantity(id, q).cart[i].quantity == q
  {
    var (id, q) := HandleQuantityChange(item, newQuantity).value;
    assert Clamp(q) == q;
  }

  /** Saving for later hands the line's own id to the store's move. */
  lemma SaveForLaterMovesThisLine(s: ShopState, item: CartItem)
    requires item in s.cart
    ensures !Has(s.MoveCartToWishlist(SaveForLater(item)).cart, CartId, item.id)
    ensures Has(s.MoveCartToWishlist(SaveForLater(item)).wishlist, WishId, item.id)
  {
    var i :| 0 <= i < |s.cart| && s.cart[i] == item;
    assert CartId(s.cart[i]) == item.id;
    var r := s.MoveCartToWishlist(item.id);
    if Has(s.wishlist, WishId, item.id) {
      assert r.wishlist == s.wishlist;
    } else {
      assert WishId(r.wishlist[|r.wishlist| - 1]) == item.id;
    }
  }
}
