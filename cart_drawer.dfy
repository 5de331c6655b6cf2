/** The slide-out cart of components/cart-drawer.tsx: its badge count and subtotal over the
    lines it is given, and the values its buttons hand to `onUpdateQuantity` and
    `onRemoveItem`. Unlike the cart page, the drawer forwards without a [1, 10] guard. */
module CartDrawer {
  import opened Keyed
  import opened Sums
  import opened ShopStore
  import ShopStoreProperties

  /** `items.reduce((sum, item) => sum + item.quantity, 0)`. */
  function ItemCount(items: seq<CartItem>): int { SumOf(items, Quantity) }

  /** `items.reduce((sum, item) => sum + item.price * item.quantity, 0)`. */
  function Subtotal(items: seq<CartItem>): int { SumOf(items, LineTotal) }

  /** The minus button: `(item.id, Math.max(1, item.quantity - 1))`. */
  function Decrement(item: CartItem): (r: (Id, int))
    ensures r.0 == item.id && r.1 >= 1
    ensures item.quantity >= 2 ==> r.1 == item.quantity - 1
    ensures item.quantity <= 1 ==> r.1 == 1
  {
    (item.id, if 1 >= item.quantity - 1 then 1 else item.quantity - 1)
  }

  /** The plus button: `(item.id, item.quantity + 1)`, with no upper bound. */
  function Increment(item: CartItem): (r: (Id, int))
    ensures r.0 == item.id && r.1 > item.quantity
  {
    (item.id, item.quantity + 1)
  }

  /** "Remove": what `onRemoveItem` is given. */
  function Remove(item: CartItem): Id { item.id }

  // ---------------------------------------------------------------------------------
  // Properties

  /** The drawer's count and subtotal are the store's `cartCount` and `cartSubtotal` of the
      same lines, and both are 0 for no lines. */
  lemma TotalsAgreeWithStore(items: seq<CartItem>, wishlist: seq<WishlistItem>)
    ensures ItemCount(items) == ShopState(items, wishlist).CartCount()
    ensures Subtotal(items) == ShopState(items, wishlist).CartSubtotal()
    ensures ItemCount([]) == 0 && Subtotal([]) == 0
  {
  }

  /** Adding a line to the drawer adds its quantity to the count and its total to the
      subtotal. */
  lemma {:induction false} TotalsOfAppend(items: seq<CartItem>, item: CartItem)
    ensures ItemCount(items + [item]) == ItemCount(items) + item.quantity
    ensures Subtotal(items + [item]) == Subtotal(items) + item.price * item.quantity
  {
    SumOfAppend(items, [item], Quantity);
    SumOfAppend(items, [item], LineTotal);
    SumOfSingleton(item, Quantity);
    SumOfSingleton(item, LineTotal);
  }

  /** Plus at 10 asks for 11, which the store turns back into 10; minus at 1 asks for 1. */
  lemma StoreAbsorbsDrawerBounds(item: CartItem)
    requires 1 <= item.quantity <= 10
    ensures Clamp(Increment(item).1) == if item.quantity == 10 then 10 else item.quantity + 1
    ensures Clamp(Decrement(item).1) == if item.quantity == 1 then 1 else item.quantity - 1
  {
  }

  /** "Remove" hands the line's own id to the store, which drops that line, leaves the
      wishlist alone and, with distinct ids, takes exactly the line's units and amount out
      of the totals. */
  lemma RemoveDropsThisLine(s: ShopState, item: CartItem)
    requires item in s.cart
    ensures var r := s.RemoveFromCart(Remove(item));
      && !Has(r.cart, CartId, item.id)
      && r.wishlist == s.wishlist
      && (s.Valid() ==>
            r.CartCount() == s.CartCount() - item.quantity &&
            r.CartSubtotal() == s.CartSubtotal() - item.price * item.quantity)
  {
    ShopStoreProperties.RemoveFromCartEffect(s, item.id);
    var i :| 0 <= i < |s.cart| && s.cart[i] == item;
    assert CartId(s.cart[i]) == item.id;
    if s.Valid() {
      ShopStoreProperties.RemoveFromCartTotals(s, item.id);
      assert IndexOf(s.cart, CartId, item.id) == i;
    }
  }
}
