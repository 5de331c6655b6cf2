/** The cart/wishlist store of lib/shop-store.ts. Each action of the source is a
    `set(state => ...)` updater, a pure function from the old state to the new one: these
    are the members of `ShopState`. The store object itself, whose two fields every
    action replaces, is the class `Store`, whose methods are proved to perform exactly
    those updates. */
module ShopStore {
  import opened Wrappers
  import opened Keyed
  import opened Sums

  /** What `addToCart` is given: a cart line without its quantity. */
  datatype Product = Product(
    id: Id, name: string, price: int, originalPrice: Option<int>, image: string,
    category: string, inStock: Option<bool>, lowStock: Option<bool>)

  datatype CartItem = CartItem(
    id: Id, name: string, price: int, originalPrice: Option<int>, image: string,
    category: string, quantity: int, inStock: Option<bool>, lowStock: Option<bool>)

  /** A saved item; `rating` is in tenths of a star (4.8 is 48). */
  datatype WishlistItem = WishlistItem(
    id: Id, name: string, price: int, originalPrice: Option<int>, image: string,
    category: string, rating: int, reviews: int, inStock: Option<bool>, lowStock: Option<bool>)

  /** What `addToWishlist` is given: `rating` and `reviews` may be absent. */
  datatype WishlistInput = WishlistInput(
    id: Id, name: string, price: int, originalPrice: Option<int>, image: string,
    category: string, rating: Option<int>, reviews: Option<int>,
    inStock: Option<bool>, lowStock: Option<bool>)

  function CartId(c: CartItem): Id { c.id }
  function WishId(w: WishlistItem): Id { w.id }
  function Quantity(c: CartItem): int { c.quantity }
  function LineTotal(c: CartItem): int { c.price * c.quantity }

  /** `Math.min(10, Math.max(1, q))`. */
  function Clamp(q: int): int {
    if q > 10 then 10 else if q < 1 then 1 else q
  }

  /** `{ ...product, quantity }`. */
  function LineOf(p: Product, quantity: int): CartItem {
    CartItem(p.id, p.name, p.price, p.originalPrice, p.image, p.category, quantity, p.inStock, p.lowStock)
  }

  /** The entry `moveCartToWishlist` builds from a cart line: rating and reviews start at 0. */
  function SavedForLater(c: CartItem): WishlistItem {
    WishlistItem(c.id, c.name, c.price, c.originalPrice, c.image, c.category, 0, 0, c.inStock, c.lowStock)
  }

  /** The line `moveWishlistToCart` builds from a wishlist entry: quantity 1. */
  function LineFromWishlist(w: WishlistItem): CartItem {
    CartItem(w.id, w.name, w.price, w.originalPrice, w.image, w.category, 1, w.inStock, w.lowStock)
  }

  /** `{ rating: in.rating ?? 0, reviews: in.reviews ?? 0, ...in }`. */
  function EntryOf(input: WishlistInput): WishlistItem {
    WishlistItem(input.id, input.name, input.price, input.originalPrice, input.image, input.category,
                 input.rating.GetOr(0), input.reviews.GetOr(0), input.inStock, input.lowStock)
  }

  /** `cart.map(it => it.id === id ? { ...it, quantity: q } : it)`. */
  function WithQuantity(cart: seq<CartItem>, id: Id, q: int): (r: seq<CartItem>)
    ensures |r| == |cart|
    ensures forall i :: 0 <= i < |cart| ==>
      r[i] == if cart[i].id == id then cart[i].(quantity := q) else cart[i]
  {
    if |cart| == 0 then []
    else
      [if cart[0].id == id then cart[0].(quantity := q) else cart[0]] + WithQuantity(cart[1..], id, q)
  }

  /** `cart.map(c => c.id === id ? { ...c, quantity: Math.min(10, c.quantity + 1) } : c)`. */
  function WithQuantityBumped(cart: seq<CartItem>, id: Id): (r: seq<CartItem>)
    ensures |r| == |cart|
    ensures forall i :: 0 <= i < |cart| ==>
      r[i] == if cart[i].id == id then cart[i].(quantity := Min(10, cart[i].quantity + 1)) else cart[i]
  {
    if |cart| == 0 then []
    else
      [if cart[0].id == id then cart[0].(quantity := Min(10, cart[0].quantity + 1)) else cart[0]]
      + WithQuantityBumped(cart[1..], id)
  }

  function Min(a: int, b: int): int { if a <= b then a else b }

  /** The store's state: the two ordered collections. */
  datatype ShopState = ShopState(cart: seq<CartItem>, wishlist: seq<WishlistItem>) {

    /** No two cart lines and no two wishlist entries share an id. */
    predicate Valid() {
      DistinctIds(cart, CartId) && DistinctIds(wishlist, WishId)
    }

    /** `cartCount`: the number of units in the cart. */
    function CartCount(): int {
      SumOf(cart, Quantity)
    }

    /** `cartSubtotal`: the sum of price times quantity over the lines. */
    function CartSubtotal(): int {
      SumOf(cart, LineTotal)
    }

    /** `addToCart`: adds to the first line with the product's id, with no upper bound,
        or appends a new line. */
    function AddToCart(product: Product, quantity: int := 1): ShopState {
      var idx := IndexOf(cart, CartId, product.id);
      if idx >= 0 then
        this.(cart := cart[idx := cart[idx].(quantity := cart[idx].quantity + quantity)])
      else
        this.(cart := cart + [LineOf(product, quantity)])
    }

    /** `updateQuantity`: every line with the id gets the clamped quantity. */
    function UpdateQuantity(id: Id, quantity: int): ShopState {
      this.(cart := WithQuantity(cart, id, Clamp(quantity)))
    }

    /** `removeFromCart`. */
    function RemoveFromCart(id: Id): ShopState {
      this.(cart := Without(cart, CartId, id))
    }

    /** `clearCart`. */
    function ClearCart(): ShopState {
      this.(cart := [])
    }

    /** `addToWishlist`: nothing happens when the id is already saved. */
    function AddToWishlist(input: WishlistInput): ShopState {
      if Has(wishlist, WishId, input.id) then this
      else this.(wishlist := wishlist + [EntryOf(input)])
    }

    /** `removeFromWishlist`. */
    function RemoveFromWishlist(id: Id): ShopState {
      this.(wishlist := Without(wishlist, WishId, id))
    }

    /** `moveCartToWishlist`: removes the lines with the id and saves the first of them,
        unless the wishlist already has the id. */
    function MoveCartToWishlist(id: Id): ShopState {
      var idx := IndexOf(cart, CartId, id);
      if idx < 0 then this
      else
        ShopState(
          Without(cart, CartId, id),
          if Has(wishlist, WishId, id) then wishlist else wishlist + [SavedForLater(cart[idx])])
    }

    /** `moveWishlistToCart`: removes the entries with the id; bumps the lines with the id
        (capped at 10) or appends a line of quantity 1 built from the first entry. */
    function MoveWishlistToCart(id: Id): ShopState {
      var idx := IndexOf(wishlist, WishId, id);
      if idx < 0 then this
      else
        ShopState(
          if Has(cart, CartId, id) then WithQuantityBumped(cart, id)
          else cart + [LineFromWishlist(wishlist[idx])],
          Without(wishlist, WishId, id))
    }
  }

  /** The store object: `cart` and `wishlist` are replaced by every action. */
  class Store {
    var cart: seq<CartItem>
    var wishlist: seq<WishlistItem>

    function State(): ShopState
      reads this
    {
      ShopState(cart, wishlist)
    }

    /** Both collections start empty. */
    constructor ()
      ensures cart == [] && wishlist == []
      ensures State().Valid()
    {
      cart := [];
      wishlist := [];
    }

    /** `cartCount()`. */
    function CartCount(): (n: int)
      reads this
      ensures cart == [] ==> n == 0
      ensures (forall i :: 0 <= i < |cart| ==> cart[i].quantity >= 0) ==> n >= 0
    {
      SumOfNonNegativeQuantities(cart);
      State().CartCount()
    }

    /** `cartSubtotal()`. */
    function CartSubtotal(): (total: int)
      reads this
      ensures cart == [] ==> total == 0
      ensures (forall i :: 0 <= i < |cart| ==> cart[i].price >= 0 && cart[i].quantity >= 0) ==> total >= 0
    {
      SumOfNonNegativeTotals(cart);
      State().CartSubtotal()
    }

    method AddToCart(product: Product, quantity: int := 1)
      modifies this
      ensures State() == old(State()).AddToCart(product, quantity)
      ensures old(State()).Valid() ==> State().Valid()
    {
      AddToCartKeepsValid(State(), product, quantity);
      var idx := IndexOf(cart, CartId, product.id);
      if idx >= 0 {
        var next := cart;
        next := next[idx := next[idx].(quantity := next[idx].quantity + quantity)];
        cart := next;
      } else {
        cart := cart + [LineOf(product, quantity)];
      }
    }

    method UpdateQuantity(id: Id, quantity: int)
      modifies this
      ensures State() == old(State()).UpdateQuantity(id, quantity)
      ensures old(State()).Valid() ==> State().Valid()
    {
      UpdateQuantityKeepsValid(State(), id, quantity);
      cart := WithQuantity(cart, id, Clamp(quantity));
    }

    method RemoveFromCart(id: Id)
      modifies this
      ensures State() == old(State()).RemoveFromCart(id)
      ensures old(State()).Valid() ==> State().Valid()
    {
      RemoveKeepsValid(State(), id);
      cart := Without(cart, CartId, id);
    }

    method ClearCart()
      modifies this
      ensures State() == old(State()).ClearCart()
      ensures old(State()).Valid() ==> State().Valid()
    {
      cart := [];
    }

    method AddToWishlist(input: WishlistInput)
      modifies this
      ensures State() == old(State()).AddToWishlist(input)
      ensures old(State()).Valid() ==> State().Valid()
    {
      AddToWishlistKeepsValid(State(), input);
      var present := IndexOf(wishlist, WishId, input.id) >= 0;
      if !present {
        var item := EntryOf(input);
        wishlist := wishlist + [item];
      }
    }

    method RemoveFromWishlist(id: Id)
      modifies this
      ensures State() == old(State()).RemoveFromWishlist(id)
      ensures old(State()).Valid() ==> State().Valid()
    {
      RemoveKeepsValid(State(), id);
      wishlist := Without(wishlist, WishId, id);
    }

    method MoveCartToWishlist(id: Id)
      modifies this
      ensures State() == old(State()).MoveCartToWishlist(id)
      ensures old(State()).Valid() ==> State().Valid()
    {
      MoveCartToWishlistKeepsValid(State(), id);
      var idx := IndexOf(cart, CartId, id);
      if idx < 0 {
        return;
      }
      var item := cart[idx];
      var saved := IndexOf(wishlist, WishId, id) >= 0;
      cart := Without(cart, CartId, id);
      if !saved {
        wishlist := wishlist + [SavedForLater(item)];
      }
    }

    method MoveWishlistToCart(id: Id)
      modifies this
      ensures State() == old(State()).MoveWishlistToCart(id)
      ensures old(State()).Valid() ==> State().Valid()
    {
      MoveWishlistToCartKeepsValid(State(), id);
      var idx := IndexOf(wishlist, WishId, id);
      if idx < 0 {
        return;
      }
      var item := wishlist[idx];
      var inCart := IndexOf(cart, CartId, id) >= 0;
      if inCart {
        cart := WithQuantityBumped(cart, id);
      } else {
        cart := cart + [LineFromWishlist(item)];
      }
      wishlist := Without(wishlist, WishId, id);
    }
  }

  // ---------------------------------------------------------------------------------
  // Sums

  lemma SumOfNonNegativeQuantities(cart: seq<CartItem>)
    ensures (forall i :: 0 <= i < |cart| ==> cart[i].quantity >= 0) ==> SumOf(cart, Quantity) >= 0
  {
    if forall i :: 0 <= i < |cart| ==> cart[i].quantity >= 0 {
      SumOfNonNegative(cart, Quantity);
    }
  }

  lemma SumOfNonNegativeTotals(cart: seq<CartItem>)
    ensures (forall i :: 0 <= i < |cart| ==> cart[i].price >= 0 && cart[i].quantity >= 0)
            ==> SumOf(cart, LineTotal) >= 0
  {
    if forall i :: 0 <= i < |cart| ==> cart[i].price >= 0 && cart[i].quantity >= 0 {
      forall i | 0 <= i < |cart| ensures LineTotal(cart[i]) >= 0 {
        assert cart[i].price >= 0 && cart[i].quantity >= 0;
      }
      SumOfNonNegative(cart, LineTotal);
    }
  }

  // ---------------------------------------------------------------------------------
  // The id-uniqueness invariant

  lemma AddToCartKeepsValid(s: ShopState, product: Product, quantity: int)
    ensures s.Valid() ==> s.AddToCart(product, quantity).Valid()
  {
    if s.Valid() && IndexOf(s.cart, CartId, product.id) < 0 {
      AppendNewKeepsDistinct(s.cart, LineOf(product, quantity), CartId);
    }
  }

  lemma UpdateQuantityKeepsValid(s: ShopState, id: Id, quantity: int)
    ensures s.Valid() ==> s.UpdateQuantity(id, quantity).Valid()
  {
  }

  lemma RemoveKeepsValid(s: ShopState, id: Id)
    ensures s.Valid() ==> s.RemoveFromCart(id).Valid() && s.RemoveFromWishlist(id).Valid()
  {
    if s.Valid() {
      WithoutKeepsDistinct(s.cart, CartId, id);
      WithoutKeepsDistinct(s.wishlist, WishId, id);
    }
  }

  lemma AddToWishlistKeepsValid(s: ShopState, input: WishlistInput)
    ensures s.Valid() ==> s.AddToWishlist(input).Valid()
  {
    if s.Valid() && !Has(s.wishlist, WishId, input.id) {
      AppendNewKeepsDistinct(s.wishlist, EntryOf(input), WishId);
    }
  }

  lemma MoveCartToWishlistKeepsValid(s: ShopState, id: Id)
    ensures s.Valid() ==> s.MoveCartToWishlist(id).Valid()
  {
    var idx := IndexOf(s.cart, CartId, id);
    if s.Valid() && idx >= 0 {
      WithoutKeepsDistinct(s.cart, CartId, id);
      if !Has(s.wishlist, WishId, id) {
        AppendNewKeepsDistinct(s.wishlist, SavedForLater(s.cart[idx]), WishId);
      }
    }
  }

  lemma MoveWishlistToCartKeepsValid(s: ShopState, id: Id)
    ensures s.Valid() ==> s.MoveWishlistToCart(id).Valid()
  {
    var idx := IndexOf(s.wishlist, WishId, id);
    if s.Valid() && idx >= 0 {
      WithoutKeepsDistinct(s.wishlist, WishId, id);
      if !Has(s.cart, CartId, id) {
        AppendNewKeepsDistinct(s.cart, LineFromWishlist(s.wishlist[idx]), CartId);
      }
    }
  }
}
