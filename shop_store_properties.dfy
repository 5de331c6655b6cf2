/** What the store's actions promise, stated over `ShopState` and proved. */
module ShopStoreProperties {
  import opened Wrappers
  import opened Keyed
  import opened Sums
  import opened ShopStore

  // ---------------------------------------------------------------------------------
  // addToCart

  /** Re-adding an id changes only its line: the quantity grows by `quantity`, nothing is
      clamped, and the length, order and the other lines stay as they were. */
  lemma AddToCartExistingLine(s: ShopState, p: Product, quantity: int)
    requires Has(s.cart, CartId, p.id)
    ensures var i, r := IndexOf(s.cart, CartId, p.id), s.AddToCart(p, quantity);
      && |r.cart| == |s.cart|
      && r.cart[i] == s.cart[i].(quantity := s.cart[i].quantity + quantity)
      && (forall j :: 0 <= j < |s.cart| && j != i ==> r.cart[j] == s.cart[j])
      && r.wishlist == s.wishlist
  {
  }

  /** A new id is appended at the end as `{...product, quantity}`; earlier lines are unchanged. */
  lemma AddToCartNewLine(s: ShopState, p: Product, quantity: int)
    requires !Has(s.cart, CartId, p.id)
    ensures var r := s.AddToCart(p, quantity);
      && |r.cart| == |s.cart| + 1
      && r.cart[..|s.cart|] == s.cart
      && r.cart[|s.cart|] == LineOf(p, quantity)
      && r.cart[|s.cart|].id == p.id && r.cart[|s.cart|].quantity == quantity
      && r.wishlist == s.wishlist
  {
    assert (s.cart + [LineOf(p, quantity)])[..|s.cart|] == s.cart;
  }

  /** The quantity argument defaults to 1. */
  lemma AddToCartDefaultQuantity(s: ShopState, p: Product)
    ensures s.AddToCart(p) == s.AddToCart(p, 1)
  {
  }

  /** `addToCart(p, q)` raises `cartCount` by exactly `q`, and `cartSubtotal` by `q` times the
      price of the line it lands on (the existing line's price when the id is present). */
  lemma AddToCartTotals(s: ShopState, p: Product, quantity: int)
    ensures var r, i := s.AddToCart(p, quantity), IndexOf(s.cart, CartId, p.id);
      && r.CartCount() == s.CartCount() + quantity
      && r.CartSubtotal() == s.CartSubtotal() + (if i >= 0 then s.cart[i].price else p.price) * quantity
  {
    var i := IndexOf(s.cart, CartId, p.id);
    if i >= 0 {
      BumpedLineTotals(s.cart, i, quantity);
    } else {
      AppendedLineTotals(s.cart, LineOf(p, quantity));
    }
  }

  /** Raising one line's quantity by `quantity` raises the unit count by `quantity` and the
      subtotal by that line's price times `quantity`. */
  lemma BumpedLineTotals(cart: seq<CartItem>, i: nat, quantity: int)
    requires i < |cart|
    ensures var bumped := cart[i := cart[i].(quantity := cart[i].quantity + quantity)];
      && SumOf(bumped, Quantity) == SumOf(cart, Quantity) + quantity
      && SumOf(bumped, LineTotal) == SumOf(cart, LineTotal) + cart[i].price * quantity
  {
    var line := cart[i].(quantity := cart[i].quantity + quantity);
    SumOfUpdate(cart, i, line, Quantity);
    SumOfUpdate(cart, i, line, LineTotal);
    assert LineTotal(line) == LineTotal(cart[i]) + cart[i].price * quantity;
  }

  /** Appending a line adds its units and its price times quantity. */
  lemma AppendedLineTotals(cart: seq<CartItem>, line: CartItem)
    ensures SumOf(cart + [line], Quantity) == SumOf(cart, Quantity) + line.quantity
    ensures SumOf(cart + [line], LineTotal) == SumOf(cart, LineTotal) + line.price * line.quantity
  {
    SumOfSnoc(cart, line, Quantity);
    SumOfSnoc(cart, line, LineTotal);
  }

  /** Adding the same product with quantities `qs`, one call after another. */
  function AddedRepeatedly(s: ShopState, p: Product, qs: seq<int>): ShopState {
    if |qs| == 0 then s else AddedRepeatedly(s, p, qs[..|qs| - 1]).AddToCart(p, qs[|qs| - 1])
  }

  function Total(qs: seq<int>): int {
    if |qs| == 0 then 0 else Total(qs[..|qs| - 1]) + qs[|qs| - 1]
  }

  /** Any run of `addToCart` calls for an id not yet in the cart ends with exactly one line for
      it, appended after the old lines, whose quantity is the sum of the added quantities. */
  lemma {:induction false} AddToCartAccumulates(s: ShopState, p: Product, qs: seq<int>)
    requires !Has(s.cart, CartId, p.id) && |qs| > 0
    ensures AddedRepeatedly(s, p, qs).cart == s.cart + [LineOf(p, Total(qs))]
    ensures AddedRepeatedly(s, p, qs).wishlist == s.wishlist
  {
    if |qs| == 1 {
      assert qs[..0] == [];
    } else {
      var init := qs[..|qs| - 1];
      AddToCartAccumulates(s, p, init);
      var before := AddedRepeatedly(s, p, init);
      var k := |s.cart|;
      assert before.cart[k].id == p.id;
      assert forall j :: 0 <= j < k ==> before.cart[j] == s.cart[j];
      assert IndexOf(before.cart, CartId, p.id) == k;
    }
  }

  /** The scenario: product "1" at 89 added with quantity 2 and then 1 gives one line of
      quantity 3 and a subtotal of 267. */
  lemma AddTwiceScenario()
    ensures var p := Product("1", "Handwoven Leather Tote Bag", 89, Some(120), "tote.svg", "bags", Some(true), None);
      var r := ShopState([], []).AddToCart(p, 2).AddToCart(p, 1);
      |r.cart| == 1 && r.cart[0].quantity == 3 && r.CartSubtotal() == 267 && r.CartCount() == 3
  {
    var p := Product("1", "Handwoven Leather Tote Bag", 89, Some(120), "tote.svg", "bags", Some(true), None);
    var r := ShopState([], []).AddToCart(p, 2).AddToCart(p, 1);
    assert r.cart == [LineOf(p, 3)];
    SumOfSingleton(LineOf(p, 3), LineTotal);
    SumOfSingleton(LineOf(p, 3), Quantity);
  }

  // ---------------------------------------------------------------------------------
  // updateQuantity

  /** `updateQuantity(id, q)` stores `min(10, max(1, q))` in every line with the id, so those
      quantities are always in [1, 10]; ids, order and the other lines are untouched, and an
      absent id changes nothing. */
  lemma UpdateQuantityClamps(s: ShopState, id: Id, q: int)
    ensures var r := s.UpdateQuantity(id, q);
      && |r.cart| == |s.cart| && r.wishlist == s.wishlist
      && (forall i :: 0 <= i < |s.cart| ==> r.cart[i].id == s.cart[i].id)
      && (forall i :: 0 <= i < |s.cart| && s.cart[i].id == id ==>
            && r.cart[i] == s.cart[i].(quantity := r.cart[i].quantity)
            && 1 <= r.cart[i].quantity <= 10
            && (1 <= q <= 10 ==> r.cart[i].quantity == q)
            && (q < 1 ==> r.cart[i].quantity == 1)
            && (q > 10 ==> r.cart[i].quantity == 10))
      && (forall i :: 0 <= i < |s.cart| && s.cart[i].id != id ==> r.cart[i] == s.cart[i])
      && (!Has(s.cart, CartId, id) ==> r == s)
  {
    var r := s.UpdateQuantity(id, q);
    if !Has(s.cart, CartId, id) {
      assert forall i :: 0 <= i < |s.cart| ==> s.cart[i].id != id by {
        forall i | 0 <= i < |s.cart| ensures s.cart[i].id != id {
          assert CartId(s.cart[i]) == s.cart[i].id;
        }
      }
      assert r.cart == s.cart;
    }
  }

  /** Setting a quantity twice is setting it once. */
  lemma UpdateQuantityIdempotent(s: ShopState, id: Id, q: int)
    ensures s.UpdateQuantity(id, q).UpdateQuantity(id, q) == s.UpdateQuantity(id, q)
  {
    var r := s.UpdateQuantity(id, q);
    assert r.UpdateQuantity(id, q).cart == r.cart;
  }

  // ---------------------------------------------------------------------------------
  // removeFromCart, clearCart

  /** `removeFromCart(id)` leaves no line with the id, keeps every other line, and is a no-op
      for an absent id. */
  lemma RemoveFromCartEffect(s: ShopState, id: Id)
    ensures var r := s.RemoveFromCart(id);
      && !Has(r.cart, CartId, id)
      && (forall x :: x in r.cart <==> x in s.cart && x.id != id)
      && r.wishlist == s.wishlist
      && (!Has(s.cart, CartId, id) ==> r == s)
  {
  }

  /** With distinct ids, removing a present id removes exactly its line and keeps the lines
      before and after it in order. */
  lemma RemoveFromCartDropsOneLine(s: ShopState, id: Id)
    requires s.Valid() && Has(s.cart, CartId, id)
    ensures var i := IndexOf(s.cart, CartId, id);
      s.RemoveFromCart(id).cart == s.cart[..i] + s.cart[i + 1..]
  {
    var i := IndexOf(s.cart, CartId, id);
    forall j | 0 <= j < |s.cart| && j != i ensures CartId(s.cart[j]) != id {
      if j > i {
        assert CartId(s.cart[i]) != CartId(s.cart[j]);
      }
    }
    WithoutOnlyAt(s.cart, CartId, id, i);
  }

  /** With distinct ids, removing a present id takes that line's units out of `cartCount` and
      its price times quantity out of `cartSubtotal`. */
  lemma RemoveFromCartTotals(s: ShopState, id: Id)
    requires s.Valid() && Has(s.cart, CartId, id)
    ensures var i, r := IndexOf(s.cart, CartId, id), s.RemoveFromCart(id);
      && r.CartCount() == s.CartCount() - s.cart[i].quantity
      && r.CartSubtotal() == s.CartSubtotal() - s.cart[i].price * s.cart[i].quantity
  {
    RemoveFromCartDropsOneLine(s, id);
    RemovedLineTotals(s.cart, IndexOf(s.cart, CartId, id));
  }

  /** Dropping one line takes out its units and its price times quantity. */
  lemma RemovedLineTotals(cart: seq<CartItem>, i: nat)
    requires i < |cart|
    ensures SumOf(cart[..i] + cart[i + 1..], Quantity) == SumOf(cart, Quantity) - cart[i].quantity
    ensures SumOf(cart[..i] + cart[i + 1..], LineTotal) == SumOf(cart, LineTotal) - cart[i].price * cart[i].quantity
  {
    SumOfRemove(cart, i, Quantity);
    SumOfRemove(cart, i, LineTotal);
  }

  /** `clearCart` empties the cart, whose count and subtotal are then 0. */
  lemma ClearCartEffect(s: ShopState)
    ensures var r := s.ClearCart();
      r.cart == [] && r.wishlist == s.wishlist && r.CartCount() == 0 && r.CartSubtotal() == 0
  {
  }

  // ---------------------------------------------------------------------------------
  // addToWishlist, removeFromWishlist

  /** An id already saved leaves the wishlist as it is (the first copy wins); a new one is
      appended with rating and reviews defaulting to 0 only where the input has none. */
  lemma AddToWishlistEffect(s: ShopState, input: WishlistInput)
    ensures var r := s.AddToWishlist(input);
      && r.cart == s.cart
      && (Has(s.wishlist, WishId, input.id) ==> r == s)
      && (!Has(s.wishlist, WishId, input.id) ==>
            && r.wishlist == s.wishlist + [EntryOf(input)]
            && r.wishlist[|s.wishlist|].rating == (if input.rating.Some? then input.rating.value else 0)
            && r.wishlist[|s.wishlist|].reviews == (if input.reviews.Some? then input.reviews.value else 0))
  {
  }

  /** Adding the same entry twice is adding it once. */
  lemma AddToWishlistIdempotent(s: ShopState, input: WishlistInput)
    ensures s.AddToWishlist(input).AddToWishlist(input) == s.AddToWishlist(input)
  {
    var r := s.AddToWishlist(input);
    if !Has(s.wishlist, WishId, input.id) {
      assert WishId(r.wishlist[|s.wishlist|]) == input.id;
    }
  }

  /** Removing an id that is not saved changes nothing; the id is never left behind. */
  lemma RemoveFromWishlistEffect(s: ShopState, id: Id)
    ensures var r := s.RemoveFromWishlist(id);
      && !Has(r.wishlist, WishId, id)
      && (forall x :: x in r.wishlist <==> x in s.wishlist && x.id != id)
      && r.cart == s.cart
      && (!Has(s.wishlist, WishId, id) ==> r == s)
      && (s.wishlist == [] ==> r.wishlist == [])
  {
  }

  // ---------------------------------------------------------------------------------
  // moveCartToWishlist, moveWishlistToCart

  /** `moveCartToWishlist(id)`: a no-op for an id not in the cart; otherwise the id's lines
      leave the cart, and the first of them is saved with rating 0 and 0 reviews unless
      the id is already saved, in which case the wishlist is unchanged. */
  lemma MoveCartToWishlistEffect(s: ShopState, id: Id)
    ensures var r := s.MoveCartToWishlist(id);
      && (!Has(s.cart, CartId, id) ==> r == s)
      && (Has(s.cart, CartId, id) ==>
            var line := s.cart[IndexOf(s.cart, CartId, id)];
            && r.cart == Without(s.cart, CartId, id)
            && !Has(r.cart, CartId, id)
            && Has(r.wishlist, WishId, id)
            && (Has(s.wishlist, WishId, id) ==> r.wishlist == s.wishlist)
            && (!Has(s.wishlist, WishId, id) ==>
                  && r.wishlist == s.wishlist + [SavedForLater(line)]
                  && r.wishlist[|s.wishlist|].rating == 0 && r.wishlist[|s.wishlist|].reviews == 0
                  && r.wishlist[|s.wishlist|].price == line.price))
  {
    var r := s.MoveCartToWishlist(id);
    if Has(s.cart, CartId, id) {
      if Has(s.wishlist, WishId, id) {
        assert r.wishlist == s.wishlist;
      } else {
        assert WishId(r.wishlist[|s.wishlist|]) == id;
      }
    }
  }

  /** `moveWishlistToCart(id)`: a no-op for an id not saved; otherwise the id leaves the
      wishlist, and either every cart line with the id goes up by one but never above 10
      (with no lower bound), or a line of quantity 1 built from the saved entry is appended. */
  lemma MoveWishlistToCartEffect(s: ShopState, id: Id)
    ensures var r := s.MoveWishlistToCart(id);
      && (!Has(s.wishlist, WishId, id) ==> r == s)
      && (Has(s.wishlist, WishId, id) ==>
            && r.wishlist == Without(s.wishlist, WishId, id)
            && !Has(r.wishlist, WishId, id)
            && Has(r.cart, CartId, id)
            && (Has(s.cart, CartId, id) ==>
                  && |r.cart| == |s.cart|
                  && (forall i :: 0 <= i < |s.cart| && s.cart[i].id == id ==>
                        && r.cart[i] == s.cart[i].(quantity := r.cart[i].quantity)
                        && r.cart[i].quantity <= 10
                        && (s.cart[i].quantity < 10 ==> r.cart[i].quantity == s.cart[i].quantity + 1)
                        && (s.cart[i].quantity >= 10 ==> r.cart[i].quantity == 10))
                  && (forall i :: 0 <= i < |s.cart| && s.cart[i].id != id ==> r.cart[i] == s.cart[i]))
            && (!Has(s.cart, CartId, id) ==>
                  var entry := s.wishlist[IndexOf(s.wishlist, WishId, id)];
                  && r.cart == s.cart + [LineFromWishlist(entry)]
                  && r.cart[|s.cart|].quantity == 1 && r.cart[|s.cart|].price == entry.price))
  {
    var r := s.MoveWishlistToCart(id);
    if Has(s.wishlist, WishId, id) {
      if Has(s.cart, CartId, id) {
        var i :| 0 <= i < |s.cart| && CartId(s.cart[i]) == id;
        assert CartId(r.cart[i]) == id;
      } else {
        assert CartId(r.cart[|s.cart|]) == id;
      }
    }
  }

  /** Moving a cart line to the wishlist and back is lossy: the line comes back at the end of
      the cart with quantity 1 (whatever it was) and otherwise the same fields, and the wishlist
      returns to what it was. If the id was already saved, the saved entry is what comes back,
      and it leaves the wishlist. */
  lemma MoveRoundTrip(s: ShopState, id: Id)
    requires Has(s.cart, CartId, id)
    ensures var line, t := s.cart[IndexOf(s.cart, CartId, id)], s.MoveCartToWishlist(id).MoveWishlistToCart(id);
      && (!Has(s.wishlist, WishId, id) ==>
            && t.cart == Without(s.cart, CartId, id) + [line.(quantity := 1)]
            && t.wishlist == s.wishlist)
      && (Has(s.wishlist, WishId, id) ==>
            && t.cart == Without(s.cart, CartId, id) + [LineFromWishlist(s.wishlist[IndexOf(s.wishlist, WishId, id)])]
            && t.wishlist == Without(s.wishlist, WishId, id))
  {
    var line := s.cart[IndexOf(s.cart, CartId, id)];
    var m := s.MoveCartToWishlist(id);
    assert !Has(m.cart, CartId, id);
    if !Has(s.wishlist, WishId, id) {
      var saved := SavedForLater(line);
      assert m.wishlist == s.wishlist + [saved];
      assert WishId(m.wishlist[|s.wishlist|]) == id;
      assert IndexOf(m.wishlist, WishId, id) == |s.wishlist|;
      WithoutAppend(s.wishlist, [saved], WishId, id);
      assert Without([saved], WishId, id) == [];
    }
  }

  /** The three quantity rules differ: from a line of quantity 10, `addToCart` reaches 11,
      `updateQuantity(id, 11)` stays at 10, and `moveWishlistToCart` stays at 10; from a line of
      quantity 0, `moveWishlistToCart` gives 1 and `updateQuantity(id, 0)` gives 1. */
  lemma QuantityRulesDiffer(p: Product, w: WishlistItem)
    requires w.id == p.id
    ensures var full := ShopState([LineOf(p, 10)], [w]);
      && full.AddToCart(p, 1).cart[0].quantity == 11
      && full.UpdateQuantity(p.id, 11).cart[0].quantity == 10
      && full.MoveWishlistToCart(p.id).cart[0].quantity == 10
    ensures var empty := ShopState([LineOf(p, 0)], [w]);
      && empty.MoveWishlistToCart(p.id).cart[0].quantity == 1
      && empty.UpdateQuantity(p.id, 0).cart[0].quantity == 1
  {
    var full := ShopState([LineOf(p, 10)], [w]);
    assert CartId(full.cart[0]) == p.id;
    assert WishId(full.wishlist[0]) == p.id;
  }
}
