/** The cart page of app/cart/page.tsx: the item count and shipping derived from the
    store's cart, and the discount that an applied code replaces. */
module CartPage {
  import opened Wrappers
  import opened Text
  import opened Sums
  import opened ShopStore
  import CartSummary

  /** `shipping`: free from a subtotal of 75 on, 10 below. */
  function CartShipping(subtotal: int): int {
    if subtotal >= 75 then 0 else 10
  }

  /** The `discountCodes` table looked up with the upper-cased code; a missing entry is 0.
      The percentages are exact here (see the README on floating point). */
  function DiscountFor(code: string, subtotal: int, shipping: int): real {
    var key := ToUpper(code);
    if key == "SAVE10" then subtotal as real * 0.1
    else if key == "WELCOME20" then subtotal as real * 0.2
    else if key == "FREESHIP" then shipping as real
    else 0.0
  }

  /** The page over the shared store; `discount` is its only state. */
  class Page {
    const store: Store
    var discount: real

    constructor (store: Store)
      ensures this.store == store && discount == 0.0
    {
      this.store := store;
      discount := 0.0;
    }

    /** `cartSubtotal()` read from the store. */
    function Subtotal(): int
      reads this, store
    {
      store.CartSubtotal()
    }

    /** `cart.reduce((sum, item) => sum + item.quantity, 0)`: the store's `cartCount`. */
    function ItemCount(): (n: int)
      reads this, store
      ensures n == store.CartCount()
      ensures store.cart == [] ==> n == 0
    {
      SumOf(store.cart, Quantity)
    }

    function Shipping(): (r: int)
      reads this, store
      ensures r == 0 <==> Subtotal() >= 75
      ensures r == 0 || r == 10
    {
      CartShipping(Subtotal())
    }

    /** `handleApplyDiscount(code)`: the new discount replaces the old one, whatever it was. */
    method HandleApplyDiscount(code: string)
      modifies this
      ensures discount == DiscountFor(code, Subtotal(), Shipping())
    {
      var key := ToUpper(code);
      var amount := 0.0;
      if key == "SAVE10" {
        amount := Subtotal() as real * 0.1;
      } else if key == "WELCOME20" {
        amount := Subtotal() as real * 0.2;
      } else if key == "FREESHIP" {
        amount := Shipping() as real;
      }
      discount := amount;
    }
  }

  // ---------------------------------------------------------------------------------
  // Properties

  /** Codes are matched without regard to letter case. */
  lemma {:induction false} DiscountIgnoresCase(code: string, subtotal: int, shipping: int)
    ensures DiscountFor(ToLower(code), subtotal, shipping) == DiscountFor(code, subtotal, shipping)
    ensures DiscountFor(ToUpper(code), subtotal, shipping) == DiscountFor(code, subtotal, shipping)
  {
    ToUpperOfLower(code);
    ToUpperIdempotent(code);
  }

  /** "freeship" and "FREESHIP" both take off exactly the shipping. */
  lemma FreeshipCoversShipping(subtotal: int)
    ensures DiscountFor("freeship", subtotal, CartShipping(subtotal)) == CartShipping(subtotal) as real
    ensures DiscountFor("FREESHIP", subtotal, CartShipping(subtotal)) == CartShipping(subtotal) as real
  {
    UpperCaseCode("freeship", "FREESHIP", subtotal, CartShipping(subtotal));
    UpperCaseCode("FREESHIP", "FREESHIP", subtotal, CartShipping(subtotal));
  }

  /** A code whose upper-case form is `known` gets the discount of `known`. */
  lemma UpperCaseCode(code: string, known: string, subtotal: int, shipping: int)
    requires ToUpper(code) == known
    ensures DiscountFor(code, subtotal, shipping) == DiscountFor(known, subtotal, shipping)
  {
    ToUpperIdempotent(code);
  }

  /** An unknown code sets the discount to 0; a known one never takes off more than a
      fifth of the subtotal or the shipping. */
  lemma DiscountRange(code: string, subtotal: int, shipping: int)
    ensures ToUpper(code) != "SAVE10" && ToUpper(code) != "WELCOME20" && ToUpper(code) != "FREESHIP" ==>
      DiscountFor(code, subtotal, shipping) == 0.0
    ensures subtotal >= 0 && shipping >= 0 ==>
      0.0 <= DiscountFor(code, subtotal, shipping) &&
      (DiscountFor(code, subtotal, shipping) <= subtotal as real * 0.2 ||
       DiscountFor(code, subtotal, shipping) == shipping as real)
  {
  }

  /** The summary's "amount left for free shipping" is 0 exactly when the page charges no
      shipping. */
  lemma RemainingAgreesWithShipping(subtotal: int)
    ensures CartSummary.RemainingForFreeShipping(subtotal) == 0 <==> CartShipping(subtotal) == 0
  {
  }

  /** A code whose length is not that of a known code never matches one, whatever its
      letters' case. */
  lemma OtherLengthIsUnknown(code: string, subtotal: int, shipping: int)
    requires |code| != |"SAVE10"| && |code| != |"WELCOME20"| && |code| != |"FREESHIP"|
    ensures DiscountFor(code, subtotal, shipping) == 0.0
  {
    assert |ToUpper(code)| == |code|;
  }

  /** The summary forwards the code as typed, untrimmed: a code typed with a leading space
      is accepted. */
  lemma PaddedCodeIsAccepted()
    ensures CartSummary.ApplyEnabled(" save10", false)
  {
    var code := " save10";
    assert !IsWhitespace(code[1]);
    CartSummary.BlankCodeNeverApplies(code, false);
  }

  /** The page does not trim the code either, so the padded code accepted above is matched
      as no code at all, while the same code typed without the space is known. */
  lemma PaddedCodeIsUnknown(subtotal: int, shipping: int)
    ensures DiscountFor(" save10", subtotal, shipping) == 0.0
    ensures DiscountFor("save10", subtotal, shipping) == subtotal as real * 0.1
  {
    OtherLengthIsUnknown(" save10", subtotal, shipping);
    assert ToUpper("save10") == "SAVE10";
  }
}
