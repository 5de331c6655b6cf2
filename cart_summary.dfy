/** The order summary panel of components/cart-summary.tsx: how much more buys free
    shipping, and the discount-code box that forwards a code to the page. */
module CartSummary {
  import opened Wrappers
  import opened Text

  const FreeShippingThreshold: int := 75

  /** `Math.max(0, freeShippingThreshold - subtotal)`. */
  function RemainingForFreeShipping(subtotal: int): int {
    if FreeShippingThreshold - subtotal > 0 then FreeShippingThreshold - subtotal else 0
  }

  /** The Apply button is enabled for a code that is not blank, when no apply is pending. */
  predicate ApplyEnabled(discountCode: string, isApplyingDiscount: bool) {
    Trim(discountCode) != "" && !isApplyingDiscount
  }

  /** The panel's own state: the typed code and whether an apply is pending. */
  class SummaryPanel {
    var discountCode: string
    var isApplyingDiscount: bool

    constructor ()
      ensures discountCode == "" && !isApplyingDiscount
    {
      discountCode := "";
      isApplyingDiscount := false;
    }

    /** The input's `onChange`. */
    method Type(text: string)
      modifies this
      ensures discountCode == text && isApplyingDiscount == old(isApplyingDiscount)
    {
      discountCode := text;
    }

    /** `handleApplyDiscount`: a blank code is ignored; any other code is forwarded to
        `onApplyDiscount` exactly as typed, and the pending flag is cleared again. */
    method HandleApplyDiscount() returns (forwarded: Option<string>)
      modifies this
      ensures discountCode == old(discountCode)
      ensures Trim(discountCode) == "" ==> forwarded == None && isApplyingDiscount == old(isApplyingDiscount)
      ensures Trim(discountCode) != "" ==> forwarded == Some(discountCode) && !isApplyingDiscount
    {
      if Trim(discountCode) == "" {
        return None;
      }
      isApplyingDiscount := true;
      forwarded := Some(discountCode);
      isApplyingDiscount := false;
    }
  }

  // ---------------------------------------------------------------------------------
  // Properties

  /** What is left to spend is never negative, vanishes exactly from 75 on, and below 75
      tops the subtotal up to exactly 75. */
  lemma RemainingRule(subtotal: int)
    ensures RemainingForFreeShipping(subtotal) >= 0
    ensures RemainingForFreeShipping(subtotal) == 0 <==> subtotal >= FreeShippingThreshold
    ensures subtotal < FreeShippingThreshold ==>
      subtotal + RemainingForFreeShipping(subtotal) == FreeShippingThreshold
    ensures subtotal >= 0 ==> RemainingForFreeShipping(subtotal) <= FreeShippingThreshold
  {
  }

  /** A code made only of white space can neither be applied nor forwarded. */
  lemma {:induction false} BlankCodeNeverApplies(discountCode: string, isApplyingDiscount: bool)
    ensures ApplyEnabled(discountCode, isApplyingDiscount) ==> !AllWhitespace(discountCode)
    ensures !AllWhitespace(discountCode) && !isApplyingDiscount ==> ApplyEnabled(discountCode, isApplyingDiscount)
  {
    TrimEmptyIff(discountCode);
  }
}
