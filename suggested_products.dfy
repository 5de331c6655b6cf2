/** The "You May Also Like" carousel of components/suggested-products.tsx: a window of four
    products over the list, moved one product at a time by the arrows, and a row of page
    indicators. */
module SuggestedProducts {

  const ItemsPerView: int := 4

  function Max(a: int, b: int): int { if a >= b then a else b }
  function Min(a: int, b: int): int { if a <= b then a else b }

  predicate CanScrollLeft(index: int) { index > 0 }
  predicate CanScrollRight(index: int, n: int) { index < n - ItemsPerView }

  /** `scrollLeft`: `Math.max(0, currentIndex - 1)`. */
  function ScrolledLeft(index: int): int { Max(0, index - 1) }

  /** `scrollRight`: `Math.min(products.length - itemsPerView, currentIndex + 1)`. */
  function ScrolledRight(index: int, n: int): int { Min(n - ItemsPerView, index + 1) }

  /** `Math.ceil(products.length / itemsPerView)` indicators. */
  function IndicatorCount(n: nat): nat { (n + ItemsPerView - 1) / ItemsPerView }

  /** The indicator drawn as active: `Math.floor(currentIndex / itemsPerView)`. */
  function ActiveIndicator(index: nat): nat { index / ItemsPerView }

  /** The largest index the arrows can reach. */
  function LastIndex(n: nat): nat { Max(0, n - ItemsPerView) }

  /** The component returns `null` for an empty list. */
  predicate Renders(n: nat) { n != 0 }

  /** A click on one of the two arrows. */
  datatype Arrow = Left | Right

  /** A click on a disabled arrow does nothing. */
  function Clicked(index: int, n: nat, a: Arrow): int {
    match a
    case Left => if CanScrollLeft(index) then ScrolledLeft(index) else index
    case Right => if CanScrollRight(index, n) then ScrolledRight(index, n) else index
  }

  function AfterClicks(index: int, n: nat, clicks: seq<Arrow>): int
    decreases |clicks|
  {
    if |clicks| == 0 then index else AfterClicks(Clicked(index, n, clicks[0]), n, clicks[1..])
  }

  class Carousel {
    const count: nat
    var currentIndex: int

    predicate Valid()
      reads this
    {
      0 <= currentIndex <= LastIndex(count)
    }

    /** `count` is `products.length`; the window starts at the first product. */
    constructor (count: nat)
      ensures this.count == count && currentIndex == 0 && Valid()
    {
      this.count := count;
      currentIndex := 0;
    }

    method ScrollLeft()
      modifies this
      ensures currentIndex == ScrolledLeft(old(currentIndex))
      ensures currentIndex >= 0
      ensures old(Valid()) ==> Valid()
    {
      currentIndex := if 0 >= currentIndex - 1 then 0 else currentIndex - 1;
    }

    /** The right arrow; it is disabled unless `CanScrollRight`. */
    method ScrollRight()
      modifies this
      ensures currentIndex == ScrolledRight(old(currentIndex), count)
      ensures CanScrollRight(old(currentIndex), count) ==> currentIndex == old(currentIndex) + 1
      ensures old(Valid()) && CanScrollRight(old(currentIndex), count) ==> Valid()
    {
      currentIndex := if count - ItemsPerView <= currentIndex + 1 then count - ItemsPerView else currentIndex + 1;
    }

    /** A click on indicator `index` sets the window's first product to `index`. */
    method SelectIndicator(index: nat)
      requires index < IndicatorCount(count)
      modifies this
      ensures currentIndex == index && Valid()
    {
      IndicatorWithinReach(index, count);
      currentIndex := index;
    }
  }

  // ---------------------------------------------------------------------------------
  // Properties

  /** Every indicator's index is one the arrows can also reach, so indicator clicks keep
      the window valid. */
  lemma IndicatorWithinReach(index: nat, n: nat)
    requires index < IndicatorCount(n)
    ensures index <= LastIndex(n)
  {
  }

  /** The arrows' enabling: left exactly when not at the start; right, when enabled, moves
      one step and stays within reach; left never goes below 0. */
  lemma ArrowRules(index: int, n: nat)
    ensures CanScrollLeft(index) <==> index > 0
    ensures ScrolledLeft(index) >= 0
    ensures CanScrollRight(index, n) ==> ScrolledRight(index, n) == index + 1 <= n - ItemsPerView
  {
  }

  /** From the start, any run of clicks on enabled arrows keeps the index in
      [0, max(0, n - 4)]. */
  lemma {:induction false} ClicksStayInRange(index: int, n: nat, clicks: seq<Arrow>)
    requires 0 <= index <= LastIndex(n)
    ensures 0 <= AfterClicks(index, n, clicks) <= LastIndex(n)
    decreases |clicks|
  {
    if |clicks| > 0 {
      ClicksStayInRange(Clicked(index, n, clicks[0]), n, clicks[1..]);
    }
  }

  /** There are `ceil(n / 4)` indicators: none for an empty list, and enough pages of four
      to cover every product. */
  lemma IndicatorCountIsCeiling(n: nat)
    ensures IndicatorCount(n) == 0 <==> n == 0
    ensures ItemsPerView * (IndicatorCount(n) - 1) < n <= ItemsPerView * IndicatorCount(n) || n == 0
    ensures !Renders(n) <==> IndicatorCount(n) == 0
  {
  }

  /** Clicking indicator k moves the window to product k, not to page k, so every
      indicator after the first lights up a different indicator from the one clicked. */
  lemma IndicatorHighlightsAnother(k: nat)
    ensures ActiveIndicator(k) == k <==> k == 0
    ensures 1 <= k < 4 ==> ActiveIndicator(k) == 0
  {
  }
}
