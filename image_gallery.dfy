/** The product image gallery of components/product-image-gallery.tsx: the index of the
    shown image, moved by the arrows with wrap-around and set by the thumbnails. */
module ImageGallery {

  /** JavaScript's `%`: the remainder takes the sign of the dividend (Dafny's `%` never
      returns a negative value). */
  function JsRem(a: int, n: int): (r: int)
    requires n > 0
    ensures -n < r < n
    ensures a >= 0 ==> r == a % n
    ensures a < 0 ==> r == -((-a) % n)
  {
    if a >= 0 then a % n else -((-a) % n)
  }

  /** `nextImage`: `(prev + 1) % images.length`. */
  function NextIndex(i: int, n: int): int
    requires n > 0
  {
    JsRem(i + 1, n)
  }

  /** `prevImage`: `(prev - 1 + images.length) % images.length`. */
  function PrevIndex(i: int, n: int): int
    requires n > 0
  {
    JsRem(i - 1 + n, n)
  }

  class Gallery {
    const images: seq<string>
    var currentImage: int

    predicate Valid()
      reads this
    {
      0 <= currentImage < |images|
    }

    /** The first image is shown first. */
    constructor (images: seq<string>)
      ensures this.images == images && currentImage == 0
      ensures |images| > 0 ==> Valid()
    {
      this.images := images;
      currentImage := 0;
    }

    /** "3 / 5": the position shown in the counter. */
    function Counter(): (c: int)
      reads this
      ensures Valid() ==> 1 <= c <= |images|
    {
      currentImage + 1
    }

    /** The right arrow, rendered only when there is more than one image. */
    method NextImage()
      requires |images| > 0
      modifies this
      ensures currentImage == NextIndex(old(currentImage), |images|)
      ensures old(Valid()) ==> Valid()
    {
      currentImage := JsRem(currentImage + 1, |images|);
    }

    /** The left arrow, rendered only when there is more than one image. */
    method PrevImage()
      requires |images| > 0
      modifies this
      ensures currentImage == PrevIndex(old(currentImage), |images|)
      ensures old(Valid()) ==> Valid()
    {
      currentImage := JsRem(currentImage - 1 + |images|, |images|);
    }

    /** A click on thumbnail `index`, one of `images.map((image, index) => ...)`. */
    method SelectThumbnail(index: int)
      requires 0 <= index < |images|
      modifies this
      ensures currentImage == index && Valid()
    {
      currentImage := index;
    }
  }

  // ---------------------------------------------------------------------------------
  // Properties

  /** The remainder of a value below twice the divisor. */
  lemma RemBelowTwice(a: int, n: int)
    requires 0 <= a < 2 * n
    ensures a % n == if a < n then a else a - n
  {
    if a < n {
      assert a == n * 0 + a;
    } else {
      assert a == n * 1 + (a - n);
    }
  }

  /** Right from the last image wraps to the first, and left from the first to the last;
      elsewhere the arrows step by one. Both keep the index valid. */
  lemma {:induction false} ArrowsWrap(i: int, n: int)
    requires 0 <= i < n
    ensures NextIndex(i, n) == if i == n - 1 then 0 else i + 1
    ensures PrevIndex(i, n) == if i == 0 then n - 1 else i - 1
    ensures 0 <= NextIndex(i, n) < n && 0 <= PrevIndex(i, n) < n
  {
    RemBelowTwice(i + 1, n);
    RemBelowTwice(i - 1 + n, n);
  }

  /** The arrows undo each other. */
  lemma {:induction false} ArrowsAreInverse(i: int, n: int)
    requires 0 <= i < n
    ensures PrevIndex(NextIndex(i, n), n) == i
    ensures NextIndex(PrevIndex(i, n), n) == i
  {
    ArrowsWrap(i, n);
    ArrowsWrap(NextIndex(i, n), n);
    ArrowsWrap(PrevIndex(i, n), n);
  }

  /** Why the source adds `images.length` before taking the remainder: JavaScript's `%`
      of -1 is -1, not a valid index. */
  lemma RemainderOfMinusOne(n: int)
    requires n > 1
    ensures JsRem(-1, n) == -1
    ensures JsRem(0 - 1 + n, n) == n - 1
  {
  }
}
