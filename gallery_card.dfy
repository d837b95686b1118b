/** `GalleryCard`: a product card that shows one of several products, with
    hover-zone arrows, indicator dots and an optional "Show 3D" trigger.
    Navigation is manual only; there is no timer. */
module Gallery {
  import opened Wrappers
  import opened Products
  import opened HoverZone
  import Carousel

  /** The `data` prop: a single product or an array of them. */
  datatype GalleryData = OneProduct(product: Product) | ProductList(products: seq<Product>)

  /** `Array.isArray(data) ? data : [data]`. */
  function Normalise(data: GalleryData): (r: seq<Product>)
    ensures data.OneProduct? ==> r == [data.product]
    ensures data.ProductList? ==> r == data.products
  {
    match data
    case OneProduct(p) => [p]
    case ProductList(ps) => ps
  }

  /** What the card shows around the current product. */
  datatype Controls = Controls(
    navButtons: bool,       // the two edge buttons exist
    showLeft: bool,         // left edge button opaque
    showRight: bool,        // right edge button opaque
    tapHint: bool,          // "Tap to navigate" on small screens
    indicators: seq<bool>,  // one dot per product, true when highlighted
    view3D: Option<Product>)  // the "Show 3D" trigger and the product it passes

  class GalleryCard {
    const products: seq<Product>
    const hasView3D: bool  // the parent supplied `onView3D`
    const carousel: Carousel.Cursor
    var mousePosition: Option<PointerSample>

    /** `hasMultipleProducts`. */
    predicate HasMultipleProducts()
    {
      |products| > 1
    }

    ghost predicate Valid()
      reads this, carousel
    {
      && |products| >= 1
      && carousel.Valid()
      && carousel.n == |products|
      && (!HasMultipleProducts() ==> mousePosition == None)
    }

    /** An empty product array is not handled by the component (it reads
        `products[0]` unguarded), so the constructor excludes it. */
    constructor (data: GalleryData, hasView3D: bool)
      requires |Normalise(data)| >= 1
      ensures Valid() && fresh(carousel)
      ensures products == Normalise(data) && this.hasView3D == hasView3D
      ensures carousel.index == 0 && mousePosition == None
    {
      products := Normalise(data);
      this.hasView3D := hasView3D;
      carousel := new Carousel.Cursor(|Normalise(data)|, 0);
      mousePosition := None;
    }

    /** `currentProduct`: the product at the cursor. */
    function CurrentProduct(): (p: Product)
      reads this, carousel
      requires Valid()
      ensures p == products[carousel.index] && p in products
    {
      products[carousel.index]
    }

    method GoToNext()
      requires Valid()
      modifies carousel
      ensures Valid() && carousel.index == Carousel.Next(old(carousel.index), |products|)
    {
      carousel.GoToNext();
    }

    method GoToPrevious()
      requires Valid()
      modifies carousel
      ensures Valid() && carousel.index == Carousel.Previous(old(carousel.index), |products|)
    {
      carousel.GoToPrevious();
    }

    /** An indicator click; the dots enumerate exactly the valid indices. */
    method GoToIndex(i: int)
      requires Valid() && 0 <= i < |products|
      modifies carousel
      ensures Valid() && carousel.index == i
    {
      carousel.GoToIndex(i);
    }

    /** `handleMouseMove` with `x` already relative to the card's left edge. */
    method HandleMouseMove(x: real, width: real)
      requires Valid()
      modifies this
      ensures Valid()
      ensures mousePosition == if HasMultipleProducts() then Some(PointerSample(x, width)) else old(mousePosition)
    {
      if !HasMultipleProducts() {
        return;
      }
      mousePosition := Some(PointerSample(x, width));
    }

    method HandleMouseLeave()
      requires Valid()
      modifies this
      ensures Valid() && mousePosition == None
    {
      mousePosition := None;
    }

    /** The navigation chrome and the 3D trigger for the current state. */
    function RenderControls(): (v: Controls)
      reads this, carousel
      requires Valid()
      ensures v.navButtons == HasMultipleProducts() && v.tapHint == HasMultipleProducts()
      ensures !HasMultipleProducts() ==> !v.showLeft && !v.showRight && v.indicators == []
      ensures !(v.showLeft && v.showRight)
      ensures HasMultipleProducts() ==> |v.indicators| == |products| && v.indicators[carousel.index]
      ensures HasMultipleProducts() ==> forall i :: 0 <= i < |v.indicators| && i != carousel.index ==> !v.indicators[i]
      ensures v.view3D.Some? <==> hasView3D && CurrentProduct().modelPath != ""
      ensures v.view3D.Some? ==> v.view3D.value == CurrentProduct()
    {
      var current := products[carousel.index];
      Controls(
        HasMultipleProducts(),
        ShowLeft(mousePosition),
        ShowRight(mousePosition),
        HasMultipleProducts(),
        if HasMultipleProducts() then Carousel.Indicators(carousel.index, |products|) else [],
        if hasView3D && current.modelPath != "" then Some(current) else None)
    }
  }
}
