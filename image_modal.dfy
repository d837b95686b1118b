/** `ImageModal`: a full-screen overlay over the collection slides with its
    own cursor. The cursor starts at the `initialIndex` prop and is reset to
    it whenever that prop changes value. The component stays mounted while
    closed (it only renders nothing), so the cursor survives a close. */
module Modal {
  import opened Wrappers
  import opened Products
  import opened HoverZone
  import Carousel

  /** What the open modal shows. */
  datatype ModalView = ModalView(
    item: CollectionData,   // image, title and description shown
    navButtons: bool,       // the two edge buttons exist
    showLeft: bool,
    showRight: bool,
    indicators: seq<bool>)

  /** Where a click lands. The scrim is a sibling of the content box, not its
      parent, so a click on the content never reaches the scrim's handler. */
  datatype ClickTarget = Scrim | CloseButton | Content

  /** `onClose` runs for a click on the scrim or on the close button. */
  predicate InvokesOnClose(target: ClickTarget)
  {
    target == Scrim || target == CloseButton
  }

  class ImageModal {
    const collections: seq<CollectionData>
    const carousel: Carousel.Cursor
    var mousePosition: Option<PointerSample>
    /** The `initialIndex` the reset effect last ran for. */
    var initialIndex: int

    predicate HasMultipleCollections()
    {
      |collections| > 1
    }

    ghost predicate Valid()
      reads this, carousel
    {
      && |collections| >= 1
      && carousel.Valid()
      && carousel.n == |collections|
      && 0 <= initialIndex < |collections|
      && (!HasMultipleCollections() ==> mousePosition == None)
    }

    /** The component reads `collections[currentIndex]` unguarded, so its
        caller must pass an index of an existing slide. */
    constructor (collections: seq<CollectionData>, initialIndex: int)
      requires 0 <= initialIndex < |collections|
      ensures Valid() && fresh(carousel)
      ensures this.collections == collections && this.initialIndex == initialIndex
      ensures carousel.index == initialIndex && mousePosition == None
    {
      this.collections := collections;
      carousel := new Carousel.Cursor(|collections|, initialIndex);
      this.initialIndex := initialIndex;
      mousePosition := None;
    }

    /** A render with `initialIndex` = `i`, followed by the reset effect,
        which fires only when `i` differs from the value it last saw. */
    method ReceiveInitialIndex(i: int)
      requires Valid() && 0 <= i < |collections|
      modifies this, carousel
      ensures Valid() && initialIndex == i && mousePosition == old(mousePosition)
      ensures carousel.index == if i != old(initialIndex) then i else old(carousel.index)
    {
      if i != initialIndex {
        carousel.GoToIndex(i);
      }
      initialIndex := i;
    }

    method GoToNext()
      requires Valid()
      modifies carousel
      ensures Valid() && carousel.index == Carousel.Next(old(carousel.index), |collections|)
    {
      carousel.GoToNext();
    }

    method GoToPrevious()
      requires Valid()
      modifies carousel
      ensures Valid() && carousel.index == Carousel.Previous(old(carousel.index), |collections|)
    {
      carousel.GoToPrevious();
    }

    method GoToIndex(i: int)
      requires Valid() && 0 <= i < |collections|
      modifies carousel
      ensures Valid() && carousel.index == i
    {
      carousel.GoToIndex(i);
    }

    /** `handleMouseMove` with `x` already relative to the image's left edge. */
    method HandleMouseMove(x: real, width: real)
      requires Valid()
      modifies this
      ensures Valid() && initialIndex == old(initialIndex)
      ensures mousePosition == if HasMultipleCollections() then Some(PointerSample(x, width)) else old(mousePosition)
    {
      if !HasMultipleCollections() {
        return;
      }
      mousePosition := Some(PointerSample(x, width));
    }

    method HandleMouseLeave()
      requires Valid()
      modifies this
      ensures Valid() && initialIndex == old(initialIndex) && mousePosition == None
    {
      mousePosition := None;
    }

    /** Nothing is rendered while closed; when open, the slide at the cursor
        with the navigation chrome only for more than one slide. */
    function Render(isOpen: bool): (v: Option<ModalView>)
      reads this, carousel
      requires Valid()
      ensures v.None? <==> !isOpen
      ensures v.Some? ==> v.value.item == collections[carousel.index]
      ensures v.Some? ==> v.value.navButtons == HasMultipleCollections()
      ensures v.Some? ==> !(v.value.showLeft && v.value.showRight)
      ensures v.Some? && !HasMultipleCollections() ==>
                !v.value.showLeft && !v.value.showRight && v.value.indicators == []
      ensures v.Some? && HasMultipleCollections() ==>
                |v.value.indicators| == |collections| && v.value.indicators[carousel.index]
      ensures v.Some? && HasMultipleCollections() ==>
                forall i :: 0 <= i < |v.value.indicators| && i != carousel.index ==> !v.value.indicators[i]
    {
      if !isOpen then None
      else
        Some(ModalView(
          collections[carousel.index],
          HasMultipleCollections(),
          ShowLeft(mousePosition),
          ShowRight(mousePosition),
          if HasMultipleCollections() then Carousel.Indicators(carousel.index, |collections|) else []))
    }
  }
}
