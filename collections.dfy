/** `Collections`: the full-screen hero rotator over four fixed collection
    slides. A 5000 ms interval advances it exactly as the "next" arrow does;
    the arrows and the four indicator dots navigate by hand. */
module HeroCarousel {
  import opened Products
  import Carousel

  /** Period of the auto-advance interval. Time is not modelled: each firing
      is one call of `IntervalTick`. */
  const AutoAdvanceMs: nat := 5000

  /** The four slides, in display order. */
  const Slides: seq<CollectionData> := [
    CollectionData("/images/Collections/BlueCollection.png", "Overland Signal Collection",
                   "Crafted for Movement, Styled for Intent"),
    CollectionData("/images/Collections/OrangeCollection.png", "Urban Atlas Collection",
                   "For the Modern Wayfarer"),
    CollectionData("/images/Collections/GrayCollection.png", "Metro Stillness Collection",
                   "Quiet Confidence, Built for the City Pulse"),
    CollectionData("/images/Collections/YellowCollection.png", "Fieldform Archive Collection",
                   "Purpose-Built, City-Ready")
  ]

  /** From the first slide "previous" shows the last; from the last "next"
      shows the first. */
  lemma WrapsAtBothEnds()
    ensures Carousel.Previous(0, |Slides|) == 3
    ensures Carousel.Next(3, |Slides|) == 0
  {
  }

  /** Four ticks (or four "next" clicks) show the starting slide again. */
  lemma FourStepsReturn(c: int)
    requires 0 <= c < |Slides|
    ensures Carousel.Advance(c, |Slides|, 4) == c
  {
    Carousel.FullCycle(c, |Slides|);
  }

  class Collections {
    const carousel: Carousel.Cursor

    ghost predicate Valid()
      reads this, carousel
    {
      carousel.Valid() && carousel.n == |Slides|
    }

    constructor ()
      ensures Valid() && fresh(carousel) && carousel.index == 0
    {
      carousel := new Carousel.Cursor(|Slides|, 0);
    }

    /** The callback of the `AutoAdvanceMs` interval: the same step as
        `goToNext`. */
    method IntervalTick()
      requires Valid()
      modifies carousel
      ensures Valid() && carousel.index == Carousel.Next(old(carousel.index), |Slides|)
    {
      carousel.GoToNext();
    }

    method GoToNext()
      requires Valid()
      modifies carousel
      ensures Valid() && carousel.index == Carousel.Next(old(carousel.index), |Slides|)
    {
      carousel.GoToNext();
    }

    method GoToPrevious()
      requires Valid()
      modifies carousel
      ensures Valid() && carousel.index == Carousel.Previous(old(carousel.index), |Slides|)
    {
      carousel.GoToPrevious();
    }

    /** A click on indicator dot `i`; the dots are the four slide indices. */
    method SelectIndicator(i: int)
      requires Valid() && 0 <= i < |Slides|
      modifies carousel
      ensures Valid() && carousel.index == i
    {
      carousel.GoToIndex(i);
    }

    /** The slide whose image, title and description are shown: the one at
        the cursor, hence always one of the four. */
    function CurrentCollection(): (c: CollectionData)
      reads this, carousel
      requires Valid()
      ensures c == Slides[carousel.index]
      ensures c in Slides
    {
      Slides[carousel.index]
    }

    /** Only the dot of the shown slide is highlighted. */
    function RenderIndicators(): (r: seq<bool>)
      reads this, carousel
      requires Valid()
      ensures |r| == |Slides| && r[carousel.index]
      ensures forall i :: 0 <= i < |r| && i != carousel.index ==> !r[i]
    {
      Carousel.Indicators(carousel.index, |Slides|)
    }
  }
}
