/** Hover-zone navigation: a pointer sample `{x, width} | null` taken relative
    to the card's left edge, and the two affordance flags derived from it with
    a dead zone of 40 units on either side of the midline. Coordinates are
    exact rationals here, not floating-point numbers. */
module HoverZone {
  import opened Wrappers

  datatype PointerSample = PointerSample(x: real, width: real)

  /** Half-width of the dead zone around `width / 2`. */
  const DeadZone: real := 40.0

  /** `showLeftButton`: a sample exists and lies left of the dead zone. */
  predicate ShowLeft(sample: Option<PointerSample>)
  {
    sample.Some? && sample.value.x < sample.value.width / 2.0 - DeadZone
  }

  /** `showRightButton`: a sample exists and lies right of the dead zone. */
  predicate ShowRight(sample: Option<PointerSample>)
  {
    sample.Some? && sample.value.x > sample.value.width / 2.0 + DeadZone
  }

  /** The two affordances are never shown together. */
  lemma NeverBoth(sample: Option<PointerSample>)
    ensures !(ShowLeft(sample) && ShowRight(sample))
  {
  }

  /** Inside the dead zone neither affordance is shown. */
  lemma DeadZoneShowsNeither(x: real, width: real)
    requires width / 2.0 - DeadZone <= x <= width / 2.0 + DeadZone
    ensures !ShowLeft(Some(PointerSample(x, width)))
    ensures !ShowRight(Some(PointerSample(x, width)))
  {
  }

  /** Each affordance is shown exactly on its own side of the dead zone, so
      outside the dead zone exactly one is shown: the one on the pointer's
      side of the midline. */
  lemma OutsideDeadZoneShowsOne(x: real, width: real)
    ensures x < width / 2.0 - DeadZone <==> ShowLeft(Some(PointerSample(x, width)))
    ensures x > width / 2.0 + DeadZone <==> ShowRight(Some(PointerSample(x, width)))
    ensures !(width / 2.0 - DeadZone <= x <= width / 2.0 + DeadZone) ==>
              ShowLeft(Some(PointerSample(x, width))) != ShowRight(Some(PointerSample(x, width)))
    ensures !(width / 2.0 - DeadZone <= x <= width / 2.0 + DeadZone) ==>
              (ShowLeft(Some(PointerSample(x, width))) <==> x < width / 2.0)
  {
  }

  /** Once the pointer has left (sample cleared) both flags are false. */
  lemma NoSampleShowsNeither()
    ensures !ShowLeft(None) && !ShowRight(None)
  {
  }

  /** A container 200 units wide: 50 shows left, 100 neither, 160 right. */
  lemma WidthTwoHundredExamples()
    ensures ShowLeft(Some(PointerSample(50.0, 200.0))) && !ShowRight(Some(PointerSample(50.0, 200.0)))
    ensures !ShowLeft(Some(PointerSample(100.0, 200.0))) && !ShowRight(Some(PointerSample(100.0, 200.0)))
    ensures !ShowLeft(Some(PointerSample(160.0, 200.0))) && ShowRight(Some(PointerSample(160.0, 200.0)))
  {
  }
}
