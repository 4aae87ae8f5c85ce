/**
 * The featured-games carousel: three slides, one shown at a time, moved by
 * the arrow buttons, the dots, and a timer that advances it.
 */
module FeaturedGames {

  /** `featuredGames.length` */
  const SlideCount: nat := 3

  /** The `nextSlide` update: the last slide wraps to the first. */
  function NextIndex(i: nat): (r: nat)
    requires i < SlideCount
    ensures r < SlideCount && r == (i + 1) % SlideCount
  {
    if i == SlideCount - 1 then 0 else i + 1
  }

  /** The `prevSlide` update: the first slide wraps to the last. */
  function PrevIndex(i: nat): (r: nat)
    requires i < SlideCount
    ensures r < SlideCount && r == (i + SlideCount - 1) % SlideCount
  {
    if i == 0 then SlideCount - 1 else i - 1
  }

  /** Going back undoes going forward, and the other way round. */
  lemma PrevUndoesNext(i: nat)
    requires i < SlideCount
    ensures PrevIndex(NextIndex(i)) == i
    ensures NextIndex(PrevIndex(i)) == i
  {
  }

  /** The slide after `k` presses of next, or `k` timer ticks. */
  function AdvanceBy(i: nat, k: nat): (r: nat)
    requires i < SlideCount
    ensures r < SlideCount
  {
    if k == 0 then i else NextIndex(AdvanceBy(i, k - 1))
  }

  lemma {:induction false} AdvanceByIsModular(i: nat, k: nat)
    requires i < SlideCount
    ensures AdvanceBy(i, k) == (i + k) % SlideCount
  {
    if k > 0 {
      AdvanceByIsModular(i, k - 1);
      var m := i + k - 1;
      assert m == SlideCount * (m / SlideCount) + m % SlideCount;
      if m % SlideCount == SlideCount - 1 {
        assert m + 1 == SlideCount * (m / SlideCount + 1);
      } else {
        assert m + 1 == SlideCount * (m / SlideCount) + (m % SlideCount + 1);
      }
    }
  }

  /** A full round of `SlideCount` steps comes back to the start. */
  lemma FullRoundReturns(i: nat)
    requires i < SlideCount
    ensures AdvanceBy(i, SlideCount) == i
  {
    AdvanceByIsModular(i, SlideCount);
  }

  /** The slides shown at full opacity: those whose index equals the current one. */
  function ActiveSlides(current: nat): (active: set<nat>)
    requires current < SlideCount
    ensures active == {current}
  {
    set i: nat | i < SlideCount && IsActive(i, current)
  }

  /** The class test `index === currentSlide` of a slide and of its dot. */
  predicate IsActive(index: nat, current: nat) {
    index == current
  }

  class Carousel {
    var currentSlide: nat

    ghost predicate Valid()
      reads this
    {
      currentSlide < SlideCount
    }

    /** `useState(0)` */
    constructor()
      ensures Valid() && currentSlide == 0
    {
      currentSlide := 0;
    }

    /** `nextSlide`, also what each timer tick does. */
    method Next()
      requires Valid()
      modifies this
      ensures Valid() && currentSlide == (old(currentSlide) + 1) % SlideCount
    {
      currentSlide := NextIndex(currentSlide);
    }

    /** `prevSlide` */
    method Prev()
      requires Valid()
      modifies this
      ensures Valid() && currentSlide == (old(currentSlide) + SlideCount - 1) % SlideCount
    {
      currentSlide := PrevIndex(currentSlide);
    }

    /** A dot click; the dots are numbered `0 .. SlideCount - 1`. */
    method GoTo(index: nat)
      requires index < SlideCount
      modifies this
      ensures Valid() && currentSlide == index
    {
      currentSlide := index;
    }
  }
}
