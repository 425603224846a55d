/** The testimonial carousel: one index over the three testimonials, moved by
    the arrows, the dots and the arrow keys. */
module Testimonials {

  const Count := 3

  /** `(prev + 1) % testimonials.length` */
  function Next(i: nat): (j: nat)
    ensures j < Count
    ensures i < Count ==> (j == i + 1 || (i == Count - 1 && j == 0))
  {
    (i + 1) % Count
  }

  /** `(prev - 1 + testimonials.length) % testimonials.length`; the sum is
      never negative, so the remainder operators agree. */
  function Prev(i: nat): (j: nat)
    ensures j < Count
    ensures i < Count ==> (j + 1 == i || (i == 0 && j == Count - 1))
  {
    (i - 1 + Count) % Count
  }

  lemma NextPrevInverse(i: nat)
    requires i < Count
    ensures Next(Prev(i)) == i && Prev(Next(i)) == i
  {
  }

  lemma Wraps()
    ensures Prev(0) == 2 && Next(2) == 0
  {
  }

  lemma ThreeStepsReturn(i: nat)
    requires i < Count
    ensures Next(Next(Next(i))) == i
  {
  }

  /** `aria-selected` on each dot: exactly the active one. */
  function Dots(active: nat): (d: seq<bool>)
    ensures |d| == Count
    ensures forall k :: 0 <= k < Count ==> (d[k] <==> k == active)
  {
    seq(Count, k requires 0 <= k < Count => k == active)
  }

  class Carousel {
    var activeIndex: nat

    ghost predicate Valid()
      reads this
    {
      activeIndex < Count
    }

    constructor ()
      ensures Valid() && activeIndex == 0
    {
      activeIndex := 0;
    }

    method GoNext()
      requires Valid()
      modifies this
      ensures Valid() && activeIndex == Next(old(activeIndex))
    {
      activeIndex := Next(activeIndex);
    }

    method GoPrev()
      requires Valid()
      modifies this
      ensures Valid() && activeIndex == Prev(old(activeIndex))
    {
      activeIndex := Prev(activeIndex);
    }

    /** A dot click selects exactly that testimonial. */
    method SelectDot(i: nat)
      requires Valid() && i < Count
      modifies this
      ensures Valid() && activeIndex == i
      ensures Dots(activeIndex)[i] && forall k :: 0 <= k < Count && k != i ==> !Dots(activeIndex)[k]
    {
      activeIndex := i;
    }

    /** The keydown listener: arrows move the index only when focus is inside
        the section; every other key, or focus elsewhere, changes nothing.
        The result says whether the default action was prevented. */
    method KeyDown(key: string, focusInside: bool) returns (prevented: bool)
      requires Valid()
      modifies this
      ensures Valid()
      ensures prevented <==> focusInside && (key == "ArrowRight" || key == "ArrowLeft")
      ensures focusInside && key == "ArrowRight" ==> activeIndex == Next(old(activeIndex))
      ensures focusInside && key == "ArrowLeft" ==> activeIndex == Prev(old(activeIndex))
      ensures !prevented ==> activeIndex == old(activeIndex)
    {
      prevented := false;
      if !focusInside {
        return;
      }
      if key == "ArrowRight" {
        prevented := true;
        GoNext();
      } else if key == "ArrowLeft" {
        prevented := true;
        GoPrev();
      }
    }
  }
}
