/** The testimonial carousel: an index into the three testimonials, moved forward, back or directly. */
module TestimonialSection {

  /** How many testimonials the section holds. */
  const Count: nat := 3

  /** `(prevIndex + 1) % testimonials.length` */
  function Next(i: nat, n: nat): (r: nat)
    requires n > 0
    ensures r < n
    ensures i < n - 1 ==> r == i + 1
    ensures i == n - 1 ==> r == 0
  {
    (i + 1) % n
  }

  /** `prevIndex === 0 ? testimonials.length - 1 : prevIndex - 1` */
  function Prev(i: nat, n: nat): (r: nat)
    requires n > 0
    ensures i < n ==> r < n
    ensures i == 0 ==> r == n - 1
    ensures i > 0 ==> r == i - 1
  {
    if i == 0 then n - 1 else i - 1
  }

  lemma PrevUndoesNext(i: nat, n: nat)
    requires i < n
    ensures Prev(Next(i, n), n) == i
  {
  }

  lemma NextUndoesPrev(i: nat, n: nat)
    requires i < n
    ensures Next(Prev(i, n), n) == i
  {
  }

  /** `Next` applied k times. */
  function NextTimes(i: nat, n: nat, k: nat): (r: nat)
    requires n > 0
  {
    if k == 0 then i else Next(NextTimes(i, n, k - 1), n)
  }

  /** Up to n steps forward from a valid index count up and wrap once past the end. */
  lemma {:induction false} NextTimesWraps(i: nat, n: nat, k: nat)
    requires i < n && k <= n
    ensures NextTimes(i, n, k) == if i + k < n then i + k else i + k - n
  {
    if k > 0 {
      NextTimesWraps(i, n, k - 1);
    }
  }

  /** n steps forward return to the start. */
  lemma FullCycle(i: nat, n: nat)
    requires i < n
    ensures NextTimes(i, n, n) == i
  {
    NextTimesWraps(i, n, n);
  }

  class Carousel {
    var currentIndex: nat

    ghost predicate Valid()
      reads this
    {
      currentIndex < Count
    }

    constructor ()
      ensures Valid() && currentIndex == 0
    {
      currentIndex := 0;
    }

    method NextTestimonial()
      requires Valid()
      modifies this
      ensures Valid() && currentIndex == Next(old(currentIndex), Count)
    {
      currentIndex := Next(currentIndex, Count);
    }

    method PrevTestimonial()
      requires Valid()
      modifies this
      ensures Valid() && currentIndex == Prev(old(currentIndex), Count)
    {
      currentIndex := Prev(currentIndex, Count);
    }

    /** A dot press; the dots are numbered 0 to Count - 1. */
    method Select(index: nat)
      requires index < Count
      modifies this
      ensures Valid() && currentIndex == index
    {
      currentIndex := index;
    }
  }
}
