/**
 * The slide deck (`src/app/presentacion/page.tsx`): the index of the slide
 * shown, moved by the next and previous buttons and by the arrow keys, and
 * never leaving the ten slides.
 */
module Presentation {

  const TotalSlides: nat := 10

  /** The slide after `i`; the last slide stays where it is. */
  function NextIndex(i: int): (n: int)
    ensures 0 <= i < TotalSlides ==> 0 <= n < TotalSlides
    ensures n == i <==> i >= TotalSlides - 1
    ensures n != i ==> n == i + 1
  {
    if i < TotalSlides - 1 then i + 1 else i
  }

  /** The slide before `i`; the first slide stays where it is. */
  function PrevIndex(i: int): (n: int)
    ensures 0 <= i < TotalSlides ==> 0 <= n < TotalSlides
    ensures n == i <==> i <= 0
    ensures n != i ==> n == i - 1
  {
    if i > 0 then i - 1 else i
  }

  /** Back undoes next except on the last slide, and next undoes back except on the first. */
  lemma NextPrevInverse(i: int)
    requires 0 <= i < TotalSlides
    ensures i < TotalSlides - 1 ==> PrevIndex(NextIndex(i)) == i
    ensures i > 0 ==> NextIndex(PrevIndex(i)) == i
  {
  }

  /** The keyboard handler: the right arrow goes forward, the left arrow back, other keys do nothing. */
  function KeyStep(key: string, i: int): (n: int)
    ensures key == "ArrowRight" ==> n == NextIndex(i)
    ensures key == "ArrowLeft" ==> n == PrevIndex(i)
    ensures key != "ArrowRight" && key != "ArrowLeft" ==> n == i
  {
    var i := if key == "ArrowRight" then NextIndex(i) else i;
    if key == "ArrowLeft" then PrevIndex(i) else i
  }

  /** The slide reached from `i` after the keys `keys`, pressed in order. */
  function AfterKeys(keys: seq<string>, i: int): int {
    if keys == [] then i else KeyStep(keys[|keys| - 1], AfterKeys(keys[..|keys| - 1], i))
  }

  /** No sequence of key presses leaves the deck. */
  lemma {:induction false} KeysStayInDeck(keys: seq<string>, i: int)
    requires 0 <= i < TotalSlides
    ensures 0 <= AfterKeys(keys, i) < TotalSlides
  {
    if keys != [] {
      KeysStayInDeck(keys[..|keys| - 1], i);
    }
  }

  /** Holding the right arrow `n` times moves `n` slides on, stopping at the last one. */
  lemma {:induction false} RightArrowSaturates(n: nat, i: int)
    requires 0 <= i < TotalSlides
    ensures AfterKeys(seq(n, _ => "ArrowRight"), i) == if i + n < TotalSlides then i + n else TotalSlides - 1
  {
    if n > 0 {
      var keys := seq(n, _ => "ArrowRight");
      assert keys[..n - 1] == seq(n - 1, _ => "ArrowRight");
      RightArrowSaturates(n - 1, i);
    }
  }

  class PresentationPage {
    var currentSlide: int

    ghost predicate Valid()
      reads this
    {
      0 <= currentSlide < TotalSlides
    }

    constructor ()
      ensures Valid() && currentSlide == 0
    {
      currentSlide := 0;
    }

    /** `nextSlide`. */
    method NextSlide()
      requires Valid()
      modifies this
      ensures Valid()
      ensures currentSlide == NextIndex(old(currentSlide))
    {
      if currentSlide < TotalSlides - 1 {
        currentSlide := currentSlide + 1;
      }
    }

    /** `prevSlide`. */
    method PrevSlide()
      requires Valid()
      modifies this
      ensures Valid()
      ensures currentSlide == PrevIndex(old(currentSlide))
    {
      if currentSlide > 0 {
        currentSlide := currentSlide - 1;
      }
    }

    /** The `keydown` listener. */
    method HandleKeyDown(key: string)
      requires Valid()
      modifies this
      ensures Valid()
      ensures currentSlide == KeyStep(key, old(currentSlide))
    {
      if key == "ArrowRight" {
        currentSlide := if currentSlide < TotalSlides - 1 then currentSlide + 1 else currentSlide;
      }
      if key == "ArrowLeft" {
        currentSlide := if currentSlide > 0 then currentSlide - 1 else currentSlide;
      }
    }
  }
}
