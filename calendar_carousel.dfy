/**
 * The calendar viewer (`src/components/CalendarCarousel.tsx`): the list of
 * image URLs it loads once, the index of the image shown, the direction of
 * the last move (for the slide animation), and the download of the image
 * shown.
 */
module Carousel {
  import opened Results
  import opened Text

  const DownloadPrefix := "calendario-ufg-"
  const DownloadExtension := ".jpg"

  /**
   * The index `paginate` moves to from `prev` by `delta` over `count` images:
   * below zero goes to the last image, at or past the end goes to the first.
   */
  function PaginateTarget(prev: int, delta: int, count: nat): (n: int)
    ensures count > 0 ==> 0 <= n < count
    ensures 0 <= prev + delta < count ==> n == prev + delta
    ensures prev + delta < 0 ==> n == count - 1
    ensures prev + delta >= count ==> n == 0
  {
    var next := prev + delta;
    var next := if next < 0 then count - 1 else next;
    if next >= count then 0 else next
  }

  /** One step either way from a shown image is a step modulo the number of images. */
  lemma PaginateIsModular(prev: int, delta: int, count: nat)
    requires 0 <= prev < count
    requires delta == 1 || delta == -1
    ensures PaginateTarget(prev, delta, count) == (prev + delta) % count
  {
  }

  /** Going back undoes going forward, and going forward undoes going back. */
  lemma PaginateInverse(i: int, count: nat)
    requires 0 <= i < count
    ensures PaginateTarget(PaginateTarget(i, 1, count), -1, count) == i
    ensures PaginateTarget(PaginateTarget(i, -1, count), 1, count) == i
  {
  }

  /** The index reached from `i` after `steps` presses of the next button. */
  function Forward(i: int, steps: nat, count: nat): int {
    if steps == 0 then i else PaginateTarget(Forward(i, steps - 1, count), 1, count)
  }

  /** Within one round, pressing next `steps` times moves `steps` images on, wrapping past the last once. */
  lemma {:induction false} ForwardWithinRound(i: int, steps: nat, count: nat)
    requires 0 <= i < count && steps <= count
    ensures Forward(i, steps, count) == if i + steps < count then i + steps else i + steps - count
  {
    if steps > 0 {
      ForwardWithinRound(i, steps - 1, count);
    }
  }

  /** A full round of presses comes back to the image it started from. */
  lemma FullRoundReturns(i: int, count: nat)
    requires 0 <= i < count
    ensures Forward(i, count, count) == i
  {
    ForwardWithinRound(i, count, count);
  }

  /** Pressing `a + b` times is pressing `a` times, then `b` times. */
  lemma {:induction false} ForwardCompose(i: int, a: nat, b: nat, count: nat)
    ensures Forward(i, a + b, count) == Forward(Forward(i, a, count), b, count)
  {
    if b > 0 {
      ForwardCompose(i, a, b - 1, count);
    }
  }

  /** The position after any number of presses repeats with period `count`. */
  lemma ForwardPeriodic(i: int, steps: nat, count: nat)
    requires 0 <= i < count
    ensures Forward(i, count + steps, count) == Forward(i, steps, count)
  {
    ForwardCompose(i, count, steps, count);
    FullRoundReturns(i, count);
  }

  /** The direction a dot click records: forward when the dot is after the shown image, backward otherwise. */
  function DotDirection(idx: int, current: int): (d: int)
    ensures d == 1 || d == -1
    ensures d == 1 <==> idx > current
  {
    if idx - current > 0 then 1 else -1
  }

  /**
   * The file name `downloadImage` saves the shown image under, or nothing
   * when there is no image at the index or its URL is empty.
   */
  function DownloadName(images: seq<string>, current: int): (r: Option<string>)
    ensures r.Some? <==> 0 <= current < |images| && images[current] != ""
    ensures r.Some? ==>
              && StartsWith(r.value, DownloadPrefix)
              && EndsWith(r.value, DownloadExtension)
              && |r.value| > |DownloadPrefix| + |DownloadExtension|
              && var number := r.value[|DownloadPrefix|..|r.value| - |DownloadExtension|];
                 AllDigits(number) && number[0] != '0' && ParseDecimal(number) == current + 1
  {
    if 0 <= current < |images| && images[current] != "" then
      var number := NatToString(current + 1);
      var name := DownloadPrefix + number + DownloadExtension;
      assert name[|DownloadPrefix|..|name| - |DownloadExtension|] == number;
      ParseNatToString(current + 1);
      Some(name)
    else
      None
  }

  class CalendarCarousel {
    var images: seq<string>
    var currentIndex: int
    var direction: int
    var loading: bool

    /** Once there are images, the index names one of them. */
    ghost predicate Valid()
      reads this
    {
      |images| > 0 ==> 0 <= currentIndex < |images|
    }

    constructor ()
      ensures Valid()
      ensures images == [] && currentIndex == 0 && direction == 0 && loading
    {
      images, currentIndex, direction, loading := [], 0, 0, true;
    }

    /**
     * The mount effect once `fetch("/api/images")` settles: `fetched` is the
     * `images` field of the JSON body, absent when the body has none or the
     * request failed, in which case the list stays as it was. The effect
     * runs once, on mount, before any control that moves the index exists.
     */
    method LoadImages(fetched: Option<seq<string>>)
      requires currentIndex == 0
      modifies this`images, this`loading
      ensures Valid()
      ensures images == (if fetched.Some? then fetched.value else old(images))
      ensures !loading
    {
      if fetched.Some? {
        images := fetched.value;
      }
      loading := false;
    }

    /** `paginate`: records the direction and moves the index, wrapping at both ends. */
    method Paginate(newDirection: int)
      requires Valid()
      modifies this`direction, this`currentIndex
      ensures Valid()
      ensures direction == newDirection
      ensures currentIndex == PaginateTarget(old(currentIndex), newDirection, |images|)
    {
      direction := newDirection;
      var nextIndex := currentIndex + newDirection;
      if nextIndex < 0 {
        nextIndex := |images| - 1;
      }
      if nextIndex >= |images| {
        nextIndex := 0;
      }
      currentIndex := nextIndex;
    }

    /** The click handler of the dot for image `idx`. */
    method SelectDot(idx: int)
      requires 0 <= idx < |images|
      modifies this`direction, this`currentIndex
      ensures Valid()
      ensures currentIndex == idx
      ensures direction == DotDirection(idx, old(currentIndex))
    {
      var diff := idx - currentIndex;
      direction := if diff > 0 then 1 else -1;
      currentIndex := idx;
    }

    /**
     * `downloadImage`: whether the download is attempted, and the name the
     * shown image is saved under. `fetched` says whether fetching the image
     * and reading its body succeed; when they throw, the error is caught and
     * nothing is saved.
     */
    method DownloadImage(fetched: bool) returns (attempted: bool, saved: Option<string>)
      requires Valid()
      ensures attempted <==> |images| > 0 && images[currentIndex] != ""
      ensures saved.Some? <==> attempted && fetched
      ensures saved.Some? ==> saved == DownloadName(images, currentIndex)
    {
      if !(0 <= currentIndex < |images|) || images[currentIndex] == "" {
        return false, None;
      }
      if !fetched {
        return true, None;
      }
      return true, DownloadName(images, currentIndex);
    }
  }
}
