/**
 * The services carousel of src/app/screens/servicios/servicios.component.ts:
 * cards per view by window width, the page count, modular next/prev, the
 * resize clamp, autoplay ticks and the swipe gesture.
 */
module Servicios {
  import opened Wrappers

  /** The titles of the five service cards the screen shows. */
  const ServiceTitles: seq<string> := [
    "Restauraci\U{00F3}n dental", "Tratamiento de Enc\U{00ED}as", "Implantes", "Ortodoncia", "Endodoncia"
  ]

  /** A swipe must travel more than this many pixels to turn the page. */
  const SwipeThreshold := 50

  /** `updateItemsPerView`: 1 card below 640 px, 2 below 1024 px, else 3. */
  function ItemsPerViewFor(width: int): (r: int)
    ensures 1 <= r <= 3
    ensures r == 1 <==> width < 640
    ensures r == 2 <==> 640 <= width < 1024
    ensures r == 3 <==> 1024 <= width
  {
    if width < 640 then 1 else if width < 1024 then 2 else 3
  }

  /** `Math.ceil(n / k)` for a positive k. */
  function CeilDiv(n: nat, k: nat): (r: nat)
    requires k > 0
    ensures (r - 1) * k < n <= r * k || (n == 0 && r == 0)
  {
    (n + k - 1) / k
  }

  /** `totalPages`: enough pages for all cards, and never fewer than one. */
  function TotalPages(itemCount: nat, itemsPerView: int): (r: int)
    requires itemsPerView >= 1
    ensures r >= 1
    ensures itemCount <= r * itemsPerView
    ensures r == 1 || (r - 1) * itemsPerView < itemCount
  {
    var c := CeilDiv(itemCount, itemsPerView);
    if c < 1 then 1 else c
  }

  /** No smaller positive number of pages holds every card: the page count is the least one that does. */
  lemma TotalPagesIsLeast(itemCount: nat, itemsPerView: int, pages: int)
    requires itemsPerView >= 1 && pages >= 1 && itemCount <= pages * itemsPerView
    ensures TotalPages(itemCount, itemsPerView) <= pages
  {
    var r := TotalPages(itemCount, itemsPerView);
    if r > pages {
      MulMonotone(pages, r - 1, itemsPerView);
      assert false;
    }
  }

  lemma MulMonotone(a: int, b: int, k: int)
    requires a <= b && k >= 0
    ensures a * k <= b * k
  {
  }

  /** With the five service cards there are always at least two pages, so autoplay always runs. */
  lemma FiveCardsNeedTwoPages(width: int)
    ensures TotalPages(|ServiceTitles|, ItemsPerViewFor(width)) >= 2
  {
  }

  /** `prev` undoes `next`, and `next` undoes `prev`. */
  lemma NextPrevInverse(active: int, total: int)
    requires 0 <= active < total
    ensures ((active + 1) % total - 1 + total) % total == active
    ensures ((active - 1 + total) % total + 1) % total == active
  {
    if active + 1 < total {
      ModOfSmall(active + 1, total);
      ModOfShifted(active, total);
    } else {
      ModOfSelf(total);
      ModOfSmall(total - 1, total);
    }
    if active > 0 {
      ModOfSmall(active - 1 + total - total, total);
      ModOfShifted(active - 1, total);
      ModOfSmall(active, total);
    } else {
      ModOfSmall(total - 1, total);
      ModOfSelf(total);
    }
  }

  lemma ModOfSmall(x: int, n: int)
    requires 0 <= x < n
    ensures x % n == x
  {
  }

  lemma ModOfSelf(n: int)
    requires n > 0
    ensures n % n == 0
  {
  }

  lemma ModOfShifted(x: int, n: int)
    requires 0 <= x < n
    ensures (x + n) % n == x
  {
    assert (x + n) - n == x;
  }

  class Carousel {
    const itemCount: nat
    var active: int
    var itemsPerView: int
    var isPaused: bool
    var autoplayOn: bool
    var touchStartX: Option<int>
    var lastTouchX: Option<int>

    /** The page in view is one of the pages. */
    ghost predicate Valid()
      reads this
    {
      1 <= itemsPerView <= 3 && 0 <= active < Pages()
    }

    /** `totalPages` for the current cards per view. */
    function Pages(): (r: int)
      reads this
      requires itemsPerView >= 1
      ensures r >= 1
    {
      TotalPages(itemCount, itemsPerView)
    }

    /** `pages`: the page indices 0 .. totalPages - 1. */
    function PageIndices(): (r: seq<int>)
      reads this
      requires itemsPerView >= 1
      ensures |r| == Pages()
      ensures forall i :: 0 <= i < |r| ==> r[i] == i
    {
      seq(Pages(), i => i)
    }

    /** The carousel as declared, before `ngOnInit`: first page, three per view, no touch, no timer. */
    constructor(itemCount: nat)
      ensures this.itemCount == itemCount
      ensures active == 0 && itemsPerView == 3 && !isPaused && !autoplayOn
      ensures touchStartX.None? && lastTouchX.None?
      ensures Valid()
    {
      this.itemCount := itemCount;
      active, itemsPerView := 0, 3;
      isPaused, autoplayOn := false, false;
      touchStartX, lastTouchX := None, None;
    }

    /** `next`: the following page, wrapping to the first. */
    method Next()
      requires Valid()
      modifies this`active
      ensures Valid()
      ensures active == (old(active) + 1) % Pages()
    {
      active := (active + 1) % Pages();
    }

    /** `prev`: the preceding page, wrapping to the last. */
    method Prev()
      requires Valid()
      modifies this`active
      ensures Valid()
      ensures active == (old(active) - 1 + Pages()) % Pages()
    {
      active := (active - 1 + Pages()) % Pages();
    }

    /**
     * `onResize` with the window's width: the cards per view follow the
     * width, a page that still exists stays in view, and otherwise the last
     * page is shown.
     */
    method OnResize(width: int)
      requires Valid()
      modifies this`itemsPerView, this`active
      ensures Valid()
      ensures itemsPerView == ItemsPerViewFor(width)
      ensures old(active) < Pages() ==> active == old(active)
      ensures old(active) >= Pages() ==> active == Pages() - 1
    {
      var prev := itemsPerView;
      itemsPerView := ItemsPerViewFor(width);
      if Pages() <= active {
        active := if Pages() - 1 > 0 then Pages() - 1 else 0;
      }
      if prev != itemsPerView {
        var last := if Pages() - 1 > 0 then Pages() - 1 else 0;
        active := if active < last then active else last;
      }
    }

    /** `startAutoplay`: the timer runs again unless everything fits on one page. */
    method StartAutoplay()
      requires Valid()
      modifies this`autoplayOn
      ensures autoplayOn <==> Pages() > 1
    {
      autoplayOn := false;
      if Pages() <= 1 {
        return;
      }
      autoplayOn := true;
    }

    /** `clearAutoplay` (also `ngOnDestroy`): the timer stops. */
    method ClearAutoplay()
      modifies this`autoplayOn
      ensures !autoplayOn
    {
      autoplayOn := false;
    }

    /** One firing of the autoplay timer: the next page, unless paused. */
    method AutoplayTick()
      requires Valid()
      modifies this`active
      ensures Valid()
      ensures autoplayOn && !isPaused ==> active == (old(active) + 1) % Pages()
      ensures !autoplayOn || isPaused ==> active == old(active)
    {
      if autoplayOn && !isPaused {
        Next();
      }
    }

    /** `onTouchStart` with the touch points' x positions: pause, and remember where the first one started. */
    method OnTouchStart(touches: seq<int>)
      modifies this`isPaused, this`touchStartX
      ensures isPaused
      ensures touchStartX == (if |touches| > 0 then Some(touches[0]) else old(touchStartX))
    {
      isPaused := true;
      if |touches| > 0 {
        touchStartX := Some(touches[0]);
      }
    }

    /** `onTouchMoveCapture`: remember where the first touch point is now. */
    method OnTouchMoveCapture(touches: seq<int>)
      modifies this`lastTouchX
      ensures lastTouchX == (if |touches| > 0 then Some(touches[0]) else old(lastTouchX))
    {
      if |touches| > 0 {
        lastTouchX := Some(touches[0]);
      }
    }

    /** `onTouchEnd`: without a recorded start the carousel just resumes; with one nothing happens. */
    method OnTouchEnd()
      modifies this`isPaused
      ensures touchStartX.None? ==> !isPaused
      ensures touchStartX.Some? ==> isPaused == old(isPaused)
    {
      if touchStartX.None? {
        isPaused := false;
      }
    }

    /**
     * `onTouchEndFinal`: a swipe longer than the threshold turns the page,
     * forward when it went left and back when it went right; then the touch
     * is forgotten and the carousel resumes.
     */
    method OnTouchEndFinal()
      requires Valid()
      modifies this`active, this`touchStartX, this`lastTouchX, this`isPaused
      ensures Valid()
      ensures touchStartX.None? && lastTouchX.None? && !isPaused
      ensures !Swiped(old(touchStartX), old(lastTouchX)) ==> active == old(active)
      ensures Swiped(old(touchStartX), old(lastTouchX)) && old(lastTouchX).value < old(touchStartX).value ==>
        active == (old(active) + 1) % Pages()
      ensures Swiped(old(touchStartX), old(lastTouchX)) && old(lastTouchX).value > old(touchStartX).value ==>
        active == (old(active) - 1 + Pages()) % Pages()
    {
      if touchStartX.Some? && lastTouchX.Some? {
        var delta := lastTouchX.value - touchStartX.value;
        if (if delta < 0 then -delta else delta) > SwipeThreshold {
          if delta < 0 {
            Next();
          } else {
            Prev();
          }
        }
      }
      touchStartX, lastTouchX := None, None;
      isPaused := false;
    }

    method PauseAutoplay()
      modifies this`isPaused
      ensures isPaused
    {
      isPaused := true;
    }

    method ResumeAutoplay()
      modifies this`isPaused
      ensures !isPaused
    {
      isPaused := false;
    }
  }

  /** A touch that started and moved more than the threshold, either way. */
  predicate Swiped(start: Option<int>, last: Option<int>) {
    start.Some? && last.Some? && (last.value - start.value > SwipeThreshold || start.value - last.value > SwipeThreshold)
  }
}
