/** The home page hero carousel (src/components/HeroCarousel.tsx): slide
    index, transition lock, auto-play flag and swipe handling. Each timer is
    a method of its own that the environment calls when it fires. */
module HeroCarousel {

  /** The number of slides (HeroCarousel.tsx:13-38). */
  const SlideCount := 3

  /** The slide after `c` (HeroCarousel.tsx:67). */
  function NextIndex(c: int): (r: int)
    ensures 0 <= r < SlideCount
    ensures 0 <= c < SlideCount - 1 ==> r == c + 1
    ensures c == SlideCount - 1 ==> r == 0
  {
    (c + 1) % SlideCount
  }

  /** The slide before `c` (HeroCarousel.tsx:74). */
  function PrevIndex(c: int): (r: int)
    ensures 0 <= r < SlideCount
    ensures 0 < c < SlideCount ==> r == c - 1
    ensures c == 0 ==> r == SlideCount - 1
  {
    (c - 1 + SlideCount) % SlideCount
  }

  /** 'next' and 'prev' undo each other. */
  lemma NextPrevInverse(c: int)
    requires 0 <= c < SlideCount
    ensures PrevIndex(NextIndex(c)) == c && NextIndex(PrevIndex(c)) == c
  {
  }

  /** Three 'next's come back to the start. */
  lemma NextCycles(c: int)
    requires 0 <= c < SlideCount
    ensures NextIndex(NextIndex(NextIndex(c))) == c
  {
  }

  datatype Swipe = NoSwipe | Ignored | SwipeNext | SwipePrev

  /** `handleTouchEnd`'s decision (HeroCarousel.tsx:95-106): a zero start or
      end means no swipe at all; a move of more than 50 pixels either way
      turns the slide. */
  function SwipeFor(touchStart: int, touchEnd: int): (r: Swipe)
    ensures r == NoSwipe <==> touchStart == 0 || touchEnd == 0
    ensures r == SwipeNext <==> touchStart != 0 && touchEnd != 0 && touchStart - touchEnd > 50
    ensures r == SwipePrev <==> touchStart != 0 && touchEnd != 0 && touchStart - touchEnd < -50
  {
    if touchStart == 0 || touchEnd == 0 then NoSwipe
    else if touchStart - touchEnd > 50 then SwipeNext
    else if touchStart - touchEnd < -50 then SwipePrev
    else Ignored
  }

  class Carousel {
    var current: int
    var isTransitioning: bool
    var isAutoPlaying: bool
    var touchStart: int
    var touchEnd: int
    /** The lock as the running auto-play interval sees it. The interval's
        callback keeps the `nextSlide` of the render in which the effect last
        ran (HeroCarousel.tsx:50-62). That effect runs again only when the
        slide or the auto-play flag changes, so the callback keeps reading
        the `isTransitioning` of that render. */
    var intervalSeesLock: bool

    /** The slide is in range, and the interval never sees the lock as
        released while a transition runs: every change that sets the lock
        also changes the slide, which restarts the interval in that render. */
    ghost predicate Valid()
      reads this
    {
      0 <= current < SlideCount && (isTransitioning ==> intervalSeesLock)
    }

    constructor ()
      ensures Valid() && current == 0 && !isTransitioning && isAutoPlaying
      ensures touchStart == 0 && touchEnd == 0 && !intervalSeesLock
    {
      current, isTransitioning, isAutoPlaying := 0, false, true;
      touchStart, touchEnd := 0, 0;
      intervalSeesLock := false;
    }

    /** `nextSlide` (HeroCarousel.tsx:64-69), locked while a transition runs.
        A slide change restarts the interval in a render where the lock is
        set. */
    method Next()
      requires Valid()
      modifies this
      ensures Valid()
      ensures old(isTransitioning) ==> current == old(current) && isTransitioning
      ensures !old(isTransitioning) ==> current == NextIndex(old(current)) && isTransitioning
      ensures !old(isTransitioning) ==> intervalSeesLock
      ensures old(isTransitioning) ==> intervalSeesLock == old(intervalSeesLock)
      ensures isAutoPlaying == old(isAutoPlaying) && touchStart == old(touchStart) && touchEnd == old(touchEnd)
    {
      if isTransitioning {
        return;
      }
      isTransitioning := true;
      current := (current + 1) % SlideCount;
      intervalSeesLock := true;
    }

    /** `prevSlide` (HeroCarousel.tsx:71-76). */
    method Prev()
      requires Valid()
      modifies this
      ensures Valid()
      ensures old(isTransitioning) ==> current == old(current) && isTransitioning
      ensures !old(isTransitioning) ==> current == PrevIndex(old(current)) && isTransitioning
      ensures !old(isTransitioning) ==> intervalSeesLock
      ensures old(isTransitioning) ==> intervalSeesLock == old(intervalSeesLock)
      ensures isAutoPlaying == old(isAutoPlaying) && touchStart == old(touchStart) && touchEnd == old(touchEnd)
    {
      if isTransitioning {
        return;
      }
      isTransitioning := true;
      current := (current - 1 + SlideCount) % SlideCount;
      intervalSeesLock := true;
    }

    /** `goToSlide` (HeroCarousel.tsx:78-83), called by the indicator dots. */
    method GoTo(index: int)
      requires Valid() && 0 <= index < SlideCount
      modifies this
      ensures Valid()
      ensures old(isTransitioning) || index == old(current) ==>
        current == old(current) && isTransitioning == old(isTransitioning)
        && intervalSeesLock == old(intervalSeesLock)
      ensures !old(isTransitioning) && index != old(current) ==>
        current == index && isTransitioning && intervalSeesLock
      ensures isAutoPlaying == old(isAutoPlaying) && touchStart == old(touchStart) && touchEnd == old(touchEnd)
    {
      if isTransitioning || index == current {
        return;
      }
      isTransitioning := true;
      current := index;
      intervalSeesLock := true;
    }

    /** The 500 ms timer that ends a transition (HeroCarousel.tsx:68). The
        re-render it causes leaves the slide and the auto-play flag alone, so
        the interval keeps the lock it saw. */
    method EndTransition()
      requires Valid()
      modifies this
      ensures Valid()
      ensures !isTransitioning
      ensures current == old(current) && isAutoPlaying == old(isAutoPlaying)
      ensures intervalSeesLock == old(intervalSeesLock)
      ensures touchStart == old(touchStart) && touchEnd == old(touchEnd)
    {
      isTransitioning := false;
    }

    /** The 2 s auto-play interval (HeroCarousel.tsx:50-62). It runs only
        while auto-play is on, and its `nextSlide` tests the lock it saw when
        the interval started, not the live one. */
    method AutoPlayTick()
      requires Valid()
      modifies this
      ensures Valid()
      ensures isAutoPlaying && !old(intervalSeesLock) ==>
        current == NextIndex(old(current)) && isTransitioning && intervalSeesLock
      ensures !isAutoPlaying || old(intervalSeesLock) ==>
        current == old(current) && isTransitioning == old(isTransitioning)
        && intervalSeesLock == old(intervalSeesLock)
      ensures isAutoPlaying == old(isAutoPlaying) && touchStart == old(touchStart) && touchEnd == old(touchEnd)
    {
      if isAutoPlaying && !intervalSeesLock {
        Next();
      }
    }

    /** A change of the auto-play flag restarts the effect, which then sees
        the live lock; setting the flag to the value it has re-renders
        nothing. */
    method SetAutoPlaying(on: bool)
      requires Valid()
      modifies this
      ensures Valid()
      ensures isAutoPlaying == on
      ensures on != old(isAutoPlaying) ==> intervalSeesLock == old(isTransitioning)
      ensures on == old(isAutoPlaying) ==> intervalSeesLock == old(intervalSeesLock)
      ensures current == old(current) && isTransitioning == old(isTransitioning)
      ensures touchStart == old(touchStart) && touchEnd == old(touchEnd)
    {
      if on != isAutoPlaying {
        intervalSeesLock := isTransitioning;
      }
      isAutoPlaying := on;
    }

    /** `handleTouchStart` (HeroCarousel.tsx:85-88). */
    method TouchStart(x: int)
      requires Valid()
      modifies this
      ensures Valid()
      ensures touchStart == x && !isAutoPlaying
      ensures old(isAutoPlaying) ==> intervalSeesLock == old(isTransitioning)
      ensures !old(isAutoPlaying) ==> intervalSeesLock == old(intervalSeesLock)
      ensures current == old(current) && isTransitioning == old(isTransitioning) && touchEnd == old(touchEnd)
    {
      touchStart := x;
      SetAutoPlaying(false);
    }

    /** `handleTouchMove` (HeroCarousel.tsx:90-92). */
    method TouchMove(x: int)
      modifies this
      ensures touchEnd == x
      ensures current == old(current) && isTransitioning == old(isTransitioning)
      ensures touchStart == old(touchStart) && isAutoPlaying == old(isAutoPlaying)
      ensures intervalSeesLock == old(intervalSeesLock)
    {
      touchEnd := x;
    }

    /** `handleTouchEnd` (HeroCarousel.tsx:94-107): the touch positions are
        left as they are, so the next tap still sees this swipe's end. */
    method TouchEnd()
      requires Valid()
      modifies this
      ensures Valid()
      ensures SwipeFor(old(touchStart), old(touchEnd)) == SwipeNext && !old(isTransitioning) ==>
        current == NextIndex(old(current)) && isTransitioning && intervalSeesLock
      ensures SwipeFor(old(touchStart), old(touchEnd)) == SwipePrev && !old(isTransitioning) ==>
        current == PrevIndex(old(current)) && isTransitioning && intervalSeesLock
      ensures SwipeFor(old(touchStart), old(touchEnd)) in {NoSwipe, Ignored} || old(isTransitioning) ==>
        (current == old(current) && isTransitioning == old(isTransitioning)
         && intervalSeesLock == old(intervalSeesLock))
      ensures isAutoPlaying == old(isAutoPlaying)
      ensures touchStart == old(touchStart) && touchEnd == old(touchEnd)
    {
      if touchStart == 0 || touchEnd == 0 {
        return;
      }
      var distance := touchStart - touchEnd;
      if distance > 50 {
        Next();
      } else if distance < -50 {
        Prev();
      }
    }

    /** The 3 s timer a completed touch starts (HeroCarousel.tsx:108-109),
        and `handleMouseLeave` (HeroCarousel.tsx:113). */
    method ResumeAutoPlay()
      requires Valid()
      modifies this
      ensures Valid()
      ensures isAutoPlaying
      ensures !old(isAutoPlaying) ==> intervalSeesLock == old(isTransitioning)
      ensures old(isAutoPlaying) ==> intervalSeesLock == old(intervalSeesLock)
      ensures current == old(current) && isTransitioning == old(isTransitioning)
      ensures touchStart == old(touchStart) && touchEnd == old(touchEnd)
    {
      SetAutoPlaying(true);
    }

    /** `handleMouseEnter` (HeroCarousel.tsx:112) pauses auto-play. */
    method PauseAutoPlay()
      requires Valid()
      modifies this
      ensures Valid()
      ensures !isAutoPlaying
      ensures old(isAutoPlaying) ==> intervalSeesLock == old(isTransitioning)
      ensures !old(isAutoPlaying) ==> intervalSeesLock == old(intervalSeesLock)
      ensures current == old(current) && isTransitioning == old(isTransitioning)
      ensures touchStart == old(touchStart) && touchEnd == old(touchEnd)
    {
      SetAutoPlaying(false);
    }
  }

  /** Auto-play turns one slide and then stalls: the slide change restarts
      the interval in a render where the lock is set, and the 500 ms reset
      does not restart it. Only a change of the auto-play flag, here a hover
      in and out after the transition, lets it turn the next slide. */
  method AutoPlayStallsAfterOneSlide() returns (c: Carousel)
    ensures fresh(c) && c.Valid() && c.current == 2
  {
    c := new Carousel();
    c.AutoPlayTick();
    assert c.current == 1;
    c.EndTransition();
    c.AutoPlayTick();
    c.AutoPlayTick();
    assert c.current == 1;
    c.PauseAutoPlay();
    c.ResumeAutoPlay();
    c.AutoPlayTick();
  }
}
