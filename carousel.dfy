/**
 * The carousel's slide index (src/components/ui/carousel.tsx): it starts at
 * 0 and is moved by the previous/next buttons, by the indicator dots and by
 * the autoplay interval. `slideCount` is `items.length`; JavaScript's `%`
 * truncates, which agrees with Dafny's on the non-negative operands used here.
 */
module Carousel {

  /** `(i + 1) % n`: the step of goToNext and of the autoplay interval. */
  function Next(i: int, n: int): (j: int)
    requires 0 <= i < n
    ensures 0 <= j < n
    ensures j == if i == n - 1 then 0 else i + 1
  {
    (i + 1) % n
  }

  /** `(i - 1 + n) % n`: the step of goToPrevious. */
  function Previous(i: int, n: int): (j: int)
    requires 0 <= i < n
    ensures 0 <= j < n
    ensures j == if i == 0 then n - 1 else i - 1
  {
    (i - 1 + n) % n
  }

  /** The index after `k` consecutive forward steps. */
  function Steps(i: int, n: int, k: nat): (j: int)
    requires 0 <= i < n
    ensures 0 <= j < n
    decreases k
  {
    if k == 0 then i else Steps(Next(i, n), n, k - 1)
  }

  /** Which indicator dots are active: dot `k` is when `k` is the current index. */
  function Indicators(n: nat, current: int): (dots: seq<bool>)
    ensures |dots| == n
  {
    seq(n, k => k == current)
  }

  /** The number of active dots. */
  function CountActive(dots: seq<bool>): nat
  {
    if dots == [] then 0 else (if dots[|dots| - 1] then 1 else 0) + CountActive(dots[..|dots| - 1])
  }

  /** A step back undoes a step forward, and the other way round. */
  lemma PreviousUndoesNext(i: int, n: int)
    requires 0 <= i < n
    ensures Previous(Next(i, n), n) == i
    ensures Next(Previous(i, n), n) == i
  {
  }

  /** Steps compose: a + b steps are a steps followed by b steps. */
  lemma {:induction false} StepsAdd(i: int, n: int, a: nat, b: nat)
    requires 0 <= i < n
    ensures Steps(i, n, a + b) == Steps(Steps(i, n, a), n, b)
    decreases a
  {
    if a > 0 {
      StepsAdd(Next(i, n), n, a - 1, b);
    }
  }

  /** Before the end is reached, k steps add k. */
  lemma {:induction false} StepsWithoutWrap(i: int, n: int, k: nat)
    requires 0 <= i && i + k < n
    ensures Steps(i, n, k) == i + k
    decreases k
  {
    if k > 0 {
      StepsWithoutWrap(i + 1, n, k - 1);
    }
  }

  /** From index i, n - i steps wrap around to the first slide. */
  lemma {:induction false} StepsToFirst(i: int, n: int)
    requires 0 <= i < n
    ensures Steps(i, n, n - i) == 0
    decreases n - i
  {
    if i < n - 1 {
      StepsToFirst(i + 1, n);
    }
  }

  /** n consecutive forward steps (buttons or autoplay ticks) come back to the starting slide. */
  lemma FullCycle(i: int, n: int)
    requires 0 <= i < n
    ensures Steps(i, n, n) == i
  {
    StepsAdd(i, n, n - i, i);
    StepsToFirst(i, n);
    StepsWithoutWrap(0, n, i);
  }

  /** Among the first m dots, one is active when the current index is below m, and none otherwise. */
  lemma {:induction false} CountActivePrefix(n: nat, current: int, m: nat)
    requires m <= n
    ensures CountActive(Indicators(n, current)[..m]) == if 0 <= current < m then 1 else 0
  {
    var dots := Indicators(n, current);
    if m > 0 {
      assert dots[..m][..m - 1] == dots[..m - 1];
      CountActivePrefix(n, current, m - 1);
    }
  }

  /** Exactly one indicator dot is active, the current one. */
  lemma ExactlyOneIndicatorActive(n: nat, current: int)
    requires 0 <= current < n
    ensures Indicators(n, current)[current]
    ensures CountActive(Indicators(n, current)) == 1
  {
    CountActivePrefix(n, current, n);
    assert Indicators(n, current)[..n] == Indicators(n, current);
  }

  /** The state of one carousel: its slide count and autoplay setting, and the index it shows. */
  class CarouselState {
    const slideCount: nat
    const autoPlay: bool
    var currentIndex: int

    /** The index always names one of the slides. */
    ghost predicate Valid()
      reads this
    {
      0 <= currentIndex < slideCount
    }

    /** `useState(0)`; the only caller passes a non-empty list of slides. */
    constructor (slideCount: nat, autoPlay: bool)
      requires slideCount > 0
      ensures Valid() && currentIndex == 0
      ensures this.slideCount == slideCount && this.autoPlay == autoPlay
    {
      this.slideCount := slideCount;
      this.autoPlay := autoPlay;
      currentIndex := 0;
    }

    /** `goToNext`. */
    method GoToNext()
      requires Valid()
      modifies this
      ensures Valid() && currentIndex == Next(old(currentIndex), slideCount)
    {
      currentIndex := (currentIndex + 1) % slideCount;
    }

    /** `goToPrevious`. */
    method GoToPrevious()
      requires Valid()
      modifies this
      ensures Valid() && currentIndex == Previous(old(currentIndex), slideCount)
    {
      currentIndex := (currentIndex - 1 + slideCount) % slideCount;
    }

    /** `goToSlide(index)`, called only by indicator dot `index`. */
    method GoToSlide(index: int)
      requires Valid() && 0 <= index < slideCount
      modifies this
      ensures Valid() && currentIndex == index
    {
      currentIndex := index;
    }

    /** One period of the autoplay interval: a forward step, or nothing when autoplay is off and no interval was set. */
    method Tick()
      requires Valid()
      modifies this
      ensures Valid()
      ensures currentIndex == if autoPlay then Next(old(currentIndex), slideCount) else old(currentIndex)
    {
      if autoPlay {
        currentIndex := (currentIndex + 1) % slideCount;
      }
    }

    /** The dots as rendered: exactly the current one is active. */
    function ActiveDots(): (dots: seq<bool>)
      requires Valid()
      reads this
      ensures |dots| == slideCount && dots[currentIndex]
      ensures CountActive(dots) == 1
    {
      ExactlyOneIndicatorActive(slideCount, currentIndex);
      Indicators(slideCount, currentIndex)
    }
  }
}
