/**
 * The two home-page slideshows: a current index moved by the next and
 * previous buttons, by the dots and by the interval timer, wrapping at both
 * ends of the slide list, and the horizontal offset the track is moved by.
 */
module Slides {

  /** `prev === n - 1 ? 0 : prev + 1`. */
  function NextIndex(i: int, n: int): int
  {
    if i == n - 1 then 0 else i + 1
  }

  /** `prev === 0 ? n - 1 : prev - 1`. */
  function PrevIndex(i: int, n: int): int
  {
    if i == 0 then n - 1 else i - 1
  }

  /** On a non-empty list both steps stay on a slide, and each undoes the other. */
  lemma StepsStayInRange(i: int, n: int)
    requires 0 <= i < n
    ensures 0 <= NextIndex(i, n) < n && 0 <= PrevIndex(i, n) < n
    ensures PrevIndex(NextIndex(i, n), n) == i && NextIndex(PrevIndex(i, n), n) == i
  {
  }

  /** Next is the successor modulo the number of slides. */
  lemma NextIsModular(i: int, n: int)
    requires 0 <= i < n
    ensures NextIndex(i, n) == (i + 1) % n
  {
  }

  /** `k` presses of next. */
  function NextTimes(i: int, n: int, k: nat): int
  {
    if k == 0 then i else NextIndex(NextTimes(i, n, k - 1), n)
  }

  /** Below the last slide, `k` presses of next simply count up. */
  lemma {:induction false} NextTimesClimbs(i: int, n: int, k: nat)
    requires 0 <= i && i + k < n
    ensures NextTimes(i, n, k) == i + k
  {
    if k > 0 {
      NextTimesClimbs(i, n, k - 1);
    }
  }

  /** Presses of next compose: `a + b` presses are `a` presses followed by `b`. */
  lemma {:induction false} NextTimesAdd(i: int, n: int, a: nat, b: nat)
    ensures NextTimes(i, n, a + b) == NextTimes(NextTimes(i, n, a), n, b)
  {
    if b > 0 {
      NextTimesAdd(i, n, a, b - 1);
    }
  }

  /** `n` presses of next bring the show back to the slide it started from. */
  lemma FullCycle(i: int, n: int)
    requires 0 <= i < n
    ensures NextTimes(i, n, n) == i
  {
    NextTimesClimbs(i, n, n - 1 - i);
    assert NextTimes(i, n, n - i) == 0;
    NextTimesClimbs(0, n, i);
    NextTimesAdd(i, n, n - i, i);
  }

  /**
   * With no slides the index leaves the range at once: next from 0 gives 1
   * and previous gives -1, and further presses of next keep counting up.
   */
  lemma EmptyListEscapes(k: nat)
    ensures NextIndex(0, 0) == 1 && PrevIndex(0, 0) == -1
    ensures NextTimes(1, 0, k) == 1 + k
  {
    if k > 0 {
      EmptyListEscapes(k - 1);
    }
  }

  /** What moves the show: the two buttons, a dot, and the interval timer. */
  datatype Step = Next | Prev | Dot(index: int) | Tick

  /** The index after one step; a timer tick is a press of next. */
  function Apply(i: int, n: int, step: Step): int
  {
    match step
    case Next => NextIndex(i, n)
    case Prev => PrevIndex(i, n)
    case Dot(k) => k
    case Tick => NextIndex(i, n)
  }

  /** The dots are drawn one per slide, so a dot step names a slide. */
  predicate DotsOnSlides(steps: seq<Step>, n: int)
  {
    forall j :: 0 <= j < |steps| && steps[j].Dot? ==> 0 <= steps[j].index < n
  }

  function Run(i: int, n: int, steps: seq<Step>): int
    decreases |steps|
  {
    if steps == [] then i else Run(Apply(i, n, steps[0]), n, steps[1..])
  }

  /** From a slide, any sequence of steps on a non-empty show ends on a slide. */
  lemma {:induction false} RunStaysInRange(i: int, n: int, steps: seq<Step>)
    requires 0 <= i < n && DotsOnSlides(steps, n)
    ensures 0 <= Run(i, n, steps) < n
    decreases |steps|
  {
    if steps != [] {
      StepsStayInRange(i, n);
      assert steps[0].Dot? ==> 0 <= steps[0].index < n;
      assert DotsOnSlides(steps[1..], n) by {
        forall j | 0 <= j < |steps[1..]| && steps[1..][j].Dot?
          ensures 0 <= steps[1..][j].index < n
        {
          assert steps[1..][j] == steps[j + 1];
        }
      }
      RunStaysInRange(Apply(i, n, steps[0]), n, steps[1..]);
    }
  }

  /** The hero section: two fixed slides, offset mirrored by the text direction. */
  const HeroSlideCount: int := 2

  /** `currentSlide * (dir === "rtl" ? 100 : -100)`, in percent. */
  function SectionOffset(i: int, dir: string): (x: int)
    ensures dir == "rtl" ==> x == 100 * i
    ensures dir != "rtl" ==> x == -100 * i
  {
    i * (if dir == "rtl" then 100 else -100)
  }

  /** `currentSlide * 100`, in percent, whatever the direction. */
  function SliderOffset(i: int): (x: int)
    ensures x == 100 * i
  {
    i * 100
  }

  /** The hero section's offsets for the two directions mirror each other. */
  lemma SectionOffsetsMirror(i: int)
    ensures SectionOffset(i, "rtl") == -SectionOffset(i, "ltr")
    ensures SectionOffset(i, "ltr") == -SliderOffset(i)
  {
  }

  class HeroSection {
    var currentSlide: int

    ghost predicate Valid()
      reads this
    {
      0 <= currentSlide < HeroSlideCount
    }

    constructor ()
      ensures Valid() && currentSlide == 0
    {
      currentSlide := 0;
    }

    method NextSlide()
      requires Valid()
      modifies this
      ensures Valid() && currentSlide == NextIndex(old(currentSlide), HeroSlideCount)
    {
      currentSlide := if currentSlide == HeroSlideCount - 1 then 0 else currentSlide + 1;
    }

    method PrevSlide()
      requires Valid()
      modifies this
      ensures Valid() && currentSlide == PrevIndex(old(currentSlide), HeroSlideCount)
    {
      currentSlide := if currentSlide == 0 then HeroSlideCount - 1 else currentSlide - 1;
    }

    /** A click on dot `index`; dots exist only for the slides. */
    method SelectDot(index: int)
      requires 0 <= index < HeroSlideCount
      modifies this
      ensures Valid() && currentSlide == index
    {
      currentSlide := index;
    }

    /** The five-second interval's callback: the same update as next. */
    method Tick()
      requires Valid()
      modifies this
      ensures Valid() && currentSlide == NextIndex(old(currentSlide), HeroSlideCount)
    {
      NextSlide();
    }

    function Offset(dir: string): int
      reads this
    {
      SectionOffset(currentSlide, dir)
    }
  }

  class HeroSlider {
    /** `slides.length` of the `slides` prop. */
    const slideCount: nat
    var currentSlide: int

    ghost predicate Valid()
      reads this
    {
      0 <= currentSlide < slideCount
    }

    constructor (slideCount: nat)
      ensures this.slideCount == slideCount && currentSlide == 0
      ensures slideCount > 0 ==> Valid()
    {
      this.slideCount := slideCount;
      currentSlide := 0;
    }

    /** Wraps like the hero section; with no slides it leaves the range (see `EmptyListEscapes`). */
    method NextSlide()
      modifies this
      ensures currentSlide == NextIndex(old(currentSlide), slideCount)
      ensures old(Valid()) ==> Valid()
    {
      currentSlide := if currentSlide == slideCount - 1 then 0 else currentSlide + 1;
    }

    method PrevSlide()
      modifies this
      ensures currentSlide == PrevIndex(old(currentSlide), slideCount)
      ensures old(Valid()) ==> Valid()
    {
      currentSlide := if currentSlide == 0 then slideCount - 1 else currentSlide - 1;
    }

    method SelectDot(index: int)
      requires 0 <= index < slideCount
      modifies this
      ensures Valid() && currentSlide == index
    {
      currentSlide := index;
    }

    method Tick()
      modifies this
      ensures currentSlide == NextIndex(old(currentSlide), slideCount)
      ensures old(Valid()) ==> Valid()
    {
      NextSlide();
    }

    function Offset(): int
      reads this
    {
      SliderOffset(currentSlide)
    }
  }
}
