/**
 * The image carousel (src/components/Carousel.tsx). Its only state is the
 * current slide index; the auto-play properties are accepted and ignored, so
 * the index changes only through the three navigation handlers below. A
 * carousel needs at least one slide: with none, rendering reads the fields of
 * a missing slide.
 */
module Carousel {
  import opened Navigation

  /** The dot row: dot i is drawn as the active one exactly when i is the current index. */
  function DotsActive(slideCount: nat, currentIndex: int): (dots: seq<bool>)
    ensures |dots| == slideCount
    ensures forall i :: 0 <= i < slideCount ==> (dots[i] <==> i == currentIndex)
  {
    seq(slideCount, i => i == currentIndex)
  }

  /** How many entries of `s` are true. */
  function CountTrue(s: seq<bool>): (c: nat)
    ensures c <= |s|
  {
    if s == [] then 0 else (if s[0] then 1 else 0) + CountTrue(s[1..])
  }

  /** No entry true means a count of zero. */
  lemma {:induction false} CountTrueNone(s: seq<bool>)
    requires forall i :: 0 <= i < |s| ==> !s[i]
    ensures CountTrue(s) == 0
  {
    if s != [] {
      assert forall i :: 0 <= i < |s| - 1 ==> s[1..][i] == s[i + 1];
      CountTrueNone(s[1..]);
    }
  }

  /** Exactly one entry true means a count of one. */
  lemma {:induction false} CountTrueSingle(s: seq<bool>, k: nat)
    requires k < |s| && forall i :: 0 <= i < |s| ==> (s[i] <==> i == k)
    ensures CountTrue(s) == 1
  {
    assert forall i :: 0 <= i < |s| - 1 ==> s[1..][i] == s[i + 1];
    if k == 0 {
      CountTrueNone(s[1..]);
    } else {
      CountTrueSingle(s[1..], k - 1);
    }
  }

  /** With the index in range, exactly one dot is active, the current one. */
  lemma ExactlyOneActiveDot(slideCount: nat, currentIndex: int)
    requires InRange(currentIndex, slideCount)
    ensures CountTrue(DotsActive(slideCount, currentIndex)) == 1
    ensures DotsActive(slideCount, currentIndex)[currentIndex]
  {
    CountTrueSingle(DotsActive(slideCount, currentIndex), currentIndex);
  }

  class Carousel {
    const slideCount: Positive
    var currentIndex: int

    /** The current index addresses a slide. */
    predicate Valid()
      reads this
    {
      InRange(currentIndex, slideCount)
    }

    /** A new carousel shows its first slide. */
    constructor (slideCount: Positive)
      ensures this.slideCount == slideCount && currentIndex == 0 && Valid()
    {
      this.slideCount := slideCount;
      currentIndex := 0;
    }

    /**
     * `goToSlide`: `(index + n) % n` with JavaScript's remainder. Every index
     * from -n on lands on a slide, and a slide's own index is kept.
     */
    method GoToSlide(index: int)
      modifies this`currentIndex
      ensures currentIndex == JsRem(index + slideCount, slideCount)
      ensures index >= -(slideCount as int) ==> Valid()
      ensures InRange(index, slideCount) ==> currentIndex == index
    {
      JsRemNonNegativeRange(index, slideCount);
      currentIndex := JsRem(index + slideCount, slideCount);
    }

    /** `goToPrevious`: one slide back, from the first to the last. */
    method GoToPrevious()
      requires Valid()
      modifies this`currentIndex
      ensures Valid() && currentIndex == Pred(old(currentIndex), slideCount)
    {
      JsPrevIsPred(currentIndex, slideCount);
      GoToSlide(currentIndex - 1);
    }

    /** `goToNext`: one slide forward, from the last to the first. */
    method GoToNext()
      requires Valid()
      modifies this`currentIndex
      ensures Valid() && currentIndex == Succ(old(currentIndex), slideCount)
    {
      JsShiftedNextIsSucc(currentIndex, slideCount);
      GoToSlide(currentIndex + 1);
    }

    /** The dot row as rendered from the current state. */
    function Dots(): (dots: seq<bool>)
      reads this
      ensures |dots| == slideCount
      ensures Valid() ==> CountTrue(dots) == 1 && dots[currentIndex]
    {
      if Valid() then
        ExactlyOneActiveDot(slideCount, currentIndex);
        DotsActive(slideCount, currentIndex)
      else
        DotsActive(slideCount, currentIndex)
    }
  }
}
