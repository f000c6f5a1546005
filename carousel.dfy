/**
 * The hand-rolled pan gesture of components/carousel.tsx. Three shared values
 * are updated in place: `translateX` (the row's offset), `prevTranslateX` (the
 * offset when the gesture began) and `currentIndex`. Offsets are real numbers
 * here; the end-of-gesture animation is represented by the offset it settles at.
 */
module Carousel {

  const CardPadding: real := 16.0
  const CardGap: real := 8.0
  /** Distance or speed past which a gesture counts as a swipe. */
  const SwipeThreshold: real := 100.0
  /** Rubber-band factor for dragging past either end. */
  const EdgeDamping: real := 0.3

  /** `clamp(val, min, max) = Math.min(Math.max(val, min), max)`. */
  function Clamp(v: real, lo: real, hi: real): (r: real)
    ensures lo <= hi ==> lo <= r <= hi
    ensures lo <= v <= hi ==> r == v
    ensures lo <= hi && v < lo ==> r == lo
    ensures v > hi ==> r == hi
    ensures hi < lo ==> r == hi
  {
    var atLeastLo := if v > lo then v else lo;
    if atLeastLo < hi then atLeastLo else hi
  }

  /** Width of one card plus the gap after it. */
  function ItemWidth(screenWidth: real): real {
    screenWidth - CardPadding * 2.0 + CardGap
  }

  /** The offset at which card `index` sits in view. */
  function SnapOffset(screenWidth: real, index: int): real {
    CardPadding - ItemWidth(screenWidth) * index as real
  }

  predicate SwipesRight(dx: real, velocityX: real) {
    dx > SwipeThreshold || velocityX > SwipeThreshold
  }

  predicate SwipesLeft(dx: real, velocityX: real) {
    dx < -SwipeThreshold || velocityX < -SwipeThreshold
  }

  /** Indices the carousel may show: from 0 to the last card, and 0 when there are none. */
  predicate InRange(index: int, length: int) {
    0 <= index && (index <= length - 1 || index == 0)
  }

  /** The index chosen when a gesture ends: back one on a right swipe, on one on a left swipe, the right swipe tested first. */
  function NextIndex(index: int, length: int, dx: real, velocityX: real): (r: int)
    ensures index - 1 <= r <= index + 1
    ensures InRange(index, length) ==> InRange(r, length)
    ensures SwipesRight(dx, velocityX) && index > 0 ==> r == index - 1
    ensures r == index - 1 ==> SwipesRight(dx, velocityX)
    ensures r == index + 1 ==> SwipesLeft(dx, velocityX) && index < length - 1
    ensures SwipesLeft(dx, velocityX) && !(SwipesRight(dx, velocityX) && index > 0) && index < length - 1 ==> r == index + 1
    ensures index == 0 && !SwipesLeft(dx, velocityX) ==> r == 0
    ensures index == length - 1 && !SwipesRight(dx, velocityX) ==> r == index
  {
    if SwipesRight(dx, velocityX) && index > 0 then index - 1
    else if SwipesLeft(dx, velocityX) && index < length - 1 then index + 1
    else index
  }

  /** The offset while dragging: damped past either end, otherwise following the finger. */
  function DragOffset(prevTranslateX: real, translationX: real, index: int, length: int): (r: real)
    ensures !(index == 0 && translationX > 0.0) && !(index == length - 1 && translationX < 0.0) ==>
      r == prevTranslateX + translationX
  {
    if (index == 0 && translationX > 0.0) || (index == length - 1 && translationX < 0.0) then
      prevTranslateX + translationX * EdgeDamping
    else
      prevTranslateX + translationX
  }

  /** Neighbouring cards sit one item width apart. */
  lemma SnapStep(screenWidth: real, index: int)
    ensures SnapOffset(screenWidth, index) - SnapOffset(screenWidth, index + 1) == ItemWidth(screenWidth)
  {
  }

  /** On any screen wider than the two paddings less the gap, distinct cards have distinct offsets. */
  lemma SnapOffsetsDistinct(screenWidth: real, i: int, j: int)
    requires ItemWidth(screenWidth) > 0.0
    ensures SnapOffset(screenWidth, i) == SnapOffset(screenWidth, j) <==> i == j
  {
    if i < j {
      assert ItemWidth(screenWidth) * i as real < ItemWidth(screenWidth) * j as real;
    } else if j < i {
      assert ItemWidth(screenWidth) * j as real < ItemWidth(screenWidth) * i as real;
    }
  }

  class PanGesture {
    const screenWidth: real
    const length: int
    var translateX: real
    var prevTranslateX: real
    var currentIndex: int

    predicate Valid()
      reads this
    {
      InRange(currentIndex, length)
    }

    /** The shared values' initial values. */
    constructor (screenWidth: real, length: nat)
      ensures Valid()
      ensures this.screenWidth == screenWidth && this.length == length
      ensures translateX == CardPadding && prevTranslateX == 0.0 && currentIndex == 0
    {
      this.screenWidth := screenWidth;
      this.length := length;
      translateX := CardPadding;
      prevTranslateX := 0.0;
      currentIndex := 0;
    }

    /** `onStart`: remember where the row was. */
    method OnStart()
      modifies this`prevTranslateX
      ensures prevTranslateX == translateX
    {
      prevTranslateX := translateX;
    }

    /** `onUpdate`: follow the finger from the remembered offset. */
    method OnUpdate(translationX: real)
      modifies this`translateX
      ensures translateX == DragOffset(prevTranslateX, translationX, currentIndex, length)
    {
      if (currentIndex == 0 && translationX > 0.0) || (currentIndex == length - 1 && translationX < 0.0) {
        translateX := prevTranslateX + translationX * EdgeDamping;
      } else {
        translateX := prevTranslateX + translationX;
      }
    }

    /** `onEnd`: pick the next index from the distance dragged and the release speed, then settle on that card. */
    method OnEnd(velocityX: real)
      requires Valid()
      modifies this`translateX, this`currentIndex
      ensures Valid()
      ensures currentIndex == NextIndex(old(currentIndex), length, old(translateX) - prevTranslateX, velocityX)
      ensures old(currentIndex) - 1 <= currentIndex <= old(currentIndex) + 1
      ensures translateX == SnapOffset(screenWidth, currentIndex)
    {
      var dx := translateX - prevTranslateX;
      var newIndex := currentIndex;
      if SwipesRight(dx, velocityX) && currentIndex > 0 {
        newIndex := currentIndex - 1;
      } else if SwipesLeft(dx, velocityX) && currentIndex < length - 1 {
        newIndex := currentIndex + 1;
      }
      if newIndex != currentIndex {
        currentIndex := newIndex;
      }
      translateX := SnapOffset(screenWidth, currentIndex);
    }
  }
}
