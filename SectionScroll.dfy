/**
 * The section-by-section scroll controller
 * (src/components/SectionScrollController.tsx). Wheel gestures and swipes
 * move one section up or down, hash links scroll the container, and at
 * most one animation runs at a time. Section positions and the scroll
 * offset are read from the page and are parameters here.
 */
module SectionScroll {

  import opened Wrappers

  /** A wheel gesture whose accumulated delta is smaller than this does not step. */
  const WheelThreshold: nat := 18
  /** A swipe shorter than this does not step. */
  const SwipeThreshold: nat := 36

  /** `Math.abs(a - b)` */
  function Dist(a: int, b: int): nat {
    if a >= b then a - b else b - a
  }

  /**
   * `i` is the section whose top is closest to `y`, and no earlier section
   * is as close.
   */
  predicate IsClosest(tops: seq<int>, y: int, i: nat) {
    && i < |tops|
    && (forall j | 0 <= j < |tops| :: Dist(y, tops[i]) <= Dist(y, tops[j]))
    && (forall j | 0 <= j < i :: Dist(y, tops[j]) > Dist(y, tops[i]))
  }

  /** At most one index is the closest one: ties go to the earliest. */
  lemma ClosestIsUnique(tops: seq<int>, y: int, i: nat, k: nat)
    requires IsClosest(tops, y, i) && IsClosest(tops, y, k)
    ensures i == k
  {
    assert Dist(y, tops[i]) == Dist(y, tops[k]);
  }

  /**
   * `getClosestIndex`: a scan with a strict `<` against the best distance
   * so far, which starts at infinity (None here). No sections gives 0.
   */
  method ClosestIndex(tops: seq<int>, y: int) returns (best: nat)
    ensures |tops| == 0 ==> best == 0
    ensures |tops| > 0 ==> IsClosest(tops, y, best)
  {
    best := 0;
    var bestDist: Option<nat> := None;
    for i := 0 to |tops|
      invariant i == 0 ==> best == 0 && bestDist.None?
      invariant i > 0 ==> best < i && bestDist == Some(Dist(y, tops[best]))
      invariant i > 0 ==> forall j | 0 <= j < i :: Dist(y, tops[best]) <= Dist(y, tops[j])
      invariant forall j | 0 <= j < best :: Dist(y, tops[j]) > Dist(y, tops[best])
    {
      var dist := Dist(y, tops[i]);
      if bestDist.None? || dist < bestDist.value {
        bestDist := Some(dist);
        best := i;
      }
    }
  }

  /** `Math.max(0, Math.min(n - 1, idx))` */
  function Clamp(idx: int, n: int): (r: int)
    ensures n >= 1 ==> 0 <= r < n
    ensures n >= 1 && 0 <= idx < n ==> r == idx
    ensures idx < 0 || n <= 0 ==> r == 0
    ensures n >= 1 && idx >= n ==> r == n - 1
  {
    var upper := if n - 1 < idx then n - 1 else idx;
    if upper < 0 then 0 else upper
  }

  /**
   * Whether a gesture moves, and which way: nothing below the threshold,
   * otherwise one section down for a positive delta and up otherwise.
   */
  function StepFor(delta: int, threshold: nat): (step: Option<int>)
    ensures step.None? <==> Dist(delta, 0) < threshold
    ensures step.Some? ==> (step.value == 1 <==> delta > 0) && (step.value == -1 <==> delta <= 0)
  {
    if Dist(delta, 0) < threshold then None
    else Some(if delta > 0 then 1 else -1)
  }

  /** With a positive threshold a step is never taken for a zero delta, so its sign is the delta's. */
  lemma StepFollowsSign(delta: int, threshold: nat)
    requires threshold > 0 && StepFor(delta, threshold).Some?
    ensures delta != 0
    ensures StepFor(delta, threshold).value == -1 <==> delta < 0
  {
  }

  /**
   * The section id a clicked hash link scrolls to: none for a missing
   * `href`, for `#` alone, or for an empty id.
   */
  function HashTarget(href: Option<string>): (id: Option<string>)
    ensures id.Some? <==> href.Some? && |href.value| >= 2
    ensures id.Some? ==> id.value == href.value[1..]
  {
    match href
    case None => None
    case Some(h) =>
      if h == "" || h == "#" then None
      else
        var id := h[1..];
        if id == "" then None else Some(id)
  }

  /** A link `#id` scrolls to `id`, and only a non-empty one. */
  lemma HashLinkRoundTrip(id: string)
    ensures HashTarget(Some("#" + id)) == if id == "" then None else Some(id)
  {
    assert ("#" + id)[1..] == id;
  }

  /** The controller's refs: the animation flag, the wheel total and the touch positions. */
  class Controller {
    var animating: bool
    /** Where the running (or last) animation heads. */
    var target: Option<int>
    var wheelAccum: int
    var touchStartY: Option<int>
    var touchLastY: Option<int>

    constructor ()
      ensures !animating && target == None && wheelAccum == 0
      ensures touchStartY == None && touchLastY == None
    {
      animating := false;
      target := None;
      wheelAccum := 0;
      touchStartY := None;
      touchLastY := None;
    }

    /** `animateTo`: ignored while an animation runs; otherwise one starts. */
    method AnimateTo(targetTop: int)
      modifies this
      ensures old(animating) ==> animating && target == old(target)
      ensures !old(animating) ==> animating && target == Some(targetTop)
      ensures wheelAccum == old(wheelAccum) && touchStartY == old(touchStartY) && touchLastY == old(touchLastY)
    {
      if animating {
        return;
      }
      animating := true;
      target := Some(targetTop);
    }

    /** The animation frame at which progress reaches 1 clears the flag. */
    method FinishAnimation()
      modifies this
      ensures !animating
      ensures target == old(target) && wheelAccum == old(wheelAccum)
      ensures touchStartY == old(touchStartY) && touchLastY == old(touchLastY)
    {
      animating := false;
    }

    /**
     * `scrollToIndex`: animate to the clamped section. Without sections the
     * source reads a field of `undefined` and throws; `thrown` reports that.
     */
    method ScrollToIndex(tops: seq<int>, idx: int) returns (thrown: bool)
      modifies this
      ensures thrown <==> |tops| == 0
      ensures !thrown && !old(animating) ==> animating && target == Some(tops[Clamp(idx, |tops|)])
      ensures thrown || old(animating) ==> animating == old(animating) && target == old(target)
      ensures wheelAccum == old(wheelAccum) && touchStartY == old(touchStartY) && touchLastY == old(touchLastY)
    {
      if |tops| == 0 {
        return true;
      }
      var clamped := Clamp(idx, |tops|);
      AnimateTo(tops[clamped]);
      return false;
    }

    /**
     * `scrollToId`: nothing when no element has the id; otherwise animate
     * to its top less the offset. `elementTop` is None for a missing element.
     */
    method ScrollToId(elementTop: Option<int>, offset: int)
      modifies this
      ensures elementTop.Some? && !old(animating) ==> animating && target == Some(elementTop.value - offset)
      ensures elementTop.None? || old(animating) ==> animating == old(animating) && target == old(target)
      ensures wheelAccum == old(wheelAccum) && touchStartY == old(touchStartY) && touchLastY == old(touchLastY)
    {
      if elementTop.None? {
        return;
      }
      AnimateTo(elementTop.value - offset);
    }

    /** `onWheel`: ignored while animating; otherwise the delta accumulates. */
    method OnWheel(deltaY: int) returns (handled: bool)
      modifies this
      ensures handled <==> !old(animating)
      ensures wheelAccum == if handled then old(wheelAccum) + deltaY else old(wheelAccum)
      ensures animating == old(animating) && target == old(target)
      ensures touchStartY == old(touchStartY) && touchLastY == old(touchLastY)
    {
      if animating {
        return false;
      }
      wheelAccum := wheelAccum + deltaY;
      return true;
    }

    /**
     * The wheel timer: the total is taken and reset; a large enough total
     * steps one section from the closest one. `from` is that section.
     */
    method OnWheelTimer(tops: seq<int>, y: int) returns (step: Option<int>, from: nat, thrown: bool)
      modifies this
      ensures wheelAccum == 0
      ensures step == StepFor(old(wheelAccum), WheelThreshold)
      ensures step.Some? && |tops| > 0 ==> IsClosest(tops, y, from)
      ensures thrown <==> step.Some? && |tops| == 0
      ensures step.Some? && |tops| > 0 && !old(animating) ==>
        animating && target == Some(tops[Clamp(from + step.value, |tops|)])
      ensures !(step.Some? && |tops| > 0 && !old(animating)) ==>
        animating == old(animating) && target == old(target)
      ensures touchStartY == old(touchStartY) && touchLastY == old(touchLastY)
    {
      var delta := wheelAccum;
      wheelAccum := 0;
      step := StepFor(delta, WheelThreshold);
      from := 0;
      thrown := false;
      if step.None? {
        return;
      }
      from := ClosestIndex(tops, y);
      thrown := ScrollToIndex(tops, from + step.value);
    }

    /** `onTouchStart`: ignored while animating or without a touch position. */
    method OnTouchStart(y: Option<int>)
      modifies this
      ensures !old(animating) && y.Some? ==> touchStartY == y && touchLastY == y
      ensures old(animating) || y.None? ==> touchStartY == old(touchStartY) && touchLastY == old(touchLastY)
      ensures animating == old(animating) && target == old(target) && wheelAccum == old(wheelAccum)
    {
      if animating || y.None? {
        return;
      }
      touchStartY := y;
      touchLastY := y;
    }

    /** `onTouchMove`: records the latest position, under the same guards. */
    method OnTouchMove(y: Option<int>)
      modifies this
      ensures !old(animating) && y.Some? ==> touchLastY == y
      ensures old(animating) || y.None? ==> touchLastY == old(touchLastY)
      ensures touchStartY == old(touchStartY)
      ensures animating == old(animating) && target == old(target) && wheelAccum == old(wheelAccum)
    {
      if animating || y.None? {
        return;
      }
      touchLastY := y;
    }

    /**
     * `onTouchEnd`: ignored while animating. Otherwise both positions are
     * cleared, and a long enough swipe (start minus last, positive upward)
     * steps one section from the closest one.
     */
    method OnTouchEnd(tops: seq<int>, y: int) returns (step: Option<int>, from: nat, thrown: bool)
      modifies this
      ensures old(animating) ==>
        step == None && !thrown && touchStartY == old(touchStartY) && touchLastY == old(touchLastY)
      ensures !old(animating) ==> touchStartY == None && touchLastY == None
      ensures !old(animating) && old(touchStartY).Some? && old(touchLastY).Some? ==>
        step == StepFor(old(touchStartY).value - old(touchLastY).value, SwipeThreshold)
      ensures old(touchStartY).None? || old(touchLastY).None? ==> step == None
      ensures step.Some? && |tops| > 0 ==> IsClosest(tops, y, from)
      ensures thrown <==> step.Some? && |tops| == 0
      ensures step.Some? && |tops| > 0 ==> animating && target == Some(tops[Clamp(from + step.value, |tops|)])
      ensures !(step.Some? && |tops| > 0) ==> animating == old(animating) && target == old(target)
      ensures wheelAccum == old(wheelAccum)
    {
      step := None;
      from := 0;
      thrown := false;
      if animating {
        return;
      }
      var startY := touchStartY;
      var lastY := touchLastY;
      touchStartY := None;
      touchLastY := None;
      if startY.None? || lastY.None? {
        return;
      }
      step := StepFor(startY.value - lastY.value, SwipeThreshold);
      if step.None? {
        return;
      }
      from := ClosestIndex(tops, y);
      thrown := ScrollToIndex(tops, from + step.value);
    }
  }
}
