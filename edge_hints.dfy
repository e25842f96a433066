/** The edge-hint synchroniser: decides from the wrapper's scroll range and
    position whether the left and right arrows are hidden, and keeps the two
    arrows' `hidden` flags in step with that decision. */
module EdgeHints {

  /** Below or at this scroll range (px) the page counts as not scrollable. */
  const NoRangeCutoff: real := 1.0
  /** Distance (px) from either end within which that end's arrow is hidden. */
  const EdgeTolerance: real := 2.0

  /** How far the wrapper can scroll: its scroll width beyond its client
      width, never negative. */
  function ScrollRange(scrollWidth: real, clientWidth: real): (m: real)
    ensures m >= 0.0 && m >= scrollWidth - clientWidth
    ensures m == 0.0 || m == scrollWidth - clientWidth
  {
    if scrollWidth - clientWidth > 0.0 then scrollWidth - clientWidth else 0.0
  }

  datatype Hints = Hints(leftHidden: bool, rightHidden: bool)

  /** Which arrows are hidden for scroll range `max` at position `x`. */
  function Decide(max: real, x: real): (h: Hints)
    ensures max <= NoRangeCutoff ==> h.leftHidden && h.rightHidden
    ensures max > NoRangeCutoff ==> (h.leftHidden <==> x <= EdgeTolerance)
    ensures max > NoRangeCutoff ==> (h.rightHidden <==> x >= max - EdgeTolerance)
  {
    if max <= NoRangeCutoff then Hints(true, true)
    else Hints(x <= EdgeTolerance, x >= max - EdgeTolerance)
  }

  /** Both arrows are hidden exactly when the page is not scrollable or the
      range is so short that x is within the tolerance of both ends. */
  lemma BothHiddenIff(max: real, x: real)
    ensures Decide(max, x).leftHidden && Decide(max, x).rightHidden
        <==> max <= NoRangeCutoff || (x <= EdgeTolerance && x >= max - EdgeTolerance)
  {
  }

  /** When the range is wider than both tolerances together, at least one
      arrow is always shown, wherever the wrapper is scrolled to. */
  lemma WideRangeShowsAnArrow(max: real, x: real)
    requires max > 2.0 * EdgeTolerance
    ensures !Decide(max, x).leftHidden || !Decide(max, x).rightHidden
  {
  }

  /** At rest at either end of a scrollable range, the arrow for that end is
      hidden and, once the range exceeds the tolerance, the other is shown. */
  lemma AtTheEnds(max: real)
    requires max > EdgeTolerance
    ensures Decide(max, 0.0) == Hints(true, false)
    ensures Decide(max, max) == Hints(false, true)
  {
  }

  /** As the position grows each flag switches at most once: the left arrow
      goes from hidden to shown, the right arrow from shown to hidden. */
  lemma MonotoneInPosition(max: real, x: real, y: real)
    requires max > NoRangeCutoff && x <= y
    ensures Decide(max, y).leftHidden ==> Decide(max, x).leftHidden
    ensures Decide(max, x).rightHidden ==> Decide(max, y).rightHidden
  {
  }

  /** The 2-px tolerance at the left end: position 1 hides the left arrow,
      position 3 shows it. */
  lemma LeftToleranceExample(max: real)
    requires max > NoRangeCutoff
    ensures Decide(max, 1.0).leftHidden
    ensures !Decide(max, 3.0).leftHidden
  {
  }

  /** The two arrows' `hidden` classes. `hasLeft`/`hasRight` say whether
      the page has each arrow element at all; a missing arrow's flag is never
      written. */
  class EdgeHintFlags {
    const hasLeft: bool
    const hasRight: bool
    var leftHidden: bool
    var rightHidden: bool

    constructor (hasLeft: bool, hasRight: bool, leftHidden: bool, rightHidden: bool)
      ensures this.hasLeft == hasLeft && this.hasRight == hasRight
      ensures this.leftHidden == leftHidden && this.rightHidden == rightHidden
    {
      this.hasLeft, this.hasRight := hasLeft, hasRight;
      this.leftHidden, this.rightHidden := leftHidden, rightHidden;
    }

    /** Removes `hidden` from each arrow that exists. */
    method ShowArrows()
      modifies this
      ensures leftHidden == (if hasLeft then false else old(leftHidden))
      ensures rightHidden == (if hasRight then false else old(rightHidden))
    {
      if hasLeft { leftHidden := false; }
      if hasRight { rightHidden := false; }
    }

    /** Adds `hidden` to each arrow that exists. */
    method HideArrows()
      modifies this
      ensures leftHidden == (if hasLeft then true else old(leftHidden))
      ensures rightHidden == (if hasRight then true else old(rightHidden))
    {
      if hasLeft { leftHidden := true; }
      if hasRight { rightHidden := true; }
    }

    /** Re-synchronises both arrows with the wrapper's current metrics. A
        no-op unless both arrows exist; otherwise the flags become exactly
        `Decide`'s answer, which depends on the metrics alone, so a second
        call with the same metrics changes nothing. */
    method Update(scrollWidth: real, clientWidth: real, x: real)
      modifies this
      ensures !(hasLeft && hasRight) ==> leftHidden == old(leftHidden) && rightHidden == old(rightHidden)
      ensures hasLeft && hasRight ==>
        Hints(leftHidden, rightHidden) == Decide(ScrollRange(scrollWidth, clientWidth), x)
    {
      if !hasLeft || !hasRight {
        return;
      }
      var max := ScrollRange(scrollWidth, clientWidth);
      if max <= NoRangeCutoff {
        HideArrows();
        return;
      }
      ShowArrows();
      leftHidden := x <= EdgeTolerance;
      rightHidden := x >= max - EdgeTolerance;
    }
  }

  /** A client: re-synchronising twice with unchanged metrics leaves the
      flags as the first call set them. */
  method UpdateTwice(flags: EdgeHintFlags, scrollWidth: real, clientWidth: real, x: real)
    modifies flags
    ensures flags.hasLeft && flags.hasRight ==>
      Hints(flags.leftHidden, flags.rightHidden) == Decide(ScrollRange(scrollWidth, clientWidth), x)
    ensures !(flags.hasLeft && flags.hasRight) ==>
      flags.leftHidden == old(flags.leftHidden) && flags.rightHidden == old(flags.rightHidden)
  {
    flags.Update(scrollWidth, clientWidth, x);
    var l, r := flags.leftHidden, flags.rightHidden;
    flags.Update(scrollWidth, clientWidth, x);
    assert flags.leftHidden == l && flags.rightHidden == r;
  }
}
