/** The responsive width calculator: a button declares `data-wvw`, the width
    it should have in viewport-width units on the author's screen, and is
    given that width as a percentage of the background image's width. */
module ButtonWidths {
  import opened Wrappers

  /** JavaScript's `a || b` on numbers: `a` unless it is 0. */
  function OrElse(a: real, b: real): (r: real)
    ensures r == 0.0 <==> a == 0.0 && b == 0.0
    ensures a != 0.0 ==> r == a
    ensures a == 0.0 ==> r == b
  {
    if a != 0.0 then a else b
  }

  /** The percentage of a `bgW`-wide background that is as wide as `vw`
      viewport-width units of a `vpW`-wide viewport. */
  function WidthPercent(vw: real, vpW: real, bgW: real): (pct: real)
    requires bgW != 0.0
    ensures pct / 100.0 * bgW == vw / 100.0 * vpW
  {
    var px := vw / 100.0 * vpW;
    px / bgW * 100.0
  }

  /** A background as wide as the viewport leaves the vw value unchanged. */
  lemma SameWidthKeepsValue(vw: real, w: real)
    requires w != 0.0
    ensures WidthPercent(vw, w, w) == vw
  {
    assert WidthPercent(vw, w, w) / 100.0 * w == vw / 100.0 * w;
  }

  /** A button with `data-wvw` (0 when the attribute is absent) and its
      inline `style.width` in percent (None while unset). */
  datatype WvwButton = WvwButton(wvw: real, width: Option<real>)

  /** One button after a pass with background width `bgW` and viewport
      width `vpW`. */
  function Resized(b: WvwButton, bgW: real, vpW: real): (r: WvwButton)
    ensures r.wvw == b.wvw
    ensures bgW == 0.0 || vpW == 0.0 || b.wvw == 0.0 ==> r == b
    ensures bgW != 0.0 && vpW != 0.0 && b.wvw != 0.0 ==>
      r.width.Some? && r.width.value / 100.0 * bgW == b.wvw / 100.0 * vpW
  {
    if bgW == 0.0 || vpW == 0.0 || b.wvw == 0.0 then b
    else b.(width := Some(WidthPercent(b.wvw, vpW, bgW)))
  }

  /** The buttons after a whole pass: each one resized on its own. */
  function ResizedAll(bs: seq<WvwButton>, bgW: real, vpW: real): (rs: seq<WvwButton>)
    ensures |rs| == |bs|
    ensures forall i :: 0 <= i < |bs| ==> rs[i] == Resized(bs[i], bgW, vpW)
  {
    seq(|bs|, i requires 0 <= i < |bs| => Resized(bs[i], bgW, vpW))
  }

  /** While the background or the viewport measures 0 no button changes. */
  lemma UnmeasuredSkipsPass(bs: seq<WvwButton>, bgW: real, vpW: real)
    requires bgW == 0.0 || vpW == 0.0
    ensures ResizedAll(bs, bgW, vpW) == bs
  {
  }

  /** A button with `data-wvw` 0 keeps its width; every other button is still
      sized, independently of it. */
  lemma ZeroWvwKept(bs: seq<WvwButton>, bgW: real, vpW: real, i: nat, j: nat)
    requires i < |bs| && j < |bs| && i != j
    requires bs[i].wvw == 0.0 && bs[j].wvw != 0.0
    requires bgW != 0.0 && vpW != 0.0
    ensures ResizedAll(bs, bgW, vpW)[i] == bs[i]
    ensures ResizedAll(bs, bgW, vpW)[j].width == Some(WidthPercent(bs[j].wvw, vpW, bgW))
  {
  }

  /** A second pass with the same metrics changes nothing more. */
  lemma PassIsIdempotent(bs: seq<WvwButton>, bgW: real, vpW: real)
    ensures ResizedAll(ResizedAll(bs, bgW, vpW), bgW, vpW) == ResizedAll(bs, bgW, vpW)
  {
  }

  /** The background width used: the image's rendered width, or the scroll
      area's scroll width while the image renders 0 wide. */
  function BackgroundWidth(renderedWidth: real, scrollWidth: real): (w: real)
    ensures renderedWidth != 0.0 ==> w == renderedWidth
    ensures renderedWidth == 0.0 ==> w == scrollWidth
  {
    OrElse(renderedWidth, scrollWidth)
  }

  /** The viewport width used: `innerWidth`, or the document's client width
      when that is 0. */
  function ViewportWidth(innerWidth: real, clientWidth: real): (w: real)
    ensures innerWidth != 0.0 ==> w == innerWidth
    ensures innerWidth == 0.0 ==> w == clientWidth
  {
    OrElse(innerWidth, clientWidth)
  }

  /** Sizes every `data-wvw` button in place. `bgRenderedWidth` is None when
      the page has no background image, in which case nothing happens. */
  method ApplyButtonWidths(bgRenderedWidth: Option<real>, scrollWidth: real,
                           innerWidth: real, clientWidth: real, buttons: array<WvwButton>)
    modifies buttons
    ensures bgRenderedWidth.None? ==> buttons[..] == old(buttons[..])
    ensures bgRenderedWidth.Some? ==>
      buttons[..] == ResizedAll(old(buttons[..]),
                                BackgroundWidth(bgRenderedWidth.value, scrollWidth),
                                ViewportWidth(innerWidth, clientWidth))
  {
    if bgRenderedWidth.None? {
      return;
    }
    var bgW := BackgroundWidth(bgRenderedWidth.value, scrollWidth);
    var vpW := ViewportWidth(innerWidth, clientWidth);
    if bgW == 0.0 || vpW == 0.0 {
      UnmeasuredSkipsPass(buttons[..], bgW, vpW);
      return;
    }
    for i := 0 to buttons.Length
      invariant forall k :: 0 <= k < i ==> buttons[k] == Resized(old(buttons[k]), bgW, vpW)
      invariant forall k :: i <= k < buttons.Length ==> buttons[k] == old(buttons[k])
    {
      var vw := buttons[i].wvw;
      if vw == 0.0 {
        continue;
      }
      var px := vw / 100.0 * vpW;
      var pct := px / bgW * 100.0;
      assert pct == WidthPercent(vw, vpW, bgW);
      buttons[i] := buttons[i].(width := Some(pct));
    }
  }
}
