/** The geometry resolver: turns a section name into the horizontal scroll
    offset that centres that section's label in the viewport. */
module Sections {
  import opened Wrappers

  /** The fixed table from section name to the position of its label in the
      page's list of labels (labels are in left-to-right order). */
  const SectionIndex: map<string, nat> :=
    map["writing" := 0, "code" := 1, "home" := 2, "music" := 3, "contact" := 4]

  /** The anchor of a section: the `left` percentage of its label, or None
      when the name is not in the table or the page has no label at that
      position. `labels[i]` is the already-parsed left percentage of label i. */
  function AnchorPercent(name: string, labels: seq<real>): (p: Option<real>)
    ensures p.Some? <==> name in SectionIndex && SectionIndex[name] < |labels|
    ensures p.Some? ==> p.value == labels[SectionIndex[name]]
  {
    if name in SectionIndex && SectionIndex[name] < |labels| then
      Some(labels[SectionIndex[name]])
    else
      None
  }

  /** The scroll offset that puts a point at `leftPercent` of the canvas
      exactly in the middle of a viewport `innerWidth` wide. */
  function CenterTarget(leftPercent: real, totalWidth: real, innerWidth: real): (t: real)
    ensures t + innerWidth / 2.0 == leftPercent / 100.0 * totalWidth
  {
    leftPercent / 100.0 * totalWidth - innerWidth / 2.0
  }

  /** The offset to scroll to for section `name`: the centring target,
      clamped below at 0 (there is no upper clamp); 0 for an unknown name or a
      missing label. */
  function SectionOffset(name: string, labels: seq<real>, totalWidth: real, innerWidth: real): (x: real)
    ensures x >= 0.0
    ensures AnchorPercent(name, labels).None? ==> x == 0.0
    ensures AnchorPercent(name, labels).Some? ==>
      var t := CenterTarget(AnchorPercent(name, labels).value, totalWidth, innerWidth);
      x >= t && (x == 0.0 || x == t)
  {
    match AnchorPercent(name, labels)
    case None => 0.0
    case Some(p) =>
      var t := CenterTarget(p, totalWidth, innerWidth);
      if t > 0.0 then t else 0.0
  }

  /** Whenever the offset is positive, the section's anchor lands exactly at
      the centre of the viewport. */
  lemma PositiveOffsetCentres(name: string, labels: seq<real>, totalWidth: real, innerWidth: real)
    requires SectionOffset(name, labels, totalWidth, innerWidth) > 0.0
    ensures AnchorPercent(name, labels).Some?
    ensures SectionOffset(name, labels, totalWidth, innerWidth) + innerWidth / 2.0
            == AnchorPercent(name, labels).value / 100.0 * totalWidth
  {
  }

  /** A section whose anchor lies within the left half-viewport of the canvas
      start gives offset 0. */
  lemma NearStartGivesZero(name: string, labels: seq<real>, totalWidth: real, innerWidth: real)
    requires AnchorPercent(name, labels).Some?
    requires AnchorPercent(name, labels).value / 100.0 * totalWidth <= innerWidth / 2.0
    ensures SectionOffset(name, labels, totalWidth, innerWidth) == 0.0
  {
  }

  /** Sections further right never scroll less far: the offset is monotone in
      the anchor percentage (for a canvas of non-negative width). */
  lemma OffsetMonotone(a: string, b: string, labels: seq<real>, totalWidth: real, innerWidth: real)
    requires totalWidth >= 0.0
    requires AnchorPercent(a, labels).Some? && AnchorPercent(b, labels).Some?
    requires AnchorPercent(a, labels).value <= AnchorPercent(b, labels).value
    ensures SectionOffset(a, labels, totalWidth, innerWidth) <= SectionOffset(b, labels, totalWidth, innerWidth)
  {
    var pa, pb := AnchorPercent(a, labels).value, AnchorPercent(b, labels).value;
    ScaleMonotone(pa / 100.0, pb / 100.0, totalWidth);
    var ta, tb := CenterTarget(pa, totalWidth, innerWidth), CenterTarget(pb, totalWidth, innerWidth);
    assert ta <= tb;
  }

  lemma ScaleMonotone(u: real, v: real, w: real)
    requires u <= v && w >= 0.0
    ensures u * w <= v * w
  {
    var d := v - u;
    assert d * w >= 0.0;
    assert v * w == u * w + d * w;
  }

  /** For anchors in [0, 100] the offset never exceeds the canvas width minus
      half a viewport (the only upper bound the computation itself gives). */
  lemma OffsetUpperBound(name: string, labels: seq<real>, totalWidth: real, innerWidth: real)
    requires totalWidth >= 0.0
    requires AnchorPercent(name, labels).Some?
    requires 0.0 <= AnchorPercent(name, labels).value <= 100.0
    ensures SectionOffset(name, labels, totalWidth, innerWidth) <= 0.0
         || SectionOffset(name, labels, totalWidth, innerWidth) <= totalWidth - innerWidth / 2.0
  {
    var p := AnchorPercent(name, labels).value;
    ScaleMonotone(p / 100.0, 1.0, totalWidth);
  }

  /** Example label anchors (left percentages, in label order); the page's
      real anchors are inline styles of its markup. */
  const PageAnchors: seq<real> := [10.0, 30.0, 50.0, 70.0, 90.0]

  /** Centring "home" (anchor 50) on a 2000-px canvas in a 400-px viewport
      scrolls to 1000 - 200 = 800. */
  lemma HomeExample()
    ensures SectionOffset("home", PageAnchors, 2000.0, 400.0) == 800.0
  {
  }

  /** The offset is not clamped to the scroll range: with a canvas exactly as
      wide as the viewport (scroll range 0), "contact" still resolves to 400. */
  lemma NoUpperClamp()
    ensures SectionOffset("contact", PageAnchors, 1000.0, 1000.0) == 400.0
    ensures SectionOffset("contact", PageAnchors, 1000.0, 1000.0) > 1000.0 - 1000.0
  {
  }

  /** Every name outside the table resolves to 0, whatever the metrics. */
  lemma UnknownNameGivesZero(name: string, labels: seq<real>, totalWidth: real, innerWidth: real)
    requires name !in SectionIndex
    ensures SectionOffset(name, labels, totalWidth, innerWidth) == 0.0
  {
  }
}
