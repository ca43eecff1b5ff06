/** The layout engine: the base two-page rectangle computed once from the
    canvas and a reference page, the effective rectangle derived from it by
    zoom and pan, and the hit test against that rectangle. */
module Geometry {
  import opened Optional

  datatype Point = Point(x: real, y: real)

  /** Size of the drawing surface. */
  datatype Box = Box(width: real, height: real)

  /** A page record as the page provider hands it over: pixel size and an
      opaque image handle. */
  datatype Page = Page(width: real, height: real, img: nat)

  /** A page-pair rectangle; `mid` is the x coordinate where the pair splits. */
  datatype Layout = Layout(top: real, left: real, mid: real, width: real, height: real)

  /** Edges of a layout rectangle. */
  datatype Bounds = Bounds(top: real, left: real, bottom: real, right: real)

  /** The canvas is created 800 by 800 pixels. */
  const CanvasBox: Box := Box(800.0, 800.0)

  /** The pair may use at most this share of the surface on each axis. */
  const Fill: real := 0.8

  function CentreX(l: Layout): real { l.left + l.width / 2.0 }
  function CentreY(l: Layout): real { l.top + l.height / 2.0 }

  /** The pair is split exactly at its horizontal centre. */
  predicate SplitAtCentre(l: Layout) { l.mid == CentreX(l) }

  /** Two pages of the reference page's proportions side by side, as large
      as fits in 80% of the surface, centred. */
  function CalcInitialLayout(box: Box, pg: Page): (l: Layout)
    requires pg.width > 0.0 && pg.height > 0.0
    ensures l.width <= Fill * box.width && l.height <= Fill * box.height
    ensures l.width == Fill * box.width || l.height == Fill * box.height
    ensures CentreX(l) == box.width / 2.0 && CentreY(l) == box.height / 2.0
    ensures l.mid == box.width / 2.0
    ensures SplitAtCentre(l)
    ensures l.width * pg.height == 2.0 * pg.width * l.height
  {
    var h0 := box.height * Fill;
    var w0 := (pg.width * 2.0) * (h0 / pg.height);
    var maxWidth := box.width * Fill;
    if w0 > maxWidth then
      var h := pg.height * (maxWidth / (pg.width * 2.0));
      HeightShrinks(pg, h0, w0, maxWidth);
      Layout((box.height - h) / 2.0, (box.width - maxWidth) / 2.0, box.width / 2.0, maxWidth, h)
    else
      Layout((box.height - h0) / 2.0, (box.width - w0) / 2.0, box.width / 2.0, w0, h0)
  }

  /** When the width is capped, the recomputed height stays under the cap. */
  lemma HeightShrinks(pg: Page, h0: real, w0: real, maxWidth: real)
    requires pg.width > 0.0 && pg.height > 0.0
    requires w0 == (pg.width * 2.0) * (h0 / pg.height)
    requires w0 > maxWidth
    ensures pg.height * (maxWidth / (pg.width * 2.0)) < h0
  {
  }

  /** On a surface of positive size the pair has positive size and the
      proportions of two reference pages. */
  lemma InitialLayoutProportions(box: Box, pg: Page)
    requires pg.width > 0.0 && pg.height > 0.0
    requires box.width > 0.0 && box.height > 0.0
    ensures var l := CalcInitialLayout(box, pg);
      l.width > 0.0 && l.height > 0.0 && l.width / l.height == 2.0 * pg.width / pg.height
  {
  }

  /** Shift a layout, its split line included, by an offset. */
  function Translate(l: Layout, d: Point): Layout {
    l.(left := l.left + d.x, top := l.top + d.y, mid := l.mid + d.x)
  }

  /** The effective layout: the base layout magnified by 1 + zoom/2 when the
      zoom is positive, then shifted by the pan offset if there is one. Zoom
      moves neither the box's centre nor the split line; a non-positive zoom
      ignores the pan altogether. */
  function CalcLayout(base: Layout, zoom: real, pan: Option<Point>): (l: Layout)
    ensures zoom <= 0.0 ==> l == base
    ensures zoom > 0.0 ==>
      var d := if pan.Some? then pan.value else Point(0.0, 0.0);
      && l.width == base.width * (1.0 + zoom / 2.0)
      && l.height == base.height * (1.0 + zoom / 2.0)
      && CentreX(l) == CentreX(base) + d.x
      && CentreY(l) == CentreY(base) + d.y
      && l.mid == base.mid + d.x
    ensures SplitAtCentre(base) ==> SplitAtCentre(l)
  {
    if zoom > 0.0 then
      var f := zoom * 0.5;
      var z := base.(left := base.left - base.width * f / 2.0,
                     top := base.top - base.height * f / 2.0,
                     width := base.width * (1.0 + f),
                     height := base.height * (1.0 + f));
      if pan.Some? then Translate(z, pan.value) else z
    else
      base
  }

  /** With a positive zoom, a pan offset is a pure translation of the
      unpanned effective layout. */
  lemma PanIsTranslation(base: Layout, zoom: real, d: Point)
    requires zoom > 0.0
    ensures CalcLayout(base, zoom, Some(d)) == Translate(CalcLayout(base, zoom, None), d)
  {
  }

  /** A zero pan offset and no pan offset give the same layout. */
  lemma ZeroPanIsNoPan(base: Layout, zoom: real)
    ensures CalcLayout(base, zoom, Some(Point(0.0, 0.0))) == CalcLayout(base, zoom, None)
  {
  }

  function CurrBox(l: Layout): (b: Bounds)
    ensures b.right - b.left == l.width && b.bottom - b.top == l.height
    ensures b.left == l.left && b.top == l.top
  {
    Bounds(l.top, l.left, l.top + l.height, l.left + l.width)
  }

  /** Hit test against the rectangle, inclusive on all four edges. */
  predicate InBox(l: Layout, pt: Point) {
    var rt := CurrBox(l);
    rt.top <= pt.y && rt.bottom >= pt.y && rt.left <= pt.x && rt.right >= pt.x
  }

  /** Every point of the closed rectangle, its edges and four corners
      included, is inside it, and a point strictly beyond any edge is outside. */
  lemma InBoxEdges(l: Layout, pt: Point)
    requires l.width >= 0.0 && l.height >= 0.0
    ensures InBox(l, Point(l.left, l.top)) && InBox(l, Point(l.left + l.width, l.top))
    ensures InBox(l, Point(l.left, l.top + l.height))
    ensures InBox(l, Point(l.left + l.width, l.top + l.height))
    ensures l.left <= pt.x <= l.left + l.width && l.top <= pt.y <= l.top + l.height ==> InBox(l, pt)
    ensures pt.x < l.left || pt.x > l.left + l.width || pt.y < l.top || pt.y > l.top + l.height
      ==> !InBox(l, pt)
  {
  }

  /** Shifting the rectangle by d is the same as shifting the point by -d. */
  lemma InBoxTranslate(l: Layout, d: Point, pt: Point)
    ensures InBox(Translate(l, d), pt) <==> InBox(l, Point(pt.x - d.x, pt.y - d.y))
  {
  }

  /** Zooming in without panning never loses a point of the base box. */
  lemma ZoomContainsBase(base: Layout, zoom: real, pt: Point)
    requires base.width >= 0.0 && base.height >= 0.0
    requires zoom > 0.0
    requires InBox(base, pt)
    ensures InBox(CalcLayout(base, zoom, None), pt)
  {
  }
}
