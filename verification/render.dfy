/** The page-pair renderer, as the list of drawing commands one redraw
    issues: the background, the frame when unzoomed, and the page images
    split left and right at the layout's split line. */
module Render {
  import opened Optional
  import opened Geometry
  import opened Viewer

  datatype Rect = Rect(x: real, y: real, w: real, h: real)

  datatype Cmd =
    | FillRect(color: string, r: Rect)
    | DrawImage(img: nat, r: Rect)

  const BackgroundColor: string := "#aaa"
  const FrameColor: string := "#666"
  /** Width of the frame drawn around the unzoomed pair. */
  const Border: real := 4.0

  /** What the page provider answered for one index. */
  datatype Fetch = Got(page: Option<Page>) | Failed

  /** Provider indices of the pages in the shown pair. */
  function PairIndices(showNdx: nat): (p: (nat, nat))
    ensures p.1 == p.0 + 1
    ensures p.0 / 2 == showNdx && p.0 % 2 == 0
  {
    var left := showNdx * 2;
    (left, left + 1)
  }

  function ToRect(l: Layout): Rect { Rect(l.left, l.top, l.width, l.height) }

  /** The left and right page rectangles: halves of the layout, the right
      one starting at the split line. */
  function PageRects(l: Layout): (p: (Layout, Layout))
    ensures p.0.top == l.top && p.1.top == l.top
    ensures p.0.height == l.height && p.1.height == l.height
    ensures p.0.left == l.left && p.1.left == l.mid
    ensures p.0.width + p.1.width == l.width && p.0.width == p.1.width
  {
    var pageL := l.(width := l.width / 2.0);
    var pageR := l.(width := l.width / 2.0, left := l.mid);
    (pageL, pageR)
  }

  /** When the split line is the centre, the two pages meet exactly on it
      and together cover the layout from its left edge to its right edge. */
  lemma PagesTile(l: Layout)
    requires SplitAtCentre(l)
    ensures var p := PageRects(l);
      p.0.left + p.0.width == p.1.left && p.1.left + p.1.width == l.left + l.width
  {
  }

  /** The frame drawn behind an unzoomed pair: the layout grown by the
      border width on every side. */
  function FrameRect(l: Layout): (r: Rect)
    ensures r.x + Border == l.left && r.y + Border == l.top
    ensures r.x + r.w == l.left + l.width + Border
    ensures r.y + r.h == l.top + l.height + Border
  {
    Rect(l.left - Border, l.top - Border, l.width + Border * 2.0, l.height + 2.0 * Border)
  }

  function ImageCmds(pg: Option<Page>, at: Layout): seq<Cmd> {
    if pg.Some? then [DrawImage(pg.value.img, ToRect(at))] else []
  }

  function Images(cmds: seq<Cmd>): (n: nat)
    ensures n <= |cmds|
  {
    if |cmds| == 0 then 0
    else (if cmds[0].DrawImage? then 1 else 0) + Images(cmds[1..])
  }

  /** The pages of one redraw, drawn into the effective layout: the frame
      when zoom is 0, then each present page image into its half. */
  function ShowPgs(l: Layout, zoom: real, left: Option<Page>, right: Option<Page>): (cmds: seq<Cmd>)
    ensures Images(cmds) == (if left.Some? then 1 else 0) + (if right.Some? then 1 else 0)
    ensures zoom == 0.0 <==> |cmds| > 0 && cmds[0] == FillRect(FrameColor, FrameRect(l))
    ensures forall i :: 0 < i < |cmds| ==> cmds[i].DrawImage?
    ensures |cmds| == Images(cmds) + (if zoom == 0.0 then 1 else 0)
    ensures left.Some? && right.Some? ==>
      && cmds[|cmds| - 2] == DrawImage(left.value.img, ToRect(PageRects(l).0))
      && cmds[|cmds| - 1] == DrawImage(right.value.img, ToRect(PageRects(l).1))
    ensures left.Some? ==> DrawImage(left.value.img, ToRect(PageRects(l).0)) in cmds
    ensures right.Some? ==> DrawImage(right.value.img, ToRect(PageRects(l).1)) in cmds
  {
    var frame := if zoom == 0.0 then [FillRect(FrameColor, FrameRect(l))] else [];
    var p := PageRects(l);
    var imgs := ImageCmds(left, p.0) + ImageCmds(right, p.1);
    ImagesOnly(imgs);
    ImagesAppend(frame, imgs);
    frame + imgs
  }

  lemma ImagesOnly(cmds: seq<Cmd>)
    requires forall i :: 0 <= i < |cmds| ==> cmds[i].DrawImage?
    ensures Images(cmds) == |cmds|
  {
  }

  lemma {:induction false} ImagesAppend(a: seq<Cmd>, b: seq<Cmd>)
    ensures Images(a + b) == Images(a) + Images(b)
    decreases |a|
  {
    if |a| == 0 {
      assert a + b == b;
    } else {
      assert (a + b)[1..] == a[1..] + b;
      ImagesAppend(a[1..], b);
    }
  }

  /** One redraw for viewer state `s`, with `get` the page provider: the
      background fill, then the pair's left page is asked for at index
      2·showNdx and, once it arrived, the right page at the next index; if
      both arrived, the pages are drawn in the effective layout. A failed
      fetch leaves only the background. */
  function ShowPages(s: State, base: Layout, box: Box, get: nat -> Fetch): (cmds: seq<Cmd>)
    ensures |cmds| > 0 && cmds[0] == FillRect(BackgroundColor, Rect(0.0, 0.0, box.width, box.height))
    ensures get(2 * s.showNdx).Failed? || get(2 * s.showNdx + 1).Failed? ==> |cmds| == 1
    ensures get(2 * s.showNdx).Got? && get(2 * s.showNdx + 1).Got? ==>
      cmds[1..] == ShowPgs(CalcLayout(base, s.zoom, s.pan), s.zoom,
                           get(2 * s.showNdx).page, get(2 * s.showNdx + 1).page)
  {
    var bg := [FillRect(BackgroundColor, Rect(0.0, 0.0, box.width, box.height))];
    var ndx := PairIndices(s.showNdx);
    match get(ndx.0)
    case Failed => bg
    case Got(l) =>
      match get(ndx.1)
      case Failed => bg
      case Got(r) => bg + ShowPgs(CalcLayout(base, s.zoom, s.pan), s.zoom, l, r)
  }

  /** A pair whose left page is absent and right page present draws exactly
      one image, into the right half. */
  lemma OnlyRightPage(l: Layout, zoom: real, right: Page)
    ensures var cmds := ShowPgs(l, zoom, None, Some(right));
      Images(cmds) == 1 && cmds[|cmds| - 1] == DrawImage(right.img, ToRect(PageRects(l).1))
  {
  }

  /** Every redraw of a pair laid out from the canvas and a reference page
      has its two pages meeting at the split line, at any zoom and pan. */
  lemma RedrawnPagesTile(ref: Page, zoom: real, pan: Option<Point>)
    requires ref.width > 0.0 && ref.height > 0.0
    ensures var p := PageRects(CalcLayout(CalcInitialLayout(CanvasBox, ref), zoom, pan));
      p.0.left + p.0.width == p.1.left
  {
  }
}
