/** The pan controller: a drag that starts with a mouse press while zoomed
    and moves the pan offset with the pointer as long as the pointer stays
    inside the current effective box. Pointer positions arrive already
    relative to the viewer area. */
module Panning {
  import opened Optional
  import opened Geometry
  import opened Viewer

  /** The controller's own memory: no drag, or a drag anchored at `start`
      (the pointer position that corresponds to a zero pan offset). */
  datatype Drag = Idle | Dragging(start: Point)

  datatype Event = MouseDown(pt: Point) | MouseMove(pt: Point) | MouseUp | MouseLeave

  /** Result of one event: new controller memory, new viewer state, and
      whether the pages are redrawn. */
  datatype Step = Step(drag: Drag, view: State, redraw: bool)

  function Sub(a: Point, b: Point): Point { Point(a.x - b.x, a.y - b.y) }

  /** Handle one pointer event, with `base` the base layout. Only the pan
      offset of the viewer state is ever changed. */
  function OnEvent(drag: Drag, s: State, base: Layout, ev: Event): (r: Step)
    ensures r.view.showNdx == s.showNdx && r.view.zoom == s.zoom
    ensures r.view.pan != s.pan ==> ev.MouseMove? && r.redraw
    ensures ev.MouseUp? || ev.MouseLeave? ==> r == Step(Idle, s, false)
    ensures ev.MouseDown? && s.zoom == 0.0 ==> r == Step(drag, s, false)
    ensures ev.MouseDown? && s.zoom != 0.0 ==>
      r.drag.Dragging? && !r.redraw && r.view == s &&
      (s.pan.None? ==> r.drag.start == ev.pt) &&
      (s.pan.Some? ==> r.drag.start == Sub(ev.pt, s.pan.value))
    ensures ev.MouseMove? ==>
      (r.redraw <==> drag.Dragging? && InBox(CalcLayout(base, s.zoom, s.pan), ev.pt))
    ensures ev.MouseMove? && r.redraw ==>
      r.drag == drag && r.view.pan == Some(Sub(ev.pt, drag.start))
    ensures ev.MouseMove? && !r.redraw ==> r == Step(Idle, s, false)
  {
    match ev
    case MouseLeave => Step(Idle, s, false)
    case MouseUp => Step(Idle, s, false)
    case MouseDown(pt) =>
      if s.zoom == 0.0 then Step(drag, s, false)
      else
        var start := if s.pan.Some? then Sub(pt, s.pan.value) else pt;
        Step(Dragging(start), s, false)
    case MouseMove(pt) =>
      if drag.Dragging? && InBox(CalcLayout(base, s.zoom, s.pan), pt) then
        Step(drag, s.(pan := Some(Sub(pt, drag.start))), true)
      else
        Step(Idle, s, false)
  }

  /** Run a sequence of events; `redraw` tells whether any of them redrew. */
  function Run(drag: Drag, s: State, base: Layout, evs: seq<Event>): (r: Step)
    ensures r.view.showNdx == s.showNdx && r.view.zoom == s.zoom
    decreases |evs|
  {
    if |evs| == 0 then Step(drag, s, false)
    else
      var r1 := OnEvent(drag, s, base, evs[0]);
      var rest := Run(r1.drag, r1.view, base, evs[1..]);
      rest.(redraw := r1.redraw || rest.redraw)
  }

  /** Two events in a row. */
  lemma RunTwo(drag: Drag, s: State, base: Layout, e1: Event, e2: Event)
    ensures var r1 := OnEvent(drag, s, base, e1);
      var r2 := OnEvent(r1.drag, r1.view, base, e2);
      Run(drag, s, base, [e1, e2]) == r2.(redraw := r1.redraw || r2.redraw)
  {
    var r1 := OnEvent(drag, s, base, e1);
    var r2 := OnEvent(r1.drag, r1.view, base, e2);
    assert [e1, e2][1..] == [e2];
    assert [e2][1..] == [];
    assert Run(r2.drag, r2.view, base, []) == Step(r2.drag, r2.view, false);
    assert Run(r1.drag, r1.view, base, [e2]) == r2;
  }

  /** Pressing and moving straight back to the same point inside the box
      leaves the effective layout where it was: the drag resumes from the
      current pan instead of jumping. */
  lemma PressThenMoveKeepsLayout(drag: Drag, s: State, base: Layout, pt: Point)
    requires s.zoom != 0.0
    requires InBox(CalcLayout(base, s.zoom, s.pan), pt)
    ensures var r := Run(drag, s, base, [MouseDown(pt), MouseMove(pt)]);
      r.view.pan.Some? &&
      CalcLayout(base, s.zoom, r.view.pan) == CalcLayout(base, s.zoom, s.pan)
  {
    var r1 := OnEvent(drag, s, base, MouseDown(pt));
    var r2 := OnEvent(r1.drag, r1.view, base, MouseMove(pt));
    RunTwo(drag, s, base, MouseDown(pt), MouseMove(pt));
    if s.pan.None? {
      assert r2.view.pan == Some(Point(0.0, 0.0));
      ZeroPanIsNoPan(base, s.zoom);
    }
  }

  /** A press at `a` followed by a move to `b` inside the box adds the
      pointer's displacement b - a to the pan offset. */
  lemma DragAddsDisplacement(drag: Drag, s: State, base: Layout, a: Point, b: Point)
    requires s.zoom != 0.0
    requires InBox(CalcLayout(base, s.zoom, s.pan), b)
    ensures var p := if s.pan.Some? then s.pan.value else Point(0.0, 0.0);
      Run(drag, s, base, [MouseDown(a), MouseMove(b)]).view.pan
        == Some(Point(p.x + (b.x - a.x), p.y + (b.y - a.y)))
  {
    var r1 := OnEvent(drag, s, base, MouseDown(a));
    var r2 := OnEvent(r1.drag, r1.view, base, MouseMove(b));
    RunTwo(drag, s, base, MouseDown(a), MouseMove(b));
  }

  /** While unzoomed and not already dragging, no sequence of pointer
      events changes the pan offset or starts a drag. */
  lemma {:induction false} UnzoomedPanFrozen(s: State, base: Layout, evs: seq<Event>)
    requires s.zoom == 0.0
    ensures Run(Idle, s, base, evs) == Step(Idle, s, false)
    decreases |evs|
  {
    if |evs| > 0 {
      var r1 := OnEvent(Idle, s, base, evs[0]);
      assert r1 == Step(Idle, s, false);
      UnzoomedPanFrozen(s, base, evs[1..]);
    }
  }

  /** A move that leaves the current box ends the drag: a later move back
      inside changes nothing until the mouse is pressed again. */
  lemma LeavingEndsDrag(drag: Drag, s: State, base: Layout, out: Point, back: Point)
    requires !InBox(CalcLayout(base, s.zoom, s.pan), out)
    ensures Run(drag, s, base, [MouseMove(out), MouseMove(back)]) == Step(Idle, s, false)
  {
    var r1 := OnEvent(drag, s, base, MouseMove(out));
    var r2 := OnEvent(r1.drag, r1.view, base, MouseMove(back));
    RunTwo(drag, s, base, MouseMove(out), MouseMove(back));
  }
}
