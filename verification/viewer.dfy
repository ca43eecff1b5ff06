/** The viewer controller: which page pair is shown, the zoom level and the
    pan offset, the next/previous guards and the button states they drive,
    and the zoom button that steps the zoom up through an animation and
    wraps back to 0. */
module Viewer {
  import opened Optional
  import opened Geometry
  import opened Animation

  datatype State = State(showNdx: nat, zoom: real, pan: Option<Point>)

  /** After set-up the first pair is shown unzoomed and unpanned. */
  const Initial: State := State(0, 0.0, None)

  const ZoomDuration: real := 500.0
  const MaxZoom: real := 4.0

  /** The page-pair index can only have been reached from 0 by steps the
      guards allowed: the pair's first provider index is at most the page
      count. */
  predicate ValidIndex(showNdx: nat, numPages: int) {
    showNdx == 0 || showNdx * 2 <= numPages
  }

  datatype Style = Enabled | Disabled
  datatype Buttons = Buttons(prev: Style, next: Style)

  /** Style of the previous and next buttons for the shown pair. */
  function EnableDisable(showNdx: nat, numPages: int): (b: Buttons)
    ensures b.prev == Disabled <==> showNdx == 0 || numPages <= 1
    ensures b.next == Disabled <==> showNdx * 2 + 1 >= numPages
  {
    Buttons(if showNdx == 0 || numPages <= 1 then Disabled else Enabled,
            if showNdx * 2 + 1 >= numPages then Disabled else Enabled)
  }

  /** The next button: move one pair on unless the current pair already
      reaches the last page. Only the index changes. */
  function Next(s: State, numPages: int): (s': State)
    ensures s'.zoom == s.zoom && s'.pan == s.pan
    ensures s'.showNdx == s.showNdx || s'.showNdx == s.showNdx + 1
    ensures ValidIndex(s.showNdx, numPages) ==> ValidIndex(s'.showNdx, numPages)
  {
    if s.showNdx * 2 + 1 >= numPages then s else s.(showNdx := s.showNdx + 1)
  }

  /** The previous button: move one pair back unless at the first pair or
      the document has at most one page. Only the index changes, and it
      never goes below 0. */
  function Prev(s: State, numPages: int): (s': State)
    ensures s'.zoom == s.zoom && s'.pan == s.pan
    ensures s'.showNdx == s.showNdx || s'.showNdx + 1 == s.showNdx
    ensures ValidIndex(s.showNdx, numPages) ==> ValidIndex(s'.showNdx, numPages)
  {
    if s.showNdx == 0 || numPages <= 1 then s else s.(showNdx := s.showNdx - 1)
  }

  /** Each button is disabled exactly when pressing it would change nothing. */
  lemma ButtonsMatchGuards(s: State, numPages: int)
    ensures EnableDisable(s.showNdx, numPages).next == Disabled <==> Next(s, numPages) == s
    ensures EnableDisable(s.showNdx, numPages).prev == Disabled <==> Prev(s, numPages) == s
  {
  }

  /** A step forward is undone by a step back. */
  lemma PrevUndoesNext(s: State, numPages: int)
    requires Next(s, numPages) != s
    ensures Prev(Next(s, numPages), numPages) == s
  {
  }

  /** From a reachable index, a step back is undone by a step forward. */
  lemma NextUndoesPrev(s: State, numPages: int)
    requires ValidIndex(s.showNdx, numPages)
    requires Prev(s, numPages) != s
    ensures Next(Prev(s, numPages), numPages) == s
  {
  }

  /** With five pages, two presses of next reach pair 2, a third press
      does nothing and the next button is then disabled. */
  lemma FivePagesExample()
    ensures Next(Initial, 5).showNdx == 1
    ensures Next(Next(Initial, 5), 5).showNdx == 2
    ensures Next(Next(Next(Initial, 5), 5), 5) == Next(Next(Initial, 5), 5)
    ensures EnableDisable(Next(Next(Initial, 5), 5).showNdx, 5) == Buttons(Enabled, Disabled)
  {
  }

  /** What a click on the zoom button does: reset at once, or start a run. */
  datatype ZoomClick = Reset(state: State) | Animate(run: Anim)

  /** The zoom button, pressed at time `now`: one step more zoom, animated
      over 500 with smoothstep easing, unless that would pass 4, in which
      case zoom goes back to 0 and the pan is dropped without animation. */
  function OnZoomClick(s: State, now: real): (c: ZoomClick)
    ensures c.Reset? <==> s.zoom + 1.0 > MaxZoom
    ensures c.Reset? ==> c.state == State(s.showNdx, 0.0, None)
    ensures c.Animate? ==>
      && c.run.start == now && c.run.duration == ZoomDuration
      && c.run.from == map["zoom" := s.zoom]
      && c.run.to == map["zoom" := s.zoom + 1.0]
      && (forall t :: c.run.timing(t) == Smoothstep(t))
  {
    var zoom := s.zoom + 1.0;
    if zoom > MaxZoom then
      Reset(s.(zoom := 0.0, pan := None))
    else
      Animate(Anim(now, ZoomDuration, map["zoom" := s.zoom], map["zoom" := zoom], Smoothstep))
  }

  /** A run that animates the zoom level. */
  predicate ZoomRun(a: Anim) {
    a.duration > 0.0 && "zoom" in a.from && "zoom" in a.to
  }

  /** The run's draw callback: the state at tick time gets the run's
      current zoom value; index and pan are left alone. With an easing that
      stays in [0, 1] the value written lies between the run's ends. */
  function ZoomFrame(s: State, a: Anim, now: real): (s': State)
    requires ZoomRun(a)
    ensures s'.showNdx == s.showNdx && s'.pan == s.pan
    ensures EasesInUnit(a.timing) && now >= a.start ==> Between(s'.zoom, a.from["zoom"], a.to["zoom"])
  {
    var z := Tick(a, now).values["zoom"].v;
    assert EasesInUnit(a.timing) && now >= a.start ==> Between(z, a.from["zoom"], a.to["zoom"]) by {
      if EasesInUnit(a.timing) && now >= a.start {
        TickBetween(a, now, "zoom");
      }
    }
    s.(zoom := z)
  }

  predicate ZoomInRange(z: real) { 0.0 <= z <= MaxZoom }

  /** Starting from a zoom level in [0, 4], a click either resets to 0 or
      starts a run whose every frame, on whatever state it lands, writes a
      zoom level in [0, 4]. */
  lemma ZoomStaysInRange(s: State, now: real, later: State, t: real)
    requires ZoomInRange(s.zoom)
    requires t >= now
    ensures OnZoomClick(s, now).Reset? ==> ZoomInRange(OnZoomClick(s, now).state.zoom)
    ensures OnZoomClick(s, now).Animate? ==>
      ZoomRun(OnZoomClick(s, now).run) &&
      ZoomInRange(ZoomFrame(later, OnZoomClick(s, now).run, t).zoom)
  {
  }

  /** The zoom level a click settles on once its run has completed (or at
      once, for a reset). */
  function SettledZoom(s: State, now: real): (z: real)
  {
    match OnZoomClick(s, now)
    case Reset(s') => s'.zoom
    case Animate(a) => ZoomFrame(s, a, now + a.duration).zoom
  }

  /** From a whole zoom level, each completed click steps through the cycle
      0, 1, 2, 3, 4, 0. */
  lemma ZoomCycles(s: State, now: real, k: nat)
    requires k <= 4 && s.zoom == k as real
    ensures SettledZoom(s, now) == ((k + 1) % 5) as real
  {
  }
  /** A frame of the run a click starts writes the old level raised by the
      smoothstep of the elapsed fraction: the easing shapes the transition. */
  lemma ZoomFrameEased(s: State, now: real, later: State, t: real)
    requires OnZoomClick(s, now).Animate?
    ensures ZoomRun(OnZoomClick(s, now).run)
    ensures ZoomFrame(later, OnZoomClick(s, now).run, t).zoom
      == s.zoom + Smoothstep(Fraction(t - now, ZoomDuration))
  {
  }

  /** The styling rule as the code evaluates it on a pair index that may
      still be unset: an unset index is falsy, so previous is disabled, and
      an unset index doubled is NaN, which compares false with the page
      count, so next is enabled whatever the count. On a set index it is
      the rule of EnableDisable. */
  function StylesFor(showNdx: Option<nat>, numPages: int): (b: Buttons)
    ensures showNdx.None? ==> b.prev == Disabled && b.next == Enabled
    ensures showNdx.Some? ==> b == EnableDisable(showNdx.value, numPages)
  {
    var prevOff := showNdx.None? || showNdx.value == 0 || numPages <= 1;
    var nextOff := showNdx.Some? && showNdx.value * 2 + 1 >= numPages;
    Buttons(if prevOff then Disabled else Enabled, if nextOff then Disabled else Enabled)
  }

  /** The styles applied while the toolbar is built, as written: the pair
      index is only set after the toolbar exists. */
  function SetupButtonsAsWritten(numPages: int): (b: Buttons)
    ensures b.next == Enabled
  {
    StylesFor(None, numPages)
  }

  /** With at most one page, the next button is shown enabled at start-up
      although pressing it does nothing. */
  lemma SetupButtonsMismatch(numPages: int)
    requires numPages <= 1
    ensures SetupButtonsAsWritten(numPages).next == Enabled
    ensures Next(Initial, numPages) == Initial
  {
  }

  /** The intended start-up styles: those of the first pair, which agree
      with what each button does. */
  function SetupButtons(numPages: int): (b: Buttons)
    ensures b.prev == Disabled
    ensures b.next == Disabled <==> Next(Initial, numPages) == Initial
  {
    StylesFor(Some(Initial.showNdx), numPages)
  }
}
