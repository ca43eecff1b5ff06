# Flipbook viewer core, modelled in Dafny

A model of the logic of a two-page "book" viewer (`src/page-flip.js`): a page
pair is laid out on an 800×800 canvas, the user flips between pairs, zooms in
step by step with an animated transition, and drags to pan while zoomed. The
DOM, canvas and timer plumbing is stripped away; what remains is pure
functions over `real` numbers and small state machines.

Modules, one per component of the viewer:

- `Optional` — the `Option` type used for an unset pan offset and a missing page.
- `Geometry` — the base layout (`calcInitialLayout`), the zoom/pan transform
  (`calcLayout`), the box edges (`currBox`) and the hit test (`inBox`).
- `Animation` — one animation run (`animate`, `animate_1`, `progress_1`) with
  the wall clock passed in as the time of each tick, and the smoothstep easing.
- `Viewer` — the viewer state (pair index, zoom level, pan offset), the next
  and previous guards, the button styles, and the zoom button.
- `Panning` — the pan controller built by `setupPanning`.
- `Render` — the drawing commands of one redraw (`showPages`, `show_pgs_1`,
  `show_bx_1`, `show_bg_1`) as a list.

Two observations on the code that a quick reading can get wrong:

- The zoom in `calcLayout` moves the left and top edges out by half the
  growth in width and height, so the box grows equally on both sides and
  its centre stays where it was; it is not anchored at the top-left corner. `Geometry.CalcLayout` proves the
  centre moves only by the pan offset.
- `animate` caps the elapsed fraction at 1 but does not clamp it at 0. The
  model follows the code; the bounds that need a non-negative fraction state
  that the clock has not gone backwards (`now >= start`).

## Model

| member | source | states |
|---|---|---|
| `Geometry.CalcInitialLayout` | src/page-flip.js:70-86 | the pair fits in 80% of the surface on both axes, fills 80% on at least one axis, is centred on the surface, splits at the surface's horizontal centre, and has the proportions of two reference pages side by side |
| `Geometry.InitialLayoutProportions` | src/page-flip.js:70-86 | on a surface of positive size the pair has positive width and height and width/height equals 2·page width/page height |
| `Geometry.CalcLayout` | src/page-flip.js:314-334 | a non-positive zoom returns the base layout whatever the pan; a positive zoom scales width and height by 1 + zoom/2, keeps the centre fixed up to the pan offset, moves the split line by the pan's x only, and keeps a centre split a centre split |
| `Geometry.PanIsTranslation` | src/page-flip.js:326-330 | while zoomed, the panned layout is the unpanned one translated by the pan offset (left, top and split line) |
| `Geometry.ZeroPanIsNoPan` | src/page-flip.js:326-330 | a zero pan offset gives the same layout as no pan offset |
| `Geometry.CurrBox` | src/page-flip.js:301-309 | the box's right edge is left + width and its bottom edge is top + height |
| `Geometry.InBoxEdges` | src/page-flip.js:281-285 | the hit test is exactly the closed rectangle: every point with left ≤ x ≤ left + width and top ≤ y ≤ top + height is inside, corners and edges included, and a point strictly beyond any edge is outside |
| `Geometry.InBoxTranslate` | src/page-flip.js:281-285 | hitting a box shifted by d is hitting the original box with the point shifted by -d |
| `Geometry.ZoomContainsBase` | src/page-flip.js:317-325 | zooming in without pan keeps every point of the base box inside the effective box |
| `Animation.Fraction` | src/page-flip.js:400-401 | the elapsed fraction is at most 1, equals 1 exactly when the duration has elapsed, equals elapsed/duration before that, and is non-negative when the elapsed time is |
| `Animation.Progress` | src/page-flip.js:408-417 | the result has exactly the keys of `from`; a key missing from `to` becomes NaN; every other value is moved linearly, from + (to − from)·t; at share 0 it is its `from`, at share 1 its `to`, and for a share in [0, 1] it lies between the two |
| `Animation.Tick` | src/page-flip.js:399-406 | a tick draws the interpolation at the eased fraction, timing(fraction), for every key of `from`, and finishes the run exactly when the duration has elapsed; otherwise another tick follows |
| `Animation.TickBetween` | src/page-flip.js:399-417 | with an easing that maps [0, 1] into [0, 1] and a clock that has not gone backwards, each drawn value lies between its start and end |
| `Animation.TickAtEnd` | src/page-flip.js:399-417 | once the duration has elapsed and the easing ends at 1, the tick draws the `to` value exactly and finishes |
| `Animation.Smoothstep` | src/page-flip.js:190 | the zoom easing t·t·(3−2t) maps 0 to 0, 1 to 1 and [0, 1] into [0, 1] |
| `Animation.SmoothstepMonotone` | src/page-flip.js:190 | the zoom easing is non-decreasing on [0, 1] |
| `Animation.RunAnimation` | src/page-flip.js:392-406 | over the host's successive tick times, one frame is drawn per tick until the first tick at or after the end, the completion callback runs at most once, exactly when such a tick exists, and on the last frame drawn |
| `Animation.LinearZoomExample` | src/page-flip.js:392-418 | a linear run of zoom from 0 to 4 over 500 draws 2 at 250 without finishing and exactly 4 at 500, finishing |
| `Viewer.EnableDisable` | src/page-flip.js:124-145 | previous is disabled exactly at the first pair or with at most one page; next is disabled exactly when the pair reaches the last page |
| `Viewer.Next` | src/page-flip.js:149-153 | only the pair index changes, by 0 or 1, and a reachable index stays reachable |
| `Viewer.Prev` | src/page-flip.js:160-164 | only the pair index changes, by 0 or −1 (so never below 0), and a reachable index stays reachable |
| `Viewer.ButtonsMatchGuards` | src/page-flip.js:135-162 | each button is disabled exactly when pressing it is a no-op |
| `Viewer.StylesFor` | src/page-flip.js:135-144 | on an unset pair index, previous is disabled and next enabled whatever the page count; on a set index the styles are those of `EnableDisable` |
| `Viewer.SetupButtonsAsWritten` | src/page-flip.js:104-106 | the styles applied while the toolbar is built, before the pair index is set, always show next enabled |
| `Viewer.SetupButtonsMismatch` | src/page-flip.js:104-106 | with at most one page, next is shown enabled at start-up although pressing it does nothing |
| `Viewer.SetupButtons` | src/page-flip.js:104-106 | start-up styles taken from the first pair: previous disabled, and next disabled exactly when pressing it does nothing |
| `Viewer.PrevUndoesNext` | src/page-flip.js:147-167 | a step forward that moves is undone by a step back |
| `Viewer.NextUndoesPrev` | src/page-flip.js:147-167 | from a reachable index, a step back that moves is undone by a step forward |
| `Viewer.FivePagesExample` | src/page-flip.js:147-156 | with five pages, next goes 0, 1, 2 and then does nothing, with the next button disabled and previous enabled |
| `Viewer.OnZoomClick` | src/page-flip.js:175-192 | the click resets exactly when zoom + 1 passes 4, then to zoom 0 with the pan cleared and the index kept; otherwise it starts a 500-long smoothstep run of `zoom` from the current level to one more |
| `Viewer.ZoomFrame` | src/page-flip.js:183-186 | a frame of the zoom run writes only the zoom level, and with an easing that keeps [0, 1] in [0, 1] and a clock that has not gone backwards the value lies between the run's start and end levels |
| `Viewer.ZoomFrameEased` | src/page-flip.js:182-191 | a frame of the run a click starts writes the old zoom level plus the smoothstep of the elapsed fraction of 500 |
| `Viewer.ZoomStaysInRange` | src/page-flip.js:176-191 | from a zoom level in [0, 4], the reset and every frame of the started run write a zoom level in [0, 4] |
| `Viewer.ZoomCycles` | src/page-flip.js:176-191 | from a whole zoom level, a completed click moves through the cycle 0, 1, 2, 3, 4, 0 |
| `Panning.OnEvent` | src/page-flip.js:239-266 | only the pan offset changes, and only on a redrawing move; up and leave end the drag; press while unzoomed does nothing; press while zoomed anchors the drag at the pointer minus the current pan; a move redraws exactly when dragging inside the current effective box, setting pan to pointer minus anchor, and otherwise ends the drag |
| `Panning.Run` | src/page-flip.js:236-275 | a sequence of pointer events never changes the pair index or the zoom level |
| `Panning.PressThenMoveKeepsLayout` | src/page-flip.js:243-262 | pressing and moving to the same point inside the box leaves the effective layout unchanged |
| `Panning.DragAddsDisplacement` | src/page-flip.js:243-262 | a press at a then a move to b inside the box makes the pan the old pan plus b − a |
| `Panning.UnzoomedPanFrozen` | src/page-flip.js:243-266 | while unzoomed and not dragging, no sequence of pointer events starts a drag, changes the pan, or redraws |
| `Panning.LeavingEndsDrag` | src/page-flip.js:256-266 | a move outside the box ends the drag, so a later move back inside changes nothing |
| `Render.PairIndices` | src/page-flip.js:341-342 | the pair's left provider index is even and halves to the pair index; the right index is the next one |
| `Render.PageRects` | src/page-flip.js:363-367 | both halves keep the layout's top and height and have half its width; the left one keeps its left edge and the right one starts at the split line |
| `Render.PagesTile` | src/page-flip.js:363-367 | with the split at the centre, the halves meet at the split line and together span the layout |
| `Render.FrameRect` | src/page-flip.js:377-381 | the frame extends the layout by 4 on every side |
| `Render.ShowPgs` | src/page-flip.js:358-371 | one image per present page, none for a missing one; the frame comes first exactly when zoom is 0 and there is no other command; every other command is an image, each present page drawn into its half, the left page before the right |
| `Render.ShowPages` | src/page-flip.js:339-351 | the background fills the surface first; the pages drawn are the provider's answers for indices 2·showNdx and 2·showNdx + 1; a failed fetch leaves only the background; otherwise the pages follow in the effective layout of the current zoom and pan |
| `Render.OnlyRightPage` | src/page-flip.js:368-369 | a missing left page and a present right page give exactly one image, into the right half |
| `Render.RedrawnPagesTile` | src/page-flip.js:358-367 | for a pair laid out from the canvas and a reference page, at every zoom and pan the two pages meet at the split line |

## Left out

- Building the DOM, the toolbar and its CSS styles, and the `h`/`getH` element helpers (src/page-flip.js:8-36, 91-118): interface construction over an outside library.
- Creating the canvas element and the 2D context calls `fillRect`, `drawImage`, `save` and `restore`: drawing is modelled as the list of commands issued, and the save/restore pairing is not modelled.
- `Date.now` and `requestAnimationFrame`: the time of each tick is a parameter, and `RunAnimation` takes the tick times the host would choose.
- The asynchronous page provider (`pagefn.get`), its error logging and the order in which callbacks return: a redraw takes the two fetch results as inputs, and a failed fetch is modelled by its effect on the commands. Overlapping fetches and overlapping zoom runs are not modelled.
- The provider's page count is a parameter of each navigation step; which index base (0 or 1) the provider uses is not modelled, only the indices the viewer asks for.
- `mousePt` and the event fan-out in `setupMouseHandler` (src/page-flip.js:207-229, 290-296): pointer positions arrive already relative to the viewer area. Mouse-enter and click have no pan handler and are not events of the model.
- IEEE floating-point rounding, and NaN or non-numeric zoom levels and animation values other than the NaN of a key missing from `to`.
- Geometry.CalcInitialLayout: requires a reference page of positive width and height; the code does not guard the provider's page and would divide by zero, giving Infinity or NaN, which `real` cannot express.
- Viewer.ButtonsMatchGuards: states the styling rule, not when the code applies it; the code styles the buttons only while the toolbar is built and after a move, so the shown styles go stale if the page count changes between moves, and at start-up they differ (see Findings).
- Animation.Fraction: requires a positive duration; the only run the viewer starts lasts 500, and a zero duration would divide by zero.
- Animation.Tick: requires a positive duration, for the same reason.
- Animation.TickBetween: assumes the clock has not gone backwards since the run started; the code does not clamp the fraction at 0.
- Viewer.ZoomStaysInRange: covers one click and its own run; interleaved frames of overlapping runs are not modelled.

## Findings

| source | as written | input that shows it | evidently intended | confidence | as-written member | corrected member |
|---|---|---|---|---|---|---|
| src/page-flip.js:104-106 | the buttons are styled while the toolbar is built, before the pair index is set at line 30, so the next-button test compares NaN with the page count and shows next enabled | a document of 1 page (or 0): next is shown enabled, and pressing it is a no-op | style the buttons from pair 0, so next is disabled exactly when pressing it does nothing | medium, not executed | `Viewer.SetupButtonsMismatch` | `Viewer.SetupButtons` |
