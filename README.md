# grabcut-tfjs selection box, modelled in Dafny

The repository shows an image with an SVG overlay. On the overlay the user
drags out a selection rectangle. When the mouse button is released, the
rectangle goes to OpenCV's `grabCut`, and the segmented image is drawn with
its background painted green.

This project models the part of that with real logic:

- `SvgRect` (svg_rect.dfy) models `InteractiveSVGRect` from
  interactiveSVGRect.js. A box has geometry `x`, `y`, `width`, `height`, a
  `moving` flag and optional drag anchors `startX`, `startY`. It is bound to
  an SVG `rect`. Each setter writes the rect's attribute only when the value
  changes. A coordinate write that changes the value sets the anchor if no
  anchor is present. `moving = false` drops both anchors.
  - The value datatype `Box` and the functions `AssignX`, `AssignY`,
    `AssignWidth`, `AssignHeight`, `AssignMoving`, `Create` and `Reset` state
    what each operation does.
  - The classes `SvgRectElement` (an attribute map plus a ghost log of
    `setAttributeNS` calls) and `InteractiveSVGRect` hold the same state in
    mutable fields. Each of their methods is proved to change `Model()`
    exactly as the matching function does, and to keep `Valid()`: the rect's
    attributes equal the fields.
- `Listeners` (listeners.dfy) models the mousedown, mousemove and mouseup
  listeners of `setUpSVGListeners` in main.js. Each is a function on `Box`
  and a method that drives an `InteractiveSVGRect` through its setters in
  the same order as the source.
- `GrabCut` (grabcut.dfy) models the guard `width > 0 && height > 0`, the
  in-place loop that paints background pixels (0, 255, 0), and the outline
  corners, all from `grabcut` in main.js.

Pointer offsets are integers. JavaScript's `undefined` anchor is
`Option.None`. `Number.NaN` stands for the one NaN the code can produce:
`undefined - offsetX` when a drag has no anchor. NaN is never equal to
anything, itself included, so a setter given NaN always writes.

Two behaviours of the code deserve a note. The model follows the code in
both:

- Setting `moving = true` touches no anchor (interactiveSVGRect.js:38-44).
  So a press during a drag keeps the old anchors, although main.js:44
  describes the press as the listener "to set the first corner of the box"
  (`Listeners.SecondPressKeepsStaleAnchor`).
- mouseup calls the selection callback unconditionally (main.js:79). A box
  of zero or NaN area is filtered only by the check inside `grabcut`
  (main.js:92) (`Listeners.OnMouseUp`, `GrabCut.Segment`).

## Model

| member | source | states |
|---|---|---|
| `SvgRect.AssignSameIsNoOp` | interactiveSVGRect.js:58-124 | assigning x, y, or a non-NaN width or height its current value leaves the whole box, its rect and the write log unchanged |
| `SvgRect.AssignNaNAlwaysWrites` | interactiveSVGRect.js:101-124 | because `NaN !== NaN`, assigning NaN to width or height always appends one attribute write |
| `SvgRect.AssignXNewValue` | interactiveSVGRect.js:58-66 | a new x is stored and written to attribute `x` in exactly one write; it becomes `startX` only when no anchor is present; nothing else changes |
| `SvgRect.AssignYNewValue` | interactiveSVGRect.js:80-88 | the same for y, attribute `y` and `startY` |
| `SvgRect.AssignExtentTouchesOnlyItself` | interactiveSVGRect.js:101-124 | a width or height assignment changes only that field, its attribute and the log; the anchors, the flag and the other fields never change; a changed value adds exactly the write of that attribute |
| `SvgRect.AssignMovingAnchors` | interactiveSVGRect.js:38-44 | `moving = false` drops both anchors from any state; `moving = true` keeps them exactly; neither changes the geometry, the rect's attributes or the log |
| `SvgRect.IdleUnanchoredByConstruction` | interactiveSVGRect.js:16-44 | a new box, a reset box, and any box after `moving = false` or `moving = true` satisfy "idle implies no anchor" |
| `SvgRect.CreateState` | interactiveSVGRect.js:16-25 | a new box holds its arguments, is idle, has no anchors, and its rect got exactly the four attribute writes and shows the geometry |
| `SvgRect.AssignsKeepSynced` | interactiveSVGRect.js:58-124 | every setter keeps the rect's four attributes equal to the stored fields |
| `SvgRect.ResetDefaults` | interactiveSVGRect.js:127-133 | after a reset, x = y = width = height = 0, idle, no anchors; a second reset changes nothing, so it makes no write |
| `SvgRect.ApplyWritesIffChanged` | interactiveSVGRect.js:58-124 | one assignment writes the rect if and only if it changes the value, then exactly once; otherwise the rect and the log are untouched |
| `SvgRect.WritesCountChanges` | interactiveSVGRect.js:58-124 | over any sequence of assignments, the log grows by exactly the number of value changes, each judged against the value held just before it |
| `SvgRect.ApplyAllKeepsSynced` | interactiveSVGRect.js:58-124 | any sequence of assignments keeps the rect synced with the fields |
| `SvgRect.FirstWriteAnchors` | interactiveSVGRect.js:38-66 | from idle, after `moving = true` the first changing write to x anchors x there, and later geometry writes do not move it |
| `SvgRect.FirstWriteAnchorsY` | interactiveSVGRect.js:38-88 | the same for y: from idle, after `moving = true` the first changing write to y anchors y there, and later geometry writes do not move it |
| `SvgRect.AnchorSurvives` | interactiveSVGRect.js:58-124 | geometry writes never change a present anchor, on either axis |
| `SvgRect.SvgRectElement.constructor` | interactiveSVGRect.js:17 | a created rect has no attributes and no writes |
| `SvgRect.SvgRectElement.SetAttributeNS` | interactiveSVGRect.js:64 | sets one attribute and appends exactly that write to the log |
| `SvgRect.InteractiveSVGRect.constructor` | interactiveSVGRect.js:16-25 | the new object's state is `Create(x, y, width, height)`, with a fresh rect, and it is valid |
| `SvgRect.InteractiveSVGRect.SetMoving` | interactiveSVGRect.js:38-44 | the object changes as `AssignMoving` says and stays valid |
| `SvgRect.InteractiveSVGRect.SetX` | interactiveSVGRect.js:58-66 | the object and its rect change as `AssignX` says and stay valid |
| `SvgRect.InteractiveSVGRect.SetY` | interactiveSVGRect.js:80-88 | the object and its rect change as `AssignY` says and stay valid |
| `SvgRect.InteractiveSVGRect.SetWidth` | interactiveSVGRect.js:101-106 | the object and its rect change as `AssignWidth` says and stay valid |
| `SvgRect.InteractiveSVGRect.SetHeight` | interactiveSVGRect.js:119-124 | the object and its rect change as `AssignHeight` says and stay valid |
| `SvgRect.InteractiveSVGRect.ResetToDefault` | interactiveSVGRect.js:127-133 | the object and its rect change as `Reset` says and stay valid |
| `GrabCut.OutlineOrdered` | main.js:121-122 | for a box that passes the guard, the first outline corner is the box's top-left, strictly left of and above the second, and the corners are exactly the box's size apart |
| `GrabCut.EraseBackground` | main.js:109-117 | every pixel whose mask value is 0 or 2 ends as (0, 255, 0) in channels 0 to 2; every other pixel, and every channel past the third, keeps its value |
| `GrabCut.Segment` | main.js:91-131 | when width or height is not positive (or is NaN), nothing changes and nothing is drawn; otherwise the background is painted and the outline is `(x, y)` to `(x + width, y + height)` |
| `Listeners.AxisMove` | main.js:58-71 | with an anchor, the position is the smaller of anchor and pointer, the extent is their distance, and position plus extent is the larger; without one, the extent is NaN and the position is the pointer |
| `Listeners.MouseDownState` | main.js:45-53 | after a press the box is moving, at the pointer, with zero size; an axis is anchored at the pointer only if it had no anchor and the pointer differs from the stored coordinate; otherwise its anchor is kept |
| `Listeners.MouseMoveIdle` | main.js:57 | a move while idle leaves the box, its rect and the log unchanged |
| `Listeners.MouseMoveNormalises` | main.js:56-73 | a move from anchor (ax, ay) to pointer (px, py) gives x = min(ax, px), width = abs(px - ax), and the same for y, each axis on its own; x + width = max(ax, px); the anchors and the flag are unchanged |
| `Listeners.MouseMoveWithoutAnchor` | main.js:58-64 | a move with no x anchor makes the width NaN, puts x at the pointer, and anchors x there only if x changed |
| `Listeners.EventsKeepSynced` | main.js:45-81 | every handler keeps the rect synced with the fields |
| `Listeners.HandlersKeepIdleUnanchored` | main.js:45-81 | mousedown, mousemove, mouseup and any run of moves keep "idle implies no anchor" |
| `Listeners.MouseUpState` | main.js:76-81 | a release ends the drag, drops both anchors, makes no write and hands over the geometry as it was |
| `Listeners.DragFollowsLastPointer` | main.js:56-73 | after any nonempty run of moves the anchors are unchanged and the box is the span from the anchor to the last pointer |
| `Listeners.DragKeepsSynced` | main.js:56-73 | a run of moves of any length keeps the rect synced |
| `Listeners.GestureSelectsSpan` | main.js:45-81 | a gesture from idle, pressed off the stored coordinates, hands the callback the span from the press to the last pointer and ends idle with no anchors |
| `Listeners.PressReleaseSelectsNothing` | main.js:45-92 | press then release with no move hands over a zero box at the press point, which the guard rejects |
| `Listeners.SpanOutline` | main.js:92-122 | a spanned box passes the guard if and only if the pointer left the anchor on both axes; its outline runs from the smaller corner to the larger |
| `Listeners.DragQuadrants` | main.js:56-73 | from anchor (50, 50), a move to (80, 30) gives (50, 30, 30, 20); a further move to (20, 70) gives (20, 50, 30, 20) |
| `Listeners.PageGestures` | main.js:38-92 | after the page's reset, press (10, 10), move (60, 40), release hands over (10, 10, 50, 30), which is segmented; moving to (10, 10) instead gives a box that is not |
| `Listeners.PressAtStoredXDropsSelection` | main.js:45-73 | as written, a press at the stored x leaves x unanchored, so the next move makes the width NaN; when the release follows that one move, the guard rejects the selection |
| `Listeners.PressAtStoredXMisanchors` | main.js:45-73 | as written, after a press at the stored x followed by two moves, the box spans from the first move's x (and the press's y) to the last pointer, not from the press |
| `Listeners.SecondPressKeepsStaleAnchor` | main.js:45-53 | as written, a press during a drag keeps the old anchor: from anchor (0, 0), pressing (50, 50) and moving to (60, 60) selects (0, 0, 60, 60) |
| `Listeners.AnchoredGestureSelectsSpan` | main.js:45-53 | with the press anchoring both axes at the pointer, every gesture with a move, from any state, selects the span from the press to the last pointer |
| `Listeners.OnMouseDown` | main.js:45-53 | the object changes as `MouseDown` says and stays valid |
| `Listeners.OnMouseMove` | main.js:56-73 | the object changes as `MouseMove` says and stays valid |
| `Listeners.MoveHorizontally` | main.js:58-64 | the object changes as `MoveX` says (width, then x) and stays valid |
| `Listeners.MoveVertically` | main.js:65-71 | the object changes as `MoveY` says (height, then y) and stays valid |
| `Listeners.OnMouseUp` | main.js:76-81 | the object changes as `MouseUp` says; the one selection returned for the callback is the geometry before the release |

## Findings

| source | as written | input that shows it | evidently intended | confidence | as-written member | corrected member |
|---|---|---|---|---|---|---|
| main.js:48-49 with interactiveSVGRect.js:59 | the press sets the anchor through the x and y setters, which do nothing when the value is unchanged | idle box with x = 0 (as after the page's reset); press at (0, 5), move to (30, 40): width becomes NaN and x is re-anchored at 30. Released there, the selection is dropped; after a further move to (60, 60), it spans from x = 30 instead of 0 | every press anchors both axes at the press point | not executed; high | `Listeners.PressAtStoredXDropsSelection`, `Listeners.PressAtStoredXMisanchors` | `Listeners.MouseDownAnchored` (proved in `Listeners.AnchoredGestureSelectsSpan`) |
| main.js:47 with interactiveSVGRect.js:38-44 | `moving = true` keeps existing anchors, so a press during a drag (for example after a release outside the overlay) keeps the old anchor | anchor (0, 0), press at (50, 50), move to (60, 60): selects (0, 0, 60, 60) | the new press re-anchors: (50, 50, 10, 10) | not executed; medium | `Listeners.SecondPressKeepsStaleAnchor` | `Listeners.MouseDownAnchored` (proved in `Listeners.AnchoredGestureSelectsSpan`) |

The handler methods model the code as written. The corrected press is a
function on `Box`, and `AnchoredGestureSelectsSpan` proves the intended
property about it for every starting state.

## Left out

- DOM lookups, the file input, `URL.createObjectURL` and the `onload` sizing of the overlay and canvas (main.js:6-40): browser I/O with no logic. The `resetToDefault` that `onload` runs appears as the starting state in `Listeners.PageGestures`.
- `document.createElementNS` and `appendChild` (interactiveSVGRect.js:17, 24): the rect is an attribute map plus a ghost write log. The `svgElement` field and the DOM tree are not modelled.
- OpenCV: `cv.imread`, `cvtColor`, `cv.grabCut`, `cv.Rect`, `cv.rectangle`, `imshow` and the `.delete()` calls (main.js:95-106, 120-129). These are foreign code. `GrabCut.Segment` takes the converted image and the mask `grabCut` produced as arguments, and it returns the outline corners instead of drawing them.
- The callback of `setUpSVGListeners` is arbitrary code. `Listeners.OnMouseUp` returns the one selection it hands over, instead of calling it.
- Pointer offsets are JavaScript floating-point numbers. The model uses integers, so comparison and subtraction are exact. NaN is modelled only where a missing anchor produces it. Arithmetic on NaN further on (for example in the outline corners) is not reachable past the guard and is not modelled.
- The `if (rect)` presence checks (main.js:46, 57, 77) always pass, because `rect` is a constant built at load. The handlers take a non-null box instead.
- JavaScript setters accept any value. The model types `moving` as a boolean, x and y as integers, and width and height as integers or NaN.
- The getters (interactiveSVGRect.js:30-32, 49-51, 71-73, 93-95, 111-113) are reads of the corresponding fields and have no members of their own.
- The constructor's default arguments are not modelled separately. main.js:19 passes none, which is `new InteractiveSVGRect(0, 0, 0, 0)`.
- Event dispatch is not modelled. Each listener is one sequential method call.
