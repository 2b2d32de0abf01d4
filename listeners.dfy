/**
 * The listeners that `setUpSVGListeners` in main.js attaches to the overlay.
 * Together they form a two-state controller over one box. mousedown starts a
 * drag, mousemove spans the box between the anchor and the pointer, and
 * mouseup ends the drag and hands the box to the callback.
 *
 * Each handler appears twice. A function on `SvgRect.Box` states its
 * effect, and the lemmas are about those functions. A method drives an
 * `InteractiveSVGRect` through its setters in the order main.js uses,
 * and its postcondition ties the object to the function. Pointer offsets
 * are integers.
 */
module Listeners {
  import opened SvgRect
  import opened GrabCut

  /** `e.offsetX`, `e.offsetY` of a mouse event. */
  datatype Offset = Offset(x: int, y: int)

  function Min(a: int, b: int): int { if a <= b then a else b }
  function Max(a: int, b: int): int { if a <= b then b else a }
  function Abs(d: int): nat { if d < 0 then -d else d }

  /**
   * One axis of mousemove: the new extent and the new position. With an
   * anchor, the box runs from the smaller to the larger of anchor and
   * pointer. Without one, `offsetX >= undefined` is false. The else branch
   * then computes `undefined - offsetX`, which is NaN, and puts the box
   * at the pointer.
   */
  function AxisMove(anchor: Option<int>, p: int): (r: (Number, int))
    ensures anchor.Some? ==> r.0 == Num(Abs(p - anchor.value)) && r.1 == Min(anchor.value, p)
    ensures anchor.Some? ==> r.1 + r.0.n == Max(anchor.value, p)
    ensures anchor.None? ==> r.0 == NaN && r.1 == p
  {
    if anchor.Some? && p >= anchor.value then (Num(p - anchor.value), anchor.value)
    else (if anchor.Some? then Num(anchor.value - p) else NaN, p)
  }

  /** mousedown: `moving = true`, then x, y := pointer, then width, height := 0. */
  function MouseDown(b: Box, e: Offset): Box {
    AssignHeight(AssignWidth(AssignY(AssignX(AssignMoving(b, true), e.x), e.y), Num(0)), Num(0))
  }

  /** The horizontal half of mousemove: width first, then x. */
  function MoveX(b: Box, px: int): Box {
    var (w, pos) := AxisMove(b.startX, px);
    AssignX(AssignWidth(b, w), pos)
  }

  /** The vertical half of mousemove: height first, then y. */
  function MoveY(b: Box, py: int): Box {
    var (h, pos) := AxisMove(b.startY, py);
    AssignY(AssignHeight(b, h), pos)
  }

  /** mousemove: ignored unless a drag is in progress; otherwise both axes, x first. */
  function MouseMove(b: Box, e: Offset): Box {
    if b.moving then MoveY(MoveX(b, e.x), e.y) else b
  }

  /** mouseup: `moving = false`. */
  function MouseUp(b: Box): Box {
    AssignMoving(b, false)
  }

  /** What the callback reads from the box it is handed. */
  function Handed(b: Box): Selection {
    Selection(b.x, b.y, b.width, b.height)
  }

  /** A run of mousemove events. */
  function Drag(b: Box, moves: seq<Offset>): Box
    decreases |moves|
  {
    if moves == [] then b else Drag(MouseMove(b, moves[0]), moves[1..])
  }

  /** A whole gesture: press, moves, release, and the selection the callback receives. */
  function Gesture(b: Box, down: Offset, moves: seq<Offset>): Selection {
    Handed(MouseUp(Drag(MouseDown(b, down), moves)))
  }

  /** The canonical top-left box spanned by two points, each axis on its own. */
  function Span(a: Offset, p: Offset): Selection {
    Selection(Min(a.x, p.x), Min(a.y, p.y), Num(Abs(p.x - a.x)), Num(Abs(p.y - a.y)))
  }

  // ---------------------------------------------------------------------
  // One event at a time
  // ---------------------------------------------------------------------

  /**
   * After mousedown the box is moving and sits at the pointer with zero
   * size. An axis gets the pointer as its anchor only if it had no anchor
   * and the pointer differs from the stored coordinate. A present anchor is
   * kept, and so is an absent one when the coordinate does not change.
   */
  lemma MouseDownState(b: Box, e: Offset)
    ensures var r := MouseDown(b, e);
      && r.moving && r.x == e.x && r.y == e.y && r.width == Num(0) && r.height == Num(0)
      && r.startX == (if b.startX.None? && e.x != b.x then Some(e.x) else b.startX)
      && r.startY == (if b.startY.None? && e.y != b.y then Some(e.y) else b.startY)
    ensures Synced(b) ==> Synced(MouseDown(b, e))
  {
  }

  /** mousemove while idle changes nothing and writes nothing. */
  lemma MouseMoveIdle(b: Box, e: Offset)
    requires !b.moving
    ensures MouseMove(b, e) == b
  {
  }

  /**
   * mousemove from anchor `a` to pointer `e` puts each axis at the smaller
   * of the two, with the distance as its extent. The far edge is the larger
   * of the two. The anchors and the flag stay as they were.
   */
  lemma MouseMoveNormalises(b: Box, a: Offset, e: Offset)
    requires b.moving && b.startX == Some(a.x) && b.startY == Some(a.y)
    ensures var r := MouseMove(b, e);
      && Handed(r) == Span(a, e)
      && r.x + Abs(e.x - a.x) == Max(a.x, e.x) && r.y + Abs(e.y - a.y) == Max(a.y, e.y)
      && r.moving && r.startX == b.startX && r.startY == b.startY
  {
    var bx := MoveX(b, e.x);
    assert bx.startY == b.startY && bx.moving;
    assert bx.x == Min(a.x, e.x) && bx.width == Num(Abs(e.x - a.x));
  }

  /**
   * mousemove with no x anchor: the width becomes NaN, x goes to the
   * pointer, and the x setter then anchors there, if x changed.
   */
  lemma MouseMoveWithoutAnchor(b: Box, e: Offset)
    requires b.moving && b.startX.None?
    ensures var r := MouseMove(b, e);
      && r.width == NaN && r.x == e.x
      && r.startX == (if e.x != b.x then Some(e.x) else None)
  {
  }

  /** Every event keeps the rect showing the stored geometry. */
  lemma EventsKeepSynced(b: Box, e: Offset)
    requires Synced(b)
    ensures Synced(MouseDown(b, e)) && Synced(MouseMove(b, e)) && Synced(MouseUp(b))
  {
    var b1 := AssignMoving(b, true);
    AssignsKeepSynced(b, e.x, e.y, Num(0), Num(0), true);
    var b2 := AssignX(b1, e.x);
    AssignsKeepSynced(b1, e.x, e.y, Num(0), Num(0), true);
    var b3 := AssignY(b2, e.y);
    AssignsKeepSynced(b2, e.x, e.y, Num(0), Num(0), true);
    AssignsKeepSynced(b3, e.x, e.y, Num(0), Num(0), true);
    AssignsKeepSynced(AssignWidth(b3, Num(0)), e.x, e.y, Num(0), Num(0), true);
    if b.moving {
      var (w, px) := AxisMove(b.startX, e.x);
      AssignsKeepSynced(b, px, e.y, w, Num(0), true);
      AssignsKeepSynced(AssignWidth(b, w), px, e.y, w, Num(0), true);
      var bx := MoveX(b, e.x);
      var (h, py) := AxisMove(bx.startY, e.y);
      AssignsKeepSynced(bx, px, py, w, h, true);
      AssignsKeepSynced(AssignHeight(bx, h), px, py, w, h, true);
    }
  }

  /** Every handler leaves an idle box unanchored, and so does a drag of any length. */
  lemma {:induction false} HandlersKeepIdleUnanchored(b: Box, e: Offset, moves: seq<Offset>)
    requires IdleUnanchored(b)
    ensures IdleUnanchored(MouseDown(b, e)) && IdleUnanchored(MouseMove(b, e)) && IdleUnanchored(MouseUp(b))
    ensures IdleUnanchored(Drag(b, moves))
    decreases |moves|
  {
    if moves != [] {
      HandlersKeepIdleUnanchored(MouseMove(b, moves[0]), e, moves[1..]);
    }
  }

  /** mouseup ends the drag, drops both anchors, writes nothing and hands over the geometry unchanged. */
  lemma MouseUpState(b: Box)
    ensures var r := MouseUp(b);
      && !r.moving && r.startX.None? && r.startY.None?
      && r.writes == b.writes && Handed(r) == Handed(b)
  {
  }

  // ---------------------------------------------------------------------
  // Whole drags and gestures
  // ---------------------------------------------------------------------

  /** However many moves a drag has, its anchors stay put and the box is the span from the anchor to the last pointer. */
  lemma {:induction false} DragFollowsLastPointer(b: Box, a: Offset, moves: seq<Offset>)
    requires b.moving && b.startX == Some(a.x) && b.startY == Some(a.y)
    requires moves != []
    ensures var r := Drag(b, moves);
      && r.moving && r.startX == b.startX && r.startY == b.startY
      && Handed(r) == Span(a, moves[|moves| - 1])
    decreases |moves|
  {
    MouseMoveNormalises(b, a, moves[0]);
    if |moves| > 1 {
      DragFollowsLastPointer(MouseMove(b, moves[0]), a, moves[1..]);
    }
  }

  /** A drag of any length keeps the rect synced. */
  lemma {:induction false} DragKeepsSynced(b: Box, moves: seq<Offset>)
    requires Synced(b)
    ensures Synced(Drag(b, moves))
    decreases |moves|
  {
    if moves != [] {
      EventsKeepSynced(b, moves[0]);
      DragKeepsSynced(MouseMove(b, moves[0]), moves[1..]);
    }
  }

  /**
   * A gesture that starts idle, with the press off the stored coordinates,
   * hands the callback the span from the press to the last pointer. The
   * box ends idle and unanchored.
   */
  lemma GestureSelectsSpan(b: Box, down: Offset, moves: seq<Offset>)
    requires !b.moving && b.startX.None? && b.startY.None?
    requires down.x != b.x && down.y != b.y
    requires moves != []
    ensures Gesture(b, down, moves) == Span(down, moves[|moves| - 1])
    ensures var r := MouseUp(Drag(MouseDown(b, down), moves));
      !r.moving && r.startX.None? && r.startY.None?
  {
    DragFollowsLastPointer(MouseDown(b, down), down, moves);
  }

  /** Press and release without a move selects an empty box at the press point, which the guard rejects. */
  lemma PressReleaseSelectsNothing(b: Box, down: Offset)
    ensures Gesture(b, down, []) == Selection(down.x, down.y, Num(0), Num(0))
    ensures !ShouldSegment(Gesture(b, down, []))
  {
  }

  /**
   * A spanned box passes the guard exactly when the pointer left the anchor
   * on both axes. Its outline runs from the smaller corner to the larger.
   */
  lemma SpanOutline(a: Offset, p: Offset)
    ensures ShouldSegment(Span(a, p)) <==> a.x != p.x && a.y != p.y
    ensures Outline(Span(a, p)) == (Point(Min(a.x, p.x), Min(a.y, p.y)), Point(Max(a.x, p.x), Max(a.y, p.y)))
  {
  }

  /** Anchor (50, 50): a move to (80, 30) gives x 50, width 30, y 30, height 20; a move on to (20, 70) gives x 20, width 30, y 50, height 20. */
  lemma DragQuadrants(b: Box)
    requires b.moving && b.startX == Some(50) && b.startY == Some(50)
    ensures Handed(MouseMove(b, Offset(80, 30))) == Selection(50, 30, Num(30), Num(20))
    ensures Handed(MouseMove(MouseMove(b, Offset(80, 30)), Offset(20, 70))) == Selection(20, 50, Num(30), Num(20))
  {
    MouseMoveNormalises(b, Offset(50, 50), Offset(80, 30));
    MouseMoveNormalises(MouseMove(b, Offset(80, 30)), Offset(50, 50), Offset(20, 70));
  }

  /**
   * After the page's reset, press (10, 10) and move to (60, 40): the
   * callback gets {10, 10, 50, 30} and segments. A move to (10, 10) instead
   * gives a zero box, and the callback does nothing.
   */
  lemma PageGestures(b: Box)
    ensures Gesture(Reset(b), Offset(10, 10), [Offset(60, 40)]) == Selection(10, 10, Num(50), Num(30))
    ensures ShouldSegment(Gesture(Reset(b), Offset(10, 10), [Offset(60, 40)]))
    ensures !ShouldSegment(Gesture(Reset(b), Offset(10, 10), [Offset(10, 10)]))
  {
    ResetDefaults(b);
    GestureSelectsSpan(Reset(b), Offset(10, 10), [Offset(60, 40)]);
    GestureSelectsSpan(Reset(b), Offset(10, 10), [Offset(10, 10)]);
  }

  // ---------------------------------------------------------------------
  // Press anchoring: the code as written and as intended
  // ---------------------------------------------------------------------

  /**
   * As written: a press at the stored x leaves x without an anchor. A move
   * away then yields a NaN width. When the release follows that one move,
   * the guard rejects the selection.
   */
  lemma PressAtStoredXDropsSelection(b: Box, py: int, q: Offset)
    requires !b.moving && b.startX.None?
    requires q.x != b.x
    ensures Gesture(b, Offset(b.x, py), [q]).width == NaN
    ensures !ShouldSegment(Gesture(b, Offset(b.x, py), [q]))
  {
    var d := MouseDown(b, Offset(b.x, py));
    assert d.moving && d.startX.None? && d.x == b.x;
    MouseMoveWithoutAnchor(d, q);
    assert Drag(d, [q]) == Drag(MouseMove(d, q), []) == MouseMove(d, q);
  }

  /**
   * As written, with more than one move after a press at the stored x: the
   * first move anchors x at its own pointer, so the box spans from there
   * rather than from the press.
   */
  lemma PressAtStoredXMisanchors(b: Box, py: int, q1: Offset, q2: Offset)
    requires !b.moving && b.startX.None? && b.startY.None?
    requires q1.x != b.x && py != b.y
    ensures Gesture(b, Offset(b.x, py), [q1, q2]) == Span(Offset(q1.x, py), q2)
  {
    var d := MouseDown(b, Offset(b.x, py));
    MouseDownState(b, Offset(b.x, py));
    MouseMoveWithoutAnchor(d, q1);
    var m := MouseMove(d, q1);
    assert m.moving && m.startX == Some(q1.x) && m.startY == Some(py);
    DragFollowsLastPointer(m, Offset(q1.x, py), [q2]);
    assert Drag(d, [q1, q2]) == Drag(m, [q2]);
  }

  /**
   * As written: a press during a drag keeps the old anchors. After an
   * anchor at (0, 0), pressing at (50, 50) and moving to (60, 60) selects
   * (0, 0, 60, 60), not (50, 50, 10, 10).
   */
  lemma SecondPressKeepsStaleAnchor(b: Box)
    requires b.moving && b.startX == Some(0) && b.startY == Some(0)
    ensures Gesture(b, Offset(50, 50), [Offset(60, 60)]) == Selection(0, 0, Num(60), Num(60))
  {
    var d := MouseDown(b, Offset(50, 50));
    MouseDownState(b, Offset(50, 50));
    DragFollowsLastPointer(d, Offset(0, 0), [Offset(60, 60)]);
  }

  /** mousedown as intended: after the setters, both anchors are the press point. */
  function MouseDownAnchored(b: Box, e: Offset): Box {
    MouseDown(b, e).(startX := Some(e.x), startY := Some(e.y))
  }

  /**
   * With the anchored press, every gesture with at least one move, from
   * any state, hands the callback the span from the press to the last
   * pointer.
   */
  lemma AnchoredGestureSelectsSpan(b: Box, down: Offset, moves: seq<Offset>)
    requires moves != []
    ensures Handed(MouseUp(Drag(MouseDownAnchored(b, down), moves))) == Span(down, moves[|moves| - 1])
  {
    DragFollowsLastPointer(MouseDownAnchored(b, down), down, moves);
  }

  // ---------------------------------------------------------------------
  // The handlers on the object
  // ---------------------------------------------------------------------

  /** The mousedown listener. */
  method OnMouseDown(rect: InteractiveSVGRect, e: Offset)
    requires rect.Valid()
    modifies rect, rect.svgRect
    ensures rect.Valid() && rect.Model() == MouseDown(old(rect.Model()), e)
  {
    rect.SetMoving(true);
    rect.SetX(e.x);
    rect.SetY(e.y);
    rect.SetWidth(Num(0));
    rect.SetHeight(Num(0));
  }

  /** The mousemove listener. */
  method OnMouseMove(rect: InteractiveSVGRect, e: Offset)
    requires rect.Valid()
    modifies rect, rect.svgRect
    ensures rect.Valid() && rect.Model() == MouseMove(old(rect.Model()), e)
  {
    if rect.moving {
      MoveHorizontally(rect, e.x);
      MoveVertically(rect, e.y);
    }
  }

  /** The first `if` of the mousemove listener: width and x from `startX` and the pointer. */
  method MoveHorizontally(rect: InteractiveSVGRect, px: int)
    requires rect.Valid()
    modifies rect, rect.svgRect
    ensures rect.Valid() && rect.Model() == MoveX(old(rect.Model()), px)
  {
    if rect.startX.Some? && px >= rect.startX.value {
      rect.SetWidth(Num(px - rect.startX.value));
      rect.SetX(rect.startX.value);
    } else {
      rect.SetWidth(if rect.startX.Some? then Num(rect.startX.value - px) else NaN);
      rect.SetX(px);
    }
  }

  /** The second `if` of the mousemove listener: height and y from `startY` and the pointer. */
  method MoveVertically(rect: InteractiveSVGRect, py: int)
    requires rect.Valid()
    modifies rect, rect.svgRect
    ensures rect.Valid() && rect.Model() == MoveY(old(rect.Model()), py)
  {
    if rect.startY.Some? && py >= rect.startY.value {
      rect.SetHeight(Num(py - rect.startY.value));
      rect.SetY(rect.startY.value);
    } else {
      rect.SetHeight(if rect.startY.Some? then Num(rect.startY.value - py) else NaN);
      rect.SetY(py);
    }
  }

  /** The mouseup listener: ends the drag and returns the one selection it hands to the callback. */
  method OnMouseUp(rect: InteractiveSVGRect) returns (handed: Selection)
    requires rect.Valid()
    modifies rect
    ensures rect.Valid() && rect.Model() == MouseUp(old(rect.Model()))
    ensures handed == Handed(old(rect.Model()))
  {
    rect.SetMoving(false);
    handed := Selection(rect.x, rect.y, rect.width, rect.height);
  }
}
