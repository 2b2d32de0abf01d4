/**
 * The selection box of interactiveSVGRect.js: stored geometry, a `moving`
 * flag, optional drag anchors, and a bound SVG rect whose attributes every
 * changing setter rewrites.
 *
 * The module has two layers. `Box` is a value snapshot of everything the
 * box and its rect hold, and the `Assign*` functions say what each setter
 * does to it. The class `InteractiveSVGRect` keeps the same state in
 * mutable fields, and each of its methods is proved to move its `Model()`
 * exactly as the matching function does. The lemmas state the setter laws
 * on the snapshot.
 */
module SvgRect {

  datatype Option<T> = None | Some(value: T)

  /**
   * A JavaScript number as the box meets it: an integer pointer offset, or
   * NaN. NaN is what `undefined - offsetX` gives when a drag has no anchor.
   */
  datatype Number = Num(n: int) | NaN

  /** JavaScript `a !== b` on numbers: NaN differs from every number, itself included. */
  predicate StrictlyDiffers(a: Number, b: Number) {
    a.NaN? || b.NaN? || a.n != b.n
  }

  /** One call `svgRect.setAttributeNS(null, name, value)`. */
  datatype AttrWrite = AttrWrite(name: string, value: Number)

  /**
   * Snapshot of a box: the fields `_x`, `_y`, `_width`, `_height`,
   * `_moving`, `startX`, `startY` (None stands for `undefined`), the rect's
   * attributes, and the log of every attribute write made so far.
   */
  datatype Box = Box(
    x: int, y: int, width: Number, height: Number,
    moving: bool, startX: Option<int>, startY: Option<int>,
    attrs: map<string, Number>, writes: seq<AttrWrite>)

  /** The effect of one `setAttributeNS` call on the rect. */
  function WriteAttr(b: Box, name: string, v: Number): Box {
    b.(attrs := b.attrs[name := v], writes := b.writes + [AttrWrite(name, v)])
  }

  /** `set x(v)`: store, anchor if no anchor yet, write attribute `x`. Only when the value changes. */
  function AssignX(b: Box, v: int): Box {
    if v != b.x then
      WriteAttr(b.(x := v, startX := if b.startX.None? then Some(v) else b.startX), "x", Num(v))
    else
      b
  }

  /** `set y(v)`, as `set x` on the other axis. */
  function AssignY(b: Box, v: int): Box {
    if v != b.y then
      WriteAttr(b.(y := v, startY := if b.startY.None? then Some(v) else b.startY), "y", Num(v))
    else
      b
  }

  /** `set width(v)`: store and write attribute `width`. Only when the value changes. */
  function AssignWidth(b: Box, v: Number): Box {
    if StrictlyDiffers(v, b.width) then WriteAttr(b.(width := v), "width", v) else b
  }

  /** `set height(v)`: store and write attribute `height`. Only when the value changes. */
  function AssignHeight(b: Box, v: Number): Box {
    if StrictlyDiffers(v, b.height) then WriteAttr(b.(height := v), "height", v) else b
  }

  /** `set moving(m)`: store the flag, and drop both anchors when it is false. */
  function AssignMoving(b: Box, m: bool): Box {
    if m then b.(moving := true) else b.(moving := false, startX := None, startY := None)
  }

  /**
   * The box right after `new InteractiveSVGRect(svg, x, y, width, height)`.
   * The fields start out undefined, so each of the four setter calls sees
   * a changed value. Each one stores its value, anchors x and y, and writes
   * its attribute. Then `moving = false` drops the anchors.
   */
  function Create(x: int, y: int, width: int, height: int): Box {
    Box(x, y, Num(width), Num(height), false, None, None,
        map["x" := Num(x), "y" := Num(y), "width" := Num(width), "height" := Num(height)],
        [AttrWrite("x", Num(x)), AttrWrite("y", Num(y)),
         AttrWrite("width", Num(width)), AttrWrite("height", Num(height))])
  }

  /** `resetToDefault()`: x, y, width, height := 0 through the setters, then moving := false. */
  function Reset(b: Box): Box {
    AssignMoving(AssignHeight(AssignWidth(AssignY(AssignX(b, 0), 0), Num(0)), Num(0)), false)
  }

  /** The rect shows the stored geometry: each of its four attributes equals its field. */
  predicate Synced(b: Box) {
    && "x" in b.attrs && b.attrs["x"] == Num(b.x)
    && "y" in b.attrs && b.attrs["y"] == Num(b.y)
    && "width" in b.attrs && b.attrs["width"] == b.width
    && "height" in b.attrs && b.attrs["height"] == b.height
  }

  // ---------------------------------------------------------------------
  // Setter laws
  // ---------------------------------------------------------------------

  /** Assigning a coordinate or a (non-NaN) extent its current value changes nothing. */
  lemma AssignSameIsNoOp(b: Box)
    ensures AssignX(b, b.x) == b && AssignY(b, b.y) == b
    ensures b.width.Num? ==> AssignWidth(b, b.width) == b
    ensures b.height.Num? ==> AssignHeight(b, b.height) == b
  {
  }

  /** NaN never equals the stored value, so assigning it always writes the attribute. */
  lemma AssignNaNAlwaysWrites(b: Box)
    ensures AssignWidth(b, NaN).writes == b.writes + [AttrWrite("width", NaN)]
    ensures AssignHeight(b, NaN).writes == b.writes + [AttrWrite("height", NaN)]
  {
  }

  /**
   * A new x is stored and written to attribute `x` in exactly one write. It
   * becomes the anchor only when no anchor is present. Nothing but `x`,
   * `startX` and the rect changes.
   */
  lemma AssignXNewValue(b: Box, v: int)
    requires v != b.x
    ensures var r := AssignX(b, v);
      && r.x == v && r.attrs == b.attrs["x" := Num(v)]
      && r.writes == b.writes + [AttrWrite("x", Num(v))]
      && r.startX == (if b.startX.None? then Some(v) else b.startX)
      && r.(x := b.x, startX := b.startX, attrs := b.attrs, writes := b.writes) == b
  {
  }

  /** `set y` mirrors `set x`. */
  lemma AssignYNewValue(b: Box, v: int)
    requires v != b.y
    ensures var r := AssignY(b, v);
      && r.y == v && r.attrs == b.attrs["y" := Num(v)]
      && r.writes == b.writes + [AttrWrite("y", Num(v))]
      && r.startY == (if b.startY.None? then Some(v) else b.startY)
      && r.(y := b.y, startY := b.startY, attrs := b.attrs, writes := b.writes) == b
  {
  }

  /** A changed width or height touches only that field and its attribute: no anchor, no flag, no other field. */
  lemma AssignExtentTouchesOnlyItself(b: Box, v: Number)
    ensures var r := AssignWidth(b, v);
      && r.(width := b.width, attrs := b.attrs, writes := b.writes) == b
      && (StrictlyDiffers(v, b.width) ==>
            r.width == v && r.attrs == b.attrs["width" := v] && r.writes == b.writes + [AttrWrite("width", v)])
    ensures var r := AssignHeight(b, v);
      && r.(height := b.height, attrs := b.attrs, writes := b.writes) == b
      && (StrictlyDiffers(v, b.height) ==>
            r.height == v && r.attrs == b.attrs["height" := v] && r.writes == b.writes + [AttrWrite("height", v)])
  {
  }

  /**
   * `moving = false` drops both anchors from any state. `moving = true` keeps
   * them as they were. Neither touches the geometry, the rect or the log.
   */
  lemma AssignMovingAnchors(b: Box)
    ensures AssignMoving(b, false).startX.None? && AssignMoving(b, false).startY.None?
    ensures AssignMoving(b, true).startX == b.startX && AssignMoving(b, true).startY == b.startY
    ensures AssignMoving(b, true).moving && !AssignMoving(b, false).moving
    ensures AssignMoving(b, true).(moving := b.moving) == b
    ensures AssignMoving(b, false).(moving := b.moving, startX := b.startX, startY := b.startY) == b
  {
  }

  /** A freshly built box holds its arguments, is idle, has no anchor, and its rect got all four attributes. */
  lemma CreateState(x: int, y: int, width: int, height: int)
    ensures var b := Create(x, y, width, height);
      && b.x == x && b.y == y && b.width == Num(width) && b.height == Num(height)
      && !b.moving && b.startX.None? && b.startY.None?
      && Synced(b) && |b.writes| == 4
  {
  }

  /**
   * Between calls, an idle box has no anchor. Inside `resetToDefault` a
   * coordinate write may anchor an idle box for a moment, but the final
   * `moving = false` drops that anchor again.
   */
  predicate IdleUnanchored(b: Box) {
    !b.moving ==> b.startX.None? && b.startY.None?
  }

  /** Construction, reset and both flag settings leave an idle box unanchored. */
  lemma IdleUnanchoredByConstruction(x: int, y: int, width: int, height: int, b: Box)
    ensures IdleUnanchored(Create(x, y, width, height))
    ensures IdleUnanchored(Reset(b))
    ensures IdleUnanchored(AssignMoving(b, false))
    ensures IdleUnanchored(AssignMoving(b, true))
  {
  }

  /** Each setter keeps the rect showing the stored geometry. */
  lemma AssignsKeepSynced(b: Box, x: int, y: int, w: Number, h: Number, m: bool)
    requires Synced(b)
    ensures Synced(AssignX(b, x)) && Synced(AssignY(b, y))
    ensures Synced(AssignWidth(b, w)) && Synced(AssignHeight(b, h)) && Synced(AssignMoving(b, m))
  {
  }

  /** After a reset the box is all zeros, idle and unanchored. A second reset does nothing at all, so it makes no write. */
  lemma ResetDefaults(b: Box)
    ensures var r := Reset(b);
      && r.x == 0 && r.y == 0 && r.width == Num(0) && r.height == Num(0)
      && !r.moving && r.startX.None? && r.startY.None?
    ensures Reset(Reset(b)) == Reset(b)
    ensures Synced(b) ==> Synced(Reset(b))
  {
  }

  // ---------------------------------------------------------------------
  // Sequences of assignments: the rect is written exactly once per change
  // ---------------------------------------------------------------------

  /** One property assignment, as a caller of the box makes it. */
  datatype Assignment = SetX(int) | SetY(int) | SetWidth(Number) | SetHeight(Number) | SetMoving(bool)

  function Apply(b: Box, a: Assignment): Box {
    match a
    case SetX(v) => AssignX(b, v)
    case SetY(v) => AssignY(b, v)
    case SetWidth(v) => AssignWidth(b, v)
    case SetHeight(v) => AssignHeight(b, v)
    case SetMoving(m) => AssignMoving(b, m)
  }

  /** Whether `a` gives a geometry property a value that differs from the one held now. */
  predicate Changes(b: Box, a: Assignment) {
    match a
    case SetX(v) => v != b.x
    case SetY(v) => v != b.y
    case SetWidth(v) => StrictlyDiffers(v, b.width)
    case SetHeight(v) => StrictlyDiffers(v, b.height)
    case SetMoving(_) => false
  }

  function ApplyAll(b: Box, ops: seq<Assignment>): Box
    decreases |ops|
  {
    if ops == [] then b else ApplyAll(Apply(b, ops[0]), ops[1..])
  }

  /** How many assignments in `ops` give a geometry property a new value, each judged against the value held just before it. */
  function ChangeCount(b: Box, ops: seq<Assignment>): nat
    decreases |ops|
  {
    if ops == [] then 0
    else (if Changes(b, ops[0]) then 1 else 0) + ChangeCount(Apply(b, ops[0]), ops[1..])
  }

  /**
   * One assignment writes the rect exactly when it changes a value. Then it
   * adds exactly one write. Otherwise it leaves the rect and the log as
   * they were. It keeps the rect synced either way.
   */
  lemma ApplyWritesIffChanged(b: Box, a: Assignment)
    ensures Changes(b, a) <==> |Apply(b, a).writes| == |b.writes| + 1
    ensures !Changes(b, a) ==> Apply(b, a).writes == b.writes && Apply(b, a).attrs == b.attrs
    ensures Apply(b, a).writes[..|b.writes|] == b.writes
    ensures Synced(b) ==> Synced(Apply(b, a))
  {
  }

  /** Over any sequence of assignments, the rect gets one write per value change and no other write. */
  lemma {:induction false} WritesCountChanges(b: Box, ops: seq<Assignment>)
    ensures |ApplyAll(b, ops).writes| == |b.writes| + ChangeCount(b, ops)
    ensures ApplyAll(b, ops).writes[..|b.writes|] == b.writes
    decreases |ops|
  {
    if ops != [] {
      ApplyWritesIffChanged(b, ops[0]);
      WritesCountChanges(Apply(b, ops[0]), ops[1..]);
    }
  }

  /** Every sequence of assignments keeps the rect showing the stored geometry. */
  lemma {:induction false} ApplyAllKeepsSynced(b: Box, ops: seq<Assignment>)
    requires Synced(b)
    ensures Synced(ApplyAll(b, ops))
    decreases |ops|
  {
    if ops != [] {
      ApplyWritesIffChanged(b, ops[0]);
      ApplyAllKeepsSynced(Apply(b, ops[0]), ops[1..]);
    }
  }

  /**
   * Starting idle, after `moving = true` the first changing write to x
   * anchors x at that value. Later writes to x leave the anchor alone.
   */
  lemma {:induction false} FirstWriteAnchors(b: Box, v: int, ops: seq<Assignment>)
    requires !b.moving && b.startX.None? && v != b.x
    requires forall k :: 0 <= k < |ops| ==> !ops[k].SetMoving?
    ensures ApplyAll(AssignX(AssignMoving(b, true), v), ops).startX == Some(v)
  {
    AnchorSurvives(AssignX(AssignMoving(b, true), v), ops);
  }

  /** The same for y: the first changing write to y after `moving = true` anchors y there for good. */
  lemma {:induction false} FirstWriteAnchorsY(b: Box, v: int, ops: seq<Assignment>)
    requires !b.moving && b.startY.None? && v != b.y
    requires forall k :: 0 <= k < |ops| ==> !ops[k].SetMoving?
    ensures ApplyAll(AssignY(AssignMoving(b, true), v), ops).startY == Some(v)
  {
    AnchorSurvives(AssignY(AssignMoving(b, true), v), ops);
  }

  /** Assignments other than `moving` never move a present anchor, on either axis. */
  lemma {:induction false} AnchorSurvives(b: Box, ops: seq<Assignment>)
    requires forall k :: 0 <= k < |ops| ==> !ops[k].SetMoving?
    ensures b.startX.Some? ==> ApplyAll(b, ops).startX == b.startX
    ensures b.startY.Some? ==> ApplyAll(b, ops).startY == b.startY
    decreases |ops|
  {
    if ops != [] {
      assert !ops[0].SetMoving?;
      AnchorSurvives(Apply(b, ops[0]), ops[1..]);
    }
  }

  // ---------------------------------------------------------------------
  // The mutable objects
  // ---------------------------------------------------------------------

  /** The SVG `rect` element, seen only through its attributes and its writes. */
  class SvgRectElement {
    var attributes: map<string, Number>
    /** Every `setAttributeNS` call made on this element, in order. */
    ghost var log: seq<AttrWrite>

    /** `document.createElementNS(XMLNS, 'rect')`: a rect with no attribute set. */
    constructor ()
      ensures attributes == map[] && log == []
    {
      attributes := map[];
      log := [];
    }

    method SetAttributeNS(name: string, value: Number)
      modifies this
      ensures attributes == old(attributes)[name := value]
      ensures log == old(log) + [AttrWrite(name, value)]
    {
      attributes := attributes[name := value];
      log := log + [AttrWrite(name, value)];
    }
  }

  /** The class `InteractiveSVGRect`. Its getters read the fields directly. */
  class InteractiveSVGRect {
    const svgRect: SvgRectElement
    var x: int
    var y: int
    var width: Number
    var height: Number
    var moving: bool
    var startX: Option<int>
    var startY: Option<int>

    ghost function Model(): Box
      reads this, svgRect
    {
      Box(x, y, width, height, moving, startX, startY, svgRect.attributes, svgRect.log)
    }

    /** The object invariant: the rect shows the stored geometry. */
    ghost predicate Valid()
      reads this, svgRect
    {
      Synced(Model())
    }

    /**
     * `new InteractiveSVGRect(svgElement, x, y, width, height)`. Appending
     * the rect to `svgElement` is not modelled.
     */
    constructor (x0: int, y0: int, width0: int, height0: int)
      ensures Valid() && fresh(svgRect)
      ensures Model() == Create(x0, y0, width0, height0)
    {
      var rect := new SvgRectElement();
      // The fields are still undefined, so every setter call below writes.
      x, startX := x0, Some(x0);
      rect.SetAttributeNS("x", Num(x0));
      y, startY := y0, Some(y0);
      rect.SetAttributeNS("y", Num(y0));
      width := Num(width0);
      rect.SetAttributeNS("width", Num(width0));
      height := Num(height0);
      rect.SetAttributeNS("height", Num(height0));
      moving, startX, startY := false, None, None;
      svgRect := rect;
    }

    method SetMoving(m: bool)
      requires Valid()
      modifies this
      ensures Valid() && Model() == AssignMoving(old(Model()), m)
    {
      moving := m;
      if !m {
        startX := None;
        startY := None;
      }
    }

    method SetX(v: int)
      requires Valid()
      modifies this, svgRect
      ensures Valid() && Model() == AssignX(old(Model()), v)
    {
      if v != x {
        x := v;
        if startX.None? {
          startX := Some(v);
        }
        svgRect.SetAttributeNS("x", Num(v));
      }
    }

    method SetY(v: int)
      requires Valid()
      modifies this, svgRect
      ensures Valid() && Model() == AssignY(old(Model()), v)
    {
      if v != y {
        y := v;
        if startY.None? {
          startY := Some(v);
        }
        svgRect.SetAttributeNS("y", Num(v));
      }
    }

    method SetWidth(v: Number)
      requires Valid()
      modifies this, svgRect
      ensures Valid() && Model() == AssignWidth(old(Model()), v)
    {
      if StrictlyDiffers(v, width) {
        width := v;
        svgRect.SetAttributeNS("width", v);
      }
    }

    method SetHeight(v: Number)
      requires Valid()
      modifies this, svgRect
      ensures Valid() && Model() == AssignHeight(old(Model()), v)
    {
      if StrictlyDiffers(v, height) {
        height := v;
        svgRect.SetAttributeNS("height", v);
      }
    }

    method ResetToDefault()
      requires Valid()
      modifies this, svgRect
      ensures Valid() && Model() == Reset(old(Model()))
    {
      SetX(0);
      SetY(0);
      SetWidth(Num(0));
      SetHeight(Num(0));
      SetMoving(false);
    }
  }
}
