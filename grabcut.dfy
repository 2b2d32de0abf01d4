/**
 * The part of `grabcut` in main.js that does not call OpenCV: the guard
 * against a degenerate box, the pass that paints the background green, and
 * the two corners of the outline drawn around the box.
 *
 * OpenCV fixes three things here. The image has been converted to RGB by
 * `cvtColor`, so it is a rows x cols x channels buffer of bytes. The mask
 * is the rows x cols label buffer that `grabCut` fills. Its labels are 0
 * (background), 1 (foreground), 2 (probable background) and
 * 3 (probable foreground).
 */
module GrabCut {
  import opened SvgRect

  newtype byte = v: int | 0 <= v < 256

  /** The box as the callback reads it from the rect: `x`, `y`, `width`, `height`. */
  datatype Selection = Selection(x: int, y: int, width: Number, height: Number)

  datatype Point = Point(x: int, y: int)

  /**
   * `rect.width > 0 && rect.height > 0`. A comparison involving NaN is
   * false, so a NaN extent fails the guard.
   */
  predicate ShouldSegment(s: Selection) {
    s.width.Num? && s.width.n > 0 && s.height.Num? && s.height.n > 0
  }

  /** The corners `(x, y)` and `(x + width, y + height)` of the outline. */
  function Outline(s: Selection): (Point, Point)
    requires s.width.Num? && s.height.Num?
  {
    (Point(s.x, s.y), Point(s.x + s.width.n, s.y + s.height.n))
  }

  /** A box that passes the guard has its first outline corner strictly above and left of the second, the box's size apart. */
  lemma OutlineOrdered(s: Selection)
    requires ShouldSegment(s)
    ensures var (p1, p2) := Outline(s);
      && p1 == Point(s.x, s.y)
      && p1.x < p2.x && p1.y < p2.y
      && Selection(p1.x, p1.y, Num(p2.x - p1.x), Num(p2.y - p1.y)) == s
  {
  }

  /** Mask labels 0 and 2: background and probable background. */
  predicate IsBackground(mark: byte) {
    mark == 0 || mark == 2
  }

  /** The value channel `c` of a pixel holds after the pass: (0, 255, 0) on background, the old value elsewhere. */
  function Recoloured(before: byte, mark: byte, c: int): byte {
    if IsBackground(mark) && 0 <= c < 3 then (if c == 1 then 255 else 0) else before
  }

  /**
   * The nested loop of `grabcut`: every pixel whose mask label is 0 or 2
   * becomes (0, 255, 0). Every other pixel, and every channel past the
   * third, is left as it was.
   */
  method EraseBackground(src: array3<byte>, mask: array2<byte>)
    requires mask.Length0 == src.Length0 && mask.Length1 == src.Length1
    requires src.Length2 >= 3
    modifies src
    ensures forall i, j, c :: 0 <= i < src.Length0 && 0 <= j < src.Length1 && 0 <= c < src.Length2 ==>
      src[i, j, c] == Recoloured(old(src[i, j, c]), mask[i, j], c)
  {
    var i := 0;
    while i < src.Length0
      invariant 0 <= i <= src.Length0
      invariant forall r, k, c :: 0 <= r < src.Length0 && 0 <= k < src.Length1 && 0 <= c < src.Length2 ==>
        src[r, k, c] == (if r < i then Recoloured(old(src[r, k, c]), mask[r, k], c) else old(src[r, k, c]))
    {
      var j := 0;
      while j < src.Length1
        invariant 0 <= j <= src.Length1
        invariant forall r, k, c :: 0 <= r < src.Length0 && 0 <= k < src.Length1 && 0 <= c < src.Length2 ==>
          src[r, k, c] ==
            (if r < i || (r == i && k < j) then Recoloured(old(src[r, k, c]), mask[r, k], c) else old(src[r, k, c]))
      {
        if mask[i, j] == 0 || mask[i, j] == 2 {
          src[i, j, 0] := 0;
          src[i, j, 1] := 255;
          src[i, j, 2] := 0;
        }
        j := j + 1;
      }
      i := i + 1;
    }
  }

  /**
   * `grabcut(imgElement, idCanvasOutput, rect)` with the OpenCV calls taken
   * out. `src` is the image as read and converted. `mask` is the label
   * buffer `cv.grabCut` produced for it. The result is the outline that
   * `cv.rectangle` draws, or None when the guard fails. In that case
   * nothing is touched.
   */
  method Segment(src: array3<byte>, mask: array2<byte>, s: Selection) returns (outline: Option<(Point, Point)>)
    requires mask.Length0 == src.Length0 && mask.Length1 == src.Length1
    requires src.Length2 >= 3
    modifies src
    ensures outline.Some? <==> ShouldSegment(s)
    ensures ShouldSegment(s) ==> outline == Some(Outline(s))
    ensures forall i, j, c :: 0 <= i < src.Length0 && 0 <= j < src.Length1 && 0 <= c < src.Length2 ==>
      src[i, j, c] == if ShouldSegment(s) then Recoloured(old(src[i, j, c]), mask[i, j], c) else old(src[i, j, c])
  {
    if s.width.Num? && s.width.n > 0 && s.height.Num? && s.height.n > 0 {
      EraseBackground(src, mask);
      outline := Some((Point(s.x, s.y), Point(s.x + s.width.n, s.y + s.height.n)));
    } else {
      outline := None;
    }
  }
}
