/** The overlay drawn on a frame around the selected face: a rectangle and a
    4 x 4 grid, i.e. three vertical and three horizontal interior lines. Only
    the coordinates handed to the drawing calls are modelled. */
module Grid {

  datatype Point = Point(x: int, y: int)

  /** One drawing call: `cv2.rectangle` or `cv2.line` between two points. */
  datatype Stroke = Rectangle(p1: Point, p2: Point) | Line(p1: Point, p2: Point)

  /** A camera frame: its size and the strokes drawn on it so far. */
  class Frame {
    const rows: nat
    const cols: nat
    var strokes: seq<Stroke>

    constructor (rows: nat, cols: nat)
      ensures this.rows == rows && this.cols == cols && strokes == []
    {
      this.rows := rows;
      this.cols := cols;
      strokes := [];
    }
  }

  /** Python's `int(a / d)`: the quotient truncated toward zero. */
  function TruncDiv(a: int, d: int): int
    requires d > 0
  {
    if a >= 0 then a / d else -((-a) / d)
  }

  /** Offset of the `i`-th grid line from the box edge, `int(extent * i / 4)`. */
  function Offset(extent: int, i: int): int {
    TruncDiv(extent * i, 4)
  }

  function VerticalLine(x: int, y: int, w: int, h: int, i: int): Stroke {
    var vx := x + Offset(w, i);
    Line(Point(vx, y), Point(vx, y + h))
  }

  function HorizontalLine(x: int, y: int, w: int, h: int, i: int): Stroke {
    var hy := y + Offset(h, i);
    Line(Point(x, hy), Point(x + w, hy))
  }

  function BoxOutline(x: int, y: int, w: int, h: int): Stroke {
    Rectangle(Point(x, y), Point(x + w, y + h))
  }

  function VerticalLines(x: int, y: int, w: int, h: int): seq<Stroke> {
    seq(3, k => VerticalLine(x, y, w, h, k + 1))
  }

  function HorizontalLines(x: int, y: int, w: int, h: int): seq<Stroke> {
    seq(3, k => HorizontalLine(x, y, w, h, k + 1))
  }

  /** Everything `draw_ai_grid` draws, in drawing order. */
  function GridStrokes(x: int, y: int, w: int, h: int): seq<Stroke> {
    [BoxOutline(x, y, w, h)] + VerticalLines(x, y, w, h) + HorizontalLines(x, y, w, h)
  }

  /** For a non-negative extent the offset is the floor of `extent * i / 4`. */
  lemma OffsetIsFloor(extent: int, i: int)
    requires extent >= 0 && i >= 0
    ensures 4 * Offset(extent, i) <= extent * i < 4 * Offset(extent, i) + 4
  {
  }

  /** For a box of non-negative size the interior lines are evenly spread:
      they run across the whole box, lie inside it, and come in order. */
  lemma GridInsideBox(x: int, y: int, w: int, h: int)
    requires w >= 0 && h >= 0
    ensures |GridStrokes(x, y, w, h)| == 7
    ensures forall i :: 1 <= i <= 3 ==>
              var v := VerticalLine(x, y, w, h, i);
              x <= v.p1.x == v.p2.x <= x + w && v.p1.y == y && v.p2.y == y + h
    ensures forall i :: 1 <= i <= 3 ==>
              var l := HorizontalLine(x, y, w, h, i);
              y <= l.p1.y == l.p2.y <= y + h && l.p1.x == x && l.p2.x == x + w
    ensures forall i :: 1 <= i < 3 ==>
              Offset(w, i) <= Offset(w, i + 1) && Offset(h, i) <= Offset(h, i + 1)
  {
    forall i | 1 <= i <= 3
      ensures 0 <= Offset(w, i) <= w && 0 <= Offset(h, i) <= h
    {
      OffsetBounds(w, i);
      OffsetBounds(h, i);
    }
    forall i | 1 <= i < 3
      ensures Offset(w, i) <= Offset(w, i + 1) && Offset(h, i) <= Offset(h, i + 1)
    {
      assert w * (i + 1) == w * i + w;
      assert h * (i + 1) == h * i + h;
    }
  }

  lemma OffsetBounds(extent: int, i: int)
    requires extent >= 0 && 1 <= i <= 3
    ensures 0 <= Offset(extent, i) <= extent
  {
    assert extent * i <= extent * 4 by {
      if i == 1 {} else if i == 2 {} else {}
    }
  }
}
