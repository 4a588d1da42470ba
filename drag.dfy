/** The coordinate arithmetic of dragging: the pointer offset captured on press, grid
    snapping and clamping to the 800x600 canvas on every move, and the centred placement of
    a new shape. All coordinates are canvas pixels as reals. */
module Drag {
  import opened Wrappers
  import opened Document

  const GridSize: int := 20
  const CanvasWidth: int := 800
  const CanvasHeight: int := 600
  /** The size a drag assumes when the dragged shape has none (or size 0, which is falsy). */
  const FallbackSize: int := 100

  /** `v` is an integer multiple of the grid unit. */
  ghost predicate OnGrid(v: real) {
    v == v.Floor as real && v.Floor % GridSize == 0
  }

  /** `Math.round(v / 20) * 20`, with `Math.round(t) == Floor(t + 1/2)`: the nearest grid
      line, ties going up. */
  function Snap(v: real): (r: real)
    ensures OnGrid(r)
    ensures v - (GridSize as real) / 2.0 < r <= v + (GridSize as real) / 2.0
  {
    var t := v / GridSize as real + 0.5;
    var n := t.Floor;
    assert n as real <= t < n as real + 1.0;
    assert (n * GridSize) as real == n as real * GridSize as real;
    (n * GridSize) as real
  }

  /** A grid line snaps to itself. */
  lemma SnapOnGrid(v: real)
    requires OnGrid(v)
    ensures Snap(v) == v
  {
    var n := v.Floor / GridSize;
    assert v.Floor == n * GridSize;
    assert v == n as real * 20.0;
    var t := v / GridSize as real + 0.5;
    assert t == n as real + 0.5;
    assert t.Floor == n by {
      assert t.Floor as real <= t < t.Floor as real + 1.0;
    }
  }

  /** `Math.max(0, Math.min(v, hi))`. */
  function Clamp(v: real, hi: real): (r: real)
    ensures 0.0 <= r
    ensures 0.0 <= hi ==> r <= hi
    ensures 0.0 <= v <= hi ==> r == v
    ensures 0.0 <= hi && v < 0.0 ==> r == 0.0
    ensures 0.0 <= hi < v ==> r == hi
    ensures hi < 0.0 ==> r == 0.0
    ensures r == v || r == hi || r == 0.0
  {
    var m := if v < hi then v else hi;
    if m < 0.0 then 0.0 else m
  }

  /** One axis of a move: snap when enabled, then keep the shape's extent inside `[0, hi]`. */
  function Axis(raw: real, hi: real, snap: bool): (r: real)
    ensures 0.0 <= r && (0.0 <= hi ==> r <= hi)
    ensures !snap && 0.0 <= raw <= hi ==> r == raw
    ensures snap && 0.0 <= Snap(raw) <= hi ==> r == Snap(raw)
    ensures snap && OnGrid(hi) ==> OnGrid(r)
  {
    Clamp(if snap then Snap(raw) else raw, hi)
  }

  /** The shape's whole bounding box lies inside the canvas. */
  ghost predicate Inside(pos: Position, size: int) {
    0.0 <= pos.x <= (CanvasWidth - size) as real && 0.0 <= pos.y <= (CanvasHeight - size) as real
  }

  /** The position a move writes: pointer minus canvas origin minus captured offset, snapped
      when enabled and clamped. */
  function DragTarget(pointer: Position, origin: Position, offset: Position, size: int, snap: bool): (r: Position)
    ensures 0.0 <= r.x && 0.0 <= r.y
    ensures size <= CanvasWidth ==> r.x <= (CanvasWidth - size) as real
    ensures size <= CanvasHeight ==> r.y <= (CanvasHeight - size) as real
    ensures size <= CanvasHeight ==> Inside(r, size)
  {
    Position(Axis(pointer.x - origin.x - offset.x, (CanvasWidth - size) as real, snap),
             Axis(pointer.y - origin.y - offset.y, (CanvasHeight - size) as real, snap))
  }

  /** `selectedShape?.props?.size || 100`: the dragged shape's size, or the fallback when the
      shape is missing or its size is 0. */
  function EffectiveSize(shapes: seq<Shape>, id: Id): (r: int)
    ensures r != 0
    ensures Find(shapes, id).None? ==> r == FallbackSize
    ensures Find(shapes, id).Some? && Find(shapes, id).value.props.size == 0 ==> r == FallbackSize
    ensures Find(shapes, id).Some? && Find(shapes, id).value.props.size != 0 ==>
              r == Find(shapes, id).value.props.size
  {
    match Find(shapes, id)
    case None => FallbackSize
    case Some(s) => if s.props.size == 0 then FallbackSize else s.props.size
  }

  /** With unique ids, a drag uses the size of the dragged shape itself. */
  lemma EffectiveSizeOfShape(shapes: seq<Shape>, k: nat)
    requires UniqueIds(shapes) && k < |shapes| && shapes[k].props.size != 0
    ensures EffectiveSize(shapes, shapes[k].id) == shapes[k].props.size
  {
  }

  /** With snapping on, a move whose clamp bound is a grid line writes a grid line. */
  lemma SnappedAxisOnGrid(raw: real, hi: real)
    requires OnGrid(hi)
    ensures OnGrid(Axis(raw, hi, true))
  {
    assert OnGrid(0.0);
  }

  /** With snapping on, a shape of size 110 pushed past the right edge stops at 690, which is
      not a grid line: the clamp applies after the snap. */
  lemma ClampedSnapLeavesGrid()
    ensures DragTarget(Position(1000.0, 0.0), Position(0.0, 0.0), Position(0.0, 0.0), 110, true).x == 690.0
    ensures !OnGrid(690.0)
  {
  }

  /** Where `addShape` puts a new shape: its bounding box centred on the canvas. */
  function Centered(size: int): (r: Position)
    ensures r.x + (size as real) / 2.0 == (CanvasWidth as real) / 2.0
    ensures r.y + (size as real) / 2.0 == (CanvasHeight as real) / 2.0
  {
    Position(400.0 - (size as real) / 2.0, 300.0 - (size as real) / 2.0)
  }

  /** A new shape of any size the panel allows starts inside the canvas. */
  lemma CenteredInside(size: int)
    requires 0 <= size <= CanvasHeight
    ensures Inside(Centered(size), size)
  {
  }

  /** The offset `handleMouseDown` records: the pointer's viewport coordinates minus the
      shape's canvas coordinates. */
  function PressOffsetAsWritten(pointer: Position, pos: Position): (r: Position)
    ensures pos.x + r.x == pointer.x && pos.y + r.y == pointer.y
  {
    Position(pointer.x - pos.x, pointer.y - pos.y)
  }

  /** As written, a press followed by a move that does not move the pointer shifts the shape
      by minus the canvas origin (the origin is subtracted on move but was never added on
      press). */
  lemma PressOffsetAsWrittenShifts(pointer: Position, origin: Position, pos: Position, size: int)
    ensures DragTarget(pointer, origin, PressOffsetAsWritten(pointer, pos), size, false)
         == Position(Clamp(pos.x - origin.x, (CanvasWidth - size) as real),
                     Clamp(pos.y - origin.y, (CanvasHeight - size) as real))
  {
  }

  /** A concrete case: canvas origin (100, 50), shape of size 100 at (300, 200), pointer
      pressed and not moved; the shape lands at (200, 150). */
  lemma PressOffsetAsWrittenJumps()
    ensures DragTarget(Position(400.0, 250.0), Position(100.0, 50.0),
                       PressOffsetAsWritten(Position(400.0, 250.0), Position(300.0, 200.0)), 100, false)
         == Position(200.0, 150.0)
  {
  }

  /** The pointer-to-shape offset in canvas coordinates: the pointer's canvas position minus
      the shape's position. */
  function PressOffset(pointer: Position, origin: Position, pos: Position): (r: Position)
    ensures origin.x + pos.x + r.x == pointer.x && origin.y + pos.y + r.y == pointer.y
  {
    Position(pointer.x - origin.x - pos.x, pointer.y - origin.y - pos.y)
  }

  /** With the canvas-local offset the shape follows the pointer's displacement since the
      press (clamped), so a press without motion leaves an inside shape where it was. */
  lemma DragFollowsPointer(press: Position, pointer: Position, origin: Position, pos: Position, size: int)
    ensures DragTarget(pointer, origin, PressOffset(press, origin, pos), size, false)
         == Position(Clamp(pos.x + (pointer.x - press.x), (CanvasWidth - size) as real),
                     Clamp(pos.y + (pointer.y - press.y), (CanvasHeight - size) as real))
    ensures Inside(pos, size) ==> DragTarget(press, origin, PressOffset(press, origin, pos), size, false) == pos
  {
  }
}
