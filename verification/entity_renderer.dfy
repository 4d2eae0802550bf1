/**
 The agent's body as `EntityRenderer` keeps it: position, heading, starting
 point, and the two look-ahead pixel checks that `EntityControl` consults
 before a move. Drawing is not modelled.
 */
module EntityRenderer {
  import opened Wrappers
  import opened JsMath
  import opened Canvas

  /** `this.radius`, fixed by the constructor. */
  const Radius: int := 15

  /** Position, heading (radians) and the starting point `resetToStartingPosition` returns to. */
  datatype Entity = Entity(x: real, y: real, angle: real, startX: real, startY: real)

  /** An argument of `checkCollision`, which first tests `typeof dx === 'number'`; an omitted argument takes its default 0. */
  datatype Arg = Num(value: real) | NotANumber

  /** The pixel window a look-ahead check reads: the target point, then `getImageData`'s four arguments. */
  datatype Window = Window(targetX: real, targetY: real, startX: int, startY: int, width: int, height: int)

  /** The constructor: heading 0 and the starting point at the initial position. */
  function NewEntity(x: real, y: real): (e: Entity)
    ensures e.x == x && e.y == y && e.angle == 0.0
    ensures e.startX == x && e.startY == y
  {
    Entity(x, y, 0.0, x, y)
  }

  /** `updateAngle(newAngle)`: sets the heading, nothing else. */
  function UpdateAngle(e: Entity, newAngle: real): (r: Entity)
    ensures r.angle == newAngle
    ensures r.x == e.x && r.y == e.y && r.startX == e.startX && r.startY == e.startY
  {
    e.(angle := newAngle)
  }

  /** `updatePosition(dx, dy)`: translates by (`dx`, `dy`), nothing else. */
  function UpdatePosition(e: Entity, dx: real, dy: real): (r: Entity)
    ensures r.x == e.x + dx && r.y == e.y + dy
    ensures r.angle == e.angle && r.startX == e.startX && r.startY == e.startY
  {
    e.(x := e.x + dx, y := e.y + dy)
  }

  /** `resetToStartingPosition()`: back to the constructor's position with heading 0. */
  function ResetToStartingPosition(e: Entity): (r: Entity)
    ensures r == NewEntity(e.startX, e.startY)
  {
    e.(x := e.startX, y := e.startY, angle := 0.0)
  }

  /** Two translations compose into one, and a translation is undone by its opposite. */
  lemma UpdatePositionComposes(e: Entity, dx1: real, dy1: real, dx2: real, dy2: real)
    ensures UpdatePosition(UpdatePosition(e, dx1, dy1), dx2, dy2) == UpdatePosition(e, dx1 + dx2, dy1 + dy2)
    ensures UpdatePosition(UpdatePosition(e, dx1, dy1), -dx1, -dy1) == e
  {
  }

  /** Resetting an entity that never left its constructor state changes nothing. */
  lemma ResetOfNewEntity(x: real, y: real)
    ensures ResetToStartingPosition(NewEntity(x, y)) == NewEntity(x, y)
  {
  }

  // ---------------------------------------------------------------------------
  // Look-ahead windows
  // ---------------------------------------------------------------------------

  /**
   The window of `checkCollision(dx, dy)`: the target clamped into the
   canvas, a `2 * radius` square around it, cut at the canvas's right and
   bottom edges. It always lies inside the canvas.
   */
  function CollisionWindow(e: Entity, c: Canvas, dx: real, dy: real): (w: Window)
    ensures 0.0 <= w.targetX <= c.width as real && 0.0 <= w.targetY <= c.height as real
    ensures w.startX >= 0 && w.startY >= 0
    ensures 0 <= w.width <= 2 * Radius && 0 <= w.height <= 2 * Radius
    ensures w.startX + w.width <= c.width && w.startY + w.height <= c.height
    ensures w.width == 0 <==> c.width == 0
    ensures w.height == 0 <==> c.height == 0
  {
    var newX := Max(0.0, Min(e.x + dx, c.width as real));
    var newY := Max(0.0, Min(e.y + dy, c.height as real));
    var size := Radius * 2;
    var startX := IntMax(0, Round(newX - Radius as real));
    var startY := IntMax(0, Round(newY - Radius as real));
    Window(newX, newY, startX, startY, IntMin(size, c.width - startX), IntMin(size, c.height - startY))
  }

  /**
   The window of `checkBeacon(dx, dy)`: the same arithmetic without the
   clamp, so its width or height can be zero or negative when the target
   lies beyond the canvas.
   */
  function BeaconWindow(e: Entity, c: Canvas, dx: real, dy: real): (w: Window)
    ensures w.targetX == e.x + dx && w.targetY == e.y + dy
    ensures w.startX >= 0 && w.startY >= 0
    ensures w.width <= 2 * Radius && w.height <= 2 * Radius
    ensures w.startX + w.width <= c.width || w.width == 2 * Radius
  {
    var newX := e.x + dx;
    var newY := e.y + dy;
    var size := Radius * 2;
    var startX := IntMax(0, Round(newX - Radius as real));
    var startY := IntMax(0, Round(newY - Radius as real));
    Window(newX, newY, startX, startY, IntMin(size, c.width - startX), IntMin(size, c.height - startY))
  }

  /** For a target inside the canvas the two checks read the same window; they differ only beyond the edges. */
  lemma WindowsAgreeInside(e: Entity, c: Canvas, dx: real, dy: real)
    requires 0.0 <= e.x + dx <= c.width as real && 0.0 <= e.y + dy <= c.height as real
    ensures CollisionWindow(e, c, dx, dy) == BeaconWindow(e, c, dx, dy)
  {
  }

  /** The pixels `getImageData` returns for a window. */
  function WindowRect(w: Window): Rect {
    Normalize(w.startX, w.startY, w.width, w.height)
  }

  /** Some pixel of the window shows the sentinel of `h`. */
  predicate WindowShows(c: Canvas, w: Window, h: Hit) {
    var r := WindowRect(w);
    exists px, py :: r.x <= px < r.x + r.w && r.y <= py < r.y + r.h && PixelShows(c, px, py, h)
  }

  /** Read the window and scan it for `h`; a throwing read counts as no hit. */
  function ScanWindow(c: Canvas, w: Window, h: Hit): (r: bool)
    ensures r <==> WindowShows(c, w, h)
    ensures GetImageData(c, w.startX, w.startY, w.width, w.height).None? ==> !r
  {
    match GetImageData(c, w.startX, w.startY, w.width, w.height)
    case None => false
    case Some(data) =>
      ScanRegion(c, WindowRect(w), h);
      Scan(data, h)
  }

  /** `checkCollision(dx, dy)`: false for a non-number; else whether some window pixel has R = G = B = 0. */
  function CheckCollision(e: Entity, c: Canvas, dx: Arg, dy: Arg): (r: bool)
    ensures !(dx.Num? && dy.Num?) ==> !r
    ensures dx.Num? && dy.Num? ==> (r <==> WindowShows(c, CollisionWindow(e, c, dx.value, dy.value), Wall))
  {
    if !(dx.Num? && dy.Num?) then false
    else ScanWindow(c, CollisionWindow(e, c, dx.value, dy.value), Wall)
  }

  /** `checkBeacon(dx, dy)`: whether some pixel of the unclamped window is (0, 0, 255). */
  function CheckBeacon(e: Entity, c: Canvas, dx: real, dy: real): (r: bool)
    ensures r <==> WindowShows(c, BeaconWindow(e, c, dx, dy), Beacon)
  {
    ScanWindow(c, BeaconWindow(e, c, dx, dy), Beacon)
  }
}
